/**
 * Token lookup (auth.py). The process environment is a map from variable
 * names to values; the configuration is the validated ServiceConfig.
 */
module Auth {
  import opened Wrappers
  import opened Strings
  import opened Py
  import opened Dicts
  import opened Errors
  import opened Exceptions
  import opened Config

  type Env = map<string, string>

  /** `os.environ.get(name)` */
  function EnvGet(env: Env, name: string): Option<string> {
    if name in env then Some(env[name]) else None
  }

  /** `get_token(service)`: the value of the variable the service's auth
      entry names, or None without an entry. */
  function GetToken(cfg: ServiceConfig, env: Env, service: string): (r: Option<string>)
    ensures Get(cfg.auth, service).None? ==> r.None?
    ensures Get(cfg.auth, service).Some? ==> r == EnvGet(env, Get(cfg.auth, service).value.tokenEnv)
  {
    match Get(cfg.auth, service)
    case None => None
    case Some(ac) => EnvGet(env, ac.tokenEnv)
  }

  /** The variable named in the error: the configured one, else
      SERVICE_TOKEN. */
  function EnvVarFor(cfg: ServiceConfig, service: string): string {
    match Get(cfg.auth, service)
    case Some(ac) => ac.tokenEnv
    case None => Upper(service) + "_TOKEN"
  }

  function AuthRequired(service: string, envVar: string): MCPError {
    MCPError(Authentication, "Authentication required for " + service, service, false,
      "Set the " + envVar + " environment variable with your API token", [("env_var", Str(envVar))])
  }

  /** `require_token(service)` */
  function RequireToken(cfg: ServiceConfig, env: Env, service: string): (r: Outcome<string>)
    ensures r.Ok? <==> GetToken(cfg, env, service).Some? && GetToken(cfg, env, service).value != ""
    ensures r.Ok? ==> r.value == GetToken(cfg, env, service).value
    ensures r.Err? ==>
      (r.error.Mcp? && r.error.err.code == Authentication && !r.error.err.recoverable
       && r.error.err.service == service
       && Get(r.error.err.details, "env_var") == Some(Str(EnvVarFor(cfg, service))))
  {
    var token := GetToken(cfg, env, service);
    if token.None? || token.value == "" then Err(Mcp(AuthRequired(service, EnvVarFor(cfg, service))))
    else Ok(token.value)
  }

  /** The status record of one configured service. */
  function StatusOf(env: Env, service: string, ac: AuthConfig): Value {
    Dict([
      ("configured", Bool(ac.tokenEnv in env)),
      ("env_var", Str(ac.tokenEnv)),
      ("required", Bool(service == "ads"))])
  }

  /** The statuses of the first `k` auth entries. */
  function StatusPrefix(auth: seq<(string, AuthConfig)>, env: Env, k: nat): seq<(string, Value)>
    requires k <= |auth|
  {
    if k == 0 then [] else Set(StatusPrefix(auth, env, k - 1), auth[k - 1].0, StatusOf(env, auth[k - 1].0, auth[k - 1].1))
  }

  /** `check_auth_status()` */
  method CheckAuthStatus(cfg: ServiceConfig, env: Env) returns (status: seq<(string, Value)>)
    ensures status == StatusPrefix(cfg.auth, env, |cfg.auth|)
  {
    status := [];
    for i := 0 to |cfg.auth|
      invariant status == StatusPrefix(cfg.auth, env, i)
    {
      var service, ac := cfg.auth[i].0, cfg.auth[i].1;
      status := Set(status, service, StatusOf(env, service, ac));
    }
  }

  /** One status per configured service, in configuration order: configured
      iff the variable is set (even to ""), required iff the service is
      ADS. */
  lemma {:induction false} StatusEntries(auth: seq<(string, AuthConfig)>, env: Env, k: nat)
    requires k <= |auth| && UniqueKeys(auth)
    ensures Keys(StatusPrefix(auth, env, k)) == Keys(auth[..k])
    ensures forall i :: 0 <= i < k ==>
      Get(StatusPrefix(auth, env, k), auth[i].0) == Some(StatusOf(env, auth[i].0, auth[i].1))
  {
    if k > 0 {
      var prev := StatusPrefix(auth, env, k - 1);
      StatusEntries(auth, env, k - 1);
      var key, v := auth[k - 1].0, StatusOf(env, auth[k - 1].0, auth[k - 1].1);
      assert !HasKey(prev, key) by {
        HasKeyKeys(prev, key);
        var ks := Keys(auth[..k - 1]);
        assert forall i :: 0 <= i < |ks| ==> ks[i] != key;
      }
      assert Keys(StatusPrefix(auth, env, k)) == Keys(auth[..k]) by {
        SetKeys(prev, key, v);
        assert Keys(auth[..k]) == Keys(auth[..k - 1]) + [key];
      }
      forall i | 0 <= i < k
        ensures Get(StatusPrefix(auth, env, k), auth[i].0) == Some(StatusOf(env, auth[i].0, auth[i].1))
      {
        GetSet(prev, key, v, auth[i].0);
      }
    }
  }

  /** An empty-string token counts as configured for the status report but
      is refused by `require_token`. */
  lemma EmptyTokenDisagreement(cfg: ServiceConfig, env: Env, service: string)
    requires Get(cfg.auth, service).Some?
    requires EnvGet(env, Get(cfg.auth, service).value.tokenEnv) == Some("")
    ensures var ac := Get(cfg.auth, service).value;
      StatusOf(env, service, ac).entries[0].1 == Bool(true) && RequireToken(cfg, env, service).Err?
  {
  }
}
