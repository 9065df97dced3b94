/**
 * Python dictionaries with string keys as insertion-ordered sequences of
 * key/value pairs: lookup, assignment and their laws.
 */
module Dicts {
  import opened Wrappers

  function Keys<V>(d: seq<(string, V)>): (ks: seq<string>)
    ensures |ks| == |d| && forall i :: 0 <= i < |d| ==> ks[i] == d[i].0
  {
    seq(|d|, i requires 0 <= i < |d| => d[i].0)
  }

  predicate HasKey<V>(d: seq<(string, V)>, k: string) {
    exists i | 0 <= i < |d| :: d[i].0 == k
  }

  lemma HasKeyKeys<V>(d: seq<(string, V)>, k: string)
    ensures HasKey(d, k) <==> k in Keys(d)
  {
    if HasKey(d, k) {
      var i :| 0 <= i < |d| && d[i].0 == k;
      assert Keys(d)[i] == k;
    }
  }

  /** Every key occurs once, as in a Python dict. */
  predicate UniqueKeys<V>(d: seq<(string, V)>) {
    forall i, j :: 0 <= i < j < |d| ==> d[i].0 != d[j].0
  }

  /** `d.get(k)`: the value stored under the first entry with key `k`. */
  function Get<V>(d: seq<(string, V)>, k: string): Option<V> {
    if |d| == 0 then None
    else if d[0].0 == k then Some(d[0].1)
    else Get(d[1..], k)
  }

  /** A lookup succeeds exactly for the keys present, and finds a stored pair. */
  lemma {:induction false} GetFinds<V>(d: seq<(string, V)>, k: string)
    ensures Get(d, k).Some? <==> HasKey(d, k)
    ensures Get(d, k).Some? ==> exists i | 0 <= i < |d| :: d[i] == (k, Get(d, k).value)
  {
    if |d| > 0 && d[0].0 != k {
      GetFinds(d[1..], k);
      if HasKey(d, k) {
        var i :| 0 <= i < |d| && d[i].0 == k;
        assert d[1..][i - 1].0 == k;
      }
      if Get(d, k).Some? {
        var i :| 0 <= i < |d[1..]| && d[1..][i] == (k, Get(d, k).value);
        assert d[i + 1] == (k, Get(d, k).value);
      }
    }
  }

  /** Looking up the key at position `i`, when no earlier entry has it,
      finds the value at `i`. */
  lemma {:induction false} GetAt<V>(d: seq<(string, V)>, i: nat)
    requires i < |d| && forall j :: 0 <= j < i ==> d[j].0 != d[i].0
    ensures Get(d, d[i].0) == Some(d[i].1)
  {
    if i > 0 {
      GetAt(d[1..], i - 1);
    }
  }

  /** Looking up in `a + b` finds the entry of `a` when `a` has the key,
      and otherwise the entry of `b`. */
  lemma {:induction false} GetAppend<V>(a: seq<(string, V)>, b: seq<(string, V)>, k: string)
    ensures Get(a + b, k) == if HasKey(a, k) then Get(a, k) else Get(b, k)
  {
    if |a| == 0 {
      assert a + b == b;
    } else {
      assert (a + b)[1..] == a[1..] + b;
      GetAppend(a[1..], b, k);
      if a[0].0 != k {
        assert HasKey(a, k) <==> HasKey(a[1..], k) by {
          if HasKey(a, k) { var i :| 0 <= i < |a| && a[i].0 == k; assert a[1..][i - 1].0 == k; }
        }
      }
    }
  }

  /** `d.get(k, default)` */
  function GetOr<V>(d: seq<(string, V)>, k: string, default: V): V {
    Get(d, k).GetOr(default)
  }

  /** `d[k] = v`: replaces the value in place when `k` is present, otherwise
      appends the pair at the end. */
  function Set<V>(d: seq<(string, V)>, k: string, v: V): seq<(string, V)> {
    if |d| == 0 then [(k, v)]
    else if d[0].0 == k then [(k, v)] + d[1..]
    else [d[0]] + Set(d[1..], k, v)
  }

  /** Assignment keeps the key order: an existing key stays where it is, a
      new one goes last. */
  lemma {:induction false} SetKeys<V>(d: seq<(string, V)>, k: string, v: V)
    ensures HasKey(d, k) ==> Keys(Set(d, k, v)) == Keys(d)
    ensures !HasKey(d, k) ==> Keys(Set(d, k, v)) == Keys(d) + [k]
  {
    if |d| > 0 && d[0].0 == k {
      assert HasKey(d, k) by { assert d[0].0 == k; }
    } else if |d| > 0 {
      var rest := d[1..];
      SetKeys(rest, k, v);
      assert HasKey(d, k) <==> HasKey(rest, k) by {
        if HasKey(d, k) { var i :| 0 <= i < |d| && d[i].0 == k; assert rest[i - 1].0 == k; }
        if HasKey(rest, k) { var i :| 0 <= i < |rest| && rest[i].0 == k; assert d[i + 1].0 == k; }
      }
      assert d == [d[0]] + rest;
      KeysCons(d[0], rest);
      assert Set(d, k, v) == [d[0]] + Set(rest, k, v);
      KeysCons(d[0], Set(rest, k, v));
    }
  }

  lemma KeysCons<V>(p: (string, V), d: seq<(string, V)>)
    ensures Keys([p] + d) == [p.0] + Keys(d)
  {
    var l, r := Keys([p] + d), [p.0] + Keys(d);
    forall i | 0 <= i < |l|
      ensures l[i] == r[i]
    {
      if i > 0 {
        assert ([p] + d)[i] == d[i - 1];
      }
    }
  }

  /** After `d[k] = v`, `k` maps to `v` and every other key is untouched. */
  lemma {:induction false} GetSet<V>(d: seq<(string, V)>, k: string, v: V, k': string)
    ensures Get(Set(d, k, v), k') == if k' == k then Some(v) else Get(d, k')
  {
    if |d| > 0 && d[0].0 != k {
      GetSet(d[1..], k, v, k');
    }
  }

  /** Assigning the key at position `i`, when no earlier entry has it,
      replaces that entry's value where it stands. */
  lemma {:induction false} SetAt<V>(d: seq<(string, V)>, i: nat, v: V)
    requires i < |d| && forall j :: 0 <= j < i ==> d[j].0 != d[i].0
    ensures Set(d, d[i].0, v) == d[i := (d[i].0, v)]
  {
    if i > 0 {
      SetAt(d[1..], i - 1, v);
      assert d[i := (d[i].0, v)] == [d[0]] + d[1..][i - 1 := (d[i].0, v)];
    }
  }

  /** Assignment keeps keys unique. */
  lemma {:induction false} SetUnique<V>(d: seq<(string, V)>, k: string, v: V)
    requires UniqueKeys(d)
    ensures UniqueKeys(Set(d, k, v))
  {
    var r := Set(d, k, v);
    SetKeys(d, k, v);
    var kr, kd := Keys(r), Keys(d);
    forall i, j | 0 <= i < j < |r|
      ensures r[i].0 != r[j].0
    {
      assert kr[i] == r[i].0 && kr[j] == r[j].0;
      if HasKey(d, k) {
        assert kr == kd;
      } else {
        assert kr == kd + [k];
        if j == |d| {
          assert kr[i] == d[i].0;
          assert d[i].0 != k;
        }
      }
    }
  }

  /** Building a dict by assigning `keys[i]` to the successful `vals[i]` in
      order, over the first `k` pairs; the first failing value aborts. */
  function Collect<V, E>(keys: seq<string>, vals: seq<Result<V, E>>, k: nat): Result<seq<(string, V)>, E>
    requires k <= |keys| && k <= |vals|
  {
    if k == 0 then Ok([])
    else
      var prev := Collect(keys, vals, k - 1);
      if prev.Err? then prev
      else if vals[k - 1].Err? then Err(vals[k - 1].error)
      else Ok(Set(prev.value, keys[k - 1], vals[k - 1].value))
  }

  /** One step of Collect, spelled out. */
  lemma CollectStep<V, E>(keys: seq<string>, vals: seq<Result<V, E>>, k: nat)
    requires 0 < k <= |keys| && k <= |vals|
    requires Collect(keys, vals, k).Ok?
    ensures Collect(keys, vals, k - 1).Ok? && vals[k - 1].Ok?
    ensures Collect(keys, vals, k).value == Set(Collect(keys, vals, k - 1).value, keys[k - 1], vals[k - 1].value)
  {
  }

  /** The whole Collect succeeds exactly when every value does. */
  lemma {:induction false} CollectAllOk<V, E>(keys: seq<string>, vals: seq<Result<V, E>>, k: nat)
    requires k <= |keys| && k <= |vals|
    ensures Collect(keys, vals, k).Ok? <==> forall i :: 0 <= i < k ==> vals[i].Ok?
  {
    if k > 0 {
      CollectAllOk(keys, vals, k - 1);
    }
  }

  /** A failed Collect fails with the error of one of its values. */
  lemma {:induction false} CollectError<V, E>(keys: seq<string>, vals: seq<Result<V, E>>, k: nat)
    requires k <= |keys| && k <= |vals|
    ensures Collect(keys, vals, k).Err? ==>
      exists i :: 0 <= i < k && vals[i] == Err(Collect(keys, vals, k).error)
  {
    if k > 0 && Collect(keys, vals, k - 1).Err? {
      CollectError(keys, vals, k - 1);
    }
  }

  /** Once a value fails, every longer prefix fails with its error. */
  lemma {:induction false} CollectFails<V, E>(keys: seq<string>, vals: seq<Result<V, E>>, k: nat, m: nat)
    requires 1 <= k <= m <= |keys| && m <= |vals|
    requires Collect(keys, vals, k - 1).Ok? && vals[k - 1].Err?
    ensures Collect(keys, vals, m) == Err(vals[k - 1].error)
    decreases m
  {
    if m > k {
      CollectFails(keys, vals, k, m - 1);
    }
  }

  /** A successful Collect over distinct keys has exactly those keys, in
      order. */
  lemma {:induction false} CollectKeys<V, E>(keys: seq<string>, vals: seq<Result<V, E>>, k: nat)
    requires k <= |keys| && k <= |vals|
    requires forall i, j :: 0 <= i < j < |keys| ==> keys[i] != keys[j]
    requires Collect(keys, vals, k).Ok?
    ensures Keys(Collect(keys, vals, k).value) == keys[..k]
  {
    if k > 0 {
      CollectStep(keys, vals, k);
      var d := Collect(keys, vals, k - 1).value;
      CollectKeys(keys, vals, k - 1);
      SetKeys(d, keys[k - 1], vals[k - 1].value);
      HasKeyKeys(d, keys[k - 1]);
      assert keys[k - 1] !in keys[..k - 1];
      assert keys[..k] == keys[..k - 1] + [keys[k - 1]];
    }
  }

  /** A successful Collect stores each successful value under its key (the
      last assignment wins when keys repeat, so distinct keys are assumed). */
  lemma {:induction false} CollectValues<V, E>(keys: seq<string>, vals: seq<Result<V, E>>, k: nat, j: nat)
    requires j < k <= |keys| && k <= |vals|
    requires forall i, i' :: 0 <= i < i' < |keys| ==> keys[i] != keys[i']
    requires Collect(keys, vals, k).Ok?
    ensures vals[j].Ok? && Get(Collect(keys, vals, k).value, keys[j]) == Some(vals[j].value)
  {
    CollectStep(keys, vals, k);
    var d := Collect(keys, vals, k - 1).value;
    GetSet(d, keys[k - 1], vals[k - 1].value, keys[j]);
    if j < k - 1 {
      CollectValues(keys, vals, k - 1, j);
    }
  }

  /** Assigning a key that is absent appends the pair. */
  lemma {:induction false} SetAbsent<V>(d: seq<(string, V)>, k: string, v: V)
    requires !HasKey(d, k)
    ensures Set(d, k, v) == d + [(k, v)]
  {
    if |d| > 0 {
      assert d[0].0 != k;
      assert forall i :: 0 <= i < |d[1..]| ==> d[1..][i] == d[i + 1];
      assert !HasKey(d[1..], k);
      SetAbsent(d[1..], k, v);
      assert [d[0]] + (d[1..] + [(k, v)]) == d + [(k, v)];
    }
  }

  /** Rebuilding a dict with unique keys from its own successful values
      gives the same dict back. */
  lemma {:induction false} CollectSame<V, E>(d: seq<(string, V)>, vals: seq<Result<V, E>>, k: nat)
    requires k <= |d| && k <= |vals| && UniqueKeys(d)
    requires forall i :: 0 <= i < k ==> vals[i] == Ok(d[i].1)
    ensures Collect(Keys(d), vals, k) == Ok(d[..k])
  {
    if k > 0 {
      CollectSame(d, vals, k - 1);
      var prev := d[..k - 1];
      assert forall i :: 0 <= i < |prev| ==> prev[i] == d[i];
      assert !HasKey(prev, d[k - 1].0);
      SetAbsent(prev, d[k - 1].0, d[k - 1].1);
      assert d[..k] == prev + [(d[k - 1].0, d[k - 1].1)];
    }
  }
}
