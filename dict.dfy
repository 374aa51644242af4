/**
 * A JavaScript plain object used as a dictionary: its own keys in
 * insertion order, each with one value. Assigning to an existing key keeps
 * the key's position; assigning to a new key appends it; `delete` removes it.
 */
module Dict {
  import opened Js

  /** The own enumerable entries of an object, in key order. */
  datatype Dict<V> = Dict(entries: seq<(string, V)>)

  function Empty<V>(): (d: Dict<V>)
    ensures |d.entries| == 0
  {
    Dict([])
  }

  /** `Object.keys(d)`. */
  function Keys<V>(d: Dict<V>): (ks: seq<string>)
    ensures |ks| == |d.entries|
    ensures forall i :: 0 <= i < |ks| ==> ks[i] == d.entries[i].0
  {
    seq(|d.entries|, i requires 0 <= i < |d.entries| => d.entries[i].0)
  }

  /** No key occurs twice: what every object satisfies. */
  predicate WellFormed<V>(d: Dict<V>)
  {
    forall i, j :: 0 <= i < j < |d.entries| ==> d.entries[i].0 != d.entries[j].0
  }

  predicate HasKey<V>(d: Dict<V>, k: string)
  {
    exists i :: 0 <= i < |d.entries| && d.entries[i].0 == k
  }

  /** `d[k]`, with `None` for a missing key (JavaScript's undefined). */
  function Get<V>(d: Dict<V>, k: string): (r: Option<V>)
    ensures r.None? <==> !HasKey(d, k)
    ensures r.Some? ==> exists i :: 0 <= i < |d.entries| && d.entries[i] == (k, r.value)
    decreases |d.entries|
  {
    if |d.entries| == 0 then None
    else if d.entries[0].0 == k then Some(d.entries[0].1)
    else
      var r := Get(Dict(d.entries[1..]), k);
      assert r.Some? ==> exists i :: 0 <= i < |d.entries| && d.entries[i] == (k, r.value) by {
        if r.Some? {
          var i :| 0 <= i < |d.entries| - 1 && d.entries[1..][i] == (k, r.value);
          assert d.entries[i + 1] == (k, r.value);
        }
      }
      assert HasKey(Dict(d.entries[1..]), k) <==> HasKey(d, k) by {
        if HasKey(d, k) {
          var i :| 0 <= i < |d.entries| && d.entries[i].0 == k;
          assert i > 0 && d.entries[1..][i - 1].0 == k;
        }
      }
      r
  }

  /** `d[k] = v`: replaces the value in place, or appends a new key. */
  function Put<V>(d: Dict<V>, k: string, v: V): (r: Dict<V>)
    decreases |d.entries|
  {
    if |d.entries| == 0 then Dict([(k, v)])
    else if d.entries[0].0 == k then Dict([(k, v)] + d.entries[1..])
    else Dict([d.entries[0]] + Put(Dict(d.entries[1..]), k, v).entries)
  }

  /** `delete d[k]`. */
  function Remove<V>(d: Dict<V>, k: string): (r: Dict<V>)
    ensures |r.entries| <= |d.entries|
    ensures !HasKey(r, k)
    decreases |d.entries|
  {
    if |d.entries| == 0 then d
    else
      var rest := Remove(Dict(d.entries[1..]), k);
      if d.entries[0].0 == k then rest
      else
        var r := Dict([d.entries[0]] + rest.entries);
        assert forall i :: 0 < i < |r.entries| ==> r.entries[i] == rest.entries[i - 1];
        r
  }

  lemma {:induction false} PutGet<V>(d: Dict<V>, k: string, v: V, k': string)
    ensures Get(Put(d, k, v), k') == if k' == k then Some(v) else Get(d, k')
    decreases |d.entries|
  {
    if |d.entries| > 0 && d.entries[0].0 != k {
      PutGet(Dict(d.entries[1..]), k, v, k');
      var r := Put(d, k, v);
      assert r.entries[1..] == Put(Dict(d.entries[1..]), k, v).entries;
    } else if |d.entries| > 0 {
      var r := Put(d, k, v);
      assert r.entries[1..] == d.entries[1..];
    }
  }

  /** A key other than the first one is present exactly when the rest holds it. */
  lemma HasKeyTail<V>(d: Dict<V>, k: string)
    requires |d.entries| > 0 && d.entries[0].0 != k
    ensures HasKey(Dict(d.entries[1..]), k) <==> HasKey(d, k)
  {
    if HasKey(d, k) {
      var i :| 0 <= i < |d.entries| && d.entries[i].0 == k;
      assert i > 0 && d.entries[1..][i - 1].0 == k;
    }
  }

  lemma KeysCons<V>(d: Dict<V>)
    requires |d.entries| > 0
    ensures Keys(d) == [d.entries[0].0] + Keys(Dict(d.entries[1..]))
  {
  }

  lemma {:induction false} PutKeys<V>(d: Dict<V>, k: string, v: V)
    ensures Keys(Put(d, k, v)) == if HasKey(d, k) then Keys(d) else Keys(d) + [k]
    decreases |d.entries|
  {
    if |d.entries| > 0 && d.entries[0].0 != k {
      var tail := Dict(d.entries[1..]);
      PutKeys(tail, k, v);
      HasKeyTail(d, k);
      var p := Put(d, k, v);
      assert p.entries == [d.entries[0]] + Put(tail, k, v).entries;
      assert p.entries[0] == d.entries[0] && p.entries[1..] == Put(tail, k, v).entries;
      KeysCons(p);
      KeysCons(d);
    } else if |d.entries| > 0 {
      assert HasKey(d, k);
      assert Keys(Put(d, k, v)) == Keys(d);
    }
  }

  /** Assigning a key never duplicates it: every object stays well formed. */
  lemma PutWellFormed<V>(d: Dict<V>, k: string, v: V)
    requires WellFormed(d)
    ensures WellFormed(Put(d, k, v))
  {
    PutKeys(d, k, v);
    var ks := Keys(Put(d, k, v));
    assert forall i :: 0 <= i < |ks| ==> ks[i] == Put(d, k, v).entries[i].0;
  }

  lemma {:induction false} RemoveGet<V>(d: Dict<V>, k: string, k': string)
    ensures Get(Remove(d, k), k') == if k' == k then None else Get(d, k')
    decreases |d.entries|
  {
    if |d.entries| > 0 {
      RemoveGet(Dict(d.entries[1..]), k, k');
      if d.entries[0].0 != k {
        var rest := Remove(Dict(d.entries[1..]), k);
        assert Remove(d, k).entries[1..] == rest.entries;
      }
    }
  }

  /** `{...d, ...e}`: the entries of `e` assigned onto `d` in key order. */
  function Assign<V>(d: Dict<V>, e: Dict<V>): Dict<V>
    decreases |e.entries|
  {
    if |e.entries| == 0 then d
    else Assign(Put(d, e.entries[0].0, e.entries[0].1), Dict(e.entries[1..]))
  }

  /** After a spread, a key of `e` reads `e`'s value and every other key reads `d`'s. */
  lemma {:induction false} AssignGet<V>(d: Dict<V>, e: Dict<V>, k: string)
    requires WellFormed(e)
    ensures Get(Assign(d, e), k) == if HasKey(e, k) then Get(e, k) else Get(d, k)
    decreases |e.entries|
  {
    if |e.entries| > 0 {
      var (k0, v0) := e.entries[0];
      var rest := Dict(e.entries[1..]);
      assert WellFormed(rest) by {
        forall i, j | 0 <= i < j < |rest.entries|
          ensures rest.entries[i].0 != rest.entries[j].0
        {
          assert rest.entries[i] == e.entries[i + 1] && rest.entries[j] == e.entries[j + 1];
        }
      }
      AssignGet(Put(d, k0, v0), rest, k);
      PutGet(d, k0, v0, k);
      if HasKey(rest, k) {
        var i :| 0 <= i < |rest.entries| && rest.entries[i].0 == k;
        assert e.entries[i + 1].0 == k;
      }
      if k != k0 && HasKey(e, k) {
        var i :| 0 <= i < |e.entries| && e.entries[i].0 == k;
        assert rest.entries[i - 1].0 == k;
      }
    }
  }

  /** Entry-wise map of values (`Object.fromEntries(Object.entries(d).map(...))`). */
  function MapValues<V, W>(d: Dict<V>, f: V -> W): (r: Dict<W>)
    ensures Keys(r) == Keys(d)
  {
    Dict(seq(|d.entries|, i requires 0 <= i < |d.entries| => (d.entries[i].0, f(d.entries[i].1))))
  }
}
