/** Request parameters as Python dictionaries: entries in insertion order, each key at most
    once. Order is kept because the encoded query string of a request follows it. */
module Params {
  import opened Base

  /** A parameter value: the requests pass strings and, for the album list size, an integer. */
  datatype Value = Text(text: string) | Number(number: int)

  /** A dictionary as its (key, value) entries in insertion order. */
  type Dict = seq<(string, Value)>

  function Keys(d: Dict): (ks: seq<string>)
    ensures |ks| == |d|
    ensures forall i :: 0 <= i < |d| ==> ks[i] == d[i].0
  {
    if d == [] then [] else [d[0].0] + Keys(d[1..])
  }

  predicate Distinct(ks: seq<string>) {
    forall i, j :: 0 <= i < j < |ks| ==> ks[i] != ks[j]
  }

  /** A well-formed dictionary never holds a key twice. */
  predicate UniqueKeys(d: Dict) {
    Distinct(Keys(d))
  }

  /** `d.get(k)` */
  function Lookup(d: Dict, k: string): (r: Option<Value>)
    ensures r.Some? <==> k in Keys(d)
  {
    if d == [] then None
    else if d[0].0 == k then Some(d[0].1)
    else Lookup(d[1..], k)
  }

  /** `d[k] = v` on a copy: a key already present keeps its place and takes the new value,
      a new key is placed last. */
  function Put(d: Dict, k: string, v: Value): (r: Dict)
    ensures |r| == if k in Keys(d) then |d| else |d| + 1
  {
    if d == [] then [(k, v)]
    else if d[0].0 == k then [(k, v)] + d[1..]
    else [d[0]] + Put(d[1..], k, v)
  }

  /** `a | b`: the entries of `a` updated, in order, by the entries of `b`. */
  function Union(a: Dict, b: Dict): (r: Dict)
    ensures |a| <= |r| <= |a| + |b|
    decreases |b|
  {
    if b == [] then a else Union(Put(a, b[0].0, b[0].1), b[1..])
  }

  /** The keys of `ks` that are not in `existing`, in the order of `ks`. */
  function Appended(ks: seq<string>, existing: seq<string>): (r: seq<string>)
    ensures forall k :: k in r <==> k in ks && k !in existing
  {
    if ks == [] then []
    else (if ks[0] in existing then [] else [ks[0]]) + Appended(ks[1..], existing)
  }

  /** Dropping the first entry of a well-formed dictionary leaves a well-formed one without that key. */
  lemma UniqueTail(b: Dict)
    requires b != [] && UniqueKeys(b)
    ensures Keys(b) == [b[0].0] + Keys(b[1..])
    ensures UniqueKeys(b[1..]) && b[0].0 !in Keys(b[1..])
  {
    var kb, kt := Keys(b), Keys(b[1..]);
    assert kt == kb[1..];
    assert kb == [b[0].0] + kt;
  }

  /** In a well-formed dictionary every entry is what its key looks up. */
  lemma {:induction false} LookupAt(d: Dict, i: int)
    requires UniqueKeys(d) && 0 <= i < |d|
    ensures Lookup(d, d[i].0) == Some(d[i].1)
  {
    if i > 0 {
      UniqueTail(d);
      assert d[0].0 != d[i].0 by { assert Keys(d)[0] != Keys(d)[i]; }
      LookupAt(d[1..], i - 1);
    }
  }

  lemma {:induction false} LookupPut(d: Dict, k: string, v: Value, j: string)
    ensures Lookup(Put(d, k, v), j) == if j == k then Some(v) else Lookup(d, j)
  {
    if d != [] && d[0].0 != k {
      LookupPut(d[1..], k, v, j);
      assert Put(d, k, v)[1..] == Put(d[1..], k, v);
    }
  }

  lemma {:induction false} KeysPut(d: Dict, k: string, v: Value)
    ensures Keys(Put(d, k, v)) == if k in Keys(d) then Keys(d) else Keys(d) + [k]
  {
    if d != [] {
      assert Keys(d) == [d[0].0] + Keys(d[1..]);
      if d[0].0 != k {
        KeysPut(d[1..], k, v);
        assert Put(d, k, v)[1..] == Put(d[1..], k, v);
        assert Keys(Put(d, k, v)) == [d[0].0] + Keys(Put(d[1..], k, v));
      }
    }
  }

  /** The union overrides: a key of `b` maps to `b`'s value, any other key keeps `a`'s. */
  lemma {:induction false} LookupUnion(a: Dict, b: Dict, k: string)
    requires UniqueKeys(b)
    ensures Lookup(Union(a, b), k) == if k in Keys(b) then Lookup(b, k) else Lookup(a, k)
    decreases |b|
  {
    if b != [] {
      UniqueTail(b);
      LookupUnion(Put(a, b[0].0, b[0].1), b[1..], k);
      LookupPut(a, b[0].0, b[0].1, k);
    }
  }

  lemma {:induction false} AppendedIgnores(ks: seq<string>, existing: seq<string>, x: string)
    requires x !in ks
    ensures Appended(ks, existing + [x]) == Appended(ks, existing)
  {
    if ks != [] {
      AppendedIgnores(ks[1..], existing, x);
    }
  }

  /** One step of the union on keys alone: adding key `k` before the keys `kt`. */
  lemma AppendedStep(ka: seq<string>, k: string, kt: seq<string>)
    requires k !in kt
    ensures var ka' := if k in ka then ka else ka + [k];
      ka' + Appended(kt, ka') == ka + Appended([k] + kt, ka)
  {
    assert ([k] + kt)[1..] == kt;
    if k !in ka {
      AppendedIgnores(kt, ka, k);
    }
  }

  /** The union keeps `a`'s keys in place and appends `b`'s new keys in `b`'s order. */
  lemma {:induction false} KeysUnion(a: Dict, b: Dict)
    requires UniqueKeys(b)
    ensures Keys(Union(a, b)) == Keys(a) + Appended(Keys(b), Keys(a))
    decreases |b|
  {
    if b != [] {
      var k, v, b' := b[0].0, b[0].1, b[1..];
      UniqueTail(b);
      var a' := Put(a, k, v);
      assert Union(a, b) == Union(a', b');
      KeysUnion(a', b');
      KeysPut(a, k, v);
      AppendedStep(Keys(a), k, Keys(b'));
    }
  }
}
