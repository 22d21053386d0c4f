/**
 Plain JavaScript objects as the client uses them: parameter bags and response
 bodies. An object is the list of its own properties in enumeration order;
 lookup, assignment and `delete` follow the language's rules for a property
 name that is present or absent.
 */
module Objects {
  import opened Optional

  /** Property names paired with values, in enumeration order. */
  type Object<V> = seq<(string, V)>

  /** The property names, in order. */
  function Keys<V>(o: Object<V>): (ks: seq<string>)
    ensures |ks| == |o|
    ensures forall i :: 0 <= i < |o| ==> ks[i] == o[i].0
  {
    if o == [] then []
    else
      var ks := [o[0].0] + Keys(o[1..]);
      assert forall i :: 1 <= i < |o| ==> ks[i] == Keys(o[1..])[i - 1] && o[i] == o[1..][i - 1];
      ks
  }

  predicate HasKey<V>(o: Object<V>, k: string) {
    k in Keys(o)
  }

  /** No property name occurs twice, as in every object the runtime builds. */
  predicate DistinctKeys<V>(o: Object<V>) {
    forall i, j :: 0 <= i < j < |o| ==> o[i].0 != o[j].0
  }

  /** Property lookup: `o[k]`, with `None` for `undefined`. */
  function Get<V>(o: Object<V>, k: string): (r: Option<V>)
    ensures r.None? <==> !HasKey(o, k)
    ensures r.Some? ==> (k, r.value) in o
  {
    if o == [] then None
    else if o[0].0 == k then Some(o[0].1)
    else
      var r := Get(o[1..], k);
      assert Keys(o) == [o[0].0] + Keys(o[1..]);
      r
  }

  /** In an object with distinct names, each property is what lookup finds. */
  lemma {:induction false} GetAt<V>(o: Object<V>, i: nat)
    requires DistinctKeys(o) && i < |o|
    ensures Get(o, o[i].0) == Some(o[i].1)
  {
    if i > 0 {
      assert DistinctKeys(o[1..]) by {
        forall a, b | 0 <= a < b < |o[1..]|
          ensures o[1..][a].0 != o[1..][b].0
        {
          assert o[1..][a] == o[a + 1] && o[1..][b] == o[b + 1];
        }
      }
      assert o[1..][i - 1] == o[i];
      GetAt(o[1..], i - 1);
    }
  }

  /**
   Assignment `o[k] = v`: the property takes the new value, a new property is
   added at the end, and every other property is unchanged.
   */
  function Set<V>(o: Object<V>, k: string, v: V): (r: Object<V>)
    ensures Get(r, k) == Some(v)
    ensures forall j :: j != k ==> Get(r, j) == Get(o, j)
    ensures !HasKey(o, k) ==> r == o + [(k, v)]
  {
    if o == [] then [(k, v)]
    else
      Uncons(o);
      if o[0].0 == k then
        Cons((k, v), o[1..]);
        [(k, v)] + o[1..]
      else
        var t := Set(o[1..], k, v);
        Cons(o[0], t);
        ConsAppend(o, (k, v));
        [o[0]] + t
  }

  /** Assigning to an existing property keeps its place: the names and their order are unchanged. */
  lemma {:induction false} SetKeepsPlace<V>(o: Object<V>, k: string, v: V)
    requires HasKey(o, k)
    ensures Keys(Set(o, k, v)) == Keys(o)
  {
    Uncons(o);
    if o[0].0 == k {
      Cons((k, v), o[1..]);
    } else {
      SetKeepsPlace(o[1..], k, v);
      Cons(o[0], Set(o[1..], k, v));
    }
  }

  /** Assignment never makes a name occur twice. */
  lemma {:induction false} SetDistinct<V>(o: Object<V>, k: string, v: V)
    requires DistinctKeys(o)
    ensures DistinctKeys(Set(o, k, v))
  {
    if o != [] {
      Uncons(o);
      SuffixDistinct(o);
      if o[0].0 == k {
        Cons((k, v), o[1..]);
        ExtendDistinct((k, v), o[1..]);
      } else {
        var t := Set(o[1..], k, v);
        SetDistinct(o[1..], k, v);
        assert Get(t, o[0].0) == Get(o[1..], o[0].0);
        ExtendDistinct(o[0], t);
      }
    }
  }

  // Lookup in an object made by putting one property in front of others.
  lemma {:induction false} Cons<V>(p: (string, V), t: Object<V>)
    ensures ([p] + t)[0] == p && ([p] + t)[1..] == t
    ensures Keys([p] + t) == [p.0] + Keys(t)
    ensures forall k :: Get([p] + t, k) == if p.0 == k then Some(p.1) else Get(t, k)
  {
    ConsSplit(p, t);
  }

  lemma {:induction false} ConsSplit<V>(p: (string, V), t: Object<V>)
    ensures ([p] + t)[0] == p && ([p] + t)[1..] == t
  {
  }

  lemma {:induction false} ConsAppend<V>(o: Object<V>, q: (string, V))
    requires o != []
    ensures [o[0]] + (o[1..] + [q]) == o + [q]
  {
  }

  // An object is its first property in front of the rest.
  lemma {:induction false} Uncons<V>(o: Object<V>)
    requires o != []
    ensures o == [o[0]] + o[1..]
    ensures Keys(o) == [o[0].0] + Keys(o[1..])
    ensures forall k :: HasKey(o, k) <==> k == o[0].0 || HasKey(o[1..], k)
  {
    assert [o[0]] + o[1..] == o;
  }

  // The properties after the first of a distinct-named object are distinct-named.
  lemma {:induction false} SuffixDistinct<V>(o: Object<V>)
    requires DistinctKeys(o) && o != []
    ensures DistinctKeys(o[1..])
    ensures !HasKey(o[1..], o[0].0)
  {
    forall a, b | 0 <= a < b < |o[1..]|
      ensures o[1..][a].0 != o[1..][b].0
    {
      assert o[1..][a] == o[a + 1] && o[1..][b] == o[b + 1];
    }
  }

  // Putting a property in front of distinct-named ones whose names it does not share.
  lemma {:induction false} ExtendDistinct<V>(p: (string, V), t: Object<V>)
    requires DistinctKeys(t) && !HasKey(t, p.0)
    ensures DistinctKeys([p] + t)
  {
    var r := [p] + t;
    forall a, b | 0 <= a < b < |r|
      ensures r[a].0 != r[b].0
    {
      if a == 0 {
        assert r[b] == t[b - 1];
        assert Keys(t)[b - 1] in Keys(t);
      } else {
        assert r[a] == t[a - 1] && r[b] == t[b - 1];
      }
    }
  }

  /** The properties whose names `keep` accepts, in their original order. */
  function Filter<V>(o: Object<V>, keep: string -> bool): (r: Object<V>)
    ensures |r| <= |o|
    ensures forall k :: Get(r, k) == (if keep(k) then Get(o, k) else None)
    ensures DistinctKeys(o) ==> DistinctKeys(r)
  {
    if o == [] then []
    else
      var t := Filter(o[1..], keep);
      Cons(o[0], o[1..]);
      Cons(o[0], t);
      var r := if keep(o[0].0) then [o[0]] + t else t;
      assert DistinctKeys(o) ==> DistinctKeys(r) by {
        if DistinctKeys(o) {
          SuffixDistinct(o);
          if keep(o[0].0) {
            assert Get(t, o[0].0) == None;
            ExtendDistinct(o[0], t);
          }
        }
      }
      r
  }

  // Filtering an object made by putting one property in front of others.
  lemma {:induction false} FilterCons<V>(h: (string, V), t: Object<V>, keep: string -> bool)
    ensures Filter([h] + t, keep) == if keep(h.0) then [h] + Filter(t, keep) else Filter(t, keep)
  {
    ConsSplit(h, t);
  }

  /** Filtering twice by the same test is filtering once. */
  lemma {:induction false} FilterIdempotent<V>(o: Object<V>, keep: string -> bool)
    ensures Filter(Filter(o, keep), keep) == Filter(o, keep)
  {
    if o != [] {
      FilterIdempotent(o[1..], keep);
      if keep(o[0].0) {
        var t := Filter(o[1..], keep);
        assert ([o[0]] + t)[1..] == t;
      }
    }
  }

  /** A filter that keeps every name of the object keeps the object. */
  lemma {:induction false} FilterKeepsAll<V>(o: Object<V>, keep: string -> bool)
    requires forall i :: 0 <= i < |o| ==> keep(o[i].0)
    ensures Filter(o, keep) == o
  {
    if o != [] {
      forall i | 0 <= i < |o[1..]|
        ensures keep(o[1..][i].0)
      {
        assert o[1..][i] == o[i + 1];
      }
      FilterKeepsAll(o[1..], keep);
      Uncons(o);
    }
  }

  /** `delete o[k]`: the property is gone and every other one is unchanged, in order. */
  function Delete<V>(o: Object<V>, k: string): (r: Object<V>)
    ensures !HasKey(r, k)
    ensures forall j :: j != k ==> Get(r, j) == Get(o, j)
    ensures DistinctKeys(o) ==> DistinctKeys(r)
  {
    var r := Filter(o, j => j != k);
    assert Get(r, k) == None;
    r
  }

  /** Deleting a name the object does not have changes nothing. */
  lemma {:induction false} DeleteAbsent<V>(o: Object<V>, k: string)
    requires !HasKey(o, k)
    ensures Delete(o, k) == o
  {
    forall i | 0 <= i < |o|
      ensures o[i].0 != k
    {
      assert Keys(o)[i] == o[i].0;
    }
    FilterKeepsAll(o, j => j != k);
  }
}
