/**
 The client's private helpers that do not touch the network: building the
 `filters` parameter, dropping numeric keys from a response record, and
 copying a response without its `success` and `result` fields.
 */
module Helpers {
  import opened Optional
  import opened Text
  import opened JsNumber
  import opened Objects

  // ---------------------------------------------------------------------------
  // prepareFilter
  // ---------------------------------------------------------------------------

  /**
   Whether `prepareFilter` keeps a key: every key when no allow-list is given,
   otherwise the keys the list contains (`indexOf` is not -1).
   */
  predicate Allowed(allow: Option<seq<string>>, k: string) {
    allow.None? || k in allow.value
  }

  /** The same test as a function value, for filtering objects. */
  function AllowedBy(allow: Option<seq<string>>): string -> bool {
    k => Allowed(allow, k)
  }

  /** One filter term: a percent sign, the key, a colon, the value. */
  function Term(k: string, v: string): (r: string)
    ensures |r| == |k| + |v| + 2
    ensures r[0] == '%' && r[1..|k| + 1] == k && r[|k| + 1] == ':' && r[|k| + 2..] == v
  {
    "%" + k + ":" + v
  }

  /**
   `prepareFilter(input, allow)`: walks the input's keys in order and appends
   a term for each allowed key. No separator is written between terms.
   */
  function PrepareFilter(input: Object<string>, allow: Option<seq<string>>): (r: string)
    ensures r == [] || r[0] == '%'
    ensures r == [] <==> forall i :: 0 <= i < |input| ==> !Allowed(allow, input[i].0)
  {
    if input == [] then ""
    else
      var rest := PrepareFilter(input[1..], allow);
      assert forall i :: 1 <= i < |input| ==> input[1..][i - 1] == input[i];
      (if Allowed(allow, input[0].0) then Term(input[0].0, input[0].1) else "") + rest
  }

  /** The terms of every property of `o`, in order. */
  function Join(o: Object<string>): (r: string)
    ensures r == [] <==> o == []
    ensures r == [] || r[0] == '%'
  {
    if o == [] then "" else Term(o[0].0, o[0].1) + Join(o[1..])
  }

  /** The filter string is the terms of exactly the allowed properties, in input order. */
  lemma {:induction false} PrepareFilterIsJoin(input: Object<string>, allow: Option<seq<string>>)
    ensures PrepareFilter(input, allow) == Join(Filter(input, AllowedBy(allow)))
  {
    if input != [] {
      PrepareFilterIsJoin(input[1..], allow);
      var t := Filter(input[1..], AllowedBy(allow));
      if Allowed(allow, input[0].0) {
        assert ([input[0]] + t)[0] == input[0] && ([input[0]] + t)[1..] == t;
      }
    }
  }

  /** Filtering the concatenation of two objects is concatenating their filter strings. */
  lemma {:induction false} PrepareFilterAppend(a: Object<string>, b: Object<string>, allow: Option<seq<string>>)
    ensures PrepareFilter(a + b, allow) == PrepareFilter(a, allow) + PrepareFilter(b, allow)
  {
    if a == [] {
      assert a + b == b;
    } else {
      assert (a + b)[0] == a[0] && (a + b)[1..] == a[1..] + b;
      PrepareFilterAppend(a[1..], b, allow);
    }
  }

  /** Two allow-lists that agree on the input's keys give the same filter string. */
  lemma {:induction false} PrepareFilterAgree(input: Object<string>, a1: Option<seq<string>>, a2: Option<seq<string>>)
    requires forall i :: 0 <= i < |input| ==> Allowed(a1, input[i].0) == Allowed(a2, input[i].0)
    ensures PrepareFilter(input, a1) == PrepareFilter(input, a2)
  {
    if input != [] {
      assert forall i :: 0 <= i < |input[1..]| ==> input[1..][i] == input[i + 1];
      PrepareFilterAgree(input[1..], a1, a2);
    }
  }

  /** Without an allow-list every key is kept, as with a list naming all of them. */
  lemma {:induction false} PrepareFilterNoList(input: Object<string>)
    ensures PrepareFilter(input, None) == PrepareFilter(input, Some(Keys(input)))
  {
    forall i | 0 <= i < |input|
      ensures Allowed(Some(Keys(input)), input[i].0)
    {
      assert Keys(input)[i] == input[i].0;
    }
    PrepareFilterAgree(input, None, Some(Keys(input)));
  }

  // ---------------------------------------------------------------------------
  // Reading a filter string back
  // ---------------------------------------------------------------------------

  /** The longest prefix of `s` without the character `c`. */
  function TakeUntil(s: string, c: char): (r: string)
    ensures |r| <= |s| && r == s[..|r|]
    ensures c !in r
    ensures |r| < |s| ==> s[|r|] == c
  {
    if s == [] || s[0] == c then []
    else
      var r := [s[0]] + TakeUntil(s[1..], c);
      assert r[1..] == TakeUntil(s[1..], c);
      r
  }

  /** Splits a filter string into its terms; reading stops at anything that does not start a term. */
  function DecodeFilter(s: string): (o: Object<string>)
    decreases |s|
  {
    if s == [] || s[0] != '%' then []
    else
      var term := TakeUntil(s[1..], '%');
      var k := TakeUntil(term, ':');
      var v := if |k| < |term| then term[|k| + 1..] else [];
      [(k, v)] + DecodeFilter(s[1 + |term|..])
  }

  /** Keys without `%` or `:` and values without `%`: the terms can be told apart. */
  predicate Separable(o: Object<string>) {
    forall i :: 0 <= i < |o| ==> '%' !in o[i].0 && ':' !in o[i].0 && '%' !in o[i].1
  }

  /** Reading back the terms of separable properties gives the properties. */
  lemma {:induction false} DecodeJoin(o: Object<string>)
    requires Separable(o)
    ensures DecodeFilter(Join(o)) == o
  {
    if o != [] {
      var k, v, rest := o[0].0, o[0].1, Join(o[1..]);
      assert Separable(o[1..]) by {
        assert forall i :: 0 <= i < |o[1..]| ==> o[1..][i] == o[i + 1];
      }
      DecodeJoin(o[1..]);
      DecodeTerm(k, v, rest);
      assert o == [(k, v)] + o[1..];
    }
  }

  // One term followed by more terms (or nothing) reads as that property, then the rest.
  lemma {:induction false} DecodeTerm(k: string, v: string, rest: string)
    requires '%' !in k && ':' !in k && '%' !in v
    requires rest == [] || rest[0] == '%'
    ensures DecodeFilter(Term(k, v) + rest) == [(k, v)] + DecodeFilter(rest)
  {
    var s := Term(k, v) + rest;
    var term := k + ":" + v;
    assert s[1..] == term + rest;
    TakeUntilStops(term, rest, '%');
    TakeUntilStops(k, ":" + v, ':');
    assert term == k + (":" + v);
    assert term[|k| + 1..] == v;
    assert s[1 + |term|..] == rest;
  }

  // Reading up to `c` stops where the `c`-free prefix ends.
  lemma {:induction false} TakeUntilStops(a: string, b: string, c: char)
    requires c !in a
    requires b == [] || b[0] == c
    ensures TakeUntil(a + b, c) == a
  {
    if a != [] {
      assert (a + b)[1..] == a[1..] + b;
      TakeUntilStops(a[1..], b, c);
    } else {
      assert a + b == b;
    }
  }

  /** Filtering keeps separability. */
  lemma {:induction false} SeparableFilter(o: Object<string>, keep: string -> bool)
    requires Separable(o)
    ensures Separable(Filter(o, keep))
  {
    if o != [] {
      SeparableTail(o);
      SeparableFilter(o[1..], keep);
      if keep(o[0].0) {
        SeparableCons(o[0], Filter(o[1..], keep));
      }
    }
  }

  lemma {:induction false} SeparableTail(o: Object<string>)
    requires Separable(o) && o != []
    ensures Separable(o[1..])
    ensures '%' !in o[0].0 && ':' !in o[0].0 && '%' !in o[0].1
  {
    forall i | 0 <= i < |o[1..]|
      ensures o[1..][i] == o[i + 1]
    {
    }
  }

  lemma {:induction false} SeparableCons(p: (string, string), t: Object<string>)
    requires Separable(t)
    requires '%' !in p.0 && ':' !in p.0 && '%' !in p.1
    ensures Separable([p] + t)
  {
    forall i | 1 <= i < |[p] + t|
      ensures ([p] + t)[i] == t[i - 1]
    {
    }
  }

  /**
   When keys and values are free of the separators, the filter string holds
   exactly the allowed properties, in input order, and nothing else.
   */
  lemma {:induction false} PrepareFilterRoundTrip(input: Object<string>, allow: Option<seq<string>>)
    requires Separable(input)
    ensures DecodeFilter(PrepareFilter(input, allow)) == Filter(input, AllowedBy(allow))
  {
    PrepareFilterIsJoin(input, allow);
    SeparableFilter(input, AllowedBy(allow));
    DecodeJoin(Filter(input, AllowedBy(allow)));
  }

  // ---------------------------------------------------------------------------
  // stripNumberKeys and clone
  // ---------------------------------------------------------------------------

  /** The keys `stripNumberKeys` keeps: those `isNumeric` rejects. */
  function NonNumeric(): string -> bool {
    k => !IsNumeric(k)
  }

  /**
   `stripNumberKeys`: copies, in enumeration order, every property whose name
   is not numeric into a new object.
   */
  method StripNumberKeys(data: Object<string>) returns (out: Object<string>)
    requires DistinctKeys(data)
    ensures out == Filter(data, NonNumeric())
    ensures forall k :: Get(out, k) == (if IsNumeric(k) then None else Get(data, k))
    ensures DistinctKeys(out)
  {
    out := [];
    for i := 0 to |data|
      invariant out == Filter(data[..i], NonNumeric())
    {
      var k, v := data[i].0, data[i].1;
      StripStep(data, i, out);
      if !IsNumeric(k) {
        out := Set(out, k, v);
      }
    }
    assert data[..|data|] == data;
  }

  // One round of the copying loop: the next property is copied exactly when the filter keeps it.
  lemma {:induction false} StripStep(data: Object<string>, i: nat, out: Object<string>)
    requires DistinctKeys(data) && i < |data|
    requires out == Filter(data[..i], NonNumeric())
    ensures NonNumeric()(data[i].0) ==> Set(out, data[i].0, data[i].1) == Filter(data[..i + 1], NonNumeric())
    ensures !NonNumeric()(data[i].0) ==> out == Filter(data[..i + 1], NonNumeric())
  {
    FilterSnoc(data[..i], data[i], NonNumeric());
    TakeOneMore(data, i);
    PrefixLacksNext(data, i);
    assert Get(out, data[i].0) == None;
  }

  lemma {:induction false} TakeOneMore(data: Object<string>, i: nat)
    requires i < |data|
    ensures data[..i + 1] == data[..i] + [data[i]]
  {
  }

  // Filtering a longer object: the last property is kept or dropped on its own.
  lemma {:induction false} FilterSnoc(o: Object<string>, p: (string, string), keep: string -> bool)
    ensures Filter(o + [p], keep) == Filter(o, keep) + (if keep(p.0) then [p] else [])
  {
    if o == [] {
      assert o + [p] == [p];
      assert [p][1..] == [];
    } else {
      var a := Filter(o[1..], keep);
      var tail := if keep(p.0) then [p] else [];
      SnocSplit(o, p);
      FilterSnoc(o[1..], p, keep);
      FilterCons(o[0], o[1..] + [p], keep);
      FilterCons(o[0], o[1..], keep);
      if keep(o[0].0) {
        Regroup(o[0], a, tail);
      }
    }
  }

  lemma {:induction false} Regroup(h: (string, string), a: Object<string>, tail: Object<string>)
    ensures [h] + (a + tail) == ([h] + a) + tail
  {
  }

  lemma {:induction false} SnocSplit(o: Object<string>, p: (string, string))
    requires o != []
    ensures o == [o[0]] + o[1..] && o + [p] == [o[0]] + (o[1..] + [p])
  {
  }

  // In a distinct-named object, the name at position i does not occur before it.
  lemma {:induction false} PrefixLacksNext(data: Object<string>, i: nat)
    requires DistinctKeys(data) && i < |data|
    ensures !HasKey(data[..i], data[i].0)
  {
    forall j | 0 <= j < i
      ensures Keys(data[..i])[j] != data[i].0
    {
      assert data[..i][j] == data[j];
    }
  }

  /** Stripping numeric keys twice is stripping them once. */
  lemma {:induction false} StripNumberKeysIdempotent(data: Object<string>)
    ensures Filter(Filter(data, NonNumeric()), NonNumeric()) == Filter(data, NonNumeric())
  {
    FilterIdempotent(data, NonNumeric());
  }

  /** Row indices such as `"0"`, `"1"`, `"17"` are dropped; a name such as `"domain"` is kept. */
  lemma {:induction false} StripNumberKeysIndices(data: Object<string>, n: nat, name: string)
    requires name != [] && !IsWhitespace(name[0]) && !IsSign(name[0]) && !IsDecimalDigit(name[0])
    ensures !HasKey(Filter(data, NonNumeric()), DecimalString(n))
    ensures Get(Filter(data, NonNumeric()), name) == Get(data, name)
  {
    ParseIntDecimal(n);
    NoLeadingDigitNotNumeric(name);
    assert Get(Filter(data, NonNumeric()), DecimalString(n)) == None;
  }

  /**
   `clone`: a copy of a response without its `success` and `result` fields;
   every other field keeps its value.
   */
  function Clone(data: Object<string>): (r: Object<string>)
    ensures !HasKey(r, "success") && !HasKey(r, "result")
    ensures forall k :: k != "success" && k != "result" ==> Get(r, k) == Get(data, k)
    ensures DistinctKeys(data) ==> DistinctKeys(r)
  {
    var d := Delete(data, "success");
    var r := Delete(d, "result");
    assert Get(r, "success") == Get(d, "success") == None;
    r
  }

  /** A response without `success` and `result` is copied as it is. */
  lemma {:induction false} CloneWithoutStatus(data: Object<string>)
    requires !HasKey(data, "success") && !HasKey(data, "result")
    ensures Clone(data) == data
  {
    DeleteAbsent(data, "success");
    DeleteAbsent(data, "result");
  }

  /** Cloning a clone changes nothing. */
  lemma {:induction false} CloneIdempotent(data: Object<string>)
    ensures Clone(Clone(data)) == Clone(data)
  {
    CloneWithoutStatus(Clone(data));
  }
}
