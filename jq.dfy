/** The query evaluator: a dot-separated path applied to an untyped tree,
    giving the ordered list of matched values, an error, or one of the two
    runtime panics the Go code runs into. */
module Jq {
  import opened Paths
  import opened Tree

  /** The errors the evaluator returns. */
  datatype Error =
    | NonSliceIndex   // `[]` applied to a value that is not a slice
    | NilData         // a key looked up in nil

  /** The two inputs on which the Go code panics instead of returning an
      error: they are kept apart from the errors it returns. */
  datatype PanicCause =
    | NilKind         // `[]` applied to nil: reflect.TypeOf(nil) has no Kind
    | NotAMap         // a key looked up in a value that is neither nil nor a map

  /** What one call ends with. On an error or a panic there are no results. */
  datatype Outcome =
    | Ok(results: seq<Json>)
    | Err(error: Error)
    | Panic(cause: PanicCause)

  /** The segment that iterates over every element of a slice. */
  const Wildcard: string := "[]"

  /** The text of each error. */
  function Message(e: Error): string
  {
    match e
    case NonSliceIndex => "Can not index over non-slice"
    case NilData => "Nil data"
  }

  /** The segments the recursive call on the rebuilt tail works with: the
      segments after the first, or, when there are none, the single empty
      segment that splitting the empty string gives. */
  function Rest(parts: seq<string>): (rest: seq<string>)
    requires parts != []
    ensures rest != []
  {
    if |parts| > 1 then parts[1..] else [[]]
  }

  /** Rebuilding the segments after the first and splitting the result again,
      as the recursive call does, gives exactly Rest. */
  lemma RestIsResplitTail(parts: seq<string>)
    requires parts != []
    requires forall i :: 0 <= i < |parts| ==> Dot !in parts[i]
    ensures Split(Join(parts[1..])) == Rest(parts)
  {
    if |parts| > 1 {
      SplitJoin(parts[1..]);
    }
  }

  /** The meaning of a query whose path has already been split into segments. */
  function EvalParts(parts: seq<string>, data: Json): Outcome
    requires parts != []
    decreases |Join(parts)|, 0
  {
    if parts[0] == Wildcard then
      match data
      case JNull => Panic(NilKind)
      case JArr(elems) => EvalEach(Rest(parts), elems)
      case _ => Err(NonSliceIndex)
    else
      match data
      case JNull => Err(NilData)
      case JObj(m) =>
        var value := Lookup(m, parts[0]);
        if |parts| > 1 then EvalParts(parts[1..], value) else Ok([value])
      case _ => Panic(NotAMap)
  }

  /** The remaining segments applied to each element in turn: the results
      concatenated in order, or the outcome of the first element that fails. */
  function EvalEach(parts: seq<string>, elems: seq<Json>): Outcome
    requires parts != []
    decreases |Join(parts)|, 1, |elems|
  {
    if elems == [] then Ok([])
    else
      match EvalEach(parts, elems[..|elems| - 1])
      case Ok(acc) =>
        (match EvalParts(parts, elems[|elems| - 1])
         case Ok(r) => Ok(acc + r)
         case failed => failed)
      case failed => failed
  }

  /** The meaning of a query string. */
  function Eval(query: string, data: Json): Outcome
  {
    EvalParts(Split(query), data)
  }

  /** The evaluator as written: split the path, iterate a slice with an
      accumulator for `[]`, otherwise look the first segment up, and recurse
      on the rebuilt rest of the path. */
  method Query(query: string, data: Json) returns (o: Outcome)
    ensures o == Eval(query, data)
    decreases |query|
  {
    var parts := Split(query);
    if parts[0] == Wildcard {
      match data {
        case JNull =>
          o := Panic(NilKind);
        case JArr(elems) =>
          var results := [];
          var i := 0;
          while i < |elems|
            invariant 0 <= i <= |elems|
            invariant EvalEach(Rest(parts), elems[..i]) == Ok(results)
          {
            var rest := Join(parts[1..]);
            TailShorter(query);
            RestIsResplitTail(parts);
            var r := Query(rest, elems[i]);
            assert elems[..i + 1][..i] == elems[..i];
            if !r.Ok? {
              EachFailureSticks(Rest(parts), elems, i + 1);
              return r;
            }
            results := results + r.results;
            i := i + 1;
          }
          assert elems[..i] == elems;
          o := Ok(results);
        case _ =>
          o := Err(NonSliceIndex);
      }
    } else {
      match data {
        case JNull =>
          o := Err(NilData);
        case JObj(m) =>
          var value := Lookup(m, parts[0]);
          if |parts| > 1 {
            TailShorter(query);
            SplitJoin(parts[1..]);
            o := Query(Join(parts[1..]), value);
          } else {
            o := Ok([value]);
          }
        case _ =>
          o := Panic(NotAMap);
      }
    }
  }

  /** Once a prefix of the elements fails, the whole iteration ends with that
      failure: no later element is looked at. */
  lemma {:induction false} EachFailureSticks(parts: seq<string>, elems: seq<Json>, k: nat)
    requires parts != [] && k <= |elems|
    requires !EvalEach(parts, elems[..k]).Ok?
    ensures EvalEach(parts, elems) == EvalEach(parts, elems[..k])
  {
    if k < |elems| {
      var init := elems[..|elems| - 1];
      assert init[..k] == elems[..k];
      EachFailureSticks(parts, init, k);
    } else {
      assert elems[..k] == elems;
    }
  }

  /** The iteration succeeds exactly when every element succeeds. */
  lemma {:induction false} EachOkIff(parts: seq<string>, elems: seq<Json>)
    requires parts != []
    ensures EvalEach(parts, elems).Ok? <==> forall i :: 0 <= i < |elems| ==> EvalParts(parts, elems[i]).Ok?
  {
    if elems != [] {
      var n := |elems| - 1;
      var init := elems[..n];
      EachOkIff(parts, init);
      assert forall i :: 0 <= i < |init| ==> init[i] == elems[i];
      assert EvalEach(parts, elems).Ok? <==> EvalEach(parts, init).Ok? && EvalParts(parts, elems[n]).Ok?;
    }
  }

  /** The failure of the iteration is that of its first failing element. */
  lemma EachFirstFailure(parts: seq<string>, elems: seq<Json>, k: nat)
    requires parts != [] && k < |elems|
    requires forall j :: 0 <= j < k ==> EvalParts(parts, elems[j]).Ok?
    requires !EvalParts(parts, elems[k]).Ok?
    ensures EvalEach(parts, elems) == EvalParts(parts, elems[k])
  {
    var pre := elems[..k];
    assert forall j :: 0 <= j < |pre| ==> pre[j] == elems[j];
    EachOkIff(parts, pre);
    assert elems[..k + 1][..k] == pre;
    EachFailureSticks(parts, elems, k + 1);
  }

  /** Flattening a list of result lists, front to back. */
  function Concat(rs: seq<seq<Json>>): seq<Json>
  {
    if rs == [] then [] else rs[0] + Concat(rs[1..])
  }

  lemma {:induction false} ConcatSnoc(rs: seq<seq<Json>>, r: seq<Json>)
    ensures Concat(rs + [r]) == Concat(rs) + r
  {
    if rs == [] {
      assert [] + [r] == [r];
      assert Concat([r]) == r + Concat([]);
    } else {
      ConcatSnoc(rs[1..], r);
      assert (rs + [r])[1..] == rs[1..] + [r];
    }
  }

  /** The results of each element's sub-query, in element order. */
  function PerElement(parts: seq<string>, elems: seq<Json>): seq<seq<Json>>
    requires parts != []
    requires forall i :: 0 <= i < |elems| ==> EvalParts(parts, elems[i]).Ok?
  {
    seq(|elems|, i requires 0 <= i < |elems| => EvalParts(parts, elems[i]).results)
  }

  /** When every element succeeds, the iteration yields the concatenation of
      the elements' results in element order. */
  lemma {:induction false} EachConcat(parts: seq<string>, elems: seq<Json>)
    requires parts != []
    requires forall i :: 0 <= i < |elems| ==> EvalParts(parts, elems[i]).Ok?
    ensures EvalEach(parts, elems) == Ok(Concat(PerElement(parts, elems)))
  {
    if elems != [] {
      var n := |elems| - 1;
      var init := elems[..n];
      assert forall i :: 0 <= i < |init| ==> init[i] == elems[i];
      EachConcat(parts, init);
      var r := EvalParts(parts, elems[n]).results;
      assert EvalEach(parts, elems) == Ok(Concat(PerElement(parts, init)) + r);
      assert PerElement(parts, elems) == PerElement(parts, init) + [r];
      ConcatSnoc(PerElement(parts, init), r);
    }
  }

  /** When every element yields exactly one result, the iteration yields one
      result per element, the i-th being element i's. */
  lemma {:induction false} EachOnePerElement(parts: seq<string>, elems: seq<Json>)
    requires parts != []
    requires forall i :: 0 <= i < |elems| ==> EvalParts(parts, elems[i]).Ok? && |EvalParts(parts, elems[i]).results| == 1
    ensures EvalEach(parts, elems).Ok?
    ensures |EvalEach(parts, elems).results| == |elems|
    ensures forall i :: 0 <= i < |elems| ==> EvalEach(parts, elems).results[i] == EvalParts(parts, elems[i]).results[0]
  {
    EachConcat(parts, elems);
    ConcatSingletons(PerElement(parts, elems));
  }

  /** Flattening one-element lists keeps their elements, in order. */
  lemma {:induction false} ConcatSingletons(rs: seq<seq<Json>>)
    requires forall i :: 0 <= i < |rs| ==> |rs[i]| == 1
    ensures |Concat(rs)| == |rs|
    ensures forall i :: 0 <= i < |rs| ==> Concat(rs)[i] == rs[i][0]
  {
    if rs != [] {
      ConcatSingletons(rs[1..]);
      assert Concat(rs) == rs[0] + Concat(rs[1..]);
      forall i | 0 <= i < |rs|
        ensures Concat(rs)[i] == rs[i][0]
      {
        if i > 0 {
          assert rs[1..][i - 1] == rs[i];
        }
      }
    }
  }

  /** A path without `[]` that succeeds yields exactly one value. */
  lemma {:induction false} LiteralPathSingleResult(parts: seq<string>, data: Json)
    requires parts != []
    requires forall i :: 0 <= i < |parts| ==> parts[i] != Wildcard
    ensures EvalParts(parts, data).Ok? ==> |EvalParts(parts, data).results| == 1
    decreases |parts|
  {
    if data.JObj? && |parts| > 1 {
      LiteralPathSingleResult(parts[1..], Lookup(data.fields, parts[0]));
    }
  }

  /** Every slice reachable in the value has at least one element. */
  predicate NoEmptySlice(v: Json)
  {
    match v
    case JArr(elems) => elems != [] && forall i :: 0 <= i < |elems| ==> NoEmptySlice(elems[i])
    case JObj(m) => forall k :: k in m ==> NoEmptySlice(m[k])
    case _ => true
  }

  /** A successful query yields an empty list only when some `[]` iterates
      over an empty slice: on a tree without empty slices it yields at least
      one value. */
  lemma {:induction false} NonEmptyResults(parts: seq<string>, data: Json)
    requires parts != [] && NoEmptySlice(data)
    ensures EvalParts(parts, data).Ok? ==> EvalParts(parts, data).results != []
    decreases |Join(parts)|, 0
  {
    if parts[0] == Wildcard {
      if data.JArr? {
        NonEmptyEach(Rest(parts), data.elems);
      }
    } else if data.JObj? && |parts| > 1 {
      NonEmptyResults(parts[1..], Lookup(data.fields, parts[0]));
    }
  }

  /** The same for the iteration over a non-empty slice: the last element
      alone already contributes a value. */
  lemma {:induction false} NonEmptyEach(parts: seq<string>, elems: seq<Json>)
    requires parts != [] && elems != []
    requires forall i :: 0 <= i < |elems| ==> NoEmptySlice(elems[i])
    ensures EvalEach(parts, elems).Ok? ==> EvalEach(parts, elems).results != []
    decreases |Join(parts)|, 1, |elems|
  {
    NonEmptyResults(parts, elems[|elems| - 1]);
  }

  /** A single key looked up in a map yields exactly the stored value, or nil
      when the key is missing. */
  lemma LiteralLeaf(key: string, m: map<string, Json>)
    requires Dot !in key && key != Wildcard
    ensures Eval(key, JObj(m)) == Ok([if key in m then m[key] else JNull])
  {
    SplitWord(key);
  }

  /** A key followed by more path: nil fails with NilData, a map continues
      with the rest of the path on the looked-up value, anything else panics. */
  lemma LiteralStep(key: string, rest: string, data: Json)
    requires Dot !in key && key != Wildcard
    ensures Eval(key + [Dot] + rest, data) ==
      match data
      case JNull => Err(NilData)
      case JObj(m) => Eval(rest, if key in m then m[key] else JNull)
      case _ => Panic(NotAMap)
  {
    SplitFirst(key, rest);
  }

  /** `[]` followed by more path applies that path to each element. */
  lemma WildcardSplits(rest: string)
    ensures Split(Wildcard + [Dot] + rest) == [Wildcard] + Split(rest)
    ensures Rest(Split(Wildcard + [Dot] + rest)) == Split(rest)
  {
    SplitFirst(Wildcard, rest);
    assert ([Wildcard] + Split(rest))[1..] == Split(rest);
  }

  /** `[]` over a slice succeeds exactly when the rest of the path succeeds on
      every element, and then yields their results concatenated in order. */
  lemma WildcardConcat(rest: string, elems: seq<Json>)
    ensures Eval(Wildcard + [Dot] + rest, JArr(elems)).Ok? <==>
      forall i :: 0 <= i < |elems| ==> Eval(rest, elems[i]).Ok?
    ensures (forall i :: 0 <= i < |elems| ==> Eval(rest, elems[i]).Ok?) ==>
      Eval(Wildcard + [Dot] + rest, JArr(elems)) == Ok(Concat(PerElement(Split(rest), elems)))
  {
    WildcardSplits(rest);
    EachOkIff(Split(rest), elems);
    if forall i :: 0 <= i < |elems| ==> Eval(rest, elems[i]).Ok? {
      EachConcat(Split(rest), elems);
    }
  }

  /** The first element on which the rest of the path fails decides the
      outcome of `[]`; no partial results survive. */
  lemma WildcardFirstFailure(rest: string, elems: seq<Json>, k: nat)
    requires k < |elems|
    requires forall j :: 0 <= j < k ==> Eval(rest, elems[j]).Ok?
    requires !Eval(rest, elems[k]).Ok?
    ensures Eval(Wildcard + [Dot] + rest, JArr(elems)) == Eval(rest, elems[k])
  {
    WildcardSplits(rest);
    EachFirstFailure(Split(rest), elems, k);
  }

  /** `[]` over an empty slice yields no results and no error. */
  lemma WildcardEmpty(query: string)
    requires Split(query)[0] == Wildcard
    ensures Eval(query, JArr([])) == Ok([])
  {
    assert EvalEach(Rest(Split(query)), []) == Ok([]);
  }

  /** `[]` at the end of a path looks up the empty key in every element: over
      a slice of maps it yields, per element, the value stored under "". */
  lemma TrailingWildcard(elems: seq<Json>)
    requires forall i :: 0 <= i < |elems| ==> elems[i].JObj?
    ensures Eval(Wildcard, JArr(elems)).Ok?
    ensures |Eval(Wildcard, JArr(elems)).results| == |elems|
    ensures forall i :: 0 <= i < |elems| ==>
      Eval(Wildcard, JArr(elems)).results[i] == Lookup(elems[i].fields, [])
  {
    SplitWord(Wildcard);
    assert Rest([Wildcard]) == [[]];
    forall i | 0 <= i < |elems|
      ensures EvalParts([[]], elems[i]) == Ok([Lookup(elems[i].fields, [])])
    {
    }
    EachOnePerElement([[]], elems);
  }

  /** `[]` on anything but a slice: an error for scalars and maps, a panic
      for nil. */
  lemma WildcardOnNonSlice(query: string, data: Json)
    requires Split(query)[0] == Wildcard
    requires !data.JArr?
    ensures Eval(query, data) == if data.JNull? then Panic(NilKind) else Err(NonSliceIndex)
  {
  }

  /** A key on anything but a map: NilData for nil, a panic otherwise. */
  lemma LiteralOnNonMap(query: string, data: Json)
    requires Split(query)[0] != Wildcard
    requires !data.JObj?
    ensures Eval(query, data) == if data.JNull? then Err(NilData) else Panic(NotAMap)
  {
  }
}
