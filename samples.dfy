/** The sample document of the repository's tests, built by hand, and the
    queries the tests run on it, worked out with the lemmas of module Jq.
    Each query is first worked out on the path built from its segments and
    separators (a "...Steps" lemma), then restated on the test's own string. */
module Samples {
  import opened Paths
  import opened Tree
  import opened Jq

  function Meal(time: string): Json
  {
    JObj(map["day" := JStr("monday"), "time" := JStr(time), "type" := JStr("dry food")])
  }

  function Cat(name: string, whiskers: int, friends: seq<Json>, meals: seq<Json>): Json
  {
    JObj(map[
      "type" := JStr("cat"),
      "name" := JStr(name),
      "attributes" := JObj(map["whiskers" := JNum(whiskers)]),
      "friends" := JArr(friends),
      "meals" := JArr(meals)])
  }

  const Willow: Json := Cat("Willow", 12, [JStr("Hitch"), JStr("Olive")], [Meal("8:30"), Meal("17:30")])
  const Hitch: Json := Cat("Hitch", 15, [JStr("Willow")], [Meal("8:00"), Meal("18:15")])
  const Meta: Json := JObj(map["errors" := JArr([]), "response" := JNum(200)])
  const Doc: Json := JObj(map["cats" := JNum(2), "data" := JArr([Willow, Hitch]), "meta" := Meta])

  /** A key present in a map, at the end of the path. */
  lemma KeyLast(key: string, m: map<string, Json>, v: Json)
    requires Dot !in key && key != Wildcard
    requires key in m && m[key] == v
    ensures Eval(key, JObj(m)) == Ok([v])
  {
    LiteralLeaf(key, m);
  }

  /** A key present in a map, followed by more path. */
  lemma KeyThen(key: string, rest: string, m: map<string, Json>, v: Json, r: Outcome)
    requires Dot !in key && key != Wildcard
    requires key in m && m[key] == v
    requires Eval(rest, v) == r
    ensures Eval(key + [Dot] + rest, JObj(m)) == r
  {
    LiteralStep(key, rest, JObj(m));
  }

  /** Two keys in turn, the second found in the map stored under the first. */
  lemma KeyKey(first: string, second: string, obj: Json, v: Json)
    requires Dot !in first && first != Wildcard && Dot !in second && second != Wildcard
    requires obj.JObj? && first in obj.fields && obj.fields[first].JObj?
    requires second in obj.fields[first].fields && obj.fields[first].fields[second] == v
    ensures Eval(first + [Dot] + second, obj) == Ok([v])
  {
    KeyLast(second, obj.fields[first].fields, v);
    KeyThen(first, second, obj.fields, obj.fields[first], Ok([v]));
  }

  /** `[]` over a two-element slice concatenates the two sub-results. */
  lemma OverPair(rest: string, a: Json, b: Json, ra: seq<Json>, rb: seq<Json>)
    requires Eval(rest, a) == Ok(ra) && Eval(rest, b) == Ok(rb)
    ensures Eval(Wildcard + [Dot] + rest, JArr([a, b])) == Ok(ra + rb)
  {
    WildcardConcat(rest, [a, b]);
    var rs := PerElement(Split(rest), [a, b]);
    assert rs == [ra, rb];
    assert Concat(rs) == ra + Concat([rb]);
    assert Concat([rb]) == rb + Concat([]);
  }

  /** `[]` over the two-element "data" slice of a document. */
  lemma OverData(doc: Json, tail: string, a: Json, b: Json, ra: seq<Json>, rb: seq<Json>)
    requires doc.JObj? && "data" in doc.fields && doc.fields["data"] == JArr([a, b])
    requires Eval(tail, a) == Ok(ra) && Eval(tail, b) == Ok(rb)
    ensures Eval("data" + [Dot] + (Wildcard + [Dot] + tail), doc) == Ok(ra + rb)
  {
    OverPair(tail, a, b, ra, rb);
    KeyThen("data", Wildcard + [Dot] + tail, doc.fields, JArr([a, b]), Ok(ra + rb));
  }

  /** "meals.[].time" on one cat yields the times of its two meals in order. */
  lemma MealTimes(cat: Json, t1: string, t2: string)
    requires cat.JObj? && "meals" in cat.fields && cat.fields["meals"] == JArr([Meal(t1), Meal(t2)])
    ensures Eval("meals" + [Dot] + (Wildcard + [Dot] + "time"), cat) == Ok([JStr(t1), JStr(t2)])
  {
    assert Eval(Wildcard + [Dot] + "time", JArr([Meal(t1), Meal(t2)])) == Ok([JStr(t1), JStr(t2)]) by {
      KeyLast("time", Meal(t1).fields, JStr(t1));
      KeyLast("time", Meal(t2).fields, JStr(t2));
      OverPair("time", Meal(t1), Meal(t2), [JStr(t1)], [JStr(t2)]);
    }
    KeyThen("meals", Wildcard + [Dot] + "time", cat.fields, JArr([Meal(t1), Meal(t2)]), Ok([JStr(t1), JStr(t2)]));
  }

  /** "attributes.whiskers" on one cat yields its whiskers. */
  lemma CatWhiskers(name: string, whiskers: int, friends: seq<Json>, meals: seq<Json>)
    ensures Eval("attributes" + [Dot] + "whiskers", Cat(name, whiskers, friends, meals)) == Ok([JNum(whiskers)])
  {
    KeyKey("attributes", "whiskers", Cat(name, whiskers, friends, meals), JNum(whiskers));
  }

  /** `[]` over the "data" slice followed by one key present in both elements. */
  lemma OverDataKey(doc: Json, key: string, a: Json, b: Json)
    requires Dot !in key && key != Wildcard
    requires doc.JObj? && "data" in doc.fields && doc.fields["data"] == JArr([a, b])
    requires a.JObj? && key in a.fields && b.JObj? && key in b.fields
    ensures Eval("data" + [Dot] + (Wildcard + [Dot] + key), doc) == Ok([a.fields[key], b.fields[key]])
  {
    KeyLast(key, a.fields, a.fields[key]);
    KeyLast(key, b.fields, b.fields[key]);
    OverData(doc, key, a, b, [a.fields[key]], [b.fields[key]]);
  }

  /** "cats" yields the one number stored under that key. */
  lemma Cats()
    ensures Eval("cats", Doc) == Ok([JNum(2)])
  {
    KeyLast("cats", Doc.fields, JNum(2));
  }

  /** "meta.response" built from its segments. */
  lemma MetaResponseSteps()
    ensures Eval("meta" + [Dot] + "response", Doc) == Ok([JNum(200)])
  {
    KeyLast("response", Meta.fields, JNum(200));
    KeyThen("meta", "response", Doc.fields, Meta, Ok([JNum(200)]));
  }

  /** "meta.response" looks up "meta", then "response". */
  lemma MetaResponse()
    ensures Eval("meta.response", Doc) == Ok([JNum(200)])
  {
    assert "meta" + [Dot] + "response" == "meta.response";
    MetaResponseSteps();
  }

  /** "data.[].attributes.whiskers" built from its segments. */
  lemma WhiskersSteps()
    ensures Eval("data" + [Dot] + (Wildcard + [Dot] + ("attributes" + [Dot] + "whiskers")), Doc) ==
      Ok([JNum(12), JNum(15)])
  {
    CatWhiskers("Willow", 12, [JStr("Hitch"), JStr("Olive")], [Meal("8:30"), Meal("17:30")]);
    CatWhiskers("Hitch", 15, [JStr("Willow")], [Meal("8:00"), Meal("18:15")]);
    OverData(Doc, "attributes" + [Dot] + "whiskers", Willow, Hitch, [JNum(12)], [JNum(15)]);
  }

  /** "data.[].attributes.whiskers" yields each cat's whiskers in document order. */
  lemma Whiskers()
    ensures Eval("data.[].attributes.whiskers", Doc) == Ok([JNum(12), JNum(15)])
  {
    assert "data" + [Dot] + (Wildcard + [Dot] + ("attributes" + [Dot] + "whiskers")) ==
      "data.[].attributes.whiskers";
    WhiskersSteps();
  }

  /** "data.[].friends" built from its segments. */
  lemma FriendsSteps()
    ensures Eval("data" + [Dot] + (Wildcard + [Dot] + "friends"), Doc) ==
      Ok([JArr([JStr("Hitch"), JStr("Olive")]), JArr([JStr("Willow")])])
  {
    OverDataKey(Doc, "friends", Willow, Hitch);
  }

  /** "data.[].friends" yields each cat's friends slice whole, not flattened. */
  lemma Friends()
    ensures Eval("data.[].friends", Doc) ==
      Ok([JArr([JStr("Hitch"), JStr("Olive")]), JArr([JStr("Willow")])])
  {
    assert "data" + [Dot] + (Wildcard + [Dot] + "friends") == "data.[].friends";
    FriendsSteps();
  }

  /** "data.[].meals.[].time" built from its segments. */
  lemma AllMealTimesSteps()
    ensures Eval("data" + [Dot] + (Wildcard + [Dot] + ("meals" + [Dot] + (Wildcard + [Dot] + "time"))), Doc) ==
      Ok([JStr("8:30"), JStr("17:30"), JStr("8:00"), JStr("18:15")])
  {
    MealTimes(Willow, "8:30", "17:30");
    MealTimes(Hitch, "8:00", "18:15");
    OverData(Doc, "meals" + [Dot] + (Wildcard + [Dot] + "time"), Willow, Hitch,
      [JStr("8:30"), JStr("17:30")], [JStr("8:00"), JStr("18:15")]);
  }

  /** "data.[].meals.[].time": nested `[]` concatenate in row-major order. */
  lemma AllMealTimes()
    ensures Eval("data.[].meals.[].time", Doc) ==
      Ok([JStr("8:30"), JStr("17:30"), JStr("8:00"), JStr("18:15")])
  {
    assert "data" + [Dot] + (Wildcard + [Dot] + ("meals" + [Dot] + (Wildcard + [Dot] + "time"))) ==
      "data.[].meals.[].time";
    AllMealTimesSteps();
  }

  /** "data.[i].attributes.whiskers" built from its segments. */
  lemma IndexMarkerIsAKeySteps()
    ensures Eval("data" + [Dot] + ("[i]" + [Dot] + ("attributes" + [Dot] + "whiskers")), Doc) == Panic(NotAMap)
  {
    var tail := "attributes" + [Dot] + "whiskers";
    LiteralStep("[i]", tail, JArr([Willow, Hitch]));
    KeyThen("data", "[i]" + [Dot] + tail, Doc.fields, JArr([Willow, Hitch]), Panic(NotAMap));
  }

  /** "data.[i].attributes.whiskers": "[i]" is an ordinary key, and looking
      it up in the "data" slice panics. */
  lemma IndexMarkerIsAKey()
    ensures Eval("data.[i].attributes.whiskers", Doc) == Panic(NotAMap)
  {
    assert "data" + [Dot] + ("[i]" + [Dot] + ("attributes" + [Dot] + "whiskers")) ==
      "data.[i].attributes.whiskers";
    IndexMarkerIsAKeySteps();
  }

  /** "data.[]" built from its segments. */
  lemma TrailingWildcardOnCatsSteps()
    ensures Eval("data" + [Dot] + Wildcard, Doc) == Ok([JNull, JNull])
  {
    var cats := [Willow, Hitch];
    assert Eval(Wildcard, JArr(cats)) == Ok([JNull, JNull]) by {
      TrailingWildcard(cats);
      assert Lookup(cats[0].fields, []) == JNull && Lookup(cats[1].fields, []) == JNull;
    }
    KeyThen("data", Wildcard, Doc.fields, JArr(cats), Ok([JNull, JNull]));
  }

  /** "data.[]": a trailing `[]` looks up the empty key in each cat, where it
      is missing, so each cat contributes nil. */
  lemma TrailingWildcardOnCats()
    ensures Eval("data.[]", Doc) == Ok([JNull, JNull])
  {
    assert "data" + [Dot] + Wildcard == "data.[]";
    TrailingWildcardOnCatsSteps();
  }

  /** "meta.errors.[].code" built from its segments. */
  lemma EmptyErrorsSteps()
    ensures Eval("meta" + [Dot] + ("errors" + [Dot] + (Wildcard + [Dot] + "code")), Doc) == Ok([])
  {
    WildcardConcat("code", []);
    KeyThen("errors", Wildcard + [Dot] + "code", Meta.fields, JArr([]), Ok([]));
    KeyThen("meta", "errors" + [Dot] + (Wildcard + [Dot] + "code"), Doc.fields, Meta, Ok([]));
  }

  /** "meta.errors.[].code": `[]` over the empty slice yields nothing and no error. */
  lemma EmptyErrors()
    ensures Eval("meta.errors.[].code", Doc) == Ok([])
  {
    assert "meta" + [Dot] + ("errors" + [Dot] + (Wildcard + [Dot] + "code")) == "meta.errors.[].code";
    EmptyErrorsSteps();
  }

  /** "meta.missing.code" built from its segments. */
  lemma MissingThenKeySteps()
    ensures Eval("meta" + [Dot] + ("missing" + [Dot] + "code"), Doc) == Err(NilData)
  {
    LiteralOnNonMap("code", JNull);
    LiteralStep("missing", "code", Meta);
    KeyThen("meta", "missing" + [Dot] + "code", Doc.fields, Meta, Err(NilData));
  }

  /** "meta.missing.code": a missing key gives nil, and a key looked up in nil
      fails with the error "Nil data". */
  lemma MissingThenKey()
    ensures Eval("meta.missing.code", Doc) == Err(NilData)
    ensures Message(Eval("meta.missing.code", Doc).error) == "Nil data"
  {
    assert "meta" + [Dot] + ("missing" + [Dot] + "code") == "meta.missing.code";
    MissingThenKeySteps();
  }

  /** "cats.[].x" built from its segments. */
  lemma WildcardOnNumberSteps()
    ensures Eval("cats" + [Dot] + (Wildcard + [Dot] + "x"), Doc) == Err(NonSliceIndex)
  {
    WildcardSplits("x");
    KeyThen("cats", Wildcard + [Dot] + "x", Doc.fields, JNum(2), Err(NonSliceIndex));
  }

  /** "cats.[].x": `[]` on a number fails with the error "Can not index over
      non-slice". */
  lemma WildcardOnNumber()
    ensures Eval("cats.[].x", Doc) == Err(NonSliceIndex)
    ensures Message(Eval("cats.[].x", Doc).error) == "Can not index over non-slice"
  {
    assert "cats" + [Dot] + (Wildcard + [Dot] + "x") == "cats.[].x";
    WildcardOnNumberSteps();
  }
}
