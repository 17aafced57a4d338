/**
 * What single conditions return, in terms of the fields of a document, their items, and the order of
 * numbers and strings.
 */
module MongoQueries {
  import opened Wrappers
  import opened MongoJson
  import opened MongoSemantics
  import opened MongoErrors
  import opened MongoMatcher

  /******* The order of strings *******/

  /** At the first place at which they differ, a has the smaller character or has ended. */
  ghost predicate Before(a: string, b: string) {
    exists i: nat :: DifferAt(a, b, i) && (i == |a| || a[i] < b[i])
  }

  ghost predicate DifferAt(a: string, b: string, i: nat) {
    i <= |a| && i < |b| && (forall j :: 0 <= j < i ==> a[j] == b[j]) && (i < |a| ==> a[i] != b[i])
  }

  lemma {:induction false} StringOrder(a: string, b: string)
    ensures StrLess(a, b) <==> Before(a, b)
  {
    if a == "" {
      if b != "" { assert DifferAt(a, b, 0); }
    } else if b != "" {
      if a[0] == b[0] {
        StringOrder(a[1..], b[1..]);
        OneCharacterMore(a, b);
      } else {
        assert DifferAt(a, b, 0);
        assert forall i: nat :: DifferAt(a, b, i) ==> i == 0;
      }
    }
  }

  lemma OneCharacterMore(a: string, b: string)
    requires a != "" && b != "" && a[0] == b[0]
    ensures Before(a, b) <==> Before(a[1..], b[1..])
  {
    if Before(a[1..], b[1..]) {
      var i: nat :| DifferAt(a[1..], b[1..], i) && (i == |a[1..]| || a[1..][i] < b[1..][i]);
      forall j | 0 <= j < i + 1 ensures a[j] == b[j] {
        if j > 0 { assert a[1..][j - 1] == b[1..][j - 1]; }
      }
      assert DifferAt(a, b, i + 1);
    }
    if Before(a, b) {
      var i: nat :| DifferAt(a, b, i) && (i == |a| || a[i] < b[i]);
      assert DifferAt(a[1..], b[1..], i - 1);
    }
  }

  /******* One operator on one field *******/

  predicate Plain(key: string) {
    !HasDot(key) && !IsOperator(key)
  }

  function Field(fields: map<string, Json>, key: string): Json {
    if key in fields then fields[key] else Undefined
  }

  /** A condition of one operator means what the operator does. */
  lemma OneOperator(rx: RegexEngine, order: KeyOrder, v: Json, op: string, w: Json)
    requires IsOperator(op)
    ensures var c := Single(op, w);
            && (Holds(rx, v, c) <==> OpHolds(rx, v, op, c.fields))
            && (CondThrows(rx, order, v, c) <==> OpThrows(rx, order, v, op, c.fields))
  {
    var c := Single(op, w);
    assert op in c.fields && IsOperators(c);
    SingleOrder(order, op, w);
    assert order(c)[0] == op && OperatorsHold(rx, v, c.fields, order(c), 0);
  }

  lemma OneField(rx: RegexEngine, order: KeyOrder, fields: map<string, Json>, key: string, s: Json)
    requires Plain(key)
    ensures Matches(rx, Obj(fields), Single(key, s)) <==> Holds(rx, Field(fields, key), s)
    ensures Throws(rx, order, Obj(fields), Single(key, s)) <==> CondThrows(rx, order, Field(fields, key), s)
  {
    PlainKey(key, s);
    SingleMatches(rx, Obj(fields), key, s);
    SingleThrows(rx, order, Obj(fields), key, s);
  }

  method MatchOne(rx: RegexEngine, order: KeyOrder, fields: map<string, Json>, key: string, op: string, w: Json)
    returns (r: Outcome)
    requires Plain(key) && IsOperator(op)
    ensures var v := Field(fields, key);
            r == Result(OpThrows(rx, order, v, op, Single(op, w).fields), OpHolds(rx, v, op, Single(op, w).fields))
  {
    OneField(rx, order, fields, key, Single(op, w));
    OneOperator(rx, order, Field(fields, key), op, w);
    r := MongoWhere(rx, order, Obj(fields), Single(key, Single(op, w)));
  }

  /** Numbers are compared as numbers. */
  method CompareNumbers(rx: RegexEngine, order: KeyOrder, fields: map<string, Json>, key: string, a: real, b: real)
    returns (gt: Outcome, gte: Outcome, lt: Outcome, lte: Outcome)
    requires Plain(key) && key in fields && fields[key] == Num(a)
    ensures gt == Returned(a > b) && gte == Returned(a >= b) && lt == Returned(a < b) && lte == Returned(a <= b)
  {
    gt := MatchOne(rx, order, fields, key, "$gt", Num(b));
    gte := MatchOne(rx, order, fields, key, "$gte", Num(b));
    lt := MatchOne(rx, order, fields, key, "$lt", Num(b));
    lte := MatchOne(rx, order, fields, key, "$lte", Num(b));
  }

  /** Strings are compared by their first differing character. */
  method CompareStrings(rx: RegexEngine, order: KeyOrder, fields: map<string, Json>, key: string, a: string, b: string)
    returns (gt: Outcome, gte: Outcome, lt: Outcome, lte: Outcome)
    requires Plain(key) && key in fields && fields[key] == Str(a)
    ensures gt == Returned(Before(b, a)) && gte == Returned(!Before(a, b))
    ensures lt == Returned(Before(a, b)) && lte == Returned(!Before(b, a))
  {
    StringOrder(a, b);
    StringOrder(b, a);
    gt := MatchOne(rx, order, fields, key, "$gt", Str(b));
    gte := MatchOne(rx, order, fields, key, "$gte", Str(b));
    lt := MatchOne(rx, order, fields, key, "$lt", Str(b));
    lte := MatchOne(rx, order, fields, key, "$lte", Str(b));
  }

  /** On values that can be compared, $gt is the complement of $lte and $lt that of $gte; on others all fail. */
  method CompareComplements(rx: RegexEngine, order: KeyOrder, fields: map<string, Json>, key: string, w: Json)
    returns (gt: Outcome, gte: Outcome, lt: Outcome, lte: Outcome)
    requires Plain(key)
    ensures gt.Returned? && gte.Returned? && lt.Returned? && lte.Returned?
    ensures Comparable(Field(fields, key), w) ==> gt.value == !lte.value && lt.value == !gte.value
    ensures !Comparable(Field(fields, key), w) ==> !gt.value && !lte.value && !lt.value && !gte.value
  {
    gt := MatchOne(rx, order, fields, key, "$gt", w);
    gte := MatchOne(rx, order, fields, key, "$gte", w);
    lt := MatchOne(rx, order, fields, key, "$lt", w);
    lte := MatchOne(rx, order, fields, key, "$lte", w);
  }

  method TestEquality(rx: RegexEngine, order: KeyOrder, fields: map<string, Json>, key: string, w: Json)
    returns (eq: Outcome, ne: Outcome)
    requires Plain(key)
    ensures eq == Returned(Field(fields, key) == w) && ne == Returned(Field(fields, key) != w)
  {
    eq := MatchOne(rx, order, fields, key, "$eq", w);
    ne := MatchOne(rx, order, fields, key, "$ne", w);
  }

  /** A value is on the list, or any of its items is. */
  method TestList(rx: RegexEngine, order: KeyOrder, fields: map<string, Json>, key: string, list: seq<Json>)
    returns (within: Outcome, outside: Outcome)
    requires Plain(key)
    ensures within.Returned? && outside == Returned(!within.value)
    ensures within.value <==>
              var v := Field(fields, key); v in list || (v.Arr? && exists x :: x in v.items && x in list)
  {
    within := MatchOne(rx, order, fields, key, "$in", Arr(list));
    outside := MatchOne(rx, order, fields, key, "$nin", Arr(list));
    ghost var v := Field(fields, key);
    if x :| v.Arr? && x in v.items && x in list {
      var i :| 0 <= i < |v.items| && v.items[i] == x;
    }
  }

  method TestExistence(rx: RegexEngine, order: KeyOrder, fields: map<string, Json>, key: string)
    returns (there: Outcome, missing: Outcome)
    requires Plain(key) && forall k :: k in fields ==> fields[k] != Undefined
    ensures there == Returned(key in fields) && missing == Returned(key !in fields)
  {
    there := MatchOne(rx, order, fields, key, "$exists", Bool(true));
    missing := MatchOne(rx, order, fields, key, "$exists", Bool(false));
  }

  /** Some item of an array matches; nothing but an array does. */
  method TestElements(rx: RegexEngine, order: KeyOrder, fields: map<string, Json>, key: string, inner: string, w: Json)
    returns (r: Outcome)
    requires Plain(key) && Plain(inner)
    requires var v := Field(fields, key); v.Arr? ==> forall x :: x in v.items ==> x.Obj?
    ensures r == Returned(
              var v := Field(fields, key); v.Arr? && exists x :: x in v.items && Field(x.fields, inner) == w)
  {
    var sel := Single(inner, Single("$eq", w));
    r := MatchOne(rx, order, fields, key, "$elemMatch", sel);
    ghost var v := Field(fields, key);
    if v.Arr? {
      ItemsMatch(rx, order, v.items, inner, w);
      assert Single("$elemMatch", sel).fields["$elemMatch"] == sel;
    }
  }

  lemma ItemsMatch(rx: RegexEngine, order: KeyOrder, items: seq<Json>, inner: string, w: Json)
    requires Plain(inner) && forall x :: x in items ==> x.Obj?
    ensures var sel := Single(inner, Single("$eq", w));
            && !AnyThrows(rx, order, items, sel)
            && ((exists i :: 0 <= i < |items| && Matches(rx, items[i], sel)) <==>
                  exists x :: x in items && Field(x.fields, inner) == w)
  {
    var sel := Single(inner, Single("$eq", w));
    forall i | 0 <= i < |items|
      ensures !Throws(rx, order, items[i], sel)
      ensures Matches(rx, items[i], sel) <==> Field(items[i].fields, inner) == w {
      ItemMatches(rx, order, items[i].fields, inner, w);
    }
    if x :| x in items && Field(x.fields, inner) == w {
      var i :| 0 <= i < |items| && items[i] == x;
      assert Matches(rx, items[i], sel);
    }
  }

  lemma ItemMatches(rx: RegexEngine, order: KeyOrder, fields: map<string, Json>, inner: string, w: Json)
    requires Plain(inner)
    ensures var sel := Single(inner, Single("$eq", w));
            !Throws(rx, order, Obj(fields), sel) && (Matches(rx, Obj(fields), sel) <==> Field(fields, inner) == w)
  {
    OneField(rx, order, fields, inner, Single("$eq", w));
    OneOperator(rx, order, Field(fields, inner), "$eq", w);
  }

  /** $not is the complement of the condition within, and throws with it. */
  method TestComplement(rx: RegexEngine, order: KeyOrder, fields: map<string, Json>, key: string, s: Json)
    returns (plain: Outcome, negated: Outcome)
    requires Plain(key)
    ensures negated == if plain.Threw? then Threw else Returned(!plain.value)
  {
    OneField(rx, order, fields, key, s);
    plain := MongoWhere(rx, order, Obj(fields), Single(key, s));
    negated := MatchOne(rx, order, fields, key, "$not", s);
  }

  /** A pattern is looked for in a string, or in the strings of an array. */
  method TestPattern(rx: RegexEngine, order: KeyOrder, fields: map<string, Json>, key: string, pattern: Json)
    returns (r: Outcome)
    requires Plain(key)
    ensures r.Returned?
    ensures var v := Field(fields, key);
            && (v.Str? ==> r.value == rx(pattern, Undefined, v.s))
            && (v.Arr? ==> r.value == exists x :: x in v.items && x.Str? && rx(pattern, Undefined, x.s))
            && (!v.Str? && !v.Arr? ==> !r.value)
  {
    r := MatchOne(rx, order, fields, key, "$regex", pattern);
    ghost var v := Field(fields, key);
    if x :| v.Arr? && x in v.items && x.Str? && rx(pattern, Undefined, x.s) {
      var i :| 0 <= i < |v.items| && v.items[i] == x;
    }
  }

  /** Anything else throws. */
  method TestUnknown(rx: RegexEngine, order: KeyOrder, fields: map<string, Json>, key: string, op: string, w: Json)
    returns (r: Outcome)
    requires Plain(key) && IsOperator(op)
    requires op !in {"$gt", "$gte", "$lt", "$lte", "$eq", "$ne", "$in", "$nin", "$exists", "$elemMatch", "$not",
                     "$regex"}
    ensures r == Threw
  {
    r := MatchOne(rx, order, fields, key, op, w);
  }

  /******* Several conditions, and paths *******/

  /** A plain value stands for equality. */
  method MatchValue(rx: RegexEngine, order: KeyOrder, fields: map<string, Json>, key: string, w: Json)
    returns (r: Outcome)
    requires Plain(key) && !IsObject(w)
    ensures r == Returned(Field(fields, key) == w)
  {
    ValueMatches(rx, order, fields, key, w);
    r := MongoWhere(rx, order, Obj(fields), Single(key, w));
  }

  lemma ValueMatches(rx: RegexEngine, order: KeyOrder, fields: map<string, Json>, key: string, w: Json)
    requires Plain(key) && !IsObject(w)
    ensures Matches(rx, Obj(fields), Single(key, w)) <==> Field(fields, key) == w
    ensures !Throws(rx, order, Obj(fields), Single(key, w))
  {
    OneField(rx, order, fields, key, w);
  }

  /** All entries of a selector must hold. */
  method MatchBothKeys(rx: RegexEngine, order: KeyOrder, fields: map<string, Json>, k: string, v: Json, l: string,
                       w: Json)
    returns (r: Outcome)
    requires Plain(k) && Plain(l) && k != l && !IsObject(v) && !IsObject(w)
    ensures r == Returned(Field(fields, k) == v && Field(fields, l) == w)
  {
    BothKeys(rx, order, fields, k, v, l, w);
    r := MongoWhere(rx, order, Obj(fields), Obj(map[k := v, l := w]));
  }

  lemma BothKeys(rx: RegexEngine, order: KeyOrder, fields: map<string, Json>, k: string, v: Json, l: string, w: Json)
    requires Plain(k) && Plain(l) && k != l && !IsObject(v) && !IsObject(w)
    ensures var sel := Obj(map[k := v, l := w]);
            && (Matches(rx, Obj(fields), sel) <==> Field(fields, k) == v && Field(fields, l) == w)
            && !Throws(rx, order, Obj(fields), sel)
  {
    var sel := Obj(map[k := v, l := w]);
    LastOfTwo(rx, order, fields, k, v);
    LastOfTwo(rx, order, fields, l, w);
    PlainKey(k, v);
    PlainKey(l, w);
    assert k in Fields(sel) && l in Fields(sel);
  }

  /** All operators of a condition must hold. */
  method MatchRange(rx: RegexEngine, order: KeyOrder, fields: map<string, Json>, key: string, x: real, a: real, b: real)
    returns (r: Outcome)
    requires Plain(key) && key in fields && fields[key] == Num(x)
    ensures r == Returned(a <= x <= b)
  {
    var c := Obj(map["$gte" := Num(a), "$lte" := Num(b)]);
    Range(rx, order, x, a, b);
    OneField(rx, order, fields, key, c);
    r := MongoWhere(rx, order, Obj(fields), Single(key, c));
  }

  lemma Range(rx: RegexEngine, order: KeyOrder, x: real, a: real, b: real)
    ensures var c := Obj(map["$gte" := Num(a), "$lte" := Num(b)]);
            (Holds(rx, Num(x), c) <==> a <= x <= b) && !CondThrows(rx, order, Num(x), c)
  {
    var c := Obj(map["$gte" := Num(a), "$lte" := Num(b)]);
    assert "$gte" in c.fields && "$lte" in c.fields && IsOperators(c);
  }

  /** One of two selectors must hold, or both. */
  method MatchEitherOrBoth(rx: RegexEngine, order: KeyOrder, fields: map<string, Json>, k: string, v: Json, l: string,
                           w: Json)
    returns (either: Outcome, both: Outcome)
    requires Plain(k) && Plain(l) && !IsObject(v) && !IsObject(w)
    ensures either == Returned(Field(fields, k) == v || Field(fields, l) == w)
    ensures both == Returned(Field(fields, k) == v && Field(fields, l) == w)
  {
    var sels := [Single(k, v), Single(l, w)];
    EitherSelector(rx, order, fields, k, v, l, w);
    BothSelectors(rx, order, fields, k, v, l, w);
    either := MongoWhere(rx, order, Obj(fields), Single("$or", Arr(sels)));
    both := MongoWhere(rx, order, Obj(fields), Single("$and", Arr(sels)));
  }

  lemma EitherSelector(rx: RegexEngine, order: KeyOrder, fields: map<string, Json>, k: string, v: Json, l: string,
                       w: Json)
    requires Plain(k) && Plain(l) && !IsObject(v) && !IsObject(w)
    ensures var o, s := Obj(fields), Arr([Single(k, v), Single(l, w)]);
            && (Matches(rx, o, Single("$or", s)) <==> Field(fields, k) == v || Field(fields, l) == w)
            && !Throws(rx, order, o, Single("$or", s))
  {
    var o, s := Obj(fields), Arr([Single(k, v), Single(l, w)]);
    ValueMatches(rx, order, fields, k, v);
    ValueMatches(rx, order, fields, l, w);
    assert s.items[0] == Single(k, v) && s.items[1] == Single(l, w);
    OneWord(rx, order, o, "$or", s);
    SingleMatches(rx, o, "$or", s);
    SingleThrows(rx, order, o, "$or", s);
  }

  lemma BothSelectors(rx: RegexEngine, order: KeyOrder, fields: map<string, Json>, k: string, v: Json, l: string,
                      w: Json)
    requires Plain(k) && Plain(l) && !IsObject(v) && !IsObject(w)
    ensures var o, s := Obj(fields), Arr([Single(k, v), Single(l, w)]);
            && (Matches(rx, o, Single("$and", s)) <==> Field(fields, k) == v && Field(fields, l) == w)
            && !Throws(rx, order, o, Single("$and", s))
  {
    var o, s := Obj(fields), Arr([Single(k, v), Single(l, w)]);
    ValueMatches(rx, order, fields, k, v);
    ValueMatches(rx, order, fields, l, w);
    assert s.items[0] == Single(k, v) && s.items[1] == Single(l, w);
    OneWord(rx, order, o, "$and", s);
    SingleMatches(rx, o, "$and", s);
    SingleThrows(rx, order, o, "$and", s);
  }

  /** Without selectors $or fails, and $and throws. */
  method MatchNothing(rx: RegexEngine, order: KeyOrder, fields: map<string, Json>)
    returns (either: Outcome, both: Outcome)
    ensures either == Returned(false) && both == Threw
  {
    var o, s := Obj(fields), Arr([]);
    OneWord(rx, order, o, "$or", s);
    OneWord(rx, order, o, "$and", s);
    SingleMatches(rx, o, "$or", s);
    SingleThrows(rx, order, o, "$or", s);
    SingleThrows(rx, order, o, "$and", s);
    either := MongoWhere(rx, order, o, Single("$or", s));
    both := MongoWhere(rx, order, o, Single("$and", s));
  }

  lemma {:induction false} WordsOfTwo(k: string, l: string)
    requires !HasDot(k) && !HasDot(l)
    ensures Head(k + "." + l) == k && Rest(k + "." + l) == l && Words(k + "." + l) == [k, l]
  {
    var path := k + "." + l;
    assert path[|k|] == '.';
    if k == "" {
      assert path[1..] == l;
    } else {
      assert k[1..] + "." + l == path[1..] && path[0] == k[0];
      assert forall i :: 0 <= i < |k| - 1 ==> k[1..][i] == k[i + 1];
      WordsOfTwo(k[1..], l);
    }
  }

  /** A path of two words reads the field of an object, or of any object in an array. */
  method MatchPathOfTwo(rx: RegexEngine, order: KeyOrder, fields: map<string, Json>, k: string, l: string, w: Json)
    returns (r: Outcome)
    requires Plain(k) && Plain(l) && !IsObject(w)
    requires var v := Field(fields, k); v.Obj? || (v.Arr? && forall x :: x in v.items ==> x.Obj?)
    ensures var v := Field(fields, k);
            && (v.Obj? ==> r == Returned(Field(v.fields, l) == w))
            && (v.Arr? ==> r == Returned(exists x :: x in v.items && Field(x.fields, l) == w))
  {
    var o, path := Obj(fields), k + "." + l;
    WordsOfTwo(k, l);
    SingleMatches(rx, o, path, w);
    SingleThrows(rx, order, o, path, w);
    PathOfTwo(rx, order, fields, k, l, w);
    r := MongoWhere(rx, order, o, Single(path, w));
  }

  lemma PathOfTwo(rx: RegexEngine, order: KeyOrder, fields: map<string, Json>, k: string, l: string, w: Json)
    requires Plain(k) && Plain(l) && !IsObject(w)
    requires var v := Field(fields, k); v.Obj? || (v.Arr? && forall x :: x in v.items ==> x.Obj?)
    ensures !PathThrows(rx, order, Obj(fields), [k, l], w)
    ensures var v := Field(fields, k);
            && (v.Obj? ==> (PathHolds(rx, Obj(fields), [k, l], w) <==> Field(v.fields, l) == w))
            && (v.Arr? ==> (PathHolds(rx, Obj(fields), [k, l], w) <==>
                              exists x :: x in v.items && Field(x.fields, l) == w))
  {
    var v := Field(fields, k);
    assert [k, l][1..] == [l];
    if v.Obj? {
      LastOfTwo(rx, order, v.fields, l, w);
    } else {
      forall i | 0 <= i < |v.items|
        ensures !PathThrows(rx, order, v.items[i], [l], w)
        ensures PathHolds(rx, v.items[i], [l], w) <==> Field(v.items[i].fields, l) == w {
        LastOfTwo(rx, order, v.items[i].fields, l, w);
      }
      SomeItem(rx, v.items, l, w);
    }
  }

  lemma SomeItem(rx: RegexEngine, items: seq<Json>, l: string, w: Json)
    requires forall x :: x in items ==> x.Obj?
    requires forall i :: 0 <= i < |items| ==> (PathHolds(rx, items[i], [l], w) <==> Field(items[i].fields, l) == w)
    ensures (exists i :: 0 <= i < |items| && PathHolds(rx, OrEmpty(items[i]), [l], w)) <==>
            exists x :: x in items && Field(x.fields, l) == w
  {
    forall x | x in items && Field(x.fields, l) == w
      ensures exists i :: 0 <= i < |items| && PathHolds(rx, OrEmpty(items[i]), [l], w) {
      var i :| 0 <= i < |items| && items[i] == x;
      assert PathHolds(rx, OrEmpty(items[i]), [l], w);
    }
  }

  lemma LastOfTwo(rx: RegexEngine, order: KeyOrder, fields: map<string, Json>, l: string, w: Json)
    requires Plain(l) && !IsObject(w)
    ensures !PathThrows(rx, order, Obj(fields), [l], w)
    ensures PathHolds(rx, Obj(fields), [l], w) <==> Field(fields, l) == w
  {
    PlainKey(l, w);
    assert [l][0] == l && !LastThrows(rx, order, Obj(fields), l, w);
  }
}
