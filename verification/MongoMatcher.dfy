/**
 * The in-memory matcher: loops over entries and operators with local flags, selectors rewritten and
 * rebuilt on the way, and errors thrown for what is not supported.
 *
 * Keys are taken in the order in which their objects enumerate them.  A call throws exactly when the
 * semantics of errors says so under that order, and else returns what the selector means.
 */
module MongoMatcher {
  import opened Wrappers
  import opened JsStrings
  import opened JsKeys
  import opened MongoJson
  import opened MongoSemantics
  import opened MongoErrors
  import opened MongoErrorLaws

  datatype Outcome = Returned(value: bool) | Threw

  /******* The selectors that are built on the way *******/

  function Single(key: string, s: Json): Json {
    Obj(map[key := s])
  }

  lemma SingleRank(key: string, s: Json)
    ensures SelRank(Single(key, s)) == 1 + EntryRank(Words(key), s)
  {
    var sel := Single(key, s);
    assert sel.fields.Keys == {key} && sel.fields[key] == s;
    assert Pick({key}) == key;
    assert {key} - {key} == {};
    assert MaxEntryRank(sel, {key}) == Max(EntryRank(Words(key), s), MaxEntryRank(sel, {}));
  }

  /** A key of one word that is no operator. */
  lemma PlainKey(key: string, s: Json)
    requires !HasDot(key) && !IsOperator(key)
    ensures Words(key) == [key] && EntryRank(Words(key), s) == LastRank(key, s) == CondRank(s)
    ensures forall rx, o :: PathHolds(rx, o, Words(key), s) <==> Holds(rx, Get(o, key), s)
  {
    assert key != "$or" && key != "$and";
  }

  lemma SingleMatches(rx: RegexEngine, o: Json, key: string, s: Json)
    ensures Matches(rx, o, Single(key, s)) <==> PathHolds(rx, o, Words(key), s)
  {
    assert key in Fields(Single(key, s));
  }

  lemma SingleOrder(order: KeyOrder, key: string, s: Json)
    ensures order(Single(key, s)) == [key]
  {
    var keys := order(Single(key, s));
    assert Enumerates(keys, Single(key, s));
    DistinctSize(keys);
    assert (set k | k in keys) == {key};
    assert keys[0] in keys;
  }

  lemma SingleThrows(rx: RegexEngine, order: KeyOrder, o: Json, key: string, s: Json)
    ensures Throws(rx, order, o, Single(key, s)) <==> PathThrows(rx, order, o, Words(key), s)
  {
    SingleOrder(order, key, s);
    var sel := Single(key, s);
    assert order(sel)[0] == key && Fields(sel)[key] == s;
    assert EntriesHold(rx, o, sel, order(sel), 0);
  }

  lemma RestBelow(key: string, s: Json)
    requires HasDot(key)
    ensures SelRank(Single(Rest(key), s)) < EntryRank(Words(key), s)
  {
    SingleRank(Rest(key), s);
  }

  /** A plain value means { $eq: value }. */
  lemma EqRewrite(rx: RegexEngine, order: KeyOrder, o: Json, key: string, s: Json)
    requires !HasDot(key) && !IsOperator(key) && !IsObject(s) && !Missing(o)
    ensures var sel := Single(key, Single("$eq", s));
            && SelRank(sel) < CondRank(s)
            && (Matches(rx, o, sel) <==> Holds(rx, Get(o, key), s))
            && !Throws(rx, order, o, sel)
  {
    var c := Single("$eq", s);
    EqCondition(rx, order, Get(o, key), s);
    PlainKey(key, c);
    SingleRank(key, c);
    SingleMatches(rx, o, key, c);
    SingleThrows(rx, order, o, key, c);
  }

  lemma EqCondition(rx: RegexEngine, order: KeyOrder, v: Json, s: Json)
    requires !IsObject(s)
    ensures var c := Single("$eq", s);
            CondRank(c) == 1 && CondRank(s) == 3 && (Holds(rx, v, c) <==> v == s) && !CondThrows(rx, order, v, c)
  {
    var c := Single("$eq", s);
    assert "$eq" in c.fields && IsOperator("$eq");
    assert IsOperators(c);
    OneOpRank("$eq", s);
    assert OpHolds(rx, v, "$eq", c.fields) <==> v == s;
    assert !OpThrows(rx, order, v, "$eq", c.fields);
    SingleOrder(order, "$eq", s);
  }

  lemma OneOpRank(op: string, v: Json)
    ensures Single(op, v).fields.Keys == {op} && MaxOpRank(Single(op, v), {op}) == OpRank(op, v)
  {
    var s := Single(op, v);
    assert s.fields.Keys == {op} && s.fields[op] == v;
    assert Pick({op}) == op;
    assert {op} - {op} == {};
    assert MaxOpRank(s, {op}) == Max(OpRank(op, v), MaxOpRank(s, {}));
  }

  /** The operand of $not is matched against the whole document. */
  lemma NotRewrite(rx: RegexEngine, order: KeyOrder, o: Json, key: string, v: Json)
    requires !HasDot(key) && !IsOperator(key) && !Missing(o)
    ensures var sel := Single(key, v);
            && SelRank(sel) < OpRank("$not", v)
            && (Matches(rx, o, sel) <==> Holds(rx, Get(o, key), v))
            && (Throws(rx, order, o, sel) <==> CondThrows(rx, order, Get(o, key), v))
  {
    PlainKey(key, v);
    SingleRank(key, v);
    SingleMatches(rx, o, key, v);
    SingleThrows(rx, order, o, key, v);
  }

  /******* The matcher *******/

  ghost function Result(throws: bool, holds: bool): Outcome {
    if throws then Threw else Returned(holds)
  }

  method MongoWhere(rx: RegexEngine, order: KeyOrder, o: Json, selector: Json) returns (r: Outcome)
    ensures r == Result(Throws(rx, order, o, selector), Matches(rx, o, selector))
    decreases SelRank(selector), 1, 0
  {
    if selector == Null { return Threw; }
    if !IsObject(selector) { return Returned(false); }
    var keys := order(selector);
    for i := 0 to |keys|
      invariant EntriesHold(rx, o, selector, keys, i) && NoEntryThrows(rx, order, o, selector, keys, i)
    {
      var key := keys[i];
      KeyBelow(order, selector, i);
      r := MatchEntry(rx, order, o, key, Fields(selector)[key]);
      if r != Returned(true) {
        EntryDecides(rx, order, o, selector, keys, i, r);
        return r;
      }
      OneMoreEntry(rx, order, o, selector, keys, i);
    }
    AllEntriesHold(rx, order, o, selector, keys);
    r := Returned(true);
  }

  lemma KeyBelow(order: KeyOrder, sel: Json, i: nat)
    requires i < |order(sel)|
    ensures order(sel)[i] in Fields(sel) && EntryRank(Words(order(sel)[i]), Fields(sel)[order(sel)[i]]) < SelRank(sel)
  {
    assert Enumerates(order(sel), sel) && order(sel)[i] in order(sel);
    FieldBelow(sel, order(sel)[i]);
  }

  ghost predicate NoEntryThrows(rx: RegexEngine, order: KeyOrder, o: Json, sel: Json, keys: seq<string>, n: nat)
    requires n <= |keys|
  {
    forall j :: 0 <= j < n && keys[j] in Fields(sel) ==> !PathThrows(rx, order, o, Words(keys[j]), Fields(sel)[keys[j]])
  }

  lemma OneMoreEntry(rx: RegexEngine, order: KeyOrder, o: Json, sel: Json, keys: seq<string>, n: nat)
    requires n < |keys| && keys[n] in Fields(sel) && EntriesHold(rx, o, sel, keys, n) &&
             NoEntryThrows(rx, order, o, sel, keys, n)
    requires var s := Fields(sel)[keys[n]];
             !PathThrows(rx, order, o, Words(keys[n]), s) && PathHolds(rx, o, Words(keys[n]), s)
    ensures EntriesHold(rx, o, sel, keys, n + 1) && NoEntryThrows(rx, order, o, sel, keys, n + 1)
  {
  }

  /** The first entry that throws or does not hold decides. */
  lemma EntryDecides(rx: RegexEngine, order: KeyOrder, o: Json, sel: Json, keys: seq<string>, i: nat, r: Outcome)
    requires IsObject(sel) && keys == order(sel) && i < |keys| && keys[i] in Fields(sel) && r != Returned(true)
    requires EntriesHold(rx, o, sel, keys, i) && NoEntryThrows(rx, order, o, sel, keys, i)
    requires var s := Fields(sel)[keys[i]];
             r == Result(PathThrows(rx, order, o, Words(keys[i]), s), PathHolds(rx, o, Words(keys[i]), s))
    ensures r == Result(Throws(rx, order, o, sel), Matches(rx, o, sel))
  {
    if r.Returned? {
      assert forall j :: i < j < |keys| ==> !EntriesHold(rx, o, sel, keys, j);
    }
  }

  lemma AllEntriesHold(rx: RegexEngine, order: KeyOrder, o: Json, sel: Json, keys: seq<string>)
    requires IsObject(sel) && keys == order(sel)
    requires EntriesHold(rx, o, sel, keys, |keys|) && NoEntryThrows(rx, order, o, sel, keys, |keys|)
    ensures !Throws(rx, order, o, sel) && Matches(rx, o, sel)
  {
    assert Enumerates(keys, sel);
    forall key | key in Fields(sel) ensures PathHolds(rx, o, Words(key), Fields(sel)[key]) {
      assert key in keys;
    }
  }

  /** One entry of a selector. */
  method MatchEntry(rx: RegexEngine, order: KeyOrder, o: Json, key: string, s: Json) returns (r: Outcome)
    ensures r == Result(PathThrows(rx, order, o, Words(key), s), PathHolds(rx, o, Words(key), s))
    decreases EntryRank(Words(key), s), 4, 0
  {
    if HasDot(key) {
      r := MatchPath(rx, order, o, key, s);
    } else {
      OneWord(rx, order, o, key, s);
      r := MatchLast(rx, order, o, key, s);
    }
  }

  lemma OneWord(rx: RegexEngine, order: KeyOrder, o: Json, key: string, s: Json)
    requires !HasDot(key)
    ensures EntryRank(Words(key), s) == LastRank(key, s)
    ensures PathThrows(rx, order, o, Words(key), s) == LastThrows(rx, order, o, key, s)
    ensures PathHolds(rx, o, Words(key), s) == LastHolds(rx, o, key, s)
  {
    assert Words(key) == [key];
  }

  method MatchLast(rx: RegexEngine, order: KeyOrder, o: Json, key: string, s: Json) returns (r: Outcome)
    requires !HasDot(key)
    ensures r == Result(LastThrows(rx, order, o, key, s), LastHolds(rx, o, key, s))
    decreases LastRank(key, s), 3, 0
  {
    if key == "$or" {
      if !s.Arr? { return Threw; }
      r := MatchOr(rx, order, o, s);
    } else if key == "$and" {
      if !s.Arr? || s.items == [] { return Threw; }
      r := MatchAnd(rx, order, o, s);
    } else if IsOperator(key) {
      r := Threw;
    } else {
      r := MatchField(rx, order, o, key, s);
    }
  }

  method MatchPath(rx: RegexEngine, order: KeyOrder, o: Json, key: string, s: Json) returns (r: Outcome)
    requires HasDot(key)
    ensures r == Result(PathThrows(rx, order, o, Words(key), s), PathHolds(rx, o, Words(key), s))
    decreases EntryRank(Words(key), s), 2, 0
  {
    RestBelow(key, s);
    assert Words(key) == [Head(key)] + Words(Rest(key));
    assert Words(key)[1..] == Words(Rest(key));
    if Missing(o) { return Threw; }
    var oAttr := Get(o, Head(key));
    if oAttr.Arr? {
      r := MatchSome(rx, order, oAttr.items, key, s);
    } else if IsObject(oAttr) || oAttr.Undefined? {
      SingleMatches(rx, OrEmpty(oAttr), Rest(key), s);
      SingleThrows(rx, order, OrEmpty(oAttr), Rest(key), s);
      r := MongoWhere(rx, order, OrEmpty(oAttr), Single(Rest(key), s));
    } else {
      r := Returned(false);
    }
  }

  /** The rest of a path, from some element of an array. */
  method MatchSome(rx: RegexEngine, order: KeyOrder, items: seq<Json>, key: string, s: Json) returns (r: Outcome)
    requires HasDot(key)
    ensures r == Result(SomeThrows(rx, order, items, Words(Rest(key)), s), SomeHolds(rx, items, Words(Rest(key)), s))
    decreases EntryRank(Words(key), s), 1, 0
  {
    RestBelow(key, s);
    for i := 0 to |items|
      invariant NoneHolds(rx, items, i, Words(Rest(key)), s) && NoneThrows(rx, order, items, i, Words(Rest(key)), s)
    {
      SingleMatches(rx, OrEmpty(items[i]), Rest(key), s);
      SingleThrows(rx, order, OrEmpty(items[i]), Rest(key), s);
      r := MongoWhere(rx, order, OrEmpty(items[i]), Single(Rest(key), s));
      if r != Returned(false) {
        ElementDecides(rx, order, items, i, Words(Rest(key)), s, r);
        return r;
      }
      OneMoreElement(rx, order, items, i, Words(Rest(key)), s);
    }
    NoElementDecides(rx, order, items, Words(Rest(key)), s);
    r := Returned(false);
  }

  lemma OneMoreElement(rx: RegexEngine, order: KeyOrder, items: seq<Json>, n: nat, words: seq<string>, s: Json)
    requires words != [] && n < |items| && NoneHolds(rx, items, n, words, s) &&
             NoneThrows(rx, order, items, n, words, s)
    requires !PathThrows(rx, order, OrEmpty(items[n]), words, s) && !PathHolds(rx, OrEmpty(items[n]), words, s)
    ensures NoneHolds(rx, items, n + 1, words, s) && NoneThrows(rx, order, items, n + 1, words, s)
  {
    forall j | 0 <= j < n + 1
      ensures !PathThrows(rx, order, OrEmpty(items[j]), words, s) && !PathHolds(rx, OrEmpty(items[j]), words, s)
    {
      if j == n { assert items[j] == items[n]; }
    }
  }

  lemma NoElementDecides(rx: RegexEngine, order: KeyOrder, items: seq<Json>, words: seq<string>, s: Json)
    requires words != [] && NoneHolds(rx, items, |items|, words, s) && NoneThrows(rx, order, items, |items|, words, s)
    ensures !SomeThrows(rx, order, items, words, s) && !SomeHolds(rx, items, words, s)
  {
  }

  ghost predicate SomeThrows(rx: RegexEngine, order: KeyOrder, items: seq<Json>, words: seq<string>, s: Json)
    requires words != []
  {
    exists i :: 0 <= i < |items| && NoneHolds(rx, items, i, words, s) &&
        PathThrows(rx, order, OrEmpty(items[i]), words, s)
  }

  ghost predicate SomeHolds(rx: RegexEngine, items: seq<Json>, words: seq<string>, s: Json)
    requires words != []
  {
    exists i :: 0 <= i < |items| && PathHolds(rx, OrEmpty(items[i]), words, s)
  }

  ghost predicate NoneThrows(rx: RegexEngine, order: KeyOrder, items: seq<Json>, n: nat, words: seq<string>, s: Json)
    requires n <= |items| && words != []
  {
    forall j :: 0 <= j < n ==> !PathThrows(rx, order, OrEmpty(items[j]), words, s)
  }

  /** The first element that throws or leads to a match decides. */
  lemma ElementDecides(rx: RegexEngine, order: KeyOrder, items: seq<Json>, i: nat, words: seq<string>, s: Json,
                       r: Outcome)
    requires words != [] && i < |items| && r != Returned(false)
    requires NoneHolds(rx, items, i, words, s) && NoneThrows(rx, order, items, i, words, s)
    requires r == Result(PathThrows(rx, order, OrEmpty(items[i]), words, s), PathHolds(rx, OrEmpty(items[i]), words, s))
    ensures r == Result(SomeThrows(rx, order, items, words, s), SomeHolds(rx, items, words, s))
  {
    if r.Returned? {
      forall j | 0 <= j < |items|
        ensures !(NoneHolds(rx, items, j, words, s) && PathThrows(rx, order, OrEmpty(items[j]), words, s))
      {
        if j > i {
          assert PathHolds(rx, OrEmpty(items[i]), words, s);
        } else if j == i {
          assert items[j] == items[i];
        }
      }
    }
  }

  method MatchOr(rx: RegexEngine, order: KeyOrder, o: Json, s: Json) returns (r: Outcome)
    requires s.Arr?
    ensures r == Result(LastThrows(rx, order, o, "$or", s), LastHolds(rx, o, "$or", s))
    decreases LastRank("$or", s), 1, 0
  {
    var ok2 := false;
    for i := 0 to |s.items|
      invariant !ok2 ==> MatchesNone(rx, o, s.items, i)
      invariant ok2 ==> exists j :: 0 <= j < i && Matches(rx, o, s.items[j])
      invariant forall j :: 0 <= j < |s.items| && (j < i || ok2) && MatchesNone(rx, o, s.items, j) ==>
                !Throws(rx, order, o, s.items[j])
    {
      if !ok2 {
        CondBelow(s, |s.items|, i);
        var outcome := MongoWhere(rx, order, o, s.items[i]);
        if outcome.Threw? { return Threw; }
        ok2 := outcome.value;
      }
    }
    r := Returned(ok2);
  }

  method MatchAnd(rx: RegexEngine, order: KeyOrder, o: Json, s: Json) returns (r: Outcome)
    requires s.Arr? && s.items != []
    ensures r == Result(LastThrows(rx, order, o, "$and", s), LastHolds(rx, o, "$and", s))
    decreases LastRank("$and", s), 1, 0
  {
    for i := 0 to |s.items|
      invariant MatchesAll(rx, o, s.items, i) && NoSelectorThrows(rx, order, o, s.items, i)
    {
      CondBelow(s, |s.items|, i);
      var outcome := MongoWhere(rx, order, o, s.items[i]);
      if outcome != Returned(true) {
        SelectorDecides(rx, order, o, s, i, outcome);
        return outcome;
      }
    }
    AllSelectorsMatch(rx, order, o, s);
    r := Returned(true);
  }

  ghost predicate NoSelectorThrows(rx: RegexEngine, order: KeyOrder, o: Json, sels: seq<Json>, n: nat)
    requires n <= |sels|
  {
    forall j :: 0 <= j < n ==> !Throws(rx, order, o, sels[j])
  }

  lemma AllSelectorsMatch(rx: RegexEngine, order: KeyOrder, o: Json, s: Json)
    requires s.Arr? && s.items != [] && MatchesAll(rx, o, s.items, |s.items|) &&
             NoSelectorThrows(rx, order, o, s.items, |s.items|)
    ensures !LastThrows(rx, order, o, "$and", s) && LastHolds(rx, o, "$and", s)
  {
  }

  /** The first selector that throws or does not match decides. */
  lemma SelectorDecides(rx: RegexEngine, order: KeyOrder, o: Json, s: Json, i: nat, r: Outcome)
    requires s.Arr? && i < |s.items| && r != Returned(true)
    requires MatchesAll(rx, o, s.items, i) && NoSelectorThrows(rx, order, o, s.items, i)
    requires r == Result(Throws(rx, order, o, s.items[i]), Matches(rx, o, s.items[i]))
    ensures r == Result(LastThrows(rx, order, o, "$and", s), LastHolds(rx, o, "$and", s))
  {
    if r.Returned? {
      forall j | 0 <= j < |s.items| ensures !(MatchesAll(rx, o, s.items, j) && Throws(rx, order, o, s.items[j])) {
        if j > i {
          assert !Matches(rx, o, s.items[i]);
        } else if j == i {
          assert s.items[j] == s.items[i];
        }
      }
    }
  }

  method MatchField(rx: RegexEngine, order: KeyOrder, o: Json, key: string, s: Json) returns (r: Outcome)
    requires !HasDot(key) && !IsOperator(key)
    ensures r == Result(Missing(o) || CondThrows(rx, order, Get(o, key), s), Holds(rx, Get(o, key), s))
    decreases CondRank(s), 2, 0
  {
    if Missing(o) { return Threw; }
    var oAttr := Get(o, key);
    if s.Regex? {
      r := Returned(RegexHolds(rx, oAttr, s, Undefined));
    } else if IsOperators(s) {
      r := MongoMatchFieldOperators(rx, order, oAttr, s, o, key);
    } else if IsObject(s) {
      if IsObject(oAttr) || oAttr.Undefined? {
        r := MongoWhere(rx, order, OrEmpty(oAttr), s);
      } else {
        r := Returned(false);
      }
    } else {
      EqRewrite(rx, order, o, key, s);
      r := MongoWhere(rx, order, o, Single(key, Single("$eq", s)));
    }
  }

  method MongoMatchFieldOperators(rx: RegexEngine, order: KeyOrder, oAttr: Json, s: Json, o: Json, key: string)
    returns (r: Outcome)
    requires IsOperators(s) && oAttr == Get(o, key) && !Missing(o) && !HasDot(key) && !IsOperator(key)
    ensures r == Result(CondThrows(rx, order, oAttr, s), Holds(rx, oAttr, s))
    decreases CondRank(s), 1, 0
  {
    var keys := order(s);
    for i := 0 to |keys|
      invariant OperatorsHold(rx, oAttr, s.fields, keys, i) && NoOperatorThrows(rx, order, oAttr, s, keys, i)
    {
      var op := keys[i];
      OperatorBelow(order, s, i);
      r := MatchOperator(rx, order, oAttr, op, s, o, key);
      if r != Returned(true) {
        OperatorDecides(rx, order, oAttr, s, keys, i, r);
        return r;
      }
    }
    AllOperatorsHold(rx, order, oAttr, s, keys);
    r := Returned(true);
  }

  lemma OperatorBelow(order: KeyOrder, s: Json, i: nat)
    requires IsOperators(s) && i < |order(s)|
    ensures order(s)[i] in s.fields && OpRank(order(s)[i], s.fields[order(s)[i]]) < CondRank(s)
  {
    assert Enumerates(order(s), s) && order(s)[i] in order(s);
    OpBelow(s, s.fields.Keys, order(s)[i]);
  }

  ghost predicate NoOperatorThrows(rx: RegexEngine, order: KeyOrder, v: Json, s: Json, keys: seq<string>, n: nat)
    requires s.Obj? && n <= |keys|
  {
    forall j :: 0 <= j < n && keys[j] in s.fields ==> !OpThrows(rx, order, v, keys[j], s.fields)
  }

  lemma OperatorDecides(rx: RegexEngine, order: KeyOrder, v: Json, s: Json, keys: seq<string>, i: nat, r: Outcome)
    requires IsOperators(s) && keys == order(s) && i < |keys| && keys[i] in s.fields && r != Returned(true)
    requires OperatorsHold(rx, v, s.fields, keys, i) && NoOperatorThrows(rx, order, v, s, keys, i)
    requires r == Result(OpThrows(rx, order, v, keys[i], s.fields), OpHolds(rx, v, keys[i], s.fields))
    ensures r == Result(CondThrows(rx, order, v, s), Holds(rx, v, s))
  {
    if r.Returned? {
      assert forall j :: i < j < |keys| ==> !OperatorsHold(rx, v, s.fields, keys, j);
    }
  }

  lemma AllOperatorsHold(rx: RegexEngine, order: KeyOrder, v: Json, s: Json, keys: seq<string>)
    requires IsOperators(s) && keys == order(s)
    requires OperatorsHold(rx, v, s.fields, keys, |keys|) && NoOperatorThrows(rx, order, v, s, keys, |keys|)
    ensures !CondThrows(rx, order, v, s) && Holds(rx, v, s)
  {
    assert Enumerates(keys, s);
    forall op | op in s.fields ensures OpHolds(rx, v, op, s.fields) {
      assert op in keys;
    }
  }

  method MatchOperator(rx: RegexEngine, order: KeyOrder, oAttr: Json, op: string, s: Json, o: Json, key: string)
    returns (r: Outcome)
    requires s.Obj? && op in s.fields && oAttr == Get(o, key) && !Missing(o) && !HasDot(key) && !IsOperator(key)
    ensures r == Result(OpThrows(rx, order, oAttr, op, s.fields), OpHolds(rx, oAttr, op, s.fields))
    decreases OpRank(op, s.fields[op]), 1, 0
  {
    var value := s.fields[op];
    match op {
      case "$elemMatch" => r := MatchElement(rx, order, oAttr, value);
      case "$gt" => r := Returned(Less(value, oAttr));
      case "$gte" => r := Returned(Comparable(oAttr, value) && !Less(oAttr, value));
      case "$lt" => r := Returned(Less(oAttr, value));
      case "$lte" => r := Returned(Comparable(oAttr, value) && !Less(value, oAttr));
      case "$eq" => r := Returned(oAttr == value);
      case "$ne" => r := Returned(oAttr != value);
      case "$in" => r := if value.Arr? then Returned(AnyOf(oAttr, value)) else Threw;
      case "$nin" => r := if value.Arr? then Returned(!AnyOf(oAttr, value)) else Threw;
      case "$exists" => r := Returned((oAttr != Undefined) == Truthy(value));
      case "$regex" =>
        r := Returned(RegexHolds(rx, oAttr, value, if "$options" in s.fields then s.fields["$options"] else Undefined));
      case "$options" => r := if "$regex" in s.fields then Returned(true) else Threw;
      case "$not" =>
        NotRewrite(rx, order, o, key, value);
        r := MongoWhere(rx, order, o, Single(key, value));
        r := if r.Threw? then Threw else Returned(!r.value);
      case _ => r := Threw;
    }
  }

  method MatchElement(rx: RegexEngine, order: KeyOrder, oAttr: Json, value: Json) returns (r: Outcome)
    ensures r == Result(ElementThrows(rx, order, oAttr, value), oAttr.Arr? && SomeMatches(rx, oAttr.items, value))
    decreases SelRank(value), 3, 0
  {
    if !oAttr.Arr? { return Returned(false); }
    r := MatchAny(rx, order, oAttr.items, value);
  }

  method MatchAny(rx: RegexEngine, order: KeyOrder, items: seq<Json>, value: Json) returns (r: Outcome)
    ensures r == Result(AnyThrows(rx, order, items, value), SomeMatches(rx, items, value))
    decreases SelRank(value), 2, 0
  {
    for i := 0 to |items|
      invariant NoneMatches(rx, items, i, value) && NoneThrow(rx, order, items, i, value)
    {
      r := MongoWhere(rx, order, items[i], value);
      if r != Returned(false) {
        MemberDecides(rx, order, items, i, value, r);
        return r;
      }
      OneMoreDoesNotThrow(rx, order, items, i, value);
    }
    NoMemberDecides(rx, order, items, value);
    r := Returned(false);
  }

  ghost predicate NoneThrow(rx: RegexEngine, order: KeyOrder, items: seq<Json>, n: nat, w: Json)
    requires n <= |items|
  {
    forall j :: 0 <= j < n ==> !Throws(rx, order, items[j], w)
  }

  lemma OneMoreDoesNotThrow(rx: RegexEngine, order: KeyOrder, items: seq<Json>, n: nat, w: Json)
    requires n < |items| && NoneThrow(rx, order, items, n, w) && !Throws(rx, order, items[n], w)
    ensures NoneThrow(rx, order, items, n + 1, w)
  {
    forall j | 0 <= j < n + 1 ensures !Throws(rx, order, items[j], w) {
      if j == n { assert items[j] == items[n]; }
    }
  }

  ghost predicate SomeMatches(rx: RegexEngine, items: seq<Json>, w: Json) {
    exists i :: 0 <= i < |items| && Matches(rx, items[i], w)
  }

  lemma NoMemberDecides(rx: RegexEngine, order: KeyOrder, items: seq<Json>, w: Json)
    requires NoneMatches(rx, items, |items|, w) && NoneThrow(rx, order, items, |items|, w)
    ensures !AnyThrows(rx, order, items, w) && !SomeMatches(rx, items, w)
  {
  }

  /** The first element that throws or matches decides. */
  lemma MemberDecides(rx: RegexEngine, order: KeyOrder, items: seq<Json>, i: nat, w: Json, r: Outcome)
    requires i < |items| && r != Returned(false)
    requires NoneMatches(rx, items, i, w) && NoneThrow(rx, order, items, i, w)
    requires r == Result(Throws(rx, order, items[i], w), Matches(rx, items[i], w))
    ensures r == Result(AnyThrows(rx, order, items, w), SomeMatches(rx, items, w))
  {
    if r.Returned? {
      forall j | 0 <= j < |items| ensures !(NoneMatches(rx, items, j, w) && Throws(rx, order, items[j], w)) {
        if j > i {
          assert Matches(rx, items[i], w);
        } else if j == i {
          assert items[j] == items[i];
        }
      }
    }
  }

  /** Two calls under different orders of keys never return different answers; and both answer if every entry
      that can be reached does, as on a supported selector and a readable document. */
  method OrderDoesNotMatter(rx: RegexEngine, one: KeyOrder, other: KeyOrder, o: Json, selector: Json)
    returns (a: Outcome, b: Outcome)
    ensures a.Returned? && b.Returned? ==> a == b
    ensures Answers(rx, o, selector) ==> a == b == Returned(Matches(rx, o, selector))
    ensures Supported(selector) && Readable(o) ==> Answers(rx, o, selector)
  {
    a := MongoWhere(rx, one, o, selector);
    b := MongoWhere(rx, other, o, selector);
    AnswersExactly(rx, o, selector);
    assert Answers(rx, o, selector) ==> !ThrowsUnder(one, rx, o, selector) && !ThrowsUnder(other, rx, o, selector);
    if Supported(selector) && Readable(o) { SupportedAnswers(rx, o, selector); }
  }
}
