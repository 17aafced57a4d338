/** A call answers if and only if there is no order of keys under which it throws. */
module MongoErrorLaws {
  import opened Wrappers
  import opened JsStrings
  import opened JsKeys
  import opened MongoJson
  import opened MongoSemantics
  import opened MongoErrors

  /******* What throws does not answer *******/

  lemma EntriesHoldEarlier(rx: RegexEngine, order: KeyOrder, o: Json, sel: Json, i: nat)
    requires i < |order(sel)| && EntriesHold(rx, o, sel, order(sel), i)
    ensures EarlierHold(rx, o, sel, order(sel)[i])
  {
    var keys := order(sel);
    assert Enumerates(keys, sel);
    forall k | k in Fields(sel) && MustPrecede(k, keys[i]) ensures PathHolds(rx, o, Words(k), Fields(sel)[k]) {
      assert k in keys;
      var j :| 0 <= j < |keys| && keys[j] == k;
      StandsBefore(keys, j, i);
    }
  }

  lemma StandsBefore(keys: seq<string>, j: nat, i: nat)
    requires i < |keys| && j < |keys| && IndicesFirst(ArrayIndex, keys) && MustPrecede(keys[j], keys[i])
    ensures j < i
  {
  }

  lemma {:induction false} ThrowsIsNoAnswer(rx: RegexEngine, order: KeyOrder, o: Json, sel: Json)
    requires Throws(rx, order, o, sel)
    ensures !Answers(rx, o, sel)
    decreases sel, 0, 0
  {
    if sel != Null {
      var keys := order(sel);
      var i :| 0 <= i < |keys| && keys[i] in Fields(sel) && EntriesHold(rx, o, sel, keys, i) &&
        PathThrows(rx, order, o, Words(keys[i]), Fields(sel)[keys[i]]);
      EntriesHoldEarlier(rx, order, o, sel, i);
      PathThrowsIsNoAnswer(rx, order, o, Words(keys[i]), Fields(sel)[keys[i]]);
    }
  }

  lemma {:induction false} PathThrowsIsNoAnswer(rx: RegexEngine, order: KeyOrder, o: Json, words: seq<string>, s: Json)
    requires words != [] && PathThrows(rx, order, o, words, s)
    ensures !PathAnswers(rx, o, words, s)
    decreases s, 3, |words|
  {
    if |words| == 1 {
      LastThrowsIsNoAnswer(rx, order, o, words[0], s);
    } else if !Missing(o) {
      var v := Get(o, words[0]);
      if v.Arr? {
        var i :| 0 <= i < |v.items| && NoneHolds(rx, v.items, i, words[1..], s) &&
          PathThrows(rx, order, OrEmpty(v.items[i]), words[1..], s);
        PathThrowsIsNoAnswer(rx, order, OrEmpty(v.items[i]), words[1..], s);
      } else {
        PathThrowsIsNoAnswer(rx, order, OrEmpty(v), words[1..], s);
      }
    }
  }

  lemma {:induction false} LastThrowsIsNoAnswer(rx: RegexEngine, order: KeyOrder, o: Json, key: string, s: Json)
    requires LastThrows(rx, order, o, key, s)
    ensures !LastAnswers(rx, o, key, s)
    decreases s, 2, 0
  {
    if key == "$or" {
      if s.Arr? {
        var i :| 0 <= i < |s.items| && MatchesNone(rx, o, s.items, i) && Throws(rx, order, o, s.items[i]);
        ThrowsIsNoAnswer(rx, order, o, s.items[i]);
      }
    } else if key == "$and" {
      if s.Arr? && s.items != [] {
        var i :| 0 <= i < |s.items| && MatchesAll(rx, o, s.items, i) && Throws(rx, order, o, s.items[i]);
        ThrowsIsNoAnswer(rx, order, o, s.items[i]);
      }
    } else if !IsOperator(key) && !Missing(o) {
      CondThrowsIsNoAnswer(rx, order, Get(o, key), s);
    }
  }

  lemma {:induction false} CondThrowsIsNoAnswer(rx: RegexEngine, order: KeyOrder, v: Json, s: Json)
    requires CondThrows(rx, order, v, s)
    ensures !CondAnswers(rx, v, s)
    decreases s, 1, 0
  {
    if IsOperators(s) {
      var keys := order(s);
      var i :| 0 <= i < |keys| && keys[i] in s.fields && OperatorsHold(rx, v, s.fields, keys, i) &&
        OpThrows(rx, order, v, keys[i], s.fields);
      OpThrowsIsNoAnswer(rx, order, v, keys[i], s.fields);
    } else {
      ThrowsIsNoAnswer(rx, order, OrEmpty(v), s);
    }
  }

  lemma {:induction false} OpThrowsIsNoAnswer(rx: RegexEngine, order: KeyOrder, v: Json, op: string,
                                              operators: map<string, Json>)
    requires op in operators && OpThrows(rx, order, v, op, operators)
    ensures !OpAnswers(rx, v, op, operators)
    decreases operators[op], 4, 0
  {
    var w := operators[op];
    if op == "$elemMatch" {
      ElementThrowsIsNoAnswer(rx, order, v, w);
    } else if op == "$not" {
      CondThrowsIsNoAnswer(rx, order, v, w);
    }
  }

  lemma {:induction false} ElementThrowsIsNoAnswer(rx: RegexEngine, order: KeyOrder, v: Json, w: Json)
    requires ElementThrows(rx, order, v, w)
    ensures !ElementAnswers(rx, v, w)
    decreases w, 0, 2
  {
    assert AnyThrows(rx, order, v.items, w);
    var i :| 0 <= i < |v.items| && NoneMatches(rx, v.items, i, w) && Throws(rx, order, v.items[i], w);
    ThrowsIsNoAnswer(rx, order, v.items[i], w);
  }

  /******* Whether a call throws depends on no other order than those of its own selectors *******/

  /** The orders differ for one object at most. */
  ghost predicate Agree(order: KeyOrder, order': KeyOrder, except: Json) {
    forall v :: v != except ==> order(v) == order'(v)
  }

  lemma {:induction false} SameThrows(rx: RegexEngine, order: KeyOrder, order': KeyOrder, except: Json, o: Json,
                                      sel: Json)
    requires Agree(order, order', except) && sel < except
    ensures Throws(rx, order, o, sel) <==> Throws(rx, order', o, sel)
    decreases sel, 0, 0
  {
    assert sel != except;
    var keys := order(sel);
    forall i | 0 <= i < |keys| && keys[i] in Fields(sel)
      ensures PathThrows(rx, order, o, Words(keys[i]), Fields(sel)[keys[i]]) <==>
              PathThrows(rx, order', o, Words(keys[i]), Fields(sel)[keys[i]])
    {
      SamePathThrows(rx, order, order', except, o, Words(keys[i]), Fields(sel)[keys[i]]);
    }
  }

  lemma {:induction false} SamePathThrows(rx: RegexEngine, order: KeyOrder, order': KeyOrder, except: Json, o: Json,
                                          words: seq<string>, s: Json)
    requires words != [] && Agree(order, order', except) && s < except
    ensures PathThrows(rx, order, o, words, s) <==> PathThrows(rx, order', o, words, s)
    decreases s, 3, |words|
  {
    if |words| == 1 {
      SameLastThrows(rx, order, order', except, o, words[0], s);
    } else {
      var v := Get(o, words[0]);
      if v.Arr? {
        forall i | 0 <= i < |v.items|
          ensures PathThrows(rx, order, OrEmpty(v.items[i]), words[1..], s) <==>
                  PathThrows(rx, order', OrEmpty(v.items[i]), words[1..], s)
        {
          SamePathThrows(rx, order, order', except, OrEmpty(v.items[i]), words[1..], s);
        }
      } else {
        SamePathThrows(rx, order, order', except, OrEmpty(v), words[1..], s);
      }
    }
  }

  lemma {:induction false} SameLastThrows(rx: RegexEngine, order: KeyOrder, order': KeyOrder, except: Json, o: Json,
                                          key: string, s: Json)
    requires Agree(order, order', except) && s < except
    ensures LastThrows(rx, order, o, key, s) <==> LastThrows(rx, order', o, key, s)
    decreases s, 2, 0
  {
    if key == "$or" || key == "$and" {
      if s.Arr? {
        forall i | 0 <= i < |s.items| ensures Throws(rx, order, o, s.items[i]) <==> Throws(rx, order', o, s.items[i]) {
          SameThrows(rx, order, order', except, o, s.items[i]);
        }
      }
    } else {
      SameCondThrows(rx, order, order', except, Get(o, key), s);
    }
  }

  lemma {:induction false} SameCondThrows(rx: RegexEngine, order: KeyOrder, order': KeyOrder, except: Json, v: Json,
                                          s: Json)
    requires Agree(order, order', except) && s < except
    ensures CondThrows(rx, order, v, s) <==> CondThrows(rx, order', v, s)
    decreases s, 1, 0
  {
    assert s != except;
    if IsOperators(s) {
      forall op | op in s.fields ensures OpThrows(rx, order, v, op, s.fields) <==>
          OpThrows(rx, order', v, op, s.fields) {
        SameOpThrows(rx, order, order', except, v, op, s.fields);
      }
    } else {
      SameThrows(rx, order, order', except, OrEmpty(v), s);
    }
  }

  lemma {:induction false} SameOpThrows(rx: RegexEngine, order: KeyOrder, order': KeyOrder, except: Json, v: Json,
                                        op: string, operators: map<string, Json>)
    requires op in operators && Agree(order, order', except) && operators[op] < except
    ensures OpThrows(rx, order, v, op, operators) <==> OpThrows(rx, order', v, op, operators)
    decreases operators[op], 4, 0
  {
    var w := operators[op];
    if op == "$elemMatch" {
      SameElementThrows(rx, order, order', except, v, w);
    } else if op == "$not" {
      SameCondThrows(rx, order, order', except, v, w);
    }
  }

  lemma {:induction false} SameElementThrows(rx: RegexEngine, order: KeyOrder, order': KeyOrder, except: Json, v: Json,
                                             w: Json)
    requires Agree(order, order', except) && w < except
    ensures ElementThrows(rx, order, v, w) <==> ElementThrows(rx, order', v, w)
    decreases w, 0, 2
  {
    if v.Arr? {
      forall i | 0 <= i < |v.items| ensures Throws(rx, order, v.items[i], w) <==> Throws(rx, order', v.items[i], w) {
        SameThrows(rx, order, order', except, v.items[i], w);
      }
      assert AnyThrows(rx, order, v.items, w) <==> AnyThrows(rx, order', v.items, w);
    }
  }

  /******* What does not answer throws, under some order *******/

  /** The order with the fields of one object enumerated in another way. */
  ghost function Reordered(order: KeyOrder, at: Json, keys: seq<string>): (order': KeyOrder)
    requires Enumerates(keys, at)
    ensures Agree(order, order', at) && order'(at) == keys
  {
    var f: Json -> seq<string> := v => if v == at then keys else order(v);
    assert IsKeyOrder(f);
    f
  }

  /** A key as early as it can be. */
  ghost function KeyFirst(v: Json, key: string): (keys: seq<string>)
    requires key in Fields(v)
    ensures Enumerates(keys, v)
  {
    var list := [key] + Listed(Fields(v).Keys - {key});
    ArrayIndexTellsApart();
    EnumeratedIndicesFirst(ArrayIndex, list);
    EnumeratedDistinct(ArrayIndex, list);
    Enumerated(ArrayIndex, list)
  }

  /** Where a key stands that is as early as it can be: after those only that must precede it. */
  lemma OnlyThoseBefore(v: Json, key: string) returns (i: nat)
    requires key in Fields(v)
    ensures var keys := KeyFirst(v, key);
            i < |keys| && keys[i] == key && forall j :: 0 <= j < i ==> MustPrecede(keys[j], key)
  {
    var keys := KeyFirst(v, key);
    assert key in keys;
    i :| 0 <= i < |keys| && keys[i] == key;
    if ArrayIndex(key).Some? {
      forall j | 0 <= j < i ensures MustPrecede(keys[j], key) {
        assert Earlier(ArrayIndex, keys[j], keys[i]);
      }
    } else {
      NameAfterIndices(v, key, i);
    }
  }

  lemma NameAfterIndices(v: Json, key: string, i: nat)
    requires key in Fields(v) && ArrayIndex(key).None? && i < |KeyFirst(v, key)| && KeyFirst(v, key)[i] == key
    ensures forall j :: 0 <= j < i ==> MustPrecede(KeyFirst(v, key)[j], key)
  {
    var rest := Listed(Fields(v).Keys - {key});
    var list := [key] + rest;
    var indices, names := Indices(ArrayIndex, list), Others(ArrayIndex, list);
    assert list[0] == key && list[1..] == rest;
    assert names == [key] + Others(ArrayIndex, rest);
    var keys := KeyFirst(v, key);
    assert keys == indices + names && keys[|indices|] == key;
    assert i == |indices|;
    forall j | 0 <= j < i ensures MustPrecede(keys[j], key) {
      assert keys[j] == indices[j] && indices[j] in indices;
    }
  }

  lemma IndexIsNoOperator(key: string)
    requires ArrayIndex(key).Some?
    ensures !IsOperator(key)
  {
    DecimalIsPlain(IndexValue(key));
    assert Decimal(IndexValue(key)) == key;
  }

  lemma {:induction false} SomeOrderThrows(rx: RegexEngine, o: Json, sel: Json) returns (order: KeyOrder)
    requires !Answers(rx, o, sel)
    ensures Throws(rx, order, o, sel)
    decreases sel, 0, 0
  {
    if sel == Null {
      OrdersExist();
      order := v => FirstOrder(v);
    } else {
      var key :| key in Fields(sel) && EarlierHold(rx, o, sel, key) &&
          !PathAnswers(rx, o, Words(key), Fields(sel)[key]);
      var inner := SomeOrderPath(rx, o, Words(key), Fields(sel)[key]);
      order := Reordered(inner, sel, KeyFirst(sel, key));
      SamePathThrows(rx, inner, order, sel, o, Words(key), Fields(sel)[key]);
      FirstKeyThrows(rx, order, o, sel, key);
    }
  }

  lemma FirstKeyThrows(rx: RegexEngine, order: KeyOrder, o: Json, sel: Json, key: string)
    requires key in Fields(sel) && EarlierHold(rx, o, sel, key) && order(sel) == KeyFirst(sel, key)
    requires PathThrows(rx, order, o, Words(key), Fields(sel)[key])
    ensures Throws(rx, order, o, sel)
  {
    var i := OnlyThoseBefore(sel, key);
    assert EntriesHold(rx, o, sel, order(sel), i);
    assert order(sel)[i] in Fields(sel);
  }

  lemma {:induction false} SomeOrderPath(rx: RegexEngine, o: Json, words: seq<string>, s: Json)
    returns (order: KeyOrder)
    requires words != [] && !PathAnswers(rx, o, words, s)
    ensures PathThrows(rx, order, o, words, s)
    decreases s, 3, |words|
  {
    if |words| == 1 {
      order := SomeOrderLast(rx, o, words[0], s);
    } else if Missing(o) {
      OrdersExist();
      order := v => FirstOrder(v);
    } else {
      var v := Get(o, words[0]);
      if v.Arr? {
        var i :| 0 <= i < |v.items| && NoneHolds(rx, v.items, i, words[1..], s) &&
            !PathAnswers(rx, OrEmpty(v.items[i]), words[1..], s);
        order := SomeOrderPath(rx, OrEmpty(v.items[i]), words[1..], s);
      } else {
        order := SomeOrderPath(rx, OrEmpty(v), words[1..], s);
      }
    }
  }

  lemma {:induction false} SomeOrderLast(rx: RegexEngine, o: Json, key: string, s: Json) returns (order: KeyOrder)
    requires !LastAnswers(rx, o, key, s)
    ensures LastThrows(rx, order, o, key, s)
    decreases s, 2, 0
  {
    OrdersExist();
    order := v => FirstOrder(v);
    if key == "$or" {
      if s.Arr? {
        var i :| 0 <= i < |s.items| && MatchesNone(rx, o, s.items, i) && !Answers(rx, o, s.items[i]);
        order := SomeOrderThrows(rx, o, s.items[i]);
      }
    } else if key == "$and" {
      if s.Arr? && s.items != [] {
        var i :| 0 <= i < |s.items| && MatchesAll(rx, o, s.items, i) && !Answers(rx, o, s.items[i]);
        order := SomeOrderThrows(rx, o, s.items[i]);
      }
    } else if !IsOperator(key) && !Missing(o) {
      order := SomeOrderCond(rx, Get(o, key), s);
    }
  }

  lemma {:induction false} SomeOrderCond(rx: RegexEngine, v: Json, s: Json) returns (order: KeyOrder)
    requires !CondAnswers(rx, v, s)
    ensures CondThrows(rx, order, v, s)
    decreases s, 1, 0
  {
    if IsOperators(s) {
      var op :| op in s.fields && !OpAnswers(rx, v, op, s.fields);
      var inner := SomeOrderOp(rx, v, op, s.fields);
      var i := OnlyThoseBefore(s, op);
      order := Reordered(inner, s, KeyFirst(s, op));
      SameOpThrows(rx, inner, order, s, v, op, s.fields);
      FirstOperatorThrows(rx, order, v, s, i, op);
    } else {
      order := SomeOrderThrows(rx, OrEmpty(v), s);
    }
  }

  /** An operator that throws is reached, unless an index, which is no operator, stands before it. */
  lemma FirstOperatorThrows(rx: RegexEngine, order: KeyOrder, v: Json, s: Json, i: nat, op: string)
    requires IsOperators(s) && op in s.fields && OpThrows(rx, order, v, op, s.fields)
    requires i < |order(s)| && order(s)[i] == op && forall j :: 0 <= j < i ==> MustPrecede(order(s)[j], op)
    ensures CondThrows(rx, order, v, s)
  {
    var keys := order(s);
    assert Enumerates(keys, s) && keys[0] in keys;
    if i > 0 {
      IndexIsNoOperator(keys[0]);
      assert OpThrows(rx, order, v, keys[0], s.fields);
    }
    assert OperatorsHold(rx, v, s.fields, keys, 0);
  }

  lemma {:induction false} SomeOrderOp(rx: RegexEngine, v: Json, op: string, operators: map<string, Json>)
    returns (order: KeyOrder)
    requires op in operators && !OpAnswers(rx, v, op, operators)
    ensures OpThrows(rx, order, v, op, operators)
    decreases operators[op], 4, 0
  {
    OrdersExist();
    order := v => FirstOrder(v);
    if op == "$elemMatch" {
      order := SomeOrderElement(rx, v, operators[op]);
    } else if op == "$not" {
      order := SomeOrderCond(rx, v, operators[op]);
    }
  }

  lemma {:induction false} SomeOrderElement(rx: RegexEngine, v: Json, w: Json) returns (order: KeyOrder)
    requires !ElementAnswers(rx, v, w)
    ensures ElementThrows(rx, order, v, w)
    decreases w, 0, 2
  {
    var i :| 0 <= i < |v.items| && NoneMatches(rx, v.items, i, w) && !Answers(rx, v.items[i], w);
    order := SomeOrderThrows(rx, v.items[i], w);
    assert AnyThrows(rx, order, v.items, w);
  }

  ghost predicate ThrowsUnder(order: KeyOrder, rx: RegexEngine, o: Json, sel: Json) {
    Throws(rx, order, o, sel)
  }

  /** A call answers, whatever the order of keys, if and only if each entry that can be reached answers. */
  lemma AnswersExactly(rx: RegexEngine, o: Json, sel: Json)
    ensures Answers(rx, o, sel) <==> !exists order: KeyOrder :: ThrowsUnder(order, rx, o, sel)
  {
    if order: KeyOrder :| ThrowsUnder(order, rx, o, sel) {
      ThrowsIsNoAnswer(rx, order, o, sel);
    }
    if !Answers(rx, o, sel) {
      var order := SomeOrderThrows(rx, o, sel);
      assert ThrowsUnder(order, rx, o, sel);
    }
  }

  /******* Supported selectors on readable documents *******/

  lemma {:induction false} SupportedAnswers(rx: RegexEngine, o: Json, sel: Json)
    requires Supported(sel) && Readable(o)
    ensures Answers(rx, o, sel)
    decreases sel, 0, 0
  {
    forall key | key in Fields(sel) && EarlierHold(rx, o, sel, key)
      ensures PathAnswers(rx, o, Words(key), Fields(sel)[key]) {
      FieldBelow(sel, key);
      SupportedPathAnswers(rx, o, Words(key), Fields(sel)[key]);
    }
  }

  lemma {:induction false} SupportedPathAnswers(rx: RegexEngine, o: Json, words: seq<string>, s: Json)
    requires words != [] && SupportedPath(words, s) && Readable(o)
    ensures PathAnswers(rx, o, words, s)
    decreases s, 3, |words|
  {
    if |words| == 1 {
      SupportedLastAnswers(rx, o, words[0], s);
    } else {
      var v := Get(o, words[0]);
      assert words[1..][|words| - 2] == words[|words| - 1];
      CleanGet(o, words[0]);
      if v.Arr? {
        forall i | 0 <= i < |v.items| ensures PathAnswers(rx, OrEmpty(v.items[i]), words[1..], s) {
          SupportedPathAnswers(rx, OrEmpty(v.items[i]), words[1..], s);
        }
      } else {
        SupportedPathAnswers(rx, OrEmpty(v), words[1..], s);
      }
    }
  }

  lemma CleanGet(v: Json, key: string)
    requires Clean(v)
    ensures Clean(Get(v, key))
  {
  }

  lemma {:induction false} SupportedLastAnswers(rx: RegexEngine, o: Json, key: string, s: Json)
    requires SupportedLast(key, s) && Readable(o)
    ensures LastAnswers(rx, o, key, s)
    decreases s, 2, 0
  {
    if key == "$or" || key == "$and" {
      forall i | 0 <= i < |s.items| ensures Answers(rx, o, s.items[i]) {
        CondBelow(s, |s.items|, i);
        SupportedAnswers(rx, o, s.items[i]);
      }
    } else {
      CleanGet(o, key);
      SupportedCondAnswers(rx, Get(o, key), s);
    }
  }

  lemma {:induction false} SupportedCondAnswers(rx: RegexEngine, v: Json, s: Json)
    requires SupportedCond(s) && Clean(v)
    ensures CondAnswers(rx, v, s)
    decreases s, 1, 0
  {
    if IsOperators(s) {
      forall op | op in s.fields ensures OpAnswers(rx, v, op, s.fields) {
        OpBelow(s, s.fields.Keys, op);
        SupportedOpAnswers(rx, v, op, s.fields);
      }
    } else if (s.Obj? || s.Arr?) && (IsObject(v) || v.Undefined?) {
      SupportedAnswers(rx, OrEmpty(v), s);
    }
  }

  lemma {:induction false} SupportedOpAnswers(rx: RegexEngine, v: Json, op: string, operators: map<string, Json>)
    requires op in operators && SupportedOp(op, operators) && Clean(v)
    ensures OpAnswers(rx, v, op, operators)
    decreases operators[op], 4, 0
  {
    if op == "$elemMatch" {
      SupportedElementAnswers(rx, v, operators[op]);
    } else if op == "$not" {
      SupportedCondAnswers(rx, v, operators[op]);
    }
  }

  lemma {:induction false} SupportedElementAnswers(rx: RegexEngine, v: Json, w: Json)
    requires Supported(w) && Clean(v)
    ensures ElementAnswers(rx, v, w)
    decreases w, 0, 1
  {
    if v.Arr? {
      forall i | 0 <= i < |v.items| ensures Answers(rx, v.items[i], w) {
        SupportedAnswers(rx, v.items[i], w);
      }
    }
  }

  /******* Examples *******/

  const ONE := Num(1.0)

  const FIELD := Obj(map["a" := ONE])

  const SOME_ELEMENT := Obj(map["$elemMatch" := FIELD])

  /** Some element of x with a field, and a value of y beside it. */
  const ELEMENT := Obj(map["x" := SOME_ELEMENT, "y" := ONE])

  const NULL_ELEMENT := Obj(map["x" := Arr([Null]), "y" := Null])

  /** A null element makes the outcome depend on which key comes first. */
  lemma OrderMatters(rx: RegexEngine) returns (one: KeyOrder, other: KeyOrder)
    ensures Supported(ELEMENT) && !Answers(rx, NULL_ELEMENT, ELEMENT)
    ensures Throws(rx, one, NULL_ELEMENT, ELEMENT) && !Throws(rx, other, NULL_ELEMENT, ELEMENT)
  {
    ElementIsSupported();
    NullElementDoesNotAnswer(rx);
    one := SomeOrderThrows(rx, NULL_ELEMENT, ELEMENT);
    other := OtherKeyFirst(rx);
  }

  lemma NoIndexInElement()
    ensures Fields(ELEMENT).Keys == {"x", "y"} && ArrayIndex("x").None? && ArrayIndex("y").None? &&
            ArrayIndex("a").None?
    ensures Words("x") == ["x"] && Words("y") == ["y"] && Words("a") == ["a"]
  {
    assert "x"[0] == 'x' && "y"[0] == 'y' && "a"[0] == 'a';
  }

  lemma ElementIsSupported()
    ensures Supported(ELEMENT)
  {
    NoIndexInElement();
    assert Fields(FIELD).Keys == {"a"} && Supported(FIELD);
    assert SOME_ELEMENT.fields.Keys == {"$elemMatch"} && IsOperator("$elemMatch");
    OpBelow(SOME_ELEMENT, SOME_ELEMENT.fields.Keys, "$elemMatch");
    assert SupportedOp("$elemMatch", SOME_ELEMENT.fields);
    assert SupportedCond(SOME_ELEMENT);
    assert SupportedPath(["x"], SOME_ELEMENT) && SupportedPath(["y"], ONE);
  }

  lemma NullElementDoesNotAnswer(rx: RegexEngine)
    ensures !Answers(rx, NULL_ELEMENT, ELEMENT)
  {
    NoIndexInElement();
    var v := Arr([Null]);
    assert "a" in Fields(FIELD) && EarlierHold(rx, Null, FIELD, "a") && !PathAnswers(rx, Null, Words("a"), ONE);
    assert !Answers(rx, Null, FIELD);
    assert NoneMatches(rx, v.items, 0, FIELD) && v.items[0] == Null;
    assert !ElementAnswers(rx, v, FIELD);
    assert "$elemMatch" in SOME_ELEMENT.fields && IsOperator("$elemMatch");
    assert !OpAnswers(rx, v, "$elemMatch", SOME_ELEMENT.fields);
    assert !CondAnswers(rx, v, SOME_ELEMENT);
    assert Get(NULL_ELEMENT, "x") == v;
    assert !PathAnswers(rx, NULL_ELEMENT, Words("x"), SOME_ELEMENT);
    assert "x" in Fields(ELEMENT) && EarlierHold(rx, NULL_ELEMENT, ELEMENT, "x");
  }

  lemma OtherKeyFirst(rx: RegexEngine) returns (order: KeyOrder)
    ensures !Throws(rx, order, NULL_ELEMENT, ELEMENT)
  {
    NoIndexInElement();
    OrdersExist();
    order := v => FirstOrder(v);
    var keys := KeyFirst(ELEMENT, "y");
    order := Reordered(order, ELEMENT, keys);
    var i := OnlyThoseBefore(ELEMENT, "y");
    assert forall j :: 0 <= j < |keys| ==> keys[j] in Fields(ELEMENT).Keys;
    var first := keys[0];
    assert i == 0 && first == "y";
    FirstDoesNotHold(rx, order, keys);
  }

  lemma FirstDoesNotHold(rx: RegexEngine, order: KeyOrder, keys: seq<string>)
    requires order(ELEMENT) == keys && keys != [] && keys[0] == "y"
    ensures !Throws(rx, order, NULL_ELEMENT, ELEMENT)
  {
    NoIndexInElement();
    assert Fields(ELEMENT)["y"] == ONE && Get(NULL_ELEMENT, "y") == Null;
    assert !LastHolds(rx, NULL_ELEMENT, "y", ONE) && !LastThrows(rx, order, NULL_ELEMENT, "y", ONE);
    assert !PathHolds(rx, NULL_ELEMENT, Words("y"), ONE) && !PathThrows(rx, order, NULL_ELEMENT, Words("y"), ONE);
    forall j | 0 < j < |keys| ensures !EntriesHold(rx, NULL_ELEMENT, ELEMENT, keys, j) {
      assert keys[0] in Fields(ELEMENT);
    }
  }

  /** Null elements do no harm as long as nothing is asked of them. */
  lemma NullElementAnswers(rx: RegexEngine)
    ensures var o, sel := Obj(map["tags" := Arr([Null])]), Obj(map["tags" := Str("a")]);
            !Readable(o) && Answers(rx, o, sel)
  {
    var o, sel := Obj(map["tags" := Arr([Null])]), Obj(map["tags" := Str("a")]);
    assert "tags" in o.fields && o.fields["tags"].items[0] == Null;
    assert Words("tags") == ["tags"];
  }
}
