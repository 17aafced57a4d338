/**
 * When the matcher throws.  It goes through entries and operators in the order in which their object
 * enumerates its keys, and stops as soon as the answer is known; so an error may or may not be reached.
 */
module MongoErrors {
  import opened Wrappers
  import opened JsStrings
  import opened JsKeys
  import opened MongoJson
  import opened MongoSemantics

  /******* Orders of keys *******/

  /** An order in which a JavaScript object can enumerate the fields of v. */
  ghost predicate Enumerates(keys: seq<string>, v: Json) {
    Distinct(keys) && (forall k :: k in keys <==> k in Fields(v)) && IndicesFirst(ArrayIndex, keys)
  }

  ghost predicate IsKeyOrder(order: Json -> seq<string>) {
    forall v {:trigger Enumerates(order(v), v)} :: Enumerates(order(v), v)
  }

  type KeyOrder = order: Json -> seq<string> | IsKeyOrder(order) ghost witness (OrdersExist(); v => FirstOrder(v))

  ghost function Listed(keys: set<string>): (list: seq<string>)
    ensures Distinct(list) && forall k :: k in list <==> k in keys
  {
    if keys == {} then []
    else
      var k := Pick(keys);
      var rest := Listed(keys - {k});
      [k] + rest
  }

  ghost function FirstOrder(v: Json): seq<string> {
    Enumerated(ArrayIndex, Listed(Fields(v).Keys))
  }

  lemma OrdersExist()
    ensures IsKeyOrder(v => FirstOrder(v))
  {
    ArrayIndexTellsApart();
    forall v ensures Enumerates(FirstOrder(v), v) {
      var list := Listed(Fields(v).Keys);
      EnumeratedDistinct(ArrayIndex, list);
      EnumeratedIndicesFirst(ArrayIndex, list);
    }
  }

  /******* What comes before what *******/

  ghost predicate EntriesHold(rx: RegexEngine, o: Json, sel: Json, keys: seq<string>, n: nat)
    requires n <= |keys|
  {
    forall j :: 0 <= j < n && keys[j] in Fields(sel) ==> PathHolds(rx, o, Words(keys[j]), Fields(sel)[keys[j]])
  }

  ghost predicate OperatorsHold(rx: RegexEngine, v: Json, operators: map<string, Json>, keys: seq<string>, n: nat)
    requires n <= |keys|
  {
    forall j :: 0 <= j < n && keys[j] in operators ==> OpHolds(rx, v, keys[j], operators)
  }

  /** No earlier element leads to a match. */
  ghost predicate NoneHolds(rx: RegexEngine, items: seq<Json>, n: nat, words: seq<string>, s: Json)
    requires n <= |items| && words != []
  {
    forall j :: 0 <= j < n ==> !PathHolds(rx, OrEmpty(items[j]), words, s)
  }

  ghost predicate NoneMatches(rx: RegexEngine, items: seq<Json>, n: nat, sel: Json)
    requires n <= |items|
  {
    forall j :: 0 <= j < n ==> !Matches(rx, items[j], sel)
  }

  ghost predicate MatchesNone(rx: RegexEngine, o: Json, sels: seq<Json>, n: nat)
    requires n <= |sels|
  {
    forall j :: 0 <= j < n ==> !Matches(rx, o, sels[j])
  }

  ghost predicate MatchesAll(rx: RegexEngine, o: Json, sels: seq<Json>, n: nat)
    requires n <= |sels|
  {
    forall j :: 0 <= j < n ==> Matches(rx, o, sels[j])
  }

  /******* Throwing, under an order of keys *******/

  ghost predicate Throws(rx: RegexEngine, order: KeyOrder, o: Json, sel: Json)
    decreases sel, 0, 0
  {
    sel == Null ||
    (IsObject(sel) &&
     exists i :: 0 <= i < |order(sel)| && order(sel)[i] in Fields(sel) && EntriesHold(rx, o, sel, order(sel), i) &&
                 PathThrows(rx, order, o, Words(order(sel)[i]), Fields(sel)[order(sel)[i]]))
  }

  ghost predicate PathThrows(rx: RegexEngine, order: KeyOrder, o: Json, words: seq<string>, s: Json)
    requires words != []
    decreases s, 3, |words|
  {
    if |words| == 1 then LastThrows(rx, order, o, words[0], s)
    else
      var v := Get(o, words[0]);
      Missing(o) ||
      if v.Arr? then
        exists i :: 0 <= i < |v.items| && NoneHolds(rx, v.items, i, words[1..], s) &&
                    PathThrows(rx, order, OrEmpty(v.items[i]), words[1..], s)
      else
        (IsObject(v) || v.Undefined?) && PathThrows(rx, order, OrEmpty(v), words[1..], s)
  }

  ghost predicate LastThrows(rx: RegexEngine, order: KeyOrder, o: Json, key: string, s: Json)
    decreases s, 2, 0
  {
    if key == "$or" then
      !s.Arr? || exists i :: 0 <= i < |s.items| && MatchesNone(rx, o, s.items, i) && Throws(rx, order, o, s.items[i])
    else if key == "$and" then
      !s.Arr? || s.items == [] ||
      exists i :: 0 <= i < |s.items| && MatchesAll(rx, o, s.items, i) && Throws(rx, order, o, s.items[i])
    else
      IsOperator(key) || Missing(o) || CondThrows(rx, order, Get(o, key), s)
  }

  ghost predicate CondThrows(rx: RegexEngine, order: KeyOrder, v: Json, s: Json)
    decreases s, 1, 0
  {
    if s.Regex? then false
    else if IsOperators(s) then
      exists i :: 0 <= i < |order(s)| && order(s)[i] in s.fields && OperatorsHold(rx, v, s.fields, order(s), i) &&
                  OpThrows(rx, order, v, order(s)[i], s.fields)
    else if s.Obj? || s.Arr? then
      (IsObject(v) || v.Undefined?) && Throws(rx, order, OrEmpty(v), s)
    else false
  }

  ghost predicate OpThrows(rx: RegexEngine, order: KeyOrder, v: Json, op: string, operators: map<string, Json>)
    requires op in operators
    decreases operators[op], 4, 0
  {
    var w := operators[op];
    match op
    case "$elemMatch" => ElementThrows(rx, order, v, w)
    case "$in" => !w.Arr?
    case "$nin" => !w.Arr?
    case "$options" => "$regex" !in operators
    case "$not" => CondThrows(rx, order, v, w)
    case _ => op !in {"$gt", "$gte", "$lt", "$lte", "$eq", "$ne", "$exists", "$regex"}
  }

  ghost predicate ElementThrows(rx: RegexEngine, order: KeyOrder, v: Json, w: Json)
    decreases w, 0, 2
  {
    v.Arr? && AnyThrows(rx, order, v.items, w)
  }

  ghost predicate AnyThrows(rx: RegexEngine, order: KeyOrder, items: seq<Json>, w: Json)
    decreases w, 0, 1
  {
    exists i :: 0 <= i < |items| && NoneMatches(rx, items, i, w) && Throws(rx, order, items[i], w)
  }

  /******* Answering, under every order of keys *******/

  /** In every enumeration a stands before b. */
  predicate MustPrecede(a: string, b: string) {
    a != b && ArrayIndex(a).Some? && Earlier(ArrayIndex, a, b)
  }

  ghost predicate EarlierHold(rx: RegexEngine, o: Json, sel: Json, key: string) {
    forall k :: k in Fields(sel) && MustPrecede(k, key) ==> PathHolds(rx, o, Words(k), Fields(sel)[k])
  }

  /** A call that answers: each entry that can be reached does. */
  ghost predicate Answers(rx: RegexEngine, o: Json, sel: Json)
    decreases sel, 0, 0
  {
    sel != Null &&
    (IsObject(sel) ==>
       forall key :: key in Fields(sel) && EarlierHold(rx, o, sel, key) ==>
           PathAnswers(rx, o, Words(key), Fields(sel)[key]))
  }

  ghost predicate PathAnswers(rx: RegexEngine, o: Json, words: seq<string>, s: Json)
    requires words != []
    decreases s, 3, |words|
  {
    if |words| == 1 then LastAnswers(rx, o, words[0], s)
    else
      var v := Get(o, words[0]);
      !Missing(o) &&
      if v.Arr? then
        forall i :: 0 <= i < |v.items| && NoneHolds(rx, v.items, i, words[1..], s) ==>
                    PathAnswers(rx, OrEmpty(v.items[i]), words[1..], s)
      else
        IsObject(v) || v.Undefined? ==> PathAnswers(rx, OrEmpty(v), words[1..], s)
  }

  ghost predicate LastAnswers(rx: RegexEngine, o: Json, key: string, s: Json)
    decreases s, 2, 0
  {
    if key == "$or" then
      s.Arr? && forall i :: 0 <= i < |s.items| && MatchesNone(rx, o, s.items, i) ==> Answers(rx, o, s.items[i])
    else if key == "$and" then
      s.Arr? && s.items != [] && forall i :: 0 <= i < |s.items| && MatchesAll(rx, o, s.items, i) ==>
          Answers(rx, o, s.items[i])
    else
      !IsOperator(key) && !Missing(o) && CondAnswers(rx, Get(o, key), s)
  }

  ghost predicate CondAnswers(rx: RegexEngine, v: Json, s: Json)
    decreases s, 1, 0
  {
    if s.Regex? then true
    else if IsOperators(s) then
      forall op :: op in s.fields ==> OpAnswers(rx, v, op, s.fields)
    else if s.Obj? || s.Arr? then
      IsObject(v) || v.Undefined? ==> Answers(rx, OrEmpty(v), s)
    else true
  }

  ghost predicate OpAnswers(rx: RegexEngine, v: Json, op: string, operators: map<string, Json>)
    requires op in operators
    decreases operators[op], 4, 0
  {
    var w := operators[op];
    match op
    case "$elemMatch" => ElementAnswers(rx, v, w)
    case "$in" => w.Arr?
    case "$nin" => w.Arr?
    case "$options" => "$regex" in operators
    case "$not" => CondAnswers(rx, v, w)
    case _ => op in {"$gt", "$gte", "$lt", "$lte", "$eq", "$ne", "$exists", "$regex"}
  }

  ghost predicate ElementAnswers(rx: RegexEngine, v: Json, w: Json)
    decreases w, 0, 1
  {
    v.Arr? ==> forall i :: 0 <= i < |v.items| && NoneMatches(rx, v.items, i, w) ==> Answers(rx, v.items[i], w)
  }
}
