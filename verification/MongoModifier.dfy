/** Whole modifiers: several operators, each with several paths, applied one after the other. */
module MongoModifier {
  import opened Wrappers
  import opened MongoJson
  import opened MongoSemantics
  import opened MongoErrors
  import opened MongoUpdate
  import opened MongoMutators

  type Modifier = map<string, map<string, Json>>

  datatype Edit = Edit(path: string, op: Op)

  /** The values of an $each wrapper, or the one value. */
  function EachOf(value: Json): seq<Json> {
    if value.Obj? && "$each" in value.fields && value.fields["$each"].Arr? then value.fields["$each"].items else [value]
  }

  function OpOf(rx: RegexEngine, order: KeyOrder, operator: string, value: Json): Option<Op> {
    match operator
    case "$set" => Some(Set(value))
    case "$unset" => Some(Unset)
    case "$push" => Some(Push(EachOf(value)))
    case "$pull" => Some(Pull(rx, order, value))
    case "$addToSet" => Some(AddToSet(EachOf(value)))
    case _ => None
  }

  predicate Known(operator: string) {
    operator in {"$set", "$unset", "$push", "$pull", "$addToSet"}
  }

  /** The largest length of what the walk over entries takes for an array. */
  const MAX_ARRAY_INDEX := 9007199254740991.0

  /** Entries with a fitting number as their length are gone through by number from 0 on, not by key. */
  predicate ArrayLike(entries: map<string, Json>) {
    && "length" in entries && entries["length"].Num?
    && 0.0 <= entries["length"].n <= MAX_ARRAY_INDEX
  }

  /** The entries that are gone through by key. */
  function ByKey(entries: map<string, Json>): map<string, Json> {
    if ArrayLike(entries) then map[] else entries
  }

  /** The number 0 is not accepted as a path, so the walk ends there if it starts at all. */
  predicate Stumbles(entries: map<string, Json>) {
    ArrayLike(entries) && entries["length"].n > 0.0
  }

  /** Every operator is known, and the walk over its entries does not stumble. */
  predicate Sound(modifier: Modifier) {
    forall operator :: operator in modifier ==> Known(operator) && !Stumbles(modifier[operator])
  }

  /** The edits under some of the paths of an operator, and those under some of the operators. */
  ghost function EditsOf(rx: RegexEngine, order: KeyOrder, operator: string, entries: map<string, Json>,
                         paths: set<string>): set<Edit>
    requires Known(operator) && paths <= entries.Keys
  {
    set path | path in paths :: Edit(path, OpOf(rx, order, operator, entries[path]).value)
  }

  ghost function Edits(rx: RegexEngine, order: KeyOrder, modifier: Modifier, operators: set<string>): set<Edit>
    requires operators <= modifier.Keys
  {
    set operator, path | operator in operators && path in ByKey(modifier[operator]) && Known(operator) ::
      Edit(path, OpOf(rx, order, operator, modifier[operator][path]).value)
  }

  ghost function Do(doc: Json, t: Edit): Outcome {
    Update(doc, Words(t.path), t.op)
  }

  ghost function Fold(doc: Json, edits: seq<Edit>): Outcome
    decreases |edits|
  {
    if edits == [] then Done(doc)
    else
      var r := Do(doc, edits[0]);
      if r.Done? then Fold(r.doc, edits[1..]) else r
  }

  /** Every edit applies to the document, and no path leads through another. */
  ghost predicate Fits(doc: Json, edits: seq<Edit>) {
    && (forall i {:trigger Do(doc, edits[i])} :: 0 <= i < |edits| ==> Do(doc, edits[i]).Done?)
    && (forall i, j {:trigger EditsApart(edits[i], edits[j])} ::
          0 <= i < |edits| && 0 <= j < |edits| && i != j ==> EditsApart(edits[i], edits[j]))
  }

  predicate EditsApart(t: Edit, u: Edit) {
    Apart(Words(t.path), Words(u.path))
  }

  lemma EditsCommute(doc: Json, t: Edit, u: Edit)
    requires EditsApart(t, u) && Do(doc, t).Done? && Do(doc, u).Done?
    ensures Do(Do(doc, t).doc, u) == Do(Do(doc, u).doc, t) && Do(Do(doc, t).doc, u).Done?
  {
    UpdatesCommute(doc, Words(t.path), t.op, Words(u.path), u.op);
  }

  function Without(edits: seq<Edit>, i: nat): seq<Edit>
    requires i < |edits|
  {
    edits[..i] + edits[i + 1..]
  }

  lemma FitsWithout(doc: Json, edits: seq<Edit>, i: nat)
    requires i < |edits| && Fits(doc, edits)
    ensures Fits(Do(doc, edits[i]).doc, Without(edits, i))
  {
    var rest := Without(edits, i);
    forall j | 0 <= j < |rest| ensures Do(Do(doc, edits[i]).doc, rest[j]).Done? {
      var u := edits[if j < i then j else j + 1];
      assert rest[j] == u && EditsApart(edits[i], u);
      EditsCommute(doc, edits[i], u);
    }
    forall j, k | 0 <= j < |rest| && 0 <= k < |rest| && j != k ensures EditsApart(rest[j], rest[k]) {
      assert rest[j] == edits[if j < i then j else j + 1] && rest[k] == edits[if k < i then k else k + 1];
    }
  }

  /** Any edit may be the first. */
  lemma {:induction false} AnyEditFirst(doc: Json, edits: seq<Edit>, i: nat)
    requires i < |edits| && Fits(doc, edits)
    ensures Fold(doc, edits) == Fold(Do(doc, edits[i]).doc, Without(edits, i))
    decreases i
  {
    if i == 0 {
      assert Without(edits, 0) == edits[1..];
    } else {
      var first, other, both := Swapped(doc, edits, i);
      AnyEditFirst(first, edits[1..], i - 1);
      TakeOut(doc, edits, i, first, other, both);
    }
  }

  /** Where the first edit and a later one lead, one after the other. */
  lemma Swapped(doc: Json, edits: seq<Edit>, i: nat) returns (first: Json, other: Json, both: Json)
    requires 0 < i < |edits| && Fits(doc, edits)
    ensures Do(doc, edits[0]) == Done(first) && Do(doc, edits[i]) == Done(other)
    ensures Do(first, edits[i]) == Done(both) && Do(other, edits[0]) == Done(both)
    ensures Fits(first, edits[1..])
  {
    FitsWithout(doc, edits, 0);
    assert Without(edits, 0) == edits[1..];
    assert EditsApart(edits[0], edits[i]);
    EditsCommute(doc, edits[0], edits[i]);
    first, other := Do(doc, edits[0]).doc, Do(doc, edits[i]).doc;
    both := Do(first, edits[i]).doc;
  }

  lemma TakeOut(doc: Json, edits: seq<Edit>, i: nat, first: Json, other: Json, both: Json)
    requires 0 < i < |edits| && Do(doc, edits[0]) == Done(first) && Do(doc, edits[i]) == Done(other)
    requires Do(first, edits[i]) == Done(both) && Do(other, edits[0]) == Done(both)
    requires Fold(first, edits[1..]) == Fold(both, Without(edits[1..], i - 1))
    ensures Fold(doc, edits) == Fold(other, Without(edits, i))
  {
    WithoutLater(edits, i);
    FirstEdit(doc, edits, first);
    FirstEdit(other, Without(edits, i), both);
  }

  lemma WithoutLater(edits: seq<Edit>, i: nat)
    requires 0 < i < |edits|
    ensures |Without(edits, i)| == |edits| - 1 && Without(edits, i)[0] == edits[0]
    ensures Without(edits, i)[1..] == Without(edits[1..], i - 1)
  {
    var rest, later := Without(edits, i)[1..], Without(edits[1..], i - 1);
    forall k | 0 <= k < |rest| ensures rest[k] == later[k] {
      assert rest[k] == edits[if k < i - 1 then k + 1 else k + 2];
    }
  }

  lemma FirstEdit(doc: Json, edits: seq<Edit>, first: Json)
    requires edits != [] && Do(doc, edits[0]) == Done(first)
    ensures Fold(doc, edits) == Fold(first, edits[1..])
  {
  }

  /** The edits in some order, each one once. */
  ghost predicate Lists(list: seq<Edit>, edits: set<Edit>) {
    && (forall t :: t in list <==> t in edits)
    && forall i, j :: 0 <= i < j < |list| ==> list[i] != list[j]
  }

  lemma ListsWithout(list: seq<Edit>, edits: set<Edit>, i: nat)
    requires i < |list| && Lists(list, edits)
    ensures Lists(Without(list, i), edits - {list[i]})
  {
    var rest := Without(list, i);
    forall t ensures t in rest <==> t in edits - {list[i]} {
      if t in list && t != list[i] {
        var j :| 0 <= j < |list| && list[j] == t;
        assert rest[if j < i then j else j - 1] == t;
      }
      if t in rest {
        var j :| 0 <= j < |rest| && rest[j] == t;
        assert list[if j < i then j else j + 1] == t;
      }
    }
  }

  lemma NothingListed(list: seq<Edit>, edits: set<Edit>)
    requires Lists(list, edits)
    ensures list == [] <==> edits == {}
  {
    if list != [] { assert list[0] in edits; }
    if edits != {} { var t :| t in edits; assert t in list; }
  }

  /** Edits that fit the document have one outcome, in whatever order they are done. */
  lemma {:induction false} OrderIsFree(doc: Json, edits: set<Edit>, list: seq<Edit>, other: seq<Edit>)
    requires Lists(list, edits) && Lists(other, edits) && Fits(doc, list)
    ensures Fold(doc, list) == Fold(doc, other) && Fold(doc, list).Done?
    decreases |list|
  {
    if other == [] {
      NothingListed(other, edits);
      NothingListed(list, edits);
    } else {
      assert other[0] in edits;
      var i :| 0 <= i < |list| && list[i] == other[0];
      AnyEditFirst(doc, list, i);
      FitsWithout(doc, list, i);
      ListsWithout(list, edits, i);
      ListsWithout(other, edits, 0);
      assert Without(other, 0) == other[1..];
      OrderIsFree(Do(doc, list[i]).doc, edits - {list[i]}, Without(list, i), other[1..]);
    }
  }

  /******* Applying a modifier *******/

  /** Every edit applies to the document, and no path leads through another. */
  ghost predicate Independent(doc: Json, edits: set<Edit>) {
    && (forall t :: t in edits ==> Applies(doc, t))
    && (forall t, u :: t in edits && u in edits && t != u ==> EditsApart(t, u))
  }

  ghost predicate Applies(doc: Json, t: Edit) {
    Do(doc, t).Done?
  }

  lemma IndependentFits(doc: Json, edits: set<Edit>, list: seq<Edit>)
    requires Independent(doc, edits) && forall t :: t in list ==> t in edits
    requires forall i, j :: 0 <= i < j < |list| ==> list[i] != list[j]
    ensures Fits(doc, list)
  {
    forall i | 0 <= i < |list| ensures Do(doc, list[i]).Done? {
      assert list[i] in edits && Applies(doc, list[i]);
    }
    forall i, j | 0 <= i < |list| && 0 <= j < |list| && i != j ensures EditsApart(list[i], list[j]) {
      assert list[i] in edits && list[j] in edits;
      assert list[if i < j then i else j] != list[if i < j then j else i];
    }
  }

  /** Doing one edit leaves the others as independent as before. */
  lemma StaysIndependent(doc: Json, edits: set<Edit>, t: Edit)
    requires t in edits && Independent(doc, edits)
    ensures Do(doc, t).Done? && Independent(Do(doc, t).doc, edits - {t})
  {
    assert Applies(doc, t);
    forall u | u in edits - {t} ensures Applies(Do(doc, t).doc, u) {
      EditsCommute(doc, t, u);
    }
  }

  lemma {:induction false} FoldOneMore(doc: Json, list: seq<Edit>, t: Edit)
    requires Fold(doc, list).Done?
    ensures Fold(doc, list + [t]) == Do(Fold(doc, list).doc, t)
    decreases |list|
  {
    if list == [] {
      assert [] + [t] == [t] && [t][1..] == [];
    } else {
      FoldOneMore(Do(doc, list[0]).doc, list[1..], t);
      assert (list + [t])[1..] == list[1..] + [t];
    }
  }

  /** How far a modifier has come: the edits done so far, and those that are left. */
  ghost predicate Halfway(doc: Json, edits: set<Edit>, list: seq<Edit>, left: set<Edit>, now: Json) {
    && Fold(doc, list) == Done(now)
    && left <= edits && Lists(list, edits - left)
    && (Independent(doc, edits) ==> Independent(now, left))
  }

  lemma OneEditFurther(doc: Json, edits: set<Edit>, list: seq<Edit>, left: set<Edit>, now: Json, t: Edit)
    requires Halfway(doc, edits, list, left, now) && t in left && Do(now, t).Done?
    ensures Halfway(doc, edits, list + [t], left - {t}, Do(now, t).doc)
  {
    FoldOneMore(doc, list, t);
    if Independent(doc, edits) { StaysIndependent(now, left, t); }
    forall u ensures u in list + [t] <==> u in edits - (left - {t}) {
      assert u in list + [t] <==> u in list || u == t;
    }
  }

  /** One edit, with the record of those done so far. */
  method DoEdit(rx: RegexEngine, order: KeyOrder, doc: Json, path: string, op: Op, ghost start: Json,
                ghost edits: set<Edit>, ghost list: seq<Edit>, ghost left: set<Edit>)
    returns (r: Outcome)
    requires "$" !in Words(path)
    requires Halfway(start, edits, list, left, doc) && Edit(path, op) in left
    ensures r.Done? ==> Halfway(start, edits, list + [Edit(path, op)], left - {Edit(path, op)}, r.doc)
    ensures Independent(start, edits) ==> r.Done?
  {
    r := MutatePath(doc, path, op);
    if Independent(start, edits) { assert Applies(doc, Edit(path, op)); }
    if r.Done? { OneEditFurther(start, edits, list, left, doc, Edit(path, op)); }
  }

  /** The paths under one operator, in any order. */
  method ApplyOperator(rx: RegexEngine, order: KeyOrder, doc: Json, operator: string, entries: map<string, Json>,
                       ghost start: Json, ghost edits: set<Edit>, ghost list: seq<Edit>, ghost left: set<Edit>)
    returns (r: Outcome, ghost list': seq<Edit>)
    requires Known(operator) && forall path :: path in entries ==> "$" !in Words(path)
    requires Halfway(start, edits, list, left, doc) && EditsOf(rx, order, operator, entries, entries.Keys) <= left
    ensures r.Done? ==> Halfway(start, edits, list', left - EditsOf(rx, order, operator, entries, entries.Keys), r.doc)
    ensures Independent(start, edits) ==> r.Done?
  {
    r, list' := Done(doc), list;
    ghost var left' := left;
    var todo := entries.Keys;
    while todo != {}
      invariant todo <= entries.Keys && r.Done?
      invariant Halfway(start, edits, list', left', r.doc)
      invariant left' == left - EditsOf(rx, order, operator, entries, entries.Keys - todo)
      decreases todo
    {
      var path :| path in todo;
      var op := OpOf(rx, order, operator, entries[path]).value;
      OnePathFurther(rx, order, operator, entries, todo, path, left);
      r := DoEdit(rx, order, r.doc, path, op, start, edits, list', left');
      if !r.Done? { return; }
      list', left' := list' + [Edit(path, op)], left' - {Edit(path, op)};
      todo := todo - {path};
    }
    assert entries.Keys - todo == entries.Keys;
  }

  lemma OnePathFurther(rx: RegexEngine, order: KeyOrder, operator: string, entries: map<string, Json>,
                       todo: set<string>, path: string, left: set<Edit>)
    requires Known(operator) && path in todo && todo <= entries.Keys &&
             EditsOf(rx, order, operator, entries, entries.Keys) <= left
    ensures var t := Edit(path, OpOf(rx, order, operator, entries[path]).value);
            && t in left - EditsOf(rx, order, operator, entries, entries.Keys - todo)
            && left - EditsOf(rx, order, operator, entries, entries.Keys - (todo - {path})) ==
               (left - EditsOf(rx, order, operator, entries, entries.Keys - todo)) - {t}
  {
    assert entries.Keys - (todo - {path}) == (entries.Keys - todo) + {path};
    assert Edit(path, OpOf(rx, order, operator, entries[path]).value) in
           EditsOf(rx, order, operator, entries, entries.Keys);
  }

  /** All operators, in any order. */
  method MongoModify(rx: RegexEngine, order: KeyOrder, doc: Json, modifier: Modifier) returns (r: Outcome)
    requires forall operator, path :: operator in modifier && path in ByKey(modifier[operator]) ==> "$" !in Words(path)
    ensures r.Done? ==>
              && Sound(modifier)
              && exists list :: Lists(list, Edits(rx, order, modifier, modifier.Keys)) && r == Fold(doc, list)
    ensures Independent(doc, Edits(rx, order, modifier, modifier.Keys)) ==>
              && (r.Done? <==> Sound(modifier))
              && (r.Done? ==>
                    forall list :: Lists(list, Edits(rx, order, modifier, modifier.Keys)) ==> r == Fold(doc, list))
  {
    ghost var edits := Edits(rx, order, modifier, modifier.Keys);
    ghost var list: seq<Edit> := [];
    r := Done(doc);
    var todo := modifier.Keys;
    while todo != {}
      invariant todo <= modifier.Keys && r.Done?
      invariant forall operator :: operator in modifier && operator !in todo ==>
                  Known(operator) && !Stumbles(modifier[operator])
      invariant Halfway(doc, edits, list, Edits(rx, order, modifier, todo), r.doc)
      decreases todo
    {
      var operator :| operator in todo;
      if operator == "$rename" { return Beyond; }
      if !Known(operator) || Stumbles(modifier[operator]) { return Threw(r.doc); }
      r, list := ApplyOperator(rx, order, r.doc, operator, ByKey(modifier[operator]), doc, edits, list,
          Edits(rx, order, modifier, todo));
      if !r.Done? { return; }
      OperatorsAreSeparate(rx, order, modifier, todo, operator);
      todo := todo - {operator};
    }
    assert Edits(rx, order, modifier, {}) == {} && edits - {} == edits;
    if Independent(doc, edits) {
      IndependentFits(doc, edits, list);
      forall other | Lists(other, edits) ensures r == Fold(doc, other) {
        OrderIsFree(doc, edits, list, other);
      }
    }
  }

  lemma OperatorsAreSeparate(rx: RegexEngine, order: KeyOrder, modifier: Modifier, operators: set<string>,
                             operator: string)
    requires operator in operators && operators <= modifier.Keys && Known(operator)
    ensures var entries := ByKey(modifier[operator]); var here := EditsOf(rx, order, operator, entries, entries.Keys);
            && here <= Edits(rx, order, modifier, operators)
            && Edits(rx, order, modifier, operators) - here == Edits(rx, order, modifier, operators - {operator})
  {
  }

  /** A field with the name length cannot be set to a number: nothing happens for 0, and others throw. */
  method LengthIsNotSet(rx: RegexEngine, order: KeyOrder, doc: Json) returns (zero: Outcome, two: Outcome)
    ensures zero == Done(doc) && !two.Done?
  {
    LengthsAreArrayLike(rx, order, doc);
    zero := MongoModify(rx, order, doc, LengthSet(0.0));
    two := MongoModify(rx, order, doc, LengthSet(2.0));
  }

  function LengthSet(length: real): Modifier {
    map["$set" := map["length" := Num(length)]]
  }

  lemma LengthsAreArrayLike(rx: RegexEngine, order: KeyOrder, doc: Json)
    ensures forall operator :: operator in LengthSet(0.0) ==> ByKey(LengthSet(0.0)[operator]) == map[]
    ensures forall operator :: operator in LengthSet(2.0) ==> ByKey(LengthSet(2.0)[operator]) == map[]
    ensures Sound(LengthSet(0.0)) && !Sound(LengthSet(2.0))
    ensures Edits(rx, order, LengthSet(0.0), LengthSet(0.0).Keys) == {} && Lists([], {}) && Fold(doc, []) == Done(doc)
  {
    assert "$set" in LengthSet(2.0) && Stumbles(LengthSet(2.0)["$set"]);
  }
}
