/** What single modifiers leave behind, in terms of the fields of a document and the items of an array. */
module MongoEdits {
  import opened Wrappers
  import opened MongoJson
  import opened MongoSemantics
  import opened MongoErrors
  import opened MongoUpdate
  import opened MongoModifier
  import M = MongoMatcher
  import Q = MongoQueries

  /** A path that is one field, and whose name makes no array of its entry. */
  predicate PlainField(key: string) {
    key != "" && key != "$" && key != "length" && !HasDot(key)
  }

  function Modifying(operator: string, key: string, value: Json): Modifier {
    map[operator := map[key := value]]
  }

  lemma OnlyEdit(rx: RegexEngine, order: KeyOrder, operator: string, key: string, value: Json)
    requires Known(operator) && PlainField(key)
    ensures var modifier := Modifying(operator, key, value);
            && Sound(modifier) && Words(key) == [key]
            && (forall o, path :: o in modifier && path in ByKey(modifier[o]) ==> path == key)
            && Edits(rx, order, modifier, modifier.Keys) == {Edit(key, OpOf(rx, order, operator, value).value)}
  {
    var modifier := Modifying(operator, key, value);
    assert modifier[operator] == map[key := value] && ByKey(modifier[operator]) == map[key := value];
    assert operator in modifier.Keys && key in ByKey(modifier[operator]);
    forall t ensures t in Edits(rx, order, modifier, modifier.Keys) <==>
        t == Edit(key, OpOf(rx, order, operator, value).value) {}
  }

  lemma OneList(t: Edit, list: seq<Edit>)
    ensures Lists(list, {t}) <==> list == [t]
  {
    if Lists(list, {t}) {
      assert t in list && forall i :: 0 <= i < |list| ==> list[i] in list;
      assert |list| > 1 ==> list[0] != list[1];
    }
  }

  lemma OneFold(doc: Json, t: Edit)
    ensures Fold(doc, [t]) == Do(doc, t)
  {
    assert [t][1..] == [];
  }

  /** A modifier of one edit does that edit. */
  method ModifyOne(rx: RegexEngine, order: KeyOrder, doc: Json, operator: string, key: string, value: Json)
    returns (r: Outcome)
    requires Known(operator) && PlainField(key)
    ensures var done := Update(doc, [key], OpOf(rx, order, operator, value).value);
            if done.Done? then r == done else !r.Done?
  {
    var modifier := Modifying(operator, key, value);
    ghost var t := Edit(key, OpOf(rx, order, operator, value).value);
    OnlyEdit(rx, order, operator, key, value);
    OneList(t, [t]);
    OneFold(doc, t);
    DollarAlone(key);
    r := MongoModify(rx, order, doc, modifier);
    if r.Done? {
      ghost var list :| Lists(list, {t}) && r == Fold(doc, list);
      OneList(t, list);
    } else {
      assert Applies(doc, t) <==> Do(doc, t).Done?;
    }
  }

  lemma DollarAlone(key: string)
    requires PlainField(key)
    ensures "$" !in Words(key)
  {
    assert Words(key) == [key];
  }

  /******* Setting and unsetting *******/

  method SetField(rx: RegexEngine, order: KeyOrder, fields: map<string, Json>, key: string, v: Json)
    returns (r: Outcome)
    requires PlainField(key)
    ensures r == Done(Obj(fields[key := v]))
  {
    r := ModifyOne(rx, order, Obj(fields), "$set", key, v);
  }

  method UnsetField(rx: RegexEngine, order: KeyOrder, fields: map<string, Json>, key: string, v: Json)
    returns (r: Outcome)
    requires PlainField(key)
    ensures r == Done(Obj(fields - {key}))
  {
    assert key !in fields ==> fields - {key} == fields;
    r := ModifyOne(rx, order, Obj(fields), "$unset", key, v);
  }

  /******* Arrays *******/

  predicate IsEach(v: Json) {
    v.Obj? && "$each" in v.fields && v.fields["$each"].Arr?
  }

  function Each(values: seq<Json>): Json {
    Obj(map["$each" := Arr(values)])
  }

  /** An array that is there, or an empty one for a field that is not. */
  predicate HasItems(fields: map<string, Json>, key: string, items: seq<Json>) {
    if key in fields then fields[key] == Arr(items) else items == []
  }

  method PushOne(rx: RegexEngine, order: KeyOrder, fields: map<string, Json>, key: string, items: seq<Json>, v: Json)
    returns (r: Outcome)
    requires PlainField(key) && HasItems(fields, key, items) && !IsEach(v)
    ensures r == Done(Obj(fields[key := Arr(items + [v])]))
  {
    r := ModifyOne(rx, order, Obj(fields), "$push", key, v);
  }

  method PushEach(rx: RegexEngine, order: KeyOrder, fields: map<string, Json>, key: string, items: seq<Json>,
                  values: seq<Json>)
    returns (r: Outcome)
    requires PlainField(key) && HasItems(fields, key, items)
    ensures r == Done(Obj(fields[key := Arr(items + values)]))
  {
    r := ModifyOne(rx, order, Obj(fields), "$push", key, Each(values));
  }

  /** Only arrays can be pushed to, added to or pulled from. */
  method OnlyArrays(rx: RegexEngine, order: KeyOrder, fields: map<string, Json>, key: string, v: Json)
    returns (push: Outcome, add: Outcome, pull: Outcome)
    requires PlainField(key) && key in fields && !fields[key].Arr?
    ensures !push.Done? && !add.Done? && !pull.Done?
  {
    push := ModifyOne(rx, order, Obj(fields), "$push", key, v);
    add := ModifyOne(rx, order, Obj(fields), "$addToSet", key, v);
    pull := ModifyOne(rx, order, Obj(fields), "$pull", key, v);
  }

  method AddOne(rx: RegexEngine, order: KeyOrder, fields: map<string, Json>, key: string, items: seq<Json>, v: Json)
    returns (r: Outcome)
    requires PlainField(key) && HasItems(fields, key, items) && !IsEach(v)
    ensures r == Done(Obj(fields[key := Arr(if v in items then items else items + [v])]))
  {
    AddAllAdds(items, [v]);
    assert [v][1..] == [];
    assert AddAll(items, [v]) == AddAll(if v in items then items else items + [v], []);
    r := ModifyOne(rx, order, Obj(fields), "$addToSet", key, v);
  }

  function PlaceIn(values: seq<Json>, v: Json): (i: nat)
    requires v in values
    ensures i < |values| && values[i] == v && v !in values[..i]
  {
    if values[0] == v then 0 else 1 + PlaceIn(values[1..], v)
  }

  /** The items come first; what follows are the new values, each once, in the order in which they were given. */
  ghost predicate Added(items: seq<Json>, values: seq<Json>, after: seq<Json>) {
    && items <= after
    && (forall v :: v in after <==> v in items || v in values)
    && (forall i :: |items| <= i < |after| ==> after[i] !in items && after[i] in values)
    && forall i, j :: |items| <= i < j < |after| ==> PlaceIn(values, after[i]) < PlaceIn(values, after[j])
  }

  lemma {:induction false} AddAllAdds(items: seq<Json>, values: seq<Json>)
    ensures Added(items, values, AddAll(items, values))
    decreases |values|
  {
    if values != [] {
      var v, rest := values[0], values[1..];
      AddAllAdds(if v in items then items else items + [v], rest);
      AddedFirst(items, v, rest, AddAll(items, values));
      assert values == [v] + rest;
    }
  }

  lemma AddedFirst(items: seq<Json>, v: Json, rest: seq<Json>, after: seq<Json>)
    requires Added(if v in items then items else items + [v], rest, after)
    ensures Added(items, [v] + rest, after)
  {
    var values := [v] + rest;
    assert values[1..] == rest;
    var more := if v in items then items else items + [v];
    forall i | |items| <= i < |after| ensures after[i] !in items && after[i] in values {
      if i < |more| { assert after[i] == more[i] == v; }
    }
    forall i, j | |items| <= i < j < |after| ensures PlaceIn(values, after[i]) < PlaceIn(values, after[j]) {
      assert after[j] != v && PlaceIn(values, after[j]) == 1 + PlaceIn(rest, after[j]);
      if i < |more| {
        assert after[i] == more[i] == v;
      } else {
        assert after[i] != v && PlaceIn(values, after[i]) == 1 + PlaceIn(rest, after[i]);
      }
    }
    forall x ensures x in after <==> x in items || x in values {
      assert x in more <==> x in items || x == v;
    }
  }

  method AddEach(rx: RegexEngine, order: KeyOrder, fields: map<string, Json>, key: string, items: seq<Json>,
                 values: seq<Json>)
    returns (r: Outcome)
    requires PlainField(key) && HasItems(fields, key, items)
    ensures exists after :: Added(items, values, after) && r == Done(Obj(fields[key := Arr(after)]))
  {
    AddAllAdds(items, values);
    r := ModifyOne(rx, order, Obj(fields), "$addToSet", key, Each(values));
  }

  function Those(items: seq<Json>, wanted: Json -> bool): seq<Json> {
    if items == [] then []
    else if wanted(items[0]) then [items[0]] + Those(items[1..], wanted)
    else Those(items[1..], wanted)
  }

  lemma {:induction false} KeptAreThose(rx: RegexEngine, match_: Json, items: seq<Json>, wanted: Json -> bool)
    requires forall x :: x in items ==> (wanted(x) <==> !Removes(rx, match_, x))
    ensures Kept(rx, match_, items) == Those(items, wanted)
  {
    if items != [] {
      assert items[0] in items;
      KeptAreThose(rx, match_, items[1..], wanted);
      assert [] + Kept(rx, match_, items[1..]) == Kept(rx, match_, items[1..]);
    }
  }

  /** A plain value removes the items that are equal to it. */
  method PullValue(rx: RegexEngine, order: KeyOrder, fields: map<string, Json>, key: string, items: seq<Json>, v: Json)
    returns (r: Outcome)
    requires PlainField(key) && key in fields && fields[key] == Arr(items) && !IsObject(v)
    ensures r == Done(Obj(fields[key := Arr(Those(items, x => x != v))]))
  {
    KeptAreThose(rx, v, items, x => x != v);
    r := ModifyOne(rx, order, Obj(fields), "$pull", key, v);
  }

  /** A list removes the items that are on it. */
  method PullList(rx: RegexEngine, order: KeyOrder, fields: map<string, Json>, key: string, items: seq<Json>,
                  list: seq<Json>)
    returns (r: Outcome)
    requires PlainField(key) && key in fields && fields[key] == Arr(items)
    ensures r == Done(Obj(fields[key := Arr(Those(items, x => x !in list))]))
  {
    var match_ := Obj(map["$in" := Arr(list)]);
    KeptAreThose(rx, match_, items, x => x !in list);
    r := ModifyOne(rx, order, Obj(fields), "$pull", key, match_);
  }

  /** A query removes the items that match it. */
  method PullQuery(rx: RegexEngine, order: KeyOrder, fields: map<string, Json>, key: string, items: seq<Json>,
                   inner: string, w: Json)
    returns (r: Outcome)
    requires PlainField(key) && key in fields && fields[key] == Arr(items) && forall x :: x in items ==> x.Obj?
    requires Q.Plain(inner) && !IsObject(w)
    ensures r == Done(Obj(fields[key := Arr(Those(items, (x: Json) => !x.Obj? || Q.Field(x.fields, inner) != w))]))
  {
    var match_ := M.Single(inner, w);
    forall x | x in items
      ensures !Throws(rx, order, x, match_) && (Matches(rx, x, match_) <==> Q.Field(x.fields, inner) == w) {
      Q.ValueMatches(rx, order, x.fields, inner, w);
    }
    assert inner != "$in";
    KeptAreThose(rx, match_, items, (x: Json) => !x.Obj? || Q.Field(x.fields, inner) != w);
    r := ModifyOne(rx, order, Obj(fields), "$pull", key, match_);
  }

  /** Where there is no array there is nothing to pull. */
  method PullNothing(rx: RegexEngine, order: KeyOrder, fields: map<string, Json>, key: string, v: Json)
    returns (r: Outcome)
    requires PlainField(key) && key !in fields
    ensures r == Done(Obj(fields))
  {
    r := ModifyOne(rx, order, Obj(fields), "$pull", key, v);
  }
}
