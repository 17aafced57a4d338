/**
 * What an update operator does at a dotted path, and the laws of updates.
 *
 * Paths are free of the positional word "$".
 */
module MongoUpdate {
  import opened Wrappers
  import opened JsStrings
  import opened MongoJson
  import opened MongoSemantics
  import opened MongoErrors

  datatype Op =
    | Set(value: Json)
    | Unset
    | Push(values: seq<Json>)
    | AddToSet(values: seq<Json>)
    | Pull(rx: RegexEngine, order: KeyOrder, match_: Json)

  /** The document afterwards, also when an error was thrown on the way; Beyond is what Json cannot hold: a
      hole in an array, or a named property on an array or a regular expression. */
  datatype Outcome = Done(doc: Json) | Threw(doc: Json) | Beyond

  /******* Properties *******/

  /** Own properties. */
  predicate Has(o: Json, key: string) {
    match o
    case Obj(fields) => key in fields
    case Arr(items) => key == "length" || (IsIndex(key) && IndexValue(key) < |items|)
    case _ => false
  }

  predicate CanPut(o: Json, key: string) {
    o.Obj? || (o.Arr? && IsIndex(key) && IndexValue(key) <= |o.items|)
  }

  function Put(o: Json, key: string, v: Json): (r: Json)
    requires CanPut(o, key)
  {
    match o
    case Obj(fields) => Obj(fields[key := v])
    case Arr(items) => if IndexValue(key) < |items| then Arr(items[IndexValue(key) := v]) else Arr(items + [v])
  }

  lemma PutSame(o: Json, key: string, v: Json, w: Json)
    requires CanPut(o, key)
    ensures Get(Put(o, key, v), key) == v && Has(Put(o, key, v), key) && CanPut(Put(o, key, v), key)
    ensures Put(Put(o, key, v), key, w) == Put(o, key, w)
    ensures Has(o, key) ==> Put(o, key, Get(o, key)) == o
  {
    if o.Obj? {
      assert o.fields[key := v][key := w] == o.fields[key := w];
    }
  }

  lemma PutOther(o: Json, key: string, v: Json, other: string)
    requires CanPut(o, key) && other != key
    ensures Has(Put(o, key, v), other) == Has(o, other)
    ensures Get(Put(o, key, v), other) == Get(o, other) <==> !(o.Arr? && !Has(o, key) && other == "length")
    ensures CanPut(o, other) ==> CanPut(Put(o, key, v), other)
  {
    if o.Arr? && IsIndex(other) {
      assert IndexValue(other) != IndexValue(key);
    }
    LengthIsNoIndex();
  }

  lemma LengthIsNoIndex()
    ensures !IsIndex("length")
  {
    assert "length"[|"length"| - 1] == 'h';
  }

  lemma PutsCommute(o: Json, key: string, v: Json, other: string, w: Json)
    requires CanPut(o, key) && CanPut(o, other) && other != key
    ensures CanPut(Put(o, key, v), other) && CanPut(Put(o, other, w), key)
    ensures Put(Put(o, key, v), other, w) == Put(Put(o, other, w), key, v)
  {
    PutOther(o, key, v, other);
    PutOther(o, other, w, key);
    if o.Obj? {
      assert o.fields[key := v][other := w] == o.fields[other := w][key := v];
    } else {
      assert IndexValue(other) != IndexValue(key);
    }
  }

  /******* Operators *******/

  function Items(v: Json): seq<Json> {
    if v.Arr? then v.items else []
  }

  function AddAll(items: seq<Json>, values: seq<Json>): seq<Json>
    decreases |values|
  {
    if values == [] then items
    else AddAll(if values[0] in items then items else items + [values[0]], values[1..])
  }

  /** A list of values to remove. */
  predicate IsList(match_: Json) {
    match_.Obj? && "$in" in match_.fields && match_.fields["$in"].Arr?
  }

  ghost predicate Removes(rx: RegexEngine, match_: Json, entry: Json) {
    if IsList(match_) then entry in match_.fields["$in"].items
    else if IsObject(match_) then Matches(rx, entry, match_)
    else entry == match_
  }

  ghost function Kept(rx: RegexEngine, match_: Json, items: seq<Json>): seq<Json> {
    if items == [] then [] else KeptOne(rx, match_, items[0]) + Kept(rx, match_, items[1..])
  }

  ghost function KeptOne(rx: RegexEngine, match_: Json, entry: Json): seq<Json> {
    if Removes(rx, match_, entry) then [] else [entry]
  }

  /** A query that the matcher throws at for some element. */
  ghost predicate Refused(op: Op, items: seq<Json>) {
    op.Pull? && !IsList(op.match_) && IsObject(op.match_) &&
        exists i :: 0 <= i < |items| && Throws(op.rx, op.order, items[i], op.match_)
  }

  /** What stands at the path once the operator is through with it; Undefined is a path with nothing. */
  ghost function After(op: Op, v: Json): Json {
    match op
    case Set(value) => value
    case Unset => Undefined
    case Push(values) => Arr(Items(v) + values)
    case AddToSet(values) => Arr(AddAll(Items(v), values))
    case Pull(rx, _, match_) => if v.Arr? then Arr(Kept(rx, match_, v.items)) else v
  }

  ghost function Apply(o: Json, key: string, op: Op): Outcome {
    if !o.Obj? && !o.Arr? then Beyond
    else match op
      case Set(value) => if CanPut(o, key) then Done(Put(o, key, value)) else Beyond
      case Unset => if !Has(o, key) then Done(o) else if o.Obj? then Done(Obj(o.fields - {key})) else Beyond
      case _ =>
        if Has(o, key) then
          if Get(o, key).Arr? && !Refused(op, Get(o, key).items)
          then Done(Put(o, key, After(op, Get(o, key))))
          else Threw(o)
        else if op.Pull? then Done(o)
        else if CanPut(o, key) then Done(Put(o, key, After(op, Undefined)))
        else Beyond
  }

  /** The outcome for an object from that for one of its properties. */
  function Within(o: Json, key: string, inner: Outcome): Outcome {
    if !CanPut(o, key) || inner.Beyond? then Beyond
    else if inner.Done? then Done(Put(o, key, inner.doc))
    else Threw(Put(o, key, inner.doc))
  }

  /** An update: missing parents are made on the way, and a value that is no object is in the way. */
  ghost function Update(o: Json, words: seq<string>, op: Op): Outcome
    requires words != []
    decreases |words|
  {
    if |words| == 1 then if words[0] == "" then Threw(o) else Apply(o, words[0], op)
    else if !Has(o, words[0]) then Within(o, words[0], Update(EMPTY, words[1..], op))
    else if !IsObject(Get(o, words[0])) then Threw(o)
    else Within(o, words[0], Update(Get(o, words[0]), words[1..], op))
  }

  lemma {:induction false} NothingWithin(v: Json, words: seq<string>)
    requires words != [] && (v == EMPTY || v == Undefined)
    ensures ReadPath(v, words) == Undefined
    decreases |words|
  {
    assert Get(v, words[0]) == Undefined;
    if |words| > 1 { NothingWithin(Undefined, words[1..]); }
  }

  /******* Reading back *******/

  /** After an update, its path reads what the operator makes of what was read there before. */
  lemma {:induction false} UpdateReadsBack(o: Json, words: seq<string>, op: Op)
    requires words != [] && Update(o, words, op).Done?
    ensures ReadPath(Update(o, words, op).doc, words) == After(op, ReadPath(o, words))
    decreases |words|
  {
    var key := words[0];
    if |words| == 1 {
      ApplyReadsBack(o, key, op);
    } else {
      var child := if Has(o, key) then Get(o, key) else EMPTY;
      var inner := Update(child, words[1..], op);
      UpdateReadsBack(child, words[1..], op);
      PutSame(o, key, inner.doc, Null);
      if !Has(o, key) {
        NothingWithin(EMPTY, words[1..]);
        NothingWithin(Undefined, words[1..]);
      }
    }
  }

  lemma ApplyReadsBack(o: Json, key: string, op: Op)
    requires Apply(o, key, op).Done?
    ensures Get(Apply(o, key, op).doc, key) == After(op, Get(o, key))
  {
    if CanPut(o, key) {
      PutSame(o, key, After(op, Get(o, key)), Null);
    }
    LengthIsNoIndex();
  }

  /** A second update with the same operator changes nothing, unless it pushes. */
  lemma {:induction false} RepeatChangesNothing(o: Json, words: seq<string>, op: Op)
    requires words != [] && !op.Push? && Update(o, words, op).Done?
    ensures Update(Update(o, words, op).doc, words, op) == Update(o, words, op)
    decreases |words|
  {
    var key := words[0];
    if |words| == 1 {
      RepeatApply(o, key, op);
    } else {
      var child := if Has(o, key) then Get(o, key) else EMPTY;
      var inner := Update(child, words[1..], op);
      RepeatChangesNothing(child, words[1..], op);
      UpdateIsObject(child, words[1..], op);
      PutSame(o, key, inner.doc, inner.doc);
    }
  }

  lemma RepeatApply(o: Json, key: string, op: Op)
    requires !op.Push? && Apply(o, key, op).Done?
    ensures Apply(Apply(o, key, op).doc, key, op) == Apply(o, key, op)
  {
    var v := Get(o, key);
    if CanPut(o, key) {
      var w := After(op, v);
      PutSame(o, key, w, After(op, w));
      PutSame(o, key, w, w);
      if op.AddToSet? {
        AddAllLaws(Items(v), op.values);
        AddNothing(AddAll(Items(v), op.values), op.values);
      } else if op.Pull? && v.Arr? {
        KeptTwice(op.rx, op.match_, v.items);
        KeptExactly(op.rx, op.match_, v.items);
        NotRefusedAgain(op, v.items, Kept(op.rx, op.match_, v.items));
      }
    }
  }

  lemma NotRefusedAgain(op: Op, items: seq<Json>, kept: seq<Json>)
    requires !Refused(op, items) && forall x :: multiset(kept)[x] == 0 || multiset(kept)[x] == multiset(items)[x]
    ensures !Refused(op, kept)
  {
    forall i | 0 <= i < |kept| ensures exists j :: 0 <= j < |items| && items[j] == kept[i] {
      assert kept[i] in multiset(kept);
      assert kept[i] in multiset(items);
    }
  }

  lemma UpdateIsObject(o: Json, words: seq<string>, op: Op)
    requires words != [] && Update(o, words, op).Done?
    ensures o.Obj? <==> Update(o, words, op).doc.Obj?
    ensures o.Arr? <==> Update(o, words, op).doc.Arr?
    ensures IsObject(o) && IsObject(Update(o, words, op).doc)
  {
  }

  lemma {:induction false} MissingNeverThrows(words: seq<string>, op: Op)
    requires words != [] && words[|words| - 1] != ""
    ensures !Update(EMPTY, words, op).Threw?
    decreases |words|
  {
    if |words| > 1 { MissingNeverThrows(words[1..], op); }
  }

  /** When an update throws, it leaves the document as it was, unless its path ends in a dot. */
  lemma {:induction false} ThrowLeavesDocument(o: Json, words: seq<string>, op: Op)
    requires words != [] && words[|words| - 1] != "" && Update(o, words, op).Threw?
    ensures Update(o, words, op).doc == o
    decreases |words|
  {
    if |words| > 1 {
      var key := words[0];
      if !Has(o, key) {
        MissingNeverThrows(words[1..], op);
      } else if IsObject(Get(o, key)) {
        ThrowLeavesDocument(Get(o, key), words[1..], op);
        PutSame(o, key, Null, Null);
      }
    }
  }

  /******* $addToSet and $pull *******/

  /** The old elements stay in front, nothing is missing, and nothing is added twice. */
  lemma {:induction false} AddAllLaws(items: seq<Json>, values: seq<Json>)
    ensures var all := AddAll(items, values);
            && items <= all
            && (forall x :: x in all <==> x in items || x in values)
            && (forall i, j :: 0 <= i < j < |all| && |items| <= j ==> all[i] != all[j])
    decreases |values|
  {
    if values != [] {
      var next := if values[0] in items then items else items + [values[0]];
      AddAllLaws(next, values[1..]);
      var all := AddAll(items, values);
      assert forall x :: x in values <==> x == values[0] || x in values[1..];
      forall i, j | 0 <= i < j < |all| && |items| <= j ensures all[i] != all[j] {
        if j < |next| {
          assert all[j] == next[j] == values[0] && all[i] == next[i] == items[i];
        }
      }
    }
  }

  lemma {:induction false} AddNothing(items: seq<Json>, values: seq<Json>)
    requires forall x :: x in values ==> x in items
    ensures AddAll(items, values) == items
  {
    if values != [] { AddNothing(items, values[1..]); }
  }

  /** Exactly the matching elements go; the others stay, as often as they were. */
  lemma {:induction false} KeptExactly(rx: RegexEngine, match_: Json, items: seq<Json>)
    ensures forall x :: multiset(Kept(rx, match_, items))[x] == if Removes(rx, match_, x) then 0 else multiset(items)[x]
  {
    if items != [] {
      KeptExactly(rx, match_, items[1..]);
      assert items == [items[0]] + items[1..];
    }
  }

  /** Elements keep their order: what stays of a list is what stays of its parts, one after the other. */
  lemma {:induction false} KeptInOrder(rx: RegexEngine, match_: Json, a: seq<Json>, b: seq<Json>)
    ensures Kept(rx, match_, a + b) == Kept(rx, match_, a) + Kept(rx, match_, b)
  {
    if a == [] {
      assert a + b == b;
    } else {
      KeptInOrder(rx, match_, a[1..], b);
      assert (a + b)[0] == a[0] && (a + b)[1..] == a[1..] + b;
      Associative(KeptOne(rx, match_, a[0]), Kept(rx, match_, a[1..]), Kept(rx, match_, b));
    }
  }

  lemma {:induction false} KeptTwice(rx: RegexEngine, match_: Json, items: seq<Json>)
    ensures Kept(rx, match_, Kept(rx, match_, items)) == Kept(rx, match_, items)
  {
    if items != [] {
      KeptTwice(rx, match_, items[1..]);
      var rest := Kept(rx, match_, items[1..]);
      if Removes(rx, match_, items[0]) {
        assert [] + rest == rest;
      } else {
        assert ([items[0]] + rest)[1..] == rest;
      }
    }
  }

  /******* Other paths *******/

  /** Neither path leads through the other. */
  predicate Apart(p: seq<string>, q: seq<string>) {
    !(p <= q) && !(q <= p)
  }

  lemma ApartStep(p: seq<string>, q: seq<string>)
    ensures Apart(p, q) <==> p != [] && q != [] && (p[0] != q[0] || Apart(p[1..], q[1..]))
  {
    if p != [] && q != [] && p[0] == q[0] {
      assert p == [p[0]] + p[1..] && q == [q[0]] + q[1..];
      assert p <= q <==> p[1..] <= q[1..];
      assert q <= p <==> q[1..] <= p[1..];
    }
  }

  /** The path q is the length of an array that an update at p makes longer. */
  ghost predicate Lengthens(o: Json, p: seq<string>, op: Op, q: seq<string>)
    requires p != []
    decreases |p|
  {
    q != [] &&
    if p[0] == q[0] then |p| > 1 && Has(o, p[0]) && Lengthens(Get(o, p[0]), p[1..], op, q[1..])
    else o.Arr? && !Has(o, p[0]) && q == ["length"] && (|p| > 1 || !(op.Unset? || op.Pull?))
  }

  /** Every path apart from the updated one reads the same as before; the one exception is the length of an
      array that grows. */
  lemma {:induction false} OtherPathsUnchanged(o: Json, p: seq<string>, op: Op, q: seq<string>)
    requires p != [] && Apart(p, q) && Update(o, p, op).Done?
    ensures ReadPath(Update(o, p, op).doc, q) == ReadPath(o, q) <==> !Lengthens(o, p, op, q)
    decreases |p|
  {
    ApartStep(p, q);
    var key := p[0];
    if q[0] != key {
      FirstWordsDiffer(o, p, op, q);
    } else {
      ApartStep(p[1..], q[1..]);
      var child := if Has(o, key) then Get(o, key) else EMPTY;
      var inner := Update(child, p[1..], op);
      OtherPathsUnchanged(child, p[1..], op, q[1..]);
      PutSame(o, key, inner.doc, Null);
      if !Has(o, key) {
        NothingWithin(EMPTY, q[1..]);
        NothingWithin(Undefined, q[1..]);
        assert !Lengthens(EMPTY, p[1..], op, q[1..]);
      }
    }
  }

  /** Setting the first element of an empty array changes what its length reads as. */
  lemma LengthChanges(v: Json)
    ensures var o, length := Obj(map["a" := Arr([])]), ["a", "length"]; var r := Update(o, ["a", "0"], Set(v));
            && Apart(["a", "0"], length) && r.Done?
            && ReadPath(o, length) == Num(0.0) && ReadPath(r.doc, length) == Num(1.0)
  {
    var before, p := Arr([]), ["a", "0"];
    assert p[1..] == ["0"] && ["a", "length"][1..] == ["length"] && ["length"][1..] == [];
    ZeroIsIndex();
    assert CanPut(before, "0") && Put(before, "0", v) == Arr([v]);
    assert Update(before, ["0"], Set(v)) == Done(Arr([v]));
  }

  lemma ZeroIsIndex()
    ensures IsIndex("0") && IndexValue("0") == 0 && !IsIndex("length")
  {
    assert "0"[..0] == [] && "length"[5] == 'h';
  }

  lemma FirstWordsDiffer(o: Json, p: seq<string>, op: Op, q: seq<string>)
    requires p != [] && q != [] && q[0] != p[0] && Update(o, p, op).Done?
    ensures ReadPath(Update(o, p, op).doc, q) == ReadPath(o, q) <==> !Lengthens(o, p, op, q)
  {
    var after := Update(o, p, op).doc;
    EffectIsUpdate(o, p, op);
    var e := EffectAt(Slot(o, p[0]), p[0], p[1..], op);
    if e.Write? {
      PutOther(o, p[0], e.v, q[0]);
      if |q| > 1 && q[0] == "length" && o.Arr? {
        NumberHasNothing(Get(o, q[0]), q[1..]);
        NumberHasNothing(Get(after, q[0]), q[1..]);
      }
      if q == ["length"] {
        ReadOne(o, "length");
        ReadOne(after, "length");
      }
    }
    assert q[0] == "length" ==> (q == ["length"] <==> |q| == 1);
  }

  lemma ReadOne(v: Json, word: string)
    ensures ReadPath(v, [word]) == Get(v, word)
  {
    assert [word][1..] == [];
  }

  lemma NumberHasNothing(v: Json, words: seq<string>)
    requires v.Num? && words != []
    ensures ReadPath(v, words) == Undefined
  {
    if |words| > 1 { NothingWithin(Undefined, words[1..]); }
  }

  /******* An update acts on one property *******/

  datatype Effect = Keep | Write(v: Json) | Delete | Stuck

  datatype Place = Nothing | Holding(v: Json)

  function Slot(o: Json, key: string): Place {
    if Has(o, key) then Holding(Get(o, key)) else Nothing
  }

  ghost function EffectAt(here: Place, key: string, rest: seq<string>, op: Op): Effect {
    if rest == [] then
      if key == "" then Stuck
      else if op.Set? then Write(op.value)
      else if op.Unset? then if here.Nothing? then Keep else Delete
      else if here.Holding? then if here.v.Arr? && !Refused(op, here.v.items) then Write(After(op, here.v)) else Stuck
      else if op.Pull? then Keep
      else Write(After(op, Undefined))
    else if here.Holding? && !IsObject(here.v) then Stuck
    else
      var inner := Update(if here.Holding? then here.v else EMPTY, rest, op);
      if inner.Done? then Write(inner.doc) else Stuck
  }

  predicate CanPerform(o: Json, key: string, e: Effect) {
    match e
    case Keep => o.Obj? || o.Arr?
    case Write(_) => CanPut(o, key)
    case Delete => o.Obj?
    case Stuck => false
  }

  function Perform(o: Json, key: string, e: Effect): Json
    requires CanPerform(o, key, e)
  {
    match e
    case Keep => o
    case Write(v) => Put(o, key, v)
    case Delete => Obj(o.fields - {key})
  }

  lemma EffectIsUpdate(o: Json, words: seq<string>, op: Op)
    requires words != []
    ensures var e := EffectAt(Slot(o, words[0]), words[0], words[1..], op);
            && (Update(o, words, op).Done? <==> CanPerform(o, words[0], e))
            && (Update(o, words, op).Done? ==> Update(o, words, op).doc == Perform(o, words[0], e))
  {
    LengthIsNoIndex();
  }

  lemma PerformCommutes(o: Json, k: string, e: Effect, k': string, e': Effect)
    requires k != k' && CanPerform(o, k, e) && CanPerform(o, k', e')
    ensures CanPerform(Perform(o, k, e), k', e') && CanPerform(Perform(o, k', e'), k, e)
    ensures Perform(Perform(o, k, e), k', e') == Perform(Perform(o, k', e'), k, e)
  {
    if e.Write? && e'.Write? {
      PutsCommute(o, k, e.v, k', e'.v);
    } else if e.Write? && e'.Delete? {
      assert o.fields[k := e.v] - {k'} == (o.fields - {k'})[k := e.v];
    } else if e.Delete? && e'.Write? {
      assert o.fields[k' := e'.v] - {k} == (o.fields - {k})[k' := e'.v];
    } else if e.Delete? && e'.Delete? {
      assert (o.fields - {k}) - {k'} == (o.fields - {k'}) - {k};
    }
  }

  lemma SlotStable(o: Json, k: string, e: Effect, k': string)
    requires k != k' && CanPerform(o, k, e) && !(o.Arr? && k' == "length")
    ensures Slot(Perform(o, k, e), k') == Slot(o, k')
  {
    if e.Write? { PutOther(o, k, e.v, k'); }
  }

  lemma LengthIsStuck(o: Json, words: seq<string>, op: Op)
    requires words != [] && o.Arr? && words[0] == "length"
    ensures !Update(o, words, op).Done?
  {
    LengthIsNoIndex();
  }

  lemma DifferentPropertiesCommute(o: Json, p: seq<string>, op: Op, q: seq<string>, op': Op)
    requires p != [] && q != [] && p[0] != q[0] && Update(o, p, op).Done? && Update(o, q, op').Done?
    ensures var first, second := Update(o, p, op).doc, Update(o, q, op').doc;
            Update(first, q, op').Done? && Update(first, q, op') == Update(second, p, op)
  {
    if o.Arr? {
      if p[0] == "length" { LengthIsStuck(o, p, op); }
      if q[0] == "length" { LengthIsStuck(o, q, op'); }
    }
    EffectIsUpdate(o, p, op);
    EffectIsUpdate(o, q, op');
    EffectIsUpdate(Update(o, p, op).doc, q, op');
    EffectIsUpdate(Update(o, q, op').doc, p, op);
    var e, e' := EffectAt(Slot(o, p[0]), p[0], p[1..], op), EffectAt(Slot(o, q[0]), q[0], q[1..], op');
    SlotStable(o, p[0], e, q[0]);
    SlotStable(o, q[0], e', p[0]);
    PerformCommutes(o, p[0], e, q[0], e');
  }

  /** Updates at paths apart from each other commute, whatever their operators. */
  lemma {:induction false} UpdatesCommute(o: Json, p: seq<string>, op: Op, q: seq<string>, op': Op)
    requires p != [] && q != [] && Apart(p, q) && Update(o, p, op).Done? && Update(o, q, op').Done?
    ensures var first, second := Update(o, p, op).doc, Update(o, q, op').doc;
            Update(first, q, op').Done? && Update(first, q, op') == Update(second, p, op)
    decreases |p|
  {
    ApartStep(p, q);
    if p[0] != q[0] {
      DifferentPropertiesCommute(o, p, op, q, op');
    } else {
      ApartStep(p[1..], q[1..]);
      var child := if Has(o, p[0]) then Get(o, p[0]) else EMPTY;
      UpdatesCommute(child, p[1..], op, q[1..], op');
      ThenWithin(o, p, op, q, op', child);
      ThenWithin(o, q, op', p, op, child);
    }
  }

  /** One update after another within the same property. */
  lemma ThenWithin(o: Json, p: seq<string>, op: Op, q: seq<string>, op': Op, child: Json)
    requires |p| > 1 && |q| > 1 && p[0] == q[0] && Update(o, p, op).Done?
    requires child == if Has(o, p[0]) then Get(o, p[0]) else EMPTY
    ensures Update(child, p[1..], op).Done?
    ensures var one := Update(child, p[1..], op).doc;
            var two := Update(one, q[1..], op');
            CanPut(o, p[0]) && (two.Done? ==> Update(Update(o, p, op).doc, q, op') == Done(Put(o, p[0], two.doc)))
  {
    UpdateIsObject(child, p[1..], op);
    var one := Update(child, p[1..], op).doc;
    var two := Update(one, q[1..], op');
    PutSame(o, p[0], one, if two.Done? then two.doc else Null);
  }
}
