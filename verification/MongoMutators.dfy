/**
 * Update operators applied to a document: the walk along a path, the mutators, and whole modifiers.
 *
 * A document is a value here, so the objects passed on the way down are kept on a list, and each is put back
 * into its parent in the end.
 */
module MongoMutators {
  import opened Wrappers
  import opened MongoJson
  import opened MongoSemantics
  import opened MongoErrors
  import opened MongoUpdate
  import MongoMatcher

  /******* Walking a path *******/

  /** The outcome for the root, from that for the object the walk has come to. */
  function Rebuild(parents: seq<Json>, attrs: seq<string>, r: Outcome): Outcome
    requires |parents| <= |attrs|
  {
    if parents == [] then r
    else Rebuild(parents[..|parents| - 1], attrs, Within(parents[|parents| - 1], attrs[|parents| - 1], r))
  }

  lemma {:induction false} RebuildBeyond(parents: seq<Json>, attrs: seq<string>)
    requires |parents| <= |attrs|
    ensures Rebuild(parents, attrs, Beyond) == Beyond
  {
    if parents != [] { RebuildBeyond(parents[..|parents| - 1], attrs); }
  }

  lemma RebuildStep(parents: seq<Json>, attrs: seq<string>, o: Json, r: Outcome)
    requires |parents| < |attrs|
    ensures Rebuild(parents + [o], attrs, r) == Rebuild(parents, attrs, Within(o, attrs[|parents|], r))
  {
    assert (parents + [o])[..|parents|] == parents;
  }

  /** The walk has come to o: what is left to do there settles the outcome for the document. */
  ghost predicate Walked(doc: Json, attrs: seq<string>, parents: seq<Json>, o: Json, op: Op)
    requires |parents| < |attrs|
  {
    Update(doc, attrs, op) == Rebuild(parents, attrs, Update(o, attrs[|parents|..], op))
  }

  lemma WalksOn(doc: Json, attrs: seq<string>, parents: seq<Json>, o: Json, op: Op, next: Json)
    requires |parents| < |attrs| - 1 && Walked(doc, attrs, parents, o, op)
    requires var attr := attrs[|parents|];
             CanPut(o, attr) && if Has(o, attr) then next == Get(o, attr) && IsObject(next) else next == EMPTY
    ensures Walked(doc, attrs, parents + [o], next, op)
  {
    var i := |parents|;
    var attr, rest := attrs[i], attrs[i..];
    assert rest[0] == attr && rest[1..] == attrs[i + 1..];
    RebuildStep(parents, attrs, o, Update(next, attrs[i + 1..], op));
  }

  method MutatePath(doc: Json, path: string, op: Op) returns (r: Outcome)
    requires "$" !in Words(path)
    ensures r == Update(doc, Words(path), op)
  {
    var attrs := Words(path);
    if path == "" { return Threw(doc); }
    var parents: seq<Json>, o := [], doc;
    for i := 0 to |attrs| - 1
      invariant |parents| == i
      invariant Walked(doc, attrs, parents, o, op)
    {
      var attr, next := attrs[i], EMPTY;
      if !Has(o, attr) {
        if !CanPut(o, attr) {
          RebuildBeyond(parents, attrs);
          return Beyond;
        }
      } else {
        next := Get(o, attr);
        if !IsObject(next) {
          return Rebuild(parents, attrs, Threw(o));
        }
      }
      WalksOn(doc, attrs, parents, o, op, next);
      parents, o := parents + [o], next;
    }
    var lastAttr := attrs[|attrs| - 1];
    assert attrs[|attrs| - 1..] == [lastAttr];
    if lastAttr == "" {
      return Rebuild(parents, attrs, Threw(o));
    }
    r := Mutator(o, lastAttr, op);
    r := Rebuild(parents, attrs, r);
  }

  /******* Mutators *******/

  method Mutator(o: Json, key: string, op: Op) returns (r: Outcome)
    ensures r == Apply(o, key, op)
  {
    if !o.Obj? && !o.Arr? { return Beyond; }
    match op {
      case Set(value) =>
        r := if CanPut(o, key) then Done(Put(o, key, value)) else Beyond;
      case Unset =>
        r := if !Has(o, key) then Done(o) else if o.Obj? then Done(Obj(o.fields - {key})) else Beyond;
      case Push(values) =>
        r := PushMutator(o, key, values);
      case AddToSet(values) =>
        r := AddToSetMutator(o, key, values);
      case Pull(rx, order, match_) =>
        r := PullMutator(rx, order, o, key, match_);
    }
  }

  method PushMutator(o: Json, key: string, values: seq<Json>) returns (r: Outcome)
    requires o.Obj? || o.Arr?
    ensures r == Apply(o, key, Push(values))
  {
    if Has(o, key) && !Get(o, key).Arr? { return Threw(o); }
    if !CanPut(o, key) { return Beyond; }
    var arr := if Has(o, key) then Get(o, key).items else [];
    r := Done(Put(o, key, Arr(arr + values)));
  }

  method AddToSetMutator(o: Json, key: string, values: seq<Json>) returns (r: Outcome)
    requires o.Obj? || o.Arr?
    ensures r == Apply(o, key, AddToSet(values))
  {
    if Has(o, key) && !Get(o, key).Arr? { return Threw(o); }
    if !CanPut(o, key) { return Beyond; }
    var old_ := if Has(o, key) then Get(o, key).items else [];
    var arr := old_;
    for i := 0 to |values|
      invariant AddAll(old_, values) == AddAll(arr, values[i..])
    {
      assert values[i..][1..] == values[i + 1..];
      if !exists j :: 0 <= j < |arr| && arr[j] == values[i] {
        arr := arr + [values[i]];
      }
    }
    r := Done(Put(o, key, Arr(arr)));
  }

  method PullMutator(rx: RegexEngine, order: KeyOrder, o: Json, key: string, match_: Json) returns (r: Outcome)
    requires o.Obj? || o.Arr?
    ensures r == Apply(o, key, Pull(rx, order, match_))
  {
    if !Has(o, key) { return Done(o); }
    var arrAttr := Get(o, key);
    if !arrAttr.Arr? { return Threw(o); }
    var ok, kept := Filter(rx, order, arrAttr.items, match_);
    r := if ok then Done(Put(o, key, Arr(kept))) else Threw(o);
  }

  /** The elements that stay, unless the matcher throws at one of them. */
  method Filter(rx: RegexEngine, order: KeyOrder, items: seq<Json>, match_: Json) returns (ok: bool, kept: seq<Json>)
    ensures ok <==> !Refused(Pull(rx, order, match_), items)
    ensures ok ==> kept == Kept(rx, match_, items)
  {
    ok, kept := true, [];
    for i := 0 to |items|
      invariant kept == Kept(rx, match_, items[..i]) && NoneRefused(rx, order, match_, items, i)
    {
      var gone: bool;
      ok, gone := Pulled(rx, order, items[i], match_);
      if !ok { return; }
      KeptNext(rx, match_, items, i);
      OneMoreIsNotRefused(rx, order, match_, items, i);
      kept := kept + (if gone then [] else [items[i]]);
    }
    assert items[..|items|] == items;
  }

  /** Whether an element is removed, in one of three ways. */
  method Pulled(rx: RegexEngine, order: KeyOrder, entry: Json, match_: Json) returns (ok: bool, gone: bool)
    ensures ok <==> !EntryRefused(rx, order, match_, entry)
    ensures ok ==> gone == Removes(rx, match_, entry)
  {
    ok := true;
    if match_.Obj? && "$in" in match_.fields && match_.fields["$in"].Arr? {
      gone := entry in match_.fields["$in"].items;
    } else if IsObject(match_) {
      var matched := MongoMatcher.MongoWhere(rx, order, entry, match_);
      ok, gone := matched.Returned?, matched == MongoMatcher.Returned(true);
    } else {
      gone := entry == match_;
    }
  }

  ghost predicate EntryRefused(rx: RegexEngine, order: KeyOrder, match_: Json, entry: Json) {
    !IsList(match_) && IsObject(match_) && Throws(rx, order, entry, match_)
  }

  ghost predicate NoneRefused(rx: RegexEngine, order: KeyOrder, match_: Json, items: seq<Json>, n: nat)
    requires n <= |items|
  {
    forall j :: 0 <= j < n ==> !EntryRefused(rx, order, match_, items[j])
  }

  lemma OneMoreIsNotRefused(rx: RegexEngine, order: KeyOrder, match_: Json, items: seq<Json>, n: nat)
    requires n < |items| && NoneRefused(rx, order, match_, items, n) && !EntryRefused(rx, order, match_, items[n])
    ensures NoneRefused(rx, order, match_, items, n + 1)
  {
    forall j | 0 <= j < n + 1 ensures !EntryRefused(rx, order, match_, items[j]) {
      if j == n { assert items[j] == items[n]; }
    }
  }

  lemma KeptNext(rx: RegexEngine, match_: Json, items: seq<Json>, i: nat)
    requires i < |items|
    ensures Kept(rx, match_, items[..i + 1]) == Kept(rx, match_, items[..i]) + KeptOne(rx, match_, items[i])
  {
    KeptInOrder(rx, match_, items[..i], [items[i]]);
    assert items[..i + 1] == items[..i] + [items[i]];
    assert Kept(rx, match_, [items[i]]) == KeptOne(rx, match_, items[i]) + [];
  }
}
