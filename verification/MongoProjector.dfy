/** Projecting a document: the specifier is flattened, and one path after another is copied. */
module MongoProjector {
  import opened Wrappers
  import opened MongoJson
  import opened MongoUpdate
  import opened MongoProjection
  import opened MongoProjectionLaws

  /******* Copying one path *******/

  /** The targets passed on the way, each with the next one put back into it. */
  function PutBack(targets: seq<Json>, parts: seq<string>, v: Json): Json
    requires |targets| <= |parts|
  {
    if targets == [] then v
    else PutBack(targets[..|targets| - 1], parts, PutAny(targets[|targets| - 1], parts[|targets| - 1], v))
  }

  lemma PutBackStep(targets: seq<Json>, parts: seq<string>, o: Json, v: Json)
    requires |targets| < |parts|
    ensures PutBack(targets + [o], parts, v) == PutBack(targets, parts, PutAny(o, parts[|targets|], v))
  {
    assert (targets + [o])[..|targets|] == targets;
  }

  method ProjectFieldIntoDoc(source: Json, target: Json, parts: seq<string>) returns (r: Json)
    requires parts != []
    ensures r == Into(source, target, parts, true)
    decreases |parts|, source, 1
  {
    var currentSource, currentTarget := source, target;
    var targets: seq<Json>, i := [], 0;
    assert parts[0..] == parts;
    while true
      invariant |targets| == i < |parts|
      invariant i == 0 ==> currentSource == source
      invariant Into(source, target, parts, true) ==
                PutBack(targets, parts, Into(currentSource, currentTarget, parts[i..], i == 0))
      decreases |parts| - i
    {
      var part, isLast := parts[i], i == |parts| - 1;
      if Missing(currentSource) {
        return PutBack(targets, parts, currentTarget);
      }
      if currentSource.Arr? {
        if !currentTarget.Arr? {
          if i == 0 { return target; }
          currentTarget := Arr([]);
        }
        r := ProjectEach(currentSource, currentTarget.items, parts[i..]);
        return PutBack(targets, parts, r);
      }
      if isLast {
        if Get(currentSource, part) != Undefined {
          currentTarget := PutAny(currentTarget, part, Get(currentSource, part));
        }
        return PutBack(targets, parts, currentTarget);
      }
      var child := Start(currentSource, currentTarget, part);
      assert parts[i..][1..] == parts[i + 1..];
      PutBackStep(targets, parts, currentTarget, Into(Get(currentSource, part), child, parts[i + 1..], false));
      targets, i := targets + [currentTarget], i + 1;
      currentSource, currentTarget := Get(currentSource, part), child;
    }
  }

  method ProjectEach(source: Json, before: seq<Json>, parts: seq<string>) returns (r: Json)
    requires source.Arr? && parts != []
    ensures r == IntoEach(source, before, parts)
    decreases |parts|, source, 0
  {
    var items := before;
    for j := 0 to |source.items|
      invariant |items| == if j > |before| then j else |before|
      invariant forall k :: 0 <= k < j ==> items[k] == Into(source.items[k], ElementOr(before, k), parts, true)
      invariant forall k :: j <= k < |before| ==> items[k] == before[k]
    {
      var projected := ProjectFieldIntoDoc(source.items[j], ElementOr(items, j), parts);
      items := if j < |items| then items[j := projected] else items + [projected];
    }
    r := Arr(items);
    assert r.items == IntoEach(source, before, parts).items;
  }

  /******* Flattening a specifier *******/

  type Leaf = (string, bool)

  function Joined(key: string, k: string): string {
    key + "." + k
  }

  function PathOf(prefix: string, key: string): string {
    if prefix == "" then key else Joined(prefix, key)
  }

  /** The dotted paths of a specifier, and whether each is wanted. */
  ghost function Leaves(v: Json, path: string): set<Leaf> {
    match v
    case Obj(fields) => set key, leaf | key in fields && leaf in Leaves(fields[key], PathOf(path, key)) :: leaf
    case Regex(_) => {}
    case _ => {(path, v != Num(0.0))}
  }

  ghost predicate NoClash(leaves: set<Leaf>) {
    forall a, b :: a in leaves && b in leaves && a.0 == b.0 ==> a == b
  }

  /** An embedded specifier, with its key put in front of its own keys. */
  ghost function Dotted(key: string, embedded: map<string, Json>): map<string, Json> {
    map path | path in DottedKeys(key, embedded) :: embedded[path[|key| + 1..]]
  }

  ghost function DottedKeys(key: string, embedded: map<string, Json>): set<string> {
    set k | k in embedded :: Joined(key, k)
  }

  lemma DottedKey(key: string, embedded: map<string, Json>, prefix: string, k: string)
    requires key != "" && k in embedded
    ensures Joined(key, k) in Dotted(key, embedded) && Dotted(key, embedded)[Joined(key, k)] == embedded[k]
    ensures PathOf(prefix, Joined(key, k)) == PathOf(PathOf(prefix, key), k)
  {
    assert Joined(key, k) in DottedKeys(key, embedded) && Joined(key, k)[|key| + 1..] == k;
    assert (prefix + "." + key) + "." + k == prefix + "." + (key + "." + k);
  }

  /** What a key contributes to the leaves. */
  ghost predicate LeafAt(fields: map<string, Json>, prefix: string, key: string, leaf: Leaf) {
    key in fields && leaf in Leaves(fields[key], PathOf(prefix, key))
  }

  lemma LeavesByKey(fields: map<string, Json>, prefix: string, leaf: Leaf)
    ensures leaf in Leaves(Obj(fields), prefix) <==> exists key :: LeafAt(fields, prefix, key, leaf)
  {
    if leaf in Leaves(Obj(fields), prefix) {
      var key :| key in fields && leaf in Leaves(fields[key], PathOf(prefix, key));
      assert LeafAt(fields, prefix, key, leaf);
    }
  }

  /** Embedded and dotted specifiers come to the same. */
  lemma EmbeddedIsDotted(others: map<string, Json>, key: string, embedded: map<string, Json>, prefix: string)
    requires key != "" && key !in others && forall path :: path in Dotted(key, embedded) ==> path !in others
    ensures Leaves(Obj(others[key := Obj(embedded)]), prefix) == Leaves(Obj(others + Dotted(key, embedded)), prefix)
  {
    forall leaf ensures leaf in Leaves(Obj(others[key := Obj(embedded)]), prefix) <==>
                        leaf in Leaves(Obj(others + Dotted(key, embedded)), prefix) {
      LeafEitherWay(others, key, embedded, prefix, leaf);
    }
  }

  lemma LeafEitherWay(others: map<string, Json>, key: string, embedded: map<string, Json>, prefix: string, leaf: Leaf)
    requires key != "" && key !in others && forall path :: path in Dotted(key, embedded) ==> path !in others
    ensures leaf in Leaves(Obj(others[key := Obj(embedded)]), prefix) <==>
            leaf in Leaves(Obj(others + Dotted(key, embedded)), prefix)
  {
    var one, other := others[key := Obj(embedded)], others + Dotted(key, embedded);
    LeavesByKey(one, prefix, leaf);
    LeavesByKey(other, prefix, leaf);
    LeavesByKey(embedded, PathOf(prefix, key), leaf);
    if k :| LeafAt(one, prefix, k, leaf) {
      if k == key {
        var l :| LeafAt(embedded, PathOf(prefix, key), l, leaf);
        DottedKey(key, embedded, prefix, l);
        assert LeafAt(other, prefix, Joined(key, l), leaf);
      } else {
        assert LeafAt(other, prefix, k, leaf);
      }
    }
    if k :| LeafAt(other, prefix, k, leaf) {
      if k in Dotted(key, embedded) {
        var l :| l in embedded && k == Joined(key, l);
        DottedKey(key, embedded, prefix, l);
        assert LeafAt(embedded, PathOf(prefix, key), l, leaf);
        assert LeafAt(one, prefix, key, leaf);
      } else {
        assert LeafAt(one, prefix, k, leaf);
      }
    }
  }

  method FlattenProjection(projection: Json, prefix: string, out: map<string, bool>) returns (out': map<string, bool>)
    requires projection.Obj?
    ensures forall leaf :: leaf in Leaves(projection, prefix) ==> leaf.0 in out'
    ensures forall path :: path in out ==> path in out'
    ensures forall path :: path in out' ==>
              (path, out'[path]) in Leaves(projection, prefix) || (path in out && out[path] == out'[path])
    decreases projection
  {
    out' := out;
    var todo := projection.fields.Keys;
    while todo != {}
      invariant todo <= projection.fields.Keys
      invariant forall key :: key in projection.fields && key !in todo ==>
                  forall leaf :: leaf in Leaves(projection.fields[key], PathOf(prefix, key)) ==> leaf.0 in out'
      invariant forall path :: path in out ==> path in out'
      invariant forall path :: path in out' ==>
                (path, out'[path]) in Leaves(projection, prefix) || (path in out && out[path] == out'[path])
      decreases todo
    {
      var key :| key in todo;
      var value, path := projection.fields[key], PathOf(prefix, key);
      if value.Obj? {
        out' := FlattenProjection(value, path, out');
      } else if !value.Regex? {
        assert (path, value != Num(0.0)) in Leaves(value, path);
        out' := out'[path := value != Num(0.0)];
      }
      todo := todo - {key};
    }
  }

  /******* Projecting a document *******/

  lemma {:induction false} WordsTellPathsApart(a: string, b: string)
    requires Words(a) == Words(b)
    ensures a == b
    decreases |a|
  {
    assert HasDot(a) ==> Words(a)[1..] == Words(Rest(a));
    assert HasDot(b) ==> Words(b)[1..] == Words(Rest(b));
    if HasDot(a) && HasDot(b) {
      WordsTellPathsApart(Rest(a), Rest(b));
      HeadAndRest(a);
      HeadAndRest(b);
    } else {
      assert |Words(a)| == |Words(b)| == 1;
    }
  }

  lemma {:induction false} HeadAndRest(key: string)
    requires HasDot(key)
    ensures key == Head(key) + "." + Rest(key)
  {
    if key[0] != '.' {
      HeadAndRest(key[1..]);
      assert key == [key[0]] + key[1..];
    }
  }

  /** Excluded is a projection by exclusion, which is not part of this model; Mixed is an error. */
  datatype Projection = Projected(doc: Json) | Mixed | Excluded

  ghost predicate Includes(leaves: set<Leaf>) {
    exists path :: path != "_id" && (path, true) in leaves
  }

  ghost predicate Excludes(leaves: set<Leaf>) {
    exists path :: path != "_id" && (path, false) in leaves
  }

  /** The included paths, with the id unless it is excluded. */
  ghost function Wanted(leaves: set<Leaf>): Paths {
    (set leaf | leaf in leaves && leaf.1 && leaf.0 != "_id" :: Words(leaf.0)) +
    (if ("_id", false) in leaves then {} else {["_id"]})
  }

  /** The result depends on nothing but the leaves of the specifier. */
  method MongoProjectDocument(doc: Json, projection: Option<map<string, Json>>) returns (r: Projection)
    requires doc.Obj?
    ensures projection.None? ==> r == Projected(doc)
    ensures projection.Some? ==>
              var leaves := Leaves(Obj(projection.value), "");
              NoClash(leaves) ==>
                && (r == Mixed <==> Includes(leaves) && Excludes(leaves))
                && (Includes(leaves) && !Excludes(leaves) && PrefixFree(Wanted(leaves)) ==>
                      r == Projected(TrimElement(doc, Wanted(leaves))))
                && (!Includes(leaves) ==>
                      r == if Excludes(leaves) || ("_id", false) in leaves then Excluded else Projected(doc))
  {
    if projection.None? { return Projected(doc); }
    ghost var leaves := Leaves(Obj(projection.value), "");
    var proj := FlattenProjection(Obj(projection.value), "", map[]);
    assert NoClash(leaves) ==> Flat(proj, leaves);
    var idExcluded := "_id" in proj && !proj["_id"];
    var includeKeys := set key | key in proj && key != "_id" && proj[key];
    var excludeKeys := set key | key in proj && key != "_id" && !proj[key];
    if Flat(proj, leaves) { KeysOfLeaves(proj, leaves, includeKeys, excludeKeys); }
    if includeKeys != {} && excludeKeys != {} { return Mixed; }
    if includeKeys == {} {
      return if excludeKeys != {} || idExcluded then Excluded else Projected(doc);
    }
    if !idExcluded { includeKeys := includeKeys + {"_id"}; }
    var newDoc := ProjectKeys(doc, includeKeys);
    r := Projected(newDoc);
  }

  /** A map of flags that says what the leaves say. */
  ghost predicate Flat(proj: map<string, bool>, leaves: set<Leaf>) {
    forall path, b :: (path, b) in leaves <==> path in proj && proj[path] == b
  }

  lemma KeysOfLeaves(proj: map<string, bool>, leaves: set<Leaf>, includeKeys: set<string>, excludeKeys: set<string>)
    requires Flat(proj, leaves)
    requires includeKeys == set key | key in proj && key != "_id" && proj[key]
    requires excludeKeys == set key | key in proj && key != "_id" && !proj[key]
    ensures includeKeys != {} <==> Includes(leaves)
    ensures excludeKeys != {} <==> Excludes(leaves)
    ensures "_id" in proj && !proj["_id"] <==> ("_id", false) in leaves
    ensures WordsOf(if ("_id", false) in leaves then includeKeys else includeKeys + {"_id"}) == Wanted(leaves)
  {
    forall path ensures path in includeKeys <==> path != "_id" && (path, true) in leaves {}
    forall path ensures path in excludeKeys <==> path != "_id" && (path, false) in leaves {}
    forall p ensures p in WordsOf(includeKeys) <==>
        p in set leaf | leaf in leaves && leaf.1 && leaf.0 != "_id" :: Words(leaf.0) {
      if p in WordsOf(includeKeys) {
        var key :| key in includeKeys && Words(key) == p;
        assert (key, true) in leaves;
      }
      if leaf: Leaf :| leaf in leaves && leaf.1 && leaf.0 != "_id" && Words(leaf.0) == p {
        assert leaf == (leaf.0, true) && leaf.0 in includeKeys;
      }
    }
    assert Words("_id") == ["_id"];
    assert WordsOf(includeKeys + {"_id"}) == WordsOf(includeKeys) + {["_id"]};
  }

  ghost function WordsOf(keys: set<string>): Paths {
    set key | key in keys :: Words(key)
  }

  /** The wanted keys, in any order. */
  method ProjectKeys(doc: Json, keys: set<string>) returns (newDoc: Json)
    requires doc.Obj?
    ensures PrefixFree(WordsOf(keys)) ==> newDoc == TrimElement(doc, WordsOf(keys))
  {
    newDoc := EMPTY;
    ghost var list: seq<seq<string>> := [];
    var todo := keys;
    while todo != {}
      invariant todo <= keys && [] !in list
      invariant newDoc == IntoAll(doc, EMPTY, list)
      invariant forall p :: p in list <==> p in WordsOf(keys - todo)
      invariant forall i, j :: 0 <= i < j < |list| ==> list[i] != list[j]
      decreases todo
    {
      var key :| key in todo;
      newDoc := ProjectFieldIntoDoc(doc, newDoc, Words(key));
      forall other | other in keys - todo ensures Words(other) != Words(key) {
        if Words(other) == Words(key) { WordsTellPathsApart(other, key); }
      }
      assert Words(key) !in list;
      assert (list + [Words(key)])[..|list|] == list;
      list := list + [Words(key)];
      assert WordsOf(keys - (todo - {key})) == WordsOf(keys - todo) + {Words(key)} by {
        assert keys - (todo - {key}) == (keys - todo) + {key};
      }
      todo := todo - {key};
    }
    assert keys - todo == keys;
    assert WordsOf(keys) == set p | p in list;
    if PrefixFree(WordsOf(keys)) {
      forall i, j | 0 <= i < j < |list| ensures Apart(list[i], list[j]) {
        assert list[i] in WordsOf(keys) && list[j] in WordsOf(keys);
      }
      PathByPath(doc, list);
    }
  }

  /******* One field *******/

  /** Including one field gives that field and the id, or that field alone when the id is excluded. */
  method ProjectOneField(fields: map<string, Json>, key: string) returns (withId: Projection, alone: Projection)
    requires key != "" && key != "_id" && !HasDot(key) && forall k :: k in fields ==> fields[k] != Undefined
    ensures withId == Projected(Obj(map k | k in fields && k in {key, "_id"} :: fields[k]))
    ensures alone == Projected(Obj(map k | k in fields && k in {key} :: fields[k]))
  {
    withId := ProjectWithId(fields, key);
    alone := ProjectAlone(fields, key);
  }

  /** A specifier that includes these paths, none of them twice or within another. */
  ghost predicate PlainInclusion(spec: map<string, Json>, wanted: Paths) {
    var leaves := Leaves(Obj(spec), "");
    NoClash(leaves) && Includes(leaves) && !Excludes(leaves) && Wanted(leaves) == wanted && PrefixFree(wanted)
  }

  method ProjectWanted(doc: Json, spec: map<string, Json>, ghost wanted: Paths) returns (r: Projection)
    requires doc.Obj? && PlainInclusion(spec, wanted)
    ensures r == Projected(TrimElement(doc, wanted))
  {
    r := MongoProjectDocument(doc, Some(spec));
  }

  method ProjectWithId(fields: map<string, Json>, key: string) returns (r: Projection)
    requires key != "" && key != "_id" && !HasDot(key) && forall k :: k in fields ==> fields[k] != Undefined
    ensures r == Projected(Obj(map k | k in fields && k in {key, "_id"} :: fields[k]))
  {
    OneWordTrim(fields, {key, "_id"}, {[key], ["_id"]});
    SpecWithId(key);
    r := ProjectWanted(Obj(fields), map[key := Num(1.0)], {[key], ["_id"]});
  }

  lemma SpecWithId(key: string)
    requires key != "" && key != "_id" && !HasDot(key)
    ensures PlainInclusion(map[key := Num(1.0)], {[key], ["_id"]})
  {
    LeavesOfOne(key);
    WantedWithId(key);
  }

  method ProjectAlone(fields: map<string, Json>, key: string) returns (r: Projection)
    requires key != "" && key != "_id" && !HasDot(key) && forall k :: k in fields ==> fields[k] != Undefined
    ensures r == Projected(Obj(map k | k in fields && k in {key} :: fields[k]))
  {
    OneWordTrim(fields, {key}, {[key]});
    SpecAlone(key);
    r := ProjectWanted(Obj(fields), map[key := Num(1.0), "_id" := Num(0.0)], {[key]});
  }

  lemma SpecAlone(key: string)
    requires key != "" && key != "_id" && !HasDot(key)
    ensures PlainInclusion(map[key := Num(1.0), "_id" := Num(0.0)], {[key]})
  {
    LeavesOfTwo(key);
    WantedAlone(key);
  }

  lemma LeavesOfOne(key: string)
    requires key != "" && key != "_id"
    ensures Leaves(Obj(map[key := Num(1.0)]), "") == {(key, true)}
  {
    var fields := map[key := Num(1.0)];
    assert PathOf("", key) == key && Leaves(fields[key], key) == {(key, true)};
    forall leaf ensures leaf in Leaves(Obj(fields), "") <==> leaf == (key, true) {
      assert key in fields;
    }
  }

  lemma LeavesOfTwo(key: string)
    requires key != "" && key != "_id"
    ensures Leaves(Obj(map[key := Num(1.0), "_id" := Num(0.0)]), "") == {(key, true), ("_id", false)}
  {
    var fields := map[key := Num(1.0), "_id" := Num(0.0)];
    assert PathOf("", key) == key && Leaves(fields[key], key) == {(key, true)};
    assert PathOf("", "_id") == "_id" && Leaves(fields["_id"], "_id") == {("_id", false)};
    forall leaf ensures leaf in Leaves(Obj(fields), "") <==> leaf == (key, true) || leaf == ("_id", false) {
      assert key in fields && "_id" in fields;
    }
  }

  lemma WantedWithId(key: string)
    requires key != "" && key != "_id" && !HasDot(key)
    ensures var leaves := {(key, true)};
            && NoClash(leaves) && Includes(leaves) && !Excludes(leaves)
            && Wanted(leaves) == {[key], ["_id"]} && PrefixFree(Wanted(leaves))
  {
    var leaves := {(key, true)};
    assert (key, true) in leaves && Words(key) == [key];
    assert (set leaf | leaf in leaves && leaf.1 && leaf.0 != "_id" :: Words(leaf.0)) == {[key]};
    OneWordApart({[key], ["_id"]});
  }

  lemma WantedAlone(key: string)
    requires key != "" && key != "_id" && !HasDot(key)
    ensures var leaves := {(key, true), ("_id", false)};
            && NoClash(leaves) && Includes(leaves) && !Excludes(leaves)
            && Wanted(leaves) == {[key]} && PrefixFree(Wanted(leaves))
  {
    var leaves := {(key, true), ("_id", false)};
    assert (key, true) in leaves && ("_id", false) in leaves && Words(key) == [key];
    assert (set leaf | leaf in leaves && leaf.1 && leaf.0 != "_id" :: Words(leaf.0)) == {[key]};
    OneWordApart({[key]});
  }

  lemma OneWordApart(ps: Paths)
    requires forall p :: p in ps ==> |p| == 1
    ensures PrefixFree(ps)
  {
  }

  lemma OneWordTrim(fields: map<string, Json>, keys: set<string>, ps: Paths)
    requires forall k :: k in fields ==> fields[k] != Undefined
    requires (forall p :: p in ps ==> |p| == 1 && p[0] in keys) && forall k :: k in keys ==> [k] in ps
    ensures TrimElement(Obj(fields), ps) == Obj(map k | k in fields && k in keys :: fields[k])
  {
    var trimmed := TrimObject(Obj(fields), ps).fields;
    forall k ensures k in Heads(ps) <==> k in keys {
      if k in keys { assert [k] in ps && [k][0] == k; }
    }
    forall k ensures k in trimmed <==> k in fields && k in keys {}
    assert trimmed == map k | k in fields && k in keys :: fields[k];
  }
}
