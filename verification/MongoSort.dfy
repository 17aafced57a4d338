/** Sorting and paging of query results. */
module MongoSort {
  import opened Wrappers
  import opened JsStrings
  import opened MongoJson

  /** One entry of a sort specifier: 1 is ascending, -1 descending and 0 leaves the path out. */
  datatype SortKey = SortKey(path: string, order: int)

  function Keys(spec: seq<SortKey>): (keys: seq<SortKey>) {
    if spec == [] then []
    else if spec[0].order != 0 then [spec[0]] + Keys(spec[1..])
    else Keys(spec[1..])
  }

  /** The value at a dotted path; the empty path leads to the document itself. */
  function ValueAt(doc: Json, path: string): Json {
    if path == "" then doc else ReadPath(doc, Words(path))
  }

  predicate Empty(v: Json) {
    v == Undefined || v == Null
  }

  function CompareValues(a: Json, b: Json): int {
    if a == b || (Empty(a) && Empty(b)) then 0
    else if Empty(a) then -1
    else if Empty(b) then 1
    else if Less(b, a) then 1
    else -1
  }

  function CompareKey(key: SortKey, a: Json, b: Json): int {
    if key.order > 0 then CompareValues(ValueAt(a, key.path), ValueAt(b, key.path))
    else CompareValues(ValueAt(b, key.path), ValueAt(a, key.path))
  }

  function CompareIds(a: Json, b: Json): int {
    var x, y := Get(a, "_id"), Get(b, "_id");
    if Less(x, y) then -1 else if Less(y, x) then 1 else 0
  }

  function Compare(spec: seq<SortKey>, a: Json, b: Json): int {
    if spec == [] then CompareIds(a, b)
    else if CompareKey(spec[0], a, b) != 0 then CompareKey(spec[0], a, b)
    else Compare(spec[1..], a, b)
  }

  /** The comparator: each key in turn, then the id. */
  method MongoSortComparator(spec: seq<SortKey>, a: Json, b: Json) returns (r: int)
    ensures r == Compare(Keys(spec), a, b)
  {
    var keys := Keys(spec);
    for i := 0 to |keys|
      invariant Compare(keys, a, b) == Compare(keys[i..], a, b)
    {
      var key := keys[i];
      assert keys[i..][1..] == keys[i + 1..];
      var val1 := ValueAt(if key.order > 0 then a else b, key.path);
      var val2 := ValueAt(if key.order > 0 then b else a, key.path);
      if val1 == val2 { continue; }
      var val1Empty, val2Empty := Empty(val1), Empty(val2);
      if val1Empty && val2Empty { continue; }
      if val1Empty { return -1; }
      if val2Empty { return 1; }
      if Less(val2, val1) { return 1; }
      return -1;
    }
    var id1, id2 := Get(a, "_id"), Get(b, "_id");
    if Less(id1, id2) { return -1; }
    if Less(id2, id1) { return 1; }
    return 0;
  }

  /******* A total order *******/

  lemma {:induction false} StrLessTotal(a: string, b: string)
    ensures a == b || StrLess(a, b) || StrLess(b, a)
    ensures !(StrLess(a, b) && StrLess(b, a)) && (a == b ==> !StrLess(a, b))
  {
    if a != "" && b != "" {
      StrLessTotal(a[1..], b[1..]);
      assert a == [a[0]] + a[1..] && b == [b[0]] + b[1..];
    }
  }

  lemma {:induction false} StrLessTransitive(a: string, b: string, c: string)
    requires StrLess(a, b) && StrLess(b, c)
    ensures StrLess(a, c)
  {
    if a != "" && a[0] == b[0] == c[0] {
      StrLessTransitive(a[1..], b[1..], c[1..]);
    }
  }

  /** Values of one sort, numbers, strings or booleans, with missing and null beside them. */
  predicate Alike(a: Json, b: Json) {
    Empty(a) || Empty(b) || (a.Num? && b.Num?) || (a.Str? && b.Str?) || (a.Bool? && b.Bool?)
  }

  lemma ValuesOpposite(a: Json, b: Json)
    requires Alike(a, b)
    ensures CompareValues(a, b) == -CompareValues(b, a)
    ensures CompareValues(a, b) == 0 <==> a == b || (Empty(a) && Empty(b))
  {
    if a.Str? && b.Str? { StrLessTotal(a.s, b.s); }
  }

  lemma ValuesTransitive(a: Json, b: Json, c: Json)
    requires Alike(a, b) && Alike(b, c) && Alike(a, c) && CompareValues(a, b) <= 0 && CompareValues(b, c) <= 0
    ensures CompareValues(a, c) <= 0
    ensures CompareValues(a, c) == 0 ==> CompareValues(a, b) == 0 && CompareValues(b, c) == 0
  {
    if a.Str? && b.Str? && c.Str? {
      StrLessTotal(a.s, b.s);
      StrLessTotal(b.s, c.s);
      StrLessTotal(a.s, c.s);
      if StrLess(a.s, b.s) && StrLess(b.s, c.s) { StrLessTransitive(a.s, b.s, c.s); }
    }
  }

  /** At each sort path the documents carry values of one sort; ids are strings. */
  ghost predicate Homogeneous(spec: seq<SortKey>, docs: set<Json>) {
    && (forall a, b, i :: a in docs && b in docs && 0 <= i < |spec| ==>
        Alike(ValueAt(a, spec[i].path), ValueAt(b, spec[i].path)))
    && (forall a :: a in docs ==> Get(a, "_id").Str?)
    && (forall a, b :: a in docs && b in docs && Get(a, "_id") == Get(b, "_id") ==> a == b)
  }

  lemma {:induction false} CompareOpposite(spec: seq<SortKey>, docs: set<Json>, a: Json, b: Json)
    requires Homogeneous(spec, docs) && a in docs && b in docs
    ensures Compare(spec, a, b) == -Compare(spec, b, a)
    ensures Compare(spec, a, b) == 0 <==> a == b
  {
    if spec == [] {
      StrLessTotal(Get(a, "_id").s, Get(b, "_id").s);
    } else {
      RestHomogeneous(spec, docs);
      CompareOpposite(spec[1..], docs, a, b);
      ValuesOpposite(ValueAt(a, spec[0].path), ValueAt(b, spec[0].path));
    }
  }

  lemma RestHomogeneous(spec: seq<SortKey>, docs: set<Json>)
    requires spec != [] && Homogeneous(spec, docs)
    ensures Homogeneous(spec[1..], docs)
  {
    forall a, b, i | a in docs && b in docs && 0 <= i < |spec| - 1
      ensures Alike(ValueAt(a, spec[1..][i].path), ValueAt(b, spec[1..][i].path))
    {
      assert spec[1..][i] == spec[i + 1];
    }
  }

  lemma {:induction false} CompareTransitive(spec: seq<SortKey>, docs: set<Json>, a: Json, b: Json, c: Json)
    requires Homogeneous(spec, docs) && a in docs && b in docs && c in docs
    requires Compare(spec, a, b) <= 0 && Compare(spec, b, c) <= 0
    ensures Compare(spec, a, c) <= 0
  {
    if spec == [] {
      var x, y, z := Get(a, "_id").s, Get(b, "_id").s, Get(c, "_id").s;
      StrLessTotal(x, y);
      StrLessTotal(y, z);
      StrLessTotal(x, z);
      if StrLess(x, y) && StrLess(y, z) { StrLessTransitive(x, y, z); }
    } else {
      KeyTransitive(spec[0], docs, a, b, c, spec);
      if CompareKey(spec[0], a, c) == 0 {
        RestHomogeneous(spec, docs);
        CompareTransitive(spec[1..], docs, a, b, c);
      }
    }
  }

  lemma KeyTransitive(key: SortKey, docs: set<Json>, a: Json, b: Json, c: Json, spec: seq<SortKey>)
    requires spec != [] && key == spec[0] && Homogeneous(spec, docs) && a in docs && b in docs && c in docs
    requires CompareKey(key, a, b) <= 0 && CompareKey(key, b, c) <= 0
    ensures CompareKey(key, a, c) <= 0
    ensures CompareKey(key, a, c) == 0 ==> CompareKey(key, a, b) == 0 && CompareKey(key, b, c) == 0
  {
    var x, y, z := ValueAt(a, key.path), ValueAt(b, key.path), ValueAt(c, key.path);
    if key.order > 0 {
      ValuesTransitive(x, y, z);
    } else {
      ValuesTransitive(z, y, x);
    }
  }

  /******* Sorting *******/

  function InsertDoc(spec: seq<SortKey>, d: Json, docs: seq<Json>): seq<Json> {
    if docs == [] || Compare(spec, d, docs[0]) <= 0 then [d] + docs else [docs[0]] + InsertDoc(spec, d, docs[1..])
  }

  /** A stable sort. */
  function SortDocs(spec: seq<SortKey>, docs: seq<Json>): seq<Json> {
    if docs == [] then [] else InsertDoc(spec, docs[0], SortDocs(spec, docs[1..]))
  }

  ghost predicate Ascends(spec: seq<SortKey>, docs: seq<Json>) {
    forall i, j :: 0 <= i < j < |docs| ==> Compare(spec, docs[i], docs[j]) < 0
  }

  ghost predicate AllDifferent(docs: seq<Json>) {
    forall i, j :: 0 <= i < j < |docs| ==> docs[i] != docs[j]
  }

  ghost function AsSet(docs: seq<Json>): set<Json> {
    set d | d in docs
  }

  lemma {:induction false} InsertMembers(spec: seq<SortKey>, d: Json, docs: seq<Json>)
    ensures forall x :: x in InsertDoc(spec, d, docs) <==> x == d || x in docs
    ensures |InsertDoc(spec, d, docs)| == |docs| + 1
  {
    if docs != [] && Compare(spec, d, docs[0]) > 0 {
      InsertMembers(spec, d, docs[1..]);
      assert forall x :: x in docs <==> x == docs[0] || x in docs[1..];
    }
  }

  lemma {:induction false} InsertAscends(spec: seq<SortKey>, all: set<Json>, d: Json, docs: seq<Json>)
    requires Homogeneous(spec, all) && d in all && AsSet(docs) <= all && d !in docs && Ascends(spec, docs)
    ensures Ascends(spec, InsertDoc(spec, d, docs))
  {
    if docs == [] {
    } else {
      assert docs[0] in AsSet(docs);
      CompareOpposite(spec, all, d, docs[0]);
      if Compare(spec, d, docs[0]) <= 0 {
        forall j | 0 <= j < |docs| ensures Compare(spec, d, docs[j]) < 0 {
          assert docs[j] in AsSet(docs);
          CompareOpposite(spec, all, docs[0], docs[0]);
          CompareTransitive(spec, all, d, docs[0], docs[j]);
          CompareOpposite(spec, all, d, docs[j]);
        }
      } else {
        assert AsSet(docs[1..]) <= AsSet(docs);
        InsertAscends(spec, all, d, docs[1..]);
        InsertMembers(spec, d, docs[1..]);
        var t := InsertDoc(spec, d, docs[1..]);
        forall j | 0 <= j < |t| ensures Compare(spec, docs[0], t[j]) < 0 {
          assert t[j] in t;
        }
      }
    }
  }

  lemma {:induction false} SortAscends(spec: seq<SortKey>, all: set<Json>, docs: seq<Json>)
    requires Homogeneous(spec, all) && AsSet(docs) <= all && AllDifferent(docs)
    ensures Ascends(spec, SortDocs(spec, docs))
    ensures AsSet(SortDocs(spec, docs)) == AsSet(docs) && |SortDocs(spec, docs)| == |docs|
  {
    if docs != [] {
      assert AsSet(docs) == {docs[0]} + AsSet(docs[1..]);
      SortAscends(spec, all, docs[1..]);
      InsertMembers(spec, docs[0], SortDocs(spec, docs[1..]));
      assert docs[0] !in docs[1..];
      assert docs[0] !in AsSet(SortDocs(spec, docs[1..]));
      InsertAscends(spec, all, docs[0], SortDocs(spec, docs[1..]));
    }
  }

  lemma {:induction false} AscendingIsUnique(spec: seq<SortKey>, all: set<Json>, a: seq<Json>, b: seq<Json>)
    requires Homogeneous(spec, all) && AsSet(a) == AsSet(b) <= all && Ascends(spec, a) && Ascends(spec, b)
    ensures a == b
  {
    if a == [] {
      assert forall x :: 0 <= x < |b| ==> b[x] in AsSet(a);
    } else {
      assert a[0] in AsSet(b) && b != [];
      assert b[0] in AsSet(a);
      FirstIsLeast(spec, all, a, b[0]);
      FirstIsLeast(spec, all, b, a[0]);
      CompareOpposite(spec, all, a[0], b[0]);
      TailSet(spec, all, a);
      TailSet(spec, all, b);
      AscendingIsUnique(spec, all, a[1..], b[1..]);
    }
  }

  lemma FirstIsLeast(spec: seq<SortKey>, all: set<Json>, a: seq<Json>, d: Json)
    requires Homogeneous(spec, all) && AsSet(a) <= all && Ascends(spec, a) && d in a
    ensures Compare(spec, a[0], d) <= 0
  {
    var i :| 0 <= i < |a| && a[i] == d;
    assert a[0] in AsSet(a);
    CompareOpposite(spec, all, a[0], a[0]);
  }

  lemma TailSet(spec: seq<SortKey>, all: set<Json>, a: seq<Json>)
    requires a != [] && Homogeneous(spec, all) && AsSet(a) <= all && Ascends(spec, a)
    ensures AsSet(a[1..]) == AsSet(a) - {a[0]}
  {
    assert a[0] in AsSet(a);
    CompareOpposite(spec, all, a[0], a[0]);
    forall x | x in a[1..] ensures x != a[0] {
      var i :| 0 <= i < |a[1..]| && a[1..][i] == x;
      assert Compare(spec, a[0], a[i + 1]) < 0;
    }
  }

  /** Whatever way a list is sorted, there is one result: the list of its documents that ascends. */
  lemma OneAscendingOrder(spec: seq<SortKey>, docs: seq<Json>, sorted: seq<Json>)
    requires Homogeneous(spec, AsSet(docs)) && AllDifferent(docs)
    ensures sorted == SortDocs(spec, docs) <==> AsSet(sorted) == AsSet(docs) && Ascends(spec, sorted)
  {
    SortAscends(spec, AsSet(docs), docs);
    if AsSet(sorted) == AsSet(docs) && Ascends(spec, sorted) {
      AscendingIsUnique(spec, AsSet(docs), SortDocs(spec, docs), sorted);
    }
  }

  /******* Finding *******/

  datatype FindOptions = FindOptions(sort: Option<seq<SortKey>>, skip: Option<nat>, limit: Option<nat>)

  function Find(docs: seq<Json>, options: FindOptions): seq<Json> {
    var sorted :=
      if options.sort.Some? && Keys(options.sort.value) != [] then SortDocs(Keys(options.sort.value), docs) else docs;
    var rest :=
      if options.skip.Some? && options.skip.value != 0 then
        if options.skip.value <= |sorted| then sorted[options.skip.value..] else []
      else sorted;
    if options.limit.Some? && options.limit.value <= |rest| then rest[..options.limit.value] else rest
  }

  /** Values of one sort do not fall: numbers, strings, false before true. */
  predicate NotAbove(a: Json, b: Json) {
    && (a.Num? && b.Num? ==> a.n <= b.n)
    && (a.Str? && b.Str? ==> a.s == b.s || StrLess(a.s, b.s))
    && (a.Bool? && b.Bool? ==> a.b ==> b.b)
  }

  /** One found before another compares below it. */
  lemma FoundInOrder(docs: seq<Json>, spec: seq<SortKey>, i: nat, j: nat)
    requires Keys(spec) != [] && Homogeneous(Keys(spec), AsSet(docs)) && AllDifferent(docs)
    requires i < j < |Find(docs, FindOptions(Some(spec), None, None))|
    ensures var found := Find(docs, FindOptions(Some(spec), None, None));
            found[i] in docs && found[j] in docs && Compare(Keys(spec), found[i], found[j]) < 0
  {
    var found := Find(docs, FindOptions(Some(spec), None, None));
    SortAscends(Keys(spec), AsSet(docs), docs);
    assert found == SortDocs(Keys(spec), docs);
    assert found[i] in AsSet(found) && found[j] in AsSet(found);
  }

  lemma KeyDecides(key: SortKey, rest: seq<SortKey>, a: Json, b: Json)
    requires Compare([key] + rest, a, b) < 0 && Alike(ValueAt(a, key.path), ValueAt(b, key.path))
    ensures var v, w := ValueAt(a, key.path), ValueAt(b, key.path);
            && (key.order > 0 ==> (Empty(w) ==> Empty(v)) && NotAbove(v, w))
            && (key.order <= 0 ==> (Empty(v) ==> Empty(w)) && NotAbove(w, v))
  {
    assert CompareKey(key, a, b) <= 0;
    var v, w := ValueAt(a, key.path), ValueAt(b, key.path);
    if v.Str? && w.Str? { StrLessTotal(v.s, w.s); }
  }

  /** Sorted upwards, documents without a value come first and the values never fall; sorted downwards they never
      rise and documents without a value come last. */
  lemma FirstKeyDecides(docs: seq<Json>, spec: seq<SortKey>, i: nat, j: nat)
    requires spec != [] && spec[0].order != 0 && Homogeneous(Keys(spec), AsSet(docs)) && AllDifferent(docs)
    requires i < j < |Find(docs, FindOptions(Some(spec), None, None))|
    ensures var found := Find(docs, FindOptions(Some(spec), None, None));
            var v, w := ValueAt(found[i], spec[0].path), ValueAt(found[j], spec[0].path);
            && (spec[0].order > 0 ==> (Empty(w) ==> Empty(v)) && NotAbove(v, w))
            && (spec[0].order < 0 ==> (Empty(v) ==> Empty(w)) && NotAbove(w, v))
  {
    var found, keys := Find(docs, FindOptions(Some(spec), None, None)), Keys(spec);
    assert keys == [spec[0]] + keys[1..];
    FoundInOrder(docs, spec, i, j);
    AlikeAt(keys, AsSet(docs), found[i], found[j]);
    KeyDecides(keys[0], keys[1..], found[i], found[j]);
  }

  lemma AlikeAt(spec: seq<SortKey>, docs: set<Json>, a: Json, b: Json)
    requires spec != [] && Homogeneous(spec, docs) && a in docs && b in docs
    ensures Alike(ValueAt(a, spec[0].path), ValueAt(b, spec[0].path))
  {
  }

  /** Documents that the key does not tell apart come in the order of their ids. */
  lemma IdsDecide(docs: seq<Json>, key: SortKey, i: nat, j: nat)
    requires key.order != 0 && Homogeneous([key], AsSet(docs)) && AllDifferent(docs)
    requires i < j < |Find(docs, FindOptions(Some([key]), None, None))|
    requires var found := Find(docs, FindOptions(Some([key]), None, None));
             ValueAt(found[i], key.path) == ValueAt(found[j], key.path)
    ensures var found := Find(docs, FindOptions(Some([key]), None, None));
            var x, y := Get(found[i], "_id"), Get(found[j], "_id"); x.Str? && y.Str? && StrLess(x.s, y.s)
  {
    assert [key][1..] == [] && Keys([key]) == [key];
    FoundInOrder(docs, [key], i, j);
    var found := Find(docs, FindOptions(Some([key]), None, None));
    assert found[i] in AsSet(docs) && found[j] in AsSet(docs);
    assert CompareKey(key, found[i], found[j]) == 0;
  }

  /** A sorted query gives the same list whatever the order in which the documents are stored. */
  lemma SortIsCanonical(docs: seq<Json>, shuffled: seq<Json>, options: FindOptions)
    requires options.sort.Some? && Keys(options.sort.value) != []
    requires Homogeneous(Keys(options.sort.value), AsSet(docs))
    requires AllDifferent(docs) && AllDifferent(shuffled) && AsSet(shuffled) == AsSet(docs)
    ensures Find(docs, options) == Find(shuffled, options)
  {
    var spec := Keys(options.sort.value);
    SortAscends(spec, AsSet(docs), shuffled);
    OneAscendingOrder(spec, docs, SortDocs(spec, shuffled));
  }

  /** The first pages of a given size, one after the other. */
  function Pages(docs: seq<Json>, sort: Option<seq<SortKey>>, size: nat, count: nat): seq<Json> {
    if count == 0 then []
    else Pages(docs, sort, size, count - 1) + Find(docs, FindOptions(sort, Some((count - 1) * size), Some(size)))
  }

  /** Consecutive pages tile the list. */
  lemma {:induction false} PagesTile(docs: seq<Json>, sort: Option<seq<SortKey>>, size: nat, count: nat)
    requires size > 0
    ensures var all := Find(docs, FindOptions(sort, None, None));
            Pages(docs, sort, size, count) == if count * size <= |all| then all[..count * size] else all
  {
    if count > 0 {
      PagesTile(docs, sort, size, count - 1);
      assert count * size == (count - 1) * size + size;
      OnePage(docs, sort, (count - 1) * size, size);
    }
  }

  /** A page continues where the pages before it end. */
  lemma OnePage(docs: seq<Json>, sort: Option<seq<SortKey>>, skip: nat, size: nat)
    ensures var all := Find(docs, FindOptions(sort, None, None));
            (if skip <= |all| then all[..skip] else all) + Find(docs, FindOptions(sort, Some(skip), Some(size))) ==
            if skip + size <= |all| then all[..skip + size] else all
  {
    var all := Find(docs, FindOptions(sort, None, None));
    if skip <= |all| {
      assert all[0..] == all;
      assert skip + size <= |all| ==> all[..skip] + all[skip..][..size] == all[..skip + size];
      assert all[..skip] + all[skip..] == all;
    }
  }
}
