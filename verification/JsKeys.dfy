/**
 * The order in which a JavaScript object enumerates its keys, for any reading of keys as indices that tells
 * different indices apart.
 */
module JsKeys {
  import opened Wrappers
  import opened JsStrings

  /** The number of a key that is an index. */
  type Indexing = string -> Option<nat>

  ghost predicate TellsApart(index: Indexing) {
    forall a, b :: index(a).Some? && index(a) == index(b) ==> a == b
  }

  /** Array indices. */
  function ArrayIndex(key: string): Option<nat> {
    if IsIndex(key) then Some(IndexValue(key)) else None
  }

  lemma ArrayIndexTellsApart()
    ensures TellsApart(ArrayIndex)
  {
    forall a, b | ArrayIndex(a).Some? && ArrayIndex(a) == ArrayIndex(b) ensures a == b {
      assert Decimal(IndexValue(a)) == a && Decimal(IndexValue(b)) == b;
    }
  }

  ghost predicate Distinct<T(!new)>(s: seq<T>) {
    forall i, j :: 0 <= i < j < |s| ==> s[i] != s[j]
  }

  lemma JoinDistinct<T(!new)>(a: seq<T>, b: seq<T>)
    requires Distinct(a) && Distinct(b) && forall x :: x in a ==> x !in b
    ensures Distinct(a + b)
  {
    forall i, j | 0 <= i < j < |a + b| ensures (a + b)[i] != (a + b)[j] {
      assert i < |a| ==> a[i] in a;
      assert j >= |a| ==> b[j - |a|] in b;
    }
  }

  lemma {:induction false} DistinctSize<T(!new)>(s: seq<T>)
    requires Distinct(s)
    ensures |set x | x in s| == |s|
  {
    if s != [] {
      DistinctSize(s[1..]);
      assert forall x :: x in s[1..] ==> x != s[0];
      assert (set x | x in s) == {s[0]} + set x | x in s[1..];
    }
  }

  /******* Enumeration *******/

  predicate AllIndices(index: Indexing, keys: seq<string>) {
    forall k :: k in keys ==> index(k).Some?
  }

  function InsertIndex(index: Indexing, key: string, keys: seq<string>): (r: seq<string>)
    requires index(key).Some? && AllIndices(index, keys)
    ensures forall x :: x in r <==> x == key || x in keys
  {
    if keys == [] || (assert keys[0] in keys; index(key).value <= index(keys[0]).value) then [key] + keys
    else [keys[0]] + InsertIndex(index, key, keys[1..])
  }

  function Indices(index: Indexing, keys: seq<string>): (r: seq<string>)
    ensures forall x :: x in r <==> x in keys && index(x).Some?
  {
    if keys == [] then []
    else if index(keys[0]).Some? then InsertIndex(index, keys[0], Indices(index, keys[1..]))
    else Indices(index, keys[1..])
  }

  function Others(index: Indexing, keys: seq<string>): (r: seq<string>)
    ensures forall x :: x in r <==> x in keys && index(x).None?
  {
    if keys == [] then []
    else if index(keys[0]).Some? then Others(index, keys[1..])
    else [keys[0]] + Others(index, keys[1..])
  }

  /** Indices come first, in numeric order; all other keys follow in order of insertion. */
  function Enumerated(index: Indexing, keys: seq<string>): (r: seq<string>)
    ensures forall x :: x in r <==> x in keys
  {
    Indices(index, keys) + Others(index, keys)
  }

  lemma {:induction false} InsertIndexDistinct(index: Indexing, key: string, keys: seq<string>)
    requires index(key).Some? && AllIndices(index, keys) && Distinct(keys) && key !in keys
    ensures Distinct(InsertIndex(index, key, keys))
  {
    if keys == [] || index(key).value <= index(keys[0]).value {
      JoinDistinct([key], keys);
    } else {
      InsertIndexDistinct(index, key, keys[1..]);
      assert forall x :: x in keys[1..] ==> x != keys[0];
      JoinDistinct([keys[0]], InsertIndex(index, key, keys[1..]));
    }
  }

  lemma {:induction false} EnumeratedDistinct(index: Indexing, keys: seq<string>)
    requires Distinct(keys)
    ensures Distinct(Indices(index, keys)) && Distinct(Others(index, keys)) && Distinct(Enumerated(index, keys))
  {
    if keys != [] {
      EnumeratedDistinct(index, keys[1..]);
      assert forall x :: x in keys[1..] ==> x != keys[0];
      if index(keys[0]).Some? {
        InsertIndexDistinct(index, keys[0], Indices(index, keys[1..]));
      } else {
        JoinDistinct([keys[0]], Others(index, keys[1..]));
      }
      JoinDistinct(Indices(index, keys), Others(index, keys));
    }
  }

  /******* Which orders are enumerations *******/

  predicate Earlier(index: Indexing, a: string, b: string) {
    index(b).Some? ==> index(a).Some? && index(a).value < index(b).value
  }

  /** Indices stand before all other keys, and ascend. */
  predicate IndicesFirst(index: Indexing, keys: seq<string>) {
    forall i, j :: 0 <= i < j < |keys| ==> Earlier(index, keys[i], keys[j])
  }

  lemma RestIndicesFirst(index: Indexing, keys: seq<string>)
    requires keys != [] && IndicesFirst(index, keys)
    ensures IndicesFirst(index, keys[1..])
    ensures forall k :: k in keys[1..] ==> Earlier(index, keys[0], k)
  {
    var rest := keys[1..];
    forall i, j | 0 <= i < j < |rest| ensures Earlier(index, rest[i], rest[j]) {
      assert rest[i] == keys[i + 1] && rest[j] == keys[j + 1];
    }
    forall k | k in rest ensures Earlier(index, keys[0], k) {
      var j :| 0 <= j < |rest| && rest[j] == k;
      assert keys[j + 1] == k;
    }
  }

  lemma FirstIsEarlier(index: Indexing, key: string, rest: seq<string>)
    requires IndicesFirst(index, rest) && forall k :: k in rest ==> Earlier(index, key, k)
    ensures IndicesFirst(index, [key] + rest)
  {
    var keys := [key] + rest;
    forall i, j | 0 <= i < j < |keys| ensures Earlier(index, keys[i], keys[j]) {
      assert keys[j] == rest[j - 1] && rest[j - 1] in rest;
      if i > 0 { assert keys[i] == rest[i - 1]; }
    }
  }

  lemma {:induction false} InsertIndexAscends(index: Indexing, key: string, keys: seq<string>)
    requires TellsApart(index) && index(key).Some? && AllIndices(index, keys) && key !in keys &&
             IndicesFirst(index, keys)
    ensures IndicesFirst(index, InsertIndex(index, key, keys))
  {
    if keys == [] {
    } else {
      assert keys[0] in keys;
      RestIndicesFirst(index, keys);
      if index(key).value <= index(keys[0]).value {
        forall k | k in keys ensures Earlier(index, key, k) {
          assert k == keys[0] || k in keys[1..];
        }
        FirstIsEarlier(index, key, keys);
      } else {
        InsertIndexAscends(index, key, keys[1..]);
        FirstIsEarlier(index, keys[0], InsertIndex(index, key, keys[1..]));
      }
    }
  }

  lemma {:induction false} EnumeratedIndicesFirst(index: Indexing, keys: seq<string>)
    requires TellsApart(index) && Distinct(keys)
    ensures IndicesFirst(index, Enumerated(index, keys))
  {
    if keys != [] {
      var rest := keys[1..];
      EnumeratedIndicesFirst(index, rest);
      assert forall x :: x in rest ==> x != keys[0];
      SplitIndicesFirst(index, Indices(index, rest), Others(index, rest));
      if index(keys[0]).Some? {
        InsertIndexAscends(index, keys[0], Indices(index, rest));
      }
      NamesAfterIndices(index, Indices(index, keys), Others(index, keys));
    }
  }

  lemma SplitIndicesFirst(index: Indexing, indices: seq<string>, names: seq<string>)
    requires IndicesFirst(index, indices + names)
    ensures IndicesFirst(index, indices)
  {
    forall i, j | 0 <= i < j < |indices| ensures Earlier(index, indices[i], indices[j]) {
      assert (indices + names)[i] == indices[i] && (indices + names)[j] == indices[j];
    }
  }

  lemma NamesAfterIndices(index: Indexing, indices: seq<string>, names: seq<string>)
    requires IndicesFirst(index, indices) && forall x :: x in names ==> index(x).None?
    ensures IndicesFirst(index, indices + names)
  {
    var all := indices + names;
    forall i, j | 0 <= i < j < |all| ensures Earlier(index, all[i], all[j]) {
      if j < |indices| {
        assert all[i] == indices[i] && all[j] == indices[j];
      } else {
        assert all[j] == names[j - |indices|] && all[j] in names;
      }
    }
  }

  /** Keys are enumerated as they were inserted if and only if they were inserted with their indices first. */
  lemma EnumeratedInOrder(index: Indexing, keys: seq<string>)
    requires TellsApart(index) && Distinct(keys)
    ensures Enumerated(index, keys) == keys <==> IndicesFirst(index, keys)
  {
    EnumeratedIndicesFirst(index, keys);
    if IndicesFirst(index, keys) { IndicesFirstEnumerated(index, keys); }
  }

  lemma {:induction false} IndicesFirstEnumerated(index: Indexing, keys: seq<string>)
    requires IndicesFirst(index, keys)
    ensures Enumerated(index, keys) == keys
  {
    if keys != [] {
      RestIndicesFirst(index, keys);
      IndicesFirstEnumerated(index, keys[1..]);
      FirstEnumerated(index, keys[0], keys[1..]);
      assert [keys[0]] + keys[1..] == keys;
    }
  }

  lemma FirstEnumerated(index: Indexing, key: string, rest: seq<string>)
    requires forall k :: k in rest ==> Earlier(index, key, k)
    ensures Enumerated(index, [key] + rest) == [key] + Enumerated(index, rest)
  {
    var keys, indices, names := [key] + rest, Indices(index, rest), Others(index, rest);
    assert keys[0] == key && keys[1..] == rest;
    if index(key).Some? {
      LeastIndex(index, key, indices);
      assert [] + names == names;
      Associative([key], indices, names);
    } else {
      NoIndices(index, rest);
      assert [] + ([key] + names) == [key] + ([] + names);
    }
  }

  lemma LeastIndex(index: Indexing, key: string, indices: seq<string>)
    requires index(key).Some? && AllIndices(index, indices) && forall k :: k in indices ==> Earlier(index, key, k)
    ensures InsertIndex(index, key, indices) == [key] + indices
  {
    assert indices == [] || indices[0] in indices;
  }

  lemma {:induction false} NoIndices(index: Indexing, keys: seq<string>)
    requires forall k :: k in keys ==> index(k).None?
    ensures Indices(index, keys) == []
  {
    if keys != [] {
      assert keys[0] in keys;
      NoIndices(index, keys[1..]);
    }
  }

  /******* Some of the keys *******/

  function Keep(wanted: string -> bool, keys: seq<string>): (r: seq<string>)
    ensures forall x :: x in r <==> x in keys && wanted(x)
  {
    if keys == [] then []
    else if wanted(keys[0]) then [keys[0]] + Keep(wanted, keys[1..])
    else Keep(wanted, keys[1..])
  }

  lemma KeepFirst(wanted: string -> bool, key: string, rest: seq<string>)
    ensures Keep(wanted, [key] + rest) == if wanted(key) then [key] + Keep(wanted, rest) else Keep(wanted, rest)
  {
    assert ([key] + rest)[1..] == rest;
  }

  lemma {:induction false} KeepJoined(wanted: string -> bool, a: seq<string>, b: seq<string>)
    ensures Keep(wanted, a + b) == Keep(wanted, a) + Keep(wanted, b)
  {
    if a == [] {
      assert [] + b == b && [] + Keep(wanted, b) == Keep(wanted, b);
    } else {
      var first, rest := a[0], a[1..];
      assert a == [first] + rest;
      Associative([first], rest, b);
      KeepJoined(wanted, rest, b);
      KeepFirst(wanted, first, rest);
      KeepFirst(wanted, first, rest + b);
      Associative([first], Keep(wanted, rest), Keep(wanted, b));
    }
  }

  lemma {:induction false} KeepDistinct(wanted: string -> bool, keys: seq<string>)
    requires Distinct(keys)
    ensures Distinct(Keep(wanted, keys))
  {
    if keys != [] {
      KeepDistinct(wanted, keys[1..]);
      assert forall x :: x in keys[1..] ==> x != keys[0];
      if wanted(keys[0]) { JoinDistinct([keys[0]], Keep(wanted, keys[1..])); }
    }
  }

  lemma {:induction false} KeepInserted(index: Indexing, wanted: string -> bool, key: string, keys: seq<string>)
    requires index(key).Some? && AllIndices(index, keys) && IndicesFirst(index, keys)
    ensures Keep(wanted, InsertIndex(index, key, keys)) ==
            if wanted(key) then InsertIndex(index, key, Keep(wanted, keys)) else Keep(wanted, keys)
  {
    if keys == [] || index(key).value <= index(keys[0]).value {
      KeepFirst(wanted, key, keys);
      KeptAreHigher(index, wanted, key, keys);
    } else {
      RestIndicesFirst(index, keys);
      KeepInserted(index, wanted, key, keys[1..]);
      KeptPastFirst(index, wanted, key, keys[0], keys[1..]);
    }
  }

  lemma KeptPastFirst(index: Indexing, wanted: string -> bool, key: string, first: string, rest: seq<string>)
    requires index(key).Some? && index(first).Some? && AllIndices(index, rest) && index(key).value > index(first).value
    requires Keep(wanted, InsertIndex(index, key, rest)) ==
             if wanted(key) then InsertIndex(index, key, Keep(wanted, rest)) else Keep(wanted, rest)
    ensures Keep(wanted, [first] + InsertIndex(index, key, rest)) ==
            var kept := Keep(wanted, [first] + rest); if wanted(key) then InsertIndex(index, key, kept) else kept
  {
    KeepFirst(wanted, first, rest);
    KeepFirst(wanted, first, InsertIndex(index, key, rest));
    if wanted(first) {
      var kept := [first] + Keep(wanted, rest);
      assert kept[0] == first && kept[1..] == Keep(wanted, rest);
      assert Keep(wanted, [first] + rest) == kept;
    } else {
      assert Keep(wanted, [first] + rest) == Keep(wanted, rest);
    }
  }

  lemma KeptAreHigher(index: Indexing, wanted: string -> bool, key: string, keys: seq<string>)
    requires index(key).Some? && AllIndices(index, keys) && IndicesFirst(index, keys)
    requires keys != [] ==> index(key).value <= index(keys[0]).value
    ensures InsertIndex(index, key, Keep(wanted, keys)) == [key] + Keep(wanted, keys)
  {
    var kept := Keep(wanted, keys);
    if kept != [] {
      RestIndicesFirst(index, keys);
      assert kept[0] in kept;
      assert kept[0] == keys[0] || kept[0] in keys[1..];
    }
  }

  lemma FirstSplits(index: Indexing, key: string, rest: seq<string>)
    ensures Indices(index, [key] + rest) ==
            if index(key).Some? then InsertIndex(index, key, Indices(index, rest)) else Indices(index, rest)
    ensures Others(index, [key] + rest) ==
            if index(key).Some? then Others(index, rest) else [key] + Others(index, rest)
  {
    assert ([key] + rest)[1..] == rest;
  }

  lemma {:induction false} KeepIndices(index: Indexing, wanted: string -> bool, keys: seq<string>)
    requires TellsApart(index) && Distinct(keys)
    ensures Keep(wanted, Indices(index, keys)) == Indices(index, Keep(wanted, keys))
  {
    if keys != [] {
      var key, rest := keys[0], keys[1..];
      KeepIndices(index, wanted, rest);
      EnumeratedIndicesFirst(index, rest);
      SplitIndicesFirst(index, Indices(index, rest), Others(index, rest));
      assert keys == [key] + rest;
      KeepFirst(wanted, key, rest);
      FirstSplits(index, key, rest);
      FirstSplits(index, key, Keep(wanted, rest));
      if index(key).Some? { KeepInserted(index, wanted, key, Indices(index, rest)); }
    }
  }

  lemma {:induction false} KeepOthers(index: Indexing, wanted: string -> bool, keys: seq<string>)
    ensures Keep(wanted, Others(index, keys)) == Others(index, Keep(wanted, keys))
  {
    if keys != [] {
      var key, rest := keys[0], keys[1..];
      KeepOthers(index, wanted, rest);
      assert keys == [key] + rest;
      KeepFirst(wanted, key, rest);
      FirstSplits(index, key, rest);
      FirstSplits(index, key, Keep(wanted, rest));
      if index(key).None? { KeepFirst(wanted, key, Others(index, rest)); }
    }
  }

  /** The keys that are wanted are gone through just as if there were no others. */
  lemma KeepEnumerated(index: Indexing, wanted: string -> bool, keys: seq<string>)
    requires TellsApart(index) && Distinct(keys)
    ensures Keep(wanted, Enumerated(index, keys)) == Enumerated(index, Keep(wanted, keys))
  {
    KeepIndices(index, wanted, keys);
    KeepOthers(index, wanted, keys);
    KeepJoined(wanted, Indices(index, keys), Others(index, keys));
  }

  /** So they keep their order of insertion if and only if they, not all keys, have their indices first. */
  lemma KeptInOrder(index: Indexing, wanted: string -> bool, keys: seq<string>)
    requires TellsApart(index) && Distinct(keys)
    ensures Keep(wanted, Enumerated(index, keys)) == Keep(wanted, keys) <==> IndicesFirst(index, Keep(wanted, keys))
  {
    KeepEnumerated(index, wanted, keys);
    KeepDistinct(wanted, keys);
    EnumeratedInOrder(index, Keep(wanted, keys));
  }
}
