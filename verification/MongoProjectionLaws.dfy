/** Laws of inclusion by paths none of which leads through another. */
module MongoProjectionLaws {
  import opened MongoJson
  import opened MongoUpdate
  import opened MongoProjection

  predicate PrefixFree(ps: Paths) {
    [] !in ps && forall p, q :: p in ps && q in ps && p != q ==> Apart(p, q)
  }

  lemma UnderPrefixFree(ps: Paths, key: string)
    requires PrefixFree(ps)
    ensures PrefixFree(Under(ps, key))
    ensures [key] in ps ==> Under(ps, key) == {}
    ensures forall p :: p in ps && p[0] == key && p != [key] ==> [key] !in ps && |p| > 1 && p[1..] in Under(ps, key)
  {
    forall p, q | p in Under(ps, key) && q in Under(ps, key) && p != q ensures Apart(p, q) {
      assert [key] + p in ps && [key] + q in ps by { OfUnder(ps, key, p); OfUnder(ps, key, q); }
      ApartStep([key] + p, [key] + q);
      assert ([key] + p)[1..] == p && ([key] + q)[1..] == q;
    }
    forall p | p in ps && p[0] == key && p != [key] ensures [key] !in ps && |p| > 1 && p[1..] in Under(ps, key) {
      assert p == [key] + p[1..];
      assert [key] <= p;
    }
  }

  lemma OfUnder(ps: Paths, key: string, p: seq<string>)
    requires p in Under(ps, key)
    ensures [key] + p in ps && p != []
  {
    var q :| q in ps && |q| > 1 && q[0] == key && q[1..] == p;
    assert q == [key] + p;
  }

  /******* Order *******/

  /** The paths copied one after the other. */
  function IntoAll(source: Json, target: Json, list: seq<seq<string>>): Json
    requires [] !in list
  {
    if list == [] then target
    else Into(source, IntoAll(source, target, list[..|list| - 1]), list[|list| - 1], true)
  }

  predicate AllApart(list: seq<seq<string>>) {
    [] !in list && forall i, j :: 0 <= i < j < |list| ==> Apart(list[i], list[j])
  }

  /** Copied in whatever order, paths bring over what their set takes from the document. */
  lemma {:induction false} PathByPath(doc: Json, list: seq<seq<string>>)
    requires doc.Obj? && AllApart(list)
    ensures IntoAll(doc, EMPTY, list) == TrimElement(doc, set p | p in list)
  {
    if list == [] {
      assert TrimObject(doc, set p | p in list).fields == map[];
    } else {
      var rest, p := list[..|list| - 1], list[|list| - 1];
      PathByPath(doc, rest);
      var ps := set q | q in rest;
      OnePathMoreAtRoot(doc, ps, p);
      assert (set q | q in list) == ps + {p};
    }
  }

  /******* Projecting twice *******/

  /** Wherever the path meets a missing value or an array within an array, it is at its last word. */
  predicate Settles(v: Json, p: seq<string>)
    requires p != []
    decreases |p|, 1
  {
    if v.Arr? then forall i :: 0 <= i < |v.items| ==> ElementSettles(v.items[i], p) else ElementSettles(v, p)
  }

  predicate ElementSettles(v: Json, p: seq<string>)
    requires p != []
    decreases |p|, 0
  {
    if v.Arr? || Missing(v) then |p| == 1 else |p| > 1 ==> Settles(Get(v, p[0]), p[1..])
  }

  ghost predicate AllSettle(v: Json, ps: Paths)
    requires [] !in ps
  {
    forall p :: p in ps ==> Settles(v, p)
  }

  ghost predicate AllElementsSettle(v: Json, ps: Paths)
    requires [] !in ps
  {
    forall p :: p in ps ==> ElementSettles(v, p)
  }

  lemma {:induction false} TrimTwice(v: Json, ps: Paths)
    requires PrefixFree(ps)
    ensures Trim(Trim(v, ps), ps) == Trim(v, ps) <==> AllSettle(v, ps)
    decreases Depth(ps), 3
  {
    if v.Arr? {
      var once := Trim(v, ps);
      var twice := Trim(once, ps);
      forall i | 0 <= i < |v.items| ensures twice.items[i] == once.items[i] <==> AllElementsSettle(v.items[i], ps) {
        TrimElementTwice(v.items[i], ps);
      }
      assert twice == once <==> forall i :: 0 <= i < |v.items| ==> twice.items[i] == once.items[i];
    } else {
      TrimElementTwice(v, ps);
    }
  }

  /** Projecting a second time changes nothing if and only if every path settles. */
  lemma {:induction false} TrimElementTwice(v: Json, ps: Paths)
    requires PrefixFree(ps)
    ensures TrimElement(TrimElement(v, ps), ps) == TrimElement(v, ps) <==> AllElementsSettle(v, ps)
    decreases Depth(ps), 2
  {
    if v.Arr? || Missing(v) {
      TrimNothing(ps);
    } else {
      TrimObjectTwice(v, ps);
    }
  }

  lemma TrimNothing(ps: Paths)
    requires PrefixFree(ps)
    ensures TrimObject(EMPTY, ps) == EMPTY <==> forall p :: p in ps ==> |p| == 1
  {
    var r := TrimObject(EMPTY, ps);
    forall p | p in ps ensures |p| == 1 <==> p[0] !in r.fields {
      UnderPrefixFree(ps, p[0]);
    }
    assert forall k :: k in r.fields ==> exists p :: p in ps && p[0] == k && |p| > 1;
  }

  lemma {:induction false} TrimObjectTwice(v: Json, ps: Paths)
    requires PrefixFree(ps) && !v.Arr? && !Missing(v)
    ensures TrimObject(TrimObject(v, ps), ps) == TrimObject(v, ps) <==> AllElementsSettle(v, ps)
    decreases Depth(ps), 1
  {
    var once := TrimObject(v, ps).fields;
    var twice := TrimObject(Obj(once), ps).fields;
    forall k ensures (k in once <==> k in twice) && (k in once ==> (once[k] == twice[k] <==> KeySettles(v, ps, k))) {
      PropertyTwice(v, ps, k, once, twice);
    }
    forall k | k !in once ensures KeySettles(v, ps, k) {
      PropertyTwice(v, ps, k, once, twice);
    }
    assert twice == once <==> forall k :: k in once ==> once[k] == twice[k];
    assert (forall k :: KeySettles(v, ps, k)) ==> AllElementsSettle(v, ps) by {
      forall p | p in ps && KeySettles(v, ps, p[0]) ensures ElementSettles(v, p) {}
    }
  }

  ghost predicate KeySettles(v: Json, ps: Paths, k: string)
    requires [] !in ps
  {
    forall p :: p in ps && p[0] == k ==> ElementSettles(v, p)
  }

  lemma {:induction false} PropertyTwice(v: Json, ps: Paths, k: string, once: map<string, Json>,
                                         twice: map<string, Json>)
    requires PrefixFree(ps) && !v.Arr? && !Missing(v)
    requires once == TrimObject(v, ps).fields && twice == TrimObject(Obj(once), ps).fields
    ensures k in once <==> k in twice
    ensures k in once ==> (once[k] == twice[k] <==> KeySettles(v, ps, k))
    ensures k !in once ==> KeySettles(v, ps, k)
    decreases Depth(ps), 0
  {
    UnderPrefixFree(ps, k);
    if k in Heads(ps) && [k] !in ps {
      var inner, rest := Get(v, k), Under(ps, k);
      UnderIsLess(ps, k);
      TrimTwice(inner, rest);
      assert once[k] == Trim(inner, rest) && twice[k] == Trim(Trim(inner, rest), rest);
      SettlesUnder(v, ps, k);
    }
  }

  lemma SettlesUnder(v: Json, ps: Paths, k: string)
    requires PrefixFree(ps) && [k] !in ps && !v.Arr? && !Missing(v)
    ensures [] !in Under(ps, k) && (AllSettle(Get(v, k), Under(ps, k)) <==> KeySettles(v, ps, k))
  {
    UnderPrefixFree(ps, k);
    forall p | p in Under(ps, k) && KeySettles(v, ps, k) ensures Settles(Get(v, k), p) {
      OfUnder(ps, k, p);
      assert ElementSettles(v, [k] + p) && ([k] + p)[1..] == p;
    }
  }

  /** A projection made twice, the second time perhaps in another order, is as good as made once if and only if
      every path settles in the document. */
  lemma ProjectingTwice(doc: Json, list: seq<seq<string>>, again: seq<seq<string>>)
    requires doc.Obj? && AllApart(list) && AllApart(again) && forall p :: p in list <==> p in again
    ensures IntoAll(IntoAll(doc, EMPTY, list), EMPTY, again) == IntoAll(doc, EMPTY, list) <==>
            forall p :: p in list ==> ElementSettles(doc, p)
  {
    var ps := set p | p in list;
    assert ps == set p | p in again;
    forall p, q | p in ps && q in ps && p != q ensures Apart(p, q) {
      var i :| 0 <= i < |list| && list[i] == p;
      var j :| 0 <= j < |list| && list[j] == q;
      assert Apart(list[if i < j then i else j], list[if i < j then j else i]);
    }
    PathByPath(doc, list);
    PathByPath(TrimElement(doc, ps), again);
    TrimElementTwice(doc, ps);
  }

  /** A document without the first property of a longer path grows when it is projected once more. */
  lemma NotIdempotent()
    ensures var p := ["a", "b", "c"];
            var once := Into(EMPTY, EMPTY, p, true);
            && once == Obj(map["a" := EMPTY])
            && Into(once, EMPTY, p, true) == Obj(map["a" := Obj(map["b" := EMPTY])])
            && !ElementSettles(EMPTY, p)
  {
    var p := ["a", "b", "c"];
    assert p[1..] == ["b", "c"] && p[1..][1..] == ["c"];
    assert Into(Undefined, EMPTY, ["b", "c"], false) == EMPTY;
    var once := Into(EMPTY, EMPTY, p, true);
    assert once == Obj(map["a" := EMPTY]);
    assert Into(EMPTY, EMPTY, ["b", "c"], false) == Obj(map["b" := EMPTY]) by {
      assert Into(Undefined, EMPTY, ["c"], false) == EMPTY;
    }
  }
}
