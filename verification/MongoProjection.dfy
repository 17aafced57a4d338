/**
 * Inclusion by a projection: what is taken over from a document, said in one piece for a whole set of paths, and
 * the program's way of copying one path after another.
 */
module MongoProjection {
  import opened Wrappers
  import opened JsStrings
  import opened MongoJson
  import opened MongoUpdate

  type Paths = set<seq<string>>

  /******* Sets of paths *******/

  ghost function Depth(ps: Paths): nat {
    if ps == {} then 0
    else
      var p := Pick(ps);
      var d := Depth(ps - {p});
      if |p| > d then |p| else d
  }

  lemma {:induction false} DepthBounds(ps: Paths, n: nat)
    ensures Depth(ps) <= n <==> forall p :: p in ps ==> |p| <= n
  {
    if ps != {} {
      var p := Pick(ps);
      DepthBounds(ps - {p}, n);
      assert forall q :: q in ps <==> q == p || q in ps - {p};
    }
  }

  function Heads(ps: Paths): set<string> {
    set p | p in ps && p != [] :: p[0]
  }

  /** What remains of the paths that lead through a key. */
  function Under(ps: Paths, key: string): Paths {
    set p | p in ps && |p| > 1 && p[0] == key :: p[1..]
  }

  lemma UnderIsLess(ps: Paths, key: string)
    requires key in Heads(ps)
    ensures Depth(Under(ps, key)) < Depth(ps)
  {
    DepthBounds(ps, Depth(ps));
    var p :| p in ps && p != [] && p[0] == key;
    assert |p| <= Depth(ps);
    DepthBounds(Under(ps, key), Depth(ps) - 1);
  }

  /******* What a projection takes over *******/

  /** The paths taken from a value: from every element of an array, and from what is no array property by
      property. */
  ghost function Trim(source: Json, ps: Paths): (r: Json)
    ensures if source.Arr? then r.Arr? && |r.items| == |source.items| else r.Obj?
    decreases Depth(ps), 2
  {
    if source.Arr? then Arr(seq(|source.items|, i requires 0 <= i < |source.items| => TrimElement(source.items[i], ps)))
    else TrimElement(source, ps)
  }

  /** Nothing is taken from an array directly within an array. */
  ghost function TrimElement(source: Json, ps: Paths): (r: Json)
    ensures r.Obj?
    decreases Depth(ps), 1
  {
    if source.Arr? || Missing(source) then EMPTY else TrimObject(source, ps)
  }

  /** A path that goes on leaves a trace even where the document ends before it. */
  ghost function TrimObject(source: Json, ps: Paths): (r: Json)
    ensures r.Obj?
    decreases Depth(ps), 0
  {
    Obj(map key | key in Heads(ps) && ([key] in ps ==> Get(source, key) != Undefined) ::
      if [key] in ps then Get(source, key) else (UnderIsLess(ps, key); Trim(Get(source, key), Under(ps, key))))
  }

  /******* One path after another *******/

  function PutAny(o: Json, key: string, v: Json): Json {
    if CanPut(o, key) then Put(o, key, v) else o
  }

  function ElementOr(items: seq<Json>, i: nat): Json {
    if i < |items| && items[i] != Undefined then items[i] else EMPTY
  }

  /** A target after one path has been copied into it; the root of a target does not turn into an array. */
  function Into(source: Json, target: Json, words: seq<string>, root: bool): Json
    requires words != []
    decreases |words|, source
  {
    if Missing(source) then target
    else if source.Arr? then
      if target.Arr? then IntoEach(source, target.items, words)
      else if root then target
      else IntoEach(source, [], words)
    else if |words| == 1 then
      if Get(source, words[0]) != Undefined then PutAny(target, words[0], Get(source, words[0])) else target
    else
      PutAny(target, words[0], Into(Get(source, words[0]), Start(source, target, words[0]), words[1..], false))
  }

  /** Where the copy of a property starts: what is there already, or an empty array or object. */
  function Start(source: Json, target: Json, key: string): Json {
    if Get(target, key) != Undefined then Get(target, key)
    else if Get(source, key).Arr? then Arr([])
    else EMPTY
  }

  function IntoEach(source: Json, before: seq<Json>, words: seq<string>): Json
    requires source.Arr? && words != []
    decreases |words|, source, 0
  {
    Arr(seq(|source.items|, i requires 0 <= i < |source.items| =>
          Into(source.items[i], ElementOr(before, i), words, true)) +
        if |before| > |source.items| then before[|source.items|..] else [])
  }

  /******* Copying path by path gives what the whole set of paths gives *******/

  ghost predicate ApartFrom(ps: Paths, p: seq<string>) {
    forall q :: q in ps ==> Apart(q, p)
  }

  lemma UnderOneMore(ps: Paths, p: seq<string>, key: string)
    requires p != []
    ensures Under(ps + {p}, key) == if |p| > 1 && p[0] == key then Under(ps, key) + {p[1..]} else Under(ps, key)
    ensures Heads(ps + {p}) == Heads(ps) + {p[0]}
    ensures [key] in ps + {p} <==> [key] in ps || p == [key]
  {
  }

  lemma ApartUnder(ps: Paths, p: seq<string>)
    requires p != [] && ApartFrom(ps, p)
    ensures |p| == 1 ==> p[0] !in Heads(ps)
    ensures |p| > 1 ==> [p[0]] !in ps && ApartFrom(Under(ps, p[0]), p[1..])
  {
    forall q | q in ps && q != [] && q[0] == p[0] ensures |p| > 1 && |q| > 1 && Apart(q[1..], p[1..]) {
      ApartStep(q, p);
      ApartStep(q[1..], p[1..]);
    }
  }

  /** One more path. */
  lemma {:induction false} OnePathMore(source: Json, ps: Paths, p: seq<string>)
    requires p != [] && ApartFrom(ps, p)
    ensures Into(source, Trim(source, ps), p, false) == Trim(source, ps + {p})
    decreases |p|, 2
  {
    if source.Arr? {
      var before := Trim(source, ps);
      assert before.Arr? && Into(source, before, p, false) == IntoEach(source, before.items, p);
      var after := Trim(source, ps + {p}).items;
      forall i | 0 <= i < |source.items|
        ensures before.items[i] != Undefined && Into(source.items[i], before.items[i], p, true) == after[i]
      {
        OnePathMoreAtRoot(source.items[i], ps, p);
        assert before.items[i] == TrimElement(source.items[i], ps) &&
               after[i] == TrimElement(source.items[i], ps + {p});
      }
      EachInPlace(source, before.items, p, after);
    } else {
      OnePathMoreAtRoot(source, ps, p);
    }
  }

  lemma EachInPlace(source: Json, before: seq<Json>, words: seq<string>, after: seq<Json>)
    requires source.Arr? && words != [] && |before| == |after| == |source.items|
    requires forall i :: 0 <= i < |before| ==>
             before[i] != Undefined && Into(source.items[i], before[i], words, true) == after[i]
    ensures IntoEach(source, before, words) == Arr(after)
  {
    var items := IntoEach(source, before, words).items;
    assert |items| == |after|;
    assert forall i :: 0 <= i < |after| ==> ElementOr(before, i) == before[i] && items[i] == after[i];
    assert items == after;
  }

  lemma {:induction false} OnePathMoreAtRoot(source: Json, ps: Paths, p: seq<string>)
    requires p != [] && ApartFrom(ps, p)
    ensures Into(source, TrimElement(source, ps), p, true) == TrimElement(source, ps + {p})
    decreases |p|, 1
  {
    if !source.Arr? && !Missing(source) {
      OnePathMoreInObject(source, ps, p);
    }
  }

  lemma {:induction false} OnePathMoreInObject(source: Json, ps: Paths, p: seq<string>)
    requires p != [] && ApartFrom(ps, p) && !source.Arr? && !Missing(source)
    ensures Into(source, TrimObject(source, ps), p, true) == TrimObject(source, ps + {p})
    decreases |p|, 0
  {
    var key, before, after := p[0], TrimObject(source, ps).fields, TrimObject(source, ps + {p}).fields;
    OtherProperties(source, ps, p, before, after);
    OneKeyDiffers(before, after, key);
    PropertyBefore(source, ps, p, before);
    PropertyAfter(source, ps, p, after);
    if |p| > 1 {
      ApartUnder(ps, p);
      OnePathMore(Get(source, key), Under(ps, key), p[1..]);
      StartOf(source, Under(ps, key), before, p);
    }
  }

  lemma OtherProperties(source: Json, ps: Paths, p: seq<string>, before: map<string, Json>, after: map<string, Json>)
    requires p != [] && before == TrimObject(source, ps).fields && after == TrimObject(source, ps + {p}).fields
    ensures forall k :: k != p[0] ==> (k in before <==> k in after) && (k in before ==> before[k] == after[k])
  {
    forall k | k != p[0] ensures (k in before <==> k in after) && (k in before ==> before[k] == after[k]) {
      UnderOneMore(ps, p, k);
    }
  }

  lemma OneKeyDiffers(before: map<string, Json>, after: map<string, Json>, key: string)
    requires forall k :: k != key ==> (k in before <==> k in after) && (k in before ==> before[k] == after[k])
    ensures key in after ==> after == before[key := after[key]]
    ensures key !in after && key !in before ==> after == before
  {
  }

  lemma PropertyBefore(source: Json, ps: Paths, p: seq<string>, before: map<string, Json>)
    requires p != [] && ApartFrom(ps, p) && before == TrimObject(source, ps).fields
    ensures |p| == 1 ==> p[0] !in before
    ensures |p| > 1 ==>
              if p[0] in before then before[p[0]] == Trim(Get(source, p[0]), Under(ps, p[0])) else Under(ps, p[0]) == {}
  {
    ApartUnder(ps, p);
  }

  lemma PropertyAfter(source: Json, ps: Paths, p: seq<string>, after: map<string, Json>)
    requires p != [] && ApartFrom(ps, p) && after == TrimObject(source, ps + {p}).fields
    ensures |p| == 1 ==>
              (p[0] in after <==> Get(source, p[0]) != Undefined) &&
                  (p[0] in after ==> after[p[0]] == Get(source, p[0]))
    ensures |p| > 1 ==> p[0] in after && after[p[0]] == Trim(Get(source, p[0]), Under(ps, p[0]) + {p[1..]})
  {
    ApartUnder(ps, p);
    UnderOneMore(ps, p, p[0]);
    if |p| == 1 { assert p == [p[0]]; }
  }

  lemma StartOf(source: Json, rest: Paths, before: map<string, Json>, p: seq<string>)
    requires |p| > 1
    requires var v := Get(source, p[0]); if p[0] in before then before[p[0]] == Trim(v, rest) else rest == {}
    ensures var v := Get(source, p[0]);
            Into(v, Start(source, Obj(before), p[0]), p[1..], false) == Into(v, Trim(v, rest), p[1..], false)
  {
    var v := Get(source, p[0]);
    FreshStart(v, p[1..]);
    if p[0] in before {
      assert Start(source, Obj(before), p[0]) == Trim(v, rest);
    } else {
      assert Start(source, Obj(before), p[0]) == if v.Arr? then Arr([]) else EMPTY;
    }
  }

  /** An empty array or object does as well as what an empty set of paths takes over. */
  lemma FreshStart(v: Json, words: seq<string>)
    requires words != []
    ensures Into(v, if v.Arr? then Arr([]) else EMPTY, words, false) == Into(v, Trim(v, {}), words, false)
  {
    assert TrimObject(v, {}).fields == map[];
    if v.Arr? {
      assert IntoEach(v, [], words).items == IntoEach(v, Trim(v, {}).items, words).items;
    }
  }
}
