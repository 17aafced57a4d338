/**
 * What a selector means: a declarative reading of the supported query language, and the rank by which
 * matching comes to an end.
 */
module MongoSemantics {
  import opened Wrappers
  import opened JsStrings
  import opened MongoJson

  /** Whether a regular expression, given as pattern and options, finds something in a string. */
  type RegexEngine = (Json, Json, string) -> bool

  /******* Ranks *******/

  ghost function Max(a: nat, b: nat): nat {
    if a < b then b else a
  }

  /** The rank of a selector. */
  ghost function SelRank(sel: Json): nat
    decreases sel, 2, 0
  {
    match sel
    case Obj(fields) => 1 + MaxEntryRank(sel, fields.Keys)
    case Arr(items) => 1 + MaxCondRank(sel, |items|)
    case _ => 0
  }

  ghost function MaxEntryRank(sel: Json, keys: set<string>): nat
    requires sel.Obj? && keys <= sel.fields.Keys
    decreases sel, 1, keys
  {
    if keys == {} then 0
    else
      var k := Pick(keys);
      Max(EntryRank(Words(k), sel.fields[k]), MaxEntryRank(sel, keys - {k}))
  }

  ghost function MaxCondRank(arr: Json, n: nat): nat
    requires arr.Arr? && n <= |arr.items|
    decreases arr, 1, n
  {
    if n == 0 then 0 else Max(CondRank(arr.items[n - 1]), MaxCondRank(arr, n - 1))
  }

  ghost function MaxSelRank(arr: Json, n: nat): nat
    requires arr.Arr? && n <= |arr.items|
    decreases arr, 1, n
  {
    if n == 0 then 0 else Max(SelRank(arr.items[n - 1]), MaxSelRank(arr, n - 1))
  }

  /** Every word before the last costs two, one of them for the selector made of the rest. */
  ghost function EntryRank(words: seq<string>, s: Json): nat
    requires words != []
    decreases s, 5, 0
  {
    2 * (|words| - 1) + LastRank(words[|words| - 1], s)
  }

  ghost function LastRank(key: string, s: Json): nat
    decreases s, 4, 0
  {
    if key == "$or" || key == "$and" then (if s.Arr? then 1 + MaxSelRank(s, |s.items|) else 0)
    else CondRank(s)
  }

  /** A plain value ranks above the { $eq: value } it is rewritten to. */
  ghost function CondRank(s: Json): nat
    decreases s, 3, 0
  {
    if IsOperators(s) then 1 + MaxOpRank(s, s.fields.Keys)
    else if s.Obj? || s.Arr? then 1 + SelRank(s)
    else 3
  }

  ghost function MaxOpRank(s: Json, ops: set<string>): nat
    requires s.Obj? && ops <= s.fields.Keys
    decreases s, 1, ops
  {
    if ops == {} then 0
    else
      var op := Pick(ops);
      Max(OpRank(op, s.fields[op]), MaxOpRank(s, ops - {op}))
  }

  ghost function OpRank(op: string, v: Json): nat
    decreases v, 6, 0
  {
    if op == "$elemMatch" then 1 + SelRank(v)
    else if op == "$not" then 2 + CondRank(v)
    else 0
  }

  lemma {:induction false} EntryBelow(sel: Json, keys: set<string>, key: string)
    requires sel.Obj? && keys <= sel.fields.Keys && key in keys
    ensures EntryRank(Words(key), sel.fields[key]) <= MaxEntryRank(sel, keys)
    decreases keys
  {
    var k := Pick(keys);
    if k != key { EntryBelow(sel, keys - {k}, key); }
  }

  lemma {:induction false} CondBelow(arr: Json, n: nat, i: nat)
    requires arr.Arr? && i < n <= |arr.items|
    ensures CondRank(arr.items[i]) <= MaxCondRank(arr, n) && SelRank(arr.items[i]) <= MaxSelRank(arr, n)
  {
    if i < n - 1 { CondBelow(arr, n - 1, i); }
  }

  lemma {:induction false} OpBelow(s: Json, ops: set<string>, op: string)
    requires s.Obj? && ops <= s.fields.Keys && op in ops
    ensures OpRank(op, s.fields[op]) <= MaxOpRank(s, ops)
    decreases ops
  {
    var o := Pick(ops);
    if o != op { OpBelow(s, ops - {o}, op); }
  }

  lemma {:induction false} DecimalIsPlain(n: nat)
    ensures Decimal(n) != "" && forall i :: 0 <= i < |Decimal(n)| ==> '0' <= Decimal(n)[i] <= '9'
  {
    if n >= 10 { DecimalIsPlain(n / 10); }
  }

  /** Every entry of a selector ranks below it. */
  lemma FieldBelow(sel: Json, key: string)
    requires key in Fields(sel)
    ensures EntryRank(Words(key), Fields(sel)[key]) < SelRank(sel)
  {
    if sel.Obj? {
      EntryBelow(sel, sel.fields.Keys, key);
    } else {
      var i := IndexOf(key, |sel.items|);
      IndexIsPlain(i, sel.items[i]);
      CondBelow(sel, |sel.items|, i);
    }
  }

  /** An index is one word, and no operator. */
  lemma IndexIsPlain(i: nat, s: Json)
    ensures EntryRank(Words(Decimal(i)), s) == CondRank(s)
  {
    DecimalIsPlain(i);
    var key := Decimal(i);
    forall k | 0 <= k < |key| ensures key[k] != '.' {
      assert '0' <= key[k] <= '9';
    }
    assert !HasDot(key) && Words(key) == [key];
    assert key[0] != '$' && key != "$or" && key != "$and";
  }

  /******* Meaning *******/

  /** A document matches a selector when every entry holds, in whatever order they are taken. */
  ghost predicate Matches(rx: RegexEngine, o: Json, sel: Json)
    decreases SelRank(sel), 0
  {
    IsObject(sel) &&
    forall key :: key in Fields(sel) ==> (FieldBelow(sel, key); PathHolds(rx, o, Words(key), Fields(sel)[key]))
  }

  /** A path passes through objects, and through an array by way of any of its elements. */
  ghost predicate PathHolds(rx: RegexEngine, o: Json, words: seq<string>, s: Json)
    requires words != []
    decreases EntryRank(words, s), 2
  {
    if |words| == 1 then LastHolds(rx, o, words[0], s)
    else
      assert words[1..][|words| - 2] == words[|words| - 1];
      var v := Get(o, words[0]);
      if v.Arr? then exists i :: 0 <= i < |v.items| && PathHolds(rx, OrEmpty(v.items[i]), words[1..], s)
      else (IsObject(v) || v.Undefined?) && PathHolds(rx, OrEmpty(v), words[1..], s)
  }

  ghost predicate LastHolds(rx: RegexEngine, o: Json, key: string, s: Json)
    decreases LastRank(key, s), 1
  {
    if key == "$or" then
      s.Arr? && exists i :: 0 <= i < |s.items| && (CondBelow(s, |s.items|, i); Matches(rx, o, s.items[i]))
    else if key == "$and" then
      s.Arr? && s.items != [] && forall i :: 0 <= i < |s.items| ==>
          (CondBelow(s, |s.items|, i); Matches(rx, o, s.items[i]))
    else !IsOperator(key) && Holds(rx, Get(o, key), s)
  }

  /** What a condition says of the value of a field. */
  ghost predicate Holds(rx: RegexEngine, v: Json, s: Json)
    decreases CondRank(s), 0
  {
    if s.Regex? then RegexHolds(rx, v, s, Undefined)
    else if IsOperators(s) then
      forall op :: op in s.fields ==> (OpBelow(s, s.fields.Keys, op); OpHolds(rx, v, op, s.fields))
    else if s.Obj? || s.Arr? then (IsObject(v) || v.Undefined?) && Matches(rx, OrEmpty(v), s)
    else v == s
  }

  ghost predicate OpHolds(rx: RegexEngine, v: Json, op: string, operators: map<string, Json>)
    requires op in operators
    decreases OpRank(op, operators[op]), 1
  {
    var w := operators[op];
    match op
    case "$elemMatch" => v.Arr? && exists i :: 0 <= i < |v.items| && Matches(rx, v.items[i], w)
    case "$gt" => Less(w, v)
    case "$gte" => Comparable(v, w) && !Less(v, w)
    case "$lt" => Less(v, w)
    case "$lte" => Comparable(v, w) && !Less(w, v)
    case "$eq" => v == w
    case "$ne" => v != w
    case "$in" => AnyOf(v, w)
    case "$nin" => !AnyOf(v, w)
    case "$exists" => (v != Undefined) == Truthy(w)
    case "$regex" => RegexHolds(rx, v, w, if "$options" in operators then operators["$options"] else Undefined)
    case "$options" => true
    case "$not" => !Holds(rx, v, w)
    case _ => false
  }

  /** The value, or any element of it, is on the list. */
  predicate AnyOf(v: Json, list: Json) {
    list.Arr? && (v in list.items || (v.Arr? && exists i :: 0 <= i < |v.items| && v.items[i] in list.items))
  }

  predicate RegexHolds(rx: RegexEngine, v: Json, pattern: Json, options: Json) {
    || (v.Str? && rx(pattern, options, v.s))
    || (v.Arr? && exists i :: 0 <= i < |v.items| && v.items[i].Str? && rx(pattern, options, v.items[i].s))
  }

  /******* Supported selectors, and documents they can be applied to *******/

  /** Only operators that are implemented, with operands of the right kind. */
  ghost predicate Supported(sel: Json)
    decreases SelRank(sel), 0
  {
    sel != Null &&
    forall key :: key in Fields(sel) ==> (FieldBelow(sel, key); SupportedPath(Words(key), Fields(sel)[key]))
  }

  ghost predicate SupportedPath(words: seq<string>, s: Json)
    requires words != []
    decreases EntryRank(words, s), 2
  {
    SupportedLast(words[|words| - 1], s)
  }

  ghost predicate SupportedLast(key: string, s: Json)
    decreases LastRank(key, s), 1
  {
    if key == "$or" || key == "$and" then
      s.Arr? && (key == "$and" ==> s.items != []) &&
      forall i :: 0 <= i < |s.items| ==> (CondBelow(s, |s.items|, i); Supported(s.items[i]))
    else !IsOperator(key) && SupportedCond(s)
  }

  ghost predicate SupportedCond(s: Json)
    decreases CondRank(s), 0
  {
    if IsOperators(s) then
      forall op :: op in s.fields ==> (OpBelow(s, s.fields.Keys, op); SupportedOp(op, s.fields))
    else if s.Obj? || s.Arr? then Supported(s)
    else true
  }

  ghost predicate SupportedOp(op: string, operators: map<string, Json>)
    requires op in operators
    decreases OpRank(op, operators[op]), 1
  {
    var w := operators[op];
    match op
    case "$elemMatch" => Supported(w)
    case "$not" => SupportedCond(w)
    case "$in" => w.Arr?
    case "$nin" => w.Arr?
    case "$options" => "$regex" in operators
    case _ => op in {"$gt", "$gte", "$lt", "$lte", "$eq", "$ne", "$exists", "$regex"}
  }

  /** No array anywhere within holds null or undefined. */
  ghost predicate Clean(v: Json) {
    match v
    case Arr(items) => forall i :: 0 <= i < |items| ==> items[i] != Null && items[i] != Undefined && Clean(items[i])
    case Obj(fields) => forall k :: k in fields ==> Clean(fields[k])
    case _ => true
  }

  /** A document whose properties can be read, and those of its array elements too. */
  ghost predicate Readable(v: Json) {
    v != Null && v != Undefined && Clean(v)
  }
}
