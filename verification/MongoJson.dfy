/**
 * The values that documents and selectors are made of.
 *
 * The fields of an object form a map, so that equality is deep equality; wherever the program goes
 * through the fields of an object it does so here in no particular order.
 */
module MongoJson {
  import opened Wrappers
  import opened JsStrings

  datatype Json =
    | Undefined
    | Null
    | Bool(b: bool)
    | Num(n: real)
    | Str(s: string)
    | Regex(source: string)
    | Arr(items: seq<Json>)
    | Obj(fields: map<string, Json>)

  const EMPTY := Obj(map[])

  /** typeof v === 'object', for a v that is not null. */
  predicate IsObject(v: Json) {
    v.Obj? || v.Arr? || v.Regex?
  }

  predicate Missing(v: Json) {
    v == Undefined || v == Null
  }

  /** v || {}, for a v that is an object or undefined. */
  function OrEmpty(v: Json): Json {
    if IsObject(v) then v else EMPTY
  }

  predicate Truthy(v: Json) {
    match v
    case Undefined => false
    case Null => false
    case Bool(b) => b
    case Num(n) => n != 0.0
    case Str(s) => s != ""
    case _ => true
  }

  /** Reading a property; null and undefined have none to read. */
  function Get(v: Json, key: string): Json {
    match v
    case Obj(fields) => if key in fields then fields[key] else Undefined
    case Arr(items) =>
      if IsIndex(key) && IndexValue(key) < |items| then items[IndexValue(key)]
      else if key == "length" then Num(|items| as real)
      else Undefined
    case Str(s) =>
      if IsIndex(key) && IndexValue(key) < |s| then Str([s[IndexValue(key)]])
      else if key == "length" then Num(|s| as real)
      else Undefined
    case _ => Undefined
  }

  function ReadPath(v: Json, words: seq<string>): Json
    decreases |words|
  {
    if words == [] then v else ReadPath(Get(v, words[0]), words[1..])
  }

  /** The own enumerable properties of an object. */
  function Fields(v: Json): map<string, Json> {
    match v
    case Obj(fields) => fields
    case Arr(items) => map key | key in IndexKeys(|items|) :: items[IndexOf(key, |items|)]
    case _ => map[]
  }

  function IndexKeys(n: nat): set<string> {
    set i | 0 <= i < n :: Decimal(i)
  }

  function IndexOf(key: string, n: nat): (i: nat)
    requires key in IndexKeys(n)
    ensures i < n && Decimal(i) == key
  {
    var i :| 0 <= i < n && Decimal(i) == key;
    DecimalsDiffer(n, key);
    i
  }

  lemma DecimalsDiffer(n: nat, key: string)
    ensures forall i: nat, j: nat :: Decimal(i) == key && Decimal(j) == key ==> i == j
  {
    forall i: nat, j: nat | Decimal(i) == key && Decimal(j) == key ensures i == j {
      DecimalReadsBack(i);
      DecimalReadsBack(j);
    }
  }

  /******* Keys *******/

  predicate HasDot(key: string) {
    '.' in key
  }

  function Head(key: string): string {
    if key == "" || key[0] == '.' then "" else [key[0]] + Head(key[1..])
  }

  /** What follows the first dot: the other words, joined again. */
  function Rest(key: string): (r: string)
    ensures |r| <= |key| && (HasDot(key) ==> |r| < |key|)
  {
    if key == "" then "" else if key[0] == '.' then key[1..] else Rest(key[1..])
  }

  function Words(key: string): (words: seq<string>)
    ensures words != []
    decreases |key|
  {
    if HasDot(key) then [Head(key)] + Words(Rest(key)) else [key]
  }

  predicate IsOperator(key: string) {
    key != "" && key[0] == '$'
  }

  /** An object with an operator among its keys. */
  predicate IsOperators(v: Json) {
    v.Obj? && exists k :: k in v.fields && IsOperator(k)
  }

  /******* Comparison *******/

  /** Strings by their code units. */
  predicate StrLess(a: string, b: string) {
    if b == "" then false
    else if a == "" then true
    else a[0] < b[0] || (a[0] == b[0] && StrLess(a[1..], b[1..]))
  }

  function Numeric(v: Json): Option<real> {
    match v
    case Num(n) => Some(n)
    case Bool(b) => Some(if b then 1.0 else 0.0)
    case Null => Some(0.0)
    case _ => None
  }

  predicate Comparable(a: Json, b: Json) {
    (a.Str? && b.Str?) || (Numeric(a).Some? && Numeric(b).Some?)
  }

  /** a < b; false for values that are not comparable. */
  predicate Less(a: Json, b: Json) {
    if a.Str? && b.Str? then StrLess(a.s, b.s)
    else Comparable(a, b) && Numeric(a).value < Numeric(b).value
  }
}
