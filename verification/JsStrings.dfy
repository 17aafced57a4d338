/** Decimal numbers in strings, and which property keys are array indices. */
module JsStrings {
  import opened Wrappers

  function DigitChar(d: nat): char
    requires d < 10
  {
    "0123456789"[d]
  }

  function Decimal(n: nat): string {
    if n < 10 then [DigitChar(n)] else Decimal(n / 10) + [DigitChar(n % 10)]
  }

  function DigitValue(c: char): Option<nat> {
    if '0' <= c <= '9' then Some(c as int - '0' as int) else None
  }

  /** Number of a string of decimal digits; None is what is not a number. */
  function ToNumber(s: string): Option<nat> {
    if s == [] then Some(0)
    else
      match (ToNumber(s[..|s| - 1]), DigitValue(s[|s| - 1]))
      case (Some(n), Some(d)) => Some(10 * n + d)
      case _ => None
  }

  lemma {:induction false} DecimalReadsBack(n: nat)
    ensures ToNumber(Decimal(n)) == Some(n)
  {
    if n < 10 {
      assert [DigitChar(n)][..0] == [];
    } else {
      DecimalReadsBack(n / 10);
      assert (Decimal(n / 10) + [DigitChar(n % 10)])[..|Decimal(n / 10)|] == Decimal(n / 10);
    }
  }

  /** Keys that are array indices: canonical decimals below 2^32 - 1. */
  predicate IsIndex(key: string) {
    var n := ToNumber(key);
    n.Some? && n.value < 0xFFFF_FFFF && Decimal(n.value) == key
  }

  function IndexValue(key: string): nat
    requires IsIndex(key)
  {
    ToNumber(key).value
  }

  lemma DigitsAreIndices()
    ensures IsIndex("1") && IndexValue("1") == 1 && IsIndex("2") && IndexValue("2") == 2
  {
    assert ["1"[0]][..0] == [] && "1"[..0] == [] && "2"[..0] == [];
  }
}
