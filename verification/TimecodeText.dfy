/** Printing a label and reading it back. */
module TimecodeText {
  import opened Wrappers
  import opened JsStrings
  import opened DropFrame
  import opened TimecodeLabels

  function ZeroPad(n: int): string {
    (if n < 10 then "0" else "") + (if n < 0 then "-" + Decimal(-n) else Decimal(n))
  }

  function Print(drop: bool, l: Label): string {
    ZeroPad(l.hours) + ":" + ZeroPad(l.minutes) + ":" + ZeroPad(l.seconds) +
    (if drop then ";" else ":") + ZeroPad(l.frames)
  }

  datatype Parsed = Fields(read: Label) | WrongLength | NotNumbers

  function Parse(rate: Framerate, s: string): Parsed {
    if |s| != 11 && !(|s| == 12 && rate.Ms?) then WrongLength
    else
      match (ToNumber(s[0..2]), ToNumber(s[3..5]), ToNumber(s[6..8]), ToNumber(s[9..]))
      case (Some(h), Some(m), Some(sec), Some(f)) => Fields(Label(h, m, sec, f))
      case _ => NotNumbers
  }

  lemma PadReadsBack(n: nat)
    ensures ToNumber(ZeroPad(n)) == Some(n)
    ensures n < 100 ==> |ZeroPad(n)| == 2
    ensures 100 <= n < 1000 ==> |ZeroPad(n)| == 3
    ensures 1000 <= n ==> |ZeroPad(n)| > 3
  {
    DecimalReadsBack(n);
    if n < 10 {
      assert ZeroPad(n) == ['0', DigitChar(n)];
      assert ZeroPad(n)[..1] == ['0'] && ['0'][..0] == [];
    } else {
      assert ZeroPad(n) == Decimal(n);
      DecimalLength(n);
    }
  }

  lemma DecimalLength(n: nat)
    ensures |Decimal(n)| >= 1
    ensures 10 <= n < 100 ==> |Decimal(n)| == 2
    ensures 100 <= n < 1000 ==> |Decimal(n)| == 3
    ensures 1000 <= n ==> |Decimal(n)| > 3
  {
  }

  lemma Cuts(a: string, b: string, c: string, d: string, delim: char)
    requires |a| == |b| == |c| == 2
    ensures var s := a + ":" + b + ":" + c + [delim] + d;
            |s| == 9 + |d| && s[0..2] == a && s[3..5] == b && s[6..8] == c && s[9..] == d
  {
  }

  /** Two digits each for hours, minutes and seconds, and a semicolon before the frames if labels are dropped. */
  lemma Delimiters(drop: bool, l: Label)
    requires 0 <= l.hours < 100 && 0 <= l.minutes < 100 && 0 <= l.seconds < 100 && 0 <= l.frames
    ensures var text := Print(drop, l);
            |text| > 9 && text[2] == text[5] == ':' && text[8] == (if drop then ';' else ':')
    ensures Print(drop, l)[..2] == ZeroPad(l.hours) && Print(drop, l)[9..] == ZeroPad(l.frames)
  {
    PadReadsBack(l.hours);
    PadReadsBack(l.minutes);
    PadReadsBack(l.seconds);
    PadReadsBack(l.frames);
    PadLength(l.frames);
  }

  lemma PadLength(n: nat)
    ensures |ZeroPad(n)| >= 1
  {
    DecimalLength(n);
  }

  /** A label in range is read back exactly as it was printed if and only if its frames have as many digits
      as the rate allows: two, or three for milliseconds. */
  lemma PrintReadsBack(rate: Framerate, drop: bool, l: Label)
    requires 0 <= l.hours < 24 && 0 <= l.minutes < 60 && 0 <= l.seconds < 60 && 0 <= l.frames
    ensures l.frames < (if rate.Ms? then 1000 else 100) <==> Parse(rate, Print(drop, l)) == Fields(l)
    ensures l.frames >= (if rate.Ms? then 1000 else 100) ==> Parse(rate, Print(drop, l)) == WrongLength
  {
    PadReadsBack(l.hours);
    PadReadsBack(l.minutes);
    PadReadsBack(l.seconds);
    PadReadsBack(l.frames);
    Cuts(ZeroPad(l.hours), ZeroPad(l.minutes), ZeroPad(l.seconds), ZeroPad(l.frames), if drop then ';' else ':');
  }
}
