/**
 * The Timecode object: a frame count, and the label shown for it.
 */
module Timecodes {
  import opened Wrappers
  import opened JsStrings
  import opened DropFrame
  import opened TimecodeLabels
  import opened TimecodeText

  /** The number a framerate text stands for: with up to two digits after a point. */
  function RateOf(framerate: string): Option<Framerate> {
    var n := |framerate|;
    if framerate == "ms" then Some(Ms)
    else if ToNumber(framerate).Some? then Some(Fps(100 * ToNumber(framerate).value))
    else if n >= 3 && framerate[n - 3] == '.' then InHundredths(framerate[..n - 3], framerate[n - 2..])
    else if n >= 2 && framerate[n - 2] == '.' then InHundredths(framerate[..n - 2], framerate[n - 1..] + "0")
    else None
  }

  function InHundredths(whole: string, digits: string): Option<Framerate> {
    match (ToNumber(whole), ToNumber(digits))
    case (Some(a), Some(b)) => Some(Fps(100 * a + b))
    case _ => None
  }

  /** How a timecode counts. */
  datatype Format = Format(framerate: string, drop: bool) {
    predicate Valid() {
      RateOf(framerate).Some? && Sound(Rate(), drop)
    }

    function Rate(): Framerate
      requires RateOf(framerate).Some?
    {
      RateOf(framerate).value
    }
  }

  /** What add and subtract take: a frame count, a text, or another timecode. */
  datatype Offset = Frames(count: int) | Text(text: string) | Other(framerate: string, count: int)

  /** The framerate and count an offset stands for; None when reading it throws.  A text without numbers has a
      count that is not a number, which is skipped as zero is. */
  function Amount(f: Format, o: Offset): Option<(string, int)>
    requires f.Valid()
  {
    match o
    case Frames(count) => Some((f.framerate, count))
    case Other(framerate, count) => Some((framerate, count))
    case Text(text) =>
      match Parse(f.Rate(), text)
      case Fields(l) => Some((f.framerate, CountOf(f.Rate(), f.drop, l)))
      case NotNumbers => Some((f.framerate, 0))
      case WrongLength => None
  }

  /** An offset that is taken: it can be read, and is zero or has the same framerate, written the same way. */
  predicate Taken(f: Format, o: Offset)
    requires f.Valid()
  {
    var a := Amount(f, o);
    a.Some? && (a.value.1 != 0 ==> a.value.0 == f.framerate)
  }

  /** The offsets before the first that is not taken. */
  function TakenPrefix(f: Format, offsets: seq<Offset>): (n: nat)
    requires f.Valid()
    ensures n <= |offsets|
    ensures forall i :: 0 <= i < n ==> Taken(f, offsets[i])
    ensures n < |offsets| ==> !Taken(f, offsets[n])
  {
    if offsets == [] || !Taken(f, offsets[0]) then 0 else 1 + TakenPrefix(f, offsets[1..])
  }

  function Sum(f: Format, offsets: seq<Offset>): int
    requires f.Valid()
    requires forall o :: o in offsets ==> Taken(f, o)
  {
    if offsets == [] then 0
    else
      var last := offsets[|offsets| - 1];
      assert last in offsets && Taken(f, last);
      Sum(f, offsets[..|offsets| - 1]) + Amount(f, last).value.1
  }

  /** The same number written in two ways makes two framerates. */
  lemma OtherWritingIsRefused(count: int)
    requires count != 0
    ensures var f := Format("25", false);
            f.Valid() && RateOf("25.00") == RateOf("25") && !Taken(f, Other("25.00", count))
  {
    TwoDigits('2', '5');
    TwoDigits('0', '0');
    NoNumber("25.00", 2);
    assert "25.00"[..2] == "25" && "25.00"[3..] == "00";
  }

  /** Adding a count, or a timecode of the same framerate, adds its count, and subtracting subtracts it; a text
      stands for the count of its label. */
  lemma OneOffset(f: Format, n: int, text: string)
    requires f.Valid() && Parse(f.Rate(), text).Fields?
    ensures forall o :: o in [Frames(n), Other(f.framerate, n)] ==>
              SignedSum(f, [Operation(false, [o])]) == n && SignedSum(f, [Operation(true, [o])]) == -n
    ensures SignedSum(f, [Operation(false, [Text(text)])]) == CountOf(f.Rate(), f.drop, Parse(f.Rate(), text).read)
  {
    OneTaken(f, Frames(n), n);
    OneTaken(f, Other(f.framerate, n), n);
    OneTaken(f, Text(text), CountOf(f.Rate(), f.drop, Parse(f.Rate(), text).read));
  }

  lemma OneTaken(f: Format, o: Offset, n: int)
    requires f.Valid() && Amount(f, o) == Some((f.framerate, n))
    ensures SignedSum(f, [Operation(false, [o])]) == n && SignedSum(f, [Operation(true, [o])]) == -n
  {
    assert Taken(f, o) && [o][1..] == [] && [o][..0] == [];
    assert TakenPrefix(f, [o]) == 1 && [o][..1] == [o];
    assert Sum(f, [o]) == n;
    forall minus ensures SignedSum(f, [Operation(minus, [o])]) == if minus then -n else n {
      assert [Operation(minus, [o])][1..] == [];
    }
  }

  /** The two framerates that are counted with dropped labels. */
  lemma DropFrameRates()
    ensures RateOf("29.97") == Some(Fps(Rate(1))) && RateOf("59.94") == Some(Fps(Rate(2)))
  {
    assert "29.97"[..2] == "29" && "29.97"[3..] == "97" && "59.94"[..2] == "59" && "59.94"[3..] == "94";
    TwoDigits('2', '9');
    TwoDigits('9', '7');
    TwoDigits('5', '9');
    TwoDigits('9', '4');
    NoNumber("29.97", 2);
    NoNumber("59.94", 2);
  }

  lemma TwoDigits(a: char, b: char)
    requires '0' <= a <= '9' && '0' <= b <= '9'
    ensures ToNumber([a, b]) == Some(10 * DigitValue(a).value + DigitValue(b).value)
  {
    assert [a, b][..1] == [a] && [a][..0] == [];
    assert ToNumber([]) == Some(0);
    assert ToNumber([a]) == Some(DigitValue(a).value);
  }

  lemma {:induction false} NoNumber(s: string, i: nat)
    requires i < |s| && DigitValue(s[i]).None?
    ensures ToNumber(s).None?
  {
    if i < |s| - 1 { NoNumber(s[..|s| - 1], i); }
  }

  class Timecode {
    const format: Format
    var hours: int
    var minutes: int
    var seconds: int
    var frames: int
    var frameCount: int

    function Shown(): Label
      reads this
    {
      Label(hours, minutes, seconds, frames)
    }

    /** The label is always that of the frame count. */
    ghost predicate Valid()
      reads this
    {
      format.Valid() && Shown() == LabelOf(format.Rate(), format.drop, frameCount)
    }

    constructor (format: Format, count: int)
      requires format.Valid()
      ensures Valid() && this.format == format && frameCount == count
    {
      this.format := format;
      frameCount := count;
      hours, minutes, seconds, frames := 0, 0, 0, 0;
      new;
      FrameNumberToTimecode();
    }

    method SetFrames(count: int)
      requires Valid()
      modifies this
      ensures Valid() && frameCount == count
    {
      frameCount := count;
      FrameNumberToTimecode();
    }

    /** A text of a wrong length is refused and leaves the object as it was. */
    method SetText(text: string) returns (ok: bool)
      requires Valid() && Parse(format.Rate(), text) != NotNumbers
      modifies this
      ensures Valid() && ok == Parse(format.Rate(), text).Fields?
      ensures frameCount ==
              if ok then CountOf(format.Rate(), format.drop, Parse(format.Rate(), text).read) else old(frameCount)
    {
      var parsed := Parse(format.Rate(), text);
      if parsed.WrongLength? { return false; }
      hours, minutes, seconds, frames :=
        parsed.read.hours, parsed.read.minutes, parsed.read.seconds, parsed.read.frames;
      frameCount := CountOf(format.Rate(), format.drop, Shown());
      FrameNumberToTimecode();
      ok := true;
    }

    method ToString() returns (text: string)
      requires Valid()
      ensures text == Print(format.drop, Shown())
    {
      text := Print(format.drop, Shown());
    }

    method FrameNumberToTimecode()
      requires format.Valid()
      modifies this
      ensures Valid() && frameCount == old(frameCount)
    {
      var l := LabelOf(format.Rate(), format.drop, frameCount);
      hours, minutes, seconds, frames := l.hours, l.minutes, l.seconds, l.frames;
    }

    /** Offsets are added or subtracted in turn, up to the first that throws. */
    method Calculate(minus: bool, offsets: seq<Offset>) returns (ok: bool)
      requires Valid()
      modifies this
      ensures Valid()
      ensures ok == (TakenPrefix(format, offsets) == |offsets|)
      ensures var sum := Sum(format, offsets[..TakenPrefix(format, offsets)]);
              frameCount == old(frameCount) + if minus then -sum else sum
    {
      for i := 0 to |offsets|
        invariant Valid()
        invariant forall j :: 0 <= j < i ==> Taken(format, offsets[j])
        invariant frameCount == old(frameCount) +
                    var sum := Sum(format, offsets[..i]); if minus then -sum else sum
      {
        var amount := Amount(format, offsets[i]);
        if amount.None? { return false; }
        var (framerate, count) := amount.value;
        if count != 0 {
          if framerate != format.framerate { return false; }
          frameCount := frameCount + if minus then -count else count;
          FrameNumberToTimecode();
        }
        SumNext(format, offsets, i);
      }
      assert offsets[..|offsets|] == offsets;
      ok := true;
    }

    /** Any sequence of adds and subtracts leaves the count at the signed sum, whose label is shown. */
    method CalculateAll(operations: seq<Operation>)
      requires Valid()
      modifies this
      ensures Valid() && frameCount == old(frameCount) + SignedSum(format, operations)
      ensures Shown() == LabelOf(format.Rate(), format.drop, old(frameCount) + SignedSum(format, operations))
    {
      for i := 0 to |operations|
        invariant Valid()
        invariant frameCount + SignedSum(format, operations[i..]) ==
                  old(frameCount) + SignedSum(format, operations)
      {
        assert operations[i..][1..] == operations[i + 1..];
        var _ := Calculate(operations[i].minus, operations[i].offsets);
      }
    }
  }

  lemma SumNext(f: Format, offsets: seq<Offset>, i: nat)
    requires f.Valid() && i < |offsets| && forall j :: 0 <= j <= i ==> Taken(f, offsets[j])
    ensures Sum(f, offsets[..i + 1]) == Sum(f, offsets[..i]) + Amount(f, offsets[i]).value.1
  {
    assert offsets[..i + 1][..i] == offsets[..i];
  }

  /******* Over any sequence of operations *******/

  /** One call of add or subtract. */
  datatype Operation = Operation(minus: bool, offsets: seq<Offset>)

  /** The offsets taken by each call, added up with their signs. */
  function SignedSum(f: Format, operations: seq<Operation>): int
    requires f.Valid()
    decreases |operations|
  {
    if operations == [] then 0
    else
      var op := operations[0];
      var sum := Sum(f, op.offsets[..TakenPrefix(f, op.offsets)]);
      (if op.minus then -sum else sum) + SignedSum(f, operations[1..])
  }

  /** The label of any count of a drop-frame timecode, a signed sum for one, is that of the sum modulo a day. */
  lemma DropFrameArithmetic(k: nat, total: int)
    requires k == 1 || k == 2
    ensures Sound(Fps(Rate(k)), true)
    ensures LabelOf(Fps(Rate(k)), true, total) == FrameToDropLabel(Rate(k), total % Day(k))
    ensures Legal(k, LabelOf(Fps(Rate(k)), true, total))
  {
    Constants(k);
    LabelOfAnyFrame(k, total);
  }

  /** Without drop frames the same holds if and only if the sum is not below zero. */
  lemma PlainArithmetic(rate: Framerate, total: int)
    requires Sound(rate, false)
    ensures var fps := IntFramerate(rate);
            total >= 0 <==>
            InRange(fps, LabelOf(rate, false, total)) &&
                PlainCount(fps, LabelOf(rate, false, total)) == total % (86400 * fps)
  {
    NonDropExact(IntFramerate(rate), total);
  }

  /** Printing and reading back a drop-frame timecode restores the label and the count modulo a day. */
  lemma DropFrameTextRoundTrip(k: nat, n: int)
    requires k == 1 || k == 2
    ensures var rate := Fps(Rate(k));
            && Sound(rate, true)
            && var l := LabelOf(rate, true, n); var parsed := Parse(rate, Print(true, l));
            && parsed == Fields(l)
            && CountOf(rate, true, parsed.read) == n % Day(k)
            && LabelOf(rate, true, CountOf(rate, true, parsed.read)) == l
  {
    Constants(k);
    LabelOfAnyFrame(k, n);
    FrameRoundTrip(k, n % Day(k));
    PrintReadsBack(Fps(Rate(k)), true, FrameToDropLabel(Rate(k), n));
  }

  /** Without drop frames it does so for every count if the rate is milliseconds or at most 100. */
  lemma PlainTextRoundTrip(rate: Framerate, n: nat)
    requires Sound(rate, false) && (rate.Ms? || IntFramerate(rate) <= 100)
    ensures var l := LabelOf(rate, false, n); var parsed := Parse(rate, Print(false, l));
            && parsed == Fields(l)
            && CountOf(rate, false, parsed.read) == n % (86400 * IntFramerate(rate))
            && LabelOf(rate, false, CountOf(rate, false, parsed.read)) == l
  {
    var fps := IntFramerate(rate);
    NonDropExact(fps, n);
    var l := LabelOf(rate, false, n);
    PrintReadsBack(rate, false, l);
    PlainRoundTrip(fps, l);
  }

  /** At higher rates a label can be printed that is refused when read. */
  lemma HighRatesDoNotReadBack(hundredths: nat)
    requires IntRate(hundredths) > 100
    ensures var rate := Fps(hundredths);
            Sound(rate, false) && Parse(rate, Print(false, LabelOf(rate, false, 100))) == WrongLength
  {
    var fps := IntRate(hundredths);
    NonDropIsPlain(fps, 100);
    Quotient(100, fps, 0, 100);
    PrintReadsBack(Fps(hundredths), false, LabelOf(Fps(hundredths), false, 100));
  }
}
