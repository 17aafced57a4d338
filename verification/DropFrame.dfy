/**
 * Drop-frame time code labels.
 *
 * The conversions are written for any frame rate, given in hundredths of a frame per second.  The laws
 * are for the two drop-frame rates, 29.97 and 59.94, that is k = 1 and k = 2: 30k labels a second of
 * which the first 2k of every minute are dropped, except of every tenth minute (section 4.2.2 of
 * SMPTE 12M-1999).
 */
module DropFrame {
  datatype Label = Label(hours: int, minutes: int, seconds: int, frames: int)

  /******* Numbers as the program computes them *******/

  /** Math.round of a / b. */
  function Round(a: int, b: int): int
    requires b > 0
  {
    (2 * a + b) / (2 * b)
  }

  /** The remainder operator: the result has the sign of the dividend. */
  function Rem(a: int, b: int): int
    requires b > 0
  {
    if a >= 0 then a % b else -((-a) % b)
  }

  function IntRate(rate: nat): int { Round(rate, 100) }
  function DropFrames(rate: nat): int { Round(rate * 66666, 100_000_000) }
  function FramesPerHour(rate: nat): int { Round(rate * 3600, 100) }
  function FramesPer10Minutes(rate: nat): int { Round(rate * 600, 100) }
  function FramesPerMinute(rate: nat): int { Round(rate * 60, 100) }
  function FramesPerDay(rate: nat): int { FramesPerHour(rate) * 24 }

  /** Rates so low that a minute rounds to no frame at all are of no use. */
  predicate Usable(rate: nat) {
    IntRate(rate) > 0 && FramesPerMinute(rate) > 0 && FramesPer10Minutes(rate) > 0 && FramesPerHour(rate) > 0
  }

  function WithinDay(rate: nat, n: int): int
    requires Usable(rate)
  {
    var r := Rem(n, FramesPerDay(rate));
    if r < 0 then FramesPerDay(rate) + r else r
  }

  /** The frame number with the dropped labels counted in. */
  function Nominal(rate: nat, n: int): int
    requires Usable(rate)
  {
    var drop := DropFrames(rate);
    var d, m := n / FramesPer10Minutes(rate), n % FramesPer10Minutes(rate);
    if m > drop then n + drop * 9 * d + drop * ((m - drop) / FramesPerMinute(rate))
    else n + drop * 9 * d
  }

  function LabelOfCount(fps: int, f: int): Label
    requires fps > 0
  {
    Label(f / fps / 60 / 60, f / fps / 60 % 60, f / fps % 60, f % fps)
  }

  function FrameToDropLabel(rate: nat, n: int): Label
    requires Usable(rate)
  {
    LabelOfCount(IntRate(rate), Nominal(rate, WithinDay(rate, n)))
  }

  function DropLabelToFrame(rate: nat, l: Label): int {
    var fps := IntRate(rate);
    var minutes := l.hours * 60 + l.minutes;
    fps * 60 * 60 * l.hours + fps * 60 * l.minutes + fps * l.seconds + l.frames
    - DropFrames(rate) * (minutes - minutes / 10)
  }

  /******* The standard *******/

  /** k times x, for the k there are. */
  function Times(k: nat, x: int): int {
    if k == 1 then x else 2 * x
  }

  function Rate(k: nat): nat { Times(k, 2997) }

  function Day(k: nat): nat { Times(k, 2589408) }

  ghost predicate InRange(fps: int, l: Label) {
    0 <= l.hours < 24 && 0 <= l.minutes < 60 && 0 <= l.seconds < 60 && 0 <= l.frames < fps
  }

  /** The labels there are: the first 2k of a minute only in every tenth minute. */
  ghost predicate Legal(k: nat, l: Label) {
    InRange(Times(k, 30), l) && (l.seconds == 0 && l.frames < Times(k, 2) ==> l.minutes % 10 == 0)
  }

  ghost predicate Before(a: Label, b: Label) {
    || a.hours < b.hours
    || (a.hours == b.hours && a.minutes < b.minutes)
    || (a.hours == b.hours && a.minutes == b.minutes && a.seconds < b.seconds)
    || (a.hours == b.hours && a.minutes == b.minutes && a.seconds == b.seconds && a.frames < b.frames)
  }

  /******* Constants *******/

  lemma Constants(k: nat)
    requires k == 1 || k == 2
    ensures Usable(Rate(k)) && IntRate(Rate(k)) == Times(k, 30) && DropFrames(Rate(k)) == Times(k, 2)
    ensures FramesPerMinute(Rate(k)) == Times(k, 1798) && FramesPer10Minutes(Rate(k)) == Times(k, 17982)
    ensures FramesPerDay(Rate(k)) == Day(k)
  {
    if k == 1 {
      assert Rate(k) == 2997;
      assert IntRate(2997) == 30 && DropFrames(2997) == 2;
      assert FramesPerMinute(2997) == 1798 && FramesPer10Minutes(2997) == 17982 && FramesPerHour(2997) == 107892;
    } else {
      assert Rate(k) == 5994;
      assert IntRate(5994) == 60 && DropFrames(5994) == 4;
      assert FramesPerMinute(5994) == 3596 && FramesPer10Minutes(5994) == 35964 && FramesPerHour(5994) == 215784;
    }
  }

  lemma DayIsRemainder(k: nat, n: int)
    requires k == 1 || k == 2
    ensures Usable(Rate(k)) && WithinDay(Rate(k), n) == n % Day(k)
  {
    Constants(k);
    if n < 0 {
      var q, r := (-n) / Day(k), (-n) % Day(k);
      assert n == -q * Day(k) - r;
      if r != 0 {
        assert n == (-q - 1) * Day(k) + (Day(k) - r);
        Quotient(n, Day(k), -q - 1, Day(k) - r);
      } else {
        Quotient(n, Day(k), -q, 0);
      }
    }
  }

  lemma Quotient(n: int, d: int, q: int, r: int)
    requires d > 0 && n == q * d + r && 0 <= r < d
    ensures n / d == q && n % d == r
  {
    var x := n / d - q;
    assert n == d * (n / d) + n % d;
    assert d * x == r - n % d;
    assert x >= 1 ==> d * x >= d;
    assert x <= -1 ==> d * x <= -d;
  }

  /******* Frame number and minute *******/

  /** The minute of the day a frame number falls in, and its label place within it. */
  function MinuteOf(k: nat, n: nat): int
    requires k == 1 || k == 2
  {
    var d, m := n / Times(k, 17982), n % Times(k, 17982);
    10 * d + if m > Times(k, 2) then (m - Times(k, 2)) / Times(k, 1798) else 0
  }

  /** Within ten minutes: the first minute has all its labels, the others lack 2k. */
  lemma MinuteWithinTen(k: nat, m: nat) returns (j: nat)
    requires (k == 1 || k == 2) && m < Times(k, 17982)
    ensures j == (if m > Times(k, 2) then (m - Times(k, 2)) / Times(k, 1798) else 0) && j < 10
    ensures Times(k, 1800 * j) <= m + Times(k, 2 * j) < Times(k, 1800 * (j + 1))
    ensures j != 0 ==> Times(k, 1800 * j) + Times(k, 2) <= m + Times(k, 2 * j)
  {
    if k == 1 {
      j := if m > 2 then (m - 2) / 1798 else 0;
    } else {
      j := if m > 4 then (m - 4) / 3596 else 0;
    }
  }

  lemma NominalForm(k: nat, n: nat, d: nat, m: nat, j: nat)
    requires (k == 1 || k == 2) && d == n / Times(k, 17982) && m == n % Times(k, 17982)
    requires j == if m > Times(k, 2) then (m - Times(k, 2)) / Times(k, 1798) else 0
    ensures Usable(Rate(k)) && Nominal(Rate(k), n) == n + Times(k, 18 * d) + Times(k, 2 * j)
  {
    Constants(k);
    if k == 1 {
      assert Nominal(Rate(k), n) == n + 2 * 9 * d + 2 * j;
    } else {
      assert Nominal(Rate(k), n) == n + 4 * 9 * d + 4 * j;
    }
  }

  lemma TenMinutes(k: nat, n: nat) returns (d: nat, m: nat)
    requires (k == 1 || k == 2) && n < Day(k)
    ensures d == n / Times(k, 17982) && m == n % Times(k, 17982)
    ensures n == Times(k, 17982 * d) + m && m < Times(k, 17982) && d < 144
  {
    if k == 1 {
      d, m := n / 17982, n % 17982;
    } else {
      d, m := n / 35964, n % 35964;
    }
  }

  lemma PlaceInMinute(k: nat, n: nat, d: nat, m: nat, j: nat, t: nat, f: nat)
    requires k == 1 || k == 2
    requires n == Times(k, 17982 * d) + m && f == n + Times(k, 18 * d) + Times(k, 2 * j) && t == 10 * d + j &&
             j < 10 && d < 144
    requires Times(k, 1800 * j) <= m + Times(k, 2 * j) < Times(k, 1800 * (j + 1))
    requires j != 0 ==> Times(k, 1800 * j) + Times(k, 2) <= m + Times(k, 2 * j)
    ensures t < 1440 && Times(k, 1800 * t) <= f < Times(k, 1800 * (t + 1))
    ensures t % 10 != 0 ==> Times(k, 1800 * t) + Times(k, 2) <= f
    ensures f == n + Times(k, 2 * (t - t / 10))
  {
    assert t / 10 == d && t % 10 == j;
    if k == 1 { assert f == 18000 * d + m + 2 * j; } else { assert f == 36000 * d + m + 4 * j; }
  }

  lemma TenthAndMinute(k: nat, n: nat) returns (d: nat, m: nat, j: nat)
    requires (k == 1 || k == 2) && n < Day(k)
    ensures Usable(Rate(k)) && Nominal(Rate(k), n) == n + Times(k, 18 * d) + Times(k, 2 * j)
    ensures n == Times(k, 17982 * d) + m && MinuteOf(k, n) == 10 * d + j && j < 10 && d < 144
    ensures Times(k, 1800 * j) <= m + Times(k, 2 * j) < Times(k, 1800 * (j + 1))
    ensures j != 0 ==> Times(k, 1800 * j) + Times(k, 2) <= m + Times(k, 2 * j)
  {
    d, m := TenMinutes(k, n);
    j := MinuteWithinTen(k, m);
    NominalForm(k, n, d, m, j);
    MinuteIs(k, n, d, m, j);
  }

  lemma MinuteIs(k: nat, n: nat, d: nat, m: nat, j: nat)
    requires (k == 1 || k == 2) && d == n / Times(k, 17982) && m == n % Times(k, 17982)
    requires j == if m > Times(k, 2) then (m - Times(k, 2)) / Times(k, 1798) else 0
    ensures MinuteOf(k, n) == 10 * d + j
  {
  }

  lemma NominalIsMinuteAndPlace(k: nat, n: nat)
    requires (k == 1 || k == 2) && n < Day(k)
    ensures Usable(Rate(k))
    ensures var t, f := MinuteOf(k, n), Nominal(Rate(k), n);
            && 0 <= t < 1440 && Times(k, 1800 * t) <= f < Times(k, 1800 * (t + 1))
            && (t % 10 != 0 ==> Times(k, 1800 * t) + Times(k, 2) <= f)
            && f == n + Times(k, 2 * (t - t / 10))
  {
    var d, m, j := TenthAndMinute(k, n);
    PlaceInMinute(k, n, d, m, j, 10 * d + j, Nominal(Rate(k), n));
  }

  /******* Labels *******/

  lemma ByRemainder(k: nat, n: int)
    requires k == 1 || k == 2
    ensures Usable(Rate(k))
    ensures FrameToDropLabel(Rate(k), n) == LabelOfCount(Times(k, 30), Nominal(Rate(k), n % Day(k)))
  {
    Constants(k);
    DayIsRemainder(k, n);
  }

  lemma LabelOfNominal(k: nat, n: nat)
    requires (k == 1 || k == 2) && n < Day(k)
    ensures Usable(Rate(k))
    ensures var l, t, f := FrameToDropLabel(Rate(k), n), MinuteOf(k, n), Nominal(Rate(k), n);
            && InRange(Times(k, 30), l) && l.hours * 60 + l.minutes == t
            && f == Times(k, 1800 * t) + Times(k, 30 * l.seconds) + l.frames
  {
    ByRemainder(k, n);
    Quotient(n, Day(k), 0, n);
    NominalIsMinuteAndPlace(k, n);
    CountInMinute(k, Nominal(Rate(k), n), MinuteOf(k, n));
  }

  lemma CountInMinute(k: nat, f: nat, t: nat)
    requires (k == 1 || k == 2) && t < 1440 && Times(k, 1800 * t) <= f < Times(k, 1800 * (t + 1))
    ensures var l := LabelOfCount(Times(k, 30), f);
            && InRange(Times(k, 30), l) && l.hours * 60 + l.minutes == t
            && f == Times(k, 1800 * t) + Times(k, 30 * l.seconds) + l.frames
  {
    if k == 1 {
      InMinute(30, f, t, f - 1800 * t);
    } else {
      InMinute(60, f, t, f - 3600 * t);
    }
  }

  lemma InMinute(fps: int, f: nat, t: nat, m: nat)
    requires (fps == 30 || fps == 60) && t < 1440 && f == 60 * (fps * t) + m && m < 60 * fps
    ensures LabelOfCount(fps, f) == Label(t / 60, t % 60, m / fps, m % fps)
    ensures t / 60 < 24 && m / fps < 60 && m == fps * (m / fps) + m % fps
  {
    Quotient(f, fps, 60 * t + m / fps, m % fps);
    Quotient(60 * t + m / fps, 60, t, m / fps);
  }

  lemma LabelIsLegal(k: nat, n: nat)
    requires (k == 1 || k == 2) && n < Day(k)
    ensures Usable(Rate(k)) && Legal(k, FrameToDropLabel(Rate(k), n))
  {
    LabelOfNominal(k, n);
    NominalIsMinuteAndPlace(k, n);
    var l, t := FrameToDropLabel(Rate(k), n), MinuteOf(k, n);
    TenthMinute(l.hours, l.minutes, t);
  }

  lemma TenthMinute(hours: int, minutes: int, t: int)
    requires hours * 60 + minutes == t
    ensures minutes % 10 == t % 10
  {
  }

  /** Every integer frame number, negative ones included, has the label of its remainder within a day, and
      that label is legal. */
  lemma LabelOfAnyFrame(k: nat, n: int)
    requires k == 1 || k == 2
    ensures Usable(Rate(k)) && FrameToDropLabel(Rate(k), n) == FrameToDropLabel(Rate(k), n % Day(k))
    ensures Legal(k, FrameToDropLabel(Rate(k), n))
  {
    var r := n % Day(k);
    ByRemainder(k, n);
    ByRemainder(k, r);
    Quotient(r, Day(k), 0, r);
    LabelIsLegal(k, r);
  }

  /** The label leads back to the frame number. */
  lemma FrameRoundTrip(k: nat, n: nat)
    requires (k == 1 || k == 2) && n < Day(k)
    ensures Usable(Rate(k)) && DropLabelToFrame(Rate(k), FrameToDropLabel(Rate(k), n)) == n
  {
    LabelOfNominal(k, n);
    NominalIsMinuteAndPlace(k, n);
    FrameOfLabel(k, FrameToDropLabel(Rate(k), n));
  }

  /** Every legal label is the label of the frame number it stands for. */
  lemma LabelRoundTrip(k: nat, l: Label)
    requires (k == 1 || k == 2) && Legal(k, l)
    ensures 0 <= DropLabelToFrame(Rate(k), l) < Day(k)
    ensures Usable(Rate(k)) && FrameToDropLabel(Rate(k), DropLabelToFrame(Rate(k), l)) == l
  {
    Constants(k);
    var n := DropLabelToFrame(Rate(k), l);
    LabelFrameInDay(k, l);
    FrameRoundTrip(k, n);
    LabelOfAnyFrame(k, n);
    SameFrameSameLabel(k, FrameToDropLabel(Rate(k), n), l);
  }

  lemma FrameOfLabel(k: nat, l: Label)
    requires k == 1 || k == 2
    ensures var t := l.hours * 60 + l.minutes;
            DropLabelToFrame(Rate(k), l) == Times(k, 1800 * t) + Times(k, 30 * l.seconds) +
                l.frames - Times(k, 2 * (t - t / 10))
  {
    Constants(k);
    if k == 1 { } else { }
  }

  lemma LabelFrameInDay(k: nat, l: Label)
    requires (k == 1 || k == 2) && Legal(k, l)
    ensures 0 <= DropLabelToFrame(Rate(k), l) < Day(k)
  {
    FrameOfLabel(k, l);
  }

  /** The frame number grows strictly with the label. */
  lemma FrameGrowsWithLabel(k: nat, a: Label, b: Label)
    requires (k == 1 || k == 2) && Legal(k, a) && Legal(k, b) && Before(a, b)
    ensures DropLabelToFrame(Rate(k), a) < DropLabelToFrame(Rate(k), b)
  {
    FrameOfLabel(k, a);
    FrameOfLabel(k, b);
    var t, u := a.hours * 60 + a.minutes, b.hours * 60 + b.minutes;
    TenthMinute(b.hours, b.minutes, u);
    if t < u {
      MinutesApart(k, t, u);
    } else {
      assert t == u && a.minutes == b.minutes;
    }
  }

  /** A later minute starts, at its first legal label, beyond the last label of an earlier one. */
  lemma MinutesApart(k: nat, t: nat, u: nat)
    requires (k == 1 || k == 2) && t < u
    ensures Times(k, 1800 * (t + 1)) - Times(k, 2 * (t - t / 10)) <=
            Times(k, 1800 * u) - Times(k, 2 * (u - u / 10)) + if u % 10 == 0 then 0 else Times(k, 2)
  {
  }

  lemma SameFrameSameLabel(k: nat, a: Label, b: Label)
    requires (k == 1 || k == 2) && Legal(k, a) && Legal(k, b)
    requires DropLabelToFrame(Rate(k), a) == DropLabelToFrame(Rate(k), b)
    ensures a == b
  {
    assert !Before(a, b) by { if Before(a, b) { FrameGrowsWithLabel(k, a, b); } }
    assert !Before(b, a) by { if Before(b, a) { FrameGrowsWithLabel(k, b, a); } }
  }

  /** Frame numbers to labels is strictly increasing. */
  lemma LabelsIncrease(k: nat, m: nat, n: nat)
    requires (k == 1 || k == 2) && m < n < Day(k)
    ensures Usable(Rate(k)) && Before(FrameToDropLabel(Rate(k), m), FrameToDropLabel(Rate(k), n))
  {
    FrameRoundTrip(k, m);
    FrameRoundTrip(k, n);
    LabelOfAnyFrame(k, m);
    LabelOfAnyFrame(k, n);
    var a, b := FrameToDropLabel(Rate(k), m), FrameToDropLabel(Rate(k), n);
    if !Before(a, b) && a != b {
      FrameGrowsWithLabel(k, b, a);
    }
  }
}
