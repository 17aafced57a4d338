/**
 * Labels of frame counts at any frame rate; without drop frames the hours are divided as reals and cut
 * down, and the laws show that this is whole-number clock arithmetic from zero on.
 */
module TimecodeLabels {
  import opened Wrappers
  import opened DropFrame

  /** 'ms', or frames per second in hundredths. */
  datatype Framerate = Ms | Fps(hundredths: nat)

  function IntFramerate(rate: Framerate): int {
    match rate
    case Ms => 1000
    case Fps(hundredths) => IntRate(hundredths)
  }

  /** 'ms' is not a number, so drop-frame counting needs a rate in frames. */
  predicate Sound(rate: Framerate, drop: bool) {
    IntFramerate(rate) > 0 && (drop ==> rate.Fps? && Usable(rate.hundredths))
  }

  /******* Frame counts to labels *******/

  function RealRem(x: real, m: real): real
    requires m > 0.0
  {
    if x >= 0.0 then x - m * (x / m).Floor as real else -(-x - m * (-x / m).Floor as real)
  }

  function Over(a: int, b: int): int
    requires b > 0
  {
    (a as real / b as real).Floor
  }

  /** The hour shown, the division being a real one. */
  function HourShown(hour: int, n: int): int
    requires hour > 0
  {
    var hours := n as real / hour as real;
    (if hours > 23.0 then RealRem(hours, 24.0) else hours).Floor
  }

  function WithoutLateHours(hour: int, n: int): int
    requires hour > 0
  {
    if n as real / hour as real > 23.0 then n - 23 * hour else n
  }

  /** The label of a count, given the frames of an hour, a minute and a second. */
  function LabelIn(hour: int, minute: int, fps: int, n: int): Label
    requires hour > 0 && minute > 0 && fps > 0
  {
    var c := WithoutLateHours(hour, n);
    Label(HourShown(hour, n), Over(Rem(c, hour), minute), Over(Rem(Rem(c, hour), minute), fps),
        Rem(Rem(Rem(c, hour), minute), fps))
  }

  function NonDropLabel(fps: int, n: int): Label
    requires fps > 0
  {
    LabelIn(3600 * fps, 60 * fps, fps, n)
  }

  function LabelOf(rate: Framerate, drop: bool, n: int): Label
    requires Sound(rate, drop)
  {
    if drop then FrameToDropLabel(rate.hundredths, n) else NonDropLabel(IntFramerate(rate), n)
  }

  function CountOf(rate: Framerate, drop: bool, l: Label): int
    requires Sound(rate, drop)
  {
    if drop then DropLabelToFrame(rate.hundredths, l)
    else (l.hours * 3600 + l.minutes * 60 + l.seconds) * IntFramerate(rate) + l.frames
  }

  lemma DivideBoth(x: real, y: real, b: real)
    requires b > 0.0
    ensures x * b <= y * b <==> x <= y
    ensures x * b < y * b <==> x < y
  {
    assert x <= y ==> (y - x) * b >= 0.0;
    assert x > y ==> (x - y) * b > 0.0;
    assert x < y ==> (y - x) * b > 0.0;
  }

  lemma OverIsQuotient(a: int, b: int)
    requires b > 0
    ensures Over(a, b) == a / b
  {
    var q, x := a / b, a as real / b as real;
    assert x * b as real == a as real;
    assert q * b <= a < (q + 1) * b;
    assert q as real * b as real == (q * b) as real;
    assert (q + 1) as real * b as real == ((q + 1) * b) as real;
    DivideBoth(q as real, x, b as real);
    DivideBoth(x, (q + 1) as real, b as real);
  }

  /** A count of whole seconds and frames, cut into a bigger unit. */
  lemma Cut(fps: int, n: int, total: int, rest: int, unit: int)
    requires fps > 0 && unit > 0 && n == total * fps + rest && 0 <= rest < fps
    ensures n / (unit * fps) == total / unit && n % (unit * fps) == total % unit * fps + rest
  {
    var q, r := total / unit, total % unit;
    Distribute(q, unit, r, fps);
    BelowUnit(r, unit, fps, rest);
    Quotient(n, unit * fps, q, r * fps + rest);
  }

  lemma Distribute(q: int, unit: int, r: int, fps: int)
    ensures (q * unit + r) * fps == q * (unit * fps) + r * fps
  {
  }

  lemma BelowUnit(r: int, unit: int, fps: int, rest: int)
    requires 0 <= r < unit && 0 <= rest < fps
    ensures unit * fps > 0 && 0 <= r * fps + rest < unit * fps
  {
    var d := unit - r - 1;
    Split(r, d, fps);
    NotNegative(d, fps, 0);
    NotNegative(r, fps, rest);
    assert unit == r + d + 1;
  }

  lemma Split(r: int, d: int, fps: int)
    ensures (r + d + 1) * fps == r * fps + d * fps + fps
  {
  }

  function PlainLabel(fps: int, n: int): Label
    requires fps > 0
  {
    var s := n / fps;
    Label(s / 3600 % 24, s / 60 % 60, s % 60, n % fps)
  }

  lemma RemFloor(x: real)
    requires x >= 0.0
    ensures RealRem(x, 24.0).Floor == x.Floor % 24
  {
    var k := (x / 24.0).Floor;
    assert 24 * k <= x.Floor < 24 * k + 24;
  }

  lemma HoursWrap(hour: int, n: nat)
    requires hour > 0
    ensures HourShown(hour, n) == n / hour % 24
    ensures WithoutLateHours(hour, n) == n || (WithoutLateHours(hour, n) == n - 23 * hour && n >= 23 * hour)
  {
    var x := n as real / hour as real;
    OverIsQuotient(n, hour);
    RemFloor(x);
    Late(hour, n);
    assert x.Floor == n / hour;
    assert n / hour >= 0;
  }

  lemma Late(hour: int, n: nat)
    requires hour > 0
    ensures n as real / hour as real >= 0.0
    ensures n as real / hour as real > 23.0 ==> n > 23 * hour
  {
    var x := n as real / hour as real;
    assert x * hour as real == n as real;
    DivideBoth(0.0, x, hour as real);
    DivideBoth(23.0, x, hour as real);
    assert 23.0 * hour as real == (23 * hour) as real;
  }

  /** The frames and whole seconds of a count, hour and minute being so many frames. */
  lemma CutTwice(fps: int, c: nat, t: int, f: int)
    requires fps > 0 && c == t * fps + f && 0 <= f < fps
    ensures Over(Rem(c, 3600 * fps), 60 * fps) == t % 3600 / 60
    ensures Over(Rem(Rem(c, 3600 * fps), 60 * fps), fps) == t % 60
    ensures Rem(Rem(Rem(c, 3600 * fps), 60 * fps), fps) == f
  {
    Cut(fps, c, t, f, 3600);
    CutMinutes(fps, c % (3600 * fps), t % 3600, f);
    SameMinute(t);
  }

  lemma SameMinute(t: int)
    ensures t % 3600 % 60 == t % 60
  {
    Quotient(t, 60, t / 3600 * 60 + t % 3600 / 60, t % 3600 % 60);
  }

  lemma CutMinutes(fps: int, c: nat, t: int, f: int)
    requires fps > 0 && c == t * fps + f && 0 <= f < fps
    ensures Over(c, 60 * fps) == t / 60
    ensures Over(Rem(c, 60 * fps), fps) == t % 60
    ensures Rem(Rem(c, 60 * fps), fps) == f
  {
    Cut(fps, c, t, f, 60);
    OverIsQuotient(c, 60 * fps);
    CutSeconds(fps, c % (60 * fps), t % 60, f);
  }

  lemma CutSeconds(fps: int, c: nat, t: int, f: int)
    requires fps > 0 && c == t * fps + f && 0 <= f < fps
    ensures Over(c, fps) == t && Rem(c, fps) == f
  {
    Quotient(c, fps, t, f);
    OverIsQuotient(c, fps);
  }

  /** For every frame count from zero on, the label is that of its remainder within 24 hours. */
  lemma NonDropIsPlain(fps: int, n: nat)
    requires fps > 0
    ensures NonDropLabel(fps, n) == PlainLabel(fps, n)
  {
    var s, f, hour := n / fps, n % fps, 3600 * fps;
    HoursWrap(hour, n);
    Cut(fps, n, s, f, 3600);
    var c := WithoutLateHours(hour, n);
    if c == n {
      CutTwice(fps, n, s, f);
      Minutes(s, s);
    } else {
      WithoutHours(fps, n, s, f);
      CutTwice(fps, c, s - 82800, f);
      Minutes(s, s - 82800);
    }
  }

  lemma WithoutHours(fps: int, n: nat, s: int, f: int)
    requires fps > 0 && n == s * fps + f
    ensures n - 23 * (3600 * fps) == (s - 82800) * fps + f
  {
  }

  lemma Minutes(s: int, t: int)
    requires t == s || t == s - 82800
    ensures t % 3600 / 60 == s / 60 % 60 && t % 60 == s % 60
  {
    var m, x := s / 60, s % 60;
    var h, y := m / 60, m % 60;
    var h' := if t == s then h else h - 23;
    Quotient(t, 3600, h', 60 * y + x);
    Quotient(60 * y + x, 60, y, x);
    Quotient(t, 60, 60 * h' + y, x);
  }

  function PlainCount(fps: int, l: Label): int {
    (l.hours * 3600 + l.minutes * 60 + l.seconds) * fps + l.frames
  }

  /** Without drop frames the label is in range, and its count is the remainder within 24 hours, if and only
      if the frame count is not negative. */
  lemma NonDropExact(fps: int, n: int)
    requires fps > 0
    ensures n >= 0 <==> InRange(fps, NonDropLabel(fps, n))
    ensures n >= 0 ==> PlainCount(fps, NonDropLabel(fps, n)) == n % (86400 * fps)
  {
    if n >= 0 {
      NonDropIsPlain(fps, n);
      PlainIsInRange(fps, n);
    } else {
      NegativeHour(3600 * fps, n);
    }
  }

  /** Labels increase with the count, from zero to a day. */
  lemma PlainLabelsIncrease(fps: int, m: nat, n: nat)
    requires fps > 0 && m < n < 86400 * fps
    ensures Before(NonDropLabel(fps, m), NonDropLabel(fps, n))
  {
    NonDropIsPlain(fps, m);
    NonDropIsPlain(fps, n);
    SecondsGrow(fps, m, n);
    SecondsOfDay(fps, n);
    SecondsShown(fps, m);
    SecondsShown(fps, n);
    InDigits(PlainLabel(fps, m), PlainLabel(fps, n), m / fps, n / fps);
  }

  lemma SecondsGrow(fps: int, m: nat, n: nat)
    requires fps > 0 && m < n
    ensures 0 <= m / fps < n / fps || (m / fps == n / fps && m % fps < n % fps)
  {
    var s, t := m / fps, n / fps;
    assert m == s * fps + m % fps && n == t * fps + n % fps;
    if s > t {
      assert s * fps == t * fps + (s - t - 1) * fps + fps by { Split(t, s - t - 1, fps); }
      NotNegative(s - t - 1, fps, 0);
    }
  }

  lemma SecondsOfDay(fps: int, n: nat)
    requires fps > 0 && n < 86400 * fps
    ensures 0 <= n / fps < 86400
  {
    assert n == n / fps * fps + n % fps;
    ScaleUp(86400, n / fps, fps);
  }

  lemma ScaleUp(a: int, b: int, fps: int)
    requires fps > 0
    ensures a <= b ==> a * fps <= b * fps
  {
    if a <= b {
      NotNegative(b - a, fps, 0);
      assert (b - a) * fps == b * fps - a * fps;
    }
  }

  lemma SecondsShown(fps: int, n: nat)
    requires fps > 0 && 0 <= n / fps < 86400
    ensures var l := PlainLabel(fps, n);
            && 0 <= l.minutes < 60 && 0 <= l.seconds < 60 && l.frames == n % fps
            && l.hours * 3600 + l.minutes * 60 + l.seconds == n / fps
  {
    Clock(n / fps);
  }

  lemma InDigits(a: Label, b: Label, s: int, t: int)
    requires 0 <= a.minutes < 60 && 0 <= a.seconds < 60 && 0 <= b.minutes < 60 && 0 <= b.seconds < 60
    requires s == a.hours * 3600 + a.minutes * 60 + a.seconds && t == b.hours * 3600 + b.minutes * 60 + b.seconds
    requires s < t || (s == t && a.frames < b.frames)
    ensures Before(a, b)
  {
  }

  lemma NegativeHour(hour: int, n: int)
    requires hour > 0 && n < 0
    ensures HourShown(hour, n) < 0
  {
    var x := n as real / hour as real;
    assert x * hour as real == n as real;
    DivideBoth(x, 0.0, hour as real);
  }

  lemma PlainIsInRange(fps: int, n: nat)
    requires fps > 0
    ensures InRange(fps, PlainLabel(fps, n)) && PlainCount(fps, PlainLabel(fps, n)) == n % (86400 * fps)
  {
    var s, f := n / fps, n % fps;
    Cut(fps, n, s, f, 86400);
    Clock(s);
    var l := PlainLabel(fps, n);
    assert l.hours * 3600 + l.minutes * 60 + l.seconds == s % 86400;
  }

  lemma Clock(s: nat)
    ensures s / 3600 % 24 * 3600 + s / 60 % 60 * 60 + s % 60 == s % 86400
  {
    var m, x := s / 60, s % 60;
    var h, y := m / 60, m % 60;
    Quotient(s, 3600, h, 60 * y + x);
    Quotient(s, 86400, h / 24, h % 24 * 3600 + 60 * y + x);
  }

  lemma PlainLabelOf(fps: int, n: int, s: int, l: Label)
    requires fps > 0 && InRange(fps, l) && s == l.hours * 3600 + l.minutes * 60 + l.seconds && n == s * fps + l.frames
    ensures PlainLabel(fps, n) == l
  {
    Quotient(n, fps, s, l.frames);
    ClockFields(l.hours, l.minutes, l.seconds);
  }

  lemma NotNegative(s: int, fps: int, f: int)
    requires s >= 0 && fps > 0 && f >= 0
    ensures s * fps + f >= 0
  {
  }

  /** Every label in range is the label of its count. */
  lemma PlainRoundTrip(fps: int, l: Label)
    requires fps > 0 && InRange(fps, l)
    ensures PlainCount(fps, l) >= 0 && NonDropLabel(fps, PlainCount(fps, l)) == l
  {
    var s := l.hours * 3600 + l.minutes * 60 + l.seconds;
    NotNegative(s, fps, l.frames);
    var n := s * fps + l.frames;
    PlainLabelOf(fps, n, s, l);
    NonDropIsPlain(fps, n);
  }

  lemma ClockFields(h: int, m: int, s: int)
    requires 0 <= h < 24 && 0 <= m < 60 && 0 <= s < 60
    ensures var t := h * 3600 + m * 60 + s; t / 3600 % 24 == h && t / 60 % 60 == m && t % 60 == s
  {
    var t := h * 3600 + m * 60 + s;
    Quotient(t, 3600, h, m * 60 + s);
    Quotient(h, 24, 0, h);
    Quotient(t, 60, h * 60 + m, s);
    Quotient(h * 60 + m, 60, h, m);
  }
}
