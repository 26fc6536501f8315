/** The animated statistics: each figure counts up from 0 along an ease-out-quart curve once it
    scrolls into view, one animation frame at a time, and is shown through a compact formatter
    ("5K", "1.2M"). Frame timestamps are milliseconds as the browser passes them; the quotients
    are exact rationals. */
module StatsCounter {
  import opened Common
  import opened NumberText

  // ---------------------------------------------------------------- formatting

  /** The tenths of `n / 1000000` as `toFixed(1)` rounds them: the nearest, halves up. */
  function MillionTenths(n: nat): nat
  {
    (10 * n + 500000) / 1000000
  }

  /** `n / 1000` as `toFixed(0)` rounds it. */
  function Thousands(n: nat): nat
  {
    (n + 500) / 1000
  }

  /** `formatNumber`: millions to one decimal with "M", thousands rounded with "K", anything
      below 1000 (negative numbers included) as `toString` writes it. */
  function FormatNumber(n: int): (s: string)
    ensures |s| >= 1
  {
    if n >= 1000000 then
      var m := MillionTenths(n);
      ToRadix(m / 10, 10) + "." + [DigitChar(m % 10)] + "M"
    else if n >= 1000 then ToRadix(Thousands(n), 10) + "K"
    else if n >= 0 then ToRadix(n, 10)
    else "-" + ToRadix(-n, 10)
  }

  /** Reads a formatted figure back as the amount it stands for: "1.2M" as 1200000, "5K" as
      5000, a plain numeral as itself; `None` for text the formatter never writes. */
  function ReadFormatted(s: string): Option<int>
  {
    if |s| >= 4 && s[|s| - 1] == 'M' && s[|s| - 3] == '.' then
      match (ParseRadix(s[..|s| - 3], 10), DigitValue(s[|s| - 2]))
      case (Some(whole), Some(tenth)) => if tenth < 10 then Some((whole * 10 + tenth) * 100000) else None
      case _ => None
    else if |s| >= 2 && s[|s| - 1] == 'K' then
      match ParseRadix(s[..|s| - 1], 10)
      case Some(k) => Some(k * 1000)
      case None => None
    else if |s| >= 2 && s[0] == '-' then
      match ParseRadix(s[1..], 10)
      case Some(k) => Some(0 - k as int)
      case None => None
    else
      match ParseRadix(s, 10)
      case Some(k) => Some(k)
      case None => None
  }

  /** What the formatter shows is the figure itself below 1000, within 500 of it in the "K"
      range, and within 50000 of it in the "M" range. */
  lemma FormatNumberReadsBack(n: int)
    ensures ReadFormatted(FormatNumber(n)).Some?
    ensures n < 1000 ==> ReadFormatted(FormatNumber(n)) == Some(n)
    ensures 1000 <= n < 1000000 ==> -500 < ReadFormatted(FormatNumber(n)).value - n <= 500
    ensures n >= 1000000 ==> -50000 < ReadFormatted(FormatNumber(n)).value - n <= 50000
  {
    if n >= 1000000 {
      ReadBackMillions(n);
    } else if n >= 1000 {
      ReadBackThousands(n);
    } else {
      ReadBackPlain(n);
    }
  }

  lemma ReadBackPlain(n: int)
    requires n < 1000
    ensures ReadFormatted(FormatNumber(n)) == Some(n)
  {
    if n >= 0 {
      ReadBackNatural(n);
    } else {
      ReadBackNegative(n);
    }
  }

  lemma ReadBackNatural(n: nat)
    requires n < 1000
    ensures ReadFormatted(FormatNumber(n)) == Some(n)
  {
    var s := ToRadix(n, 10);
    assert FormatNumber(n) == s;
    ParseToRadix(n, 10);
    var last := s[|s| - 1];
    assert '0' <= last <= '9' || 'a' <= last <= 'z';
    assert '0' <= s[0] <= '9' || 'a' <= s[0] <= 'z';
  }

  lemma ReadBackNegative(n: int)
    requires n < 0
    ensures ReadFormatted(FormatNumber(n)) == Some(n)
  {
    var k: nat := -n;
    var t := ToRadix(k, 10);
    assert FormatNumber(n) == "-" + t;
    ParseToRadix(k, 10);
    ReadNegativeNumeral(t, k);
  }

  /** A minus sign before a numeral that parses to `k` reads back as `-k`. */
  lemma ReadNegativeNumeral(t: string, k: nat)
    requires |t| >= 1 && ParseRadix(t, 10) == Some(k)
    requires forall i :: 0 <= i < |t| ==> '0' <= t[i] <= '9' || 'a' <= t[i] <= 'z'
    ensures ReadFormatted("-" + t) == Some(0 - k)
  {
    var s := "-" + t;
    assert s[1..] == t && s[0] == '-' && |s| >= 2;
    assert s[|s| - 1] == t[|t| - 1];
  }

  lemma ReadBackMillions(n: int)
    requires n >= 1000000
    ensures ReadFormatted(FormatNumber(n)) == Some(MillionTenths(n) * 100000)
    ensures -50000 < MillionTenths(n) * 100000 - n <= 50000
  {
    var s := FormatNumber(n);
    var m := MillionTenths(n);
    var whole := ToRadix(m / 10, 10);
    var digit := DigitChar(m % 10);
    assert s == whole + ['.', digit, 'M'];
    assert s[..|s| - 3] == whole && s[|s| - 2] == digit && s[|s| - 3] == '.' && s[|s| - 1] == 'M';
    ParseToRadix(m / 10, 10);
    assert m / 10 * 10 + m % 10 == m;
  }

  lemma ReadBackThousands(n: int)
    requires 1000 <= n < 1000000
    ensures ReadFormatted(FormatNumber(n)) == Some(Thousands(n) * 1000)
    ensures -500 < Thousands(n) * 1000 - n <= 500
  {
    var s := FormatNumber(n);
    var k := ToRadix(Thousands(n), 10);
    assert s == k + ['K'];
    assert s[..|s| - 1] == k && s[|s| - 1] == 'K';
    ParseToRadix(Thousands(n), 10);
  }

  /** The figures of the section, fully counted: 999999 falls in the "K" range yet rounds to
      "1000K", one step short of being written as millions. */
  lemma FormatNumberExamples()
    ensures FormatNumber(1200000) == "1.2M"
    ensures FormatNumber(999999) == "1000K"
    ensures FormatNumber(5000) == "5K"
    ensures FormatNumber(150) == "150"
    ensures FormatNumber(25) == "25"
  {
    FormatMillionsExample();
    FormatThousandsExamples();
    FormatPlainExamples();
  }

  lemma FormatMillionsExample()
    ensures FormatNumber(1200000) == "1.2M"
  {
    assert MillionTenths(1200000) == 12;
    assert ToRadix(1, 10) == "1";
    assert DigitChar(2) == '2';
  }

  lemma FormatThousandsExamples()
    ensures FormatNumber(999999) == "1000K"
    ensures FormatNumber(5000) == "5K"
  {
    assert Thousands(999999) == 1000 && Thousands(5000) == 5;
    assert ToRadix(5, 10) == "5";
    assert ToRadix(1000, 10) == ToRadix(100, 10) + "0";
    assert ToRadix(100, 10) == ToRadix(10, 10) + "0";
    assert ToRadix(10, 10) == ToRadix(1, 10) + "0";
  }

  lemma FormatPlainExamples()
    ensures FormatNumber(150) == "150"
    ensures FormatNumber(25) == "25"
  {
    assert ToRadix(150, 10) == ToRadix(15, 10) + "0";
    assert ToRadix(15, 10) == ToRadix(1, 10) + "5";
    assert ToRadix(25, 10) == ToRadix(2, 10) + "5";
  }


  // ---------------------------------------------------------------- easing

  /** `Math.min((timestamp - startTime) / duration, 1)`. */
  function Progress(timestamp: real, startTime: real, duration: real): (p: real)
    requires duration > 0.0
    ensures p <= 1.0
    ensures timestamp >= startTime ==> 0.0 <= p
    ensures timestamp >= startTime + duration ==> p == 1.0
    ensures timestamp < startTime + duration ==> p < 1.0
  {
    var x := (timestamp - startTime) / duration;
    if x < 1.0 then x else 1.0
  }

  /** A later frame never has less progress. */
  lemma ProgressMonotone(t1: real, t2: real, startTime: real, duration: real)
    requires duration > 0.0 && t1 <= t2
    ensures Progress(t1, startTime, duration) <= Progress(t2, startTime, duration)
  {
    assert (t1 - startTime) / duration <= (t2 - startTime) / duration;
  }

  /** `1 - Math.pow(1 - p, 4)`. */
  function EaseOutQuart(p: real): real
  {
    var q := 1.0 - p;
    1.0 - q * q * q * q
  }

  /** The eased share rises from 0 to 1 and never falls back. */
  lemma EaseOutQuartShape(p1: real, p2: real)
    requires 0.0 <= p1 <= p2 <= 1.0
    ensures EaseOutQuart(0.0) == 0.0 && EaseOutQuart(1.0) == 1.0
    ensures 0.0 <= EaseOutQuart(p1) <= EaseOutQuart(p2) <= 1.0
  {
    var q1, q2 := 1.0 - p1, 1.0 - p2;
    assert 0.0 <= q2 <= q1 <= 1.0;
    SquareMonotone(q2, q1);
    SquareMonotone(q2 * q2, q1 * q1);
    SquareMonotone(q1, 1.0);
    SquareMonotone(q1 * q1, 1.0);
    assert q2 * q2 * q2 * q2 == (q2 * q2) * (q2 * q2);
    assert q1 * q1 * q1 * q1 == (q1 * q1) * (q1 * q1);
  }

  lemma SquareMonotone(a: real, b: real)
    requires 0.0 <= a <= b
    ensures 0.0 <= a * a <= b * b
  {
    assert a * a <= a * b <= b * b;
  }

  /** `Math.floor(easeOutQuart * value)`. */
  function CountAt(p: real, value: nat): int
  {
    (EaseOutQuart(p) * value as real).Floor
  }

  /** The shown count stays within [0, value], starts at 0, ends exactly on `value`, and never
      goes down as progress grows. */
  lemma CountAtShape(p1: real, p2: real, value: nat)
    requires 0.0 <= p1 <= p2 <= 1.0
    ensures CountAt(0.0, value) == 0 && CountAt(1.0, value) == value
    ensures 0 <= CountAt(p1, value) <= CountAt(p2, value) <= value
  {
    EaseOutQuartShape(p1, p2);
    var e1, e2 := EaseOutQuart(p1), EaseOutQuart(p2);
    ScaleMonotone(e1, e2, value as real);
    assert CountAt(0.0, value) == (0.0 * value as real).Floor == 0;
    assert CountAt(1.0, value) == (1.0 * value as real).Floor == value;
  }

  lemma ScaleMonotone(e1: real, e2: real, v: real)
    requires 0.0 <= e1 <= e2 <= 1.0 && 0.0 <= v
    ensures 0.0 <= e1 * v <= e2 * v <= v
  {
    assert e1 * v <= e2 * v by {
      assert (e2 - e1) * v >= 0.0;
    }
    assert e2 * v <= 1.0 * v by {
      assert (1.0 - e2) * v >= 0.0;
    }
  }

  /** Half-way through, 5000 shows as 4687: the curve front-loads the count. */
  lemma CountAtExample()
    ensures CountAt(1.0, 5000) == 5000
    ensures CountAt(0.5, 5000) == 4687
  {
    assert EaseOutQuart(0.5) == 0.9375;
    assert 0.9375 * 5000.0 == 4687.5;
  }

  /** One figure of the section. */
  datatype Stat = Stat(value: nat, suffix: string, caption: string, duration: real)

  const Stats: seq<Stat> := [
    Stat(5000, "+", "Happy Members", 2000.0),
    Stat(1200000, "+", "Kg Lifted This Year", 2500.0),
    Stat(25, "", "Years of Excellence", 1500.0),
    Stat(150, "+", "Transformations", 1800.0)
  ]

  /** The text a figure shows for a count. */
  function Shown(count: int, suffix: string): string
  {
    FormatNumber(count) + suffix
  }

  /** Once counted up, the section reads "5K+", "1.2M+", "25" and "150+". */
  lemma FinalTexts()
    ensures Shown(CountAt(1.0, Stats[0].value), Stats[0].suffix) == "5K+"
    ensures Shown(CountAt(1.0, Stats[1].value), Stats[1].suffix) == "1.2M+"
    ensures Shown(CountAt(1.0, Stats[2].value), Stats[2].suffix) == "25"
    ensures Shown(CountAt(1.0, Stats[3].value), Stats[3].suffix) == "150+"
  {
    FormatNumberExamples();
    CountAtShape(1.0, 1.0, 5000);
    CountAtShape(1.0, 1.0, 1200000);
    CountAtShape(1.0, 1.0, 25);
    CountAtShape(1.0, 1.0, 150);
  }

  // ---------------------------------------------------------------- the frame loop

  /** `CountUpNumber`: the shown count, whether the element has come into view, the animation's
      start time (0 until the first frame, as `!startTime` tests), whether a frame is requested,
      and whether the component is still mounted. */
  class CountUp {
    const value: nat
    const duration: real
    var count: int
    var inView: bool
    var startTime: real
    var framePending: bool
    var mounted: bool
    /** The timestamp of the latest frame delivered. */
    ghost var lastTimestamp: real

    ghost predicate Valid()
      reads this
    {
      duration > 0.0
      && 0 <= count <= value
      && (framePending ==> mounted && inView)
      && (!inView ==> startTime == 0.0)
      && (startTime == 0.0 ==> count == 0)
      && (startTime != 0.0 ==> 0.0 < startTime <= lastTimestamp
                               && count == CountAt(Progress(lastTimestamp, startTime, duration), value))
      && (mounted && inView && !framePending ==> count == value)
    }

    constructor (value: nat, duration: real)
      requires duration > 0.0
      ensures this.value == value && this.duration == duration
      ensures count == 0 && !inView && startTime == 0.0 && !framePending && mounted
      ensures Valid()
    {
      this.value := value;
      this.duration := duration;
      count := 0;
      inView := false;
      startTime := 0.0;
      framePending := false;
      mounted := true;
      lastTimestamp := 0.0;
    }

    /** The element scrolls into view: the first time, the effect requests the first frame;
        the view flag latches, so later calls change nothing. */
    method BecomeVisible()
      requires Valid()
      modifies this
      ensures !old(inView) && old(mounted) ==> inView && framePending && startTime == 0.0 && count == 0
      ensures old(inView) || !old(mounted) ==>
                inView == old(inView) && framePending == old(framePending) && startTime == old(startTime)
      ensures count == old(count) && mounted == old(mounted)
      ensures Valid()
    {
      if !inView && mounted {
        inView := true;
        startTime := 0.0;
        framePending := true;
      }
    }

    /** `animate`, called with the frame's timestamp, which is positive and not earlier than the
        previous frame's. The count moves to the eased value and never goes down; another frame
        is requested exactly while progress is below 1, and the last frame shows `value`. */
    method Frame(timestamp: real)
      requires Valid() && framePending
      requires timestamp > 0.0 && (startTime != 0.0 ==> timestamp >= lastTimestamp)
      modifies this
      ensures startTime == if old(startTime) == 0.0 then timestamp else old(startTime)
      ensures count == CountAt(Progress(timestamp, startTime, duration), value)
      ensures framePending <==> Progress(timestamp, startTime, duration) < 1.0
      ensures !framePending ==> count == value
      ensures count >= old(count)
      ensures inView == old(inView) && mounted == old(mounted)
      ensures Valid()
    {
      if startTime == 0.0 {
        startTime := timestamp;
      } else {
        ProgressMonotone(lastTimestamp, timestamp, startTime, duration);
        CountAtShape(Progress(lastTimestamp, startTime, duration), Progress(timestamp, startTime, duration), value);
      }
      lastTimestamp := timestamp;
      var progress := Progress(timestamp, startTime, duration);
      CountAtShape(progress, 1.0, value);
      CountAtShape(0.0, progress, value);
      count := CountAt(progress, value);
      framePending := progress < 1.0;
    }

    /** The effect's cleanup on unmount cancels a requested frame. */
    method Unmount()
      requires Valid()
      modifies this
      ensures !framePending && !mounted
      ensures count == old(count) && inView == old(inView) && startTime == old(startTime)
      ensures Valid()
    {
      framePending := false;
      mounted := false;
    }
  }
}
