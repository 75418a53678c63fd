/**
 * The deal-of-the-day card: the countdown state and its one-second tick, the
 * two-digit rendering of each countdown field, and the deal's price and stock
 * figures.
 */
module DealOfTheDay {

  datatype TimeLeft = TimeLeft(hours: int, minutes: int, seconds: int)

  /** The countdown starts at 23:45:30. */
  const InitialTimeLeft := TimeLeft(23, 45, 30)

  /** The interval callback's state update: the hours never rise, and a countdown with nothing positive left stays put. */
  function Tick(prev: TimeLeft): (r: TimeLeft)
    ensures r.hours <= prev.hours
    ensures r == prev <==> prev.seconds <= 0 && prev.minutes <= 0 && prev.hours <= 0
  {
    if prev.seconds > 0 then prev.(seconds := prev.seconds - 1)
    else if prev.minutes > 0 then prev.(minutes := prev.minutes - 1, seconds := 59)
    else if prev.hours > 0 then TimeLeft(prev.hours - 1, 59, 59)
    else prev
  }

  function TotalSeconds(t: TimeLeft): int {
    t.hours * 3600 + t.minutes * 60 + t.seconds
  }

  predicate NonNegative(t: TimeLeft) {
    t.hours >= 0 && t.minutes >= 0 && t.seconds >= 0
  }

  /** A clock reading: minutes and seconds within 0..59. */
  predicate WellFormed(t: TimeLeft) {
    t.hours >= 0 && 0 <= t.minutes <= 59 && 0 <= t.seconds <= 59
  }

  /** On non-negative fields a tick takes exactly one second off a running countdown and stops at zero. */
  lemma TickCountsDown(t: TimeLeft)
    requires NonNegative(t)
    ensures NonNegative(Tick(t))
    ensures TotalSeconds(t) > 0 ==> TotalSeconds(Tick(t)) == TotalSeconds(t) - 1
    ensures TotalSeconds(t) == 0 ==> t == TimeLeft(0, 0, 0) && Tick(t) == t
  {
    var h, m, sec := t.hours, t.minutes, t.seconds;
    if sec > 0 {
      assert Tick(t) == TimeLeft(h, m, sec - 1);
    } else if m > 0 {
      assert Tick(t) == TimeLeft(h, m - 1, 59);
    } else if h > 0 {
      assert Tick(t) == TimeLeft(h - 1, 59, 59);
    } else {
      assert t == TimeLeft(0, 0, 0);
    }
  }

  /** 00:00:00 is a fixed point. */
  lemma TickFixedPoint()
    ensures Tick(TimeLeft(0, 0, 0)) == TimeLeft(0, 0, 0)
  {
  }

  /** Minutes and seconds stay within 0..59, hours never increase and hours stay non-negative. */
  lemma TickKeepsClockShape(t: TimeLeft)
    ensures WellFormed(t) ==> WellFormed(Tick(t))
    ensures Tick(t).hours <= t.hours
    ensures t.hours >= 0 ==> Tick(t).hours >= 0
  {
  }

  /** `k` ticks in a row. */
  function Ticks(t: TimeLeft, k: nat): TimeLeft
    decreases k
  {
    if k == 0 then t else Ticks(Tick(t), k - 1)
  }

  /** After `k` ticks the countdown shows `max(0, T - k)` seconds, with `T` the starting total. */
  lemma {:induction false} TicksCountDown(t: TimeLeft, k: nat)
    requires NonNegative(t)
    ensures NonNegative(Ticks(t, k))
    ensures TotalSeconds(Ticks(t, k)) == if TotalSeconds(t) >= k then TotalSeconds(t) - k else 0
    decreases k
  {
    if k > 0 {
      TickCountsDown(t);
      TicksCountDown(Tick(t), k - 1);
    }
  }

  /** Any number of ticks keeps the clock shape and never raises the hours. */
  lemma {:induction false} TicksKeepClockShape(t: TimeLeft, k: nat)
    requires WellFormed(t)
    ensures WellFormed(Ticks(t, k)) && Ticks(t, k).hours <= t.hours
    decreases k
  {
    if k > 0 {
      TickKeepsClockShape(t);
      TicksKeepClockShape(Tick(t), k - 1);
    }
  }

  /** The deal's countdown reaches 00:00:00 after 85530 ticks, and stays there. */
  lemma InitialCountdownExpires(k: nat)
    requires k >= 85530
    ensures Ticks(InitialTimeLeft, k) == TimeLeft(0, 0, 0)
  {
    TicksCountDown(InitialTimeLeft, k);
    TickCountsDown(Ticks(InitialTimeLeft, k));
  }

  /** The component's `timeLeft` state, driven once a second by the interval timer. */
  class Countdown {
    var timeLeft: TimeLeft

    ghost predicate Valid()
      reads this
    {
      WellFormed(timeLeft) && timeLeft.hours <= 23
    }

    constructor()
      ensures Valid() && timeLeft == InitialTimeLeft
    {
      timeLeft := InitialTimeLeft;
    }

    /** One firing of the interval: the clock shows one second less, or stays at 00:00:00. */
    method OnTimer()
      requires Valid()
      modifies this
      ensures Valid()
      ensures timeLeft == Tick(old(timeLeft))
      ensures TotalSeconds(timeLeft) == if TotalSeconds(old(timeLeft)) > 0 then TotalSeconds(old(timeLeft)) - 1 else 0
    {
      TickCountsDown(timeLeft);
      TickKeepsClockShape(timeLeft);
      timeLeft := Tick(timeLeft);
    }

    /** The three boxes of the countdown, each exactly two characters wide. */
    function Display(): (r: (string, string, string))
      requires Valid()
      reads this
      ensures |r.0| == 2 && |r.1| == 2 && |r.2| == 2
    {
      TwoDigitDisplay(timeLeft.hours);
      TwoDigitDisplay(timeLeft.minutes);
      TwoDigitDisplay(timeLeft.seconds);
      (Padded(timeLeft.hours), Padded(timeLeft.minutes), Padded(timeLeft.seconds))
    }
  }

  // ---------------------------------------------------------------------------
  // `n.toString().padStart(2, "0")`

  function DigitChar(d: int): char
    requires 0 <= d <= 9
  {
    ('0' as int + d) as char
  }

  predicate IsDigit(c: char) {
    '0' <= c <= '9'
  }

  function DigitValue(c: char): int
    requires IsDigit(c)
  {
    c as int - '0' as int
  }

  /** Decimal digits of a natural number, most significant first, without leading zeros. */
  function NatToString(n: nat): string
    decreases n
  {
    if n < 10 then [DigitChar(n)] else NatToString(n / 10) + [DigitChar(n % 10)]
  }

  /** `Number.prototype.toString()` on integers. */
  function IntToString(n: int): string {
    if n < 0 then "-" + NatToString(-n) else NatToString(n)
  }

  /** `s.padStart(2, "0")` */
  function PadStart2(s: string): string {
    if |s| >= 2 then s else seq(2 - |s|, _ => '0') + s
  }

  function Padded(n: int): string {
    PadStart2(IntToString(n))
  }

  /** The value a string of digits spells. */
  function DigitsValue(s: string): int
    requires forall i :: 0 <= i < |s| ==> IsDigit(s[i])
  {
    if s == [] then 0 else DigitsValue(s[..|s| - 1]) * 10 + DigitValue(s[|s| - 1])
  }

  /** Every value in 0..99 renders as exactly two digits, tens then units, which read back as the value. */
  lemma TwoDigitDisplay(n: int)
    requires 0 <= n <= 99
    ensures Padded(n) == [DigitChar(n / 10), DigitChar(n % 10)]
    ensures |Padded(n)| == 2
    ensures DigitsValue(Padded(n)) == n
  {
    var s := Padded(n);
    if n < 10 {
      assert IntToString(n) == [DigitChar(n)];
      assert s == ['0', DigitChar(n)];
    } else {
      assert NatToString(n / 10) == [DigitChar(n / 10)];
      assert IntToString(n) == [DigitChar(n / 10), DigitChar(n % 10)];
    }
    assert s[..1] == [DigitChar(n / 10)];
    assert s[..1][..0] == [];
    assert DigitsValue(s[..1]) == n / 10;
  }

  /** Two different values in 0..99 never render the same. */
  lemma DisplayInjective(a: int, b: int)
    requires 0 <= a <= 99 && 0 <= b <= 99
    requires Padded(a) == Padded(b)
    ensures a == b
  {
    TwoDigitDisplay(a);
    TwoDigitDisplay(b);
  }

  // ---------------------------------------------------------------------------
  // The deal's figures

  datatype Deal = Deal(originalPrice: int, dealPrice: int, soldCount: int, totalStock: int)

  const DealProduct := Deal(399, 299, 127, 200)

  /** "Available: …" and "Only … left in stock" both show the unsold units. */
  function Available(d: Deal): int {
    d.totalStock - d.soldCount
  }

  /** The "Save $…" badge. */
  function Saving(d: Deal): int {
    d.originalPrice - d.dealPrice
  }

  /** For this deal, 73 units are left and the badge says $100. */
  lemma DealFigures()
    ensures Available(DealProduct) == 73 && Saving(DealProduct) == 100
  {
  }
}
