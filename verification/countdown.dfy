/**
  The countdown ticker (`updateCountdown`): the time left until a fixed target
  instant, clamped at zero and split into days, hours, minutes and seconds.
  Instants are integer millisecond timestamps, as `Date.prototype.getTime` returns.
 */
module Countdown {

  import opened Decimal

  /** The four counters of the display; only `days` is unbounded. */
  datatype Breakdown = Breakdown(days: nat, hours: nat, minutes: nat, seconds: nat)

  /** Each bounded counter lies in its unit's range. */
  predicate InRange(b: Breakdown) {
    b.hours < 24 && b.minutes < 60 && b.seconds < 60
  }

  /** The whole number of seconds a breakdown stands for. */
  function TotalSeconds(b: Breakdown): nat {
    b.days * 86400 + b.hours * 3600 + b.minutes * 60 + b.seconds
  }

  /** `Math.max(target - now, 0)`: milliseconds left, never negative. */
  function Remaining(target: int, now: int): nat {
    if target - now > 0 then target - now else 0
  }

  /**
    The counters computed at a tick. They are in range, together they account
    for every whole second left (only the sub-second milliseconds are dropped),
    and once the target has passed all four are zero.
   */
  function Decompose(target: int, now: int): (b: Breakdown)
    ensures InRange(b)
    ensures TotalSeconds(b) == Remaining(target, now) / 1000
    ensures now < target ==> TotalSeconds(b) == (target - now) / 1000
    ensures target <= now ==> b == Breakdown(0, 0, 0, 0)
  {
    var total := Remaining(target, now);
    SplitSeconds(total);
    Breakdown(total / (1000 * 60 * 60 * 24), total / (1000 * 60 * 60) % 24, total / (1000 * 60) % 60, total / 1000 % 60)
  }

  /** Dividing the milliseconds by each unit agrees with dividing the whole seconds. */
  lemma SplitSeconds(total: nat)
    ensures total / 86400000 * 86400 + total / 3600000 % 24 * 3600 + total / 60000 % 60 * 60 + total / 1000 % 60
            == total / 1000
  {
    var s := total / 1000;
    assert total / 60000 == s / 60;
    assert total / 3600000 == s / 3600;
    assert total / 86400000 == s / 86400;
    assert s / 3600 == (s / 60) / 60;
    assert s / 86400 == (s / 3600) / 24;
  }

  /** Counters in range are the mixed-radix digits of the seconds they account for. */
  lemma MixedRadixDigits(s: nat, b: Breakdown)
    requires InRange(b) && TotalSeconds(b) == s
    ensures b.seconds == s % 60 && b.minutes == s / 60 % 60 && b.hours == s / 3600 % 24 && b.days == s / 86400
  {
    var mins := b.days * 1440 + b.hours * 60 + b.minutes;
    assert s == mins * 60 + b.seconds;
    assert s / 60 == mins && s % 60 == b.seconds;
    var hrs := b.days * 24 + b.hours;
    assert mins == hrs * 60 + b.minutes;
    assert mins / 60 == hrs && mins % 60 == b.minutes;
    assert s / 3600 == mins / 60;
    assert hrs / 24 == b.days && hrs % 24 == b.hours;
    assert s / 86400 == hrs / 24;
  }

  /**
    The breakdown is the only in-range one for the time left: any counters in
    range that account for the same whole seconds are the ones `Decompose` gives.
   */
  lemma DecomposeUnique(target: int, now: int, b: Breakdown)
    requires InRange(b)
    requires TotalSeconds(b) == Remaining(target, now) / 1000
    ensures b == Decompose(target, now)
  {
    var d := Decompose(target, now);
    MixedRadixDigits(TotalSeconds(b), b);
    MixedRadixDigits(TotalSeconds(b), d);
  }

  /** Time moving forward never makes the countdown show more time left. */
  lemma CountsDown(target: int, now: int, later: int)
    requires now <= later
    ensures TotalSeconds(Decompose(target, later)) <= TotalSeconds(Decompose(target, now))
    ensures TotalSeconds(Decompose(target, now)) == 0 ==> Decompose(target, later) == Breakdown(0, 0, 0, 0)
  {
    var a := Remaining(target, later);
    var c := Remaining(target, now);
    assert a <= c;
    assert a / 1000 <= c / 1000;
  }

  /** A two-digit numeral denoting zero is "00". */
  lemma ZeroPadded(s: string)
    requires IsDecimal(s) && |s| == 2 && Value(s) == 0
    ensures s == "00"
  {
    ZeroValueAllZeros(s);
  }

  /** The four text slots the tick writes. */
  datatype Display = Display(days: string, hours: string, minutes: string, seconds: string)

  /**
    One tick of `updateCountdown`. Days are printed as a plain numeral; hours,
    minutes and seconds are always exactly two digits; every slot denotes its
    counter, so together the slots read back the whole seconds left.
   */
  function UpdateCountdown(target: int, now: int): (d: Display)
    ensures var b := Decompose(target, now);
      && Canonical(d.days) && Value(d.days) == b.days
      && IsDecimal(d.hours) && |d.hours| == 2 && Value(d.hours) == b.hours
      && IsDecimal(d.minutes) && |d.minutes| == 2 && Value(d.minutes) == b.minutes
      && IsDecimal(d.seconds) && |d.seconds| == 2 && Value(d.seconds) == b.seconds
    ensures Value(d.days) * 86400 + Value(d.hours) * 3600 + Value(d.minutes) * 60 + Value(d.seconds)
            == Remaining(target, now) / 1000
    ensures target <= now ==> d == Display("0", "00", "00", "00")
  {
    var b := Decompose(target, now);
    ToDecimalDenotes(b.days);
    var d := Display(ToDecimal(b.days), TwoDigits(b.hours), TwoDigits(b.minutes), TwoDigits(b.seconds));
    assert Value(d.days) * 86400 + Value(d.hours) * 3600 + Value(d.minutes) * 60 + Value(d.seconds)
        == TotalSeconds(b);
    if target <= now then
      ZeroPadded(d.hours);
      ZeroPadded(d.minutes);
      ZeroPadded(d.seconds);
      d
    else
      d
  }
}
