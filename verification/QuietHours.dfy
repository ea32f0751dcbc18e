/**
 * The quiet-hours search of packages/core/src/notification-delivery.ts. Instants are milliseconds; a
 * time zone is its offset in whole minutes at every instant.
 */
module QuietHours {
  import opened Prelude

  const MINUTE: int := 60000
  const DAY: int := 1440
  const STEPS: nat := 26 * 60

  type Zone = int -> int

  datatype Deferral = InvalidTime | NotQuiet | SendAt(instant: int) | Unresolved

  function Digit(c: char): Option<nat> {
    if '0' <= c <= '9' then Some((c as int) - ('0' as int)) else None
  }

  /** `HH:MM` on a 24-hour clock, as minutes after midnight. */
  function ParseTime(s: string): (m: Option<nat>)
    ensures m.Some? ==> m.value < 1440
  {
    if |s| != 5 || s[2] != ':' || Digit(s[0]).None? || Digit(s[1]).None? || Digit(s[3]).None? || Digit(s[4]).None?
      then None
    else
      var hour := Digit(s[0]).value * 10 + Digit(s[1]).value;
      var minute := Digit(s[3]).value * 10 + Digit(s[4]).value;
      if hour < 24 && minute < 60 then Some(hour * 60 + minute) else None
  }

  function TwoDigits(n: nat): string
    requires n < 100
  {
    [('0' as int + n / 10) as char, ('0' as int + n % 10) as char]
  }

  /** The accepted texts are exactly the clock times: an hour below 24 and a minute below 60, two digits each. */
  lemma ParseTimeIff(s: string, m: nat)
    ensures ParseTime(s) == Some(m) <==> m < 1440 && s == TwoDigits(m / 60) + ":" + TwoDigits(m % 60)
  {
    if ParseTime(s) == Some(m) { ReadsAs(s, m); }
    if m < 1440 { ShowsAs(m); }
    hide ParseTime, TwoDigits;
  }

  lemma ReadsAs(s: string, m: nat)
    requires ParseTime(s) == Some(m)
    ensures m < 1440 && s == TwoDigits(m / 60) + ":" + TwoDigits(m % 60)
  {
    var hour, minute := Digit(s[0]).value * 10 + Digit(s[1]).value, Digit(s[3]).value * 10 + Digit(s[4]).value;
    assert m / 60 == hour && m % 60 == minute;
    assert TwoDigits(hour) == s[..2] && TwoDigits(minute) == s[3..];
    assert s == s[..2] + [s[2]] + s[3..];
  }

  lemma ShowsAs(m: nat)
    requires m < 1440
    ensures ParseTime(TwoDigits(m / 60) + ":" + TwoDigits(m % 60)) == Some(m)
  {
  }

  function LocalMinute(t: int, zone: Zone): (m: int)
    ensures 0 <= m < DAY
  {
    (t / MINUTE + zone(t)) % DAY
  }

  predicate InWindow(start: int, end: int, minute: int) {
    if start <= end then start <= minute < end else minute >= start || minute < end
  }

  predicate Quiet(t: int, zone: Zone, start: int, end: int) {
    InWindow(start, end, LocalMinute(t, zone))
  }

  /** The first whole-minute step after `now` outside the window, among the first `limit` ones. */
  ghost predicate FirstExit(now: int, zone: Zone, start: int, end: int, k: int) {
    1 <= k && !Quiet(now + MINUTE * k, zone, start, end) && QuietBefore(now, zone, start, end, k)
  }

  ghost predicate QuietBefore(now: int, zone: Zone, start: int, end: int, k: int) {
    forall j :: 1 <= j < k ==> Quiet(now + MINUTE * j, zone, start, end)
  }

  ghost predicate NeverEnds(now: int, zone: Zone, start: int, end: int) {
    Quiet(now, zone, start, end) && QuietBefore(now, zone, start, end, STEPS + 1)
  }

  method QuietHoursDefer(now: int, zone: Zone, startText: string, endText: string) returns (r: Deferral)
    ensures r.InvalidTime? <==> ParseTime(startText).None? || ParseTime(endText).None?
    ensures !r.InvalidTime? ==>
              var start, end := ParseTime(startText).value, ParseTime(endText).value;
              && (r.NotQuiet? <==> !Quiet(now, zone, start, end))
              && (r.SendAt? ==> exists k ::
                    1 <= k <= 1560 && r.instant == now + 60000 * k && FirstExit(now, zone, start, end, k))
              && (r.Unresolved? <==> NeverEnds(now, zone, start, end))
  {
    var parsedStart, parsedEnd := ParseTime(startText), ParseTime(endText);
    if parsedStart.None? || parsedEnd.None? { return InvalidTime; }
    var start, end := parsedStart.value, parsedEnd.value;
    if !InWindow(start, end, LocalMinute(now, zone)) { return NotQuiet; }
    var candidate := now + MINUTE;
    var i := 0;
    while i < STEPS
      invariant 0 <= i <= STEPS && candidate == now + MINUTE * (i + 1)
      invariant QuietBefore(now, zone, start, end, i + 1)
    {
      if !InWindow(start, end, LocalMinute(candidate, zone)) {
        assert FirstExit(now, zone, start, end, i + 1);
        return SendAt(candidate);
      }
      candidate := candidate + MINUTE;
      i := i + 1;
    }
    return Unresolved;
  }

  // ---------------------------------------------------------------------------------------------

  /** How long the window is, and how far into it (or past its start) a minute lies. */
  function Length(start: int, end: int): (n: int)
    ensures 0 <= n < DAY
  {
    (end - start) % DAY
  }

  function Into(start: int, minute: int): (n: int)
    ensures 0 <= n < DAY
  {
    (minute - start) % DAY
  }

  lemma InWindowIff(start: int, end: int, minute: int)
    requires 0 <= start < DAY && 0 <= end < DAY && 0 <= minute < DAY
    ensures InWindow(start, end, minute) <==> Into(start, minute) < Length(start, end)
  {
  }

  /** After `k` whole minutes, and an offset change by `delta`, the position in the day has moved by both. */
  lemma IntoAt(now: int, zone: Zone, start: int, k: int, delta: int)
    requires 0 <= start < DAY && zone(now + MINUTE * k) == zone(now) + delta
    ensures Into(start, LocalMinute(now + MINUTE * k, zone)) == (Into(start, LocalMinute(now, zone)) + k + delta) % DAY
  {
    assert (now + MINUTE * k) / MINUTE == now / MINUTE + k;
    var a := now / MINUTE + zone(now);
    ModShift(a, start);
    ModShift(a + k + delta, start);
    ModAdd(a - start, k + delta);
  }

  lemma ModShift(a: int, b: int)
    ensures (a % DAY - b) % DAY == (a - b) % DAY
  {
    var q := a / DAY;
    assert a % DAY - b == (a - b) - DAY * q;
    ModMultiple(a - b, -q);
  }

  lemma ModAdd(a: int, b: int)
    ensures (a % DAY + b) % DAY == (a + b) % DAY
  {
    ModShift(a, -b);
  }

  lemma ModMultiple(a: int, q: int)
    ensures (a + DAY * q) % DAY == a % DAY
  {
    var r, p := a % DAY, a / DAY;
    assert a + DAY * q == r + DAY * (p + q);
  }

  lemma QuietAt(now: int, zone: Zone, start: int, end: int, k: int, delta: int)
    requires 0 <= start < DAY && 0 <= end < DAY && zone(now + MINUTE * k) == zone(now) + delta
    ensures Quiet(now + MINUTE * k, zone, start, end)
       <==> (Into(start, LocalMinute(now, zone)) + k + delta) % DAY < Length(start, end)
  {
    IntoAt(now, zone, start, k, delta);
    InWindowIff(start, end, LocalMinute(now + MINUTE * k, zone));
  }

  // ---------------------------------------------------------------------------------------------
  // A constant offset.

  ghost predicate Constant(zone: Zone) {
    forall t, u :: zone(t) == zone(u)
  }

  /** Only one minute of the day lies this far behind the start. */
  lemma IntoDetermines(start: int, minute: int, other: int)
    requires 0 <= start < DAY && 0 <= minute < DAY && 0 <= other < DAY && Into(start, minute) == Into(start, other)
    ensures minute == other
  {
  }

  /** The search ends within the day, at the first minute outside, and that minute is exactly `end`. */
  lemma ConstantOffsetLandsOnEnd(now: int, zone: Zone, start: int, end: int) returns (k: int)
    requires Constant(zone) && 0 <= start < DAY && 0 <= end < DAY && Quiet(now, zone, start, end)
    ensures 1 <= k < DAY && FirstExit(now, zone, start, end, k)
    ensures LocalMinute(now + MINUTE * k, zone) == end
  {
    var p, l := Into(start, LocalMinute(now, zone)), Length(start, end);
    InWindowIff(start, end, LocalMinute(now, zone));
    k := l - p;
    forall j | 1 <= j <= k ensures Quiet(now + MINUTE * j, zone, start, end) <==> j < k {
      QuietAt(now, zone, start, end, j, 0);
    }
    IntoAt(now, zone, start, k, 0);
    assert Into(start, end) == l;
    hide Into, Length, LocalMinute, Quiet;
    IntoDetermines(start, LocalMinute(now + MINUTE * k, zone), end);
  }

  // ---------------------------------------------------------------------------------------------
  // One offset change.

  function OneChange(offset: int, delta: int, change: int): Zone {
    t => if t < change then offset else offset + delta
  }

  ghost predicate AlwaysEnds(start: int, end: int, delta: int) {
    forall now, offset, change :: !NeverEnds(now, OneChange(offset, delta, change), start, end)
  }

  /** The step from which the new offset applies, if any. */
  function Switch(now: int, change: int): int {
    if change <= now then 0 else (change - now + MINUTE - 1) / MINUTE
  }

  lemma SwitchIs(now: int, change: int, k: int)
    requires k >= 0
    ensures now + MINUTE * k >= change <==> k >= Switch(now, change)
  {
  }

  lemma DeltaAt(now: int, offset: int, delta: int, change: int, k: int)
    requires k >= 0
    ensures var zone := OneChange(offset, delta, change);
            zone(now + MINUTE * k) == zone(now) + if Switch(now, change) > 0 && k >= Switch(now, change) then delta
                else 0
  {
    SwitchIs(now, change, k);
    SwitchIs(now, change, 0);
  }

  /** Which steps are quiet, in terms of the position `p` at `now`. */
  lemma QuietWithChange(now: int, offset: int, delta: int, change: int, start: int, end: int, k: int)
    requires 0 <= start < DAY && 0 <= end < DAY && k >= 0
    ensures var zone, s := OneChange(offset, delta, change), Switch(now, change);
            Quiet(now + MINUTE * k, zone, start, end)
            <==>
            (Into(start, LocalMinute(now, zone)) + k + (if s > 0 && k >= s then delta else 0)) % DAY
              < Length(start, end)
  {
    DeltaAt(now, offset, delta, change, k);
    QuietAt(now, OneChange(offset, delta, change), start, end, k,
            if Switch(now, change) > 0 && k >= Switch(now, change) then delta else 0);
  }

  /** Some step within the bound is outside the window, in terms of positions alone. */
  lemma ExitStep(p: int, l: int, s: int, delta: int) returns (k: int)
    requires 0 <= p < l < DAY && s >= 0
    requires if delta >= 0 then l + delta < DAY else l - delta <= STEPS && -delta < DAY
    ensures 1 <= k <= STEPS && (p + k + (if s > 0 && k >= s then delta else 0)) % DAY >= l
  {
    if s == 0 || s > l - p {
      k := l - p;
    } else if delta >= 0 {
      k := if p + s + delta >= l then s else l - p - delta;
    } else if p + s + delta >= 0 {
      k := l - p - delta;
    } else if p + s + delta + DAY >= l {
      k := s;
      assert (p + s + delta) % DAY == p + s + delta + DAY;
    } else {
      k := l - p - delta - DAY;
      assert (p + k + delta) % DAY == l - DAY + DAY;
    }
  }

  lemma ChangeEnds(now: int, offset: int, delta: int, change: int, start: int, end: int)
    requires 0 <= start < DAY && 0 <= end < DAY
    requires var l := Length(start, end); if delta >= 0 then l + delta < DAY else l - delta <= STEPS && -delta < DAY
    ensures !NeverEnds(now, OneChange(offset, delta, change), start, end)
  {
    var zone := OneChange(offset, delta, change);
    if Quiet(now, zone, start, end) {
      InWindowIff(start, end, LocalMinute(now, zone));
      var k := ExitStep(Into(start, LocalMinute(now, zone)), Length(start, end), Switch(now, change), delta);
      QuietWithChange(now, offset, delta, change, start, end, k);
    }
  }

  /** Step `k` from the very start of the window, with the change `s` minutes after that start. */
  predicate QuietFromStart(start: int, end: int, delta: int, s: int, k: int) {
    Quiet(MINUTE * start + MINUTE * k, OneChange(0, delta, MINUTE * start + MINUTE * s), start, end)
  }

  lemma FromStart(start: int, end: int, delta: int, s: int, k: int)
    requires 0 <= start < DAY && 0 <= end < DAY && s > 0 && k >= 0
    ensures QuietFromStart(start, end, delta, s, k) <==> (k + (if k >= s then delta else 0)) % DAY < Length(start, end)
  {
    var now := MINUTE * start;
    assert Switch(now, now + MINUTE * s) == s;
    assert LocalMinute(now, OneChange(0, delta, now + MINUTE * s)) == start;
    QuietWithChange(now, 0, delta, now + MINUTE * s, start, end, k);
  }

  lemma AllQuiet(start: int, end: int, delta: int, s: int)
    requires forall k :: 0 <= k <= STEPS ==> QuietFromStart(start, end, delta, s, k)
    ensures NeverEnds(MINUTE * start, OneChange(0, delta, MINUTE * start + MINUTE * s), start, end)
    ensures !AlwaysEnds(start, end, delta)
  {
    var now, change := MINUTE * start, MINUTE * start + MINUTE * s;
    assert QuietFromStart(start, end, delta, s, 0);
    forall j | 1 <= j < STEPS + 1 ensures Quiet(now + MINUTE * j, OneChange(0, delta, change), start, end) {
      assert QuietFromStart(start, end, delta, s, j);
    }
    assert NeverEnds(now, OneChange(0, delta, change), start, end);
  }

  /**
   * Clocks put back by up to twelve hours: the search always ends if and only if the window and the
   * change together fit in the 26 hours it looks at. Two hours (and one minute) always do.
   */
  lemma BackwardChangeEndsIff(start: int, end: int, back: int)
    requires 0 <= start < DAY && 0 <= end < DAY && 0 < back <= 720
    ensures AlwaysEnds(start, end, -back) <==> Length(start, end) + back <= STEPS
    ensures back <= 121 ==> AlwaysEnds(start, end, -back)
  {
    var delta := -back;
    if Length(start, end) + back <= STEPS {
      forall now, offset, change ensures !NeverEnds(now, OneChange(offset, delta, change), start, end) {
        ChangeEnds(now, offset, delta, change, start, end);
      }
    } else {
      forall k | 0 <= k <= STEPS ensures QuietFromStart(start, end, delta, back, k) {
        FromStart(start, end, delta, back, k);
      }
      AllQuiet(start, end, delta, back);
    }
  }

  /** From the start of the window, with the clock jumping over the rest of the day just when the window ends. */
  lemma JumpThrows(start: int, end: int, forward: int)
    requires 0 <= start < DAY && 0 <= end < DAY && 0 < forward < 660 && Length(start, end) + forward >= DAY
    ensures NeverEnds(MINUTE * start, OneChange(0, forward, MINUTE * start + MINUTE * Length(start, end)), start, end)
    ensures !AlwaysEnds(start, end, forward)
  {
    var l := Length(start, end);
    forall k | 0 <= k <= STEPS ensures QuietFromStart(start, end, forward, l, k) {
      FromStart(start, end, forward, l, k);
      JumpStaysIn(l, forward, k);
    }
    AllQuiet(start, end, forward, l);
  }

  /**
   * Clocks put forward by less than eleven hours: the search always ends if and only if the change is
   * shorter than the rest of the day outside the window. Otherwise the clock can jump over that rest
   * and land in the next window, and the search gives up.
   */
  lemma ForwardChangeEndsIff(start: int, end: int, forward: int)
    requires 0 <= start < DAY && 0 <= end < DAY && 0 < forward < 660
    ensures AlwaysEnds(start, end, forward) <==> Length(start, end) + forward < DAY
  {
    var l := Length(start, end);
    if l + forward < DAY {
      forall now, offset, change ensures !NeverEnds(now, OneChange(offset, forward, change), start, end) {
        ChangeEnds(now, offset, forward, change, start, end);
      }
    } else {
      JumpThrows(start, end, forward);
    }
  }

  lemma JumpStaysIn(l: int, forward: int, k: int)
    requires 0 < l < DAY && 0 < forward < 660 && l + forward >= DAY && 0 <= k <= STEPS
    ensures (k + (if k >= l then forward else 0)) % DAY < l
  {
    if k >= l {
      assert 0 <= k + forward - DAY;
      assert (k + forward) % DAY == k + forward - DAY;
    }
  }

  /**
   * A quiet window from 01:30 to 01:00, in a zone whose clocks go forward by an hour: asked at 01:30 of the first
   * day, with the change at 01:00 of the second day, none of the steps is outside the window and the search throws.
   */
  lemma SpringForwardThrows()
    ensures ParseTime("01:30") == Some(90) && ParseTime("01:00") == Some(60)
    ensures NeverEnds(90 * MINUTE, OneChange(0, 60, (1440 + 60) * MINUTE), 90, 60)
    ensures !AlwaysEnds(90, 60, 60)
  {
    assert Digit('0') == Some(0) && Digit('1') == Some(1) && Digit('3') == Some(3);
    assert Length(90, 60) == 1410;
    JumpThrows(90, 60, 60);
  }
}
