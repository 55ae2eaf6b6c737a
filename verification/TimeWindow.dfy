/** Local time windows: the test of one instant (constraints_v2.go) and the
    horizon up to which a passing test stays valid (authorization_v2.go).  A time
    zone is an offset function with the library's bound on its next change. */
module TimeWindow {
  import opened StatusTypes

  const DAY: int := 86400

  /** `bound` is the end of the period that the zone library reports for an
      instant, `newYear` the first second of the next UTC year. */
  datatype Zone = Zone(offset: int -> int, bound: int -> Option<int>, newYear: int -> int)

  /** The zone has one offset from `t` up to, not including, `end`. */
  ghost predicate Steady(z: Zone, t: int, end: int) {
    forall u :: t <= u < end ==> z.offset(u) == z.offset(t)
  }

  /** The end of the reported period; the reported bound may not lie after the
      instant, and then the rest of the year is steady. */
  function PeriodEnd(z: Zone, t: int, bound: int): int {
    if bound > t then bound else z.newYear(t)
  }

  /** What the library promises of its periods.  A period may end without a
      change of offset. */
  ghost predicate Sound(z: Zone) {
    && (forall t :: z.newYear(t) > t)
    && (forall t :: z.bound(t).Some? ==> Steady(z, t, PeriodEnd(z, t, z.bound(t).value)))
    && (forall t, u :: z.bound(t).None? && t <= u ==> z.offset(u) == z.offset(t))
  }

  lemma SteadyChains(z: Zone, t: int, mid: int, end: int)
    requires Steady(z, t, mid) && t <= mid && z.offset(mid) == z.offset(t) && Steady(z, mid, end)
    ensures Steady(z, t, end)
  {
  }

  /** nextUTCOffsetChangeV2: the first later instant with another offset, or
      none up to the end of the timestamp domain. */
  method NextOffsetChange(z: Zone, now: int) returns (change: Option<int>)
    requires Sound(z)
    ensures change.Some? ==>
              now < change.value && Steady(z, now, change.value) && z.offset(change.value) != z.offset(now)
    ensures change.None? ==> Steady(z, now, MAX_TIMESTAMP + 1)
  {
    var candidate := now;
    while candidate <= MAX_TIMESTAMP
      invariant now <= candidate && Steady(z, now, candidate) && z.offset(candidate) == z.offset(now)
      decreases MAX_TIMESTAMP - candidate
    {
      var bound := z.bound(candidate);
      if bound.None? { return None; }
      var end := bound.value;
      if end <= candidate { end := z.newYear(candidate); }
      assert Steady(z, candidate, PeriodEnd(z, candidate, bound.value));
      SteadyChains(z, now, candidate, end);
      if z.offset(end) != z.offset(now) { return Some(end); }
      candidate := end;
    }
    return None;
  }

  datatype Window = Window(zone: Zone, start: int, end: int)

  predicate MinuteOk(m: int) { 0 <= m < 1440 }

  function LocalMinute(t: int, offset: int): int { (t + offset) % DAY / 60 }

  predicate InWindow(minute: int, start: int, end: int) {
    if start <= end then start <= minute <= end else start <= minute || minute <= end
  }

  /** evaluateConstraintV2, time_window case, at an instant. */
  predicate Open(w: Window, t: int) { InWindow(LocalMinute(t, w.zone.offset(t)), w.start, w.end) }

  /** The end of the last accepted minute, on this local day or the next. */
  function WindowEnd(t: int, offset: int, start: int, end: int): int {
    var minute := LocalMinute(t, offset);
    var days := if start > end && minute >= start then 1 else 0;
    ((t + offset) / DAY + days) * DAY + (end + 1) * 60 - offset
  }

  /** Up to that end, at a constant offset, every instant is in the window. */
  lemma WindowLasts(t: int, u: int, offset: int, start: int, end: int)
    requires MinuteOk(start) && MinuteOk(end)
    requires InWindow(LocalMinute(t, offset), start, end)
    requires t <= u < WindowEnd(t, offset, start, end)
    ensures InWindow(LocalMinute(u, offset), start, end)
  {
    var day, second := (t + offset) / DAY, (t + offset) % DAY;
    var later := u + offset - day * DAY;
    assert second <= later;
    if later < DAY {
      LocalIs(u, offset, day, later);
      MinuteMonotone(second, later);
      MinuteBelow(later, end);
    } else {
      LocalIs(u, offset, day + 1, later - DAY);
      MinuteBelow(later - DAY, end);
    }
  }

  lemma LocalIs(t: int, offset: int, day: int, second: int)
    requires t + offset == day * DAY + second && 0 <= second < DAY
    ensures LocalMinute(t, offset) == second / 60
  {
    assert (t + offset) % DAY == second;
  }

  lemma MinuteMonotone(a: int, b: int)
    requires 0 <= a <= b
    ensures a / 60 <= b / 60
  {
  }

  lemma MinuteBelow(second: int, end: int)
    requires 0 <= second
    ensures second < (end + 1) * 60 <==> second / 60 <= end
  {
  }

  /** The window end lies after every instant in the window. */
  lemma WindowEndIsLater(t: int, offset: int, start: int, end: int)
    requires MinuteOk(start) && MinuteOk(end) && InWindow(LocalMinute(t, offset), start, end)
    ensures t < WindowEnd(t, offset, start, end)
  {
    MinuteBelow((t + offset) % DAY, end);
  }

  /* ---- The first end ---- */

  /** The window's last accepted minute ends at `u`, in the local time of one
      offset. */
  predicate MinuteEnds(u: int, offset: int, end: int) {
    (u + offset) % 60 == 0 && LocalMinute(u - 1, offset) == end
  }

  lemma MinuteEndIs(u: int, offset: int, end: int) returns (day: int)
    requires MinuteOk(end) && MinuteEnds(u, offset, end)
    ensures u + offset == day * DAY + (end + 1) * 60
  {
    day := (u - 1 + offset) / DAY;
    var second := (u - 1 + offset) % DAY;
    assert u - 1 + offset == day * DAY + second && second / 60 == end;
    assert (day * DAY + second + 1) % 60 == (second + 1) % 60 by { assert day * DAY == 60 * (day * 1440); }
  }

  lemma MinuteEndsAt(u: int, offset: int, end: int, day: int)
    requires MinuteOk(end) && u + offset == day * DAY + (end + 1) * 60
    ensures MinuteEnds(u, offset, end)
  {
    LocalIs(u - 1, offset, day, end * 60 + 59);
    WholeMinute(day * 1440 + end + 1);
  }

  lemma WholeMinute(n: int)
    ensures 60 * n % 60 == 0
  {
  }

  /** The window end is the first such end after an instant in the window. */
  lemma WindowEndIsFirst(t: int, offset: int, start: int, end: int)
    requires MinuteOk(start) && MinuteOk(end) && InWindow(LocalMinute(t, offset), start, end)
    ensures MinuteEnds(WindowEnd(t, offset, start, end), offset, end)
    ensures forall u :: t < u < WindowEnd(t, offset, start, end) ==> !MinuteEnds(u, offset, end)
  {
    var day, second := (t + offset) / DAY, (t + offset) % DAY;
    var days := if start > end && LocalMinute(t, offset) >= start then 1 else 0;
    MinuteEndsAt(WindowEnd(t, offset, start, end), offset, end, day + days);
    forall u | t < u < WindowEnd(t, offset, start, end) ensures !MinuteEnds(u, offset, end) {
      if MinuteEnds(u, offset, end) {
        var d := MinuteEndIs(u, offset, end);
        NoEndBetween(day, second, days, start, end, d);
      }
    }
  }

  /** On the days between, the last accepted minute had ended before. */
  lemma NoEndBetween(day: int, second: int, days: int, start: int, end: int, d: int)
    requires 0 <= second < DAY && MinuteOk(start) && MinuteOk(end) && days in {0, 1}
    requires days == 1 ==> end < start <= second / 60
    ensures !(day * DAY + second < d * DAY + (end + 1) * 60 < (day + days) * DAY + (end + 1) * 60)
  {
    if d < day + days {
      assert d <= day + days - 1;
      assert d * DAY <= (day + days - 1) * DAY;
    } else {
      assert d * DAY >= (day + days) * DAY;
    }
  }

  /** The offset is another one than now, or the last accepted minute ends. */
  ghost predicate EndsAt(w: Window, now: int, u: int) {
    w.zone.offset(u) != w.zone.offset(now) || MinuteEnds(u, w.zone.offset(now), w.end)
  }

  /** `until` is the first end after `now`, within the timestamp domain. */
  ghost predicate FirstEnd(w: Window, now: int, until: int) {
    && (until == MAX_TIMESTAMP || (now < until < MAX_TIMESTAMP && EndsAt(w, now, until)))
    && NoEndBefore(w, now, until)
  }

  ghost predicate NoEndBefore(w: Window, now: int, until: int) {
    forall u :: now < u < until ==> !EndsAt(w, now, u)
  }

  ghost predicate WindowsOk(ws: seq<Window>) {
    forall i :: 0 <= i < |ws| ==> Sound(ws[i].zone) && MinuteOk(ws[i].start) && MinuteOk(ws[i].end)
  }

  /** localTimeWindowValidUntilV2 for one window: until when it stays open. */
  method OpenUntil(w: Window, now: int) returns (r: Result<int>)
    requires Sound(w.zone) && MinuteOk(w.start) && MinuteOk(w.end) && ValidTimestamp(now)
    ensures r.Success? <==> Open(w, now)
    ensures r.Success? ==> now <= r.value <= MAX_TIMESTAMP && 0 < r.value
    ensures r.Success? ==> forall t :: now <= t < r.value ==> Open(w, t)
    ensures r.Success? ==> FirstEnd(w, now, r.value)
  {
    var offset := w.zone.offset(now);
    if !InWindow(LocalMinute(now, offset), w.start, w.end) { return Failure; }
    var until := WindowEnd(now, offset, w.start, w.end);
    WindowEndIsLater(now, offset, w.start, w.end);
    WindowEndIsFirst(now, offset, w.start, w.end);
    var change := NextOffsetChange(w.zone, now);
    if change.Some? && change.value < until { until := change.value; }
    forall t | now <= t < until && t <= MAX_TIMESTAMP ensures Open(w, t) {
      assert w.zone.offset(t) == offset;
      WindowLasts(now, t, offset, w.start, w.end);
    }
    return Success(if until < MAX_TIMESTAMP then until else MAX_TIMESTAMP);
  }

  /** `until` is 0 when there is no window, and otherwise a bound before which
      every instant from `now` on is inside every window. */
  ghost predicate StaysOpen(ws: seq<Window>, now: int, until: int) {
    && (if ws == [] then until == 0 else 0 < until <= MAX_TIMESTAMP)
    && forall i, t :: 0 <= i < |ws| && now <= t < until ==> Open(ws[i], t)
  }

  /** Open at every instant before `until`, with no end on the way. */
  ghost predicate Lasts(w: Window, now: int, until: int) {
    (forall t :: now <= t < until ==> Open(w, t)) && NoEndBefore(w, now, until)
  }

  lemma LastsLess(w: Window, now: int, until: int, less: int)
    requires Lasts(w, now, until) && less <= until
    ensures Lasts(w, now, less)
  {
  }

  /** The first end of any of the windows. */
  ghost predicate LeastEnd(ws: seq<Window>, now: int, until: int) {
    && (exists i :: 0 <= i < |ws| && FirstEnd(ws[i], now, until))
    && (forall i :: 0 <= i < |ws| ==> NoEndBefore(ws[i], now, until))
  }

  /** The earliest end over all windows of a chain, or 0 when there is none:
      every instant before it is inside every window, at whatever offset the
      zones then have. */
  method WindowsValidUntil(ws: seq<Window>, now: int) returns (r: Result<int>)
    requires WindowsOk(ws) && ValidTimestamp(now)
    ensures r.Success? <==> forall i :: 0 <= i < |ws| ==> Open(ws[i], now)
    ensures r.Success? ==> StaysOpen(ws, now, r.value)
    ensures r.Success? && ws != [] ==> LeastEnd(ws, now, r.value)
  {
    var horizon := 0;
    ghost var first := 0;
    for i := 0 to |ws|
      invariant forall k :: 0 <= k < i ==> Open(ws[k], now)
      invariant horizon == 0 <==> i == 0
      invariant 0 <= horizon <= MAX_TIMESTAMP
      invariant i > 0 ==> 0 <= first < i && FirstEnd(ws[first], now, horizon)
      invariant forall k :: 0 <= k < i ==> Lasts(ws[k], now, horizon)
    {
      var until := OpenUntil(ws[i], now);
      if until.Failure? { return Failure; }
      forall k | 0 <= k <= i ensures Lasts(ws[k], now, if i == 0 then until.value else Min(horizon, until.value)) {
        LastsLess(ws[k], now, if k == i then until.value else horizon,
                  if i == 0 then until.value else Min(horizon, until.value));
      }
      if horizon == 0 || until.value < horizon {
        horizon := until.value;
        first := i;
      }
    }
    return Success(horizon);
  }
}
