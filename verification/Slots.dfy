/**
  Open slots and bookings of a coach: OpenSlots expands the weekly windows of a
  coach into concrete starts, and assertBookable decides about one of them.

  Instants are whole seconds. A zone is a pair of functions: what its clocks show
  at an instant, and the instant time.Date picks for a wall-clock reading, both
  counted in seconds with day 0 being 1 January 1970.
*/
module Slots {
  import opened Common

  const DAY := 86400
  const DEFAULT_SESSION := 45
  const SLOT_STEP := 30
  const MIN_SESSION := 15
  const MAX_SESSION := 240
  const MAX_DAYS := 30
  const MIN_CHECKOUT := 300

  datatype Zone = Zone(local: int -> int, resolve: int -> int)

  /** A published window, in minutes of the local day; Sunday is weekday 0. */
  datatype Window = Window(weekday: int, start: int, end: int)

  /** A session that holds its slot. */
  datatype Booking = Booking(id: nat, start: int, duration: int)

  datatype Coach = Coach(approved: bool, accepting: bool, zone: Zone, windows: seq<Window>, sessions: seq<Booking>)

  /** What looking up the session to leave out gives. */
  datatype Lookup = Refused | OtherCoach | Own(id: nat)

  datatype Error = NotFound | NotAllowed | InvalidInput | Unavailable | SlotTaken

  datatype Listing = Listed(starts: seq<int>, duration: int) | Declined(error: Error)

  /** Everything the expansion depends on, once the request has been checked. */
  datatype Query = Query(zone: Zone, windows: seq<Window>, from: int, to: int, duration: int,
                         booked: seq<Booking>, exclude: Option<nat>)

  function DayOf(wall: int): int { wall / DAY }
  function MinuteOf(wall: int): int { wall % DAY / 60 }
  function WeekdayOf(day: int): int { (day + 4) % 7 }
  function WallOf(day: int, minute: int): int { day * DAY + minute * 60 }

  // ---------------------------------------------------------------------------
  // Zones
  // ---------------------------------------------------------------------------

  /** The clocks never jump by a day, to the minute, between a reading and the instant picked for it. */
  ghost predicate GapsUnderADay(z: Zone) {
    forall wall {:trigger z.local(z.resolve(wall))} :: -(DAY - 60) <= z.local(z.resolve(wall)) - wall <= DAY - 60
  }

  /** The instant picked for the midnight that begins a day. */
  function Midnight(z: Zone, day: int): int { z.resolve(WallOf(day, 0)) }

  /** Local midnight exists on every day and begins it. */
  ghost predicate MidnightsExist(z: Zone) {
    && (forall d :: z.local(Midnight(z, d)) == WallOf(d, 0))
    && (forall t, d {:trigger z.local(t), Midnight(z, d)} :: Midnight(z, d) <= t <==> WallOf(d, 0) <= z.local(t))
  }

  /** The clock shows, to the minute, the reading the instant was picked for. */
  predicate Shown(z: Zone, day: int, minute: int) {
    MinuteOf(z.local(z.resolve(WallOf(day, minute)))) == minute
  }

  /** Of two readings that are shown, the later one is picked a later instant. */
  ghost predicate InOrder(z: Zone) {
    forall d, m, d', m' :: Shown(z, d, m) && Shown(z, d', m') && WallOf(d, m) < WallOf(d', m') ==>
      z.resolve(WallOf(d, m)) < z.resolve(WallOf(d', m'))
  }

  // ---------------------------------------------------------------------------
  // The expansion, as a function
  // ---------------------------------------------------------------------------

  predicate Overlaps(start: int, duration: int, b: Booking) {
    start < b.start + b.duration * 60 && b.start < start + duration * 60
  }

  predicate Collides(start: int, duration: int, booked: seq<Booking>, exclude: Option<nat>) {
    exists i | 0 <= i < |booked| :: exclude != Some(booked[i].id) && Overlaps(start, duration, booked[i])
  }

  /** A grid point of a window is kept. */
  predicate Kept(q: Query, day: int, minute: int) {
    var start := q.zone.resolve(WallOf(day, minute));
    Shown(q.zone, day, minute) && q.from <= start < q.to && !Collides(start, q.duration, q.booked, q.exclude)
  }

  function WindowStarts(q: Query, day: int, minute: int, end: int): seq<int>
    decreases end - minute
  {
    if q.duration <= 0 || minute + q.duration > end then []
    else (if Kept(q, day, minute) then [q.zone.resolve(WallOf(day, minute))] else []) +
         WindowStarts(q, day, minute + SLOT_STEP, end)
  }

  function DayStarts(q: Query, day: int, windows: seq<Window>): seq<int> {
    if windows == [] then []
    else (if windows[0].weekday == WeekdayOf(day) then WindowStarts(q, day, windows[0].start, windows[0].end) else []) +
         DayStarts(q, day, windows[1..])
  }

  /** The same clock time on the next day. */
  function Tomorrow(z: Zone, day: int): int { z.resolve(z.local(day) + DAY) }

  /** The k-th day of the loop after one. */
  function Later(z: Zone, day: int, k: nat): int
    decreases k
  {
    if k == 0 then day else Later(z, Tomorrow(z, day), k - 1)
  }

  predicate Past(q: Query, day: int, k: nat) { Later(q.zone, day, k) > q.to }

  /** The loop over days ends: it comes to a day past the range. */
  ghost predicate Ends(q: Query, day: int) { exists k :: Past(q, day, k) }

  lemma {:induction false} FirstPast(q: Query, day: int, k: nat) returns (n: nat)
    requires Past(q, day, k)
    ensures Past(q, day, n) && forall j: nat :: j < n ==> !Past(q, day, j)
  {
    if j :| 0 <= j < k && Past(q, day, j) { n := FirstPast(q, day, j); } else { n := k; }
  }

  /** How many days the loop has still to go through. */
  ghost function DaysLeft(q: Query, day: int): (n: nat)
    requires Ends(q, day)
    ensures Past(q, day, n) && forall j: nat :: j < n ==> !Past(q, day, j)
  {
    var k :| Past(q, day, k);
    SomeFirstPast(q, day, k);
    var n: nat :| Past(q, day, n) && forall j: nat :: j < n ==> !Past(q, day, j);
    n
  }

  lemma SomeFirstPast(q: Query, day: int, k: nat)
    requires Past(q, day, k)
    ensures exists n: nat :: Past(q, day, n) && forall j: nat :: j < n ==> !Past(q, day, j)
  {
    var n := FirstPast(q, day, k);
  }

  lemma OneDayLess(q: Query, day: int)
    requires Ends(q, day) && day <= q.to
    ensures Ends(q, Tomorrow(q.zone, day)) && DaysLeft(q, Tomorrow(q.zone, day)) < DaysLeft(q, day)
  {
    var n := DaysLeft(q, day);
    assert !Past(q, day, 0);
    assert Past(q, Tomorrow(q.zone, day), n - 1);
  }

  ghost function AllStarts(q: Query, day: int): seq<int>
    requires Ends(q, day)
    decreases DaysLeft(q, day)
  {
    if day > q.to then []
    else
      OneDayLess(q, day);
      DayStarts(q, DayOf(q.zone.local(day)), q.windows) + AllStarts(q, Tomorrow(q.zone, day))
  }

  function FirstDay(q: Query): int {
    Midnight(q.zone, DayOf(q.zone.local(q.from)))
  }

  // ---------------------------------------------------------------------------
  // Database
  // ---------------------------------------------------------------------------

  /** ListBookedSlots: the slot-holding sessions that start in a range. */
  function BookedIn(sessions: seq<Booking>, lo: int, hi: int): seq<Booking> {
    if sessions == [] then []
    else (if lo <= sessions[0].start < hi then [sessions[0]] else []) + BookedIn(sessions[1..], lo, hi)
  }

  lemma {:induction false} BookedInContents(sessions: seq<Booking>, lo: int, hi: int, b: Booking)
    ensures b in BookedIn(sessions, lo, hi) <==> b in sessions && lo <= b.start < hi
  {
    if sessions != [] {
      BookedInContents(sessions[1..], lo, hi, b);
      assert sessions == [sessions[0]] + sessions[1..];
    }
  }

  lemma CollidesIff(start: int, duration: int, booked: seq<Booking>, exclude: Option<nat>)
    ensures Collides(start, duration, booked, exclude) <==>
            exists b :: b in booked && exclude != Some(b.id) && Overlaps(start, duration, b)
  {
    if Collides(start, duration, booked, exclude) {
      var i :| 0 <= i < |booked| && exclude != Some(booked[i].id) && Overlaps(start, duration, booked[i]);
      assert booked[i] in booked;
    }
  }

  // ---------------------------------------------------------------------------
  // The code
  // ---------------------------------------------------------------------------

  method OverlapsBooked(start: int, duration: int, booked: seq<Booking>, exclude: Option<nat>) returns (hit: bool)
    ensures hit <==> Collides(start, duration, booked, exclude)
  {
    var end := start + duration * 60;
    for i := 0 to |booked|
      invariant !Collides(start, duration, booked[..i], exclude)
    {
      var b := booked[i];
      if exclude != Some(b.id) && start < b.start + b.duration * 60 && b.start < end {
        return true;
      }
      assert booked[..i + 1] == booked[..i] + [b];
    }
    assert booked[..|booked|] == booked;
    return false;
  }

  /** SetAvailability's check: every window lies within one day of the week and is not empty. */
  method WindowsInRange(windows: seq<Window>) returns (ok: bool)
    ensures ok <==> forall w :: w in windows ==> 0 <= w.weekday <= 6 && 0 <= w.start < w.end <= 1440
  {
    for i := 0 to |windows|
      invariant forall j :: 0 <= j < i ==> 0 <= windows[j].weekday <= 6 && 0 <= windows[j].start < windows[j].end <= 1440
    {
      var w := windows[i];
      if w.weekday < 0 || w.weekday > 6 || w.start < 0 || w.end <= w.start || w.end > 1440 {
        assert w in windows;
        return false;
      }
    }
    return true;
  }

  function OnWeekday(windows: seq<Window>, weekday: int): seq<Window> {
    if windows == [] then []
    else (if windows[0].weekday == weekday then [windows[0]] else []) + OnWeekday(windows[1..], weekday)
  }

  lemma {:induction false} OnWeekdayAppend(windows: seq<Window>, w: Window, weekday: int)
    ensures OnWeekday(windows + [w], weekday) == OnWeekday(windows, weekday) + if w.weekday == weekday then [w] else []
  {
    if windows == [] {
      assert windows + [w] == [w];
    } else {
      var head := if windows[0].weekday == weekday then [windows[0]] else [];
      var more := if w.weekday == weekday then [w] else [];
      assert (windows + [w])[1..] == windows[1..] + [w];
      OnWeekdayAppend(windows[1..], w, weekday);
      assert OnWeekday(windows + [w], weekday) == head + (OnWeekday(windows[1..], weekday) + more);
      assert OnWeekday(windows, weekday) == head + OnWeekday(windows[1..], weekday);
    }
  }

  function Todays(byWeekday: map<int, seq<Window>>, weekday: int): seq<Window> {
    if weekday in byWeekday then byWeekday[weekday] else []
  }

  ghost predicate Grouped(byWeekday: map<int, seq<Window>>, windows: seq<Window>) {
    forall d :: Todays(byWeekday, d) == OnWeekday(windows, d)
  }

  lemma GroupedAppend(byWeekday: map<int, seq<Window>>, windows: seq<Window>, w: Window)
    requires Grouped(byWeekday, windows)
    ensures Grouped(byWeekday[w.weekday := Todays(byWeekday, w.weekday) + [w]], windows + [w])
  {
    var grown := byWeekday[w.weekday := Todays(byWeekday, w.weekday) + [w]];
    forall d ensures Todays(grown, d) == OnWeekday(windows + [w], d) {
      OnWeekdayAppend(windows, w, d);
      assert Todays(byWeekday, d) == OnWeekday(windows, d);
    }
  }

  method GroupByWeekday(windows: seq<Window>) returns (byWeekday: map<int, seq<Window>>)
    ensures Grouped(byWeekday, windows)
  {
    byWeekday := map[];
    for i := 0 to |windows|
      invariant Grouped(byWeekday, windows[..i])
    {
      GroupedAppend(byWeekday, windows[..i], windows[i]);
      assert windows[..i + 1] == windows[..i] + [windows[i]];
      byWeekday := byWeekday[windows[i].weekday := Todays(byWeekday, windows[i].weekday) + [windows[i]]];
    }
    assert windows[..|windows|] == windows;
  }

  lemma {:induction false} DayStartsGrouped(q: Query, day: int, windows: seq<Window>)
    ensures DayStarts(q, day, windows) == DayStarts(q, day, OnWeekday(windows, WeekdayOf(day)))
  {
    if windows != [] {
      var rest := OnWeekday(windows[1..], WeekdayOf(day));
      DayStartsGrouped(q, day, windows[1..]);
      if windows[0].weekday == WeekdayOf(day) {
        var grouped := [windows[0]] + rest;
        assert grouped[1..] == rest;
        assert DayStarts(q, day, grouped) == WindowStarts(q, day, windows[0].start, windows[0].end) + DayStarts(q, day, rest);
        assert OnWeekday(windows, WeekdayOf(day)) == grouped;
      } else {
        assert OnWeekday(windows, WeekdayOf(day)) == rest;
      }
    }
  }

  /** The grid of one window on one day. */
  method ExpandWindow(q: Query, day: int, w: Window) returns (starts: seq<int>)
    requires q.duration > 0
    ensures starts == WindowStarts(q, day, w.start, w.end)
  {
    starts := [];
    var minute := w.start;
    while minute + q.duration <= w.end
      invariant starts + WindowStarts(q, day, minute, w.end) == WindowStarts(q, day, w.start, w.end)
      decreases w.end - minute
    {
      var start := q.zone.resolve(WallOf(day, minute));
      var shown := MinuteOf(q.zone.local(start));
      if shown == minute && q.from <= start && start < q.to {
        var hit := OverlapsBooked(start, q.duration, q.booked, q.exclude);
        if !hit { starts := starts + [start]; }
      }
      minute := minute + SLOT_STEP;
    }
  }

  /** The windows of one day. */
  method ExpandDay(q: Query, date: int, todays: seq<Window>) returns (starts: seq<int>)
    requires q.duration > 0 && forall i :: 0 <= i < |todays| ==> todays[i].weekday == WeekdayOf(date)
    ensures starts == DayStarts(q, date, todays)
  {
    starts := [];
    for i := 0 to |todays|
      invariant starts + DayStarts(q, date, todays[i..]) == DayStarts(q, date, todays)
    {
      var more := ExpandWindow(q, date, todays[i]);
      assert todays[i..][0] == todays[i] && todays[i..][1..] == todays[i + 1..];
      starts := starts + more;
    }
  }

  /** One day of the loop, over the windows filed under its weekday. */
  method ExpandDate(q: Query, date: int, byWeekday: map<int, seq<Window>>) returns (starts: seq<int>)
    requires q.duration > 0 && Grouped(byWeekday, q.windows)
    ensures starts == DayStarts(q, date, q.windows)
  {
    OnWeekdayOnly(q.windows, WeekdayOf(date));
    DayStartsGrouped(q, date, q.windows);
    starts := ExpandDay(q, date, Todays(byWeekday, WeekdayOf(date)));
  }

  lemma NextDay(q: Query, day: int, sofar: seq<int>, more: seq<int>)
    requires Ends(q, day) && day <= q.to && more == DayStarts(q, DayOf(q.zone.local(day)), q.windows)
    ensures var next := Tomorrow(q.zone, day);
            && Ends(q, next) && DaysLeft(q, next) < DaysLeft(q, day)
            && sofar + AllStarts(q, day) == (sofar + more) + AllStarts(q, next)
  {
    OneDayLess(q, day);
    assert AllStarts(q, day) == more + AllStarts(q, Tomorrow(q.zone, day));
  }

  /** The loops of OpenSlots over days, windows and minutes. */
  method Expand(q: Query) returns (starts: seq<int>)
    requires q.duration > 0 && Ends(q, FirstDay(q))
    ensures starts == AllStarts(q, FirstDay(q))
  {
    var byWeekday := GroupByWeekday(q.windows);
    starts := [];
    var day := FirstDay(q);
    while day <= q.to
      invariant Ends(q, day) && starts + AllStarts(q, day) == AllStarts(q, FirstDay(q))
      decreases DaysLeft(q, day)
    {
      var more := ExpandDate(q, DayOf(q.zone.local(day)), byWeekday);
      NextDay(q, day, starts, more);
      starts := starts + more;
      day := q.zone.resolve(q.zone.local(day) + DAY);
    }
  }

  lemma {:induction false} OnWeekdayOnly(windows: seq<Window>, weekday: int)
    ensures forall i :: 0 <= i < |OnWeekday(windows, weekday)| ==> OnWeekday(windows, weekday)[i].weekday == weekday
  {
    if windows != [] { OnWeekdayOnly(windows[1..], weekday); }
  }

  /**
    At minute m of day d a window has a grid point that the clocks show there, from
    the earliest moment on and before `to`, and no session overlaps it but the one
    left out and those that start outside the range a booking can reach.
  */
  predicate FreeAt(coach: Coach, left: Option<nat>, from: int, earliest: int, to: int, duration: int, t: int, w: Window, d: int, m: int) {
    && w in coach.windows && w.weekday == (d + 4) % 7
    && w.start <= m && (m - w.start) % 30 == 0 && m + duration <= w.end
    && t == coach.zone.resolve(d * 86400 + m * 60) && coach.zone.local(t) % 86400 / 60 == m
    && earliest <= t < to
    && forall b :: b in coach.sessions && left != Some(b.id) && from - 14400 <= b.start < to ==>
         b.start + b.duration * 60 <= t || t + duration * 60 <= b.start
  }

  ghost predicate Free(coach: Coach, left: Option<nat>, from: int, earliest: int, to: int, duration: int, t: int) {
    exists w, d, m :: FreeAt(coach, left, from, earliest, to, duration, t, w, d, m)
  }

  /**
    The open slots of a coach, or why there are none to list. Every start listed is
    free, with payments on and no session left out also five minutes from now; and
    where midnights exist and no gap takes a day, every free start is listed.
  */
  method OpenSlots(coach: Option<Coach>, excluded: Option<Lookup>, from: int, to: int, durationMinutes: int,
                   paymentsEnabled: bool, now: int) returns (r: Listing)
    // The loop over days ends.
    requires coach.Some? && (excluded.Some? ==> excluded.value.Own?) ==>
               var q := QueryOf(coach.value, excluded, from, to, durationMinutes, paymentsEnabled, now); Ends(q, FirstDay(q))
    ensures r.Declined? <==> excluded == Some(Refused) || excluded == Some(OtherCoach) || to <= from ||
                             to - from > 30 * 86400 || coach.None?
    ensures r.Declined? ==> r.error == if excluded == Some(Refused) then NotAllowed
                                       else if excluded == Some(OtherCoach) || to <= from || to - from > 30 * 86400 then InvalidInput
                                       else NotFound
    ensures r.Listed? ==> r.duration == if durationMinutes <= 0 then 45 else durationMinutes
    ensures r.Listed? && !coach.value.approved ==> r.starts == []
    ensures r.Listed? && coach.value.approved ==>
              var c := coach.value;
              var left := if excluded.Some? then Some(excluded.value.id) else None;
              var earliest := if paymentsEnabled && excluded.None? && now + 300 > from then now + 300 else from;
              && (forall t :: t in r.starts ==> Free(c, left, from, earliest, to, r.duration, t))
              && (MidnightsExist(c.zone) && GapsUnderADay(c.zone) && (forall w :: w in c.windows ==> InRange(w)) ==>
                    forall t :: Free(c, left, from, earliest, to, r.duration, t) ==> t in r.starts)
    ensures r.Listed? && coach.value.approved ==>
              var q := QueryOf(coach.value, excluded, from, to, durationMinutes, paymentsEnabled, now);
              r.starts == AllStarts(q, FirstDay(q)) && Asks(coach.value, from, q)
  {
    if excluded.Some? {
      if excluded.value.Refused? { return Declined(NotAllowed); }
      if excluded.value.OtherCoach? { return Declined(InvalidInput); }
    }
    var duration := if durationMinutes <= 0 then DEFAULT_SESSION else durationMinutes;
    if to <= from { return Declined(InvalidInput); }
    if to - from > MAX_DAYS * DAY { return Declined(InvalidInput); }
    if coach.None? { return Declined(NotFound); }
    if !coach.value.approved { return Listed([], duration); }
    var booked := BookedIn(coach.value.sessions, from - MAX_SESSION * 60, to);
    var earliest := from;
    if paymentsEnabled && excluded.None? {
      if now + MIN_CHECKOUT > from { earliest := now + MIN_CHECKOUT; }
    }
    var q := Query(coach.value.zone, coach.value.windows, earliest, to, duration, booked,
                   if excluded.Some? then Some(excluded.value.id) else None);
    var starts := Expand(q);
    ListsTheFree(coach.value, from, q);
    return Listed(starts, duration);
  }

  lemma OfferedIsFree(coach: Coach, from: int, q: Query, t: int)
    requires Asks(coach, from, q)
    ensures Offered(q, t) <==> Free(coach, q.exclude, from, q.from, q.to, q.duration, t)
  {
    CollidesIff(t, q.duration, q.booked, q.exclude);
    forall b ensures b in q.booked <==> b in coach.sessions && from - 14400 <= b.start < q.to {
      BookedInContents(coach.sessions, from - MAX_SESSION * 60, q.to, b);
    }
    forall w, d, m ensures OfferedBy(q, t, w, d, m) <==> FreeAt(coach, q.exclude, from, q.from, q.to, q.duration, t, w, d, m) {
    }
  }

  lemma ListsTheFree(coach: Coach, from: int, q: Query)
    requires Asks(coach, from, q) && Ends(q, FirstDay(q))
    ensures forall t :: t in AllStarts(q, FirstDay(q)) ==> Free(coach, q.exclude, from, q.from, q.to, q.duration, t)
    ensures MidnightsExist(coach.zone) && GapsUnderADay(coach.zone) && (forall w :: w in coach.windows ==> InRange(w)) ==>
              forall t :: Free(coach, q.exclude, from, q.from, q.to, q.duration, t) ==> t in AllStarts(q, FirstDay(q))
  {
    forall t ensures Offered(q, t) <==> Free(coach, q.exclude, from, q.from, q.to, q.duration, t) { OfferedIsFree(coach, from, q, t); }
    forall t | t in AllStarts(q, FirstDay(q)) ensures Offered(q, t) { OnlyOffered(q, FirstDay(q), t); }
    if MidnightsExist(coach.zone) && GapsUnderADay(coach.zone) && (forall w :: w in coach.windows ==> InRange(w)) {
      forall t | Offered(q, t) ensures t in AllStarts(q, FirstDay(q)) { ListsExactlyTheOffered(q, t); }
    }
  }

  function QueryOf(coach: Coach, excluded: Option<Lookup>, from: int, to: int, durationMinutes: int,
                   paymentsEnabled: bool, now: int): Query
    requires excluded.Some? ==> excluded.value.Own?
  {
    Query(coach.zone, coach.windows,
          if paymentsEnabled && excluded.None? && now + MIN_CHECKOUT > from then now + MIN_CHECKOUT else from,
          to, if durationMinutes <= 0 then DEFAULT_SESSION else durationMinutes,
          BookedIn(coach.sessions, from - MAX_SESSION * 60, to),
          if excluded.Some? then Some(excluded.value.id) else None)
  }

  /** What a listing for a coach looks at, from a requested start on. */
  ghost predicate Asks(coach: Coach, from: int, q: Query) {
    && q.zone == coach.zone && q.windows == coach.windows && from <= q.from && q.duration > 0
    && q.booked == BookedIn(coach.sessions, from - MAX_SESSION * 60, q.to)
  }

  predicate InsideWindow(coach: Coach, start: int, duration: int) {
    var local := coach.zone.local(start);
    exists i | 0 <= i < |coach.windows| ::
      && coach.windows[i].weekday == WeekdayOf(DayOf(local)) && coach.windows[i].start <= MinuteOf(local)
      && MinuteOf(local) + duration <= coach.windows[i].end
  }

  /** What assertBookable answers: None when the interval may be booked. */
  function Verdict(coach: Option<Coach>, start: int, duration: int, requireAccepting: bool, exclude: Option<nat>): Option<Error> {
    if duration < MIN_SESSION || duration > MAX_SESSION then Some(InvalidInput)
    else if coach.None? then Some(NotFound)
    else if !coach.value.approved || (requireAccepting && !coach.value.accepting) then Some(Unavailable)
    else if !InsideWindow(coach.value, start, duration) then Some(Unavailable)
    else if Collides(start, duration, BookedIn(coach.value.sessions, start - MAX_SESSION * 60, start + duration * 60), exclude)
    then Some(SlotTaken)
    else None
  }

  /** What the answer means, refusal by refusal. */
  lemma VerdictExactly(coach: Option<Coach>, start: int, duration: int, requireAccepting: bool, exclude: Option<nat>)
    ensures var answer := Verdict(coach, start, duration, requireAccepting, exclude);
            if duration < 15 || duration > 240 then answer == Some(InvalidInput)
            else if coach.None? then answer == Some(NotFound)
            else
              var local := coach.value.zone.local(start);
              if !coach.value.approved || (requireAccepting && !coach.value.accepting) ||
                 !(exists w :: w in coach.value.windows && w.weekday == (local / 86400 + 4) % 7 &&
                               w.start <= local % 86400 / 60 && local % 86400 / 60 + duration <= w.end)
              then answer == Some(Unavailable)
              else if exists b :: b in coach.value.sessions && exclude != Some(b.id) && start - 14400 <= b.start &&
                                  start < b.start + b.duration * 60 && b.start < start + duration * 60
              then answer == Some(SlotTaken)
              else answer == None
  {
    if coach.Some? {
      var c := coach.value;
      var end := start + duration * 60;
      CollidesIff(start, duration, BookedIn(c.sessions, start - MAX_SESSION * 60, end), exclude);
      forall b ensures b in BookedIn(c.sessions, start - MAX_SESSION * 60, end) <==> b in c.sessions && start - 14400 <= b.start < end {
        BookedInContents(c.sessions, start - MAX_SESSION * 60, end, b);
      }
      if w :| w in c.windows && w.weekday == (c.zone.local(start) / 86400 + 4) % 7 && w.start <= MinuteOf(c.zone.local(start)) &&
              MinuteOf(c.zone.local(start)) + duration <= w.end
      {
        var i :| 0 <= i < |c.windows| && c.windows[i] == w;
        assert InsideWindow(c, start, duration);
      }
    }
  }

  /**
    The interval is refused for its duration, for want of the coach, because the coach
    is not approved, does not accept or publishes no window around it, or because a
    session overlaps it; and it is accepted in no other case.
  */
  method AssertBookable(coach: Option<Coach>, start: int, duration: int, requireAccepting: bool, exclude: Option<nat>)
    returns (error: Option<Error>)
    ensures error == Verdict(coach, start, duration, requireAccepting, exclude)
    ensures error == Some(InvalidInput) <==> duration < 15 || duration > 240
    ensures error == Some(NotFound) <==> 15 <= duration <= 240 && coach.None?
    ensures error == None <==>
              && coach.Some? && coach.value.approved && (requireAccepting ==> coach.value.accepting) && 15 <= duration <= 240
              && (var local := coach.value.zone.local(start);
                  exists w :: w in coach.value.windows && w.weekday == (local / 86400 + 4) % 7 &&
                              w.start <= local % 86400 / 60 && local % 86400 / 60 + duration <= w.end)
              && forall b :: b in coach.value.sessions && exclude != Some(b.id) && start - 14400 <= b.start ==>
                   !(start < b.start + b.duration * 60 && b.start < start + duration * 60)
  {
    VerdictExactly(coach, start, duration, requireAccepting, exclude);
    if duration < MIN_SESSION || duration > MAX_SESSION { return Some(InvalidInput); }
    if coach.None? { return Some(NotFound); }
    var c := coach.value;
    if !c.approved { return Some(Unavailable); }
    if requireAccepting && !c.accepting { return Some(Unavailable); }
    var local := c.zone.local(start);
    var startMinute := MinuteOf(local);
    var inside := false;
    var i := 0;
    while i < |c.windows| && !inside
      invariant 0 <= i <= |c.windows|
      invariant inside ==> InsideWindow(c, start, duration)
      invariant !inside ==> forall j :: 0 <= j < i ==>
                  !(c.windows[j].weekday == WeekdayOf(DayOf(local)) && c.windows[j].start <= startMinute && startMinute + duration <= c.windows[j].end)
      decreases |c.windows| - i, !inside
    {
      var w := c.windows[i];
      if w.weekday == WeekdayOf(DayOf(local)) && startMinute >= w.start && startMinute + duration <= w.end {
        inside := true;
      } else {
        i := i + 1;
      }
    }
    if !inside { return Some(Unavailable); }
    var booked := BookedIn(c.sessions, start - MAX_SESSION * 60, start + duration * 60);
    var hit := OverlapsBooked(start, duration, booked, exclude);
    return if hit then Some(SlotTaken) else None;
  }

  // ---------------------------------------------------------------------------
  // What is offered
  // ---------------------------------------------------------------------------

  predicate InRange(w: Window) { 0 <= w.weekday <= 6 && 0 <= w.start < w.end <= 1440 }

  predicate OnGrid(w: Window, minute: int, duration: int) {
    w.start <= minute && (minute - w.start) % SLOT_STEP == 0 && minute + duration <= w.end
  }

  /** The start is the one a window of that day has at that minute, and nothing speaks against it. */
  predicate OfferedBy(q: Query, t: int, w: Window, day: int, minute: int) {
    && w in q.windows && w.weekday == WeekdayOf(day) && OnGrid(w, minute, q.duration)
    && t == q.zone.resolve(WallOf(day, minute)) && Kept(q, day, minute)
  }

  ghost predicate Offered(q: Query, t: int) {
    exists w, day, minute :: OfferedBy(q, t, w, day, minute)
  }

  /** Every window's minute is shown on the day it was taken on. */
  lemma ShownOnItsDay(z: Zone, day: int, minute: int)
    requires GapsUnderADay(z) && 0 <= minute < 1440 && Shown(z, day, minute)
    ensures var wall := z.local(z.resolve(WallOf(day, minute))); DayOf(wall) == day && MinuteOf(wall) == minute
  {
    var wall := z.local(z.resolve(WallOf(day, minute)));
    assert wall == DayOf(wall) * DAY + wall % DAY;
    assert minute * 60 <= wall % DAY < minute * 60 + 60;
  }

  lemma {:induction false} WindowStartsSound(q: Query, day: int, minute: int, end: int, t: int) returns (m: int)
    requires t in WindowStarts(q, day, minute, end)
    ensures minute <= m && (m - minute) % SLOT_STEP == 0 && m + q.duration <= end
    ensures q.duration > 0 && Kept(q, day, m) && t == q.zone.resolve(WallOf(day, m))
    decreases end - minute
  {
    if Kept(q, day, minute) && t == q.zone.resolve(WallOf(day, minute)) {
      m := minute;
    } else {
      m := WindowStartsSound(q, day, minute + SLOT_STEP, end, t);
    }
  }

  lemma {:induction false} WindowStartsComplete(q: Query, day: int, minute: int, end: int, m: int)
    requires q.duration > 0 && minute <= m && (m - minute) % SLOT_STEP == 0 && m + q.duration <= end && Kept(q, day, m)
    ensures q.zone.resolve(WallOf(day, m)) in WindowStarts(q, day, minute, end)
    decreases end - minute
  {
    if minute < m { WindowStartsComplete(q, day, minute + SLOT_STEP, end, m); }
  }

  lemma {:induction false} DayStartsSound(q: Query, day: int, windows: seq<Window>, t: int) returns (w: Window, m: int)
    requires t in DayStarts(q, day, windows)
    ensures w in windows && w.weekday == WeekdayOf(day) && OnGrid(w, m, q.duration)
    ensures q.duration > 0 && Kept(q, day, m) && t == q.zone.resolve(WallOf(day, m))
  {
    if windows[0].weekday == WeekdayOf(day) && t in WindowStarts(q, day, windows[0].start, windows[0].end) {
      w := windows[0];
      m := WindowStartsSound(q, day, w.start, w.end, t);
    } else {
      w, m := DayStartsSound(q, day, windows[1..], t);
    }
  }

  lemma {:induction false} DayStartsComplete(q: Query, day: int, windows: seq<Window>, w: Window, m: int)
    requires q.duration > 0 && w in windows && w.weekday == WeekdayOf(day) && OnGrid(w, m, q.duration) && Kept(q, day, m)
    ensures q.zone.resolve(WallOf(day, m)) in DayStarts(q, day, windows)
  {
    if windows[0] == w {
      WindowStartsComplete(q, day, w.start, w.end, m);
    } else {
      DayStartsComplete(q, day, windows[1..], w, m);
    }
  }

  /** Every start in the list is offered by a window, whatever the zone does. */
  lemma {:induction false} OnlyOffered(q: Query, from: int, t: int)
    requires Ends(q, from) && t in AllStarts(q, from)
    ensures Offered(q, t)
    decreases DaysLeft(q, from)
  {
    var day := DayOf(q.zone.local(from));
    NextDay(q, from, [], DayStarts(q, day, q.windows));
    if t in DayStarts(q, day, q.windows) {
      var w, m := DayStartsSound(q, day, q.windows, t);
      assert OfferedBy(q, t, w, day, m);
    } else {
      OnlyOffered(q, Tomorrow(q.zone, from), t);
    }
  }

  lemma MidnightsInOrder(z: Zone, d: int, d': int)
    requires MidnightsExist(z)
    ensures d <= d' ==> Midnight(z, d) <= Midnight(z, d')
    ensures d < d' ==> Midnight(z, d) < Midnight(z, d')
  {
    assert z.local(Midnight(z, d)) == WallOf(d, 0) && z.local(Midnight(z, d')) == WallOf(d', 0);
  }

  /** Where midnights exist, the loop visits them one after the other, and so it ends. */
  lemma {:induction false} LaterMidnight(z: Zone, d: int, k: nat)
    requires MidnightsExist(z)
    ensures Later(z, Midnight(z, d), k) == Midnight(z, d + k) && Midnight(z, d) + k <= Midnight(z, d + k)
    decreases k
  {
    if k > 0 {
      assert z.local(Midnight(z, d)) == WallOf(d, 0) && WallOf(d, 0) + DAY == WallOf(d + 1, 0);
      assert Tomorrow(z, Midnight(z, d)) == Midnight(z, d + 1);
      MidnightsInOrder(z, d, d + 1);
      LaterMidnight(z, d + 1, k - 1);
    }
  }

  lemma EndsFromMidnight(q: Query, d: int)
    requires MidnightsExist(q.zone)
    ensures Ends(q, Midnight(q.zone, d))
  {
    var k: nat := if q.to < Midnight(q.zone, d) then 0 else q.to - Midnight(q.zone, d) + 1;
    LaterMidnight(q.zone, d, k);
    assert Past(q, Midnight(q.zone, d), k);
  }

  /** The starts listed from a midnight on. */
  ghost function StartsFrom(q: Query, d: int): seq<int>
    requires MidnightsExist(q.zone)
  {
    EndsFromMidnight(q, d);
    AllStarts(q, Midnight(q.zone, d))
  }

  lemma FromMidnight(q: Query, d: int)
    requires MidnightsExist(q.zone) && Midnight(q.zone, d) <= q.to
    ensures Midnight(q.zone, d) < Midnight(q.zone, d + 1)
    ensures StartsFrom(q, d) == DayStarts(q, d, q.windows) + StartsFrom(q, d + 1)
  {
    var midnight, more := Midnight(q.zone, d), DayStarts(q, d, q.windows);
    MidnightsInOrder(q.zone, d, d + 1);
    EndsFromMidnight(q, d);
    assert q.zone.local(midnight) == WallOf(d, 0) && DayOf(WallOf(d, 0)) == d;
    NextDay(q, midnight, [], more);
    assert WallOf(d, 0) + DAY == WallOf(d + 1, 0);
    assert [] + more == more && [] + AllStarts(q, midnight) == AllStarts(q, midnight);
  }

  lemma {:induction false} EveryDayVisited(q: Query, first: int, d: int, t: int)
    requires MidnightsExist(q.zone)
    requires first <= d && Midnight(q.zone, d) <= q.to && t in DayStarts(q, d, q.windows)
    ensures t in StartsFrom(q, first)
    decreases d - first
  {
    MidnightsInOrder(q.zone, first, d);
    FromMidnight(q, first);
    if first < d { EveryDayVisited(q, first + 1, d, t); }
  }

  /** Complete and sound: exactly the offered starts are listed. */
  lemma ListsExactlyTheOffered(q: Query, t: int)
    requires MidnightsExist(q.zone) && GapsUnderADay(q.zone)
    requires q.duration > 0 && forall w :: w in q.windows ==> InRange(w)
    ensures Ends(q, FirstDay(q)) && (t in AllStarts(q, FirstDay(q)) <==> Offered(q, t))
  {
    EndsFromMidnight(q, DayOf(q.zone.local(q.from)));
    if t in AllStarts(q, FirstDay(q)) {
      OnlyOffered(q, FirstDay(q), t);
    }
    if Offered(q, t) {
      var w, d, m :| OfferedBy(q, t, w, d, m);
      var z, d0 := q.zone, DayOf(q.zone.local(q.from));
      ShownOnItsDay(z, d, m);
      DayStartsComplete(q, d, q.windows, w, m);
      DaysOf(z, q.from, t);
      EveryDayVisited(q, d0, d, t);
    }
  }

  lemma DaysOf(z: Zone, from: int, t: int)
    requires MidnightsExist(z) && from <= t
    ensures DayOf(z.local(from)) <= DayOf(z.local(t)) && Midnight(z, DayOf(z.local(t))) <= t
  {
    var d0, d := DayOf(z.local(from)), DayOf(z.local(t));
    assert Midnight(z, d0) <= from;
    assert WallOf(d0, 0) <= z.local(t) < WallOf(d + 1, 0);
    assert Midnight(z, d) <= t;
  }

  // ---------------------------------------------------------------------------
  // The order of the list
  // ---------------------------------------------------------------------------

  predicate Increasing(s: seq<int>) { forall i, j :: 0 <= i < j < |s| ==> s[i] < s[j] }

  /** Windows of one weekday are listed in order and do not overlap. */
  predicate Disjoint(windows: seq<Window>) {
    forall i, j :: 0 <= i < j < |windows| && windows[i].weekday == windows[j].weekday ==> windows[i].end <= windows[j].start
  }

  lemma IncreasingConcat(a: seq<int>, b: seq<int>)
    requires Increasing(a) && Increasing(b) && forall x, y :: x in a && y in b ==> x < y
    ensures Increasing(a + b)
  {
    forall i, j | 0 <= i < j < |a + b| ensures (a + b)[i] < (a + b)[j] {
      if i < |a| <= j { assert a[i] in a && b[j - |a|] in b; }
    }
  }

  lemma {:induction false} WindowStartsIncreasing(q: Query, day: int, minute: int, end: int)
    requires InOrder(q.zone)
    ensures Increasing(WindowStarts(q, day, minute, end))
    decreases end - minute
  {
    if q.duration > 0 && minute + q.duration <= end {
      WindowStartsIncreasing(q, day, minute + SLOT_STEP, end);
      var head := if Kept(q, day, minute) then [q.zone.resolve(WallOf(day, minute))] else [];
      var rest := WindowStarts(q, day, minute + SLOT_STEP, end);
      forall x, y | x in head && y in rest ensures x < y {
        var m := WindowStartsSound(q, day, minute + SLOT_STEP, end, y);
        assert Shown(q.zone, day, minute) && Shown(q.zone, day, m);
      }
      IncreasingConcat(head, rest);
    }
  }

  lemma {:induction false} DayStartsIncreasing(q: Query, day: int, windows: seq<Window>)
    requires InOrder(q.zone) && Disjoint(windows)
    ensures Increasing(DayStarts(q, day, windows))
  {
    if windows != [] {
      DayStartsIncreasing(q, day, windows[1..]);
      if windows[0].weekday == WeekdayOf(day) {
        var head, rest := WindowStarts(q, day, windows[0].start, windows[0].end), DayStarts(q, day, windows[1..]);
        WindowStartsIncreasing(q, day, windows[0].start, windows[0].end);
        forall x, y | x in head && y in rest ensures x < y {
          var m := WindowStartsSound(q, day, windows[0].start, windows[0].end, x);
          var w, m' := DayStartsSound(q, day, windows[1..], y);
          assert Shown(q.zone, day, m) && Shown(q.zone, day, m');
        }
        IncreasingConcat(head, rest);
      }
    }
  }

  /** A listed start comes from the day the loop stands at or a later one. */
  lemma {:induction false} NoEarlierDay(q: Query, d: int, t: int) returns (d': int, m: int)
    requires MidnightsExist(q.zone) && (forall w :: w in q.windows ==> InRange(w))
    requires t in StartsFrom(q, d)
    ensures d <= d' && 0 <= m < 1440 && Shown(q.zone, d', m) && t == q.zone.resolve(WallOf(d', m))
    decreases q.to - Midnight(q.zone, d)
  {
    FromMidnight(q, d);
    if t in DayStarts(q, d, q.windows) {
      var w;
      w, m := DayStartsSound(q, d, q.windows, t);
      d' := d;
    } else {
      d', m := NoEarlierDay(q, d + 1, t);
    }
  }

  /** The list is strictly increasing: no start is listed twice. */
  lemma {:induction false} StartsIncrease(q: Query, d: int)
    requires MidnightsExist(q.zone) && InOrder(q.zone)
    requires (forall w :: w in q.windows ==> InRange(w)) && Disjoint(q.windows)
    ensures Increasing(StartsFrom(q, d))
    decreases q.to - Midnight(q.zone, d)
  {
    if Midnight(q.zone, d) <= q.to {
      FromMidnight(q, d);
      StartsIncrease(q, d + 1);
      DayStartsIncreasing(q, d, q.windows);
      var head, rest := DayStarts(q, d, q.windows), StartsFrom(q, d + 1);
      forall x, y | x in head && y in rest ensures x < y { DayBefore(q, d, x, y); }
      IncreasingConcat(head, rest);
    }
  }

  lemma DayBefore(q: Query, d: int, x: int, y: int)
    requires MidnightsExist(q.zone) && InOrder(q.zone) && (forall w :: w in q.windows ==> InRange(w))
    requires x in DayStarts(q, d, q.windows) && y in StartsFrom(q, d + 1)
    ensures x < y
  {
    var w, m := DayStartsSound(q, d, q.windows, x);
    var d', m' := NoEarlierDay(q, d + 1, y);
    assert Shown(q.zone, d, m) && Shown(q.zone, d', m');
  }

  // ---------------------------------------------------------------------------
  // What is offered may be booked
  // ---------------------------------------------------------------------------

  /** A held session starts between the end of the listed range and the end of the slot. */
  predicate RunsIntoLater(coach: Coach, q: Query, t: int) {
    exists i | 0 <= i < |coach.sessions| ::
      q.exclude != Some(coach.sessions[i].id) && q.to <= coach.sessions[i].start < t + q.duration * 60
  }

  /** The database keeps a session between fifteen minutes and four hours; SetAvailability checked the windows. */
  predicate RowsSane(coach: Coach) {
    && (forall b :: b in coach.sessions ==> MIN_SESSION <= b.duration <= MAX_SESSION)
    && (forall w :: w in coach.windows ==> InRange(w))
  }

  /** The booking check sees the sessions the listing saw, and those starting after its range. */
  lemma CollisionsAgree(coach: Coach, from: int, q: Query, t: int)
    requires Asks(coach, from, q) && RowsSane(coach) && q.from <= t < q.to && !Collides(t, q.duration, q.booked, q.exclude)
    ensures Collides(t, q.duration, BookedIn(coach.sessions, t - MAX_SESSION * 60, t + q.duration * 60), q.exclude) <==>
            RunsIntoLater(coach, q, t)
  {
    var end := t + q.duration * 60;
    var seen := BookedIn(coach.sessions, t - MAX_SESSION * 60, end);
    CollidesIff(t, q.duration, seen, q.exclude);
    CollidesIff(t, q.duration, q.booked, q.exclude);
    if b :| b in seen && q.exclude != Some(b.id) && Overlaps(t, q.duration, b) {
      BookedInContents(coach.sessions, t - MAX_SESSION * 60, end, b);
      BookedInContents(coach.sessions, from - MAX_SESSION * 60, q.to, b);
      var i :| 0 <= i < |coach.sessions| && coach.sessions[i] == b;
    }
    if RunsIntoLater(coach, q, t) {
      var i :| 0 <= i < |coach.sessions| && q.exclude != Some(coach.sessions[i].id) && q.to <= coach.sessions[i].start < end;
      BookedInContents(coach.sessions, t - MAX_SESSION * 60, end, coach.sessions[i]);
      assert coach.sessions[i] in coach.sessions;
      assert coach.sessions[i] in seen;
    }
  }

  lemma OfferedIsInside(coach: Coach, from: int, q: Query, t: int)
    requires Asks(coach, from, q) && RowsSane(coach) && GapsUnderADay(coach.zone) && Offered(q, t)
    ensures InsideWindow(coach, t, q.duration)
  {
    var w, d, m :| OfferedBy(q, t, w, d, m);
    ShownOnItsDay(q.zone, d, m);
    var i :| 0 <= i < |coach.windows| && coach.windows[i] == w;
  }

  /**
    What the booking check answers for a start that was listed, exactly. It is
    refused only for a duration outside fifteen minutes to four hours, a coach who does
    not accept, a held session that starts after the listed range, or a clock that
    shows another day there, which takes a gap of a whole day.
  */
  lemma OfferedIsBookable(coach: Coach, from: int, q: Query, requireAccepting: bool, t: int)
    requires Ends(q, FirstDay(q))
    requires Asks(coach, from, q) && coach.approved && RowsSane(coach) && t in AllStarts(q, FirstDay(q))
    ensures Verdict(Some(coach), t, q.duration, requireAccepting, q.exclude) ==
            if q.duration < MIN_SESSION || q.duration > MAX_SESSION then Some(InvalidInput)
            else if requireAccepting && !coach.accepting then Some(Unavailable)
            else if !InsideWindow(coach, t, q.duration) then Some(Unavailable)
            else if RunsIntoLater(coach, q, t) then Some(SlotTaken)
            else None
    ensures GapsUnderADay(coach.zone) ==> InsideWindow(coach, t, q.duration)
  {
    OnlyOffered(q, FirstDay(q), t);
    if GapsUnderADay(coach.zone) { OfferedIsInside(coach, from, q, t); }
    CollisionsAgree(coach, from, q, t);
  }

  /** A slot that ends within the listed range is accepted, at fifteen minutes or more and a coach who accepts. */
  lemma EndingInRangeIsBookable(coach: Coach, from: int, q: Query, t: int)
    requires Ends(q, FirstDay(q)) && GapsUnderADay(coach.zone)
    requires Asks(coach, from, q) && coach.approved && coach.accepting && RowsSane(coach)
    requires MIN_SESSION <= q.duration <= MAX_SESSION && t in AllStarts(q, FirstDay(q)) && t + q.duration * 60 <= q.to
    ensures Verdict(Some(coach), t, q.duration, true, q.exclude) == None
  {
    OfferedIsBookable(coach, from, q, true, t);
  }

  /** An accepted booking overlaps no session that holds its slot, whenever that one starts. */
  lemma NoDoubleBooking(coach: Coach, t: int, duration: int, requireAccepting: bool, exclude: Option<nat>, b: Booking)
    requires RowsSane(coach) && b in coach.sessions && exclude != Some(b.id)
    requires Verdict(Some(coach), t, duration, requireAccepting, exclude) == None
    ensures b.start + b.duration * 60 <= t || t + duration * 60 <= b.start
  {
    var seen := BookedIn(coach.sessions, t - MAX_SESSION * 60, t + duration * 60);
    BookedInContents(coach.sessions, t - MAX_SESSION * 60, t + duration * 60, b);
    CollidesIff(t, duration, seen, exclude);
  }

  /** The converse: a grid start in the range that the booking check accepts is listed. */
  lemma BookableIsOffered(coach: Coach, from: int, q: Query, requireAccepting: bool, w: Window, d: int, m: int)
    requires GapsUnderADay(coach.zone) && MidnightsExist(coach.zone)
    requires Asks(coach, from, q) && RowsSane(coach)
    requires w in coach.windows && w.weekday == WeekdayOf(d) && OnGrid(w, m, q.duration) && Shown(coach.zone, d, m)
    requires var t := coach.zone.resolve(WallOf(d, m));
             q.from <= t < q.to && Verdict(Some(coach), t, q.duration, requireAccepting, q.exclude) == None
    ensures Ends(q, FirstDay(q)) && coach.zone.resolve(WallOf(d, m)) in AllStarts(q, FirstDay(q))
  {
    var t := coach.zone.resolve(WallOf(d, m));
    CollidesIff(t, q.duration, q.booked, q.exclude);
    if b :| b in q.booked && q.exclude != Some(b.id) && Overlaps(t, q.duration, b) {
      BookedInContents(coach.sessions, from - MAX_SESSION * 60, q.to, b);
      NoDoubleBooking(coach, t, q.duration, requireAccepting, q.exclude, b);
    }
    assert OfferedBy(q, t, w, d, m);
    ListsExactlyTheOffered(q, t);
  }

  /**
    A zone whose clocks skip one whole day at noon of day 0. It passes the
    minute test on the wrong day, so a listed start is refused.
  */
  const SkipsADay := Zone((t: int) => if t < 43200 then t else t + DAY, (wall: int) => if wall < 43200 + DAY then wall else wall - DAY)

  const Afternoon := Window(4, 780, 840)
  const SkipQuery := Query(SkipsADay, [Afternoon], 0, DAY, 45, [], None)
  const SkipCoach := Coach(true, true, SkipsADay, [Afternoon], [])

  lemma SkippedDayZone()
    ensures Ends(SkipQuery, FirstDay(SkipQuery)) && FirstDay(SkipQuery) == 0 && !GapsUnderADay(SkipsADay)
  {
    assert SkipsADay.local(SkipsADay.resolve(50000)) - 50000 == DAY;
    assert FirstDay(SkipQuery) == 0 && Tomorrow(SkipsADay, 0) == DAY && Tomorrow(SkipsADay, DAY) == 2 * DAY;
    assert Later(SkipsADay, DAY, 1) == 2 * DAY && Later(SkipsADay, 0, 2) == 2 * DAY;
    assert Past(SkipQuery, 0, 2);
  }

  lemma SkippedDayIsKept()
    ensures Kept(SkipQuery, 0, 780) && SkipsADay.resolve(WallOf(0, 780)) == 46800
  {
    assert WallOf(0, 780) == 46800 && MinuteOf(46800 + DAY) == 780;
  }

  lemma SkippedDayIsListed()
    ensures Ends(SkipQuery, FirstDay(SkipQuery)) && 46800 in AllStarts(SkipQuery, FirstDay(SkipQuery))
  {
    SkippedDayZone();
    SkippedDayIsKept();
    assert DayOf(SkipsADay.local(0)) == 0 && WeekdayOf(0) == 4;
    DayStartsComplete(SkipQuery, 0, [Afternoon], Afternoon, 780);
    NextDay(SkipQuery, 0, [], DayStarts(SkipQuery, 0, [Afternoon]));
  }

  lemma SkippedDayIsOutside()
    ensures !InsideWindow(SkipCoach, 46800, SkipQuery.duration)
  {
    assert WeekdayOf(DayOf(SkipsADay.local(46800))) == 5;
  }

  /** Without GapsUnderADay a listed start may be refused. */
  lemma SkippedDayIsRefused()
    ensures Ends(SkipQuery, FirstDay(SkipQuery)) && !GapsUnderADay(SkipsADay) && Asks(SkipCoach, 0, SkipQuery) && RowsSane(SkipCoach)
    ensures 46800 in AllStarts(SkipQuery, FirstDay(SkipQuery)) && 46800 + SkipQuery.duration * 60 <= SkipQuery.to
    ensures Verdict(Some(SkipCoach), 46800, SkipQuery.duration, true, None) == Some(Unavailable)
  {
    SkippedDayZone();
    SkippedDayIsListed();
    SkippedDayIsOutside();
  }

  // ---------------------------------------------------------------------------
  // Zones that meet the conditions
  // ---------------------------------------------------------------------------

  const Utc := Zone((t: int) => t, (wall: int) => wall)

  lemma UtcMeetsAll()
    ensures GapsUnderADay(Utc) && MidnightsExist(Utc) && InOrder(Utc)
  {
  }

  /** Clocks that go from two to three o'clock on day 0; a reading in between is taken an hour late. */
  const SpringForward := Zone((t: int) => if t < 7200 then t else t + 3600, (wall: int) => if wall < 10800 then wall else wall - 3600)

  lemma SpringForwardMeetsAll()
    ensures GapsUnderADay(SpringForward) && MidnightsExist(SpringForward) && InOrder(SpringForward)
  {
    forall d, m, d', m' | Shown(SpringForward, d, m) && Shown(SpringForward, d', m') && WallOf(d, m) < WallOf(d', m')
      ensures SpringForward.resolve(WallOf(d, m)) < SpringForward.resolve(WallOf(d', m'))
    {
      ShownIsNoGap(d', m');
    }
  }

  lemma MinuteOfWall(d: int, m: int)
    requires 0 <= m < 1440
    ensures MinuteOf(WallOf(d, m)) == m
  {
    assert WallOf(d, m) % DAY == m * 60;
  }

  /** The readings that the clocks skip are not shown, and no others. */
  lemma ShownIsNoGap(d: int, m: int)
    requires 0 <= m < 1440
    ensures Shown(SpringForward, d, m) <==> !(7200 <= WallOf(d, m) < 10800)
  {
    var wall := WallOf(d, m);
    MinuteOfWall(d, m);
    if 7200 <= wall < 10800 {
      assert d == 0;
      MinuteOfWall(0, m + 60);
      assert SpringForward.local(SpringForward.resolve(wall)) == WallOf(0, m + 60);
    } else {
      assert SpringForward.local(SpringForward.resolve(wall)) == wall;
    }
  }
}
