/**
Maintenance windows (apps/monitoring/app/maintenance.py) in zones of a fixed offset. An
instant is a number of microseconds since 1970-01-01 in UTC, a day the number of whole days.
*/
module Maintenance {
  import opened Common
  import opened Calendar

  const MINUTE := 60_000_000
  const DAY := 1440 * MINUTE

  /** Monday is 0; day 0 was a Thursday. */
  function Weekday(day: int): int { (day + 3) % 7 }

  /** The date of a wall-clock time. */
  function DateOf(local: Time): (day: int)
    ensures day * DAY <= local < (day + 1) * DAY
  {
    local / DAY
  }

  /** A stored window. `startTime` is None when the text is no pair of numbers. */
  datatype Window =
    | Once(server: Option<nat>, enabled: bool, note: string, starts: Option<Time>, ends: Option<Time>)
    | Weekly(server: Option<nat>, enabled: bool, note: string, weekdays: set<int>, startTime: Option<(int, int)>,
             duration: Option<int>, offset: Time)

  datatype Parts = Parts(weekdays: set<int>, tod: int, duration: int, offset: Time)   // tod, duration in minutes

  function WeeklyParts(w: Window): Option<Parts>
    requires w.Weekly?
  {
    if w.startTime.None? || w.duration.None? || w.duration.value == 0 then None
    else
      var (hour, minute) := w.startTime.value;
      if !(0 <= hour < 24 && 0 <= minute < 60) || w.weekdays == {} then None
      else Some(Parts(w.weekdays, hour * 60 + minute, w.duration.value, w.offset))
  }

  /** When the occurrence of a day begins and ends, in UTC. */
  function Begin(p: Parts, day: int): Time { day * DAY + p.tod * MINUTE - p.offset }

  function Finish(p: Parts, day: int): Time { Begin(p, day) + p.duration * MINUTE }

  predicate Covers(p: Parts, day: int, now: Time) {
    Weekday(day) in p.weekdays && Begin(p, day) <= now < Finish(p, day)
  }

  /** The window as it is meant: some occurrence, of any week, is running. */
  ghost predicate Recurs(p: Parts, now: Time) { exists day :: Covers(p, day, now) }

  /** What the code looks at: today's and yesterday's occurrence. */
  predicate TwoDays(p: Parts, now: Time) {
    var today := DateOf(now + p.offset);
    Covers(p, today, now) || Covers(p, today - 1, now)
  }

  predicate PartsOk(p: Parts) { 0 <= p.tod < 1440 }

  // ----- Two days are enough -------------------------------------------------------------

  /** An occurrence that runs began today or yesterday. */
  lemma RunningBeganLately(p: Parts, day: int, now: Time)
    requires PartsOk(p) && p.tod + p.duration <= 2880 && Covers(p, day, now)
    ensures var today := DateOf(now + p.offset); day == today || day == today - 1
  {
    var today := DateOf(now + p.offset);
    assert day * DAY <= now + p.offset < (day + 2) * DAY;
    assert today * DAY <= now + p.offset < (today + 1) * DAY;
  }

  /** For every window of at most a day, and longer ones that end within the next day. */
  lemma TwoDaysAreEnough(p: Parts, now: Time)
    requires PartsOk(p) && p.tod + p.duration <= 2880
    ensures TwoDays(p, now) <==> Recurs(p, now)
  {
    if Recurs(p, now) {
      var day :| Covers(p, day, now);
      RunningBeganLately(p, day, now);
    }
  }

  /** A longer window is missed two days on, if neither of the next two days is one of its own. */
  lemma LongerIsMissed(p: Parts, day: int) returns (now: Time)
    requires PartsOk(p) && p.tod + p.duration > 2880
    requires Weekday(day) in p.weekdays && Weekday(day + 1) !in p.weekdays && Weekday(day + 2) !in p.weekdays
    ensures Recurs(p, now) && !TwoDays(p, now)
  {
    now := (day + 2) * DAY - p.offset;
    assert Covers(p, day, now);
    assert DateOf(now + p.offset) == day + 2;
  }

  /** So for these windows the two-day test is right at every instant exactly up to 2880 minutes. */
  lemma TwoDaysExactly(p: Parts, day: int)
    requires PartsOk(p)
    requires Weekday(day) in p.weekdays && Weekday(day + 1) !in p.weekdays && Weekday(day + 2) !in p.weekdays
    ensures (forall now :: TwoDays(p, now) <==> Recurs(p, now)) <==> p.tod + p.duration <= 2880
  {
    if p.tod + p.duration <= 2880 {
      forall now ensures TwoDays(p, now) <==> Recurs(p, now) {
        TwoDaysAreEnough(p, now);
      }
    } else {
      var now := LongerIsMissed(p, day);
      assert !(TwoDays(p, now) <==> Recurs(p, now));
    }
  }

  // ----- The test ------------------------------------------------------------------------

  predicate AppliesTo(w: Window, server: Option<nat>) { w.enabled && (w.server.Some? ==> w.server == server) }

  /** The window is meant to mute at this instant. */
  ghost predicate Mutes(w: Window, now: Time) {
    match w
    case Once(_, _, _, starts, ends) => starts.Some? && ends.Some? && starts.value <= now < ends.value
    case Weekly(_, _, _, _, _, _, _) => WeeklyParts(w).Some? && Recurs(WeeklyParts(w).value, now)
  }

  /** The longest window the API takes. */
  predicate AtMostADay(w: Window) { w.Weekly? && w.duration.Some? ==> w.duration.value <= 1440 }

  /** _weekly_active: the loop over the day offsets. */
  method WeeklyActive(w: Window, now: Time) returns (active: bool)
    requires w.Weekly?
    ensures active <==> WeeklyParts(w).Some? && TwoDays(WeeklyParts(w).value, now)
  {
    var parts := WeeklyParts(w);
    if parts.None? {
      return false;
    }
    var p := parts.value;
    var local := now + p.offset;
    var today := DateOf(local);
    hide DateOf, Weekday;
    active := false;
    var offset := 0;
    while offset < 2 && !active
      invariant 0 <= offset <= 2
      invariant active <==> (offset >= 1 && Covers(p, today, now)) || (offset >= 2 && Covers(p, today - 1, now))
    {
      var day := today - offset;
      if Weekday(day) in p.weekdays {
        var start := day * DAY + p.tod * MINUTE;
        if start <= local < start + p.duration * MINUTE {
          active := true;
        }
      }
      offset := offset + 1;
    }
  }

  /** is_in_maintenance, proved against what the windows mean. */
  method IsInMaintenance(windows: seq<Window>, server: Option<nat>, now: Time) returns (muted: bool)
    requires forall i :: 0 <= i < |windows| ==> AtMostADay(windows[i])
    ensures muted <==> exists i :: 0 <= i < |windows| && AppliesTo(windows[i], server) && Mutes(windows[i], now)
  {
    for i := 0 to |windows|
      invariant forall j :: 0 <= j < i ==> !(AppliesTo(windows[j], server) && Mutes(windows[j], now))
    {
      var w := windows[i];
      if AppliesTo(w, server) {
        if w.Once? {
          if w.starts.Some? && w.ends.Some? && w.starts.value <= now < w.ends.value {
            return true;
          }
        } else {
          var active := WeeklyActive(w, now);
          if WeeklyParts(w).Some? {
            TwoDaysAreEnough(WeeklyParts(w).value, now);
          }
          if active {
            return true;
          }
        }
      }
    }
    muted := false;
  }

  // ----- The bands -----------------------------------------------------------------------

  datatype Band = Band(begin: Time, finish: Time, note: string)

  /** A band inside the range. */
  predicate Within(b: Band, start: Time, end: Time) { start <= b.begin <= b.finish <= end }

  ghost predicate InSome(bands: seq<Band>, now: Time) {
    exists i :: 0 <= i < |bands| && bands[i].begin <= now < bands[i].finish
  }

  predicate Ordered(bands: seq<Band>) { forall i, j :: 0 <= i < j < |bands| ==> bands[i].begin <= bands[j].begin }

  /** An occurrence of some day. */
  ghost predicate Occurs(p: Parts, o: (Time, Time)) {
    exists d :: Weekday(d) in p.weekdays && o == (Begin(p, d), Finish(p, d))
  }

  /** The bands of one window, before they are sorted. */
  method Occurrences(w: Window, start: Time, end: Time) returns (found: seq<(Time, Time)>)
    requires AtMostADay(w)
    ensures forall now :: start <= now < end ==>
              (Mutes(w, now) <==> exists i :: 0 <= i < |found| && found[i].0 <= now < found[i].1)
    ensures forall i, now :: 0 <= i < |found| && found[i].0 <= now < found[i].1 ==> Mutes(w, now)
  {
    found := [];
    if w.Once? {
      if w.starts.Some? && w.ends.Some? {
        found := [(w.starts.value, w.ends.value)];
        assert found[0] == (w.starts.value, w.ends.value);
      }
      return;
    }
    var parts := WeeklyParts(w);
    if parts.None? {
      return;
    }
    var p := parts.value;
    var first, last := DateOf(start + p.offset) - 1, DateOf(end + p.offset);
    var day := first;
    while day <= last
      invariant first <= day && (day == first || day <= last + 1)
      invariant forall i :: 0 <= i < |found| ==> Occurs(p, found[i])
      invariant forall d :: first <= d < day && Weekday(d) in p.weekdays ==> (Begin(p, d), Finish(p, d)) in found
      decreases last + 1 - day
    {
      if Weekday(day) in p.weekdays {
        assert Occurs(p, (Begin(p, day), Finish(p, day)));
        found := found + [(Begin(p, day), Finish(p, day))];
      }
      day := day + 1;
    }
    forall i, now | 0 <= i < |found| && found[i].0 <= now < found[i].1 ensures Mutes(w, now) {
      assert Occurs(p, found[i]);
      var d :| Weekday(d) in p.weekdays && found[i] == (Begin(p, d), Finish(p, d));
      assert Covers(p, d, now);
    }
    forall now | start <= now < end && Mutes(w, now) ensures exists i :: 0 <= i < |found| && found[i].0 <= now < found[i].1 {
      var d :| Covers(p, d, now);
      DayInRange(p, d, start, end, now);
      assert (Begin(p, d), Finish(p, d)) in found;
    }
  }

  lemma DayInRange(p: Parts, d: int, start: Time, end: Time, now: Time)
    requires PartsOk(p) && p.duration <= 1440 && Covers(p, d, now) && start <= now < end
    ensures DateOf(start + p.offset) - 1 <= d <= DateOf(end + p.offset)
  {
    RunningBeganLately(p, d, now);
    DateMonotone(start + p.offset, now + p.offset);
    DateMonotone(now + p.offset, end + p.offset);
  }

  lemma DateMonotone(a: Time, b: Time)
    requires a <= b
    ensures DateOf(a) <= DateOf(b)
  {
    assert DateOf(a) * DAY <= a <= b < (DateOf(b) + 1) * DAY;
  }

  /** Stable, by begin. */
  function Insert(b: Band, bands: seq<Band>): (r: seq<Band>)
    requires Ordered(bands)
    ensures Ordered(r) && multiset(r) == multiset(bands) + multiset{b}
  {
    if bands == [] then [b]
    else if b.begin < bands[0].begin then [b] + bands
    else
      var rest := Insert(b, bands[1..]);
      FirstStays(b, bands, rest);
      [bands[0]] + rest
  }

  lemma FirstStays(b: Band, bands: seq<Band>, rest: seq<Band>)
    requires bands != [] && Ordered(bands) && bands[0].begin <= b.begin && Ordered(rest)
    requires multiset(rest) == multiset(bands[1..]) + multiset{b}
    ensures Ordered([bands[0]] + rest) && multiset([bands[0]] + rest) == multiset(bands) + multiset{b}
  {
    assert bands == [bands[0]] + bands[1..];
    forall i | 0 <= i < |rest| ensures bands[0].begin <= rest[i].begin {
      assert rest[i] in multiset(rest);
    }
  }

  function Sorted(bands: seq<Band>): (r: seq<Band>)
    ensures Ordered(r) && multiset(r) == multiset(bands)
  {
    if bands == [] then []
    else
      assert bands == bands[..|bands| - 1] + [bands[|bands| - 1]];
      Insert(bands[|bands| - 1], Sorted(bands[..|bands| - 1]))
  }

  lemma SameMembers(a: seq<Band>, b: seq<Band>, now: Time)
    requires multiset(a) == multiset(b)
    ensures InSome(a, now) <==> InSome(b, now)
    ensures forall x :: x in a <==> x in b
  {
    assert forall x :: x in a <==> x in multiset(a);
    assert forall x :: x in b <==> x in multiset(b);
    if InSome(a, now) {
      var i :| 0 <= i < |a| && a[i].begin <= now < a[i].finish;
      assert a[i] in b;
    }
    if InSome(b, now) {
      var i :| 0 <= i < |b| && b[i].begin <= now < b[i].finish;
      assert b[i] in a;
    }
  }

  /**
  maintenance_intervals: inside the range the bands cover exactly the instants at which an
  applicable window mutes, in order of their begin and cut to the range.
  */
  method MaintenanceIntervals(windows: seq<Window>, server: Option<nat>, start: Time, end: Time) returns (bands: seq<Band>)
    requires forall i :: 0 <= i < |windows| ==> AtMostADay(windows[i])
    ensures Ordered(bands)
    ensures forall b :: b in bands && b.begin < b.finish ==> Within(b, start, end)
    ensures forall b :: b in bands ==> Noted(b, windows, server)
    ensures forall now :: start <= now < end ==>
              (InSome(bands, now) <==> exists i :: 0 <= i < |windows| && AppliesTo(windows[i], server) && Mutes(windows[i], now))
  {
    var out: seq<Band> := [];
    hide Noted;
    for i := 0 to |windows|
      invariant forall b :: b in out ==> Noted(b, windows, server)
      invariant forall b :: b in out && b.begin < b.finish ==> Within(b, start, end)
      invariant forall now :: start <= now < end ==>
                  (InSome(out, now) <==> exists j :: 0 <= j < i && AppliesTo(windows[j], server) && Mutes(windows[j], now))
    {
      var w := windows[i];
      if AppliesTo(w, server) {
        var found := Occurrences(w, start, end);
        var more := Clip(found, w.note, start, end);
        forall b | b in more ensures Noted(b, windows, server) {
          CutIsNoted(b, found, windows, server, i);
        }
        hide CutFrom;
        forall now | start <= now < end
          ensures InSome(out + more, now) <==> InSome(out, now) || Mutes(w, now)
        {
          InSomeAppend(out, more, now);
        }
        out := out + more;
      }
    }
    bands := Sorted(out);
    forall now | start <= now < end ensures InSome(bands, now) <==> InSome(out, now) {
      SameMembers(bands, out, now);
    }
    SameMembers(bands, out, start);
  }

  /** The band shows a window that applies, with its note, while it mutes. */
  ghost predicate Noted(b: Band, windows: seq<Window>, server: Option<nat>) {
    exists i :: 0 <= i < |windows| && AppliesTo(windows[i], server) && b.note == windows[i].note
                && forall now :: b.begin <= now < b.finish ==> Mutes(windows[i], now)
  }

  lemma CutIsNoted(b: Band, found: seq<(Time, Time)>, windows: seq<Window>, server: Option<nat>, i: nat)
    requires i < |windows| && AppliesTo(windows[i], server) && CutFrom(b, found, windows[i].note)
    requires forall j, now :: 0 <= j < |found| && found[j].0 <= now < found[j].1 ==> Mutes(windows[i], now)
    ensures Noted(b, windows, server)
  {
    hide Mutes;
    var j :| 0 <= j < |found| && found[j].0 <= b.begin && b.finish <= found[j].1;
    forall now | b.begin <= now < b.finish ensures Mutes(windows[i], now) {
      assert found[j].0 <= now < found[j].1;
    }
  }

  lemma InSomeAppend(a: seq<Band>, b: seq<Band>, now: Time)
    ensures InSome(a + b, now) <==> InSome(a, now) || InSome(b, now)
  {
    if InSome(a, now) {
      var i :| 0 <= i < |a| && a[i].begin <= now < a[i].finish;
      assert (a + b)[i] == a[i];
    }
    if InSome(b, now) {
      var i :| 0 <= i < |b| && b[i].begin <= now < b[i].finish;
      assert (a + b)[|a| + i] == b[i];
    }
  }

  /** The band lies in one of the intervals, and carries the note. */
  predicate CutFrom(b: Band, found: seq<(Time, Time)>, note: string) {
    b.note == note && exists i :: 0 <= i < |found| && found[i].0 <= b.begin && b.finish <= found[i].1
  }

  method Clip(found: seq<(Time, Time)>, note: string, start: Time, end: Time) returns (bands: seq<Band>)
    ensures forall b :: b in bands ==> CutFrom(b, found, note)
    ensures forall b :: b in bands && b.begin < b.finish ==> Within(b, start, end)
    ensures forall now :: start <= now < end ==>
              (InSome(bands, now) <==> exists i :: 0 <= i < |found| && found[i].0 <= now < found[i].1)
  {
    bands := [];
    for i := 0 to |found|
      invariant forall b :: b in bands ==> CutFrom(b, found, note)
      invariant forall b :: b in bands && b.begin < b.finish ==> Within(b, start, end)
      invariant forall now :: start <= now < end ==>
                  (InSome(bands, now) <==> exists j :: 0 <= j < i && found[j].0 <= now < found[j].1)
    {
      var (begin, finish) := found[i];
      if begin < end && finish > start {
        var band := Band(if begin >= start then begin else start, if finish <= end then finish else end, note);
        forall now | start <= now < end ensures InSome(bands + [band], now) <==> InSome(bands, now) || begin <= now < finish {
          InSomeAppend(bands, [band], now);
          assert InSome([band], now) <==> [band][0].begin <= now < [band][0].finish;
        }
        assert found[i].0 <= band.begin && band.finish <= found[i].1 && CutFrom(band, found, note);
        bands := bands + [band];
      }
    }
  }

  // ----- By the calendar -----------------------------------------------------------------

  /** 1970-01-01 by date.toordinal. */
  const EPOCH := 719163

  /** The day number of a date, counted from 1970. */
  function DayNumber(t: Date): int
    requires IsDate(t)
  {
    Ordinal(t) - EPOCH
  }

  lemma FirstMonday()
    ensures IsDate(Date(1970, 1, 5)) && DayNumber(Date(1970, 1, 5)) == 4 && WeekdayOf(Date(1970, 1, 5)) == 0
  {
    EpochIs();
    assert DaysBefore(1970, 1) == 0;
    OrdinalIsWeekday(Date(1970, 1, 5));
    hide WeekdayOf;
  }

  /** Which day of the week a day is: that of its date, and day 4, 1970-01-05, was a Monday. */
  lemma WeekdayIsTheDates(t: Date)
    requires IsDate(t)
    ensures Weekday(DayNumber(t)) == WeekdayOf(t)
    ensures IsDate(Date(1970, 1, 5)) && DayNumber(Date(1970, 1, 5)) == 4 && WeekdayOf(Date(1970, 1, 5)) == 0
  {
    OrdinalIsWeekday(t);
    FirstMonday();
    WholeWeeks(Ordinal(t) + 6, -102738);
    hide WeekdayOf, Ordinal, IsDate;
  }

  /** Microseconds of the local clock at a date, hour and minute. */
  function WallClock(t: Date, hour: int, minute: int): Time
    requires IsDate(t)
  {
    DayNumber(t) * 24 * 60 * MINUTE + hour * 60 * MINUTE + minute * MINUTE
  }

  /** From the second day of the year 1 on, on the local clock of the window. */
  predicate InCalendar(w: Window, now: Time)
    requires w.Weekly?
  {
    DateOf(now + w.offset) >= 2 - EPOCH
  }

  /**
  A weekly window is meant to mute exactly if its hour and minute are a time of day and the
  local clock is within its duration after that time on a date of one of its weekdays.
  */
  lemma MutesByTheCalendar(w: Window, now: Time)
    requires w.Weekly? && AtMostADay(w) && InCalendar(w, now)
    ensures Mutes(w, now) <==>
              && w.startTime.Some? && w.duration.Some? && 0 <= w.startTime.value.0 < 24 && 0 <= w.startTime.value.1 < 60
              && exists t: Date :: IsDate(t) && RunsFrom(w, t, now)
  {
    hide WeekdayOf, Weekday, IsDate, DateOf;
    if w.startTime.Some? && w.duration.Some? && 0 <= w.startTime.value.0 < 24 && 0 <= w.startTime.value.1 < 60 {
      if Mutes(w, now) {
        var p := WeeklyParts(w).value;
        var day :| Covers(p, day, now);
        RunningBeganLately(p, day, now);
        var t := DateOfNumber(day + EPOCH);
        CoversIsRuns(w, p, t, now);
        assert RunsFrom(w, t, now);
      }
      if t: Date :| IsDate(t) && RunsFrom(w, t, now) {
        var p := Parts(w.weekdays, w.startTime.value.0 * 60 + w.startTime.value.1, w.duration.value, w.offset);
        CoversIsRuns(w, p, t, now);
        assert WeeklyParts(w) == Some(p);
      }
    }
  }

  /** A window of the server or of all servers that is switched on and runs, by its dates and its wall clock. */
  ghost predicate MutedBy(w: Window, server: Option<nat>, now: Time) {
    && w.enabled && w.server in {None, server}
    && match w
       case Once(_, _, _, starts, ends) => starts.Some? && ends.Some? && starts.value <= now < ends.value
       case Weekly(_, _, _, _, startTime, duration, _) =>
         && startTime.Some? && duration.Some? && 0 <= startTime.value.0 < 24 && 0 <= startTime.value.1 < 60
         && exists t: Date :: IsDate(t) && RunsFrom(w, t, now)
  }

  /** What the test and the bands call muted, by the calendar. */
  lemma MutedByTheCalendar(windows: seq<Window>, server: Option<nat>, now: Time)
    requires forall i :: 0 <= i < |windows| ==> AtMostADay(windows[i]) && (windows[i].Weekly? ==> InCalendar(windows[i], now))
    ensures (exists i :: 0 <= i < |windows| && AppliesTo(windows[i], server) && Mutes(windows[i], now))
       <==> (exists i :: 0 <= i < |windows| && MutedBy(windows[i], server, now))
  {
    hide InCalendar, RunsFrom, Recurs;
    forall i | 0 <= i < |windows|
      ensures MutedBy(windows[i], server, now) <==> AppliesTo(windows[i], server) && Mutes(windows[i], now)
    {
      if windows[i].Weekly? {
        MutesByTheCalendar(windows[i], now);
      }
    }
  }

  lemma CoversIsRuns(w: Window, p: Parts, t: Date, now: Time)
    requires w.Weekly? && w.startTime.Some? && w.duration.Some? && IsDate(t)
    requires p == Parts(w.weekdays, w.startTime.value.0 * 60 + w.startTime.value.1, w.duration.value, w.offset)
    ensures Covers(p, DayNumber(t), now) <==> RunsFrom(w, t, now)
  {
    WeekdayIsTheDates(t);
    hide WeekdayOf, Weekday, IsDate, DayNumber;
    ClockIs(DayNumber(t), w.startTime.value.0, w.startTime.value.1);
    hide MINUTE, DAY;
  }

  lemma ClockIs(day: int, hour: int, minute: int)
    ensures day * 24 * 60 * MINUTE + hour * 60 * MINUTE + minute * MINUTE == day * DAY + (hour * 60 + minute) * MINUTE
  {
  }

  /** The occurrence that begins on a date is running. */
  predicate RunsFrom(w: Window, t: Date, now: Time)
    requires w.Weekly? && w.startTime.Some? && w.duration.Some? && IsDate(t)
  {
    var begin := WallClock(t, w.startTime.value.0, w.startTime.value.1);
    WeekdayOf(t) in w.weekdays && begin <= now + w.offset < begin + w.duration.value * MINUTE
  }
}
