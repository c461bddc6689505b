/** The heartbeat calendar: which scheduled instant is the last one not after now.

    Time runs on the local clock with a fixed offset, as nanoseconds since the
    start of 1 January 1970; dates are civil (Gregorian) ones. */
module HeartbeatCalendar {
  import opened Wrappers

  type Instant = int

  const DAY := 86_400_000_000_000
  const MINUTE := 60_000_000_000

  function DayOf(t: Instant): int {
    t / 86_400_000_000_000
  }

  function ClockOf(t: Instant): (c: int)
    ensures 0 <= c < DAY
  {
    t % 86_400_000_000_000
  }

  /** dateAt, for a day number. */
  function At(day: int, hour: int, minute: int): Instant {
    day * 86_400_000_000_000 + (hour * 60 + minute) * 60_000_000_000
  }

  predicate ClockOk(hour: int, minute: int) {
    0 <= hour < 24 && 0 <= minute < 60
  }

  /** Instants compare by day first, then by the clock. */
  lemma AtOrder(day: int, hour: int, minute: int, now: Instant)
    requires ClockOk(hour, minute)
    ensures DayOf(At(day, hour, minute)) == day
    ensures At(day, hour, minute) <= now <==>
            day < DayOf(now) || (day == DayOf(now) && At(0, hour, minute) <= ClockOf(now))
  {
  }

  // ---- Months ----

  /** Months are numbered from year 0: 12 * year + (month - 1). */
  function Year(m: int): int {
    m / 12
  }

  predicate Leap(y: int) {
    y % 4 == 0 && (y % 100 != 0 || y % 400 == 0)
  }

  function DaysIn(m: int): (n: int)
    ensures 28 <= n <= 31
  {
    var k := m % 12;
    if k == 1 then (if Leap(Year(m)) then 29 else 28)
    else if k == 3 || k == 5 || k == 8 || k == 10 then 30
    else 31
  }

  /** January 1970. */
  const EPOCH_MONTH := 23640

  /** The number of a month's first day; day 0 is 1 January 1970. */
  function FirstDay(m: int): int
    decreases if m < EPOCH_MONTH then EPOCH_MONTH - m else m - EPOCH_MONTH
  {
    if m == EPOCH_MONTH then 0
    else if m > EPOCH_MONTH then FirstDay(m - 1) + DaysIn(m - 1)
    else FirstDay(m + 1) - DaysIn(m)
  }

  /** Months follow each other without gap or overlap. */
  lemma NextMonth(m: int)
    ensures FirstDay(m + 1) == FirstDay(m) + DaysIn(m)
  {
  }

  /** The days of the Gregorian years before y, counted from year 0. */
  function DaysBefore(y: int): int {
    365 * y + (y + 3) / 4 - (y + 99) / 100 + (y + 399) / 400
  }

  /** The month table adds up to the Gregorian calendar: 1 January of any year. */
  lemma {:induction false} YearStart(y: int)
    ensures FirstDay(12 * y) == DaysBefore(y) - DaysBefore(1970)
    decreases if y < 1970 then 1970 - y else y - 1970
  {
    if y > 1970 {
      YearStart(y - 1);
      YearLength(y - 1);
    } else if y < 1970 {
      YearStart(y + 1);
      YearLength(y);
    }
  }

  lemma YearLength(y: int)
    ensures FirstDay(12 * (y + 1)) - FirstDay(12 * y) == DaysBefore(y + 1) - DaysBefore(y)
  {
    var m := 12 * y;
    HalvesOf(y);
    HalfYear(m);
    HalfYear(m + 6);
    LeapDay(y);
    assert 12 * (y + 1) == m + 6 + 6;
  }

  lemma LeapDay(y: int)
    ensures DaysBefore(y + 1) - DaysBefore(y) == if Leap(y) then 366 else 365
  {
    assert (y + 4) / 4 - (y + 3) / 4 == if y % 4 == 0 then 1 else 0;
    assert (y + 100) / 100 - (y + 99) / 100 == if y % 100 == 0 then 1 else 0;
    assert (y + 400) / 400 - (y + 399) / 400 == if y % 400 == 0 then 1 else 0;
  }

  function HalfDays(m: int): int {
    DaysIn(m) + DaysIn(m + 1) + DaysIn(m + 2) + DaysIn(m + 3) + DaysIn(m + 4) + DaysIn(m + 5)
  }

  /** Thirty days has September. */
  lemma MonthLength(y: int, k: nat)
    requires k < 12
    ensures DaysIn(12 * y + k) == if k == 1 then (if Leap(y) then 29 else 28) else if k in {3, 5, 8, 10} then 30 else 31
  {
    assert Year(12 * y + k) == y && (12 * y + k) % 12 == k;
  }

  lemma HalvesOf(y: int)
    ensures HalfDays(12 * y) == (if Leap(y) then 182 else 181) && HalfDays(12 * y + 6) == 184
  {
    MonthLength(y, 0);
    MonthLength(y, 1);
    MonthLength(y, 2);
    MonthLength(y, 3);
    MonthLength(y, 4);
    MonthLength(y, 5);
    MonthLength(y, 6);
    MonthLength(y, 7);
    MonthLength(y, 8);
    MonthLength(y, 9);
    MonthLength(y, 10);
    MonthLength(y, 11);
  }

  lemma HalfYear(m: int)
    ensures FirstDay(m + 6) == FirstDay(m) + HalfDays(m)
  {
    NextMonth(m);
    NextMonth(m + 1);
    NextMonth(m + 2);
    NextMonth(m + 3);
    NextMonth(m + 4);
    NextMonth(m + 5);
  }

  lemma {:induction false} LaterMonth(a: int, b: int)
    requires a < b
    ensures FirstDay(a) + DaysIn(a) <= FirstDay(b)
    decreases b - a
  {
    NextMonth(b - 1);
    if a < b - 1 {
      LaterMonth(a, b - 1);
    }
  }

  /** The month a day lies in. */
  function MonthFrom(day: int, m: int): (r: int)
    requires FirstDay(m) <= day
    ensures FirstDay(r) <= day < FirstDay(r) + DaysIn(r)
    decreases day - FirstDay(m)
  {
    NextMonth(m);
    if day < FirstDay(m + 1) then m else MonthFrom(day, m + 1)
  }

  function MonthBack(day: int, m: int): (r: int)
    requires day < FirstDay(m)
    ensures FirstDay(r) <= day < FirstDay(r) + DaysIn(r)
    decreases FirstDay(m) - day
  {
    NextMonth(m - 1);
    if FirstDay(m - 1) <= day then m - 1 else MonthBack(day, m - 1)
  }

  function MonthOf(day: int): (m: int)
    ensures FirstDay(m) <= day < FirstDay(m) + DaysIn(m)
  {
    if day < FirstDay(EPOCH_MONTH) then MonthBack(day, EPOCH_MONTH) else MonthFrom(day, EPOCH_MONTH)
  }

  /** A day lies in one month only. */
  lemma MonthIsUnique(day: int, m: int)
    ensures FirstDay(m) <= day < FirstDay(m) + DaysIn(m) <==> m == MonthOf(day)
  {
    var r := MonthOf(day);
    if m < r {
      LaterMonth(m, r);
    } else if r < m {
      LaterMonth(r, m);
    }
  }

  /** Day 0 is a Thursday. */
  function Weekday(day: int): (w: int)
    ensures 0 <= w < 7
  {
    (day + 4) % 7
  }

  // ---- Schedules ----

  /** A parsed rule with its clock; weekdays count from Sunday = 0, `day` is
      what the rule says, whether or not the month has such a day. */
  datatype Rule =
    | Daily
    | Weekly(days: seq<int>)
    | Biweekly(days: seq<int>)
    | Monthly(day: int)
    | Yearly(month: int, day: int)

  datatype Schedule = Schedule(rule: Rule, hour: int, minute: int)

  /** What the parser lets through. */
  predicate Parsed(s: Schedule) {
    && ClockOk(s.hour, s.minute)
    && (s.rule.Weekly? || s.rule.Biweekly? ==> s.rule.days != [] && forall w | w in s.rule.days :: 0 <= w < 7)
    && (s.rule.Yearly? ==> 1 <= s.rule.month <= 12)
  }

  /** monthlyCandidate: the day is raised to 1 and cut to the month's length. */
  function CandidateDay(m: int, day: int): int {
    var d := if day < 1 then 1 else day;
    FirstDay(m) + (if d > DaysIn(m) then DaysIn(m) else d) - 1
  }

  function Candidate(m: int, day: int, hour: int, minute: int): Instant {
    At(CandidateDay(m, day), hour, minute)
  }

  /** weekStart: the Monday on or before a day. */
  function WeekStart(day: int): int {
    day - (Weekday(day) + 6) % 7
  }

  /** The parity of weeksBetween, for two Mondays at midnight. */
  predicate EvenApart(a: int, b: int) {
    (if b < a then a - b else b - a) / 7 % 2 == 0
  }

  predicate EvenWeek(anchor: Instant, day: int) {
    EvenApart(WeekStart(DayOf(anchor)), WeekStart(day))
  }

  /** The i-th instant the clock of a schedule names: of day i, of month i, or of
      year i. */
  function Nth(s: Schedule, i: int): Instant {
    match s.rule
    case Monthly(day) => Candidate(i, day, s.hour, s.minute)
    case Yearly(month, day) => Candidate(12 * i + month - 1, day, s.hour, s.minute)
    case _ => At(i, s.hour, s.minute)
  }

  /** Whether it is an occurrence: weekly rules take only their weekdays, and
      biweekly ones only weeks an even distance from the anchor's. */
  predicate On(s: Schedule, anchor: Instant, i: int) {
    match s.rule
    case Weekly(days) => Weekday(i) in days
    case Biweekly(days) => Weekday(i) in days && EvenWeek(anchor, i)
    case _ => true
  }

  /** t is the last of these instants not after now. */
  ghost predicate LatestOf(on: int -> bool, at: int -> Instant, now: Instant, t: Instant) {
    && (exists i :: on(i) && at(i) == t) && t <= now
    && forall i | on(i) && at(i) <= now :: at(i) <= t
  }

  /** t is the last occurrence not after now. */
  ghost predicate Latest(s: Schedule, anchor: Instant, now: Instant, t: Instant) {
    LatestOf(i => On(s, anchor, i), i => Nth(s, i), now, t)
  }

  // ---- previousHeartbeatScheduleAt ----

  function PreviousDaily(s: Schedule, now: Instant): Instant {
    var c := At(DayOf(now), s.hour, s.minute);
    if c > now then At(DayOf(now) - 1, s.hour, s.minute) else c
  }

  /** The month of now.AddDate(0, -1, 0): the same day of the previous month,
      which runs over into this month when that month is too short. */
  function MonthBefore(now: Instant): int {
    var m := MonthOf(DayOf(now));
    MonthOf(FirstDay(m - 1) + (DayOf(now) - FirstDay(m)))
  }

  function PreviousMonthly(s: Schedule, day: int, now: Instant): Instant {
    var c := Candidate(MonthOf(DayOf(now)), day, s.hour, s.minute);
    if c > now then Candidate(MonthBefore(now), day, s.hour, s.minute) else c
  }

  function PreviousYearly(s: Schedule, month: int, day: int, now: Instant): Instant {
    var y := Year(MonthOf(DayOf(now)));
    var c := Candidate(12 * y + month - 1, day, s.hour, s.minute);
    if c > now then Candidate(12 * (y - 1) + month - 1, day, s.hour, s.minute) else c
  }

  /** The least offset in offset..window-1 that hits. */
  function FirstHit(hit: int -> bool, offset: nat, window: nat): (k: Option<nat>)
    ensures k.Some? ==> offset <= k.value < window && hit(k.value) && forall j | offset <= j < k.value :: !hit(j)
    ensures k.None? ==> forall j | offset <= j < window :: !hit(j)
    decreases window - offset
  {
    if offset >= window then None else if hit(offset) then Some(offset) else FirstHit(hit, offset + 1, window)
  }

  /** The day k days back is listed, its instant not after now; without an anchor
      every week counts. */
  predicate Hit(s: Schedule, days: seq<int>, anchor: Option<Instant>, now: Instant, k: int) {
    && Weekday(DayOf(now) - k) in days
    && At(DayOf(now) - k, s.hour, s.minute) <= now
    && (anchor.Some? ==> EvenWeek(anchor.value, DayOf(now) - k))
  }

  /** The simple form of previousHeartbeatWeeklyAt: the first day back that
      hits. */
  function PreviousWeekly(s: Schedule, days: seq<int>, anchor: Option<Instant>, now: Instant, window: nat)
    : Option<Instant>
  {
    match FirstHit(k => Hit(s, days, anchor, now, k), 0, window)
    case Some(k) => Some(At(DayOf(now) - k, s.hour, s.minute))
    case None => None
  }

  function Previous(s: Schedule, anchor: Instant, now: Instant): Option<Instant> {
    match s.rule
    case Daily => Some(PreviousDaily(s, now))
    case Weekly(days) => PreviousWeekly(s, days, None, now, 7)
    case Biweekly(days) => PreviousWeekly(s, days, Some(anchor), now, 14)
    case Monthly(day) => Some(PreviousMonthly(s, day, now))
    case Yearly(month, day) => Some(PreviousYearly(s, month, day, now))
  }

  /** The inner loop: a day's candidate replaces an earlier best if it hits. */
  method ScanDay(s: Schedule, days: seq<int>, now: Instant, anchor: Option<Instant>, day: int, best0: Option<Instant>)
    returns (best: Option<Instant>)
    ensures var c := At(day, s.hour, s.minute);
      best == if Hit(s, days, anchor, now, DayOf(now) - day) && (best0.None? || c > best0.value) then Some(c) else best0
  {
    best := best0;
    var candidate := At(day, s.hour, s.minute);
    assert DayOf(now) - (DayOf(now) - day) == day;
    for k := 0 to |days|
      invariant best == if Weekday(day) in days[..k] && Hit(s, days, anchor, now, DayOf(now) - day)
                           && (best0.None? || candidate > best0.value)
                        then Some(candidate) else best0
    {
      assert days[..k + 1] == days[..k] + [days[k]];
      if Weekday(day) == days[k] && candidate <= now && !(anchor.Some? && !EvenWeek(anchor.value, day)) {
        if best.None? || candidate > best.value {
          best := Some(candidate);
        }
      }
    }
    assert days[..|days|] == days;
  }

  /** The loops over offsets and listed weekdays keep the latest candidate seen;
      it is the first one met. */
  method PreviousHeartbeatWeeklyAt(s: Schedule, days: seq<int>, now: Instant, windowDays: nat, anchor: Option<Instant>)
    returns (best: Option<Instant>)
    ensures best == PreviousWeekly(s, days, anchor, now, windowDays)
  {
    best := None;
    ghost var hit := k => Hit(s, days, anchor, now, k);
    ghost var found: Option<nat> := None;
    for offset := 0 to windowDays
      invariant FirstHit(hit, 0, windowDays) == if found.Some? then found else FirstHit(hit, offset, windowDays)
      invariant found.Some? ==> found.value < offset
      invariant best == if found.Some? then Some(At(DayOf(now) - found.value, s.hour, s.minute)) else None
    {
      var day := DayOf(now) - offset;
      if found.Some? {
        AtAscends(day, DayOf(now) - found.value, s.hour, s.minute);
      }
      assert DayOf(now) - day == offset;
      best := ScanDay(s, days, now, anchor, day, best);
      if found.None? && hit(offset) {
        found := Some(offset);
      }
    }
  }

  // ---- Occurrences in order ----

  lemma AtAscends(a: int, b: int, hour: int, minute: int)
    requires a < b
    ensures At(a, hour, minute) < At(b, hour, minute)
  {
  }

  /** A month's candidate lies in that month. */
  lemma CandidateIn(m: int, day: int)
    ensures FirstDay(m) <= CandidateDay(m, day) < FirstDay(m) + DaysIn(m)
  {
  }

  /** It is the day of that number when the month has it, else the nearest one. */
  lemma CandidateIsNearest(m: int, day: int, d: int)
    requires MonthOf(d) == m
    ensures var (c, wanted) := (CandidateDay(m, day), FirstDay(m) + day - 1);
      MonthOf(c) == m && (MonthOf(wanted) == m ==> c == wanted) && Abs(c - wanted) <= Abs(d - wanted)
  {
    var (c, wanted) := (CandidateDay(m, day), FirstDay(m) + day - 1);
    MonthIsUnique(c, m);
    MonthIsUnique(wanted, m);
  }

  function Abs(x: int): nat {
    if x < 0 then -x else x
  }

  lemma CandidatesAscend(a: int, b: int, day: int, hour: int, minute: int)
    requires a < b
    ensures Candidate(a, day, hour, minute) < Candidate(b, day, hour, minute)
  {
    CandidateIn(a, day);
    CandidateIn(b, day);
    LaterMonth(a, b);
    AtAscends(CandidateDay(a, day), CandidateDay(b, day), hour, minute);
  }

  lemma NthAscends(s: Schedule, a: int, b: int)
    requires a < b
    ensures Nth(s, a) < Nth(s, b)
  {
    match s.rule
    case Monthly(day) => CandidatesAscend(a, b, day, s.hour, s.minute);
    case Yearly(month, day) => CandidatesAscend(12 * a + month - 1, 12 * b + month - 1, day, s.hour, s.minute);
    case _ => AtAscends(a, b, s.hour, s.minute);
  }

  /** A candidate not after now belongs to this month or an earlier one, and one
      of an earlier month is not after now. */
  lemma CandidateVersusNow(m: int, day: int, hour: int, minute: int, now: Instant)
    requires ClockOk(hour, minute)
    ensures Candidate(m, day, hour, minute) <= now ==> m <= MonthOf(DayOf(now))
    ensures m < MonthOf(DayOf(now)) ==> Candidate(m, day, hour, minute) <= now
  {
    CandidateIn(m, day);
    AtOrder(CandidateDay(m, day), hour, minute, now);
    DayVersusMonth(CandidateDay(m, day), m, DayOf(now), MonthOf(DayOf(now)));
  }

  lemma DayVersusMonth(c: int, m: int, today: int, r: int)
    requires FirstDay(m) <= c < FirstDay(m) + DaysIn(m) && FirstDay(r) <= today < FirstDay(r) + DaysIn(r)
    ensures c <= today ==> m <= r
    ensures m < r ==> c < today
  {
    if r < m {
      LaterMonth(r, m);
    } else if m < r {
      LaterMonth(m, r);
    }
  }

  /** Now's day, month or year. */
  function Index(s: Schedule, now: Instant): int {
    match s.rule
    case Monthly(_) => MonthOf(DayOf(now))
    case Yearly(_, _) => Year(MonthOf(DayOf(now)))
    case _ => DayOf(now)
  }

  lemma NthVersusNow(s: Schedule, i: int, now: Instant)
    requires Parsed(s)
    ensures Nth(s, i) <= now ==> i <= Index(s, now)
    ensures i < Index(s, now) ==> Nth(s, i) <= now
  {
    match s.rule
    case Monthly(day) => CandidateVersusNow(i, day, s.hour, s.minute, now);
    case Yearly(month, day) => CandidateVersusNow(12 * i + month - 1, day, s.hour, s.minute, now);
    case _ => AtOrder(i, s.hour, s.minute, now);
  }

  /** In an ascending family the occurrence with the greatest index that is not
      after now is the latest. */
  lemma LastIndexIsLatest(on: int -> bool, at: int -> Instant, p: int, now: Instant, k: int)
    requires forall a, b | a < b :: at(a) < at(b)
    requires forall i | at(i) <= now :: i <= p
    requires on(k) && at(k) <= now && forall i | k < i <= p && on(i) :: at(i) > now
    ensures LatestOf(on, at, now, at(k))
  {
    forall i | on(i) && at(i) <= now
      ensures at(i) <= at(k)
    {
      assert i <= k;
      if i < k {
        assert at(i) < at(k);
      }
    }
  }

  lemma LatestByIndex(s: Schedule, anchor: Instant, now: Instant, k: int)
    requires Parsed(s) && On(s, anchor, k) && Nth(s, k) <= now
    requires forall i | k < i <= Index(s, now) && On(s, anchor, i) :: Nth(s, i) > now
    ensures Latest(s, anchor, now, Nth(s, k))
  {
    var on, at := i => On(s, anchor, i), i => Nth(s, i);
    forall a, b | a < b
      ensures at(a) < at(b)
    {
      NthAscends(s, a, b);
    }
    forall i | at(i) <= now
      ensures i <= Index(s, now)
    {
      NthVersusNow(s, i, now);
    }
    LastIndexIsLatest(on, at, Index(s, now), now, k);
  }

  // ---- Daily, yearly and monthly ----

  /** The one rule all three follow: this index if its time has come, else the
      one before. */
  lemma ThisOrBefore(s: Schedule, anchor: Instant, now: Instant)
    requires Parsed(s) && !s.rule.Weekly? && !s.rule.Biweekly?
    ensures var p := Index(s, now); Latest(s, anchor, now, if Nth(s, p) > now then Nth(s, p - 1) else Nth(s, p))
  {
    var p := Index(s, now);
    NthVersusNow(s, p - 1, now);
    LatestByIndex(s, anchor, now, if Nth(s, p) > now then p - 1 else p);
  }

  /** A daily task always has a result, and it is the latest occurrence. */
  lemma DailyIsLatest(s: Schedule, anchor: Instant, now: Instant)
    requires Parsed(s) && s.rule.Daily?
    ensures Previous(s, anchor, now).Some? && Latest(s, anchor, now, Previous(s, anchor, now).value)
  {
    ThisOrBefore(s, anchor, now);
  }

  /** So has a yearly one. */
  lemma YearlyIsLatest(s: Schedule, anchor: Instant, now: Instant)
    requires Parsed(s) && s.rule.Yearly?
    ensures Previous(s, anchor, now).Some? && Latest(s, anchor, now, Previous(s, anchor, now).value)
  {
    ThisOrBefore(s, anchor, now);
  }

  /** Now's day of the month. */
  function DayOfMonth(now: Instant): (d: int)
    ensures 1 <= d <= 31
  {
    DayOf(now) - FirstDay(MonthOf(DayOf(now))) + 1
  }

  lemma MonthBeforeIs(now: Instant)
    ensures var m := MonthOf(DayOf(now));
      MonthBefore(now) == if DayOfMonth(now) <= DaysIn(m - 1) then m - 1 else m
  {
    var m := MonthOf(DayOf(now));
    NextMonth(m - 1);
    var d := FirstDay(m - 1) + (DayOf(now) - FirstDay(m));
    MonthIsUnique(d, m - 1);
    MonthIsUnique(d, m);
  }

  /** A monthly task always has a result. It is the latest occurrence exactly when
      this month's is already past or now's day exists in the previous month;
      otherwise it is this month's occurrence, still to come. */
  lemma MonthlyIsLatestIff(s: Schedule, anchor: Instant, now: Instant)
    requires Parsed(s) && s.rule.Monthly?
    ensures Previous(s, anchor, now).Some?
    ensures var m, r := MonthOf(DayOf(now)), Previous(s, anchor, now).value;
      && (Latest(s, anchor, now, r) <==> Nth(s, m) <= now || DayOfMonth(now) <= DaysIn(m - 1))
      && (!Latest(s, anchor, now, r) ==> r == Nth(s, m) > now)
  {
    ThisOrBefore(s, anchor, now);
    MonthBeforeIs(now);
  }

  /** On 30 March of any year at 08:00, a task for the 31st at 09:00 is given
      31 March itself, although the end of February has passed. */
  lemma MarchSkipsFebruary(march: int)
    requires march % 12 == 2
    ensures var s, now := Schedule(Monthly(31), 9, 0), At(FirstDay(march) + 29, 8, 0);
      && Previous(s, 0, now) == Some(Nth(s, march)) && !Latest(s, 0, now, Nth(s, march))
      && Nth(s, march) > now >= Nth(s, march - 1)
  {
    var s, now := Schedule(Monthly(31), 9, 0), At(FirstDay(march) + 29, 8, 0);
    AtOrder(FirstDay(march) + 29, 8, 0, now);
    assert DaysIn(march) == 31 && DaysIn(march - 1) <= 29;
    MonthIsUnique(DayOf(now), march);
    AtAscends(FirstDay(march) + 29, FirstDay(march) + 30, 9, 0);
    MonthlyIsLatestIff(s, 0, now);
    NthVersusNow(s, march - 1, now);
  }

  // ---- Weekly and biweekly ----

  predicate ByWeeks(s: Schedule) {
    s.rule.Weekly? || s.rule.Biweekly?
  }

  function Window(s: Schedule): nat {
    if s.rule.Weekly? then 7 else 14
  }

  /** The hits of a search are the occurrences not after now. */
  predicate Found(s: Schedule, anchor: Instant, now: Instant, k: int) {
    On(s, anchor, DayOf(now) - k) && Nth(s, DayOf(now) - k) <= now
  }

  lemma PreviousByWeeks(s: Schedule, anchor: Instant, now: Instant) returns (k: nat)
    requires ByWeeks(s)
    ensures match Previous(s, anchor, now)
      case None => forall j | 0 <= j < Window(s) :: !Found(s, anchor, now, j)
      case Some(t) => k < Window(s) && Found(s, anchor, now, k) && t == Nth(s, DayOf(now) - k)
                      && forall j | 0 <= j < k :: !Found(s, anchor, now, j)
  {
    var days, a := s.rule.days, if s.rule.Biweekly? then Some(anchor) else None;
    var hit := j => Hit(s, days, a, now, j);
    assert forall j :: hit(j) <==> Found(s, anchor, now, j);
    var r := FirstHit(hit, 0, Window(s));
    assert Previous(s, anchor, now) == PreviousWeekly(s, days, a, now, Window(s));
    k := if r.Some? then r.value else 0;
  }

  /** Whenever a weekly or biweekly lookup finds an instant, it is the latest. */
  lemma WeeklyIsLatest(s: Schedule, anchor: Instant, now: Instant)
    requires Parsed(s) && ByWeeks(s) && Previous(s, anchor, now).Some?
    ensures Latest(s, anchor, now, Previous(s, anchor, now).value)
  {
    var k := PreviousByWeeks(s, anchor, now);
    var today := DayOf(now);
    forall i | today - k < i <= Index(s, now) && On(s, anchor, i)
      ensures Nth(s, i) > now
    {
      assert !Found(s, anchor, now, today - i);
      assert today - (today - i) == i;
    }
    LatestByIndex(s, anchor, now, today - k);
  }

  /** Every listed day is today's weekday and its time is still to come; for a
      biweekly rule this is also one of its weeks. */
  predicate OnlyLaterToday(s: Schedule, anchor: Instant, now: Instant)
    requires ByWeeks(s)
  {
    && (forall w | w in s.rule.days :: w == Weekday(DayOf(now)))
    && At(DayOf(now), s.hour, s.minute) > now
    && (s.rule.Biweekly? ==> EvenWeek(anchor, DayOf(now)))
  }

  /** How many days before `day` weekday w was last seen. */
  function DaysSince(day: int, w: int): (k: int)
    ensures 1 <= k <= 7
  {
    var k := (Weekday(day) - w) % 7;
    if k == 0 then 7 else k
  }

  lemma DaysSinceWeekday(day: int, w: int)
    requires 0 <= w < 7
    ensures Weekday(day - DaysSince(day, w)) == w
    ensures DaysSince(day, w) == 7 <==> w == Weekday(day)
  {
  }

  lemma WeekBack(day: int)
    ensures Weekday(day - 7) == Weekday(day) && WeekStart(day - 7) == WeekStart(day) - 7
  {
  }

  lemma MondaysApart(a: int, b: int)
    ensures (WeekStart(b) - WeekStart(a)) % 7 == 0
  {
    IsMonday(a);
    IsMonday(b);
  }

  lemma IsMonday(day: int)
    ensures Weekday(WeekStart(day)) == 1 && WeekStart(day) <= day < WeekStart(day) + 7
  {
  }

  lemma ParityFlips(a: int, b: int, k: int)
    requires b - a == 7 * k
    ensures EvenApart(a, b - 7) <==> !EvenApart(a, b)
  {
    Parity(a, b, k);
    Parity(a, b - 7, k - 1);
    OddAfterEven(k);
  }

  lemma OddAfterEven(k: int)
    ensures (k - 1) % 2 == 0 <==> k % 2 != 0
  {
  }

  lemma Parity(a: int, b: int, k: int)
    requires b - a == 7 * k
    ensures EvenApart(a, b) <==> k % 2 == 0
  {
  }

  /** A week counts for a biweekly task exactly when its Monday lies a whole number
      of fortnights from the anchor's. */
  lemma EvenWeekIff(anchor: Instant, day: int)
    ensures EvenWeek(anchor, day) <==> (WeekStart(day) - WeekStart(DayOf(anchor))) % 14 == 0
  {
    MondaysApart(DayOf(anchor), day);
    var a, b := WeekStart(DayOf(anchor)), WeekStart(day);
    Parity(a, b, (b - a) / 7);
    Fortnights((b - a) / 7);
  }

  lemma Fortnights(k: int)
    ensures 7 * k % 14 == 0 <==> k % 2 == 0
  {
    var j := k / 2;
    assert 7 * k == 14 * j + 7 * (k % 2);
  }

  /** Weeks alternate. */
  lemma WeeksAlternate(anchor: Instant, day: int)
    ensures EvenWeek(anchor, day - 7) <==> !EvenWeek(anchor, day)
  {
    WeekBack(day);
    MondaysApart(DayOf(anchor), day);
    var a, b := WeekStart(DayOf(anchor)), WeekStart(day);
    ParityFlips(a, b, (b - a) / 7);
  }

  /** A weekly or biweekly lookup finds nothing exactly when every listed day is
      today's weekday, its time is later than now, and (biweekly) this week is
      an even one. */
  lemma WeeklyFindsNothingIff(s: Schedule, anchor: Instant, now: Instant)
    requires Parsed(s) && ByWeeks(s)
    ensures Previous(s, anchor, now).None? <==> OnlyLaterToday(s, anchor, now)
  {
    var k := PreviousByWeeks(s, anchor, now);
    if Previous(s, anchor, now).None? {
      NothingMeansLaterToday(s, anchor, now);
    }
    if OnlyLaterToday(s, anchor, now) {
      LaterTodayMeansNothing(s, anchor, now);
    }
  }

  /** On any day at 08:00 a task for that weekday at 09:00 is given nothing,
      although it occurred a week ago; one for every second week, anchored that
      day, is given nothing although it occurred two weeks ago. */
  lemma MorningFindsNothing(day: int)
    ensures var s, now := Schedule(Weekly([Weekday(day)]), 9, 0), At(day, 8, 0);
      Previous(s, 0, now) == None && On(s, 0, day - 7) && Nth(s, day - 7) <= now
    ensures var s, now := Schedule(Biweekly([Weekday(day)]), 9, 0), At(day, 8, 0);
      Previous(s, now, now) == None && On(s, now, day - 14) && Nth(s, day - 14) <= now
  {
    var weekly, biweekly := Schedule(Weekly([Weekday(day)]), 9, 0), Schedule(Biweekly([Weekday(day)]), 9, 0);
    var now := At(day, 8, 0);
    MorningIsBefore(day);
    SameWeekIsEven(now, day);
    WeeklyFindsNothingIff(weekly, 0, now);
    WeeklyFindsNothingIff(biweekly, now, now);
    NthVersusNow(weekly, day - 7, now);
    NthVersusNow(biweekly, day - 14, now);
    WeekBack(day);
    WeekBack(day - 7);
    WeeksAlternate(now, day);
    WeeksAlternate(now, day - 7);
    assert day - 7 - 7 == day - 14;
  }

  lemma MorningIsBefore(day: int)
    ensures DayOf(At(day, 8, 0)) == day && At(day, 9, 0) > At(day, 8, 0)
  {
    AtOrder(day, 8, 0, 0);
  }

  lemma SameWeekIsEven(anchor: Instant, day: int)
    requires DayOf(anchor) == day
    ensures EvenWeek(anchor, day)
  {
  }

  /** A listed weekday is found when it was last seen or a week before that. */
  lemma EarlierFound(s: Schedule, anchor: Instant, now: Instant, w: int)
    requires Parsed(s) && ByWeeks(s) && w in s.rule.days
    ensures var k := DaysSince(DayOf(now), w);
      Found(s, anchor, now, k) || (s.rule.Biweekly? && Found(s, anchor, now, k + 7))
    ensures var k := DaysSince(DayOf(now), w);
      s.rule.Biweekly? && k == 7 && !EvenWeek(anchor, DayOf(now)) ==> Found(s, anchor, now, k)
  {
    var today := DayOf(now);
    var k := DaysSince(today, w);
    DaysSinceWeekday(today, w);
    WeekBack(today - k);
    assert today - k - 7 == today - (k + 7);
    NthVersusNow(s, today - k, now);
    NthVersusNow(s, today - k - 7, now);
    WeeksAlternate(anchor, today - k);
    WeeksAlternate(anchor, today);
  }

  lemma NothingMeansLaterToday(s: Schedule, anchor: Instant, now: Instant)
    requires Parsed(s) && ByWeeks(s)
    requires forall k | 0 <= k < Window(s) :: !Found(s, anchor, now, k)
    ensures OnlyLaterToday(s, anchor, now)
  {
    forall w | w in s.rule.days
      ensures w == Weekday(DayOf(now)) && DaysSince(DayOf(now), w) == 7
      ensures s.rule.Biweekly? ==> EvenWeek(anchor, DayOf(now))
    {
      EarlierFound(s, anchor, now, w);
      DaysSinceWeekday(DayOf(now), w);
    }
    var w := s.rule.days[0];
    assert w in s.rule.days;
    assert !Found(s, anchor, now, 0);
  }

  lemma LaterTodayMeansNothing(s: Schedule, anchor: Instant, now: Instant)
    requires Parsed(s) && ByWeeks(s) && OnlyLaterToday(s, anchor, now)
    ensures forall k | 0 <= k < Window(s) :: !Found(s, anchor, now, k)
  {
    WeeksAlternate(anchor, DayOf(now));
    forall k | 0 <= k < Window(s)
      ensures !Found(s, anchor, now, k)
    {
      if Weekday(DayOf(now) - k) == Weekday(DayOf(now)) {
        SameWeekday(DayOf(now), k);
      }
    }
  }

  lemma SameWeekday(day: int, k: nat)
    requires k < 14 && Weekday(day - k) == Weekday(day)
    ensures k == 0 || k == 7
  {
  }

  /** Every occurrence falls on a whole minute. */
  lemma OnTheMinute(s: Schedule, i: int)
    ensures Nth(s, i) % 60_000_000_000 == 0
  {
    match s.rule
    case Monthly(day) => AtOnTheMinute(CandidateDay(i, day), s.hour, s.minute);
    case Yearly(month, day) => AtOnTheMinute(CandidateDay(12 * i + month - 1, day), s.hour, s.minute);
    case _ => AtOnTheMinute(i, s.hour, s.minute);
  }

  lemma PreviousOnTheMinute(s: Schedule, anchor: Instant, now: Instant)
    requires Previous(s, anchor, now).Some?
    ensures Previous(s, anchor, now).value % 60_000_000_000 == 0
  {
    match s.rule
    case Daily =>
      AtOnTheMinute(DayOf(now), s.hour, s.minute);
      AtOnTheMinute(DayOf(now) - 1, s.hour, s.minute);
    case Monthly(day) =>
      AtOnTheMinute(CandidateDay(MonthOf(DayOf(now)), day), s.hour, s.minute);
      AtOnTheMinute(CandidateDay(MonthBefore(now), day), s.hour, s.minute);
    case Yearly(month, day) =>
      OnTheMinute(s, Year(MonthOf(DayOf(now))));
      OnTheMinute(s, Year(MonthOf(DayOf(now))) - 1);
    case _ =>
      var k := PreviousByWeeks(s, anchor, now);
      AtOnTheMinute(DayOf(now) - k, s.hour, s.minute);
  }

  lemma AtOnTheMinute(day: int, hour: int, minute: int)
    ensures At(day, hour, minute) % 60_000_000_000 == 0
  {
    assert At(day, hour, minute) == 60_000_000_000 * (day * 1440 + hour * 60 + minute);
  }
}
