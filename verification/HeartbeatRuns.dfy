/** HeartbeatEngine: which tasks are due, what one run does, and how run state is
    merged back into the list on disk.

    executeTask holds the engine's lock only for moments, so it is a job that
    advances section by section; other callers act in between. The app is a
    parameter: each section meets a Round, which says whether a topic could be
    created and opened, what the controller was doing, whether a submit was
    accepted, and how long it took. */
module HeartbeatRuns {
  import opened Wrappers
  import opened HeartbeatCalendar

  type Id = string
  type TopicId = t: string | t != "" witness "topic"

  /** A bound of the time window: not set, set but not a clock, or minutes since
      midnight. */
  datatype Bound = Unset | NoClock | Minutes(m: int)

  /** Times stored in a task are whole milliseconds, 0 for never. `plan` is the
      calendar rule after '|', `every` the plain interval, 0 when invalid. */
  datatype Task = Task(
    id: Id, enabled: bool, plan: Option<Schedule>, every: int, from: Bound, until: Bound,
    topic: string, lastRun: int, newEachRun: bool, created: int)

  function Millis(t: Instant): int { t / 1_000_000 }
  function FromMillis(ms: int): Instant { ms * 1_000_000 }

  // ---- Due tasks ----

  function Anchor(t: Task, now: Instant): Instant {
    if t.created != 0 then FromMillis(t.created) else if t.lastRun != 0 then FromMillis(t.lastRun) else now
  }

  function ScheduledAt(t: Task, now: Instant): Option<Instant> {
    if t.plan.None? then None else Previous(t.plan.value, Anchor(t, now), now)
  }

  function MinuteOf(now: Instant): int {
    ClockOf(now) / 60_000_000_000
  }

  predicate InWindow(from: Bound, until: Bound, minute: int) {
    if !from.Minutes? && !until.Minutes? then true
    else if !until.Minutes? then minute >= from.m
    else if !from.Minutes? then minute < until.m
    else if from.m < until.m then from.m <= minute < until.m
    else minute >= from.m || minute < until.m
  }

  /** Two windows with the same bounds exchanged split the day: each minute is in
      exactly one of them, whether both bounds are set or one. The start is
      inside, the end outside. Without a bound, or with equal ones, the window is
      the whole day. */
  lemma WindowsSplitTheDay(a: Bound, b: Bound, minute: int)
    ensures a != b && (a.Minutes? || b.Minutes?) ==>
              && (InWindow(a, b, minute) <==> !InWindow(b, a, minute))
              && (a.Minutes? ==> InWindow(a, b, a.m)) && (b.Minutes? ==> !InWindow(a, b, b.m))
    ensures a == b || (!a.Minutes? && !b.Minutes?) ==> InWindow(a, b, minute)
  {
  }

  /** The plain interval rule, counted from the last run or the creation. */
  predicate IntervalDue(t: Task, now: Instant) {
    var base := if t.lastRun != 0 then t.lastRun else t.created;
    t.every > 0 && (base == 0 || now - FromMillis(base) >= t.every) && InWindow(t.from, t.until, MinuteOf(now))
  }

  /** heartbeatTaskDueAt */
  predicate Due(t: Task, now: Instant) {
    var scheduled := ScheduledAt(t, now);
    if scheduled.Some? then
      && !(t.created != 0 && scheduled.value < FromMillis(t.created))
      && !(t.lastRun != 0 && FromMillis(t.lastRun) >= scheduled.value)
      && scheduled.value <= now
    else
      IntervalDue(t, now)
  }

  /** A weekly or biweekly task whose only days are later today falls through to
      its plain interval, which can make it due ahead of its time. */
  lemma OnlyLaterTodayFallsThrough(t: Task, now: Instant)
    requires t.plan.Some? && Parsed(t.plan.value) && ByWeeks(t.plan.value)
    requires OnlyLaterToday(t.plan.value, Anchor(t, now), now)
    ensures Due(t, now) <==> IntervalDue(t, now)
  {
    WeeklyFindsNothingIff(t.plan.value, Anchor(t, now), now);
  }

  /** Whether the last occurrence can be looked up: the cases the calendar's own
      conditions leave out are a weekly task whose days are all later today, and a
      monthly one in a month whose day the previous month lacks. */
  predicate LookupFinds(s: Schedule, anchor: Instant, now: Instant) {
    match s.rule
    case Monthly(_) =>
      var m := MonthOf(DayOf(now));
      Nth(s, m) <= now || DayOfMonth(now) <= DaysIn(m - 1)
    case Weekly(_) => !OnlyLaterToday(s, anchor, now)
    case Biweekly(_) => !OnlyLaterToday(s, anchor, now)
    case _ => true
  }

  /** Those are exactly the cases in which it gives the latest occurrence. */
  lemma LookupIsLatestIff(s: Schedule, anchor: Instant, now: Instant)
    requires Parsed(s)
    ensures LookupFinds(s, anchor, now) <==>
              Previous(s, anchor, now).Some? && Latest(s, anchor, now, Previous(s, anchor, now).value)
  {
    match s.rule
    case Daily => DailyIsLatest(s, anchor, now);
    case Yearly(_, _) => YearlyIsLatest(s, anchor, now);
    case Monthly(_) => MonthlyIsLatestIff(s, anchor, now);
    case _ =>
      WeeklyFindsNothingIff(s, anchor, now);
      if Previous(s, anchor, now).Some? {
        WeeklyIsLatest(s, anchor, now);
      }
  }

  /** An occurrence lies at or after the task's creation and after its last run. */
  predicate Owed(t: Task, o: Instant) {
    (t.created != 0 ==> FromMillis(t.created) <= o) && (t.lastRun != 0 ==> FromMillis(t.lastRun) < o)
  }

  /** A calendar task is due exactly when some occurrence not after now is owed:
      at or after its creation, after its last run. Biweekly weeks are counted
      from the creation, else from the last run. */
  lemma CalendarDueIff(t: Task, now: Instant)
    requires t.plan.Some? && Parsed(t.plan.value)
    requires LookupFinds(t.plan.value, Anchor(t, now), now)
    ensures var s := t.plan.value;
      var a := if t.created != 0 then FromMillis(t.created) else if t.lastRun != 0 then FromMillis(t.lastRun) else now;
      Due(t, now) <==> exists i :: On(s, a, i) && Nth(s, i) <= now && Owed(t, Nth(s, i))
  {
    var s, a := t.plan.value, Anchor(t, now);
    LookupIsLatestIff(s, a, now);
    LatestIsOwed(t, s, a, now, Previous(s, a, now).value);
  }

  /** If any occurrence so far is owed, the latest one is. */
  lemma LatestIsOwed(t: Task, s: Schedule, a: Instant, now: Instant, o: Instant)
    requires Latest(s, a, now, o)
    ensures o <= now
    ensures Owed(t, o) <==> exists i :: On(s, a, i) && Nth(s, i) <= now && Owed(t, Nth(s, i))
  {
    var on, at := i => On(s, a, i), i => Nth(s, i);
    assert LatestOf(on, at, now, o);
    if Owed(t, o) {
      var i :| on(i) && at(i) == o;
    }
    if i :| On(s, a, i) && Nth(s, i) <= now && Owed(t, Nth(s, i)) {
      assert on(i) && at(i) <= now;
    }
  }

  /** A task without a calendar rule is due exactly within its window, when it has
      an interval, and that has passed since its last run, or since its creation
      if it never ran, or neither is known. */
  lemma PlainDueIff(t: Task, now: Instant)
    requires t.plan.None?
    ensures Due(t, now) <==>
              && t.every > 0 && InWindow(t.from, t.until, ClockOf(now) / MINUTE)
              && (t.lastRun != 0 ==> FromMillis(t.lastRun) + t.every <= now)
              && (t.lastRun == 0 && t.created != 0 ==> FromMillis(t.created) + t.every <= now)
  {
  }

  // ---- One job ----

  /** The topic of a fresh-conversation task, and whether its prompt has been
      submitted. */
  datatype Pending = Pending(topic: TopicId, submitted: bool)

  datatype Controller = NotReady | Busy | Idle

  datatype Round = Round(created: Option<TopicId>, tabOpened: bool, controller: Controller, accepted: bool, took: nat)

  type Rounds = nat -> Round

  /** A tick or a manual run of the engine. */
  type RunId = nat

  /** Why a job started. */
  datatype Cause = ByHand | ByCalendar(occurrence: Instant) | ByInterval(now: Instant, every: int)

  datatype Event = Created(id: Id) | Submitted(id: Id, cause: Cause, at: int, run: RunId)

  /** The topics in flight, and what the environment has gone through: its clock,
      the number of rounds, and the events so far. */
  datatype World = World(pending: map<Id, Pending>, clock: Instant, k: nat, log: seq<Event>)

  /** Where executeTask is: at its start, without a topic, with a created topic
      not yet kept, before opening the tab, before looking at the controller,
      with the controller idle, past the submit, or done. `submitted` says that
      the topic found was one in flight. */
  datatype Pc =
    | Entered
    | NeedsTopic
    | Made(topic: TopicId)
    | HasTopic(topic: TopicId, submitted: bool)
    | Opened(topic: TopicId, submitted: bool)
    | Confirmed(topic: TopicId, submitted: bool)
    | Sent(topic: TopicId)
    | Finished

  datatype Job = Job(task: Task, cause: Cause, run: RunId, pc: Pc)

  predicate InFlight(w: World, t: Task) {
    t.newEachRun && t.id in w.pending && w.pending[t.id].submitted
  }

  function Met(w: World, r: Round): World {
    w.(k := w.k + 1, clock := w.clock + r.took)
  }

  /** The next section of executeTask. */
  function Advance(j: Job, w0: World, r: Round): (Job, World)
    requires !j.pc.Finished?
  {
    var w := Met(w0, r);
    var t := j.task;
    match j.pc
    case Entered =>
      if t.newEachRun && t.id in w.pending
      then (j.(pc := HasTopic(w.pending[t.id].topic, w.pending[t.id].submitted)), w)
      else if !t.newEachRun && t.topic != "" then (j.(pc := HasTopic(t.topic, false)), w)
      else (j.(pc := NeedsTopic), w)
    case NeedsTopic =>
      if r.created.None? then (Failed(j, w), w)
      else
        var topic := r.created.value;
        (j.(task := t.(topic := topic), pc := if t.newEachRun then Made(topic) else HasTopic(topic, false)),
         w.(log := w.log + [Created(t.id)]))
    case Made(topic) =>
      (j.(pc := HasTopic(topic, false)), w.(pending := w.pending[t.id := Pending(topic, false)]))
    case HasTopic(topic, submitted) =>
      if r.tabOpened then (j.(pc := Opened(topic, submitted)), w) else (Failed(j, w), w)
    case Opened(topic, submitted) =>
      (j.(pc := if r.controller.Idle? then Confirmed(topic, submitted) else Finished), w)
    case Confirmed(topic, submitted) =>
      if submitted then (j.(pc := Entered), w.(pending := Cleared(w.pending, t.id, topic)))
      else if r.accepted
      then (j.(pc := Sent(topic)), w.(log := w.log + [Submitted(t.id, j.cause, Millis(w.clock), j.run)]))
      else (j.(pc := Finished), w)
    case Sent(topic) =>
      (j.(task := Stamped(t, w), pc := Finished),
       if t.newEachRun then w.(pending := w.pending[t.id := Pending(topic, true)]) else w)
  }

  /** An error while making or opening the topic counts as a run. */
  function Failed(j: Job, w: World): Job {
    j.(task := j.task.(lastRun := Millis(w.clock)), pc := Finished)
  }

  function Cleared(pending: map<Id, Pending>, id: Id, topic: TopicId): map<Id, Pending> {
    if id in pending && pending[id] == Pending(topic, true) then pending - {id} else pending
  }

  function Stamped(t: Task, w: World): Task {
    t.(lastRun := Millis(w.clock), created := if t.created == 0 then Millis(w.clock) else t.created)
  }

  /** A topic found in flight is still there: so it is while no other job runs. */
  predicate JobOk(j: Job, w: World) {
    match j.pc
    case HasTopic(topic, submitted) => submitted ==> InFlightAs(j.task, w, topic)
    case Opened(topic, submitted) => submitted ==> InFlightAs(j.task, w, topic)
    case Confirmed(topic, submitted) => submitted ==> InFlightAs(j.task, w, topic)
    case _ => true
  }

  predicate InFlightAs(t: Task, w: World, topic: TopicId) {
    t.newEachRun && t.id in w.pending && w.pending[t.id] == Pending(topic, true)
  }

  /** Whether a topic in flight has yet to be cleared. */
  predicate Clears(j: Job, w: World) {
    match j.pc
    case Entered => InFlight(w, j.task)
    case HasTopic(_, submitted) => submitted
    case Opened(_, submitted) => submitted
    case Confirmed(_, submitted) => submitted
    case _ => false
  }

  function Rank(pc: Pc): nat {
    match pc
    case Entered => 7
    case NeedsTopic => 6
    case Made(_) => 5
    case HasTopic(_, _) => 4
    case Opened(_, _) => 3
    case Confirmed(_, _) => 2
    case Sent(_) => 1
    case Finished => 0
  }

  /** executeTask with no other caller in between. It terminates: its recursion
      happens at most once, after a topic in flight has been cleared. */
  function RunJob(j: Job, w: World, rounds: Rounds): (r: (Job, World))
    requires JobOk(j, w)
    ensures r.0.pc.Finished? && r.0.run == j.run && r.0.cause == j.cause && r.0.task.id == j.task.id
    ensures r.1.k <= w.k + Rank(j.pc) + if Clears(j, w) then 7 else 0
    decreases if Clears(j, w) then 1 else 0, Rank(j.pc)
  {
    if j.pc.Finished? then (j, w)
    else
      var (j', w') := Advance(j, w, rounds(w.k));
      RunJob(j', w', rounds)
  }

  /** A previous fresh conversation still open or busy blocks the next one: no
      topic is created, nothing is submitted, and it stays in flight. */
  lemma InFlightBlocks(t: Task, w: World, rounds: Rounds, cause: Cause, run: RunId)
    requires InFlight(w, t) && !(rounds(w.k + 1).tabOpened && rounds(w.k + 2).controller.Idle?)
    ensures var r := RunJob(Job(t, cause, run, Entered), w, rounds); r.1.log == w.log && r.1.pending == w.pending
  {
    var j := Job(t, cause, run, Entered);
    var topic := w.pending[t.id].topic;
    var w1 := Met(w, rounds(w.k));
    TopicPaths(j, w, rounds);
    OpenPaths(j.(pc := HasTopic(topic, true)), w1, rounds);
    if rounds(w1.k).tabOpened {
      SubmitPaths(j.(pc := Opened(topic, true)), Met(w1, rounds(w1.k)), rounds);
    }
  }

  /** What one section can log: a topic, created for a task that has none, or a
      submit, made only with the controller found idle and if it is accepted. */
  lemma AdvanceLogs(j: Job, w: World, r: Round)
    requires !j.pc.Finished?
    ensures var (j', w') := Advance(j, w, r);
      && w'.clock == w.clock + r.took && j'.task.id == j.task.id && j'.run == j.run && j'.cause == j.cause
      && j'.task.newEachRun == j.task.newEachRun
      && w'.log == (if j.pc.NeedsTopic? && r.created.Some? then w.log + [Created(j.task.id)]
                    else if j'.pc.Sent? then w.log + [Submitted(j.task.id, j.cause, Millis(w'.clock), j.run)]
                    else w.log)
      && (j'.pc.Sent? ==> j.pc.Confirmed? && !j.pc.submitted && r.accepted)
      && (j'.pc.Confirmed? ==> j.pc.Opened? && r.controller.Idle?)
      && (j'.task.lastRun == j.task.lastRun || (j'.pc.Finished? && j'.task.lastRun == Millis(w'.clock)))
      && (j.pc.Sent? ==> j'.pc.Finished? && j'.task.lastRun == Millis(w'.clock))
  {
  }

  /** What else a section does. The job ends where its topic cannot be made or
      opened, or after its submit, and then counts as a run; or at a controller
      that is not idle or refuses, and then the task is as it was. A submit backs
      a missing creation time. Of the topics in flight only the task's own
      changes: kept once made, in flight once submitted, dropped when it had
      been. */
  lemma SectionOutcome(j: Job, w: World, r: Round)
    requires !j.pc.Finished?
    ensures var (j', w') := Advance(j, w, r);
      && (j'.pc.Finished? <==>
            match j.pc
            case NeedsTopic => r.created.None?
            case HasTopic(_, _) => !r.tabOpened
            case Opened(_, _) => !r.controller.Idle?
            case Confirmed(_, submitted) => !submitted && !r.accepted
            case Sent(_) => true
            case _ => false)
      && (j'.pc.Finished? ==>
            if j.pc.Opened? || j.pc.Confirmed? then j'.task == j.task else j'.task.lastRun == Millis(w'.clock))
      && (!j'.pc.Finished? ==> j'.task.lastRun == j.task.lastRun)
      && j'.task == j.task.(topic := j'.task.topic, lastRun := j'.task.lastRun, created := j'.task.created)
      && (j'.task.topic != j.task.topic ==> j.pc.NeedsTopic? && r.created == Some(j'.task.topic))
      && j'.task.created == (if j.pc.Sent? && j.task.created == 0 then Millis(w'.clock) else j.task.created)
    ensures var (j', w') := Advance(j, w, r); var id := j.task.id;
      && (forall x | x != id :: x in w'.pending <==> x in w.pending)
      && (forall x | x != id && x in w.pending :: w'.pending[x] == w.pending[x])
      && (j.pc.Made? ==> id in w'.pending && w'.pending[id] == Pending(j.pc.topic, false))
      && (j.pc.Sent? && j.task.newEachRun ==> id in w'.pending && w'.pending[id] == Pending(j.pc.topic, true))
      && (j.pc.Confirmed? && j.pc.submitted ==>
            j'.pc.Entered? && (id in w'.pending ==> w'.pending[id] != Pending(j.pc.topic, true)))
      && (!j.pc.Made? && !j.pc.Sent? && !(j.pc.Confirmed? && j.pc.submitted) ==> w'.pending == w.pending)
  {
  }

  // ---- A tick ----

  type Updates = map<Id, Task>

  function CauseOf(t: Task, now: Instant): Cause {
    var s := ScheduledAt(t, now);
    if s.Some? then ByCalendar(s.value) else ByInterval(now, t.every)
  }

  /** Only run state is taken over: topic, last run, and a missing creation time. */
  function MergeOne(t: Task, u: Task): Task {
    t.(topic := if u.topic != "" then u.topic else t.topic,
       lastRun := if u.lastRun != 0 then u.lastRun else t.lastRun,
       created := if t.created == 0 && u.created != 0 then u.created else t.created)
  }

  function Rebased(tasks: seq<Task>, updates: Updates): (r: seq<Task>)
    ensures |r| == |tasks|
    ensures forall i | 0 <= i < |r| ::
              r[i] == if tasks[i].id in updates then MergeOne(tasks[i], updates[tasks[i].id]) else tasks[i]
  {
    seq(|tasks|, i requires 0 <= i < |tasks| =>
      if tasks[i].id in updates then MergeOne(tasks[i], updates[tasks[i].id]) else tasks[i])
  }

  /** A merge adopts every edit of the file: it keeps the list, its order and
      every field the engine does not own, an existing creation time included;
      of a task that ran it takes the topic and the last run. */
  lemma MergeKeepsEdits(tasks: seq<Task>, updates: Updates, i: nat)
    requires i < |tasks|
    ensures var t, r := tasks[i], Rebased(tasks, updates)[i];
      && r == t.(topic := r.topic, lastRun := r.lastRun, created := r.created)
      && (t.created != 0 ==> r.created == t.created)
      && (t.id !in updates ==> r == t)
      && (t.id in updates ==>
            var u := updates[t.id];
            && (u.lastRun != 0 ==> r.lastRun == u.lastRun)
            && (u.topic != "" ==> r.topic == u.topic)
            && (t.created == 0 ==> r.created == u.created))
  {
  }

  predicate KeepsPending(tasks: seq<Task>, id: Id) {
    exists t | t in tasks :: t.newEachRun && t.id == id
  }

  function Pruned(pending: map<Id, Pending>, tasks: seq<Task>): map<Id, Pending> {
    map id | id in pending && KeepsPending(tasks, id) :: pending[id]
  }

  // ---- The engine ----

  /** The tasks file: absent, not parsable, or a list. */
  datatype File = Missing | Unreadable | Listed(tasks: seq<Task>)

  /** A tick or a manual run between its snapshot and its merge: the tasks it has
      yet to look at, the instant it decides by (none by hand), the results so
      far, and the job it is at. */
  datatype Run = Run(todo: seq<Task>, now: Option<Instant>, updates: Updates, job: Option<Job>)

  /** `stale`: the file's modification time is not the one last noted. */
  datatype State = State(tasks: seq<Task>, file: File, stale: bool, runs: map<RunId, Run>, world: World)

  function FileTasks(f: File): seq<Task> {
    if f.Listed? then f.tasks else []
  }

  function Installed(s: State, tasks: seq<Task>): State {
    s.(tasks := tasks, world := s.world.(pending := Pruned(s.world.pending, tasks)))
  }

  function Adopted(s: State): State {
    if s.file.Missing? || !s.stale then s else Installed(s, FileTasks(s.file)).(stale := false)
  }

  function Reloaded(s: State): State {
    Installed(s, FileTasks(s.file)).(stale := false)
  }

  function Replaced(s: State, tasks: seq<Task>, saved: bool): State {
    Installed(s, tasks).(file := if saved then Listed(tasks) else s.file, stale := false)
  }

  /** A tick's snapshot. */
  function BeganTick(s: State, r: RunId): State {
    s.(runs := s.runs[r := Run(s.tasks, Some(s.world.clock), map[], None)])
  }

  function IndexOf(tasks: seq<Task>, id: Id): (i: nat)
    ensures i <= |tasks| && (i < |tasks| ==> tasks[i].id == id)
    ensures forall j | 0 <= j < i :: tasks[j].id != id
  {
    if |tasks| == 0 || tasks[0].id == id then 0 else 1 + IndexOf(tasks[1..], id)
  }

  /** A manual run's snapshot: the first task with the ID, if there is one. */
  function BeganOne(s: State, r: RunId, id: Id): State {
    var i := IndexOf(s.tasks, id);
    s.(runs := s.runs[r := Run(if i < |s.tasks| then [s.tasks[i]] else [], None, map[], None)])
  }

  predicate AtTask(s: State, r: RunId) {
    r in s.runs && s.runs[r].job.None? && s.runs[r].todo != []
  }

  predicate InJob(s: State, r: RunId) {
    r in s.runs && s.runs[r].job.Some? && !s.runs[r].job.value.pc.Finished?
  }

  predicate Over(s: State, r: RunId) {
    r in s.runs && s.runs[r].job.None? && s.runs[r].todo == []
  }

  /** The run looks at its next task: a tick passes over what is not enabled or
      not due; anything else becomes its job. */
  function Picked(s: State, r: RunId): State
    requires AtTask(s, r)
  {
    var x := s.runs[r];
    var t := x.todo[0];
    var rest := x.(todo := x.todo[1..]);
    if x.now.Some? && !(t.enabled && Due(t, x.now.value)) then s.(runs := s.runs[r := rest])
    else
      var cause := if x.now.Some? then CauseOf(t, x.now.value) else ByHand;
      s.(runs := s.runs[r := rest.(job := Some(Job(t, cause, r, Entered)))])
  }

  /** The result of a job goes to the run's updates when it is done. */
  function WithJob(x: Run, j: Job): Run {
    if j.pc.Finished? then x.(updates := x.updates[j.task.id := j.task], job := None) else x.(job := Some(j))
  }

  /** The run's job takes its next section. */
  function Stepped(s: State, r: RunId, round: Round): State
    requires InJob(s, r)
  {
    var (j, w) := Advance(s.runs[r].job.value, s.world, round);
    s.(world := w, runs := s.runs[r := WithJob(s.runs[r], j)])
  }

  /** One task of a run with no other caller in between. */
  function RanOne(s: State, r: RunId, rounds: Rounds): State
    requires AtTask(s, r)
  {
    var p := Picked(s, r);
    if p.runs[r].job.None? then p
    else
      var (j, w) := RunJob(p.runs[r].job.value, p.world, rounds);
      p.(world := w, runs := p.runs[r := WithJob(p.runs[r], j)])
  }

  /** A whole run with no other caller in between. */
  function RanAll(s: State, r: RunId, rounds: Rounds): (s': State)
    requires r in s.runs && s.runs[r].job.None?
    ensures Over(s', r) && s'.runs.Keys == s.runs.Keys
    ensures s'.tasks == s.tasks && s'.file == s.file && s'.stale == s.stale
    decreases |s.runs[r].todo|
  {
    if s.runs[r].todo == [] then s else RanAll(RanOne(s, r, rounds), r, rounds)
  }

  /** A tick runs, and reports to its merge, exactly the tasks of its snapshot that
      are enabled and due at its instant; a manual run exactly those it was given,
      due or not. */
  lemma {:induction false} RanAllRuns(s: State, r: RunId, rounds: Rounds)
    requires r in s.runs && s.runs[r].job.None?
    ensures RanAll(s, r, rounds).runs[r].updates.Keys == s.runs[r].updates.Keys + Chosen(s.runs[r])
    decreases |s.runs[r].todo|
  {
    var x := s.runs[r];
    if x.todo != [] {
      var s1 := RanOne(s, r, rounds);
      RanOneRuns(s, r, rounds);
      RanAllRuns(s1, r, rounds);
      ChosenFirst(x, s1.runs[r]);
    }
  }

  lemma RanOneRuns(s: State, r: RunId, rounds: Rounds)
    requires AtTask(s, r)
    ensures var (x, x1) := (s.runs[r], RanOne(s, r, rounds).runs[r]); var t := x.todo[0];
      && x1.todo == x.todo[1..] && x1.now == x.now && x1.job.None?
      && x1.updates.Keys == x.updates.Keys + if Chooses(x, t) then {t.id} else {}
  {
  }

  predicate Chooses(x: Run, t: Task) {
    x.now.Some? ==> t.enabled && Due(t, x.now.value)
  }

  lemma ChosenFirst(x: Run, x1: Run)
    requires x.todo != [] && x1.todo == x.todo[1..] && x1.now == x.now
    ensures Chosen(x) == Chosen(x1) + if Chooses(x, x.todo[0]) then {x.todo[0].id} else {}
  {
    assert x.todo == [x.todo[0]] + x1.todo;
    assert forall t :: t in x.todo <==> t == x.todo[0] || t in x1.todo;
    assert forall t :: Chooses(x, t) <==> Chooses(x1, t);
  }

  function Chosen(x: Run): set<Id> {
    set t | t in x.todo && Chooses(x, t) :: t.id
  }

  /** What a merge rebases onto: the file's list, or the one in memory. */
  function Base(s: State): seq<Task> {
    if s.file.Listed? then s.file.tasks else s.tasks
  }

  function Merged(s: State, r: RunId, saved: bool): State
    requires r in s.runs
  {
    var u := s.runs[r].updates;
    var s1 := s.(runs := s.runs - {r});
    if u == map[] then s1
    else
      var tasks := Rebased(Base(s), u);
      Installed(s1, tasks).(file := if saved then Listed(tasks) else s.file, stale := false)
  }

  /** The engine's critical sections and run loops. clock, k and log are the
      environment's; the runs other callers are in are none of its fields. */
  class HeartbeatEngine {
    var tasks: seq<Task>
    var pending: map<Id, Pending>
    var file: File
    var stale: bool
    var clock: Instant
    var k: nat
    var log: seq<Event>

    ghost function W(): World
      reads this
    {
      World(pending, clock, k, log)
    }

    ghost function Current(): State
      reads this
    {
      State(tasks, file, stale, map[], W())
    }

    method Meet(rounds: Rounds) returns (r: Round)
      modifies this`clock, this`k
      ensures r == rounds(old(k)) && k == old(k) + 1 && clock == old(clock) + r.took
    {
      r := rounds(k);
      k, clock := k + 1, clock + r.took;
    }

    /** executeTask up to its topic: the one in flight or kept, or a new one. */
    method FindTopic(task: Task, rounds: Rounds, cause: Cause, run: RunId)
      returns (t: Task, topic: Option<TopicId>, submitted: bool)
      modifies this`pending, this`clock, this`k, this`log
      ensures LeadsToTopic(Job(task, cause, run, Entered), old(W()), rounds, t, topic, submitted, W())
      ensures topic.Some? && submitted ==> InFlight(old(W()), task) && t == task
    {
      t := task;
      TopicPaths(Job(t, cause, run, Entered), W(), rounds);
      var r := Meet(rounds);
      var known := if !t.newEachRun then t.topic else if t.id in pending then pending[t.id].topic else "";
      submitted := t.newEachRun && t.id in pending && pending[t.id].submitted;
      if known != "" {
        return t, Some(known), submitted;
      }
      t, topic := MakeTopic(t, rounds);
    }

    /** A new topic, kept for a fresh conversation. */
    method MakeTopic(task: Task, rounds: Rounds) returns (t: Task, topic: Option<TopicId>)
      modifies this`pending, this`clock, this`k, this`log
      ensures var w := Met(old(W()), rounds(old(k)));
        match rounds(old(k)).created
        case None => topic == None && t == task.(lastRun := Millis(w.clock)) && W() == w
        case Some(x) => topic == Some(x) && t == task.(topic := x) && W() == AfterMaking(task, x, w, rounds)
    {
      t := task;
      var r := Meet(rounds);
      if r.created.None? {
        return t.(lastRun := Millis(clock)), None;
      }
      topic := r.created;
      t := t.(topic := topic.value);
      log := log + [Created(t.id)];
      if t.newEachRun {
        r := Meet(rounds);
        pending := pending[t.id := Pending(topic.value, false)];
      }
    }

    method ExecuteTask(task: Task, rounds: Rounds, cause: Cause, run: RunId) returns (t: Task)
      modifies this`pending, this`clock, this`k, this`log
      ensures var r := RunJob(Job(task, cause, run, Entered), old(W()), rounds); t == r.0.task && W() == r.1
      decreases if InFlight(W(), task) then 1 else 0, 1
    {
      var topic: Option<TopicId>;
      var pendingSubmitted: bool;
      t, topic, pendingSubmitted := FindTopic(task, rounds, cause, run);
      if topic.None? {
        return;
      }
      OpenPaths(Job(t, cause, run, HasTopic(topic.value, pendingSubmitted)), W(), rounds);
      var r := Meet(rounds);
      if !r.tabOpened {
        t := t.(lastRun := Millis(clock));
        return;
      }
      t := SubmitOpened(t, topic.value, pendingSubmitted, rounds, cause, run);
    }

    /** executeTask from the wait for the controller on. */
    method SubmitOpened(task: Task, topic: TopicId, pendingSubmitted: bool, rounds: Rounds, cause: Cause, run: RunId)
      returns (t: Task)
      requires pendingSubmitted ==> InFlightAs(task, W(), topic)
      modifies this`pending, this`clock, this`k, this`log
      ensures var r := RunJob(Job(task, cause, run, Opened(topic, pendingSubmitted)), old(W()), rounds);
        t == r.0.task && W() == r.1
      decreases if pendingSubmitted then 1 else 0, 0
    {
      t := task;
      SubmitPaths(Job(t, cause, run, Opened(topic, pendingSubmitted)), W(), rounds);
      var r := Meet(rounds);
      if !r.controller.Idle? {
        return;
      }
      r := Meet(rounds);
      if pendingSubmitted {
        if t.id in pending && pending[t.id].topic == topic && pending[t.id].submitted {
          pending := pending - {t.id};
        }
        t := ExecuteTask(t, rounds, cause, run);
        return;
      }
      if !r.accepted {
        return;
      }
      log := log + [Submitted(t.id, cause, Millis(clock), run)];
      t := MarkSubmitted(t, topic, rounds);
    }

    /** After the submit: the topic in flight, and the task's stamp. */
    method MarkSubmitted(task: Task, topic: TopicId, rounds: Rounds) returns (t: Task)
      modifies this`pending, this`clock, this`k
      ensures var w := Met(old(W()), rounds(old(k)));
        && t == Stamped(task, w)
        && W() == if task.newEachRun then w.(pending := w.pending[task.id := Pending(topic, true)]) else w
    {
      t := task;
      var r := Meet(rounds);
      if t.newEachRun {
        pending := pending[t.id := Pending(topic, true)];
      }
      t := t.(lastRun := Millis(clock));
      if t.created == 0 {
        t := t.(created := t.lastRun);
      }
    }

    method PrunePendingTopicsLocked(list: seq<Task>)
      modifies this`pending
      ensures pending == Pruned(old(pending), list)
      ensures forall id :: id in pending <==> id in old(pending) && exists t | t in list :: t.newEachRun && t.id == id
      ensures forall id | id in pending :: pending[id] == old(pending)[id]
    {
      if pending == map[] {
        return;
      }
      var keep: set<Id> := {};
      for i := 0 to |list|
        invariant keep == set t | t in list[..i] && t.newEachRun :: t.id
      {
        assert list[..i + 1] == list[..i] + [list[i]];
        if list[i].newEachRun {
          keep := keep + {list[i].id};
        }
      }
      assert list[..|list|] == list;
      pending := map id | id in pending && id in keep :: pending[id];
    }

    method AdoptExternalEditsLocked()
      modifies this`tasks, this`pending, this`stale
      ensures Current() == Adopted(old(Current()))
      ensures file.Missing? || !old(stale) ==> Current() == old(Current())
      ensures !file.Missing? && old(stale) ==> !stale && tasks == if file.Listed? then file.tasks else []
    {
      if file.Missing? || !stale {
        return;
      }
      stale := false;
      tasks := FileTasks(file);
      PrunePendingTopicsLocked(tasks);
    }

    method ReloadTasks() returns (out: seq<Task>)
      modifies this`tasks, this`pending, this`stale
      ensures Current() == Reloaded(old(Current())) && out == tasks
      ensures !stale && tasks == if file.Listed? then file.tasks else []
    {
      tasks := FileTasks(file);
      stale := false;
      PrunePendingTopicsLocked(tasks);
      out := tasks;
    }

    method ReplaceTasks(list: seq<Task>, saved: bool)
      modifies this`tasks, this`pending, this`file, this`stale
      ensures Current() == Replaced(old(Current()), list, saved)
      ensures tasks == list && file == (if saved then Listed(list) else old(file)) && !stale
    {
      tasks := list;
      PrunePendingTopicsLocked(list);
      file := if saved then Listed(list) else file;
      stale := false;
    }

    method MergeRunUpdatesLocked(updates: Updates, saved: bool)
      modifies this`tasks, this`pending, this`file, this`stale
      ensures forall r, x: Run | x.updates == updates ::
                Current() == Merged(old(Current()).(runs := map[r := x]), r, saved)
      ensures updates == map[] ==> Current() == old(Current())
      ensures updates != map[] ==>
                && tasks == Rebased(if old(file).Listed? then old(file).tasks else old(tasks), updates)
                && file == (if saved then Listed(tasks) else old(file)) && !stale
    {
      ghost var before := Current();
      if updates == map[] {
        assert forall r: RunId, x: Run :: map[r := x] - {r} == map[];
        return;
      }
      var base := if file.Listed? then file.tasks else tasks;
      var list := base;
      for i := 0 to |base|
        invariant |list| == |base|
        invariant forall j | 0 <= j < i :: list[j] == Rebased(base, updates)[j]
        invariant forall j | i <= j < |base| :: list[j] == base[j]
      {
        if list[i].id in updates {
          var t, u := list[i], updates[list[i].id];
          if u.topic != "" {
            t := t.(topic := u.topic);
          }
          if u.lastRun != 0 {
            t := t.(lastRun := u.lastRun);
          }
          if t.created == 0 && u.created != 0 {
            t := t.(created := u.created);
          }
          list := list[i := t];
        }
      }
      assert list == Rebased(base, updates);
      tasks := list;
      PrunePendingTopicsLocked(list);
      file := if saved then Listed(list) else file;
      stale := false;
      assert forall r: RunId, x: Run :: map[r := x] - {r} == map[];
    }

    /** The state in the middle of a run. */
    ghost function During(run: RunId, x: Run): State
      reads this
    {
      Current().(runs := map[run := x])
    }

    /** One tick with no other caller in between. */
    method Tick(rounds: Rounds, saved: bool, run: RunId)
      modifies this
      ensures Current() == Merged(RanAll(BeganTick(Adopted(old(Current())), run), run, rounds), run, saved)
    {
      AdoptExternalEditsLocked();
      var snapshot, now, updates: Updates := tasks, clock, map[];
      ghost var start := BeganTick(Current(), run);
      assert snapshot[0..] == snapshot;
      for i := 0 to |snapshot|
        invariant Current() == start.(world := W(), runs := map[])
        invariant RanAll(start, run, rounds) ==
                  RanAll(During(run, Run(snapshot[i..], Some(now), updates, None)), run, rounds)
      {
        ghost var x := Run(snapshot[i..], Some(now), updates, None);
        assert x.todo[0] == snapshot[i] && x.todo[1..] == snapshot[i + 1..];
        LooksAt(During(run, x), run, x, rounds);
        if snapshot[i].enabled && Due(snapshot[i], now) {
          var t := ExecuteTask(snapshot[i], rounds, CauseOf(snapshot[i], now), run);
          updates := updates[snapshot[i].id := t];
        }
      }
      MergeRunUpdatesLocked(updates, saved);
    }

    method TriggerNow(id: Id, rounds: Rounds, saved: bool, run: RunId)
      modifies this
      ensures Current() == Merged(RanAll(BeganOne(old(Current()), run, id), run, rounds), run, saved)
    {
      var updates: Updates := map[];
      ghost var start := BeganOne(Current(), run, id);
      var i := 0;
      while i < |tasks| && tasks[i].id != id
        invariant i <= IndexOf(tasks, id)
      {
        i := i + 1;
      }
      assert i == IndexOf(tasks, id);
      if i < |tasks| {
        LooksAt(start, run, start.runs[run], rounds);
        var t := ExecuteTask(tasks[i], rounds, ByHand, run);
        updates := updates[id := t];
      }
      MergeRunUpdatesLocked(updates, saved);
    }
  }

  /** A run on its own looks at its next task. */
  lemma LooksAt(s: State, r: RunId, x: Run, rounds: Rounds)
    requires s.runs == map[r := x] && x.job.None? && x.todo != []
    ensures RanAll(s, r, rounds) == RanAll(AfterLook(s, r, x, rounds), r, rounds)
  {
    var rest := x.(todo := x.todo[1..]);
    assert Picked(s, r).runs.Keys == {r};
    assert RanOne(s, r, rounds).runs.Keys == {r};
    assert RanOne(s, r, rounds) == AfterLook(s, r, x, rounds);
  }

  function AfterLook(s: State, r: RunId, x: Run, rounds: Rounds): State
    requires x.job.None? && x.todo != []
  {
    var t := x.todo[0];
    var rest := x.(todo := x.todo[1..]);
    if x.now.Some? && !(t.enabled && Due(t, x.now.value)) then s.(runs := map[r := rest])
    else
      var cause := if x.now.Some? then CauseOf(t, x.now.value) else ByHand;
      var (j, w) := RunJob(Job(t, cause, r, Entered), s.world, rounds);
      s.(world := w, runs := map[r := rest.(updates := x.updates[t.id := j.task])])
  }

  // ---- executeTask, path by path ----

  ghost predicate LeadsToTopic(j: Job, w: World, rounds: Rounds,
                               t: Task, topic: Option<TopicId>, submitted: bool, w': World)
    requires j.pc.Entered?
  {
    match topic
    case None => RunJob(j, w, rounds) == (j.(task := t, pc := Finished), w')
    case Some(x) =>
      var j' := j.(task := t, pc := HasTopic(x, submitted));
      JobOk(j', w') && RunJob(j, w, rounds) == RunJob(j', w', rounds)
  }

  lemma TopicPaths(j: Job, w: World, rounds: Rounds)
    requires j.pc.Entered?
    ensures var t := j.task; var w1 := Met(w, rounds(w.k)); var w2 := Met(w1, rounds(w1.k));
      if t.newEachRun && t.id in w.pending
      then LeadsToTopic(j, w, rounds, t, Some(w.pending[t.id].topic), w.pending[t.id].submitted, w1)
      else if !t.newEachRun && t.topic != "" then LeadsToTopic(j, w, rounds, t, Some(t.topic), false, w1)
      else match rounds(w1.k).created
        case None => LeadsToTopic(j, w, rounds, t.(lastRun := Millis(w2.clock)), None, false, w2)
        case Some(x) => LeadsToTopic(j, w, rounds, t.(topic := x), Some(x), false, AfterMaking(t, x, w2, rounds))
  {
    var j1, w1 := Advanced(j, w, rounds);
    if j1.pc.NeedsTopic? {
      var j2, w2 := Advanced(j1, w1, rounds);
      if j2.pc.Made? {
        var j3, w3 := Advanced(j2, w2, rounds);
      }
    }
  }

  /** The world once a created topic is kept. */
  function AfterMaking(t: Task, x: TopicId, w: World, rounds: Rounds): World {
    var w2 := w.(log := w.log + [Created(t.id)]);
    if t.newEachRun then Met(w2, rounds(w2.k)).(pending := w.pending[t.id := Pending(x, false)]) else w2
  }

  lemma OpenPaths(j: Job, w: World, rounds: Rounds)
    requires j.pc.HasTopic? && JobOk(j, w)
    ensures var r := rounds(w.k); var w1 := Met(w, r);
      if r.tabOpened
      then
        var j' := j.(pc := Opened(j.pc.topic, j.pc.submitted));
        JobOk(j', w1) && RunJob(j, w, rounds) == RunJob(j', w1, rounds)
      else RunJob(j, w, rounds) == (Failed(j, w1), w1)
  {
    var j1, w1 := Advanced(j, w, rounds);
  }

  lemma SubmitPaths(j: Job, w: World, rounds: Rounds)
    requires j.pc.Opened? && JobOk(j, w)
    ensures var w1 := Met(w, rounds(w.k)); var w2 := Met(w1, rounds(w1.k)); var t := j.task;
      RunJob(j, w, rounds) ==
      if !rounds(w.k).controller.Idle? then (j.(pc := Finished), w1)
      else if j.pc.submitted
      then RunJob(j.(pc := Entered), w2.(pending := Cleared(w.pending, t.id, j.pc.topic)), rounds)
      else if !rounds(w1.k).accepted then (j.(pc := Finished), w2)
      else
        var w3 := w2.(log := w2.log + [Submitted(t.id, j.cause, Millis(w2.clock), j.run)]);
        AfterSubmit(j, j.pc.topic, Met(w3, rounds(w3.k)))
  {
    var j1, w1 := Advanced(j, w, rounds);
    if j1.pc.Confirmed? {
      var j2, w2 := Advanced(j1, w1, rounds);
      if j2.pc.Sent? {
        var j3, w3 := Advanced(j2, w2, rounds);
      }
    }
  }

  function AfterSubmit(j: Job, topic: TopicId, w: World): (Job, World) {
    (j.(task := Stamped(j.task, w), pc := Finished),
     if j.task.newEachRun then w.(pending := w.pending[j.task.id := Pending(topic, true)]) else w)
  }

  /** Running a job is running it from after its next section. */
  lemma Advanced(j: Job, w: World, rounds: Rounds) returns (j': Job, w': World)
    requires JobOk(j, w) && !j.pc.Finished?
    ensures (j', w') == Advance(j, w, rounds(w.k)) && JobOk(j', w') && RunJob(j, w, rounds) == RunJob(j', w', rounds)
  {
    var r := Advance(j, w, rounds(w.k));
    j', w' := r.0, r.1;
  }
}
