/** Whole histories of the heartbeat engine: any number of ticks and manual runs,
    section by section, with their merges, interleaved with the clock, edits of
    the file, and lists adopted, reloaded or replaced. There is one tick at a
    time; manual runs overlap it and each other. */
module HeartbeatHistory {
  import opened Wrappers
  import opened HeartbeatCalendar
  import opened HeartbeatRuns

  datatype Move =
    | Wait(d: nat)
    | Edit(file: File)
    | Adopt
    | Reload
    | Replace(tasks: seq<Task>, saved: bool)
    | BeginTick(run: RunId)
    | BeginOne(run: RunId, id: Id)
    | Pick(run: RunId)
    | Section(run: RunId, round: Round)
    | Merge(run: RunId, saved: bool)

  /** When a run took its snapshot: how long the log was, and which other runs
      had not merged. */
  datatype Begin = Begin(len: nat, open: set<RunId>, tick: bool)

  /** The engine, and the beginnings of all runs so far. */
  datatype System = System(e: State, begun: map<RunId, Begin>)

  function NewBegin(s: System, r: RunId, tick: bool): map<RunId, Begin> {
    s.begun[r := Begin(|s.e.world.log|, s.e.runs.Keys, tick)]
  }

  /** A run of the ticker's. */
  predicate IsTick(s: System, r: RunId) {
    r in s.begun && s.begun[r].tick
  }

  ghost predicate Step(s: System, s': System, m: Move) {
    match m
    case Wait(d) => s' == s.(e := s.e.(world := s.e.world.(clock := s.e.world.clock + d)))
    case Edit(file) => s' == s.(e := s.e.(file := file, stale := true))
    case Adopt => s' == s.(e := Adopted(s.e))
    case Reload => s' == s.(e := Reloaded(s.e))
    case Replace(tasks, saved) => s' == s.(e := Replaced(s.e, tasks, saved))
    case BeginTick(r) =>
      && r !in s.begun && (forall x | x in s.e.runs :: !IsTick(s, x))
      && s' == System(BeganTick(s.e, r), NewBegin(s, r, true))
    case BeginOne(r, id) => r !in s.begun && s' == System(BeganOne(s.e, r, id), NewBegin(s, r, false))
    case Pick(r) => AtTask(s.e, r) && s' == s.(e := Picked(s.e, r))
    case Section(r, round) => InJob(s.e, r) && s' == s.(e := Stepped(s.e, r, round))
    case Merge(r, saved) => Over(s.e, r) && s' == s.(e := Merged(s.e, r, saved))
  }

  /** An edit of the file is what the next adoption installs, unless the file was
      removed; until then nothing but the file changes. */
  lemma EditIsAdopted(s: System, s1: System, s2: System, file: File)
    requires Step(s, s1, Edit(file)) && Step(s1, s2, Adopt)
    ensures s1.e.tasks == s.e.tasks && s1.e.world == s.e.world && s1.e.runs == s.e.runs
    ensures s2.e.file == file && s2.e.tasks == match file
                                               case Missing => s.e.tasks
                                               case Unreadable => []
                                               case Listed(tasks) => tasks
    ensures forall id | id in s2.e.world.pending :: id in s.e.world.pending
  {
  }

  /** A reload installs the file's list, a replacement the one it is given, on file
      too unless its save failed. */
  lemma ListIsInstalled(s: System, s': System, m: Move)
    requires Step(s, s', m)
    ensures m.Reload? ==> s'.e.file == s.e.file && s'.e.tasks == if s.e.file.Listed? then s.e.file.tasks else []
    ensures m.Replace? ==> s'.e.tasks == m.tasks && s'.e.file == if m.saved then Listed(m.tasks) else s.e.file
    ensures m.Reload? || m.Replace? ==>
              forall id | id in s'.e.world.pending ::
                id in s.e.world.pending && exists t | t in s'.e.tasks :: t.newEachRun && t.id == id
  {
  }

  datatype Trace = Trace(states: seq<System>, moves: seq<Move>)

  ghost predicate StepAt(t: Trace, k: nat)
    requires k < |t.moves| && |t.states| == |t.moves| + 1
  {
    Step(t.states[k], t.states[k + 1], t.moves[k])
  }

  ghost predicate Path(t: Trace, from: System) {
    && |t.states| == |t.moves| + 1 && t.states[0] == from
    && forall k | 0 <= k < |t.moves| :: StepAt(t, k)
  }

  /** Nothing has run yet; the clock is past the first millisecond. */
  predicate Initial(s: System) {
    && s.e.runs == map[] && s.begun == map[] && s.e.world.log == [] && s.e.world.pending == map[]
    && s.e.world.clock >= 1_000_000
  }

  ghost predicate History(t: Trace) {
    |t.states| > 0 && Initial(t.states[0]) && Path(t, t.states[0])
  }

  // ---- What a task knows ----

  predicate DistinctIds(tasks: seq<Task>) {
    forall i, j | 0 <= i < j < |tasks| :: tasks[i].id != tasks[j].id
  }

  /** A submit of task id that no open run has still to merge. */
  predicate Settled(e: Event, id: Id, open: set<RunId>) {
    e.Submitted? && e.id == id && e.run !in open
  }

  /** The task's last run is not before any settled submit. */
  ghost predicate Knows(t: Task, log: seq<Event>, open: set<RunId>) {
    forall e | e in log && Settled(e, t.id, open) :: e.at <= t.lastRun
  }

  /** A list that can be installed: distinct IDs, every settled submit known. */
  ghost predicate ListOk(tasks: seq<Task>, log: seq<Event>, open: set<RunId>) {
    DistinctIds(tasks) && forall t | t in tasks :: Knows(t, log, open)
  }

  /** What a merge of run r must find in its updates: for every entry it touches,
      a last run that is not before any submit settled once r is. */
  ghost predicate UpdatesKnow(base: seq<Task>, u: Updates, log: seq<Event>, open: set<RunId>) {
    forall t | t in base && t.id in u && u[t.id].lastRun != 0 :: Knows(t.(lastRun := u[t.id].lastRun), log, open)
  }

  /** The condition is exact: an entry that knew the settled log knows it after
      the merge exactly when the update has no last run, or one that is not
      before any submit settled with the merge. */
  lemma MergeKnowsIff(t: Task, u: Task, log: seq<Event>, open: set<RunId>, r: RunId)
    requires Knows(t, log, open)
    requires u.lastRun == 0 ==> forall e | e in log && Settled(e, t.id, {}) :: e.run != r
    ensures Knows(MergeOne(t, u), log, open - {r}) <==>
            u.lastRun == 0 || forall e | e in log && Settled(e, t.id, open - {r}) :: e.at <= u.lastRun
  {
    if u.lastRun == 0 {
      forall e | e in log && Settled(e, t.id, open - {r})
        ensures e.at <= t.lastRun
      {
        assert Settled(e, t.id, {}) && Settled(e, t.id, open);
      }
    }
  }

  /** A guard the merge could check without the log: an update whose last run is
      not before the entry's, and which knows its own run's submits. */
  lemma ForwardMergeKnows(t: Task, u: Task, log: seq<Event>, open: set<RunId>, r: RunId)
    requires Knows(t, log, open) && (u.lastRun == 0 || u.lastRun >= t.lastRun)
    requires forall e | e in log && Settled(e, t.id, {}) && e.run == r :: e.at <= u.lastRun && e.at > 0
    ensures Knows(MergeOne(t, u), log, open - {r})
  {
    forall e | e in log && Settled(e, t.id, open - {r})
      ensures e.at <= MergeOne(t, u).lastRun
    {
      assert Settled(e, t.id, {});
      assert e.run != r ==> Settled(e, t.id, open);
    }
  }

  // ---- What the log says about occurrences and intervals ----

  /** One submit on its own: the occurrence served was past when it was made. */
  predicate EventOk(e: Event, clock: Instant) {
    e.Submitted? ==>
      && 0 < e.at <= Millis(clock)
      && (e.cause.ByCalendar? ==> e.cause.occurrence <= FromMillis(e.at))
      && (e.cause.ByInterval? ==> e.cause.now < FromMillis(e.at + 1))
  }

  /** The cause lies after a submit made at `at`: a later occurrence, or an
      interval on. */
  predicate After(cause: Cause, at: int) {
    match cause
    case ByHand => true
    case ByCalendar(o) => FromMillis(at) < o
    case ByInterval(now, every) => FromMillis(at) + every <= now
  }

  /** The cause holds by itself at this clock. */
  predicate CauseOk(cause: Cause, clock: Instant) {
    match cause
    case ByHand => true
    case ByCalendar(o) => o % 60_000_000_000 == 0 && o <= clock
    case ByInterval(now, _) => now <= clock
  }

  /** Submit number i was merged before run r began. */
  predicate Before(s: System, i: nat, r: RunId)
    requires i < |s.e.world.log|
  {
    var e := s.e.world.log[i];
    e.Submitted? && r in s.begun && i < s.begun[r].len && e.run !in s.begun[r].open
  }

  /** A job's cause lies after every submit of its task merged before its run
      began. */
  ghost predicate CauseAfter(s: System, id: Id, cause: Cause, r: RunId) {
    forall i | 0 <= i < |s.e.world.log| && Before(s, i, r) && s.e.world.log[i].id == id ::
      After(cause, s.e.world.log[i].at)
  }

  ghost predicate LogOk(s: System) {
    && s.e.world.clock >= 1_000_000
    && (forall e | e in s.e.world.log :: EventOk(e, s.e.world.clock))
    && (forall e | e in s.e.world.log && e.Submitted? :: e.run in s.begun && (!e.cause.ByHand? ==> s.begun[e.run].tick))
    && (forall j | 0 <= j < |s.e.world.log| && s.e.world.log[j].Submitted? ::
          CauseAfter(s, s.e.world.log[j].id, s.e.world.log[j].cause, s.e.world.log[j].run))
  }

  lemma DueCause(t: Task, now: Instant, at: int)
    requires Due(t, now) && 0 < at <= t.lastRun
    ensures After(CauseOf(t, now), at)
  {
  }

  lemma DueCauseOk(t: Task, now: Instant, clock: Instant)
    requires Due(t, now) && now <= clock
    ensures CauseOk(CauseOf(t, now), clock)
  {
    if ScheduledAt(t, now).Some? {
      PreviousOnTheMinute(t.plan.value, Anchor(t, now), now);
    }
  }

  /** A whole minute not after the clock is not after its millisecond. */
  lemma MinuteBound(o: Instant, clock: Instant)
    requires o % 60_000_000_000 == 0 && o <= clock
    ensures o <= FromMillis(Millis(clock))
  {
    var q := o / 60_000_000_000;
    assert o == 1_000_000 * (q * 60_000);
  }

  lemma SubmitOk(id: Id, cause: Cause, clock: Instant, r: RunId)
    requires CauseOk(cause, clock) && clock >= 1_000_000
    ensures EventOk(Submitted(id, cause, Millis(clock), r), clock)
  {
    if cause.ByCalendar? {
      MinuteBound(cause.occurrence, clock);
    }
  }

  // ---- The runs ----

  /** The submits of run r so far: none of a task it has yet to look at, at most
      one of its current job's, and every other in its updates. */
  ghost predicate RunLog(x: Run, r: RunId, log: seq<Event>) {
    forall e | e in log && e.Submitted? && e.run == r ::
      || (e.id in x.updates && e.at <= x.updates[e.id].lastRun)
      || (x.job.Some? && x.job.value.pc.Sent? && x.job.value.task.id == e.id)
  }

  /** IDs are looked at once. */
  ghost predicate RunIds(x: Run) {
    && DistinctIds(x.todo)
    && (forall t | t in x.todo :: t.id !in x.updates)
    && (x.job.Some? ==> x.job.value.task.id !in x.updates && forall t | t in x.todo :: t.id != x.job.value.task.id)
  }

  /** What the run's tasks knew at its snapshot. */
  ghost predicate RunKnows(s: System, x: Run, r: RunId)
    requires r in s.begun && s.begun[r].len <= |s.e.world.log|
  {
    forall t | t in x.todo :: Knows(t, s.e.world.log[..s.begun[r].len], s.begun[r].open)
  }

  ghost predicate JobFine(s: System, j: Job, r: RunId) {
    && j.run == r && !j.pc.Finished? && CauseOk(j.cause, s.e.world.clock) && CauseAfter(s, j.task.id, j.cause, r)
    && (!j.cause.ByHand? ==> IsTick(s, r))
  }

  ghost predicate RunOk(s: System, r: RunId)
    requires r in s.e.runs
  {
    var x := s.e.runs[r];
    && r in s.begun && s.begun[r].len <= |s.e.world.log|
    && RunLog(x, r, s.e.world.log) && RunIds(x) && RunKnows(s, x, r)
    && (x.job.Some? ==> JobFine(s, x.job.value, r))
    && (x.now.Some? <==> s.begun[r].tick) && (x.now.Some? ==> x.now.value <= s.e.world.clock)
  }

  ghost predicate Inv(s: System) {
    && LogOk(s) && ListOk(s.e.tasks, s.e.world.log, s.e.runs.Keys)
    && (forall r | r in s.e.runs :: RunOk(s, r))
    && (forall r | r in s.begun :: s.begun[r].len <= |s.e.world.log|)
  }

  /** What a caller can check before a list is installed: adopted, reloaded,
      replaced, or used as the base of a merge. */
  ghost predicate Sound(s: System, m: Move) {
    match m
    case Adopt => !s.e.file.Missing? && s.e.stale ==> ListOk(FileTasks(s.e.file), s.e.world.log, s.e.runs.Keys)
    case Reload => ListOk(FileTasks(s.e.file), s.e.world.log, s.e.runs.Keys)
    case Replace(tasks, _) => ListOk(tasks, s.e.world.log, s.e.runs.Keys)
    case Merge(r, _) => r in s.e.runs ==> MergeSound(s.e, r)
    case _ => true
  }

  ghost predicate MergeSound(s: State, r: RunId)
    requires r in s.runs
  {
    var u := s.runs[r].updates;
    && (u != map[] ==> ListOk(Base(s), s.world.log, s.runs.Keys))
    && UpdatesKnow(Base(s), u, s.world.log, s.runs.Keys - {r})
  }

  // ---- The invariant, move by move ----

  /** Steps that only install a list. */
  lemma InstallKeepsInv(s: System, s': System)
    requires Inv(s) && s'.begun == s.begun && s'.e.runs == s.e.runs
    requires s'.e.world == s.e.world.(pending := s'.e.world.pending)
    requires ListOk(s'.e.tasks, s.e.world.log, s.e.runs.Keys)
    ensures Inv(s')
  {
    SameLogStays(s, s');
  }

  /** With the same log and beginnings and a later clock, what is said of the log
      and of a run stays. */
  lemma SameLogStays(s: System, s': System)
    requires s'.begun == s.begun && s'.e.world.log == s.e.world.log && s'.e.world.clock >= s.e.world.clock
    ensures LogOk(s) ==> LogOk(s')
    ensures forall r | r in s.e.runs && r in s'.e.runs && s'.e.runs[r] == s.e.runs[r] && RunOk(s, r) :: RunOk(s', r)
  {
    assert forall i, r | 0 <= i < |s.e.world.log| :: Before(s', i, r) <==> Before(s, i, r);
    assert forall id, cause, r :: CauseAfter(s', id, cause, r) <==> CauseAfter(s, id, cause, r);
    if LogOk(s) {
      forall e | e in s'.e.world.log
        ensures EventOk(e, s'.e.world.clock)
      {
        assert EventOk(e, s.e.world.clock);
      }
    }
  }

  lemma WaitKeepsInv(s: System, s': System, m: Move)
    requires Inv(s) && (m.Wait? || m.Edit?) && Step(s, s', m)
    ensures Inv(s')
  {
    SameLogStays(s, s');
  }

  lemma BeginKeepsInv(s: System, s': System, m: Move)
    requires Inv(s) && (m.BeginTick? || m.BeginOne?) && Step(s, s', m)
    ensures Inv(s')
  {
    var r := m.run;
    BeginStays(s, s', r);
    BeginRunOk(s, s', m);
    forall t | t in s'.e.tasks
      ensures Knows(t, s.e.world.log, s'.e.runs.Keys)
    {
      assert Knows(t, s.e.world.log, s.e.runs.Keys);
    }
  }

  lemma BeginRunOk(s: System, s': System, m: Move)
    requires Inv(s) && (m.BeginTick? || m.BeginOne?) && Step(s, s', m)
    ensures RunOk(s', m.run)
  {
    var log := s.e.world.log;
    assert log[..|log|] == log;
    assert forall t | t in s'.e.runs[m.run].todo :: t in s.e.tasks;
    assert forall e | e in log && e.Submitted? :: e.run in s.begun;
  }

  /** A new beginning changes nothing about the old ones. */
  lemma BeginStays(s: System, s': System, r: RunId)
    requires Inv(s) && r !in s.begun && s'.e.world == s.e.world
    requires s'.begun.Keys == s.begun.Keys + {r} && forall q | q in s.begun :: s'.begun[q] == s.begun[q]
    requires forall q | q in s.e.runs :: q in s'.e.runs && s'.e.runs[q] == s.e.runs[q]
    ensures LogOk(s') && forall q | q in s.e.runs :: RunOk(s', q)
  {
    assert forall i, q | 0 <= i < |s.e.world.log| && q in s.begun :: Before(s', i, q) <==> Before(s, i, q);
    assert forall id, cause, q | q in s.begun :: CauseAfter(s', id, cause, q) <==> CauseAfter(s, id, cause, q);
    forall q | q in s.e.runs
      ensures RunOk(s', q)
    {
      assert RunOk(s, q);
    }
  }

  /** Steps of one run that leave the log alone. */
  lemma OtherRunsStay(s: System, s': System, r: RunId)
    requires Inv(s) && s'.begun == s.begun && s'.e.world == s.e.world && s'.e.tasks == s.e.tasks
    requires s'.e.runs.Keys == s.e.runs.Keys
    requires forall q | q in s.e.runs && q != r :: s'.e.runs[q] == s.e.runs[q]
    requires r in s'.e.runs ==> RunOk(s', r)
    ensures Inv(s')
  {
    SameLogStays(s, s');
  }

  lemma PickKeepsInv(s: System, s': System, r: RunId)
    requires Inv(s) && Step(s, s', Pick(r))
    ensures Inv(s')
  {
    PickKeepsRun(s, s', r);
    OtherRunsStay(s, s', r);
  }

  lemma PickKeepsRun(s: System, s': System, r: RunId)
    requires Inv(s) && Step(s, s', Pick(r))
    ensures RunOk(s', r)
  {
    var x, x' := s.e.runs[r], s'.e.runs[r];
    var t := x.todo[0];
    assert RunOk(s, r) && t in x.todo && forall y | y in x'.todo :: y in x.todo;
    PickIds(x, x');
    if x'.job.Some? {
      PickCause(s, r, t);
      SameLogCauses(s, s', t.id, x'.job.value.cause, r);
    }
  }

  lemma SameLogCauses(s: System, s': System, id: Id, cause: Cause, r: RunId)
    requires s'.begun == s.begun && s'.e.world.log == s.e.world.log
    ensures CauseAfter(s', id, cause, r) <==> CauseAfter(s, id, cause, r)
  {
    assert forall i | 0 <= i < |s.e.world.log| :: Before(s', i, r) <==> Before(s, i, r);
  }

  lemma PickIds(x: Run, x': Run)
    requires RunIds(x) && x.todo != [] && x.job.None? && x'.todo == x.todo[1..] && x'.updates == x.updates
    requires x'.job.Some? ==> x'.job.value.task == x.todo[0]
    ensures RunIds(x')
  {
    assert x.todo[0] in x.todo;
    forall t | t in x'.todo
      ensures t in x.todo && t.id != x.todo[0].id
    {
      var i :| 0 <= i < |x'.todo| && x'.todo[i] == t;
      assert x.todo[i + 1] == t;
    }
  }

  /** A due task's cause lies after every submit its snapshot could know. */
  lemma PickCause(s: System, r: RunId, t: Task)
    requires Inv(s) && r in s.e.runs && t in s.e.runs[r].todo
    requires var x := s.e.runs[r]; x.now.Some? ==> t.enabled && Due(t, x.now.value)
    ensures var x := s.e.runs[r]; var cause := if x.now.Some? then CauseOf(t, x.now.value) else ByHand;
      CauseAfter(s, t.id, cause, r) && CauseOk(cause, s.e.world.clock)
  {
    var x := s.e.runs[r];
    var log, b := s.e.world.log, s.begun[r];
    assert RunOk(s, r);
    if x.now.Some? {
      DueCauseOk(t, x.now.value, s.e.world.clock);
      forall i | 0 <= i < |log| && Before(s, i, r) && log[i].id == t.id
        ensures After(CauseOf(t, x.now.value), log[i].at)
      {
        assert log[..b.len][i] == log[i] && log[i] in log[..b.len] && Settled(log[i], t.id, b.open);
        assert log[i] in log && EventOk(log[i], s.e.world.clock);
        DueCause(t, x.now.value, log[i].at);
      }
    }
  }

  /** The log of a later state begins with this one's. */
  ghost predicate Grows(s: System, s': System) {
    && s'.begun == s.begun && s'.e.world.clock >= s.e.world.clock
    && |s.e.world.log| <= |s'.e.world.log| <= |s.e.world.log| + 1
    && s'.e.world.log[..|s.e.world.log|] == s.e.world.log
  }

  /** What a longer log leaves as it was: beginnings lie in its old part. */
  lemma GrowthStays(s: System, s': System)
    requires Grows(s, s') && forall q | q in s.begun :: s.begun[q].len <= |s.e.world.log|
    ensures forall i, q | 0 <= i < |s.e.world.log| :: Before(s', i, q) <==> Before(s, i, q)
    ensures forall i, q | |s.e.world.log| <= i < |s'.e.world.log| :: !Before(s', i, q)
    ensures forall id, cause, q :: CauseAfter(s', id, cause, q) <==> CauseAfter(s, id, cause, q)
    ensures forall q | q in s.begun :: s'.e.world.log[..s.begun[q].len] == s.e.world.log[..s.begun[q].len]
  {
    var log, log' := s.e.world.log, s'.e.world.log;
    assert forall i | 0 <= i < |log| :: log'[i] == log'[..|log|][i];
    forall id, cause, q
      ensures CauseAfter(s', id, cause, q) <==> CauseAfter(s, id, cause, q)
    {
      if CauseAfter(s', id, cause, q) {
        forall i | 0 <= i < |log| && Before(s, i, q) && log[i].id == id
          ensures After(cause, log[i].at)
        {
          assert Before(s', i, q);
        }
      }
    }
  }

  /** A submit appended by a job keeps the log in order. */
  lemma AppendKeepsLog(s: System, s': System, e: Event)
    requires LogOk(s) && Grows(s, s') && forall q | q in s.begun :: s.begun[q].len <= |s.e.world.log|
    requires s'.e.world.log == s.e.world.log + [e] && EventOk(e, s'.e.world.clock)
    requires e.Submitted? ==>
               e.run in s.begun && CauseAfter(s, e.id, e.cause, e.run) && (!e.cause.ByHand? ==> s.begun[e.run].tick)
    ensures LogOk(s')
  {
    GrowthStays(s, s');
    forall x | x in s'.e.world.log
      ensures EventOk(x, s'.e.world.clock)
      ensures x.Submitted? ==> x.run in s.begun && (!x.cause.ByHand? ==> s.begun[x.run].tick)
    {
      assert x in s.e.world.log || x == e;
      assert x in s.e.world.log ==> EventOk(x, s.e.world.clock);
    }
  }

  lemma SectionKeepsLog(s: System, s': System, r: RunId, round: Round)
    requires Inv(s) && Step(s, s', Section(r, round))
    ensures LogOk(s') && Grows(s, s')
    ensures forall e | e in s'.e.world.log && e !in s.e.world.log && e.Submitted? :: e.run == r
  {
    var j := s.e.runs[r].job.value;
    AdvanceLogs(j, s.e.world, round);
    assert RunOk(s, r);
    var log, log' := s.e.world.log, s'.e.world.log;
    if log' == log {
      assert log'[..|log|] == log;
      SameLogStays(s, s');
    } else {
      var e := log'[|log|];
      assert log' == log + [e] && log'[..|log|] == log;
      if e.Submitted? {
        CauseStays(j.cause, s.e.world.clock, s'.e.world.clock);
        SubmitOk(j.task.id, j.cause, s'.e.world.clock, r);
      }
      AppendKeepsLog(s, s', e);
    }
  }

  lemma CauseStays(cause: Cause, clock: Instant, later: Instant)
    requires CauseOk(cause, clock) && clock <= later
    ensures CauseOk(cause, later)
  {
  }

  /** The run that took a section. */
  lemma SectionKeepsRun(s: System, s': System, r: RunId, round: Round)
    requires Inv(s) && Step(s, s', Section(r, round)) && LogOk(s') && Grows(s, s')
    ensures RunOk(s', r)
  {
    var x, x' := s.e.runs[r], s'.e.runs[r];
    var j := x.job.value;
    AdvanceLogs(j, s.e.world, round);
    assert RunOk(s, r);
    GrowthStays(s, s');
    SectionKeepsRunLog(s, s', r, round);
    if x'.job.Some? {
      CauseStays(j.cause, s.e.world.clock, s'.e.world.clock);
      assert JobFine(s', x'.job.value, r);
    }
  }

  lemma SectionKeepsRunLog(s: System, s': System, r: RunId, round: Round)
    requires Inv(s) && Step(s, s', Section(r, round)) && LogOk(s')
    ensures RunLog(s'.e.runs[r], r, s'.e.world.log) && RunIds(s'.e.runs[r])
  {
    var x, x' := s.e.runs[r], s'.e.runs[r];
    var j := x.job.value;
    AdvanceLogs(j, s.e.world, round);
    assert RunOk(s, r);
    var log, log' := s.e.world.log, s'.e.world.log;
    forall e | e in log' && e.Submitted? && e.run == r
      ensures || (e.id in x'.updates && e.at <= x'.updates[e.id].lastRun)
              || (x'.job.Some? && x'.job.value.pc.Sent? && x'.job.value.task.id == e.id)
    {
      if e in log {
        assert EventOk(e, s.e.world.clock);
        assert (e.id in x.updates && e.at <= x.updates[e.id].lastRun) || (j.pc.Sent? && j.task.id == e.id);
      }
    }
  }

  lemma SectionKeepsInv(s: System, s': System, r: RunId, round: Round)
    requires Inv(s) && Step(s, s', Section(r, round))
    ensures Inv(s')
  {
    SectionKeepsLog(s, s', r, round);
    SectionKeepsRun(s, s', r, round);
    GrowthStays(s, s');
    forall q | q in s'.e.runs && q != r
      ensures RunOk(s', q)
    {
      assert RunOk(s, q) && s'.e.runs[q] == s.e.runs[q];
      OtherRunSteady(s, s', q, r);
    }
    forall t | t in s'.e.tasks
      ensures Knows(t, s'.e.world.log, s'.e.runs.Keys)
    {
      assert Knows(t, s.e.world.log, s.e.runs.Keys);
    }
  }

  lemma OtherRunSteady(s: System, s': System, q: RunId, r: RunId)
    requires Inv(s) && Grows(s, s') && q in s.e.runs && q in s'.e.runs && s'.e.runs[q] == s.e.runs[q] && q != r
    requires forall e | e in s'.e.world.log && e !in s.e.world.log && e.Submitted? :: e.run == r
    ensures RunOk(s', q)
  {
    assert RunOk(s, q);
    GrowthStays(s, s');
    var x := s.e.runs[q];
    if x.job.Some? {
      CauseStays(x.job.value.cause, s.e.world.clock, s'.e.world.clock);
      assert JobFine(s', x.job.value, q);
    }
  }

  /** Every entry knows the log once run r has merged into it. */
  lemma MergedKnows(s: System, r: RunId, t: Task)
    requires Inv(s) && Over(s.e, r) && MergeSound(s.e, r) && s.e.runs[r].updates != map[] && t in Base(s.e)
    ensures var u := s.e.runs[r].updates;
      Knows(if t.id in u then MergeOne(t, u[t.id]) else t, s.e.world.log, s.e.runs.Keys - {r})
  {
    var x, log := s.e.runs[r], s.e.world.log;
    assert RunOk(s, r) && Knows(t, log, s.e.runs.Keys);
    forall e | e in log && Settled(e, t.id, {}) && e.run == r
      ensures e.at > 0 && t.id in x.updates && e.at <= x.updates[t.id].lastRun
    {
      assert EventOk(e, s.e.world.clock);
    }
    if t.id in x.updates {
      MergeKnowsIff(t, x.updates[t.id], log, s.e.runs.Keys, r);
    } else {
      forall e | e in log && Settled(e, t.id, s.e.runs.Keys - {r})
        ensures Settled(e, t.id, s.e.runs.Keys)
      {
        assert Settled(e, t.id, {});
      }
    }
  }

  lemma MergeKeepsInv(s: System, s': System, r: RunId, saved: bool)
    requires Inv(s) && Step(s, s', Merge(r, saved)) && MergeSound(s.e, r)
    ensures Inv(s')
  {
    var u, log := s.e.runs[r].updates, s.e.world.log;
    assert RunOk(s, r);
    SameLogStays(s, s');
    if u != map[] {
      var base := Base(s.e);
      forall i | 0 <= i < |base|
        ensures Knows(s'.e.tasks[i], log, s'.e.runs.Keys)
      {
        MergedKnows(s, r, base[i]);
      }
    } else {
      forall t | t in s.e.tasks
        ensures Knows(t, log, s'.e.runs.Keys)
      {
        assert Knows(t, log, s.e.runs.Keys);
        assert forall e | e in log && e.Submitted? :: e.run != r;
      }
    }
  }

  lemma StepKeepsInv(s: System, s': System, m: Move)
    requires Inv(s) && Step(s, s', m) && Sound(s, m)
    ensures Inv(s')
  {
    match m
    case Wait(_) => WaitKeepsInv(s, s', m);
    case Edit(_) => WaitKeepsInv(s, s', m);
    case BeginTick(_) => BeginKeepsInv(s, s', m);
    case BeginOne(_, _) => BeginKeepsInv(s, s', m);
    case Pick(r) => PickKeepsInv(s, s', r);
    case Section(r, round) => SectionKeepsInv(s, s', r, round);
    case Merge(r, saved) => MergeKeepsInv(s, s', r, saved);
    case _ => InstallKeepsInv(s, s');
  }

  // ---- What every sound history gives ----

  /** Every installed list is sound, and the first one has distinct IDs. */
  ghost predicate SoundHistory(t: Trace) {
    && History(t) && DistinctIds(t.states[0].e.tasks)
    && forall k | 0 <= k < |t.moves| :: Sound(t.states[k], t.moves[k])
  }

  lemma {:induction false} HistoryKeepsInv(t: Trace, k: nat)
    requires SoundHistory(t) && k < |t.states|
    ensures Inv(t.states[k])
  {
    if k > 0 {
      HistoryKeepsInv(t, k - 1);
      assert StepAt(t, k - 1) && Sound(t.states[k - 1], t.moves[k - 1]);
      StepKeepsInv(t.states[k - 1], t.states[k], t.moves[k - 1]);
    }
  }

  /** A submit lies after every earlier submit of its task that was merged before
      its tick began: a later occurrence, or the interval on. */
  lemma SubmitsFollowMergedOnes(t: Trace, k: nat, i: nat, j: nat)
    requires SoundHistory(t) && k < |t.states| && i < |t.states[k].e.world.log| && j < |t.states[k].e.world.log|
    requires var log := t.states[k].e.world.log;
      log[j].Submitted? && Before(t.states[k], i, log[j].run) && log[i].id == log[j].id
    ensures var log := t.states[k].e.world.log; After(log[j].cause, log[i].at)
  {
    HistoryKeepsInv(t, k);
    assert CauseAfter(t.states[k], t.states[k].e.world.log[j].id, t.states[k].e.world.log[j].cause,
                      t.states[k].e.world.log[j].run);
  }
}
