/** The order of the submits ticks make, over all interleavings with manual runs,
    and the histories that need no condition on their merges. */
module HeartbeatOrder {
  import opened Wrappers
  import opened HeartbeatCalendar
  import opened HeartbeatRuns
  import opened HeartbeatHistory

  // ---- One tick at a time ----

  predicate TickEvent(s: System, i: nat)
    requires i < |s.e.world.log|
  {
    s.e.world.log[i].Submitted? && IsTick(s, s.e.world.log[i].run)
  }

  predicate NoneAfter(s: System, i: nat, q: RunId) {
    forall j | i < j < |s.e.world.log| && s.e.world.log[j].Submitted? :: s.e.world.log[j].run != q
  }

  /** A tick that began before another one's submit had merged by then. */
  ghost predicate TicksApart(s: System) {
    forall i, q | 0 <= i < |s.e.world.log| && TickEvent(s, i) && IsTick(s, q) && q != s.e.world.log[i].run ::
      s.begun[q].len <= i ==> q !in s.e.runs && NoneAfter(s, i, q)
  }

  /** No run submits twice for one ID. */
  ghost predicate OncePerRun(s: System) {
    forall i, j | 0 <= i < j < |s.e.world.log| && s.e.world.log[i].Submitted? && s.e.world.log[j].Submitted? ::
      s.e.world.log[i].run == s.e.world.log[j].run ==> s.e.world.log[i].id != s.e.world.log[j].id
  }

  /** No tick began while another was open. */
  ghost predicate BeginsApart(begun: map<RunId, Begin>) {
    forall r, q | r in begun && q in begun[r].open :: q in begun && !(begun[r].tick && begun[q].tick)
  }

  ghost predicate OneTick(s: System) {
    && (forall r, q | r in s.e.runs && q in s.e.runs && IsTick(s, r) && IsTick(s, q) :: r == q)
    && BeginsApart(s.begun)
  }

  ghost predicate TickInv(s: System) {
    OneTick(s) && TicksApart(s) && OncePerRun(s)
  }

  lemma BeginKeepsTicks(s: System, s': System, m: Move)
    requires Inv(s) && TickInv(s) && Step(s, s', m) && (m.BeginTick? || m.BeginOne?)
    ensures TickInv(s')
  {
    assert forall r | r in s.e.runs :: RunOk(s, r) && r in s.begun;
    BeginKeepsApart(s, s', m);
  }

  lemma BeginKeepsApart(s: System, s': System, m: Move)
    requires Inv(s) && TicksApart(s) && Step(s, s', m) && (m.BeginTick? || m.BeginOne?)
    ensures TicksApart(s')
  {
    var log := s.e.world.log;
    assert forall e | e in log && e.Submitted? :: e.run in s.begun;
    forall i, q | 0 <= i < |log| && TickEvent(s', i) && IsTick(s', q) && q != log[i].run
      ensures s'.begun[q].len <= i ==> q !in s'.e.runs && NoneAfter(s', i, q)
    {
      assert log[i] in log;
      if q != m.run {
        assert TickEvent(s, i) && IsTick(s, q);
        assert NoneAfter(s, i, q) ==> NoneAfter(s', i, q);
      }
    }
  }

  /** A section appends at most one submit, of an open run that has made none for
      that ID. */
  lemma SectionKeepsTicks(s: System, s': System, r: RunId, round: Round)
    requires Inv(s) && TickInv(s) && Step(s, s', Section(r, round))
    ensures TickInv(s')
  {
    var j := s.e.runs[r].job.value;
    AdvanceLogs(j, s.e.world, round);
    SectionKeepsLog(s, s', r, round);
    GrowthStays(s, s');
    assert RunOk(s, r) && s'.e.runs.Keys == s.e.runs.Keys;
    SectionKeepsOnce(s, s', r, round);
    SectionKeepsApart(s, s', r);
  }

  lemma SectionKeepsOnce(s: System, s': System, r: RunId, round: Round)
    requires Inv(s) && OncePerRun(s) && Step(s, s', Section(r, round)) && Grows(s, s')
    ensures OncePerRun(s')
  {
    var log, log' := s.e.world.log, s'.e.world.log;
    var j := s.e.runs[r].job.value;
    AdvanceLogs(j, s.e.world, round);
    assert RunOk(s, r);
    assert forall i | 0 <= i < |log| :: log'[i] == log'[..|log|][i] == log[i];
    if |log'| > |log| && log'[|log|].Submitted? {
      forall i | 0 <= i < |log| && log[i].Submitted? && log[i].run == r
        ensures log[i].id != j.task.id
      {
        assert log[i] in log;
      }
    }
  }

  lemma SectionKeepsApart(s: System, s': System, r: RunId)
    requires OneTick(s) && TicksApart(s) && Grows(s, s') && r in s.e.runs && s'.e.runs.Keys == s.e.runs.Keys
    requires |s'.e.world.log| > |s.e.world.log| && s'.e.world.log[|s.e.world.log|].Submitted? ==>
               s'.e.world.log[|s.e.world.log|].run == r
    ensures TicksApart(s')
  {
    var log, log' := s.e.world.log, s'.e.world.log;
    assert forall i | 0 <= i < |log| :: log'[i] == log'[..|log|][i] == log[i];
    forall i, q | 0 <= i < |log'| && TickEvent(s', i) && IsTick(s', q) && q != log'[i].run
      ensures s'.begun[q].len <= i ==> q !in s'.e.runs && NoneAfter(s', i, q)
    {
      if i < |log| {
        assert TickEvent(s, i) && IsTick(s, q);
        assert s.begun[q].len <= i ==> q !in s.e.runs && NoneAfter(s, i, q);
      } else {
        assert IsTick(s, r) && IsTick(s, q);
      }
    }
  }

  lemma StepKeepsTicks(s: System, s': System, m: Move)
    requires Inv(s) && TickInv(s) && Step(s, s', m)
    ensures TickInv(s')
  {
    match m
    case BeginTick(_) => BeginKeepsTicks(s, s', m);
    case BeginOne(_, _) => BeginKeepsTicks(s, s', m);
    case Section(r, round) => SectionKeepsTicks(s, s', r, round);
    case _ => SameTicks(s, s');
  }

  /** Steps that leave the log and the beginnings alone, and open no run. */
  lemma SameTicks(s: System, s': System)
    requires TickInv(s) && s'.begun == s.begun && s'.e.world.log == s.e.world.log && s'.e.runs.Keys <= s.e.runs.Keys
    ensures TickInv(s')
  {
    forall i, q | 0 <= i < |s'.e.world.log| && TickEvent(s', i) && IsTick(s', q) && q != s'.e.world.log[i].run
      ensures s'.begun[q].len <= i ==> q !in s'.e.runs && NoneAfter(s', i, q)
    {
      assert TickEvent(s, i) && IsTick(s, q);
      assert NoneAfter(s, i, q) ==> NoneAfter(s', i, q);
    }
  }

  lemma {:induction false} HistoryKeepsTicks(t: Trace, k: nat)
    requires SoundHistory(t) && k < |t.states|
    ensures Inv(t.states[k]) && TickInv(t.states[k])
  {
    HistoryKeepsInv(t, k);
    if k > 0 {
      HistoryKeepsTicks(t, k - 1);
      assert StepAt(t, k - 1);
      StepKeepsTicks(t.states[k - 1], t.states[k], t.moves[k - 1]);
    }
  }

  // ---- The order of tick submits ----

  /** Of two tick submits for one ID the earlier was merged before the later
      one's tick began. */
  lemma TicksFollowEachOther(t: Trace, k: nat, i: nat, j: nat)
    requires SoundHistory(t) && k < |t.states| && i < j < |t.states[k].e.world.log|
    requires TickEvent(t.states[k], i) && TickEvent(t.states[k], j)
    requires t.states[k].e.world.log[i].id == t.states[k].e.world.log[j].id
    ensures Before(t.states[k], i, t.states[k].e.world.log[j].run)
  {
    HistoryKeepsTicks(t, k);
    var s := t.states[k];
    var r, q := s.e.world.log[i].run, s.e.world.log[j].run;
    assert r != q && s.begun[q].len <= i ==> NoneAfter(s, i, q);
  }

  /** Two calendar submits of a task serve strictly increasing occurrences. */
  lemma CalendarRunsServeLaterOccurrences(t: Trace, k: nat, i: nat, j: nat)
    requires SoundHistory(t) && k < |t.states| && i < j < |t.states[k].e.world.log|
    requires var log := t.states[k].e.world.log;
      && log[i].Submitted? && log[j].Submitted? && log[i].id == log[j].id
      && log[i].cause.ByCalendar? && log[j].cause.ByCalendar?
    ensures var log := t.states[k].e.world.log; log[i].cause.occurrence < log[j].cause.occurrence
  {
    HistoryKeepsTicks(t, k);
    var log := t.states[k].e.world.log;
    assert log[i] in log && log[j] in log && EventOk(log[i], t.states[k].e.world.clock);
    TicksFollowEachOther(t, k, i, j);
    SubmitsFollowMergedOnes(t, k, i, j);
  }

  /** A tick submit under the plain interval comes at least that interval after
      any earlier tick submit of the task. */
  lemma IntervalRunsAreApart(t: Trace, k: nat, i: nat, j: nat)
    requires SoundHistory(t) && k < |t.states| && i < j < |t.states[k].e.world.log|
    requires var log := t.states[k].e.world.log;
      && log[i].Submitted? && log[j].Submitted? && log[i].id == log[j].id
      && !log[i].cause.ByHand? && log[j].cause.ByInterval?
    ensures var log := t.states[k].e.world.log;
      && FromMillis(log[i].at) + log[j].cause.every <= log[j].cause.now
      && FromMillis(log[i].at) + log[j].cause.every < FromMillis(log[j].at + 1)
  {
    HistoryKeepsTicks(t, k);
    var log := t.states[k].e.world.log;
    assert log[i] in log && log[j] in log && EventOk(log[j], t.states[k].e.world.clock);
    TicksFollowEachOther(t, k, i, j);
    SubmitsFollowMergedOnes(t, k, i, j);
  }

  // ---- One run at a time, no edits, no failed save ----

  predicate QuietMove(m: Move) {
    match m
    case Edit(_) => false
    case Replace(_, _) => false
    case Merge(_, saved) => saved
    case _ => true
  }

  predicate Alone(s: System, m: Move) {
    m.BeginTick? || m.BeginOne? ==> s.e.runs == map[]
  }

  /** The engine starts from its file, nobody edits, every save succeeds, and
      runs come one after another. */
  ghost predicate QuietSequential(t: Trace) {
    && History(t) && DistinctIds(t.states[0].e.tasks)
    && t.states[0].e.file == Listed(t.states[0].e.tasks) && !t.states[0].e.stale
    && forall k | 0 <= k < |t.moves| :: QuietMove(t.moves[k]) && Alone(t.states[k], t.moves[k])
  }

  /** The only open run: every later submit is its own, and its updates know the
      whole log. */
  ghost predicate OnlyRun(s: System, r: RunId)
    requires r in s.e.runs && RunOk(s, r)
  {
    var x, log := s.e.runs[r], s.e.world.log;
    && s.e.runs.Keys == {r} && s.begun[r].open == {}
    && (forall i | s.begun[r].len <= i < |log| && log[i].Submitted? :: log[i].run == r)
    && (forall id | id in x.updates :: x.updates[id].id == id && Knows(x.updates[id], log, {}))
    && (x.job.Some? ==> Knows(x.job.value.task, log[..s.begun[r].len], {}))
  }

  ghost predicate QuietInv(s: System) {
    && Inv(s) && s.e.file == Listed(s.e.tasks) && !s.e.stale
    && forall r | r in s.e.runs :: RunOk(s, r) && OnlyRun(s, r)
  }

  /** The task a job ends with knows the whole log. */
  lemma FinishedKnows(s: System, s': System, r: RunId, round: Round)
    requires QuietInv(s) && Step(s, s', Section(r, round)) && Inv(s') && s'.e.runs[r].job.None?
    ensures var j := s.e.runs[r].job.value;
      var u := s'.e.runs[r].updates;
      j.task.id in u && u[j.task.id].id == j.task.id && Knows(u[j.task.id], s'.e.world.log, {})
  {
    var j, log := s.e.runs[r].job.value, s.e.world.log;
    AdvanceLogs(j, s.e.world, round);
    assert s'.e.world.log == log;
    forall e | e in log && Settled(e, j.task.id, {})
      ensures e.at <= s'.e.runs[r].updates[j.task.id].lastRun
    {
      assert EventOk(e, s.e.world.clock) && Millis(s.e.world.clock) <= Millis(s'.e.world.clock);
      if !j.pc.Sent? {
        UnsentKnows(s, r, e);
      }
    }
  }

  /** A job that has not submitted: every submit of its task was in the log its
      run began with. */
  lemma UnsentKnows(s: System, r: RunId, e: Event)
    requires QuietInv(s) && InJob(s.e, r) && !s.e.runs[r].job.value.pc.Sent?
    requires e in s.e.world.log && Settled(e, s.e.runs[r].job.value.task.id, {})
    ensures e.at <= s.e.runs[r].job.value.task.lastRun
  {
    var log, len := s.e.world.log, s.begun[r].len;
    assert RunOk(s, r) && OnlyRun(s, r);
    var i :| 0 <= i < |log| && log[i] == e;
    if i < len {
      assert log[..len][i] == e && e in log[..len];
    }
  }

  lemma SectionKeepsQuiet(s: System, s': System, r: RunId, round: Round)
    requires QuietInv(s) && Step(s, s', Section(r, round))
    ensures QuietInv(s')
  {
    SectionKeepsInv(s, s', r, round);
    assert RunOk(s, r) && OnlyRun(s, r) && RunOk(s', r);
    OldUpdatesKnow(s, s', r, round);
    OwnEvents(s, s', r, round);
    AdvanceLogs(s.e.runs[r].job.value, s.e.world, round);
    if s'.e.runs[r].job.None? {
      FinishedKnows(s, s', r, round);
    }
    assert OnlyRun(s', r);
  }

  lemma OwnEvents(s: System, s': System, r: RunId, round: Round)
    requires QuietInv(s) && Step(s, s', Section(r, round))
    ensures var log' := s'.e.world.log; var len := s.begun[r].len;
      && len <= |s.e.world.log| <= |log'| && log'[..len] == s.e.world.log[..len]
      && forall i | len <= i < |log'| && log'[i].Submitted? :: log'[i].run == r
  {
    SectionKeepsLog(s, s', r, round);
    GrowthStays(s, s');
    AdvanceLogs(s.e.runs[r].job.value, s.e.world, round);
    assert RunOk(s, r) && OnlyRun(s, r);
    var log, log' := s.e.world.log, s'.e.world.log;
    assert forall i | 0 <= i < |log| :: log'[i] == log'[..|log|][i] == log[i];
  }

  lemma OldUpdatesKnow(s: System, s': System, r: RunId, round: Round)
    requires QuietInv(s) && Step(s, s', Section(r, round))
    ensures forall id | id in s.e.runs[r].updates :: Knows(s.e.runs[r].updates[id], s'.e.world.log, {})
  {
    var x := s.e.runs[r];
    AdvanceLogs(x.job.value, s.e.world, round);
    assert RunOk(s, r) && OnlyRun(s, r);
    forall id | id in x.updates
      ensures Knows(x.updates[id], s'.e.world.log, {})
    {
      assert Knows(x.updates[id], s.e.world.log, {}) && id != x.job.value.task.id;
      OldUpdateKnows(s.e.world.log, s'.e.world.log, x.updates[id], x.job.value.task.id);
    }
  }

  lemma OldUpdateKnows(log: seq<Event>, log': seq<Event>, u: Task, id: Id)
    requires Knows(u, log, {}) && u.id != id
    requires forall e | e in log' && e !in log && e.Submitted? :: e.id == id
    ensures Knows(u, log', {})
  {
  }

  lemma PickKeepsQuiet(s: System, s': System, r: RunId)
    requires QuietInv(s) && Step(s, s', Pick(r))
    ensures QuietInv(s')
  {
    PickKeepsInv(s, s', r);
    assert RunOk(s, r) && OnlyRun(s, r) && RunOk(s', r);
    assert s.e.runs[r].todo[0] in s.e.runs[r].todo;
    assert OnlyRun(s', r);
  }

  lemma BeginKeepsQuiet(s: System, s': System, m: Move)
    requires QuietInv(s) && (m.BeginTick? || m.BeginOne?) && Step(s, s', m) && Alone(s, m)
    ensures QuietInv(s')
  {
    BeginKeepsInv(s, s', m);
    assert RunOk(s', m.run);
    assert OnlyRun(s', m.run);
  }

  lemma QuietMergeIsSound(s: System, r: RunId)
    requires QuietInv(s) && Over(s.e, r)
    ensures MergeSound(s.e, r)
  {
    var u, log := s.e.runs[r].updates, s.e.world.log;
    assert RunOk(s, r) && OnlyRun(s, r);
    forall t | t in Base(s.e) && t.id in u
      ensures Knows(t.(lastRun := u[t.id].lastRun), log, s.e.runs.Keys - {r})
    {
      assert Knows(u[t.id], log, {});
    }
  }

  lemma QuietStepIsSound(s: System, s': System, m: Move)
    requires QuietInv(s) && QuietMove(m) && Alone(s, m) && Step(s, s', m)
    ensures Sound(s, m) && QuietInv(s')
  {
    match m
    case BeginTick(_) => BeginKeepsQuiet(s, s', m);
    case BeginOne(_, _) => BeginKeepsQuiet(s, s', m);
    case Pick(r) => PickKeepsQuiet(s, s', r);
    case Section(r, round) => SectionKeepsQuiet(s, s', r, round);
    case Merge(r, saved) =>
      QuietMergeIsSound(s, r);
      MergeKeepsInv(s, s', r, saved);
      assert RunOk(s, r) && OnlyRun(s, r) && s'.e.runs == map[];
    case Edit(_) =>
    case Replace(_, _) =>
    case _ => InstallKeepsQuiet(s, s', m);
  }

  /** The file's list is the one in memory, so installing it changes nothing. */
  lemma InstallKeepsQuiet(s: System, s': System, m: Move)
    requires QuietInv(s) && (m.Wait? || m.Adopt? || m.Reload?) && Step(s, s', m)
    ensures Sound(s, m) && QuietInv(s')
  {
    StepKeepsInv(s, s', m);
    SameRunsQuiet(s, s');
  }

  lemma SameRunsQuiet(s: System, s': System)
    requires QuietInv(s) && Inv(s') && s'.begun == s.begun && s'.e.runs == s.e.runs && s'.e.world.log == s.e.world.log
    requires s'.e.file == Listed(s'.e.tasks) && !s'.e.stale
    ensures QuietInv(s')
  {
    forall r | r in s'.e.runs
      ensures RunOk(s', r) && OnlyRun(s', r)
    {
      assert RunOk(s, r) && OnlyRun(s, r) && RunOk(s', r);
    }
  }

  /** The file always holds the list in memory. */
  lemma {:induction false} FileStaysCurrent(t: Trace, k: nat)
    requires QuietSequential(t) && k < |t.states|
    ensures QuietInv(t.states[k])
  {
    if k > 0 {
      FileStaysCurrent(t, k - 1);
      assert StepAt(t, k - 1);
      QuietStepIsSound(t.states[k - 1], t.states[k], t.moves[k - 1]);
    }
  }

  /** Such a history is sound, so the ordering results hold of it. */
  lemma QuietSequentialIsSound(t: Trace)
    requires QuietSequential(t)
    ensures SoundHistory(t)
  {
    forall k | 0 <= k < |t.moves|
      ensures Sound(t.states[k], t.moves[k])
    {
      FileStaysCurrent(t, k);
      assert StepAt(t, k);
      QuietStepIsSound(t.states[k], t.states[k + 1], t.moves[k]);
    }
  }

  // ---- Any overlap, when no merge moves a last run back ----

  /** What a merge could check on its own: no update is behind the entry it
      changes. */
  predicate Forward(base: seq<Task>, u: Updates) {
    forall t | t in base && t.id in u :: u[t.id].lastRun == 0 || u[t.id].lastRun >= t.lastRun
  }

  predicate ForwardMove(s: System, m: Move) {
    m.Merge? && m.run in s.e.runs ==> Forward(Base(s.e), s.e.runs[m.run].updates)
  }

  lemma ForwardMergeIsSound(s: System, r: RunId)
    requires Inv(s) && Over(s.e, r) && ListOk(Base(s.e), s.e.world.log, s.e.runs.Keys)
    requires Forward(Base(s.e), s.e.runs[r].updates)
    ensures MergeSound(s.e, r)
  {
    var u, log, open := s.e.runs[r].updates, s.e.world.log, s.e.runs.Keys;
    assert RunOk(s, r);
    forall t | t in Base(s.e) && t.id in u && u[t.id].lastRun != 0
      ensures Knows(t.(lastRun := u[t.id].lastRun), log, open - {r})
    {
      assert Knows(t, log, open);
      forall e | e in log && Settled(e, t.id, {}) && e.run == r
        ensures e.at <= u[t.id].lastRun && e.at > 0
      {
        assert EventOk(e, s.e.world.clock);
      }
      ForwardMergeKnows(t, u[t.id], log, open, r);
    }
  }

  /** Runs overlap as they like; nobody edits, saves succeed, merges are forward. */
  ghost predicate QuietForward(t: Trace) {
    && History(t) && DistinctIds(t.states[0].e.tasks)
    && t.states[0].e.file == Listed(t.states[0].e.tasks) && !t.states[0].e.stale
    && forall k | 0 <= k < |t.moves| :: QuietMove(t.moves[k]) && ForwardMove(t.states[k], t.moves[k])
  }

  ghost predicate FileCurrent(s: System) {
    Inv(s) && s.e.file == Listed(s.e.tasks) && !s.e.stale
  }

  lemma ForwardStepIsSound(s: System, s': System, m: Move)
    requires FileCurrent(s) && QuietMove(m) && ForwardMove(s, m) && Step(s, s', m)
    ensures Sound(s, m) && FileCurrent(s')
  {
    if m.Merge? {
      ForwardMergeIsSound(s, m.run);
    }
    StepKeepsInv(s, s', m);
  }

  lemma {:induction false} ForwardKeepsFile(t: Trace, k: nat)
    requires QuietForward(t) && k < |t.states|
    ensures FileCurrent(t.states[k])
  {
    if k > 0 {
      ForwardKeepsFile(t, k - 1);
      assert StepAt(t, k - 1);
      ForwardStepIsSound(t.states[k - 1], t.states[k], t.moves[k - 1]);
    }
  }

  /** Such a history is sound, whatever overlaps in it. */
  lemma QuietForwardIsSound(t: Trace)
    requires QuietForward(t)
    ensures SoundHistory(t)
  {
    forall k | 0 <= k < |t.moves|
      ensures Sound(t.states[k], t.moves[k])
    {
      ForwardKeepsFile(t, k);
      assert StepAt(t, k);
      ForwardStepIsSound(t.states[k], t.states[k + 1], t.moves[k]);
    }
  }
}
