/** When an occurrence already served can be served again: the exact condition on
    the file, over every quiet continuation, and two histories that meet it. */
module HeartbeatRepeats {
  import opened Wrappers
  import opened HeartbeatCalendar
  import opened HeartbeatRuns
  import opened HeartbeatHistory
  import opened HeartbeatOrder

  /** e served occurrence o of task id, or a later one. */
  predicate ServedBy(e: Event, id: Id, o: Instant) {
    e.Submitted? && e.id == id && e.cause.ByCalendar? && o <= e.cause.occurrence
  }

  predicate Served(log: seq<Event>, id: Id, o: Instant) {
    exists e | e in log :: ServedBy(e, id, o)
  }

  /** At this instant the task is due for an occurrence already served. */
  predicate DueAgain(t: Task, now: Instant, log: seq<Event>) {
    t.enabled && Due(t, now) && ScheduledAt(t, now).Some? && Served(log, t.id, ScheduledAt(t, now).value)
  }

  /** Now or later, no task of the list is due for an occurrence already served. */
  ghost predicate NoneDueAgain(tasks: seq<Task>, clock: Instant, log: seq<Event>) {
    forall t, now | t in tasks && clock <= now :: !DueAgain(t, now, log)
  }

  /** Since `log`, a tick served an occurrence already served in it. */
  ghost predicate ServesAgain(log: seq<Event>, later: seq<Event>) {
    exists j | |log| <= j < |later| :: RepeatAt(log, later, j)
  }

  predicate RepeatAt(log: seq<Event>, later: seq<Event>, j: nat)
    requires j < |later|
  {
    later[j].Submitted? && later[j].cause.ByCalendar? && Served(log, later[j].id, later[j].cause.occurrence)
  }

  /** Nobody edits, saves succeed, no merge moves a last run back; runs overlap
      as they like. */
  ghost predicate QuietFrom(u: Trace, k: nat)
    requires |u.states| == |u.moves| + 1
  {
    forall i | k <= i < |u.moves| :: QuietMove(u.moves[i]) && ForwardMove(u.states[i], u.moves[i])
  }

  function Last(u: Trace): System
    requires |u.states| > 0
  {
    u.states[|u.states| - 1]
  }

  // ---- Nothing due again: every continuation is safe ----

  /** Up to its topic, t is an entry of the list. */
  predicate From(t: Task, file: seq<Task>) {
    exists f | f in file :: t == f.(topic := t.topic)
  }

  /** t knows every submit of the log, or is an entry of the file. */
  ghost predicate Safe(t: Task, file: seq<Task>, log: seq<Event>) {
    Knows(t, log, {}) || From(t, file)
  }

  /** A cause that serves nothing already served. */
  predicate Fresh(cause: Cause, id: Id, log: seq<Event>) {
    cause.ByCalendar? ==> !Served(log, id, cause.occurrence)
  }

  ghost predicate RunSafe(x: Run, file: seq<Task>, log: seq<Event>, clock: Instant) {
    && (forall t | t in x.todo :: Safe(t, file, log))
    && (forall id | id in x.updates :: x.updates[id].id == id && Safe(x.updates[id], file, log))
    && (x.job.Some? ==> Safe(x.job.value.task, file, log) && Fresh(x.job.value.cause, x.job.value.task.id, log))
    && (x.now.Some? ==> clock <= x.now.value)
  }

  ghost predicate StateSafe(s: System, file: seq<Task>, log: seq<Event>, clock: Instant) {
    && clock <= s.e.world.clock && log <= s.e.world.log
    && (forall t | t in s.e.tasks :: Safe(t, file, log))
    && (forall t | t in FileTasks(s.e.file) :: Safe(t, file, log))
    && (forall r | r in s.e.runs :: RunSafe(s.e.runs[r], file, log, clock))
    && !ServesAgain(log, s.e.world.log)
  }

  /** What the file and the log are assumed to be at the start. */
  ghost predicate Basis(file: seq<Task>, log: seq<Event>, clock: Instant) {
    DistinctIds(file) && (forall e | e in log :: EventOk(e, clock)) && NoneDueAgain(file, clock, log)
  }

  lemma SafeCause(t: Task, file: seq<Task>, log: seq<Event>, clock: Instant, now: Instant)
    requires Basis(file, log, clock) && Safe(t, file, log) && t.enabled && Due(t, now) && clock <= now
    ensures Fresh(CauseOf(t, now), t.id, log)
  {
    if Knows(t, log, {}) {
      forall e | e in log && Settled(e, t.id, {})
        ensures EventOk(e, clock) && After(CauseOf(t, now), e.at)
      {
        assert EventOk(e, clock);
        DueCause(t, now, e.at);
      }
      assert forall e | e in log && e.Submitted? && e.id == t.id :: Settled(e, t.id, {});
    } else {
      var f :| f in file && t == f.(topic := t.topic);
      assert !DueAgain(f, now, log);
    }
  }

  /** Merging a safe update into a safe entry, forward, leaves it safe. */
  lemma SafeMerge(t: Task, u: Task, file: seq<Task>, log: seq<Event>, clock: Instant)
    requires Basis(file, log, clock) && Safe(t, file, log) && Safe(u, file, log) && t.id == u.id
    requires u.lastRun == 0 || u.lastRun >= t.lastRun
    ensures Safe(MergeOne(t, u), file, log)
  {
    if Knows(t, log, {}) || Knows(u, log, {}) {
      forall e | e in log && Settled(e, t.id, {})
        ensures e.at <= MergeOne(t, u).lastRun
      {
        assert EventOk(e, clock);
      }
    } else {
      var f :| f in file && t == f.(topic := t.topic);
      var g :| g in file && u == g.(topic := u.topic);
      assert f == g;
      assert MergeOne(t, u) == f.(topic := MergeOne(t, u).topic);
    }
  }

  lemma SafeStamp(t: Task, file: seq<Task>, log: seq<Event>, clock: Instant, later: Instant)
    requires Basis(file, log, clock) && clock <= later && t.lastRun == Millis(later)
    ensures Safe(t, file, log)
  {
    forall e | e in log && Settled(e, t.id, {})
      ensures e.at <= t.lastRun
    {
      assert EventOk(e, clock);
    }
  }

  lemma PickStaysSafe(s: System, s': System, r: RunId, file: seq<Task>, log: seq<Event>, clock: Instant)
    requires Basis(file, log, clock) && StateSafe(s, file, log, clock) && Step(s, s', Pick(r))
    ensures StateSafe(s', file, log, clock)
  {
    var x := s.e.runs[r];
    var t := x.todo[0];
    assert RunSafe(x, file, log, clock) && t in x.todo;
    if x.now.Some? && t.enabled && Due(t, x.now.value) {
      SafeCause(t, file, log, clock, x.now.value);
    }
    assert RunSafe(s'.e.runs[r], file, log, clock);
  }

  lemma SectionStaysSafe(s: System, s': System, r: RunId, round: Round,
                         file: seq<Task>, log: seq<Event>, clock: Instant)
    requires Basis(file, log, clock) && StateSafe(s, file, log, clock) && Step(s, s', Section(r, round))
    ensures StateSafe(s', file, log, clock)
  {
    var x := s.e.runs[r];
    var j := x.job.value;
    AdvanceLogs(j, s.e.world, round);
    assert RunSafe(x, file, log, clock);
    SectionKeepsTaskSafe(s, r, round, file, log, clock);
    assert RunSafe(s'.e.runs[r], file, log, clock);
    assert forall q | q in s'.e.runs && q != r :: s'.e.runs[q] == s.e.runs[q];
    SectionServesNothingAgain(s, s', r, round, file, log, clock);
  }

  lemma SectionKeepsTaskSafe(s: System, r: RunId, round: Round, file: seq<Task>, log: seq<Event>, clock: Instant)
    requires Basis(file, log, clock) && clock <= s.e.world.clock && InJob(s.e, r)
    requires Safe(s.e.runs[r].job.value.task, file, log)
    ensures Safe(Advance(s.e.runs[r].job.value, s.e.world, round).0.task, file, log)
  {
    var j := s.e.runs[r].job.value;
    var (j', w') := Advance(j, s.e.world, round);
    AdvanceLogs(j, s.e.world, round);
    if j'.task.lastRun == Millis(w'.clock) {
      SafeStamp(j'.task, file, log, clock, w'.clock);
    } else {
      assert j'.task == j.task.(topic := j'.task.topic);
      if !Knows(j.task, log, {}) {
        var f :| f in file && j.task == f.(topic := j.task.topic);
        assert j'.task == f.(topic := j'.task.topic);
      }
    }
  }

  lemma SectionServesNothingAgain(s: System, s': System, r: RunId, round: Round,
                                  file: seq<Task>, log: seq<Event>, clock: Instant)
    requires StateSafe(s, file, log, clock) && Step(s, s', Section(r, round))
    ensures log <= s'.e.world.log && !ServesAgain(log, s'.e.world.log)
  {
    var j := s.e.runs[r].job.value;
    AdvanceLogs(j, s.e.world, round);
    assert RunSafe(s.e.runs[r], file, log, clock);
    var old', new' := s.e.world.log, s'.e.world.log;
    forall k | |log| <= k < |new'|
      ensures !RepeatAt(log, new', k)
    {
      if k < |old'| {
        assert !RepeatAt(log, old', k) && new'[k] == old'[k];
      }
    }
  }

  lemma MergeStaysSafe(s: System, s': System, r: RunId, saved: bool, file: seq<Task>, log: seq<Event>, clock: Instant)
    requires Basis(file, log, clock) && StateSafe(s, file, log, clock) && Step(s, s', Merge(r, saved))
    requires Forward(Base(s.e), s.e.runs[r].updates)
    ensures StateSafe(s', file, log, clock)
  {
    var u, base := s.e.runs[r].updates, Base(s.e);
    assert RunSafe(s.e.runs[r], file, log, clock);
    if u != map[] {
      forall i | 0 <= i < |base|
        ensures Safe(s'.e.tasks[i], file, log)
      {
        assert base[i] in base;
        if base[i].id in u {
          SafeMerge(base[i], u[base[i].id], file, log, clock);
        }
      }
    }
  }

  lemma StepStaysSafe(s: System, s': System, m: Move, file: seq<Task>, log: seq<Event>, clock: Instant)
    requires Basis(file, log, clock) && StateSafe(s, file, log, clock)
    requires Step(s, s', m) && QuietMove(m) && ForwardMove(s, m)
    ensures StateSafe(s', file, log, clock)
  {
    match m
    case Pick(r) => PickStaysSafe(s, s', r, file, log, clock);
    case Section(r, round) => SectionStaysSafe(s, s', r, round, file, log, clock);
    case Merge(r, saved) => MergeStaysSafe(s, s', r, saved, file, log, clock);
    case BeginOne(r, id) =>
      var i := IndexOf(s.e.tasks, id);
      assert i < |s.e.tasks| ==> s.e.tasks[i] in s.e.tasks;
    case _ =>
  }

  lemma {:induction false} PathStaysSafe(u: Trace, s: System, k: nat, file: seq<Task>, log: seq<Event>, clock: Instant)
    requires Path(u, s) && QuietFrom(u, 0) && k < |u.states|
    requires Basis(file, log, clock) && StateSafe(s, file, log, clock)
    ensures StateSafe(u.states[k], file, log, clock)
  {
    if k > 0 {
      PathStaysSafe(u, s, k - 1, file, log, clock);
      assert StepAt(u, k - 1);
      StepStaysSafe(u.states[k - 1], u.states[k], u.moves[k - 1], file, log, clock);
    }
  }

  // ---- Something due again: a continuation serves it ----

  /** A path grows by a quiet step. */
  lemma Grown(u: Trace, from: System, k: nat, s: System, m: Move) returns (u': Trace)
    requires Path(u, from) && k <= |u.moves| && QuietFrom(u, k)
    requires Step(Last(u), s, m) && QuietMove(m) && !m.Merge?
    ensures Path(u', from) && k <= |u'.moves| && QuietFrom(u', k) && Last(u') == s && Extends(u, u')
  {
    u' := PathGrown(u, from, s, m);
    forall i | k <= i < |u'.moves|
      ensures QuietMove(u'.moves[i]) && ForwardMove(u'.states[i], u'.moves[i])
    {
      if i < |u.moves| {
        assert QuietMove(u.moves[i]) && ForwardMove(u.states[i], u.moves[i]);
      }
    }
  }

  ghost predicate Extends(u: Trace, u': Trace) {
    u.states <= u'.states && u.moves <= u'.moves
  }

  lemma PathGrown(u: Trace, from: System, s: System, m: Move) returns (u': Trace)
    requires Path(u, from) && Step(Last(u), s, m)
    ensures Path(u', from) && u'.states == u.states + [s] && u'.moves == u.moves + [m]
  {
    u' := Trace(u.states + [s], u.moves + [m]);
    forall k | 0 <= k < |u'.moves|
      ensures StepAt(u', k)
    {
      assert k < |u.moves| ==> StepAt(u, k);
    }
  }

  /** A path that a tick r is on, alone, about to look at its next task. */
  ghost predicate Ticking(u: Trace, from: System, k: nat, r: RunId, todo: seq<Task>, now: Instant) {
    && Path(u, from) && k <= |u.moves| && QuietFrom(u, k)
    && Last(u).e.runs.Keys == {r} && Last(u).e.runs[r].todo == todo && Last(u).e.runs[r].job.None?
    && Last(u).e.runs[r].now == Some(now)
  }

  /** Nothing works: no topic, no tab. */
  const NO_LUCK := Round(None, false, NotReady, false, 0)

  /** Everything works. */
  const LUCK := Round(Some("topic"), true, Idle, true, 0)

  /** The tick passes over its next task: it is not due, or its job fails. */
  lemma PassOne(u: Trace, from: System, k: nat, r: RunId, todo: seq<Task>, now: Instant) returns (u': Trace)
    requires Ticking(u, from, k, r, todo, now) && todo != []
    ensures Ticking(u', from, k, r, todo[1..], now) && Extends(u, u') && Last(u').e.world.log == Last(u).e.world.log
  {
    var s := Last(u);
    var p := s.(e := Picked(s.e, r));
    u' := Grown(u, from, k, p, Pick(r));
    if p.e.runs[r].job.Some? {
      u' := FailJob(u', from, k, r, p.e.runs[r]);
    }
  }

  /** A job that has just begun fails in two sections. */
  lemma FailJob(u: Trace, from: System, k: nat, r: RunId, x: Run) returns (u': Trace)
    requires Path(u, from) && k <= |u.moves| && QuietFrom(u, k)
    requires Last(u).e.runs.Keys == {r} && Last(u).e.runs[r] == x && x.job.Some? && x.job.value.pc.Entered?
    ensures Path(u', from) && k <= |u'.moves| && QuietFrom(u', k) && Extends(u, u')
    ensures Last(u').e.runs.Keys == {r} && Last(u').e.runs[r] == x.(updates := Last(u').e.runs[r].updates, job := None)
    ensures Last(u').e.world.log == Last(u).e.world.log
  {
    var s := Last(u);
    var q := s.(e := Stepped(s.e, r, NO_LUCK));
    u' := Grown(u, from, k, q, Section(r, NO_LUCK));
    u' := Grown(u', from, k, q.(e := Stepped(q.e, r, NO_LUCK)), Section(r, NO_LUCK));
  }

  lemma {:induction false} PassAll(u: Trace, from: System, k: nat, r: RunId, todo: seq<Task>, n: nat, now: Instant)
    returns (u': Trace)
    requires Ticking(u, from, k, r, todo, now) && n <= |todo|
    ensures Ticking(u', from, k, r, todo[n..], now) && Extends(u, u') && Last(u').e.world.log == Last(u).e.world.log
    decreases n
  {
    u' := u;
    if n > 0 {
      u' := PassOne(u, from, k, r, todo, now);
      u' := PassAll(u', from, k, r, todo[1..], n - 1, now);
      assert todo[1..][n - 1..] == todo[n..];
    } else {
      assert todo[0..] == todo;
    }
  }

  /** With everything working a job gets to its submit. */
  lemma {:induction false} DriveToSubmit(u: Trace, from: System, k: nat, r: RunId, j: Job) returns (u': Trace)
    requires Path(u, from) && k <= |u.moves| && QuietFrom(u, k)
    requires r in Last(u).e.runs && Last(u).e.runs[r].job == Some(j) && JobOk(j, Last(u).e.world)
    requires !j.pc.Sent? && !j.pc.Finished?
    ensures Path(u', from) && k <= |u'.moves| && QuietFrom(u', k) && Extends(u, u')
    ensures var log, log' := Last(u).e.world.log, Last(u').e.world.log;
      && log <= log' && |log| < |log'|
      && var e := log'[|log'| - 1]; e.Submitted? && e.id == j.task.id && e.cause == j.cause
    decreases if Clears(j, Last(u).e.world) then 1 else 0, Rank(j.pc)
  {
    var s := Last(u);
    var j', w' := Advanced(j, s.e.world, (n: nat) => LUCK);
    AdvanceLogs(j, s.e.world, LUCK);
    u' := Grown(u, from, k, s.(e := Stepped(s.e, r, LUCK)), Section(r, LUCK));
    if !j'.pc.Sent? {
      LuckGoesOn(j, s.e.world);
      u' := DriveToSubmit(u', from, k, r, j');
    }
  }

  lemma LuckGoesOn(j: Job, w: World)
    requires JobOk(j, w) && !j.pc.Sent? && !j.pc.Finished?
    ensures var (j', w') := Advance(j, w, LUCK);
      && !j'.pc.Finished?
      && (Clears(j', w') ==> Clears(j, w)) && (Clears(j', w') == Clears(j, w) ==> Rank(j'.pc) < Rank(j.pc))
  {
  }

  /** From a state with no open run, if an entry of the file is due again now or
      later, then a quiet continuation serves that occurrence again: the file is
      reloaded, the clock moves there, and a tick gets to the entry. */
  lemma RepeatRun(u: Trace, from: System, f: Task, now: Instant) returns (u': Trace)
    requires Path(u, from) && Last(u).e.runs == map[]
    requires f in FileTasks(Last(u).e.file) && Last(u).e.world.clock <= now && DueAgain(f, now, Last(u).e.world.log)
    ensures Path(u', from) && |u.moves| <= |u'.moves| && QuietFrom(u', |u.moves|) && Extends(u, u')
    ensures Last(u).e.world.log <= Last(u').e.world.log && ServesAgain(Last(u).e.world.log, Last(u').e.world.log)
  {
    var log, k := Last(u).e.world.log, |u.moves|;
    var todo := FileTasks(Last(u).e.file);
    var n :| 0 <= n < |todo| && todo[n] == f;
    var r: RunId;
    u', r := TickBegins(u, from, now);
    u' := PassAll(u', from, k, r, todo, n, now);
    u' := TickReaches(u', from, k, r, todo[n..], now);
    assert RepeatAt(log, Last(u').e.world.log, |Last(u').e.world.log| - 1);
  }

  /** The file is reloaded, the clock moves on, and a tick begins. */
  lemma TickBegins(u: Trace, from: System, now: Instant) returns (u': Trace, r: RunId)
    requires Path(u, from) && Last(u).e.runs == map[] && Last(u).e.world.clock <= now
    ensures Ticking(u', from, |u.moves|, r, FileTasks(Last(u).e.file), now)
    ensures Extends(u, u') && Last(u').e.world.log == Last(u).e.world.log
  {
    var s, k := Last(u), |u.moves|;
    var s1 := s.(e := Reloaded(s.e));
    u' := Grown(u, from, k, s1, Reload);
    var d: nat := now - s.e.world.clock;
    var s2 := s1.(e := s1.e.(world := s1.e.world.(clock := now)));
    u' := Grown(u', from, k, s2, Wait(d));
    r := NewRun(s.begun);
    u' := Grown(u', from, k, System(BeganTick(s2.e, r), NewBegin(s2, r, true)), BeginTick(r));
  }

  /** The tick's next task is due: its job gets to its submit. */
  lemma TickReaches(u: Trace, from: System, k: nat, r: RunId, todo: seq<Task>, now: Instant) returns (u': Trace)
    requires Ticking(u, from, k, r, todo, now) && todo != [] && todo[0].enabled && Due(todo[0], now)
    ensures Path(u', from) && k <= |u'.moves| && QuietFrom(u', k) && Extends(u, u')
    ensures var log, log' := Last(u).e.world.log, Last(u').e.world.log;
      && log <= log' && |log| < |log'|
      && var e := log'[|log'| - 1]; e.Submitted? && e.id == todo[0].id && e.cause == CauseOf(todo[0], now)
  {
    var s := Last(u);
    var s1 := s.(e := Picked(s.e, r));
    u' := Grown(u, from, k, s1, Pick(r));
    u' := DriveToSubmit(u', from, k, r, s1.e.runs[r].job.value);
  }

  /** There is always a run number not used yet. */
  lemma NewRun(begun: map<RunId, Begin>) returns (r: RunId)
    ensures r !in begun
  {
    r := Above(begun.Keys);
  }

  lemma {:induction false} Above(used: set<RunId>) returns (r: RunId)
    ensures forall x | x in used :: x < r
  {
    r := 0;
    if used != {} {
      var y :| y in used;
      var rest := used - {y};
      var q := Above(rest);
      r := if q <= y then y + 1 else q;
      assert forall x | x in used :: x in rest || x == y;
    }
  }

  // ---- The exact condition ----

  /** From a state of a sound history with no open run, no quiet continuation
      serves again an occurrence already served, exactly when no entry of the
      file is due, now or later, for one. */
  lemma NoRepeatIff(s: System)
    requires Inv(s) && s.e.runs == map[] && DistinctIds(FileTasks(s.e.file))
    ensures NoneDueAgain(FileTasks(s.e.file), s.e.world.clock, s.e.world.log) <==>
            forall u | Path(u, s) && QuietFrom(u, 0) :: !ServesAgain(s.e.world.log, Last(u).e.world.log)
  {
    var file, log, clock := FileTasks(s.e.file), s.e.world.log, s.e.world.clock;
    if NoneDueAgain(file, clock, log) {
      assert StateSafe(s, file, log, clock) by {
        forall t | t in s.e.tasks
          ensures Safe(t, file, log)
        {
          assert Knows(t, log, s.e.runs.Keys) && s.e.runs.Keys == {};
        }
        assert forall t | t in file :: t == t.(topic := t.topic) && From(t, file);
      }
      forall u | Path(u, s) && QuietFrom(u, 0)
        ensures !ServesAgain(log, Last(u).e.world.log)
      {
        PathStaysSafe(u, s, |u.states| - 1, file, log, clock);
      }
    } else {
      var f, now :| f in file && clock <= now && DueAgain(f, now, log);
      var u := RepeatRun(Trace([s], []), s, f, now);
    }
  }

  // ---- Two histories that serve an occurrence twice ----

  /** A daily task with a topic of its own, last run in the first millisecond. */
  function DailyTask(): Task {
    Task("a", true, Some(Schedule(Daily, 0, 0)), 0, Unset, Unset, "x", 1, false, 0)
  }

  lemma DailyIsDue(day: int)
    requires day > 0
    ensures var now := At(day, 0, 0); Due(DailyTask(), now) && ScheduledAt(DailyTask(), now) == Some(now)
  {
    var now := At(day, 0, 0);
    AtOrder(day, 0, 0, 0);
    assert Previous(Schedule(Daily, 0, 0), Anchor(DailyTask(), now), now) == Some(now);
  }

  /** The engine at the day's midnight, with that task in memory and on file. */
  function Midnight(day: int): System {
    System(State([DailyTask()], Listed([DailyTask()]), false, map[], World(map[], At(day, 0, 0), 0, [])), map[])
  }

  /** What the tick's submit at midnight records. */
  function DailyEvent(day: int, r: RunId): Event {
    Submitted("a", ByCalendar(At(day, 0, 0)), Millis(At(day, 0, 0)), r)
  }

  /** A history of quiet moves; its merges may move a last run back. */
  ghost predicate Unedited(u: Trace, from: System) {
    Path(u, from) && forall m | m in u.moves :: QuietMove(m)
  }

  lemma Step1(u: Trace, from: System, s: System, m: Move) returns (u': Trace)
    requires Unedited(u, from) && Step(Last(u), s, m) && QuietMove(m)
    ensures Unedited(u', from) && Last(u') == s
    ensures Inv(Last(u)) && Unconditional(m) ==> Inv(s)
  {
    u' := PathGrown(u, from, s, m);
    if Inv(Last(u)) && Unconditional(m) {
      StepKeepsInv(Last(u), s, m);
    }
  }

  /** Moves that install no list. */
  predicate Unconditional(m: Move) {
    m.BeginTick? || m.BeginOne? || m.Pick? || m.Section?
  }

  /** A run's job on the daily task, at some section. */
  function DailyJob(cause: Cause, r: RunId, pc: Pc): Job {
    Job(DailyTask(), cause, r, pc)
  }

  /** A tick takes the daily task from memory and gets as far as its stamp. */
  lemma TickSubmits(u: Trace, from: System, day: int, r: RunId) returns (u': Trace)
    requires Unedited(u, from) && day > 0 && r !in Last(u).begun && r !in Last(u).e.runs
    requires Last(u).e.tasks == [DailyTask()]
    requires Last(u).e.world.clock == At(day, 0, 0) && forall x | x in Last(u).e.runs :: !IsTick(Last(u), x)
    ensures Unedited(u', from) && TickDone(Last(u), Last(u'), day, r) && (Inv(Last(u)) ==> Inv(Last(u')))
  {
    var s := Last(u);
    var now := At(day, 0, 0);
    DailyIsDue(day);
    var s1 := System(BeganTick(s.e, r), NewBegin(s, r, true));
    u' := Step1(u, from, s1, BeginTick(r));
    var x := Run([], Some(now), map[], Some(DailyJob(ByCalendar(now), r, Entered)));
    var s2 := s1.(e := s1.e.(runs := s1.e.runs[r := x]));
    PickDaily(s1.e, r, Some(now), ByCalendar(now));
    u' := Step1(u', from, s2, Pick(r));
    u' := JobSubmits(u', from, r, x);
    assert Last(u').e.runs[r].updates == map["a" := DailyTask().(lastRun := Millis(now), created := Millis(now))];
    assert Last(u').e.runs - {r} == s.e.runs;
  }

  /** The run's only task becomes its job. */
  lemma PickDaily(s: State, r: RunId, now: Option<Instant>, cause: Cause)
    requires r in s.runs && s.runs[r] == Run([DailyTask()], now, map[], None)
    requires match now
      case None => cause == ByHand
      case Some(n) => Due(DailyTask(), n) && cause == CauseOf(DailyTask(), n)
    ensures AtTask(s, r)
    ensures Picked(s, r) == s.(runs := s.runs[r := Run([], now, map[], Some(DailyJob(cause, r, Entered)))])
  {
    assert [DailyTask()][1..] == [];
  }

  /** What a finished tick leaves. */
  ghost predicate TickDone(s: System, s': System, day: int, r: RunId) {
    var now := At(day, 0, 0);
    var t := DailyTask().(lastRun := Millis(now), created := Millis(now));
    && r in s'.e.runs && s'.e.runs - {r} == s.e.runs && s'.e.runs[r] == Run([], Some(now), map["a" := t], None)
    && s'.begun == NewBegin(s, r, true) && s'.e == s.e.(runs := s'.e.runs, world := s'.e.world)
    && s'.e.world == s.e.world.(k := s'.e.world.k, log := s.e.world.log + [DailyEvent(day, r)])
  }

  /** What a finished job of the daily task leaves. */
  ghost predicate JobDone(s: System, s': System, r: RunId, x: Run, cause: Cause) {
    var w, w' := s.e.world, s'.e.world;
    var t := DailyTask().(lastRun := Millis(w.clock), created := Millis(w.clock));
    && w' == w.(k := w'.k, log := w.log + [Submitted("a", cause, Millis(w.clock), r)])
    && s' == s.(e := s.e.(world := w', runs := s.e.runs[r := x.(updates := x.updates["a" := t], job := None)]))
  }

  /** The daily task's job, section by section to its end, in no time. */
  lemma JobSubmits(u: Trace, from: System, r: RunId, x: Run) returns (u': Trace)
    requires Unedited(u, from) && r in Last(u).e.runs && Last(u).e.runs[r] == x
    requires x.job.Some? && x.job.value == DailyJob(x.job.value.cause, r, Entered)
    ensures Unedited(u', from) && (Inv(Last(u)) ==> Inv(Last(u')))
    ensures JobDone(Last(u), Last(u'), r, x, x.job.value.cause)
  {
    var cause := x.job.value.cause;
    var x1, x2 := AtPc(x, cause, r, HasTopic("x", false)), AtPc(x, cause, r, Opened("x", false));
    u' := OneSection(u, from, r, x, x1.job.value);
    u' := OneSection(u', from, r, x1, x2.job.value);
    u' := OneSection(u', from, r, x2, DailyJob(cause, r, Confirmed("x", false)));
    u' := JobEnds(u', from, r, x, cause);
  }

  function AtPc(x: Run, cause: Cause, r: RunId, pc: Pc): Run {
    x.(job := Some(DailyJob(cause, r, pc)))
  }

  /** The submit and the stamp. */
  lemma JobEnds(u: Trace, from: System, r: RunId, x: Run, cause: Cause) returns (u': Trace)
    requires Unedited(u, from) && r in Last(u).e.runs
    requires Last(u).e.runs[r] == AtPc(x, cause, r, Confirmed("x", false))
    ensures Unedited(u', from) && (Inv(Last(u)) ==> Inv(Last(u')))
    ensures JobDone(Last(u), Last(u'), r, x, cause)
  {
    var s := Last(u);
    var s1 := s.(e := Stepped(s.e, r, LUCK));
    u' := Step1(u, from, s1, Section(r, LUCK));
    assert s1.e.runs[r] == AtPc(x, cause, r, Sent("x"));
    var s2 := s1.(e := Stepped(s1.e, r, LUCK));
    u' := Step1(u', from, s2, Section(r, LUCK));
  }

  /** A section that moves the job on and nothing else. */
  lemma OneSection(u: Trace, from: System, r: RunId, x: Run, j': Job) returns (u': Trace)
    requires Unedited(u, from) && r in Last(u).e.runs && Last(u).e.runs[r] == x && x.job.Some?
    requires !x.job.value.pc.Finished? && !j'.pc.Finished?
    requires Advance(x.job.value, Last(u).e.world, LUCK) == (j', Met(Last(u).e.world, LUCK))
    ensures Unedited(u', from) && (Inv(Last(u)) ==> Inv(Last(u')))
    ensures Last(u') == Last(u).(e := Last(u).e.(world := Met(Last(u).e.world, LUCK),
                                                runs := Last(u).e.runs[r := x.(job := Some(j'))]))
  {
    var s := Last(u);
    u' := Step1(u, from, s.(e := Stepped(s.e, r, LUCK)), Section(r, LUCK));
  }

  /** A manual run that took its snapshot before the tick finds the controller
      busy after it; its merge writes the old last run back. Nobody edits and
      every save succeeds, and the next tick serves the occurrence again. */
  lemma OverlapServesTwice(day: int) returns (u: Trace)
    requires day > 0
    ensures Initial(Midnight(day)) && Unedited(u, Midnight(day))
    ensures exists log | log <= Last(u).e.world.log :: ServesAgain(log, Last(u).e.world.log)
  {
    u := ManualWaits(day);
    var s4 := Last(u);
    u := TickSubmits(u, Midnight(day), day, 1);
    u := OverlapMerges(u, Midnight(day), s4, day);
    u := ServesItAgain(u, Midnight(day), day);
  }

  /** A manual run as far as its wait for the controller. */
  lemma ManualWaits(day: int) returns (u: Trace)
    requires day > 0
    ensures Unedited(u, Midnight(day))
    ensures var s, s0 := Last(u), Midnight(day);
      && s.begun.Keys == {0} && !s.begun[0].tick
      && s.e == s0.e.(world := s0.e.world.(k := s.e.world.k), runs := s.e.runs)
      && s.e.runs == map[0 := ManualRun(Opened("x", false))]
  {
    var s0 := Midnight(day);
    u := ManualBegins(Trace([s0], []), s0);
    u := ManualOpens(u, s0);
  }

  lemma ManualBegins(u: Trace, from: System) returns (u': Trace)
    requires Unedited(u, from) && Last(u).begun == map[] && Last(u).e.runs == map[] && Last(u).e.tasks == [DailyTask()]
    ensures Unedited(u', from)
    ensures Last(u') == System(Last(u).e.(runs := map[0 := ManualRun(Entered)]), NewBegin(Last(u), 0, false))
  {
    var s := Last(u);
    var s1 := System(BeganOne(s.e, 0, "a"), NewBegin(s, 0, false));
    u' := Step1(u, from, s1, BeginOne(0, "a"));
    PickDaily(s1.e, 0, None, ByHand);
    u' := Step1(u', from, s1.(e := Picked(s1.e, 0)), Pick(0));
    assert Last(u').e.runs == map[0 := ManualRun(Entered)];
  }

  lemma ManualOpens(u: Trace, from: System) returns (u': Trace)
    requires Unedited(u, from) && Last(u).e.runs == map[0 := ManualRun(Entered)]
    ensures Unedited(u', from) && Last(u').begun == Last(u).begun
    ensures Last(u').e == Last(u).e.(runs := map[0 := ManualRun(Opened("x", false))], world := Last(u').e.world)
    ensures Last(u').e.world == Last(u).e.world.(k := Last(u').e.world.k)
  {
    u' := OneSection(u, from, 0, ManualRun(Entered), DailyJob(ByHand, 0, HasTopic("x", false)));
    u' := OneSection(u', from, 0, ManualRun(HasTopic("x", false)), DailyJob(ByHand, 0, Opened("x", false)));
    assert Last(u').e.runs == map[0 := ManualRun(Opened("x", false))];
  }

  /** The manual run, at some section of its only job. */
  function ManualRun(pc: Pc): Run {
    Run([], None, map[], Some(DailyJob(ByHand, 0, pc)))
  }

  /** The tick merges, then the manual run. */
  lemma OverlapMerges(u: Trace, from: System, s4: System, day: int) returns (u': Trace)
    requires Unedited(u, from) && TickDone(s4, Last(u), day, 1)
    requires s4.e.runs == map[0 := ManualRun(Opened("x", false))]
    requires s4.e.tasks == [DailyTask()] && s4.e.file == Listed([DailyTask()]) && s4.e.world.pending == map[]
    requires s4.e.world.clock == At(day, 0, 0) && s4.e.world.log == []
    ensures Unedited(u', from) && Last(u').e.runs == map[] && Last(u').e.world.clock == At(day, 0, 0)
    ensures Last(u').e.world.log == [DailyEvent(day, 1)]
    ensures |FileTasks(Last(u').e.file)| == 1 && Rolled(FileTasks(Last(u').e.file)[0], day)
  {
    var s5 := Last(u);
    var s6 := s5.(e := Merged(s5.e, 1, true));
    u' := Step1(u, from, s6, Merge(1, true));
    var t := s5.e.runs[1].updates["a"];
    assert FileTasks(s6.e.file) == [MergeOne(DailyTask(), t)] && s6.e.world.pending == map[];
    u' := ManualMerges(u', from, day);
  }

  lemma ManualMerges(u: Trace, from: System, day: int) returns (u': Trace)
    requires Unedited(u, from) && Last(u).e.runs == map[0 := ManualRun(Opened("x", false))]
    requires |FileTasks(Last(u).e.file)| == 1 && Stamped1(FileTasks(Last(u).e.file)[0], day)
    ensures Unedited(u', from) && Last(u').e.runs == map[]
    ensures Last(u').e.world.clock == Last(u).e.world.clock && Last(u').e.world.log == Last(u).e.world.log
    ensures |FileTasks(Last(u').e.file)| == 1 && Rolled(FileTasks(Last(u').e.file)[0], day)
  {
    var busy := Round(None, true, Busy, false, 0);
    var s := Last(u);
    var s7 := s.(e := Stepped(s.e, 0, busy));
    u' := Step1(u, from, s7, Section(0, busy));
    assert s7.e.runs == map[0 := Run([], None, map["a" := DailyTask()], None)];
    u' := RollsBack(u', from, FileTasks(s.e.file)[0], day);
  }

  /** The merge that writes the old last run back. */
  lemma RollsBack(u: Trace, from: System, f: Task, day: int) returns (u': Trace)
    requires Unedited(u, from) && Last(u).e.runs == map[0 := Run([], None, map["a" := DailyTask()], None)]
    requires Last(u).e.file == Listed([f]) && Stamped1(f, day)
    ensures Unedited(u', from) && Last(u').e.runs == map[]
    ensures Last(u').e.world.clock == Last(u).e.world.clock && Last(u').e.world.log == Last(u).e.world.log
    ensures |FileTasks(Last(u').e.file)| == 1 && Rolled(FileTasks(Last(u').e.file)[0], day)
  {
    var s := Last(u);
    var s1 := s.(e := Merged(s.e, 0, true));
    assert Rebased([f], map["a" := DailyTask()]) == [MergeOne(f, DailyTask())];
    assert s.e.runs - {0} == map[];
    u' := Step1(u, from, s1, Merge(0, true));
  }

  /** The daily task as the tick's merge leaves it. */
  predicate Stamped1(t: Task, day: int) {
    t == DailyTask().(created := t.created, lastRun := t.lastRun) && t.created == Millis(At(day, 0, 0))
  }

  /** The daily task with its creation time filled in and its last run as before. */
  predicate Rolled(t: Task, day: int) {
    t == DailyTask().(created := t.created) && t.created in {0, Millis(At(day, 0, 0))}
  }

  lemma RolledIsDueAgain(t: Task, day: int, log: seq<Event>, r: RunId)
    requires day > 0 && Rolled(t, day) && DailyEvent(day, r) in log
    ensures DueAgain(t, At(day, 0, 0), log)
  {
    var now := At(day, 0, 0);
    DailyIsDue(day);
    AtOnTheMinute(day, 0, 0);
    MinuteBound(now, now);
    assert ScheduledAt(t, now) == Some(now);
    assert ServedBy(DailyEvent(day, r), "a", now);
  }

  lemma ServesItAgain(u: Trace, from: System, day: int) returns (u': Trace)
    requires day > 0 && Unedited(u, from) && Last(u).e.runs == map[] && Last(u).e.world.clock == At(day, 0, 0)
    requires Last(u).e.world.log == [DailyEvent(day, 1)]
    requires |FileTasks(Last(u).e.file)| == 1 && Rolled(FileTasks(Last(u).e.file)[0], day)
    ensures Unedited(u', from) && ServesAgain(Last(u).e.world.log, Last(u').e.world.log)
    ensures Last(u).e.world.log <= Last(u').e.world.log
  {
    var f := FileTasks(Last(u).e.file)[0];
    RolledIsDueAgain(f, day, Last(u).e.world.log, 1);
    u' := RepeatRun(u, from, f, At(day, 0, 0));
    forall m | m in u'.moves
      ensures QuietMove(m)
    {
      var i :| 0 <= i < |u'.moves| && u'.moves[i] == m;
      assert i < |u.moves| ==> m == u.moves[i] && m in u.moves;
    }
  }

  /** One run at a time and nobody edits, but the save of the tick's merge fails:
      the file still holds the task as it was. The state is one of a sound
      history, so the condition above applies to it, and it fails there. */
  lemma FailedSaveLeaves(day: int) returns (u: Trace)
    requires day > 0
    ensures History(u) && u.states[0] == Midnight(day)
    ensures |u.moves| > 0 && u.moves[|u.moves| - 1] == Merge(1, false)
    ensures forall i | 0 <= i < |u.moves| - 1 :: QuietMove(u.moves[i])
    ensures Inv(Last(u)) && Last(u).e.runs == map[] && DistinctIds(FileTasks(Last(u).e.file))
    ensures !NoneDueAgain(FileTasks(Last(u).e.file), Last(u).e.world.clock, Last(u).e.world.log)
  {
    var s0 := Midnight(day);
    assert Inv(s0);
    u := TickSubmits(Trace([s0], []), s0, day, 1);
    var s := Last(u);
    var s' := s.(e := Merged(s.e, 1, false));
    var v := PathGrown(u, s0, s', Merge(1, false));
    assert s'.e.runs == map[] && s'.e.file == Listed([DailyTask()]);
    RolledIsDueAgain(DailyTask(), day, s'.e.world.log, 1);
    assert DailyTask() in FileTasks(s'.e.file) && At(day, 0, 0) <= s'.e.world.clock;
    assert MergeSound(s.e, 1);
    MergeKeepsInv(s, s', 1, false);
    forall i | 0 <= i < |v.moves| - 1
      ensures QuietMove(v.moves[i])
    {
      assert v.moves[i] == u.moves[i] && u.moves[i] in u.moves;
    }
    u := v;
  }

  /** And so the history goes on, with quiet moves only, to serve the occurrence
      again. */
  lemma FailedSaveServesTwice(day: int) returns (u: Trace, k: nat)
    requires day > 0
    ensures History(u) && k < |u.moves| && u.moves[k] == Merge(1, false)
    ensures forall i | 0 <= i < |u.moves| && i != k :: QuietMove(u.moves[i])
    ensures exists log | log <= Last(u).e.world.log :: ServesAgain(log, Last(u).e.world.log)
  {
    var v := FailedSaveLeaves(day);
    k := |v.moves| - 1;
    var s := Last(v);
    var f, now :| f in FileTasks(s.e.file) && s.e.world.clock <= now && DueAgain(f, now, s.e.world.log);
    u := RepeatRun(v, Midnight(day), f, now);
    forall i | 0 <= i < |u.moves| && i != k
      ensures QuietMove(u.moves[i])
    {
      assert i < |v.moves| ==> u.moves[i] == v.moves[i];
    }
  }
}
