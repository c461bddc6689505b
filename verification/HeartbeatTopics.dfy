/** The topics of fresh-conversation tasks against their submits, over histories
    in which one run is open at a time and any other caller acts in between its
    sections. */
module HeartbeatTopics {
  import opened Wrappers
  import opened HeartbeatCalendar
  import opened HeartbeatRuns
  import opened HeartbeatHistory
  import opened HeartbeatOrder

  function Creations(log: seq<Event>, id: Id): nat {
    if |log| == 0 then 0
    else Creations(log[..|log| - 1], id) + if log[|log| - 1] == Created(id) then 1 else 0
  }

  function Submits(log: seq<Event>, id: Id): nat {
    if |log| == 0 then 0
    else
      var e := log[|log| - 1];
      Submits(log[..|log| - 1], id) + if e.Submitted? && e.id == id then 1 else 0
  }

  lemma CountAppend(log: seq<Event>, e: Event, id: Id)
    ensures Creations(log + [e], id) == Creations(log, id) + if e == Created(id) then 1 else 0
    ensures Submits(log + [e], id) == Submits(log, id) + if e.Submitted? && e.id == id then 1 else 0
  {
    assert (log + [e])[..|log|] == log;
  }

  /** The task stays in the list, as a fresh-conversation task. */
  predicate Kept(tasks: seq<Task>, id: Id) {
    KeepsPending(tasks, id) && forall t | t in tasks && t.id == id :: t.newEachRun
  }

  predicate Waiting(w: World, id: Id) {
    id in w.pending && !w.pending[id].submitted
  }

  /** The job is one of this task's. */
  predicate Of(job: Option<Job>, id: Id) {
    job.Some? && job.value.task.id == id
  }

  /** Every topic created has been submitted to, except one that waits: kept for
      the next try, or made and not yet kept. A submit just made has not yet been
      marked. */
  predicate Balanced(w: World, id: Id, job: Option<Job>) {
    Creations(w.log, id) + (if Of(job, id) && job.value.pc.Sent? then 1 else 0) ==
    Submits(w.log, id) + (if Waiting(w, id) then 1 else 0) + (if Of(job, id) && job.value.pc.Made? then 1 else 0)
  }

  /** What the pending topic is at each section of the task's job. */
  predicate TopicKept(w: World, j: Job) {
    var id := j.task.id;
    j.task.newEachRun &&
    match j.pc
    case Entered => true
    case NeedsTopic => id !in w.pending
    case Made(_) => id !in w.pending
    case HasTopic(topic, submitted) => id in w.pending && w.pending[id] == Pending(topic, submitted)
    case Opened(topic, submitted) => id in w.pending && w.pending[id] == Pending(topic, submitted)
    case Confirmed(topic, submitted) => id in w.pending && w.pending[id] == Pending(topic, submitted)
    case Sent(topic) => id in w.pending && w.pending[id] == Pending(topic, false)
    case Finished => true
  }

  /** A section of the task's own job, or of another task's, keeps the balance. */
  lemma AdvanceKeepsBalance(j: Job, w: World, r: Round, id: Id)
    requires !j.pc.Finished? && Balanced(w, id, Some(j)) && (j.task.id == id ==> TopicKept(w, j))
    ensures var (j', w') := Advance(j, w, r);
      && Balanced(w', id, if j'.pc.Finished? then None else Some(j'))
      && (j'.task.id == id ==> TopicKept(w', j'))
  {
    AdvanceLogs(j, w, r);
    CountAppend(w.log, Created(j.task.id), id);
    var now := Millis(w.clock + r.took);
    CountAppend(w.log, Submitted(j.task.id, j.cause, now, j.run), id);
  }

  /** The job of the only open run, and what its snapshot says of the task. */
  ghost predicate RunBalanced(s: System, r: RunId, id: Id)
    requires r in s.e.runs
  {
    var x := s.e.runs[r];
    && s.e.runs.Keys == {r} && Balanced(s.e.world, id, x.job)
    && (forall t | t in x.todo && t.id == id :: t.newEachRun)
    && (x.job.Some? ==> !x.job.value.pc.Finished? && (x.job.value.task.id == id ==> TopicKept(s.e.world, x.job.value)))
  }

  ghost predicate TopicInv(s: System, id: Id) {
    && (s.e.runs == map[] ==> Balanced(s.e.world, id, None))
    && (forall r | r in s.e.runs :: RunBalanced(s, r, id))
  }

  /** Installing a list that keeps the task leaves its pending topic alone. */
  lemma InstallKeepsTopics(s: System, s': System, id: Id)
    requires TopicInv(s, id) && s'.e.runs == s.e.runs && s'.e.world.log == s.e.world.log
    requires id in s'.e.world.pending <==> id in s.e.world.pending
    requires id in s.e.world.pending ==> s'.e.world.pending[id] == s.e.world.pending[id]
    ensures TopicInv(s', id)
  {
    forall r | r in s'.e.runs
      ensures RunBalanced(s', r, id)
    {
      assert RunBalanced(s, r, id);
    }
  }

  lemma SectionKeepsTopics(s: System, s': System, r: RunId, round: Round, id: Id)
    requires TopicInv(s, id) && Step(s, s', Section(r, round))
    ensures TopicInv(s', id)
  {
    assert RunBalanced(s, r, id);
    AdvanceKeepsBalance(s.e.runs[r].job.value, s.e.world, round, id);
    assert RunBalanced(s', r, id);
  }

  lemma PickKeepsTopics(s: System, s': System, r: RunId, id: Id)
    requires TopicInv(s, id) && Step(s, s', Pick(r))
    ensures TopicInv(s', id)
  {
    assert RunBalanced(s, r, id) && s.e.runs[r].todo[0] in s.e.runs[r].todo;
    assert RunBalanced(s', r, id);
  }

  lemma BeginKeepsTopics(s: System, s': System, m: Move, id: Id)
    requires TopicInv(s, id) && (m.BeginTick? || m.BeginOne?) && Alone(s, m) && Step(s, s', m) && Kept(s.e.tasks, id)
    ensures TopicInv(s', id)
  {
    if m.BeginOne? {
      var i := IndexOf(s.e.tasks, m.id);
      assert i < |s.e.tasks| ==> s.e.tasks[i] in s.e.tasks;
    }
    assert RunBalanced(s', m.run, id);
  }

  lemma MergeKeepsTopics(s: System, s': System, r: RunId, saved: bool, id: Id)
    requires TopicInv(s, id) && Step(s, s', Merge(r, saved)) && Kept(s'.e.tasks, id)
    ensures TopicInv(s', id)
  {
    assert RunBalanced(s, r, id) && s'.e.runs == map[];
  }

  lemma StepKeepsTopics(s: System, s': System, m: Move, id: Id)
    requires TopicInv(s, id) && Step(s, s', m) && Alone(s, m) && Kept(s.e.tasks, id) && Kept(s'.e.tasks, id)
    ensures TopicInv(s', id)
  {
    match m
    case BeginTick(_) => BeginKeepsTopics(s, s', m, id);
    case BeginOne(_, _) => BeginKeepsTopics(s, s', m, id);
    case Pick(r) => PickKeepsTopics(s, s', r, id);
    case Section(r, round) => SectionKeepsTopics(s, s', r, round, id);
    case Merge(r, saved) => MergeKeepsTopics(s, s', r, saved, id);
    case _ => InstallKeepsTopics(s, s', id);
  }

  /** Runs come one after another. */
  ghost predicate Sequential(t: Trace) {
    History(t) && forall k | 0 <= k < |t.moves| :: Alone(t.states[k], t.moves[k])
  }

  /** While a fresh-conversation task stays in the list, the topics created for
      it never exceed its successful submits by more than the one pending. */
  lemma {:induction false} TopicsFollowSubmits(t: Trace, k: nat, id: Id)
    requires Sequential(t) && k < |t.states| && forall j | 0 <= j <= k :: Kept(t.states[j].e.tasks, id)
    ensures TopicInv(t.states[k], id)
    ensures var log := t.states[k].e.world.log; Submits(log, id) <= Creations(log, id) <= Submits(log, id) + 1
  {
    if k > 0 {
      TopicsFollowSubmits(t, k - 1, id);
      assert StepAt(t, k - 1) && Alone(t.states[k - 1], t.moves[k - 1]);
      StepKeepsTopics(t.states[k - 1], t.states[k], t.moves[k - 1], id);
    }
    BalanceBounds(t.states[k], id);
  }

  lemma BalanceBounds(s: System, id: Id)
    requires TopicInv(s, id)
    ensures Submits(s.e.world.log, id) <= Creations(s.e.world.log, id) <= Submits(s.e.world.log, id) + 1
  {
    if s.e.runs != map[] {
      var r :| r in s.e.runs;
      assert RunBalanced(s, r, id);
    }
  }
}
