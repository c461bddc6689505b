/** The locks of the desktop runtime (singleSurfaceMu, runtimeRebuildMu,
    runtimeAdmissionMu, a tab's turnStartMu, and the leaf locks sessionRemovalMu
    and reconcileMu), the discipline under which operations take them, and why no
    set of disciplined threads deadlocks.

    A thread is the locks it holds and the operations it has left. A state is
    any finite set of threads; new ones may start at any time. */
module RuntimeLocks {
  import opened Wrappers

  type Tid = nat
  type Tab = nat

  datatype Leaf = Removal | Reconcile(tab: Tab)

  /** What a thread does to application state between lock operations. The lock
      machine says only which locks it needs; TurnAdmission gives turns, idle
      checks and mutations a meaning. */
  datatype Action =
    | Admit(tab: Tab)              // beginTabTurn's last check and sink reservation; may be refused
    | Invoke(tab: Tab)             // the controller submit
    | Settle(tab: Tab)             // tabTurnAdmission.finish
    | CheckIdle(tabs: seq<Tab>)    // no work is active on the gated tabs; may be refused
    | Mutate(tabs: seq<Tab>)       // rebuild, teardown or MCP change of their runtimes
    | RebindSession(tab: Tab)
    | ClearSession(tab: Tab)
    | DeleteSession
    | PurgeSession
    | Set(tab: Tab)                // a plain setter's write
    | Repair(tab: Tab)             // the tab's workspace binding
    | BuildRuntime

  /** RWMutex.Lock is two operations: Announce (exclude other writers and stop
      new readers) and WriteLock (wait for the readers inside to leave). */
  datatype Op =
    | LockSurface | UnlockSurface
    | LockRebuild | UnlockRebuild
    | ReadLock | ReadUnlock
    | Announce | WriteLock | WriteUnlock
    | LockGate(tab: Tab) | UnlockGate(tab: Tab)
    | LockLeaf(leaf: Leaf) | UnlockLeaf
    | Work(action: Action)

  /** The operations a thread has left; an action that may be refused goes on
      differently when it is. */
  datatype Ops = End | Do(op: Op, rest: Ops) | Try(action: Action, done: Ops, refused: Ops)

  /** The locks a thread holds, and the tabs it has found idle under gates it
      still holds. */
  datatype Held = Held(
    surface: bool, rebuild: bool, read: bool, announced: bool, write: bool,
    gates: set<Tab>, leaf: Option<Leaf>, checked: set<Tab>)

  const NOTHING := Held(false, false, false, false, false, {}, None, {})

  datatype Thread = Thread(held: Held, todo: Ops)

  type State = map<Tid, Thread>

  function Effect(h: Held, op: Op): Held {
    match op
    case LockSurface => h.(surface := true)
    case UnlockSurface => h.(surface := false)
    case LockRebuild => h.(rebuild := true)
    case UnlockRebuild => h.(rebuild := false)
    case ReadLock => h.(read := true)
    case ReadUnlock => h.(read := false)
    case Announce => h.(announced := true)
    case WriteLock => h.(announced := false, write := true)
    case WriteUnlock => h.(write := false)
    case LockGate(t) => h.(gates := h.gates + {t})
    case UnlockGate(t) => h.(gates := h.gates - {t}, checked := h.checked - {t})
    case LockLeaf(l) => h.(leaf := Some(l))
    case UnlockLeaf => h.(leaf := None)
    case Work(_) => h
  }

  function AfterTry(h: Held, a: Action, done: bool): Held {
    if done && a.CheckIdle? then h.(checked := h.checked + GatesOf(a.tabs)) else h
  }

  /** Whether the lock an operation asks for is free. A mutex its own thread
      already holds is not free: Go mutexes are not re-entrant. */
  ghost predicate Free(s: State, i: Tid, op: Op) {
    match op
    case LockSurface => forall j | j in s :: !s[j].held.surface
    case LockRebuild => forall j | j in s :: !s[j].held.rebuild
    case ReadLock => forall j | j in s :: !s[j].held.announced && !s[j].held.write
    case Announce => forall j | j in s :: !s[j].held.announced && !s[j].held.write
    case WriteLock => forall j | j in s :: !s[j].held.read
    case LockGate(t) => forall j | j in s :: t !in s[j].held.gates
    case LockLeaf(l) => forall j | j in s :: s[j].held.leaf != Some(l)
    case _ => true
  }

  ghost predicate CanStep(s: State, i: Tid) {
    i in s && s[i].todo != End && (s[i].todo.Do? ==> Free(s, i, s[i].todo.op))
  }

  function Advance(th: Thread, done: bool): Thread
    requires th.todo != End
  {
    match th.todo
    case Do(op, rest) => Thread(Effect(th.held, op), rest)
    case Try(a, ok, refused) => Thread(AfterTry(th.held, a, done), if done then ok else refused)
  }

  // ---- The lock discipline ----

  /** What a thread holding h may do next. */
  predicate Allowed(h: Held, op: Op) {
    (h.announced ==> op == WriteLock) &&
    match op
    case LockSurface => h == NOTHING
    case UnlockSurface => h == NOTHING.(surface := true)
    case LockRebuild => h.(surface := false) == NOTHING
    case UnlockRebuild => h.rebuild && !h.write && h.gates == {}
    case ReadLock => !h.read && !h.write && h.leaf.None? && (h.gates != {} ==> h.rebuild)
    case ReadUnlock => h.read && (h.gates != {} ==> h.rebuild)
    case Announce => h.rebuild && !h.read && !h.write && h.gates == {} && h.leaf.None?
    case WriteLock => h.announced
    case WriteUnlock => h.write
    case LockGate(t) => t !in h.gates && h.leaf.None? && (h.gates != {} ==> h.rebuild)
    case UnlockGate(t) => t in h.gates
    case LockLeaf(_) => h.leaf.None?
    case UnlockLeaf => h.leaf.Some?
    case Work(a) => ActionAllowed(h, a)
  }

  /** A turn is invoked and settled under the read side and the tab's gate, and
      never by a thread holding runtimeRebuildMu. A runtime is mutated only by one
      that holds it and has found its tabs idle under gates still held. A session
      is rebound under the write side and its gate, cleared under its gate and
      the removal leaf, deleted under the write side and the removal leaf. */
  predicate ActionAllowed(h: Held, a: Action) {
    match a
    case Invoke(t) => h.read && !h.rebuild && t in h.gates
    case Settle(t) => h.read && !h.rebuild && t in h.gates
    case Mutate(tabs) => h.rebuild && GatesOf(tabs) <= h.checked
    case RebindSession(t) => h.rebuild && h.write && t in h.gates
    case ClearSession(t) => h.rebuild && t in h.gates && h.leaf == Some(Removal)
    case DeleteSession => h.rebuild && h.write && h.leaf == Some(Removal)
    case PurgeSession => h.leaf == Some(Removal)
    case Set(t) => t in h.gates
    case Repair(t) => h.leaf == Some(Reconcile(t)) && (h.read || h.write)
    case BuildRuntime => h.read
    case Admit(_) => false
    case CheckIdle(_) => false
  }

  /** A turn is admitted like it is invoked; idleness is checked by a thread that
      holds runtimeRebuildMu and the gates of the tabs it covers. */
  predicate TryAllowed(h: Held, a: Action) {
    !h.announced &&
    match a
    case Admit(t) => h.read && !h.rebuild && t in h.gates
    case CheckIdle(tabs) => h.rebuild && GatesOf(tabs) <= h.gates
    case _ => false
  }

  function GatesOf(tabs: seq<Tab>): set<Tab> {
    set t | t in tabs
  }

  predicate Disciplined(h: Held, todo: Ops)
    decreases todo
  {
    match todo
    case End => h == NOTHING
    case Do(op, rest) => Allowed(h, op) && Disciplined(Effect(h, op), rest)
    case Try(a, done, refused) =>
      TryAllowed(h, a) && Disciplined(AfterTry(h, a, true), done) && Disciplined(AfterTry(h, a, false), refused)
  }

  // ---- Reachable states ----

  predicate Init(s: State) {
    s == map[]
  }

  /** A thread may run anything that keeps the discipline, as the programs do. */
  ghost predicate Spawn(s: State, s': State, i: Tid, todo: Ops) {
    i !in s && Disciplined(NOTHING, todo) && s' == s[i := Thread(NOTHING, todo)]
  }

  /** A thread's next step, with the outcome of what it tries. */
  ghost predicate ThreadMoves(s: State, s': State, i: Tid, done: bool) {
    CanStep(s, i) && s' == s[i := Advance(s[i], done)]
  }

  ghost predicate ThreadStep(s: State, s': State, i: Tid) {
    exists done: bool :: ThreadMoves(s, s', i, done)
  }

  ghost predicate Step(s: State, s': State) {
    || (exists i, todo :: Spawn(s, s', i, todo))
    || (exists i :: ThreadStep(s, s', i))
  }

  ghost predicate StepAt(run: seq<State>, k: nat)
    requires k + 1 < |run|
  {
    Step(run[k], run[k + 1])
  }

  ghost predicate Run(run: seq<State>) {
    |run| > 0 && Init(run[0]) && forall k | 0 <= k < |run| - 1 :: StepAt(run, k)
  }

  predicate HeldOk(h: Held) {
    && (h.announced || h.write ==> h.rebuild && !h.read)
    && (h.announced ==> h.gates == {} && !h.write && h.leaf.None?)
    && h.checked <= h.gates && (h.checked != {} ==> h.rebuild)
  }

  /** Mutual exclusion for every lock, and each thread inside the discipline. */
  ghost predicate Exclusive(a: Held, b: Held) {
    && !(a.surface && b.surface)
    && !(a.rebuild && b.rebuild)
    && !(a.write && b.read)
    && a.gates !! b.gates
    && (a.leaf.Some? ==> a.leaf != b.leaf)
  }

  ghost predicate Inv(s: State) {
    && (forall i | i in s :: Disciplined(s[i].held, s[i].todo) && HeldOk(s[i].held))
    && (forall i, j | i in s && j in s && i != j :: Exclusive(s[i].held, s[j].held))
  }

  /** What Free says of one other thread. */
  predicate FreeFrom(op: Op, o: Held) {
    match op
    case LockSurface => !o.surface
    case LockRebuild => !o.rebuild
    case ReadLock => !o.announced && !o.write
    case Announce => !o.announced && !o.write
    case WriteLock => !o.read
    case LockGate(t) => t !in o.gates
    case LockLeaf(l) => o.leaf != Some(l)
    case _ => true
  }

  /** An operation that is allowed and free keeps its thread apart from another. */
  lemma EffectKeepsExclusive(h: Held, op: Op, o: Held)
    requires Exclusive(h, o) && Exclusive(o, h) && HeldOk(h) && HeldOk(o) && Allowed(h, op) && FreeFrom(op, o)
    ensures Exclusive(Effect(h, op), o) && Exclusive(o, Effect(h, op))
  {
  }

  lemma EffectKeepsHeldOk(h: Held, op: Op)
    requires HeldOk(h) && Allowed(h, op)
    ensures HeldOk(Effect(h, op))
  {
  }

  /** What a step makes of its own thread. */
  lemma AdvanceKeepsOk(th: Thread, done: bool)
    requires !th.todo.End? && Disciplined(th.held, th.todo) && HeldOk(th.held)
    ensures var th' := Advance(th, done); Disciplined(th'.held, th'.todo) && HeldOk(th'.held)
  {
    if th.todo.Do? {
      EffectKeepsHeldOk(th.held, th.todo.op);
    }
  }

  /** A free step keeps its thread apart from another. */
  lemma AdvanceKeepsExclusive(th: Thread, done: bool, o: Held)
    requires !th.todo.End? && Disciplined(th.held, th.todo) && HeldOk(th.held) && HeldOk(o)
    requires Exclusive(th.held, o) && Exclusive(o, th.held) && (th.todo.Do? ==> FreeFrom(th.todo.op, o))
    ensures Exclusive(Advance(th, done).held, o) && Exclusive(o, Advance(th, done).held)
  {
    if th.todo.Do? {
      EffectKeepsExclusive(th.held, th.todo.op, o);
    }
  }

  lemma ThreadMoveKeepsInv(s: State, s': State, i: Tid, done: bool)
    requires Inv(s) && ThreadMoves(s, s', i, done)
    ensures Inv(s')
  {
    AdvanceKeepsOk(s[i], done);
    forall j | j in s && j != i
      ensures Exclusive(s'[i].held, s[j].held) && Exclusive(s[j].held, s'[i].held)
    {
      assert Exclusive(s[i].held, s[j].held) && Exclusive(s[j].held, s[i].held);
      assert s[i].todo.Do? ==> FreeFrom(s[i].todo.op, s[j].held);
      AdvanceKeepsExclusive(s[i], done, s[j].held);
    }
  }

  lemma StepKeepsInv(s: State, s': State)
    requires Inv(s) && Step(s, s')
    ensures Inv(s')
  {
    if i, done: bool :| ThreadMoves(s, s', i, done) {
      ThreadMoveKeepsInv(s, s', i, done);
    }
  }

  /** Every reachable state keeps the discipline and mutual exclusion. */
  lemma {:induction false} RunKeepsInv(run: seq<State>, k: nat)
    requires Run(run) && k < |run|
    ensures Inv(run[k])
  {
    if k > 0 {
      RunKeepsInv(run, k - 1);
      assert StepAt(run, k - 1);
      StepKeepsInv(run[k - 1], run[k]);
    }
  }

  // ---- Deadlock freedom ----

  /** A leaf lock's holder waits for nothing. */
  lemma LeafHolderSteps(s: State, i: Tid)
    requires Inv(s) && i in s && s[i].held.leaf.Some?
    ensures CanStep(s, i)
  {
  }

  /** A gate held outside runtimeRebuildMu is held by a thread that can step,
      or waits only for a leaf lock. */
  lemma GateHolderSteps(s: State, i: Tid) returns (w: Tid)
    requires Inv(s) && i in s && s[i].held.gates != {} && !s[i].held.rebuild
    ensures CanStep(s, w)
  {
    w := i;
    if !CanStep(s, i) {
      w := BlockedOnLeaf(s, i);
    }
  }

  lemma BlockedOnLeaf(s: State, i: Tid) returns (w: Tid)
    requires Inv(s) && i in s && s[i].todo.Do? && s[i].todo.op.LockLeaf? && !CanStep(s, i)
    ensures CanStep(s, w)
  {
    w :| w in s && s[w].held.leaf == Some(s[i].todo.op.leaf);
    LeafHolderSteps(s, w);
  }

  /** Every writer holds runtimeRebuildMu, so no writer is queued or inside
      while another thread holding runtimeRebuildMu asks for the read side. */
  lemma NoQueuedWriterAtRebuildHolder(s: State, i: Tid)
    requires Inv(s) && i in s && s[i].held.rebuild
    ensures forall j | j in s && j != i :: !s[j].held.announced && !s[j].held.write
  {
    forall j | j in s && j != i
      ensures !s[j].held.announced && !s[j].held.write
    {
      assert Exclusive(s[i].held, s[j].held);
    }
  }

  /** The holder of a gate some thread waits for leads to a step, provided that
      holder is not itself the holder of runtimeRebuildMu. */
  lemma BlockedOnGate(s: State, i: Tid, k: Tid) returns (w: Tid)
    requires Inv(s) && i in s && s[i].todo.Do? && s[i].todo.op.LockGate?
    requires k in s && s[i].todo.op.tab in s[k].held.gates && !s[k].held.rebuild
    ensures CanStep(s, w)
  {
    w := GateHolderSteps(s, k);
  }

  lemma ReaderInsideSteps(s: State, writer: Tid, i: Tid) returns (w: Tid)
    requires Inv(s) && writer in s && s[writer].held.announced
    requires i in s && s[i].held.read
    ensures CanStep(s, w)
  {
    w := i;
    if !CanStep(s, i) {
      assert Exclusive(s[writer].held, s[i].held);
      match s[i].todo.op
      case LockGate(t) =>
        var k :| k in s && t in s[k].held.gates;
        assert k != writer && Exclusive(s[writer].held, s[k].held);
        w := BlockedOnGate(s, i, k);
      case LockLeaf(_) =>
        w := BlockedOnLeaf(s, i);
      case _ => assert false;
    }
  }

  lemma RebuildHolderLeadsToStep(s: State, i: Tid) returns (w: Tid)
    requires Inv(s) && i in s && s[i].held.rebuild
    ensures CanStep(s, w)
  {
    w := i;
    if !CanStep(s, i) {
      NoQueuedWriterAtRebuildHolder(s, i);
      match s[i].todo.op
      case WriteLock =>
        var j :| j in s && s[j].held.read;
        w := ReaderInsideSteps(s, i, j);
      case LockGate(t) =>
        var k :| k in s && t in s[k].held.gates;
        assert Exclusive(s[i].held, s[k].held);
        w := BlockedOnGate(s, i, k);
      case LockLeaf(_) =>
        w := BlockedOnLeaf(s, i);
      case _ => assert false;
    }
  }

  lemma NoRebuildHolderLeadsToStep(s: State, i: Tid) returns (w: Tid)
    requires Inv(s) && i in s && s[i].todo != End
    requires forall j | j in s :: !s[j].held.rebuild
    ensures CanStep(s, w)
    decreases if s[i].held.surface then 0 else 1
  {
    w := i;
    if !CanStep(s, i) {
      match s[i].todo.op
      case LockSurface =>
        var k :| k in s && s[k].held.surface;
        w := NoRebuildHolderLeadsToStep(s, k);
      case LockGate(t) =>
        var k :| k in s && t in s[k].held.gates;
        w := BlockedOnGate(s, i, k);
      case LockLeaf(_) =>
        w := BlockedOnLeaf(s, i);
      case _ => assert false;
    }
  }

  /** Deadlock freedom: in every reachable state with an unfinished thread,
      some thread can step. */
  lemma DeadlockFree(run: seq<State>, k: nat, i: Tid) returns (w: Tid)
    requires Run(run) && k < |run|
    requires i in run[k] && run[k][i].todo != End
    ensures CanStep(run[k], w)
  {
    RunKeepsInv(run, k);
    w := SomeThreadSteps(run[k], i);
  }

  lemma SomeThreadSteps(s: State, i: Tid) returns (w: Tid)
    requires Inv(s) && i in s && s[i].todo != End
    ensures CanStep(s, w)
  {
    if j :| j in s && s[j].held.rebuild {
      w := RebuildHolderLeadsToStep(s, j);
    } else {
      w := NoRebuildHolderLeadsToStep(s, i);
    }
  }

  /** When nothing can step, every thread has finished and holds nothing. */
  lemma StuckMeansFinished(run: seq<State>, k: nat)
    requires Run(run) && k < |run|
    requires forall w :: !CanStep(run[k], w)
    ensures forall i | i in run[k] :: run[k][i] == Thread(NOTHING, End)
  {
    RunKeepsInv(run, k);
    forall i | i in run[k]
      ensures run[k][i] == Thread(NOTHING, End)
    {
      if run[k][i].todo != End {
        var w := DeadlockFree(run, k, i);
      }
    }
  }

  // ---- Actions that exclude each other ----

  predicate Destroys(a: Action) {
    a.Mutate? || a.RebindSession? || a.ClearSession? || a.DeleteSession?
  }

  predicate Removes(a: Action) {
    a.ClearSession? || a.DeleteSession? || a.PurgeSession?
  }

  predicate NeedsRuntime(a: Action) {
    a.Invoke? || a.Settle? || a.BuildRuntime?
  }

  /** The actions on one tab that its gate keeps apart. */
  predicate Touches(a: Action, t: Tab) {
    || a == Invoke(t) || a == Settle(t) || a == RebindSession(t) || a == ClearSession(t) || a == Set(t)
    || (a.Mutate? && t in a.tabs)
  }

  /** Two changes of runtimes or sessions; two removals of session files; a
      rebind or delete and a turn or build; anything on one tab; two repairs of
      one tab. */
  predicate Conflict(a: Action, b: Action) {
    || (Destroys(a) && Destroys(b)) || (Removes(a) && Removes(b))
    || ((a.RebindSession? || a.DeleteSession?) && (NeedsRuntime(b) || b.Repair?))
    || (exists t | t in {TabOf(a), TabOf(b)} :: Touches(a, t) && Touches(b, t))
    || (a.Repair? && a == b)
  }

  function TabOf(a: Action): Tab {
    match a
    case Invoke(t) => t
    case Settle(t) => t
    case RebindSession(t) => t
    case ClearSession(t) => t
    case Set(t) => t
    case Repair(t) => t
    case _ => 0
  }

  ghost predicate About(s: State, i: Tid, a: Action) {
    i in s && s[i].todo.Do? && s[i].todo.op == Work(a)
  }

  /** In no reachable state are two threads at conflicting actions. */
  lemma ConflictsExclude(run: seq<State>, k: nat, i: Tid, j: Tid, a: Action, b: Action)
    requires Run(run) && k < |run| && i != j && About(run[k], i, a) && About(run[k], j, b)
    ensures !Conflict(a, b)
  {
    RunKeepsInv(run, k);
    ActionsApart(run[k][i].held, run[k][j].held, a, b);
  }

  lemma ActionsApart(h: Held, o: Held, a: Action, b: Action)
    requires HeldOk(h) && HeldOk(o) && Exclusive(h, o) && Exclusive(o, h)
    requires ActionAllowed(h, a) && ActionAllowed(o, b)
    ensures !Conflict(a, b)
  {
    forall t
      ensures Touches(a, t) ==> t in h.gates
      ensures Touches(b, t) ==> t in o.gates
    {
    }
  }
}
