/** Foreground turns against runtime mutations. The lock machine of RuntimeLocks
    is given the application state its actions read and write: which tabs have a
    running turn, which event sinks are reserved, and which threads hold an
    admission token. */
module TurnAdmission {
  import opened Wrappers
  import opened RuntimeLocks
  import opened LockPrograms

  datatype Event = Started(tab: Tab) | Ended(tab: Tab) | Mutated(thread: Tid, tabs: seq<Tab>)

  /** tokens: the tabTurnAdmission values not yet released, by owning thread;
      invoked: those whose turn has been submitted. fanning: turns over whose
      TurnDone fan-out still guards the sink. */
  datatype World = World(
    locks: State,
    running: set<Tab>,
    reserved: set<Tab>,
    fanning: set<Tab>,
    tokens: map<Tid, Tab>,
    invoked: set<Tid>,
    log: seq<Event>)

  /** The controller may refuse the submit, so Invoke has two outcomes. */
  ghost predicate Invokes(w: World, w': World, i: Tid, t: Tab) {
    if i in w.tokens && w.tokens[i] == t && i !in w.invoked then
      || w' == w.(locks := w'.locks, invoked := w.invoked + {i},
                  running := w.running + {t}, log := w.log + [Started(t)])
      || w' == w.(locks := w'.locks, invoked := w.invoked + {i})
    else w' == w.(locks := w'.locks)
  }

  /** finish: a turn no longer running gives its reservation up; the token is
      spent. */
  function Settled(w: World, i: Tid, t: Tab): World {
    if i !in w.tokens || w.tokens[i] != t then w
    else if t in w.running then w.(tokens := w.tokens - {i})
    else w.(tokens := w.tokens - {i}, reserved := w.reserved - {t}, fanning := w.fanning - {t})
  }

  ghost predicate Does(w: World, w': World, i: Tid, op: Op) {
    match op
    case Work(Invoke(t)) => Invokes(w, w', i, t)
    case Work(Settle(t)) => w' == Settled(w, i, t).(locks := w'.locks)
    case Work(Mutate(tabs)) => w' == w.(locks := w'.locks, log := w.log + [Mutated(i, tabs)])
    case UnlockGate(t) =>
      w' == w.(locks := w'.locks, tokens := if i in w.tokens && w.tokens[i] == t then w.tokens - {i} else w.tokens)
    case _ => w' == w.(locks := w'.locks)
  }

  /** An admission is refused while the tab has a turn or its sink is reserved,
      and may be for other reasons; an idle check is refused exactly when a tab
      it covers has a turn. */
  ghost predicate Tries(w: World, w': World, i: Tid, a: Action, done: bool) {
    match a
    case Admit(t) =>
      if done
      then t !in w.running && t !in w.reserved
           && w' == w.(locks := w'.locks, reserved := w.reserved + {t},
                       tokens := w.tokens[i := t], invoked := w.invoked - {i})
      else w' == w.(locks := w'.locks)
    case CheckIdle(tabs) => (done <==> GatesOf(tabs) !! w.running) && w' == w.(locks := w'.locks)
    case _ => w' == w.(locks := w'.locks)
  }

  ghost predicate Acts(w: World, w': World, i: Tid, todo: Ops, done: bool) {
    match todo
    case End => false
    case Do(op, _) => Does(w, w', i, op)
    case Try(a, _, _) => Tries(w, w', i, a, done)
  }

  ghost predicate ThreadActs(w: World, w': World, i: Tid, done: bool) {
    ThreadMoves(w.locks, w'.locks, i, done) && Acts(w, w', i, w.locks[i].todo, done)
  }

  ghost predicate Starts(w: World, w': World, i: Tid, todo: Ops) {
    Spawn(w.locks, w'.locks, i, todo) && i !in w.tokens && w' == w.(locks := w'.locks)
  }

  /** A turn ends at any time; its sink stays reserved until its fan-out is over,
      also at any time later, unless finish finds the turn over before that. */
  ghost predicate TurnEnds(w: World, w': World, t: Tab) {
    t in w.running
    && w' == w.(running := w.running - {t}, fanning := w.fanning + {t}, log := w.log + [Ended(t)])
  }

  ghost predicate FanOutDone(w: World, w': World, t: Tab) {
    t in w.fanning && w' == w.(fanning := w.fanning - {t}, reserved := w.reserved - {t})
  }

  ghost predicate WorldStep(w: World, w': World) {
    || (exists i, done: bool :: ThreadActs(w, w', i, done))
    || (exists i, todo :: Starts(w, w', i, todo))
    || (exists t :: TurnEnds(w, w', t))
    || (exists t :: FanOutDone(w, w', t))
  }

  const EMPTY := World(map[], {}, {}, {}, map[], {}, [])

  ghost predicate StepAt(h: seq<World>, k: nat)
    requires k + 1 < |h|
  {
    WorldStep(h[k], h[k + 1])
  }

  /** Any number of threads, each running a program or anything else that keeps
      the discipline. */
  ghost predicate History(h: seq<World>) {
    |h| > 0 && h[0] == EMPTY && forall k | 0 <= k < |h| - 1 :: StepAt(h, k)
  }

  /** Thread i has found tab t idle and still gates it. */
  ghost predicate Checked(w: World, i: Tid, t: Tab) {
    i in w.locks && t in w.locks[i].held.checked
  }

  function Delta(e: Event, t: Tab): int {
    if e == Started(t) then 1 else if e == Ended(t) then -1 else 0
  }

  /** Turns of t begun and not ended in the log. */
  function Live(log: seq<Event>, t: Tab): int {
    if |log| == 0 then 0 else Live(log[..|log| - 1], t) + Delta(log[|log| - 1], t)
  }

  // ---- The invariant ----

  ghost predicate TokensOk(w: World) {
    forall i | i in w.tokens ::
      && i in w.locks && w.locks[i].held.read && !w.locks[i].held.rebuild && w.tokens[i] in w.locks[i].held.gates
      && (i !in w.invoked ==>
            w.tokens[i] !in w.running && w.tokens[i] !in w.fanning && w.tokens[i] in w.reserved)
  }

  ghost predicate IdleOk(w: World) {
    forall i | i in w.locks :: w.locks[i].held.checked !! w.running
  }

  ghost predicate SinksOk(w: World) {
    w.running <= w.reserved && w.fanning <= w.reserved && w.running !! w.fanning
  }

  ghost predicate LiveOk(w: World) {
    forall t :: Live(w.log, t) == if t in w.running then 1 else 0
  }

  ghost predicate Good(w: World) {
    Inv(w.locks) && TokensOk(w) && IdleOk(w) && SinksOk(w) && LiveOk(w)
  }

  lemma AllLiveAppend(log: seq<Event>, e: Event)
    ensures forall t :: Live(log + [e], t) == Live(log, t) + Delta(e, t)
  {
    assert (log + [e])[..|log|] == log;
  }

  /** A thread that holds a token on a tab holds its gate and the read side, so no
      other thread holds one or has checked the tab, and no writer is inside. */
  lemma StarterIsAlone(w: World, i: Tid, t: Tab)
    requires Inv(w.locks) && TokensOk(w) && i in w.tokens && w.tokens[i] == t
    ensures forall j | j in w.tokens && j != i :: w.tokens[j] != t
    ensures forall j :: !Checked(w, j, t)
    ensures forall j | j in w.locks :: !w.locks[j].held.write
  {
    var h := w.locks[i].held;
    forall j | j in w.locks && j != i
      ensures t !in w.locks[j].held.gates && !w.locks[j].held.write && t !in w.locks[j].held.checked
    {
      assert Exclusive(w.locks[j].held, h);
    }
  }

  /** One thread's locks move; the others' stay. */
  ghost predicate Moved(w: World, w': World, i: Tid) {
    && i in w.locks && w'.locks.Keys == w.locks.Keys
    && forall j | j in w.locks && j != i :: w'.locks[j] == w.locks[j]
  }

  /** What a token's thread may do to its locks: keep the read side and the gate,
      unless it gives the gate up, and the token with it. */
  lemma TokenKeeps(w: World, w': World, i: Tid, done: bool)
    requires Inv(w.locks) && TokensOk(w) && ThreadActs(w, w', i, done) && i in w.tokens && i in w'.tokens
    requires w'.tokens[i] == w.tokens[i]
    ensures var h := w'.locks[i].held; h.read && !h.rebuild && w'.tokens[i] in h.gates
  {
    var th := w.locks[i];
    if th.todo.Do? {
      assert Allowed(th.held, th.todo.op);
    }
  }

  /** A submitted turn runs on a tab no other token and no idle check is for. */
  lemma StartKeepsTokens(w: World, w': World, i: Tid, t: Tab)
    requires Inv(w.locks) && TokensOk(w) && Moved(w, w', i) && w'.locks[i].held == w.locks[i].held
    requires i in w.tokens && w.tokens[i] == t && w'.tokens == w.tokens && w'.invoked == w.invoked + {i}
    requires w'.running == w.running + {t} && w'.reserved == w.reserved && w'.fanning == w.fanning
    ensures TokensOk(w')
  {
    StarterIsAlone(w, i, t);
  }

  lemma StartKeepsRest(w: World, w': World, i: Tid, t: Tab)
    requires Inv(w.locks) && TokensOk(w) && Moved(w, w', i) && w'.locks[i].held == w.locks[i].held
    requires IdleOk(w) && SinksOk(w) && LiveOk(w) && i in w.tokens && w.tokens[i] == t && i !in w.invoked
    requires w'.running == w.running + {t} && w'.reserved == w.reserved && w'.fanning == w.fanning
    requires w'.log == w.log + [Started(t)]
    ensures IdleOk(w') && SinksOk(w') && LiveOk(w')
  {
    StarterIsAlone(w, i, t);
    AllLiveAppend(w.log, Started(t));
    forall j | j in w'.locks
      ensures w'.locks[j].held.checked !! w'.running
    {
      assert !Checked(w, j, t) && w'.locks[j].held == w.locks[j].held;
    }
  }

  /** An action leaves the thread's locks as they are. */
  lemma WorkKeepsHeld(w: World, w': World, i: Tid, a: Action)
    requires ThreadActs(w, w', i, true) && w.locks[i].todo.Do? && w.locks[i].todo.op == Work(a)
    ensures Moved(w, w', i) && w'.locks[i].held == w.locks[i].held && Does(w, w', i, Work(a))
  {
  }

  lemma InvokeKeepsGood(w: World, w': World, i: Tid, t: Tab)
    requires Good(w) && Moved(w, w', i) && w'.locks[i].held == w.locks[i].held && Inv(w'.locks)
    requires Does(w, w', i, Work(Invoke(t)))
    ensures Good(w')
  {
    if w'.running != w.running {
      StartKeepsTokens(w, w', i, t);
      StartKeepsRest(w, w', i, t);
    }
  }

  lemma SettleKeepsGood(w: World, w': World, i: Tid, t: Tab)
    requires Good(w) && Moved(w, w', i) && w'.locks[i].held == w.locks[i].held && Inv(w'.locks)
    requires Does(w, w', i, Work(Settle(t)))
    ensures Good(w')
  {
    if i in w.tokens && w.tokens[i] == t {
      SettleKeepsTokens(w, w', i, t);
    }
    assert TokensOk(w') && w'.running == w.running && w'.log == w.log;
  }

  /** The token given up is the only one of its tab. */
  lemma SettleKeepsTokens(w: World, w': World, i: Tid, t: Tab)
    requires Inv(w.locks) && TokensOk(w) && Moved(w, w', i) && w'.locks[i].held == w.locks[i].held
    requires i in w.tokens && w.tokens[i] == t && w'.tokens == w.tokens - {i} && w'.invoked == w.invoked
    requires w'.running == w.running && w.reserved - {t} <= w'.reserved && w'.fanning <= w.fanning
    ensures TokensOk(w')
  {
    StarterIsAlone(w, i, t);
  }

  lemma MutateKeepsGood(w: World, w': World, i: Tid, tabs: seq<Tab>)
    requires Good(w) && Moved(w, w', i) && w'.locks[i].held == w.locks[i].held && Inv(w'.locks)
    requires Does(w, w', i, Work(Mutate(tabs)))
    ensures Good(w')
  {
    AllLiveAppend(w.log, Mutated(i, tabs));
    assert TokensOk(w') && IdleOk(w') && SinksOk(w');
  }

  /** Lock operations, and actions on nothing modelled here. */
  lemma OtherKeepsGood(w: World, w': World, i: Tid, op: Op)
    requires Good(w) && ThreadActs(w, w', i, true) && w.locks[i].todo.Do? && w.locks[i].todo.op == op
    requires !(op.Work? && (op.action.Invoke? || op.action.Settle? || op.action.Mutate?)) && Inv(w'.locks)
    ensures Good(w')
  {
    assert w'.running == w.running && w'.reserved == w.reserved && w'.fanning == w.fanning && w'.log == w.log;
    assert w'.locks[i].held.checked <= w.locks[i].held.checked;
    forall j | j in w'.tokens
      ensures j in w'.locks && w'.locks[j].held.read && !w'.locks[j].held.rebuild
      ensures w'.tokens[j] in w'.locks[j].held.gates
    {
      assert j in w.tokens && w'.tokens[j] == w.tokens[j];
      if j == i {
        TokenKeeps(w, w', i, true);
      }
    }
  }

  /** The outcome of an operation that is not tried does not matter. */
  lemma DoKeepsGood(w: World, w': World, i: Tid, done: bool)
    requires Good(w) && ThreadActs(w, w', i, done) && w.locks[i].todo.Do? && Inv(w'.locks)
    ensures Good(w')
  {
    assert ThreadMoves(w.locks, w'.locks, i, true) && ThreadActs(w, w', i, true);
    var op := w.locks[i].todo.op;
    if op.Work? {
      WorkKeepsHeld(w, w', i, op.action);
    }
    if op.Work? && op.action.Invoke? {
      InvokeKeepsGood(w, w', i, op.action.tab);
    } else if op.Work? && op.action.Settle? {
      SettleKeepsGood(w, w', i, op.action.tab);
    } else if op.Work? && op.action.Mutate? {
      MutateKeepsGood(w, w', i, op.action.tabs);
    } else {
      OtherKeepsGood(w, w', i, op);
    }
  }

  lemma TryKeepsGood(w: World, w': World, i: Tid, done: bool)
    requires Good(w) && ThreadActs(w, w', i, done) && w.locks[i].todo.Try? && Inv(w'.locks)
    ensures Good(w')
  {
    var th := w.locks[i];
    assert TryAllowed(th.held, th.todo.action);
    assert w'.running == w.running && w'.log == w.log;
    if th.todo.action.Admit? && done {
      AdmitKeepsTokens(w, w', i, th.todo.action.tab);
    } else {
      assert w'.tokens == w.tokens;
    }
  }

  /** A new token on a tab no one else holds one for: its gate is exclusive. */
  lemma AdmitKeepsTokens(w: World, w': World, i: Tid, t: Tab)
    requires Good(w) && ThreadActs(w, w', i, true) && w.locks[i].todo.Try? && w.locks[i].todo.action == Admit(t)
    requires Inv(w'.locks)
    ensures TokensOk(w')
  {
    var th := w.locks[i];
    assert TryAllowed(th.held, Admit(t)) && w'.locks[i].held == th.held;
    forall j | j in w'.tokens
      ensures j in w'.locks && w'.locks[j].held.read && !w'.locks[j].held.rebuild
      ensures w'.tokens[j] in w'.locks[j].held.gates
      ensures j !in w'.invoked ==>
                w'.tokens[j] !in w'.running && w'.tokens[j] !in w'.fanning && w'.tokens[j] in w'.reserved
    {
      assert j != i ==> w'.tokens[j] == w.tokens[j] && w'.locks[j] == w.locks[j];
    }
  }

  lemma ThreadActsKeepsGood(w: World, w': World, i: Tid, done: bool)
    requires Good(w) && ThreadActs(w, w', i, done)
    ensures Good(w')
  {
    ThreadMoveKeepsInv(w.locks, w'.locks, i, done);
    if w.locks[i].todo.Do? {
      DoKeepsGood(w, w', i, done);
    } else {
      TryKeepsGood(w, w', i, done);
    }
  }

  lemma StartsKeepsGood(w: World, w': World, i: Tid, todo: Ops)
    requires Good(w) && Starts(w, w', i, todo)
    ensures Good(w')
  {
    StepKeepsInv(w.locks, w'.locks);
    assert forall j | j in w.locks && j != i :: j in w'.locks && w'.locks[j] == w.locks[j];
  }

  lemma TurnEndsKeepsGood(w: World, w': World, t: Tab)
    requires Good(w) && TurnEnds(w, w', t)
    ensures Good(w')
  {
    AllLiveAppend(w.log, Ended(t));
  }

  lemma WorldStepKeepsGood(w: World, w': World)
    requires Good(w) && WorldStep(w, w')
    ensures Good(w')
  {
    if i, done: bool :| ThreadActs(w, w', i, done) {
      ThreadActsKeepsGood(w, w', i, done);
    } else if i, todo :| Starts(w, w', i, todo) {
      StartsKeepsGood(w, w', i, todo);
    } else if t :| TurnEnds(w, w', t) {
      TurnEndsKeepsGood(w, w', t);
    }
  }

  lemma {:induction false} HistoryIsGood(h: seq<World>, k: nat)
    requires History(h) && k < |h|
    ensures Good(h[k])
  {
    if k > 0 {
      HistoryIsGood(h, k - 1);
      assert StepAt(h, k - 1);
      WorldStepKeepsGood(h[k - 1], h[k]);
    }
  }

  // ---- What every history gives ----

  /** No tab ever has two turns at once, and a running turn's sink is reserved. */
  lemma OneTurnAtATime(h: seq<World>, k: nat, t: Tab)
    requires History(h) && k < |h|
    ensures 0 <= Live(h[k].log, t) <= 1
    ensures Live(h[k].log, t) == 1 <==> t in h[k].running
    ensures t in h[k].running ==> t in h[k].reserved
  {
    HistoryIsGood(h, k);
  }

  /** A caller past its idle check gates every tab it checked and sees it idle. */
  lemma CheckedTabsStayIdle(h: seq<World>, k: nat, i: Tid, t: Tab)
    requires History(h) && k < |h| && Checked(h[k], i, t)
    ensures i in h[k].locks && t in h[k].locks[i].held.gates && t !in h[k].running
  {
    HistoryIsGood(h, k);
  }

  /** While a mutation holds the write side there is no admission in flight:
      each one has settled and released (its running turn, if it started one,
      is in `running`), or has yet to begin. */
  lemma NoAdmissionUnderWriter(h: seq<World>, k: nat, i: Tid)
    requires History(h) && k < |h|
    requires i in h[k].locks && h[k].locks[i].held.write
    ensures h[k].tokens == map[]
  {
    HistoryIsGood(h, k);
    if h[k].tokens != map[] {
      var j :| j in h[k].tokens;
      StarterIsAlone(h[k], j, h[k].tokens[j]);
    }
  }

  /** The step behind the last event of a step's log. */
  lemma EventStep(w: World, w': World, e: Event)
    requires WorldStep(w, w') && w'.log == w.log + [e]
    ensures match e
      case Started(t) => exists i :: i in w.tokens && w.tokens[i] == t && i !in w.invoked
      case Mutated(i, tabs) =>
        i in w.locks && w.locks[i].todo.Do? && w.locks[i].todo.op == Work(Mutate(tabs))
      case Ended(t) => t in w.running
  {
    assert w'.log[|w.log|] == e;
    if i, done: bool :| ThreadActs(w, w', i, done) {
      ActEvent(w, w', i, w.locks[i].todo, done, e);
    }
  }

  lemma ActEvent(w: World, w': World, i: Tid, todo: Ops, done: bool, e: Event)
    requires Acts(w, w', i, todo, done) && w'.log == w.log + [e]
    ensures match e
      case Started(t) => i in w.tokens && w.tokens[i] == t && i !in w.invoked
      case Mutated(j, tabs) => j == i && todo.Do? && todo.op == Work(Mutate(tabs))
      case Ended(_) => false
  {
    assert w'.log[|w.log|] == e;
  }

  /** A step that starts a turn finds the tab idle, its sink free of an earlier
      turn's fan-out, no caller past an idle check of it, and no writer inside. */
  lemma StartStep(w: World, w': World, t: Tab)
    requires Good(w) && WorldStep(w, w') && w'.log == w.log + [Started(t)]
    ensures t !in w.running && t !in w.fanning && t in w.reserved
    ensures forall i :: !Checked(w, i, t)
    ensures forall i | i in w.locks :: !w.locks[i].held.write
  {
    EventStep(w, w', Started(t));
    var i :| i in w.tokens && w.tokens[i] == t && i !in w.invoked;
    StarterIsAlone(w, i, t);
  }

  /** A thread mutates the runtimes of tabs it has itself found idle, gates, and
      whose turns have not begun since. */
  lemma MutateStep(w: World, w': World, i: Tid, tabs: seq<Tab>)
    requires Good(w) && WorldStep(w, w') && w'.log == w.log + [Mutated(i, tabs)]
    ensures forall t | t in tabs :: Checked(w, i, t) && t in w.locks[i].held.gates && t !in w.running
    ensures i in w.locks && w.locks[i].held.rebuild
  {
    EventStep(w, w', Mutated(i, tabs));
    assert Allowed(w.locks[i].held, Work(Mutate(tabs)));
    forall t | t in tabs
      ensures t in w.locks[i].held.checked
    {
      assert t in GatesOf(tabs);
    }
  }

  /** Every step appends at most one event. */
  lemma StepLog(w: World, w': World) returns (es: seq<Event>)
    requires WorldStep(w, w')
    ensures w'.log == w.log + es && |es| <= 1
  {
    if w'.log == w.log {
      es := [];
    } else {
      es := [w'.log[|w.log|]];
    }
  }

  /** Every mutation in the log of a history was made by a thread that, at that
      moment, held the gates of its tabs, had found them idle, and saw none of
      them with a turn. A tab with a turn is never mutated. */
  lemma {:induction false} MutatedTabsAreIdle(h: seq<World>, m: nat, x: nat) returns (k: nat)
    requires History(h) && m < |h| && x < |h[m].log| && h[m].log[x].Mutated?
    ensures k < m && x == |h[k].log|
    ensures var e := h[m].log[x];
      && e.thread in h[k].locks && h[k].locks[e.thread].held.rebuild
      && forall t | t in e.tabs ::
           Checked(h[k], e.thread, t) && t in h[k].locks[e.thread].held.gates && t !in h[k].running
    decreases m
  {
    assert m > 0 ==> StepAt(h, m - 1);
    var es := StepLog(h[m - 1], h[m]);
    if x < |h[m - 1].log| {
      k := MutatedTabsAreIdle(h, m - 1, x);
    } else {
      k := m - 1;
      HistoryIsGood(h, k);
      assert es == [h[m].log[x]];
      MutateStep(h[k], h[m], h[m].log[x].thread, h[m].log[x].tabs);
    }
  }

  lemma EventsOfStep(h: seq<World>, k: nat) returns (es: seq<Event>)
    requires History(h) && k + 1 < |h|
    ensures h[k + 1].log == h[k].log + es
    ensures forall t | Started(t) in es ::
              && (forall i :: !Checked(h[k], i, t))
              && (forall i | i in h[k].locks :: !h[k].locks[i].held.write)
  {
    HistoryIsGood(h, k);
    assert StepAt(h, k);
    es := StepLog(h[k], h[k + 1]);
    forall t | Started(t) in es
      ensures forall i :: !Checked(h[k], i, t)
      ensures forall i | i in h[k].locks :: !h[k].locks[i].held.write
    {
      assert es == [Started(t)];
      StartStep(h[k], h[k + 1], t);
    }
  }

  /** From the idle check to the release of the gate, no turn starts on a
      checked tab: what the log gains meanwhile holds no Started event for it. */
  lemma {:induction false} NoStartWhileChecked(h: seq<World>, k: nat, m: nat, i: Tid, t: Tab) returns (es: seq<Event>)
    requires History(h) && k <= m < |h|
    requires forall x | k <= x <= m :: Checked(h[x], i, t)
    ensures h[m].log == h[k].log + es && Started(t) !in es
    decreases m
  {
    es := [];
    if k < m {
      es := NoStartWhileChecked(h, k, m - 1, i, t);
      var more := EventsOfStep(h, m - 1);
      assert Checked(h[m - 1], i, t);
      es := es + more;
    }
  }

  /** While a writer stays inside, no turn starts on any tab, gated or not. */
  lemma {:induction false} NoStartUnderWriter(h: seq<World>, k: nat, m: nat, i: Tid) returns (es: seq<Event>)
    requires History(h) && k <= m < |h|
    requires forall x | k <= x <= m :: i in h[x].locks && h[x].locks[i].held.write
    ensures h[m].log == h[k].log + es && forall t :: Started(t) !in es
    decreases m
  {
    es := [];
    if k < m {
      es := NoStartUnderWriter(h, k, m - 1, i);
      var more := EventsOfStep(h, m - 1);
      assert h[m - 1].locks[i].held.write;
      es := es + more;
    }
  }

  /** A switch or mutation at its idle check is refused when a tab it covers has a
      turn, and what it has left then holds no mutation. */
  lemma BusyTabRefusesMutation(w: World, w': World, i: Tid, done: bool, p: Program, t: Tab)
    requires WellFormed(p) && ThreadActs(w, w', i, done) && w.locks[i].todo.Try?
    requires p.Switch? || p.Mutation?
    requires w.locks[i].todo == CheckOf(p) && t in w.running && t in TabsOf(p)
    ensures !done && w'.log == w.log && forall tabs :: !Meets(w'.locks[i].todo, Mutate(tabs))
  {
    assert t in GatesOf(TabsOf(p));
    forall tabs
      ensures !Meets(CheckOf(p).refused, Mutate(tabs))
    {
      RefusedMeetsNothing(p, Mutate(tabs));
    }
  }

  function TabsOf(p: Program): seq<Tab>
    requires p.Switch? || p.Mutation?
  {
    if p.Switch? then [p.tab] else p.tabs
  }

  /** The rest of a program from its idle check on. */
  function CheckOf(p: Program): (ops: Ops)
    requires p.Switch? || p.Mutation?
    ensures ops.Try? && ops.action == CheckIdle(TabsOf(p))
  {
    if p.Switch? then Code(p).rest.rest else GatedMutation(p.tabs, p.repairs)
  }

  lemma RefusedMeetsNothing(p: Program, a: Action)
    requires p.Switch? || p.Mutation?
    ensures !Meets(CheckOf(p).refused, a)
  {
    if p.Switch? {
      MeetsDo2(UnlockGate(p.tab), UnlockRebuild, End, a);
    } else {
      MeetsDo2(WriteUnlock, UnlockRebuild, End, a);
      MeetsGates(p.tabs, Do2(WriteUnlock, UnlockRebuild, End), a);
    }
  }

  // ---- Nothing but a lock holds a thread up ----

  /** A thread whose next operation is free takes it, whatever the turns are doing:
      an idle check is answered by them, and an admission can always be refused. */
  lemma ThreadCanAct(w: World, i: Tid) returns (w': World, done: bool)
    requires CanStep(w.locks, i)
    ensures ThreadActs(w, w', i, done) && WorldStep(w, w')
  {
    var th := w.locks[i];
    done := th.todo.Do? || (th.todo.action.CheckIdle? && GatesOf(th.todo.action.tabs) !! w.running);
    var next := w.(locks := w.locks[i := Advance(th, done)]);
    w' := if th.todo.Do? then Done(next, i, th.todo.op) else next;
    if th.todo.Do? {
      DoneIsDone(w, w', i, th.todo.op);
    }
    assert Acts(w, w', i, th.todo, done) && ThreadActs(w, w', i, done);
  }

  lemma DoneIsDone(w: World, w': World, i: Tid, op: Op)
    requires w' == Done(w.(locks := w'.locks), i, op)
    ensures Does(w, w', i, op)
  {
  }

  /** One outcome of an operation: the one in which a submit is refused. */
  function Done(w: World, i: Tid, op: Op): World {
    match op
    case Work(Invoke(t)) =>
      if i in w.tokens && w.tokens[i] == t && i !in w.invoked then w.(invoked := w.invoked + {i}) else w
    case Work(Settle(t)) => Settled(w, i, t)
    case Work(Mutate(tabs)) => w.(log := w.log + [Mutated(i, tabs)])
    case UnlockGate(t) => if i in w.tokens && w.tokens[i] == t then w.(tokens := w.tokens - {i}) else w
    case _ => w
  }

  /** So turns and mutations never deadlock: at every moment of a history with an
      unfinished thread, some thread's next step follows. */
  lemma SomeThreadActs(h: seq<World>, k: nat, i: Tid) returns (j: Tid, w': World)
    requires History(h) && k < |h| && i in h[k].locks && h[k].locks[i].todo != End
    ensures j in h[k].locks && WorldStep(h[k], w') && exists done: bool :: ThreadActs(h[k], w', j, done)
  {
    HistoryIsGood(h, k);
    j := SomeThreadSteps(h[k].locks, i);
    var done: bool;
    w', done := ThreadCanAct(h[k], j);
  }

  /** A submit under a fresh token can start its turn, and otherwise nothing comes
      of it; either way the token cannot submit again. */
  lemma InvokeStarts(w: World, i: Tid, t: Tab) returns (w': World)
    requires CanStep(w.locks, i) && w.locks[i].todo.Do? && w.locks[i].todo.op == Work(Invoke(t))
    requires i in w.tokens && w.tokens[i] == t && i !in w.invoked
    ensures WorldStep(w, w') && w'.log == w.log + [Started(t)] && t in w'.running && i in w'.invoked
    ensures forall x, done: bool | ThreadActs(w, x, i, done) ::
              i in x.invoked && x.tokens == w.tokens && (x.log == w'.log || (x.log == w.log && x.running == w.running))
  {
    w' := w.(locks := w.locks[i := Advance(w.locks[i], true)], invoked := w.invoked + {i},
             running := w.running + {t}, log := w.log + [Started(t)]);
    assert ThreadActs(w, w', i, true);
  }

  /** What the other steps of a thread do. An admission reserves a free sink under a
      fresh token; an idle check succeeds exactly when no tab it covers has a turn;
      a mutation is logged; settling a token spends it, and frees the sink unless
      the turn is running. */
  lemma StepEffects(w: World, w': World, i: Tid, done: bool, a: Action)
    requires ThreadActs(w, w', i, done)
    ensures w.locks[i].todo.Try? && w.locks[i].todo.action == a && a.Admit? && done ==>
              && a.tab !in w.reserved && a.tab !in w.running && a.tab in w'.reserved
              && i in w'.tokens && w'.tokens[i] == a.tab && i !in w'.invoked
    ensures w.locks[i].todo.Try? && w.locks[i].todo.action == a && a.CheckIdle? ==>
              (done <==> forall t | t in a.tabs :: t !in w.running)
    ensures w.locks[i].todo.Do? && w.locks[i].todo.op == Work(a) && a.Mutate? ==>
              w'.log == w.log + [Mutated(i, a.tabs)] && w'.running == w.running
    ensures w.locks[i].todo.Do? && w.locks[i].todo.op == Work(a) && a.Settle?
            && i in w.tokens && w.tokens[i] == a.tab ==>
              && i !in w'.tokens && w'.running == w.running && w'.log == w.log
              && (a.tab in w'.reserved <==> a.tab in w.reserved && a.tab in w.running)
              && forall t | t != a.tab :: t in w'.reserved <==> t in w.reserved
  {
    assert a.CheckIdle? ==> forall t :: t in GatesOf(a.tabs) <==> t in a.tabs;
  }

  /** A turn can always end and then free its sink; in between it keeps it. */
  lemma TurnCanEnd(w: World, t: Tab) returns (w1: World, w2: World)
    requires SinksOk(w) && t in w.running
    ensures WorldStep(w, w1) && WorldStep(w1, w2)
    ensures w1.log == w.log + [Ended(t)] && t !in w1.running && t in w1.reserved
    ensures w2.log == w1.log && t !in w2.running && t !in w2.reserved && w2.locks == w.locks
  {
    w1 := w.(running := w.running - {t}, fanning := w.fanning + {t}, log := w.log + [Ended(t)]);
    w2 := w1.(fanning := w1.fanning - {t}, reserved := w1.reserved - {t});
    assert TurnEnds(w, w1, t) && FanOutDone(w1, w2, t);
  }
}
