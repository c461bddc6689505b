/** The programs desktop operations run over the runtime locks: each keeps the
    discipline, does its work, and does nothing when its idle check is refused. */
module LockPrograms {
  import opened Wrappers
  import opened RuntimeLocks

  function Do2(a: Op, b: Op, rest: Ops): Ops {
    Do(a, Do(b, rest))
  }

  function Do4(a: Op, b: Op, c: Op, d: Op, rest: Ops): Ops {
    Do2(a, b, Do2(c, d, rest))
  }

  function LockGates(tabs: seq<Tab>, next: Ops): Ops
    decreases |tabs|
  {
    if |tabs| == 0 then next else Do(LockGate(tabs[0]), LockGates(tabs[1..], next))
  }

  /** The release func unlocks in reverse order. */
  function UnlockGates(tabs: seq<Tab>, next: Ops): Ops
    decreases |tabs|
  {
    if |tabs| == 0 then next
    else Do(UnlockGate(tabs[|tabs| - 1]), UnlockGates(tabs[..|tabs| - 1], next))
  }

  /** ensureTabControllerWorkspaceAdmissionHeld, one tab after another. */
  function Repairs(tabs: seq<Tab>, next: Ops): Ops
    decreases |tabs|
  {
    if |tabs| == 0 then next
    else Do(LockLeaf(Reconcile(tabs[0])), Do2(Work(Repair(tabs[0])), UnlockLeaf, Repairs(tabs[1..], next)))
  }

  datatype Program =
    | Submit(tab: Tab)            // beginTabTurn .. finish
    | Switch(tab: Tab)            // model, effort and token switches, settings rebuilds
    | Rebind(tab: Tab)            // rebindTabToLoadedSessionPath
    | Mutation(tabs: seq<Tab>, repairs: seq<Tab>)
                                  // lockRuntimeMutation, then lockRuntimeTurnGates, then the
                                  // workspace repairs of the rebuilds made under them
    | Clear(tab: Tab)             // clearActiveSessionRuntime
    | Delete                      // deleteSession
    | Purge                       // purgeTrashedSession
    | Setter(tab: Tab)            // SetModeForTab and the other plain setters
    | EnsureWorkspace(tab: Tab)   // ensureTabControllerWorkspace
    | Build                       // buildTabControllerWithContext
    | StartupRebuild              // retryDeferredStartupBuild

  function Code(p: Program): Ops {
    match p
    case Submit(t) =>
      var release := Do2(UnlockGate(t), ReadUnlock, End);
      Do2(ReadLock, LockGate(t), Repairs([t],
      Try(Admit(t), Do2(Work(Invoke(t)), Work(Settle(t)), release), release)))
    case Switch(t) =>
      var release := Do2(UnlockGate(t), UnlockRebuild, End);
      Do2(LockRebuild, LockGate(t),
      Try(CheckIdle([t]),
          Do(ReadLock, Repairs([t], Do2(ReadUnlock, Work(Mutate([t])), release))),
          release))
    case Rebind(t) =>
      Do4(LockRebuild, Announce, WriteLock, LockGate(t),
      Do4(Work(RebindSession(t)), UnlockGate(t), WriteUnlock, UnlockRebuild, End))
    case Mutation(tabs, repairs) =>
      Do(LockRebuild, Do2(Announce, WriteLock, LockGates(tabs, GatedMutation(tabs, repairs))))
    case Clear(t) =>
      Do4(LockRebuild, LockGate(t), LockLeaf(Removal), Work(ClearSession(t)),
      Do(UnlockLeaf, Do2(UnlockGate(t), UnlockRebuild, End)))
    case Delete =>
      Do4(LockRebuild, Announce, WriteLock, LockLeaf(Removal),
      Do4(Work(DeleteSession), UnlockLeaf, WriteUnlock, UnlockRebuild, End))
    case Purge =>
      Do(LockLeaf(Removal), Do2(Work(PurgeSession), UnlockLeaf, End))
    case Setter(t) =>
      Do(LockGate(t), Do2(Work(Set(t)), UnlockGate(t), End))
    case EnsureWorkspace(t) =>
      Do(ReadLock, Repairs([t], Do(ReadUnlock, End)))
    case Build =>
      Do(ReadLock, Do2(Work(BuildRuntime), ReadUnlock, End))
    case StartupRebuild =>
      Do4(LockRebuild, ReadLock, Work(BuildRuntime), ReadUnlock, Do(UnlockRebuild, End))
  }

  /** A mutation from the last gate on; a refused check releases everything. */
  function GatedMutation(tabs: seq<Tab>, repairs: seq<Tab>): Ops {
    var release := UnlockGates(tabs, Do2(WriteUnlock, UnlockRebuild, End));
    Try(CheckIdle(tabs), Repairs(repairs, Do(Work(Mutate(tabs)), release)), release)
  }

  predicate Distinct(tabs: seq<Tab>) {
    forall i, j | 0 <= i < j < |tabs| :: tabs[i] != tabs[j]
  }

  /** lockRuntimeTurnGates takes each selected tab once, in tab-ID order. */
  predicate WellFormed(p: Program) {
    p.Mutation? ==> forall i, j | 0 <= i < j < |p.tabs| :: p.tabs[i] < p.tabs[j]
  }

  // ---- The programs keep the discipline ----

  lemma {:induction false} UnlockGatesDisciplined(h: Held, tabs: seq<Tab>, next: Ops)
    requires Distinct(tabs) && h.gates == GatesOf(tabs) && !h.announced && h.checked <= h.gates
    requires Disciplined(h.(gates := {}, checked := {}), next)
    ensures Disciplined(h, UnlockGates(tabs, next))
    decreases |tabs|
  {
    if |tabs| > 0 {
      var init, last := tabs[..|tabs| - 1], tabs[|tabs| - 1];
      assert tabs == init + [last];
      assert h.gates - {last} == GatesOf(init);
      var h' := h.(gates := GatesOf(init), checked := h.checked - {last});
      assert h'.(gates := {}, checked := {}) == h.(gates := {}, checked := {});
      UnlockGatesDisciplined(h', init, next);
    } else {
      assert h.(gates := {}, checked := {}) == h;
    }
  }

  lemma {:induction false} LockGatesDisciplined(h: Held, tabs: seq<Tab>, next: Ops)
    requires Distinct(tabs) && h.rebuild && !h.announced && h.leaf.None?
    requires h.gates !! GatesOf(tabs)
    requires Disciplined(h.(gates := h.gates + GatesOf(tabs)), next)
    ensures Disciplined(h, LockGates(tabs, next))
    decreases |tabs|
  {
    if |tabs| > 0 {
      assert tabs == [tabs[0]] + tabs[1..];
      assert tabs[0] in GatesOf(tabs);
      var h' := h.(gates := h.gates + {tabs[0]});
      assert h'.gates + GatesOf(tabs[1..]) == h.gates + GatesOf(tabs);
      LockGatesDisciplined(h', tabs[1..], next);
    } else {
      assert h.gates + GatesOf(tabs) == h.gates;
    }
  }

  lemma {:induction false} RepairsDisciplined(h: Held, tabs: seq<Tab>, next: Ops)
    requires !h.announced && h.leaf.None? && (h.read || h.write) && Disciplined(h, next)
    ensures Disciplined(h, Repairs(tabs, next))
    decreases |tabs|
  {
    if |tabs| > 0 {
      RepairsDisciplined(h, tabs[1..], next);
      var l := h.(leaf := Some(Reconcile(tabs[0])));
      assert l.(leaf := None) == h;
      assert Disciplined(l, Do2(Work(Repair(tabs[0])), UnlockLeaf, Repairs(tabs[1..], next)));
    }
  }

  lemma {:induction false} SubmitIsDisciplined(t: Tab)
    ensures Disciplined(NOTHING, Code(Submit(t)))
  {
    var h := NOTHING.(read := true, gates := {t});
    var release := Do2(UnlockGate(t), ReadUnlock, End);
    assert h.gates - {t} == {};
    assert Disciplined(h, release);
    var admitted := Do2(Work(Invoke(t)), Work(Settle(t)), release);
    assert Disciplined(h, admitted);
    var tail := Try(Admit(t), admitted, release);
    RepairsDisciplined(h, [t], tail);
    assert {} + {t} == h.gates;
    assert Disciplined(NOTHING.(read := true), Do(LockGate(t), Repairs([t], tail)));
  }

  lemma {:induction false} SwitchIsDisciplined(t: Tab)
    ensures Disciplined(NOTHING, Code(Switch(t)))
  {
    var h := NOTHING.(rebuild := true, gates := {t});
    var c := h.(checked := {t});
    var release := Do2(UnlockGate(t), UnlockRebuild, End);
    assert h.gates - {t} == {} && c.checked - {t} == {};
    assert Disciplined(h, release) && Disciplined(c, release);
    assert GatesOf([t]) == {t};
    var mutate := Do2(ReadUnlock, Work(Mutate([t])), release);
    SwitchMutates(c, mutate, release, t);
    RepairsDisciplined(c.(read := true), [t], mutate);
    assert Disciplined(c, Do(ReadLock, Repairs([t], mutate)));
    assert h.checked + GatesOf([t]) == c.checked;
    var tail := Try(CheckIdle([t]), Do(ReadLock, Repairs([t], mutate)), release);
    assert Disciplined(h, tail);
    assert {} + {t} == h.gates;
    assert Disciplined(NOTHING.(rebuild := true), Do(LockGate(t), tail));
  }

  lemma SwitchMutates(c: Held, mutate: Ops, release: Ops, t: Tab)
    requires c.rebuild && t in c.checked && !c.read && !c.announced && Disciplined(c, release)
    requires mutate == Do2(ReadUnlock, Work(Mutate([t])), release)
    ensures Disciplined(c.(read := true), mutate)
  {
    assert c.(read := true).(read := false) == c;
    assert Disciplined(c, Do(Work(Mutate([t])), release));
  }

  /** Disciplined, run for at most n operations: straight-line programs are
      checked by evaluating it. */
  predicate Check(n: nat, h: Held, todo: Ops)
    decreases n
  {
    match todo
    case End => h == NOTHING
    case Do(op, rest) => n > 0 && Allowed(h, op) && Check(n - 1, Effect(h, op), rest)
    case Try(_, _, _) => false
  }

  lemma {:induction false} CheckIsSound(n: nat, h: Held, todo: Ops)
    requires Check(n, h, todo)
    ensures Disciplined(h, todo)
  {
    if todo.Do? {
      CheckIsSound(n - 1, Effect(h, todo.op), todo.rest);
    }
  }

  lemma {:induction false} RebindIsDisciplined(t: Tab)
    ensures Disciplined(NOTHING, Code(Rebind(t)))
  {
    CheckIsSound(8, NOTHING, Code(Rebind(t)));
  }

  lemma {:induction false} ClearIsDisciplined(t: Tab)
    ensures Disciplined(NOTHING, Code(Clear(t)))
  {
    CheckIsSound(7, NOTHING, Code(Clear(t)));
  }

  lemma {:induction false} DeleteIsDisciplined()
    ensures Disciplined(NOTHING, Code(Delete))
  {
    DeletionReleases(NOTHING.(rebuild := true, write := true, leaf := Some(Removal)));
    RemovalUnderWriter(Do4(Work(DeleteSession), UnlockLeaf, WriteUnlock, UnlockRebuild, End));
  }

  lemma DeletionReleases(h: Held)
    requires h == NOTHING.(rebuild := true, write := true, leaf := Some(Removal))
    ensures Disciplined(h, Do4(Work(DeleteSession), UnlockLeaf, WriteUnlock, UnlockRebuild, End))
  {
    var w := h.(leaf := None);
    var last := Do2(WriteUnlock, UnlockRebuild, End);
    CheckIsSound(2, w, last);
    assert Disciplined(h, Do2(Work(DeleteSession), UnlockLeaf, last));
  }

  /** The write side and the removal leaf, taken in order. */
  lemma RemovalUnderWriter(tail: Ops)
    requires Disciplined(NOTHING.(rebuild := true, write := true, leaf := Some(Removal)), tail)
    ensures Disciplined(NOTHING, Do4(LockRebuild, Announce, WriteLock, LockLeaf(Removal), tail))
  {
    assert Disciplined(NOTHING.(rebuild := true, write := true), Do(LockLeaf(Removal), tail));
    assert Disciplined(NOTHING.(rebuild := true), Do2(Announce, WriteLock, Do(LockLeaf(Removal), tail)));
  }

  lemma {:induction false} ShortProgramsAreDisciplined(p: Program)
    requires p.Purge? || p.Setter? || p.Build? || p.StartupRebuild?
    ensures Disciplined(NOTHING, Code(p))
  {
    CheckIsSound(5, NOTHING, Code(p));
  }

  lemma {:induction false} EnsureWorkspaceIsDisciplined(t: Tab)
    ensures Disciplined(NOTHING, Code(EnsureWorkspace(t)))
  {
    RepairsDisciplined(NOTHING.(read := true), [t], Do(ReadUnlock, End));
  }

  lemma {:induction false} GatedMutationIsDisciplined(w: Held, tabs: seq<Tab>, repairs: seq<Tab>)
    requires Distinct(tabs) && w == NOTHING.(rebuild := true, write := true)
    ensures Disciplined(w.(gates := GatesOf(tabs)), GatedMutation(tabs, repairs))
  {
    var tail := Do2(WriteUnlock, UnlockRebuild, End);
    var g := w.(gates := GatesOf(tabs));
    var c := g.(checked := GatesOf(tabs));
    CheckIsSound(2, w, tail);
    assert g.(gates := {}, checked := {}) == w && c.(gates := {}, checked := {}) == w;
    UnlockGatesDisciplined(g, tabs, tail);
    UnlockGatesDisciplined(c, tabs, tail);
    RepairsDisciplined(c, repairs, Do(Work(Mutate(tabs)), UnlockGates(tabs, tail)));
    assert AfterTry(g, CheckIdle(tabs), true) == c;
  }

  lemma {:induction false} MutationIsDisciplined(tabs: seq<Tab>, repairs: seq<Tab>)
    requires Distinct(tabs)
    ensures Disciplined(NOTHING, Code(Mutation(tabs, repairs)))
  {
    var w := NOTHING.(rebuild := true, write := true);
    var mid := GatedMutation(tabs, repairs);
    GatedMutationIsDisciplined(w, tabs, repairs);
    assert w.gates + GatesOf(tabs) == GatesOf(tabs);
    LockGatesDisciplined(w, tabs, mid);
    assert Disciplined(NOTHING.(rebuild := true), Do2(Announce, WriteLock, LockGates(tabs, mid)));
  }

  lemma EveryProgramIsDisciplined(p: Program)
    requires WellFormed(p)
    ensures Disciplined(NOTHING, Code(p))
  {
    match p
    case Submit(t) => SubmitIsDisciplined(t);
    case Switch(t) => SwitchIsDisciplined(t);
    case Mutation(tabs, repairs) => MutationIsDisciplined(tabs, repairs);
    case Rebind(t) => RebindIsDisciplined(t);
    case Clear(t) => ClearIsDisciplined(t);
    case Delete => DeleteIsDisciplined();
    case EnsureWorkspace(t) => EnsureWorkspaceIsDisciplined(t);
    case _ => ShortProgramsAreDisciplined(p);
  }

  // ---- The programs do their work ----

  /** What a program is for. */
  predicate IsWorkOf(p: Program, a: Action) {
    match p
    case Submit(t) => a in {Repair(t), Admit(t), Invoke(t), Settle(t)}
    case Switch(t) => a in {Repair(t), Mutate([t])}
    case Rebind(t) => a == RebindSession(t)
    case Mutation(tabs, repairs) => a == Mutate(tabs) || (a.Repair? && a.tab in repairs)
    case Clear(t) => a == ClearSession(t)
    case Delete => a == DeleteSession
    case Purge => a == PurgeSession
    case Setter(t) => a == Set(t)
    case EnsureWorkspace(t) => a == Repair(t)
    case Build => a == BuildRuntime
    case StartupRebuild => a == BuildRuntime
  }

  /** The action is met when nothing is refused. */
  predicate Meets(ops: Ops, a: Action) {
    match ops
    case End => false
    case Do(op, rest) => op == Work(a) || Meets(rest, a)
    case Try(b, done, _) => a == b || Meets(done, a)
  }

  /** The action is met when something is refused. */
  predicate MeetsRefused(ops: Ops, a: Action) {
    match ops
    case End => false
    case Do(_, rest) => MeetsRefused(rest, a)
    case Try(_, done, refused) => Meets(refused, a) || MeetsRefused(refused, a) || MeetsRefused(done, a)
  }

  lemma MeetsDo2(x: Op, y: Op, rest: Ops, a: Action)
    ensures Meets(Do2(x, y, rest), a) <==> x == Work(a) || y == Work(a) || Meets(rest, a)
    ensures MeetsRefused(Do2(x, y, rest), a) <==> MeetsRefused(rest, a)
  {
    var tail := Do(y, rest);
    assert Meets(tail, a) <==> y == Work(a) || Meets(rest, a);
    assert MeetsRefused(tail, a) <==> MeetsRefused(rest, a);
  }

  lemma MeetsDo4(x: Op, y: Op, z: Op, w: Op, rest: Ops, a: Action)
    ensures Meets(Do4(x, y, z, w, rest), a) <==>
            x == Work(a) || y == Work(a) || z == Work(a) || w == Work(a) || Meets(rest, a)
    ensures MeetsRefused(Do4(x, y, z, w, rest), a) <==> MeetsRefused(rest, a)
  {
    MeetsDo2(z, w, rest, a);
    MeetsDo2(x, y, Do2(z, w, rest), a);
  }

  lemma {:induction false} MeetsRepairs(tabs: seq<Tab>, next: Ops, a: Action)
    ensures Meets(Repairs(tabs, next), a) <==> Meets(next, a) || (a.Repair? && a.tab in tabs)
    ensures MeetsRefused(Repairs(tabs, next), a) <==> MeetsRefused(next, a)
    decreases |tabs|
  {
    if |tabs| > 0 {
      MeetsRepairs(tabs[1..], next, a);
      assert tabs == [tabs[0]] + tabs[1..];
      MeetsDo2(Work(Repair(tabs[0])), UnlockLeaf, Repairs(tabs[1..], next), a);
    }
  }

  lemma {:induction false} MeetsGates(tabs: seq<Tab>, next: Ops, a: Action)
    ensures Meets(LockGates(tabs, next), a) <==> Meets(next, a)
    ensures Meets(UnlockGates(tabs, next), a) <==> Meets(next, a)
    ensures MeetsRefused(LockGates(tabs, next), a) <==> MeetsRefused(next, a)
    ensures MeetsRefused(UnlockGates(tabs, next), a) <==> MeetsRefused(next, a)
    decreases |tabs|
  {
    if |tabs| > 0 {
      MeetsGates(tabs[1..], next, a);
      MeetsGates(tabs[..|tabs| - 1], next, a);
    }
  }

  /** Every program meets its work, and nothing else but its checks, when nothing
      is refused; when its check is refused it meets nothing after it. */
  lemma EveryProgramDoesItsWork(p: Program, a: Action)
    ensures !a.CheckIdle? ==> (Meets(Code(p), a) <==> IsWorkOf(p, a))
    ensures !MeetsRefused(Code(p), a)
  {
    match p
    case Submit(t) => SubmitDoesItsWork(t, a);
    case Switch(t) => SwitchDoesItsWork(t, a);
    case Mutation(tabs, repairs) => MutationDoesItsWork(tabs, repairs, a);
    case EnsureWorkspace(t) => MeetsRepairs([t], Do(ReadUnlock, End), a);
    case _ => ShortProgramsDoTheirWork(p, a);
  }

  lemma SubmitDoesItsWork(t: Tab, a: Action)
    ensures Meets(Code(Submit(t)), a) <==> IsWorkOf(Submit(t), a)
    ensures !MeetsRefused(Code(Submit(t)), a)
  {
    var release := Do2(UnlockGate(t), ReadUnlock, End);
    var admitted := Do2(Work(Invoke(t)), Work(Settle(t)), release);
    MeetsDo2(UnlockGate(t), ReadUnlock, End, a);
    MeetsDo2(Work(Invoke(t)), Work(Settle(t)), release, a);
    MeetsRepairs([t], Try(Admit(t), admitted, release), a);
    MeetsDo2(ReadLock, LockGate(t), Repairs([t], Try(Admit(t), admitted, release)), a);
  }

  lemma SwitchDoesItsWork(t: Tab, a: Action)
    ensures !a.CheckIdle? ==> (Meets(Code(Switch(t)), a) <==> IsWorkOf(Switch(t), a))
    ensures !MeetsRefused(Code(Switch(t)), a)
  {
    var release := Do2(UnlockGate(t), UnlockRebuild, End);
    var mutate := Do2(ReadUnlock, Work(Mutate([t])), release);
    MeetsDo2(UnlockGate(t), UnlockRebuild, End, a);
    MeetsDo2(ReadUnlock, Work(Mutate([t])), release, a);
    MeetsRepairs([t], mutate, a);
    MeetsDo2(LockRebuild, LockGate(t), Try(CheckIdle([t]), Do(ReadLock, Repairs([t], mutate)), release), a);
  }

  lemma MutationDoesItsWork(tabs: seq<Tab>, repairs: seq<Tab>, a: Action)
    ensures !a.CheckIdle? ==> (Meets(Code(Mutation(tabs, repairs)), a) <==> IsWorkOf(Mutation(tabs, repairs), a))
    ensures !MeetsRefused(Code(Mutation(tabs, repairs)), a)
  {
    var tail := Do2(WriteUnlock, UnlockRebuild, End);
    MeetsDo2(WriteUnlock, UnlockRebuild, End, a);
    MeetsGates(tabs, tail, a);
    MeetsRepairs(repairs, Do(Work(Mutate(tabs)), UnlockGates(tabs, tail)), a);
    MeetsGates(tabs, GatedMutation(tabs, repairs), a);
    MeetsDo2(Announce, WriteLock, LockGates(tabs, GatedMutation(tabs, repairs)), a);
  }

  lemma ShortProgramsDoTheirWork(p: Program, a: Action)
    requires !p.Submit? && !p.Switch? && !p.Mutation? && !p.EnsureWorkspace?
    ensures Meets(Code(p), a) <==> IsWorkOf(p, a)
    ensures !MeetsRefused(Code(p), a)
  {
    match p
    case Rebind(t) =>
      MeetsDo4(Work(RebindSession(t)), UnlockGate(t), WriteUnlock, UnlockRebuild, End, a);
      MeetsDo4(LockRebuild, Announce, WriteLock, LockGate(t),
               Do4(Work(RebindSession(t)), UnlockGate(t), WriteUnlock, UnlockRebuild, End), a);
    case Clear(t) =>
      MeetsDo2(UnlockGate(t), UnlockRebuild, End, a);
      MeetsDo4(LockRebuild, LockGate(t), LockLeaf(Removal), Work(ClearSession(t)),
               Do(UnlockLeaf, Do2(UnlockGate(t), UnlockRebuild, End)), a);
    case Delete =>
      MeetsDo4(Work(DeleteSession), UnlockLeaf, WriteUnlock, UnlockRebuild, End, a);
      MeetsDo4(LockRebuild, Announce, WriteLock, LockLeaf(Removal),
               Do4(Work(DeleteSession), UnlockLeaf, WriteUnlock, UnlockRebuild, End), a);
    case Purge => MeetsDo2(Work(PurgeSession), UnlockLeaf, End, a);
    case Setter(t) => MeetsDo2(Work(Set(t)), UnlockGate(t), End, a);
    case Build => MeetsDo2(Work(BuildRuntime), ReadUnlock, End, a);
    case StartupRebuild =>
      MeetsDo4(LockRebuild, ReadLock, Work(BuildRuntime), ReadUnlock, Do(UnlockRebuild, End), a);
  }

  // ---- Navigation ----

  /** The operations of navigation: others, run under singleSurfaceMu. */
  function Under(ops: Ops): Ops {
    Do(LockSurface, Then(ops, Do(UnlockSurface, End)))
  }

  function Then(ops: Ops, next: Ops): Ops {
    match ops
    case End => next
    case Do(op, rest) => Do(op, Then(rest, next))
    case Try(a, done, refused) => Try(a, Then(done, next), Then(refused, next))
  }

  predicate NoSurface(ops: Ops) {
    match ops
    case End => true
    case Do(op, rest) => !op.LockSurface? && !op.UnlockSurface? && NoSurface(rest)
    case Try(_, done, refused) => NoSurface(done) && NoSurface(refused)
  }

  /** What is allowed without singleSurfaceMu is allowed with it. */
  lemma SurfaceIsOutermost(h: Held, op: Op)
    requires !h.surface && Allowed(h, op) && !op.LockSurface? && !op.UnlockSurface?
    ensures var g := h.(surface := true); Allowed(g, op) && Effect(g, op) == Effect(h, op).(surface := true)
    ensures !Effect(h, op).surface
  {
  }

  lemma {:induction false} ThenIsDisciplined(h: Held, ops: Ops)
    requires !h.surface && Disciplined(h, ops) && NoSurface(ops)
    ensures Disciplined(h.(surface := true), Then(ops, Do(UnlockSurface, End)))
    decreases ops
  {
    match ops
    case End =>
    case Do(op, rest) =>
      ThenIsDisciplined(Effect(h, op), rest);
      SurfaceIsOutermost(h, op);
    case Try(a, done, refused) =>
      ThenIsDisciplined(AfterTry(h, a, true), done);
      ThenIsDisciplined(AfterTry(h, a, false), refused);
      assert AfterTry(h.(surface := true), a, true) == AfterTry(h, a, true).(surface := true);
  }

  /** singleSurfaceMu is outermost: whatever keeps the discipline without it may
      also run under it, and then does the same work. */
  lemma NavigationIsDisciplined(ops: Ops)
    requires Disciplined(NOTHING, ops) && NoSurface(ops)
    ensures Disciplined(NOTHING, Under(ops))
  {
    ThenIsDisciplined(NOTHING, ops);
  }

  lemma {:induction false} NavigationDoesItsWork(ops: Ops, a: Action)
    ensures Meets(Under(ops), a) <==> Meets(ops, a)
  {
    MeetsThen(ops, a);
  }

  lemma {:induction false} MeetsThen(ops: Ops, a: Action)
    ensures Meets(Then(ops, Do(UnlockSurface, End)), a) <==> Meets(ops, a)
  {
    match ops
    case End =>
    case Do(_, rest) => MeetsThen(rest, a);
    case Try(_, done, _) => MeetsThen(done, a);
  }

  // ---- The order matters ----

  /** The order matters: a submit that took its tab's gate before the read side
      would deadlock with a mutation gating the same tab. */
  lemma GateBeforeReadDeadlocks(t: Tab, rest: Ops)
    returns (s: State, s1: State, s2: State, s3: State, stuck: State)
    ensures s == map[0 := Thread(NOTHING, Do2(LockGate(t), ReadLock, rest)),
                     1 := Thread(NOTHING, Code(Mutation([t], [])))]
    ensures ThreadStep(s, s1, 0) && ThreadStep(s1, s2, 1) && ThreadStep(s2, s3, 1) && ThreadStep(s3, stuck, 1)
    ensures forall i :: !CanStep(stuck, i)
  {
    s := map[0 := Thread(NOTHING, Do2(LockGate(t), ReadLock, rest)),
             1 := Thread(NOTHING, Code(Mutation([t], [])))];
    s1 := s[0 := Advance(s[0], true)];
    s2 := s1[1 := Advance(s1[1], true)];
    s3 := s2[1 := Advance(s2[1], true)];
    stuck := s3[1 := Advance(s3[1], true)];
    assert ThreadMoves(s, s1, 0, true) && ThreadMoves(s1, s2, 1, true);
    assert ThreadMoves(s2, s3, 1, true) && ThreadMoves(s3, stuck, 1, true);
    assert stuck[1].todo.op == LockGate(t);
    assert stuck[1].held.write && t in stuck[0].held.gates;
  }
}
