/** deferredRebuildState: tabs waiting for a runtime rebuild, the flags guarding
    the single retry loop, and the loop and kick goroutines themselves.

    Every critical section under d.mu is one function on Flags; the class runs
    them on fields, and a run interleaves them with any number of schedulers,
    kicks, clears and one stop. */
module DeferredRebuild {
  import opened Text

  type TabId = string
  type Label = string

  datatype Channel = NoChannel | Open | Closed

  datatype Flags = Flags(
    pending: map<TabId, Label>,
    enabled: bool,
    running: bool,
    stopped: bool,
    stop: Channel)

  const INITIAL := Flags(map[], false, false, false, NoChannel)

  predicate ShouldStart(d: Flags) {
    d.enabled && !d.running && !d.stopped && d.pending != map[]
  }

  /** startDeferredRebuildLoopLocked; a loop goroutine starts exactly when
      ShouldStart held. */
  function StartLoop(d: Flags): Flags {
    if ShouldStart(d)
    then d.(running := true, stop := if d.stop.NoChannel? then Open else d.stop)
    else d
  }

  function Scheduled(d: Flags, tab: TabId, setting: Label): Flags {
    var t := Trim(tab);
    if t == "" || d.stopped then d else StartLoop(d.(pending := d.pending[t := setting]))
  }

  function Enabled(d: Flags): Flags {
    StartLoop(d.(enabled := true))
  }

  function Cleared(d: Flags, tab: TabId): Flags {
    d.(pending := d.pending - {tab})
  }

  function Stopped(d: Flags): Flags {
    if d.stopped then d else d.(stopped := true, stop := if d.stop.NoChannel? then d.stop else Closed)
  }

  predicate Done(d: Flags) {
    d.stopped || d.pending == map[]
  }

  /** The locked part of deferredRebuildTick. */
  function Ticked(d: Flags, markIdle: bool): Flags {
    if Done(d) && markIdle then d.(running := false) else d
  }

  function LoopStopped(d: Flags): Flags {
    d.(running := false)
  }

  // ---- The fields and their critical sections ----

  class DeferredRebuildState {
    var pending: map<TabId, Label>
    var enabled: bool
    var running: bool
    var stopped: bool
    var stop: Channel

    function View(): Flags
      reads this
    {
      Flags(pending, enabled, running, stopped, stop)
    }

    constructor ()
      ensures View() == INITIAL
    {
      pending, enabled, running, stopped, stop := map[], false, false, false, NoChannel;
    }

    method StartLoopLocked() returns (spawned: bool)
      modifies this
      ensures View() == old(StartLoop(View()))
      ensures spawned <==> enabled && !old(running) && !stopped && pending != map[]
      ensures enabled == old(enabled) && stopped == old(stopped) && pending == old(pending)
      ensures running == (old(running) || spawned)
      ensures stop == if spawned && old(stop.NoChannel?) then Open else old(stop)
    {
      if !enabled || running || stopped || |pending| == 0 {
        return false;
      }
      running := true;
      if stop.NoChannel? {
        stop := Open;
      }
      return true;
    }

    method Enable() returns (spawned: bool)
      modifies this
      ensures View() == Enabled(old(View()))
      ensures spawned <==> running && !old(running)
      ensures enabled && stopped == old(stopped) && pending == old(pending)
      ensures !stopped && pending != map[] ==> running
      ensures spawned ==> !stopped && pending != map[]
      ensures running == (old(running) || spawned)
      ensures stop == if spawned && old(stop.NoChannel?) then Open else old(stop)
    {
      enabled := true;
      spawned := StartLoopLocked();
    }

    method Schedule(tab: TabId, setting: Label) returns (spawned: bool)
      modifies this
      ensures View() == Scheduled(old(View()), tab, setting)
      ensures spawned <==> running && !old(running)
      ensures enabled == old(enabled) && stopped == old(stopped)
      ensures pending == if Trim(tab) == "" || stopped then old(pending) else old(pending)[Trim(tab) := setting]
      ensures Trim(tab) == "" || stopped ==> View() == old(View())
      ensures Trim(tab) != "" && enabled && !stopped ==> running
      ensures (old(enabled && !stopped && pending != map[] ==> running)) ==>
                (enabled && !stopped && pending != map[] ==> running)
      ensures spawned ==> enabled && !stopped && pending != map[]
      ensures running == (old(running) || spawned)
      ensures stop == if spawned && old(stop.NoChannel?) then Open else old(stop)
    {
      var t := Trim(tab);
      if t == "" || stopped {
        return false;
      }
      pending := pending[t := setting];
      assert t in pending;
      spawned := StartLoopLocked();
    }

    method Clear(tab: TabId)
      modifies this
      ensures View() == Cleared(old(View()), tab)
      ensures pending == old(pending) - {tab} && View() == old(View()).(pending := pending)
    {
      pending := pending - {tab};
    }

    /** The channel is closed at most once: closing it again would panic. */
    method Stop()
      requires stop.Closed? ==> stopped
      modifies this
      ensures View() == Stopped(old(View()))
      ensures stopped && View() == old(View()).(stopped := true, stop := stop)
      ensures stop == if !old(stopped) && old(stop.Open?) then Closed else old(stop)
    {
      if stopped {
        return;
      }
      stopped := true;
      if !stop.NoChannel? {
        assert stop.Open?;
        stop := Closed;
      }
    }

    method Tick(markIdle: bool) returns (done: bool, work: map<TabId, Label>)
      modifies this
      ensures View() == old(Ticked(View(), markIdle))
      ensures done <==> stopped || pending == map[]
      ensures work == if done then map[] else pending
      ensures running == (old(running) && !(done && markIdle)) && View() == old(View()).(running := running)
    {
      work := map[];
      if stopped || |pending| == 0 {
        if markIdle {
          running := false;
        }
        return true, work;
      }
      return false, pending;
    }
  }

  // ---- Runs ----

  type LoopId = nat

  /** Where a loop goroutine is: waiting in its select, past a closed stop
      channel, or replaying the entries its last tick copied. */
  datatype LoopPc = Waiting | Stopping | Retrying

  datatype System = System(d: Flags, loops: map<LoopId, LoopPc>)

  datatype Move =
    | MEnable | MSchedule(tab: TabId, setting: Label) | MClear(tab: TabId) | MStop
    | MKick
    | MSeeStop(l: LoopId) | MExit(l: LoopId) | MTick(l: LoopId) | MRetried(l: LoopId)

  /** A call that may start the loop: the new goroutine has a fresh id. */
  ghost predicate Spawns(s: System, s': System, d: Flags) {
    s'.d == d &&
    if d.running && !s.d.running then exists l: LoopId :: l !in s.loops && s'.loops == s.loops[l := Waiting]
    else s'.loops == s.loops
  }

  ghost predicate Step(s: System, s': System, m: Move) {
    match m
    case MEnable => Spawns(s, s', Enabled(s.d))
    case MSchedule(tab, setting) => Spawns(s, s', Scheduled(s.d, tab, setting))
    case MClear(tab) => s' == s.(d := Cleared(s.d, tab))
    case MStop => s' == s.(d := Stopped(s.d))
    // A kick ticks without marking idle; the clears it leads to are MClear.
    case MKick => s' == s.(d := Ticked(s.d, false))
    case MSeeStop(l) =>
      l in s.loops && s.loops[l].Waiting? && s.d.stop.Closed? && s' == s.(loops := s.loops[l := Stopping])
    case MExit(l) =>
      l in s.loops && s.loops[l].Stopping? && s' == System(LoopStopped(s.d), s.loops - {l})
    case MTick(l) =>
      l in s.loops && s.loops[l].Waiting? &&
      s' == System(Ticked(s.d, true), if Done(s.d) then s.loops - {l} else s.loops[l := Retrying])
    case MRetried(l) =>
      l in s.loops && s.loops[l].Retrying? && s' == s.(loops := s.loops[l := Waiting])
  }

  ghost predicate Inv(s: System) {
    && (s.d.running ==> exists l :: s.loops.Keys == {l})
    && (!s.d.running ==> s.loops == map[])
    && (s.d.enabled && !s.d.stopped && s.d.pending != map[] ==> s.d.running)
    && (s.d.running ==> !s.d.stop.NoChannel?)
    && (s.d.stop.Closed? ==> s.d.stopped)
    && (s.d.stopped ==> !s.d.stop.Open?)
    && (forall l | l in s.loops && s.loops[l].Stopping? :: s.d.stopped)
  }

  lemma StepKeepsInv(s: System, s': System, m: Move)
    requires Inv(s) && Step(s, s', m)
    ensures Inv(s')
  {
    match m
    case MEnable => SpawnKeepsInv(s, s');
    case MSchedule(tab, setting) => SpawnKeepsInv(s, s');
    case MSeeStop(l) => assert s'.loops.Keys == s.loops.Keys;
    case MExit(l) => assert s.loops.Keys == {l} && s'.loops == map[];
    case MTick(l) =>
      assert s.loops.Keys == {l};
      assert Done(s.d) ==> s'.loops == map[];
      assert !Done(s.d) ==> s'.loops.Keys == {l};
    case MRetried(l) => assert s'.loops.Keys == s.loops.Keys;
    case _ =>
  }

  lemma SpawnKeepsInv(s: System, s': System)
    requires Inv(s) && Spawns(s, s', s'.d) && (s.d.running ==> s'.d.running) && s'.d.stopped == s.d.stopped
    requires s'.d.enabled && !s'.d.stopped && s'.d.pending != map[] ==> s'.d.running
    requires s'.d.stop == if s'.d.running && s.d.stop.NoChannel? then Open else s.d.stop
    requires s'.d.running && !s.d.running ==> !s.d.stopped
    ensures Inv(s')
  {
    if s'.d.running && !s.d.running {
      var l: LoopId :| l !in s.loops && s'.loops == s.loops[l := Waiting];
      assert s'.loops.Keys == {l};
    }
  }

  datatype Trace = Trace(states: seq<System>, moves: seq<Move>)

  ghost predicate StepAt(t: Trace, k: nat)
    requires k < |t.moves| && |t.states| == |t.moves| + 1
  {
    Step(t.states[k], t.states[k + 1], t.moves[k])
  }

  ghost predicate Run(t: Trace) {
    && |t.states| == |t.moves| + 1
    && t.states[0] == System(INITIAL, map[])
    && forall k | 0 <= k < |t.moves| :: StepAt(t, k)
  }

  lemma {:induction false} RunKeepsInv(t: Trace, k: nat)
    requires Run(t) && k < |t.states|
    ensures Inv(t.states[k])
  {
    if k > 0 {
      RunKeepsInv(t, k - 1);
      assert StepAt(t, k - 1);
      StepKeepsInv(t.states[k - 1], t.states[k], t.moves[k - 1]);
    }
  }

  /** No deferred retry is lost: armed, not stopped and with work pending, the
      loop is running and live. */
  lemma NoLostRetry(t: Trace, k: nat) returns (l: LoopId)
    requires Run(t) && k < |t.states|
    requires var d := t.states[k].d; d.enabled && !d.stopped && d.pending != map[]
    ensures t.states[k].d.running && t.states[k].loops.Keys == {l}
  {
    RunKeepsInv(t, k);
    l :| t.states[k].loops.Keys == {l};
  }

  /** What is scheduled stays pending under its latest label until a clear of that
      tab: no tick, kick, stop or other tab's schedule drops it. */
  lemma {:induction false} PendingUntilCleared(t: Trace, k: nat, m: nat, tab: TabId)
    requires Run(t) && k <= m < |t.states| && tab in t.states[k].d.pending
    requires forall x | k <= x < m :: t.moves[x] != MClear(tab)
    ensures tab in t.states[m].d.pending
    ensures (forall x | k <= x < m :: !(t.moves[x].MSchedule? && Trim(t.moves[x].tab) == tab)) ==>
              t.states[m].d.pending[tab] == t.states[k].d.pending[tab]
    decreases m
  {
    if k < m {
      PendingUntilCleared(t, k, m - 1, tab);
      assert StepAt(t, m - 1);
    }
  }

  /** A clear takes its own tab off the list and nothing else. */
  lemma ClearTakesOne(t: Trace, k: nat)
    requires Run(t) && k < |t.moves| && t.moves[k].MClear?
    ensures t.states[k + 1].d == t.states[k].d.(pending := t.states[k].d.pending - {t.moves[k].tab})
    ensures t.states[k + 1].loops == t.states[k].loops
  {
    assert StepAt(t, k);
  }

  /** After a stop nothing more is scheduled and no loop starts. */
  lemma {:induction false} NothingStartsAfterStop(t: Trace, k: nat, m: nat)
    requires Run(t) && k < |t.moves| && t.moves[k].MStop? && k < m < |t.states|
    ensures t.states[m].d.stopped && t.states[m].loops.Keys <= t.states[k].loops.Keys
    ensures t.states[m].d.pending.Keys <= t.states[k].d.pending.Keys
    decreases m
  {
    assert StepAt(t, m - 1);
    if k + 1 < m {
      NothingStartsAfterStop(t, k, m - 1);
    }
  }

  function LoopRank(pc: LoopPc): nat {
    match pc
    case Retrying => 2
    case Waiting => 1
    case Stopping => 0
  }

  ghost predicate Path(t: Trace, from: System) {
    && |t.states| == |t.moves| + 1 && t.states[0] == from
    && forall k | 0 <= k < |t.moves| :: StepAt(t, k)
  }

  /** A stopped loop can always run to its end by steps of its own: past the entries
      it is replaying, it sees the closed channel and exits. */
  lemma {:induction false} StoppedLoopExits(s: System, l: LoopId) returns (t: Trace)
    requires Inv(s) && s.d.stopped && l in s.loops
    ensures Path(t, s) && |t.moves| == LoopRank(s.loops[l]) + 1
    ensures forall m | m in t.moves :: m in {MRetried(l), MSeeStop(l), MExit(l)}
    ensures var z := t.states[|t.moves|]; z.loops == map[] && z.d == s.d.(running := false)
    decreases LoopRank(s.loops[l])
  {
    assert s.loops.Keys == {l};
    if s.loops[l].Stopping? {
      var z := System(LoopStopped(s.d), s.loops - {l});
      t := Trace([s, z], [MExit(l)]);
      assert StepAt(t, 0) && z.loops == map[];
    } else {
      var m := if s.loops[l].Retrying? then MRetried(l) else MSeeStop(l);
      var s' := s.(loops := s.loops[l := if s.loops[l].Retrying? then Waiting else Stopping]);
      assert Step(s, s', m);
      StepKeepsInv(s, s', m);
      var u := StoppedLoopExits(s', l);
      t := Prepended(s, m, u, s');
    }
  }

  lemma Prepended(s: System, m: Move, u: Trace, s': System) returns (t: Trace)
    requires Step(s, s', m) && Path(u, s')
    ensures Path(t, s) && t.moves == [m] + u.moves && t.states[|t.moves|] == u.states[|u.moves|]
  {
    t := Trace([s] + u.states, [m] + u.moves);
    forall k | 0 <= k < |t.moves|
      ensures StepAt(t, k)
    {
      assert k > 0 ==> StepAt(u, k - 1);
    }
  }

  /** A schedule that is not refused is pending at once, with its loop live if the
      retry is armed, and takes nothing else off the list. */
  lemma ScheduledIsPending(t: Trace, k: nat)
    requires Run(t) && k < |t.moves| && t.moves[k].MSchedule?
    ensures var (d, d', tab) := (t.states[k].d, t.states[k + 1].d, Trim(t.moves[k].tab));
      && (tab == "" || d.stopped ==> t.states[k + 1] == t.states[k])
      && (tab != "" && !d.stopped ==>
            && d'.pending == d.pending[tab := t.moves[k].setting]
            && (d.enabled ==> exists l :: t.states[k + 1].loops.Keys == {l}))
  {
    assert StepAt(t, k);
    RunKeepsInv(t, k + 1);
    var (d, tab) := (t.states[k].d, Trim(t.moves[k].tab));
    assert tab in d.pending[tab := t.moves[k].setting];
  }

  /** At most one loop is live, and the running flag says whether one is. */
  lemma AtMostOneLoop(t: Trace, k: nat)
    requires Run(t) && k < |t.states|
    ensures |t.states[k].loops.Keys| <= 1
    ensures t.states[k].d.running <==> |t.states[k].loops.Keys| == 1
  {
    RunKeepsInv(t, k);
    if t.states[k].d.running {
      var l :| t.states[k].loops.Keys == {l};
    }
  }

  /** The running flag is cleared only by a loop that exits, and only when
      nothing is pending or a stop was requested. */
  lemma ClearedOnlyWhenDone(t: Trace, k: nat)
    requires Run(t) && k < |t.moves|
    requires t.states[k].d.running && !t.states[k + 1].d.running
    ensures t.states[k].d.pending == map[] || t.states[k].d.stopped
    ensures t.moves[k].MTick? || t.moves[k].MExit?
    ensures t.states[k + 1].loops == map[]
  {
    RunKeepsInv(t, k);
    assert StepAt(t, k);
    RunKeepsInv(t, k + 1);
  }

  /** A stop never meets an already closed channel. */
  lemma StopNeverClosesTwice(t: Trace, k: nat)
    requires Run(t) && k < |t.states|
    ensures t.states[k].d.stop.Closed? ==> t.states[k].d.stopped
  {
    RunKeepsInv(t, k);
  }
}
