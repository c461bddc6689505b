/** Remote takeover of desktop tabs by direct-message chats, and the local
    grab-back. The hub keeps two maps, tab to chat and chat to tab, that must
    stay inverse; the tab's turn gate keeps a remote submit and a local reclaim
    apart. */
module Takeover {

  import opened Wrappers

  type TabId = string
  type ChatKey = string

  datatype ChatType = DM | Shared

  /** key: the route's platform, connection, domain and chat; not its type. */
  datatype Route = Route(key: ChatKey, chatType: ChatType)

  datatype Session = Session(detached: bool, running: bool)

  datatype Error = NotDM | NoSession | Background | Held | NotTakenOver | Lapsed | Busy | NoChannel | DriveFailed

  datatype Outcome = Done | Failed(error: Error)

  datatype Maps = Maps(takeovers: map<TabId, Route>, takeoverTabs: map<ChatKey, TabId>)

  const EMPTY := Maps(map[], map[])

  ghost predicate Inverse(m: Maps) {
    && (forall t | t in m.takeovers ::
          m.takeovers[t].key in m.takeoverTabs && m.takeoverTabs[m.takeovers[t].key] == t)
    && (forall k | k in m.takeoverTabs ::
          m.takeoverTabs[k] in m.takeovers && m.takeovers[m.takeoverTabs[k]].key == k)
  }

  ghost predicate DirectOnly(m: Maps) {
    forall t | t in m.takeovers :: m.takeovers[t].chatType == DM
  }

  ghost predicate Valid(m: Maps) {
    Inverse(m) && DirectOnly(m)
  }

  // ---- The critical sections, as functions ----

  function TakeoverError(m: Maps, r: Route, t: TabId, session: Option<Session>): Option<Error> {
    if r.chatType != DM then Some(NotDM)
    else if session.None? then Some(NoSession)
    else if session.value.detached then Some(Background)
    else if t in m.takeovers && m.takeovers[t].key != r.key then Some(Held)
    else None
  }

  function TookOver(m: Maps, r: Route, t: TabId): Maps {
    var released :=
      if r.key in m.takeoverTabs && m.takeoverTabs[r.key] != t then m.takeovers - {m.takeoverTabs[r.key]}
      else m.takeovers;
    Maps(released[t := r], m.takeoverTabs[r.key := t])
  }

  function Released(m: Maps, k: ChatKey): Maps {
    if k in m.takeoverTabs then Maps(m.takeovers - {m.takeoverTabs[k]}, m.takeoverTabs - {k}) else m
  }

  /** DriveInput's two deletes, for a tab read from the map earlier. */
  function Lapsed(m: Maps, k: ChatKey, t: TabId): Maps {
    Maps(m.takeovers - {t}, m.takeoverTabs - {k})
  }

  function Reclaimed(m: Maps, t: TabId): Maps {
    if t in m.takeovers then Maps(m.takeovers - {t}, m.takeoverTabs - {m.takeovers[t].key}) else m
  }

  function TakeoverTab(m: Maps, k: ChatKey): Option<TabId> {
    if k in m.takeoverTabs then Some(m.takeoverTabs[k]) else None
  }

  /** Every operation keeps the maps inverse and DM-only, DriveInput's automatic
      release too when its read and its deletes are one atomic step. */
  lemma OperationsKeepValid(m: Maps, r: Route, t: TabId, session: Option<Session>)
    requires Valid(m)
    ensures TakeoverError(m, r, t, session).None? ==>
              Valid(TookOver(m, r, t)) && TakeoverTab(TookOver(m, r, t), r.key) == Some(t)
    ensures Valid(Released(m, r.key)) && TakeoverTab(Released(m, r.key), r.key) == None
    ensures r.key in m.takeoverTabs ==> Lapsed(m, r.key, m.takeoverTabs[r.key]) == Released(m, r.key)
    ensures Valid(Reclaimed(m, t)) && t !in Reclaimed(m, t).takeovers
  {
  }

  /** No operation touches a takeover between another chat and another tab. */
  lemma OthersUntouched(m: Maps, r: Route, t: TabId, u: TabId)
    requires Valid(m) && u in m.takeovers && u != t && m.takeovers[u].key != r.key
    ensures forall m' | m' in {TookOver(m, r, t), Released(m, r.key), Reclaimed(m, t)} ::
              u in m'.takeovers && m'.takeovers[u] == m.takeovers[u] && TakeoverTab(m', m.takeovers[u].key) == Some(u)
  {
  }

  /** DriveInput drops its lock between reading the tab and deleting the pair.
      The deletes keep the maps inverse exactly when, at that moment, the chat
      still drives that tab, or neither side has an entry any more. */
  lemma LapseKeepsInverseIff(m: Maps, k: ChatKey, t: TabId)
    requires Inverse(m)
    ensures Inverse(Lapsed(m, k, t)) <==>
              TakeoverTab(m, k) == Some(t) || (k !in m.takeoverTabs && t !in m.takeovers)
  {
    var m' := Lapsed(m, k, t);
    if k in m.takeoverTabs && m.takeoverTabs[k] != t {
      assert m.takeoverTabs[k] in m'.takeovers && k !in m'.takeoverTabs;
    }
    if k !in m.takeoverTabs && t in m.takeovers {
      assert m.takeovers[t].key in m'.takeoverTabs;
    }
  }

  /** A chat that moves to another tab in the gap leaves a dangling takeover. */
  lemma LapseRace(r: Route, a: TabId, b: TabId)
    requires r.chatType == DM && a != b
    ensures var read := TookOver(EMPTY, r, a);
      && Valid(read) && TakeoverTab(read, r.key) == Some(a)
      && !Inverse(Lapsed(TookOver(read, r, b), r.key, a))
  {
    var moved := TookOver(TookOver(EMPTY, r, a), r, b);
    OperationsKeepValid(EMPTY, r, a, Some(Session(false, false)));
    OperationsKeepValid(TookOver(EMPTY, r, a), r, b, Some(Session(false, false)));
    LapseKeepsInverseIff(moved, r.key, a);
  }

  class BotBridgeHub {
    var takeovers: map<TabId, Route>
    var takeoverTabs: map<ChatKey, TabId>

    function View(): Maps
      reads this
    {
      Maps(takeovers, takeoverTabs)
    }

    constructor ()
      ensures View() == EMPTY
    {
      takeovers, takeoverTabs := map[], map[];
    }

    method Takeover(r: Route, t: TabId, session: Option<Session>) returns (o: Outcome)
      requires Valid(View())
      modifies this
      ensures Valid(View())
      ensures o == match TakeoverError(old(View()), r, t, session) case Some(e) => Failed(e) case None => Done
      ensures o == if r.chatType != DM then Failed(NotDM)
                   else if session.None? then Failed(NoSession)
                   else if session.value.detached then Failed(Background)
                   else if t in old(takeovers) && old(takeovers)[t].key != r.key then Failed(Held)
                   else Done
      ensures View() == if o.Done? then TookOver(old(View()), r, t) else old(View())
      ensures o.Done? ==>
                && t in takeovers && takeovers[t] == r && takeoverTabs == old(takeoverTabs)[r.key := t]
                && forall u | u in old(takeovers) && u != t && old(takeovers)[u].key != r.key ::
                     u in takeovers && takeovers[u] == old(takeovers)[u]
    {
      OperationsKeepValid(View(), r, t, session);
      if r.chatType != DM {
        return Failed(NotDM);
      }
      if session.None? {
        return Failed(NoSession);
      }
      if session.value.detached {
        return Failed(Background);
      }
      if t in takeovers && takeovers[t].key != r.key {
        return Failed(Held);
      }
      if r.key in takeoverTabs && takeoverTabs[r.key] != t {
        takeovers := takeovers - {takeoverTabs[r.key]};
      }
      takeovers := takeovers[t := r];
      takeoverTabs := takeoverTabs[r.key := t];
      return Done;
    }

    method Release(r: Route) returns (o: Outcome)
      requires Valid(View())
      modifies this
      ensures Valid(View()) && View() == Released(old(View()), r.key)
      ensures o == if r.key in old(takeoverTabs) then Done else Failed(NotTakenOver)
    {
      OperationsKeepValid(View(), r, "", None);
      if r.key !in takeoverTabs {
        return Failed(NotTakenOver);
      }
      var t := takeoverTabs[r.key];
      takeoverTabs := takeoverTabs - {r.key};
      takeovers := takeovers - {t};
      return Done;
    }

    /** DriveInput, with its read and its automatic release as one step. `drive`
        is what driving the tab would give: no channel, busy, an error or done.
        The tab driven is the chat's own, and only when its session is in the
        foreground and idle. */
    method DriveInput(r: Route, session: Option<Session>, drive: Outcome) returns (o: Outcome, driven: Option<TabId>)
      requires Valid(View())
      modifies this
      ensures Valid(View())
      ensures View() == if session.Some? && !session.value.detached then old(View()) else Released(old(View()), r.key)
      ensures driven.Some? <==>
                && r.key in old(takeoverTabs) && session.Some? && !session.value.detached && !session.value.running
                && drive != Failed(NoChannel)
      ensures driven.Some? ==> driven.value == old(takeoverTabs)[r.key]
      ensures r.key in old(takeoverTabs) && session == Some(Session(false, false)) ==> o == drive
      ensures driven.Some? ==> o == drive
      ensures r.key !in old(takeoverTabs) <==> o == Failed(NotTakenOver) && driven == None
      ensures r.key in old(takeoverTabs) && (session.None? || session.value.detached) ==> o == Failed(Error.Lapsed)
      ensures r.key in old(takeoverTabs) && session == Some(Session(false, true)) ==> o == Failed(Busy)
    {
      OperationsKeepValid(View(), r, "", None);
      if r.key !in takeoverTabs {
        return Failed(NotTakenOver), None;
      }
      var tab := takeoverTabs[r.key];
      if session.None? || session.value.detached {
        takeoverTabs := takeoverTabs - {r.key};
        takeovers := takeovers - {tab};
        return Failed(Error.Lapsed), None;
      }
      if session.value.running {
        return Failed(Busy), None;
      }
      if drive == Failed(NoChannel) {
        return drive, None;
      }
      return drive, Some(tab);
    }

    method ReclaimFromDesktop(t: TabId) returns (route: Option<Route>)
      requires Valid(View())
      modifies this
      ensures Valid(View()) && View() == Reclaimed(old(View()), t)
      ensures route == if t in old(takeovers) then Some(old(takeovers)[t]) else None
    {
      OperationsKeepValid(View(), Route("", DM), t, None);
      if t !in takeovers {
        return None;
      }
      var r := takeovers[t];
      takeovers := takeovers - {t};
      takeoverTabs := takeoverTabs - {r.key};
      return Some(r);
    }
  }

  // ---- Remote drives and local turns under the tab gates ----

  type Id = nat

  /** A thread holding a tab's turn gate; `cleared` once a bridge drive has
      re-checked under it that its chat still holds the tab. */
  datatype Holder = Holder(tab: TabId, cleared: bool)

  datatype Event = ETakeover(tab: TabId) | EReclaim(tab: TabId) | EOvertaken(tab: TabId) | ERemote(tab: TabId)

  datatype System = System(maps: Maps, holders: map<Id, Holder>, log: seq<Event>)

  const START := System(EMPTY, map[], [])

  datatype Move =
    | MTakeover(r: Route, t: TabId, session: Option<Session>) | MRelease(k: ChatKey)
    | MLock(id: Id, t: TabId) | MUnlock(id: Id)
    | MRecheck(id: Id, r: Route)      // bridgeDrive, under the gate
    | MRemoteSubmit(id: Id)
    | MReclaim(id: Id)                // beginTabTurn with reclaim, under the gate
    | MEffort(t: TabId)               // the /effort path reclaims outside the gate

  ghost predicate DriveCleared(s: System, t: TabId) {
    exists i | i in s.holders :: s.holders[i] == Holder(t, true)
  }

  ghost predicate Step(s: System, s': System, m: Move) {
    match m
    case MTakeover(r, t, session) =>
      if TakeoverError(s.maps, r, t, session).None?
      then s' == s.(maps := TookOver(s.maps, r, t), log := s.log + [ETakeover(t)])
      else s' == s
    case MRelease(k) => s' == s.(maps := Released(s.maps, k))
    case MLock(id, t) =>
      && id !in s.holders && (forall i | i in s.holders :: s.holders[i].tab != t)
      && s' == s.(holders := s.holders[id := Holder(t, false)])
    case MUnlock(id) => id in s.holders && s' == s.(holders := s.holders - {id})
    case MRecheck(id, r) =>
      id in s.holders &&
      if TakeoverTab(s.maps, r.key) == Some(s.holders[id].tab)
      then s' == s.(holders := s.holders[id := s.holders[id].(cleared := true)])
      else s' == s
    case MRemoteSubmit(id) =>
      id in s.holders && s.holders[id].cleared && s' == s.(log := s.log + [ERemote(s.holders[id].tab)])
    case MReclaim(id) =>
      id in s.holders && !s.holders[id].cleared
      && s' == s.(maps := Reclaimed(s.maps, s.holders[id].tab), log := s.log + [EReclaim(s.holders[id].tab)])
    case MEffort(t) =>
      s' == s.(maps := Reclaimed(s.maps, t),
               log := s.log + [if DriveCleared(s, t) then EOvertaken(t) else EReclaim(t)])
  }

  /** t was reclaimed and has not been taken over since. */
  predicate Grabbed(log: seq<Event>, t: TabId) {
    |log| > 0 &&
    match log[|log| - 1]
    case EReclaim(u) => u == t || Grabbed(log[..|log| - 1], t)
    case ETakeover(u) => u != t && Grabbed(log[..|log| - 1], t)
    case _ => Grabbed(log[..|log| - 1], t)
  }

  ghost predicate GatesOk(s: System) {
    forall i, j | i in s.holders && j in s.holders && i != j :: s.holders[i].tab != s.holders[j].tab
  }

  ghost predicate GrabbedOk(s: System) {
    forall t | Grabbed(s.log, t) :: t !in s.maps.takeovers && !DriveCleared(s, t)
  }

  /** Remote submits only ever follow a takeover newer than any reclaim. */
  ghost predicate LogOk(log: seq<Event>) {
    forall j, t | 0 <= j < |log| && log[j] == ERemote(t) :: !Grabbed(log[..j], t)
  }

  ghost predicate Inv(s: System) {
    Valid(s.maps) && GatesOk(s) && GrabbedOk(s) && LogOk(s.log)
  }

  lemma AppendEvent(log: seq<Event>, e: Event)
    requires LogOk(log) && (e.ERemote? ==> !Grabbed(log, e.tab))
    ensures LogOk(log + [e])
    ensures forall t :: Grabbed(log + [e], t) <==>
              if e == EReclaim(t) then true else if e == ETakeover(t) then false else Grabbed(log, t)
  {
    var l := log + [e];
    assert l[..|log|] == log;
    forall j, t | 0 <= j < |l| && l[j] == ERemote(t)
      ensures !Grabbed(l[..j], t)
    {
      assert l[..j] == log[..j];
    }
  }

  lemma StepKeepsInv(s: System, s': System, m: Move)
    requires Inv(s) && Step(s, s', m)
    ensures Inv(s')
  {
    if |s'.log| == |s.log| + 1 {
      LoggedStepKeepsInv(s, s', m);
    } else {
      match m
      case MRelease(k) => OperationsKeepValid(s.maps, Route(k, DM), "", None);
      case MRecheck(id, r) => RecheckKeepsInv(s, s', id, r);
      case _ =>
    }
  }

  lemma LoggedStepKeepsInv(s: System, s': System, m: Move)
    requires Inv(s) && Step(s, s', m) && |s'.log| == |s.log| + 1
    ensures Inv(s')
  {
    var e := s'.log[|s.log|];
    assert s'.log == s.log + [e];
    match m
    case MTakeover(r, t, session) =>
      OperationsKeepValid(s.maps, r, t, session);
      AppendEvent(s.log, e);
    case MReclaim(id) =>
      OperationsKeepValid(s.maps, Route("", DM), s.holders[id].tab, None);
      AppendEvent(s.log, e);
    case MEffort(t) =>
      OperationsKeepValid(s.maps, Route("", DM), t, None);
      AppendEvent(s.log, e);
    case MRemoteSubmit(id) =>
      assert s.holders[id] == Holder(e.tab, true);
      AppendEvent(s.log, e);
  }

  lemma RecheckKeepsInv(s: System, s': System, id: Id, r: Route)
    requires Inv(s) && Step(s, s', MRecheck(id, r))
    ensures Inv(s')
  {
    forall u | DriveCleared(s', u)
      ensures DriveCleared(s, u) || u in s.maps.takeovers
    {
      var i :| i in s'.holders && s'.holders[i] == Holder(u, true);
      assert i != id ==> s.holders[i] == Holder(u, true);
    }
  }

  datatype Trace = Trace(states: seq<System>, moves: seq<Move>)

  ghost predicate StepAt(t: Trace, k: nat)
    requires k < |t.moves| && |t.states| == |t.moves| + 1
  {
    Step(t.states[k], t.states[k + 1], t.moves[k])
  }

  ghost predicate Run(t: Trace) {
    && |t.states| == |t.moves| + 1 && t.states[0] == START
    && forall k | 0 <= k < |t.moves| :: StepAt(t, k)
  }

  /** The maps stay inverse and DM-only over every run. */
  lemma {:induction false} RunKeepsInv(t: Trace, k: nat)
    requires Run(t) && k < |t.states|
    ensures Inv(t.states[k])
  {
    if k > 0 {
      RunKeepsInv(t, k - 1);
      assert StepAt(t, k - 1);
      StepKeepsInv(t.states[k - 1], t.states[k], t.moves[k - 1]);
    }
  }

  lemma {:induction false} TakeoverBetween(log: seq<Event>, i: nat, t: TabId) returns (k: nat)
    requires i < |log| && log[i] == EReclaim(t) && !Grabbed(log, t)
    ensures i < k < |log| && log[k] == ETakeover(t)
  {
    var last := |log| - 1;
    if log[last] == ETakeover(t) {
      k := last;
    } else {
      k := TakeoverBetween(log[..last], i, t);
    }
  }

  /** Once a local turn has reclaimed a tab, every later remote submit on it
      comes after a newer takeover. */
  lemma NoRemoteTurnAfterReclaim(t: Trace, s: nat, i: nat, j: nat, tab: TabId) returns (k: nat)
    requires Run(t) && s < |t.states| && i < j < |t.states[s].log|
    requires t.states[s].log[i] == EReclaim(tab) && t.states[s].log[j] == ERemote(tab)
    ensures i < k < j && t.states[s].log[k] == ETakeover(tab)
  {
    RunKeepsInv(t, s);
    k := TakeoverBetween(t.states[s].log[..j], i, tab);
  }

  /** What the moves of a run do to the maps and gates: a released chat drives no
      tab, a reclaim under the gate takes its tab back and is logged, and an
      unlocked gate is free for the next turn. */
  lemma MoveEffects(t: Trace, k: nat)
    requires Run(t) && k < |t.moves|
    ensures var (s, s', m) := (t.states[k], t.states[k + 1], t.moves[k]);
      match m
      case MRelease(key) => TakeoverTab(s'.maps, key) == None && s'.log == s.log
      case MReclaim(id) =>
        id in s.holders && s.holders[id].tab !in s'.maps.takeovers && s'.log == s.log + [EReclaim(s.holders[id].tab)]
      case MUnlock(id) =>
        id in s.holders && s'.maps == s.maps && forall i | i in s'.holders :: s'.holders[i].tab != s.holders[id].tab
      case MEffort(tab) => tab !in s'.maps.takeovers
      case _ => true
  {
    RunKeepsInv(t, k);
    assert StepAt(t, k);
    match t.moves[k]
    case MRelease(key) => OperationsKeepValid(t.states[k].maps, Route(key, DM), "", None);
    case MReclaim(id) => OperationsKeepValid(t.states[k].maps, Route("", DM), t.states[k].holders[id].tab, None);
    case MEffort(tab) => OperationsKeepValid(t.states[k].maps, Route("", DM), tab, None);
    case _ =>
  }

  /** A reclaim made inside the tab's gate is never overtaken. */
  lemma GatedReclaimIsNeverOvertaken(t: Trace, k: nat)
    requires Run(t) && k < |t.moves| && t.moves[k].MReclaim?
    ensures var id := t.moves[k].id;
      id in t.states[k].holders && !DriveCleared(t.states[k], t.states[k].holders[id].tab)
  {
    RunKeepsInv(t, k);
    assert StepAt(t, k);
  }

  /** The ungated reclaim of /effort is overtaken exactly when a drive has
      already passed its re-check: then that drive's submit is still enabled
      although the tab is no longer taken over. */
  lemma UngatedReclaimOvertakenIff(s: System, s': System, t: TabId)
    requires Inv(s) && Step(s, s', MEffort(t))
    ensures t !in s'.maps.takeovers
    ensures DriveCleared(s, t) <==>
              exists id, s'' :: Step(s', s'', MRemoteSubmit(id)) && s''.log == s'.log + [ERemote(t)]
  {
    if DriveCleared(s, t) {
      var id :| id in s.holders && s.holders[id] == Holder(t, true);
      var s'' := s'.(log := s'.log + [ERemote(t)]);
      assert Step(s', s'', MRemoteSubmit(id));
    }
    if id, s'' :| Step(s', s'', MRemoteSubmit(id)) && s''.log == s'.log + [ERemote(t)] {
      assert s''.log[|s'.log|] == ERemote(t);
      assert s.holders[id] == Holder(t, true);
    }
    OperationsKeepValid(s.maps, Route("", DM), t, None);
  }

  /** A history grows by one step at its end. */
  lemma Extended(t: Trace, s: System, m: Move) returns (t': Trace)
    requires Run(t) && Step(t.states[|t.moves|], s, m)
    ensures Run(t') && t'.states == t.states + [s] && t'.moves == t.moves + [m]
  {
    t' := Trace(t.states + [s], t.moves + [m]);
    forall k | 0 <= k < |t'.moves|
      ensures StepAt(t', k)
    {
      assert k < |t.moves| ==> StepAt(t, k);
    }
  }

  /** The failing side is reached: a chat takes a tab over, its drive passes the
      re-check, /effort reclaims the tab, and the drive still submits. */
  lemma EffortOvertakenRun(r: Route, a: TabId) returns (t: Trace)
    requires r.chatType == DM
    ensures Run(t) && |t.moves| == 5 && t.moves[3] == MEffort(a) && t.moves[4] == MRemoteSubmit(0)
    ensures DriveCleared(t.states[3], a)
    ensures a !in t.states[5].maps.takeovers
    ensures t.states[5].log == [ETakeover(a), EOvertaken(a), ERemote(a)]
  {
    var taken := TookOver(EMPTY, r, a);
    var s1 := System(taken, map[], [ETakeover(a)]);
    var s2 := s1.(holders := map[0 := Holder(a, false)]);
    var s3 := s1.(holders := map[0 := Holder(a, true)]);
    assert s3.holders[0] == Holder(a, true);
    var s4 := s3.(maps := Reclaimed(taken, a), log := [ETakeover(a), EOvertaken(a)]);
    t := Extended(Trace([START], []), s1, MTakeover(r, a, Some(Session(false, false))));
    t := Extended(t, s2, MLock(0, a));
    assert s3.holders == s2.holders[0 := s2.holders[0].(cleared := true)];
    t := Extended(t, s3, MRecheck(0, r));
    t := Extended(t, s4, MEffort(a));
    t := Extended(t, s4.(log := [ETakeover(a), EOvertaken(a), ERemote(a)]), MRemoteSubmit(0));
  }
}
