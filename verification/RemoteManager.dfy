/** desktopRemoteManager: one connection generation per host at a time, the
    events it lets through, and the prompts a generation may show.

    A generation is numbered by its insertion into the host table; the record a
    goroutine keeps a pointer to is `gens[g]`. */
module RemoteManager {

  import opened Wrappers

  type HostId = string
  type GenId = nat
  type ChanId = nat
  type PromptId = nat

  datatype ConnState = Connecting | Connected | Reconnecting | Degraded | Stopped | PendingHostKey | PendingSecret

  datatype Kind = HostKey | SecretPrompt

  /** fp and secret are the answer channels, present while a prompt is pending. */
  datatype Gen = Gen(host: HostId, status: ConnState, fp: Option<ChanId>, secret: Option<ChanId>, promptId: PromptId)

  datatype What = Status(state: ConnState) | Server | Forwards

  datatype Event = Event(host: HostId, gen: GenId, what: What)

  datatype Manager = Manager(hosts: map<HostId, GenId>, gens: seq<Gen>, promptSeq: nat, log: seq<Event>)

  const INITIAL := Manager(map[], [], 0, [])

  predicate Current(m: Manager, g: GenId) {
    g < |m.gens| && m.gens[g].host in m.hosts && m.hosts[m.gens[g].host] == g
  }

  predicate Pending(x: Gen) {
    x.fp.Some? || x.secret.Some?
  }

  /** The host's status says that a prompt is pending. */
  predicate ShowsPrompt(m: Manager, h: HostId) {
    h in m.hosts && m.hosts[h] < |m.gens|
    && (m.gens[m.hosts[h]].status.PendingHostKey? || m.gens[m.hosts[h]].status.PendingSecret?)
  }

  // ---- The sections under m.mu ----

  /** Connect inserts unless a generation that has not stopped is in place. */
  predicate Inserts(m: Manager, h: HostId)
    requires h in m.hosts ==> m.hosts[h] < |m.gens|
  {
    h !in m.hosts || m.gens[m.hosts[h]].status == Stopped
  }

  function Inserted(m: Manager, h: HostId): Manager {
    m.(hosts := m.hosts[h := |m.gens|], gens := m.gens + [Gen(h, Connecting, None, None, 0)])
  }

  function Disconnected(m: Manager, h: HostId): Manager
    requires h in m.hosts ==> m.hosts[h] < |m.gens|
  {
    if h in m.hosts then
      var g := m.hosts[h];
      m.(hosts := m.hosts - {h},
         gens := m.gens[g := m.gens[g].(fp := None, secret := None, promptId := 0)],
         log := m.log + [Event(h, g, Status(Stopped))])
    else m
  }

  /** onClientStatus: dropped for a replaced generation, and a "connecting" does
      not overwrite a pending prompt. */
  function StatusSeen(m: Manager, g: GenId, state: ConnState): Manager
    requires g < |m.gens|
  {
    var x := m.gens[g];
    if !Current(m, g) || ((x.status.PendingHostKey? || x.status.PendingSecret?) && state.Connecting?) then m
    else m.(gens := m.gens[g := x.(status := state)], log := m.log + [Event(x.host, g, Status(state))])
  }

  /** publishServerIfCurrent and emitForwardsFor, as far as events go. */
  function Published(m: Manager, g: GenId, what: What): Manager
    requires g < |m.gens|
  {
    if Current(m, g) then m.(log := m.log + [Event(m.gens[g].host, g, what)]) else m
  }

  /** A prompt becoming visible, for a generation that is still current. */
  function Shown(m: Manager, g: GenId, kind: Kind, c: ChanId): Manager
    requires Current(m, g)
  {
    var x := m.gens[g];
    match kind
    case HostKey =>
      m.(gens := m.gens[g := x.(fp := Some(c), status := PendingHostKey)],
         log := m.log + [Event(x.host, g, Status(PendingHostKey))])
    case SecretPrompt =>
      m.(promptSeq := m.promptSeq + 1,
         gens := m.gens[g := x.(secret := Some(c), promptId := m.promptSeq + 1, status := PendingSecret)],
         log := m.log + [Event(x.host, g, Status(PendingSecret))])
  }

  /** The prompt's deferred cleanup. */
  function Cleaned(m: Manager, g: GenId, kind: Kind, c: ChanId): Manager
    requires g < |m.gens|
  {
    var x := m.gens[g];
    if !Current(m, g) then m
    else match kind
      case HostKey => if x.fp == Some(c) then m.(gens := m.gens[g := x.(fp := None)]) else m
      case SecretPrompt => if x.secret == Some(c) then m.(gens := m.gens[g := x.(secret := None, promptId := 0)]) else m
  }

  /** The channel ResolveSecret finds for a host and prompt ID. */
  function SecretChannel(m: Manager, h: HostId, p: PromptId): Option<ChanId>
    requires h in m.hosts ==> m.hosts[h] < |m.gens|
  {
    if h in m.hosts && m.gens[m.hosts[h]].promptId == p then m.gens[m.hosts[h]].secret else None
  }

  /** Close empties the table; the channels of the removed generations are
      dropped, their prompt IDs are not. */
  function ClosedAll(m: Manager): Manager {
    m.(hosts := map[],
       gens := seq(|m.gens|, g requires 0 <= g < |m.gens| =>
                 if Current(m, g) then m.gens[g].(fp := None, secret := None) else m.gens[g]))
  }

  ghost predicate TableOk(m: Manager) {
    forall h | h in m.hosts :: m.hosts[h] < |m.gens| && m.gens[m.hosts[h]].host == h
  }

  class DesktopRemoteManager {
    var hosts: map<HostId, GenId>
    var gens: seq<Gen>
    var promptSeq: nat
    var log: seq<Event>

    function View(): Manager
      reads this
    {
      Manager(hosts, gens, promptSeq, log)
    }

    constructor ()
      ensures View() == INITIAL
    {
      hosts, gens, promptSeq, log := map[], [], 0, [];
    }

    method InsertGeneration(h: HostId) returns (g: Option<GenId>)
      requires TableOk(View())
      modifies this
      ensures TableOk(View())
      ensures g.Some? <==> h !in old(hosts) || old(gens[hosts[h]].status.Stopped?)
      ensures g.Some? ==>
                && g.value == old(|gens|) && hosts == old(hosts)[h := g.value]
                && gens == old(gens) + [Gen(h, Connecting, None, None, 0)]
                && promptSeq == old(promptSeq) && log == old(log)
      ensures View() == if g.Some? then Inserted(old(View()), h) else old(View())
    {
      if h in hosts && gens[hosts[h]].status != Stopped {
        return None;
      }
      hosts := hosts[h := |gens|];
      gens := gens + [Gen(h, Connecting, None, None, 0)];
      return Some(|gens| - 1);
    }

    method Disconnect(h: HostId) returns (cancels: set<ChanId>)
      requires TableOk(View())
      modifies this
      ensures TableOk(View()) && View() == Disconnected(old(View()), h)
      ensures hosts == old(hosts) - {h} && promptSeq == old(promptSeq)
      ensures h !in old(hosts) ==> View() == old(View())
      ensures h in old(hosts) ==>
                var g := old(hosts[h]);
                && gens == old(gens)[g := old(gens[hosts[h]]).(fp := None, secret := None, promptId := 0)]
                && log == old(log) + [Event(h, g, Status(Stopped))]
      ensures cancels == if h !in old(hosts) then {} else
                var x := old(gens[hosts[h]]);
                (if x.fp.Some? then {x.fp.value} else {}) + (if x.secret.Some? then {x.secret.value} else {})
    {
      cancels := {};
      if h !in hosts {
        return;
      }
      var g := hosts[h];
      var x := gens[g];
      hosts := hosts - {h};
      if x.fp.Some? {
        cancels := cancels + {x.fp.value};
      }
      if x.secret.Some? {
        cancels := cancels + {x.secret.value};
      }
      gens := gens[g := x.(fp := None, secret := None, promptId := 0)];
      log := log + [Event(h, g, Status(Stopped))];
    }

    method OnClientStatus(g: GenId, state: ConnState)
      requires TableOk(View()) && g < |gens|
      modifies this
      ensures TableOk(View()) && View() == StatusSeen(old(View()), g, state)
      ensures hosts == old(hosts) && promptSeq == old(promptSeq)
      ensures var keeps := !old(Current(View(), g))
                           || (old(ShowsPrompt(View(), gens[g].host)) && state.Connecting?);
              && gens == (if keeps then old(gens) else old(gens)[g := old(gens[g]).(status := state)])
              && log == (if keeps then old(log) else old(log) + [Event(old(gens[g].host), g, Status(state))])
    {
      var x := gens[g];
      if x.host !in hosts || hosts[x.host] != g {
        return;
      }
      if (x.status == PendingHostKey || x.status == PendingSecret) && state == Connecting {
        return;
      }
      gens := gens[g := x.(status := state)];
      log := log + [Event(x.host, g, Status(state))];
    }

    /** The section of hostKeyPrompt or secretPrompt that shows the dialog. */
    method ShowPrompt(g: GenId, kind: Kind, c: ChanId) returns (shown: bool)
      requires TableOk(View()) && g < |gens|
      modifies this
      ensures TableOk(View()) && shown == old(Current(View(), g))
      ensures View() == if shown then Shown(old(View()), g, kind, c) else old(View())
      ensures hosts == old(hosts)
      ensures shown && kind.HostKey? ==>
                && gens == old(gens)[g := old(gens[g]).(fp := Some(c), status := PendingHostKey)]
                && promptSeq == old(promptSeq)
      ensures shown && kind.SecretPrompt? ==>
                && promptSeq == old(promptSeq) + 1
                && gens == old(gens)[g := old(gens[g]).(secret := Some(c), promptId := promptSeq,
                                                        status := PendingSecret)]
      ensures shown ==> log == old(log) + [Event(gens[g].host, g, Status(gens[g].status))]
    {
      var x := gens[g];
      if x.host !in hosts || hosts[x.host] != g {
        return false;
      }
      if kind == HostKey {
        x := x.(fp := Some(c), status := PendingHostKey);
      } else {
        promptSeq := promptSeq + 1;
        x := x.(secret := Some(c), promptId := promptSeq, status := PendingSecret);
      }
      gens := gens[g := x];
      log := log + [Event(x.host, g, Status(x.status))];
      return true;
    }
  }

  // ---- Interleavings ----

  datatype Answer = Cancel | Secret(promptId: PromptId, secret: string)

  /** An answer channel with room for one answer. A secret prompt's channel
      belongs to one prompt ID; a host key's has none (0). */
  datatype Chan = Chan(promptId: PromptId, buffer: Option<Answer>)

  datatype PromptPc =
    | Gated(gen: GenId, kind: Kind)
    | Waiting(gen: GenId, kind: Kind, c: ChanId)
    | Answered(gen: GenId, kind: Kind, c: ChanId, got: Option<Answer>)
    | CleanedUp(got: Option<Answer>)

  /** A send in progress, after its section under m.mu picked the channel. */
  datatype Send = Send(c: ChanId, answer: Answer)

  type Id = nat

  datatype System = System(
    m: Manager,
    gate: Option<Id>,
    prompts: map<Id, PromptPc>,
    chans: seq<Chan>,
    sends: map<Id, Send>)

  const START := System(INITIAL, None, map[], [], map[])

  datatype Move =
    | MConnect(h: HostId) | MDisconnect(h: HostId, id: Id) | MCancel(id: Id, c: ChanId) | MClose
    | MStatus(g: GenId, state: ConnState) | MPublish(g: GenId, what: What)
    | MGate(id: Id, g: GenId, kind: Kind) | MShow(id: Id) | MReceive(id: Id) | MGiveUp(id: Id)
    | MCleanup(id: Id) | MUngate(id: Id)
    | MResolveSecret(id: Id, h: HostId, p: PromptId, secret: string) | MSend(id: Id)

  ghost predicate TableStep(s: System, s': System, mv: Move)
    requires mv.MConnect? || mv.MDisconnect? || mv.MClose? || mv.MStatus? || mv.MPublish?
    requires TableOk(s.m)
  {
    match mv
    case MConnect(h) => s' == if Inserts(s.m, h) then s.(m := Inserted(s.m, h)) else s
    case MDisconnect(h, _) => s' == s.(m := Disconnected(s.m, h))
    case MClose => s' == s.(m := ClosedAll(s.m))
    case MStatus(g, state) =>
      g < |s.m.gens| && !state.PendingHostKey? && !state.PendingSecret? && s' == s.(m := StatusSeen(s.m, g, state))
    case MPublish(g, what) => g < |s.m.gens| && !what.Status? && s' == s.(m := Published(s.m, g, what))
  }

  ghost predicate PromptStep(s: System, s': System, mv: Move)
    requires mv.MGate? || mv.MShow? || mv.MReceive? || mv.MGiveUp? || mv.MCleanup? || mv.MUngate?
  {
    match mv
    case MGate(id, g, kind) =>
      s.gate.None? && id !in s.prompts && g < |s.m.gens|
      && s' == s.(gate := Some(id), prompts := s.prompts[id := Gated(g, kind)])
    case MShow(id) =>
      id in s.prompts && s.prompts[id].Gated? && var p := s.prompts[id];
      if Current(s.m, p.gen)
      then s' == s.(m := Shown(s.m, p.gen, p.kind, |s.chans|),
                    chans := s.chans + [Chan(if p.kind.SecretPrompt? then s.m.promptSeq + 1 else 0, None)],
                    prompts := s.prompts[id := Waiting(p.gen, p.kind, |s.chans|)])
      else s' == s.(prompts := s.prompts[id := CleanedUp(None)])
    case MReceive(id) =>
      id in s.prompts && s.prompts[id].Waiting? && var p := s.prompts[id];
      p.c < |s.chans| && s.chans[p.c].buffer.Some?
      && s' == s.(prompts := s.prompts[id := Answered(p.gen, p.kind, p.c, s.chans[p.c].buffer)],
                  chans := s.chans[p.c := s.chans[p.c].(buffer := None)])
    case MGiveUp(id) =>
      id in s.prompts && s.prompts[id].Waiting? && var p := s.prompts[id];
      s' == s.(prompts := s.prompts[id := Answered(p.gen, p.kind, p.c, None)])
    case MCleanup(id) =>
      id in s.prompts && s.prompts[id].Answered? && var p := s.prompts[id];
      p.gen < |s.m.gens|
      && s' == s.(m := Cleaned(s.m, p.gen, p.kind, p.c), prompts := s.prompts[id := CleanedUp(p.got)])
    case MUngate(id) =>
      id in s.prompts && s.prompts[id].CleanedUp? && s' == s.(gate := None, prompts := s.prompts - {id})
  }

  ghost predicate SendStep(s: System, s': System, mv: Move)
    requires mv.MCancel? || mv.MResolveSecret? || mv.MSend?
    requires TableOk(s.m)
  {
    match mv
    // Disconnect, Close and ResolveHostKey may send to any channel, but no secret.
    case MCancel(id, c) => id !in s.sends && s' == s.(sends := s.sends[id := Send(c, Cancel)])
    case MResolveSecret(id, h, p, secret) =>
      id !in s.sends && p != 0 && var c := SecretChannel(s.m, h, p);
      s' == if c.Some? then s.(sends := s.sends[id := Send(c.value, Secret(p, secret))]) else s
    case MSend(id) =>
      id in s.sends && var x := s.sends[id];
      s' == if x.c < |s.chans| && s.chans[x.c].buffer.None?
            then s.(chans := s.chans[x.c := s.chans[x.c].(buffer := Some(x.answer))], sends := s.sends - {id})
            else s.(sends := s.sends - {id})
  }

  ghost predicate Step(s: System, s': System, mv: Move)
    requires TableOk(s.m)
  {
    if mv.MGate? || mv.MShow? || mv.MReceive? || mv.MGiveUp? || mv.MCleanup? || mv.MUngate? then PromptStep(s, s', mv)
    else if mv.MCancel? || mv.MResolveSecret? || mv.MSend? then SendStep(s, s', mv)
    else TableStep(s, s', mv)
  }

  // ---- Generations and events ----

  ghost predicate LogOk(m: Manager) {
    && TableOk(m)
    && (forall e | e in m.log :: e.gen < |m.gens| && m.gens[e.gen].host == e.host
                                 && (e.host in m.hosts ==> e.gen <= m.hosts[e.host]))
    && (forall i, j | 0 <= i < j < |m.log| && m.log[i].host == m.log[j].host :: m.log[i].gen <= m.log[j].gen)
  }

  /** Everything a manager section does to the table and log: old generations
      keep their host, and all they have once retired, a host only moves to a
      newer generation, and what is appended comes from a generation that was
      current. */
  ghost predicate Extends(m: Manager, m': Manager) {
    && |m.gens| <= |m'.gens| && (forall g | 0 <= g < |m.gens| :: m'.gens[g].host == m.gens[g].host)
    && (forall g | 0 <= g < |m.gens| && !Current(m, g) :: m'.gens[g] == m.gens[g])
    && (forall h | h in m'.hosts :: m'.hosts[h] < |m'.gens| && m'.gens[m'.hosts[h]].host == h)
    && (forall h | h in m'.hosts :: (h in m.hosts && m'.hosts[h] == m.hosts[h]) || m'.hosts[h] >= |m.gens|)
    && (m'.log == m.log || exists e :: m'.log == m.log + [e] && e.gen < |m.gens| && Current(m, e.gen)
                                       && e.host == m.gens[e.gen].host
                                       && (e.host in m'.hosts ==> m'.hosts[e.host] == e.gen))
  }

  lemma TableStepExtends(s: System, s': System, mv: Move)
    requires TableOk(s.m) && (mv.MConnect? || mv.MDisconnect? || mv.MClose? || mv.MStatus? || mv.MPublish?)
    requires TableStep(s, s', mv)
    ensures Extends(s.m, s'.m)
  {
    if s'.m.log != s.m.log {
      assert s'.m.log == s.m.log + [s'.m.log[|s.m.log|]];
    }
  }

  lemma PromptStepExtends(s: System, s': System, mv: Move)
    requires TableOk(s.m)
    requires mv.MGate? || mv.MShow? || mv.MReceive? || mv.MGiveUp? || mv.MCleanup? || mv.MUngate?
    requires PromptStep(s, s', mv)
    ensures Extends(s.m, s'.m)
  {
    if s'.m.log != s.m.log {
      assert s'.m.log == s.m.log + [s'.m.log[|s.m.log|]];
    }
  }

  lemma ExtendsKeepsLogOk(m: Manager, m': Manager)
    requires LogOk(m) && Extends(m, m')
    ensures LogOk(m')
  {
    if m'.log != m.log {
      var e :| m'.log == m.log + [e] && e.gen < |m.gens| && Current(m, e.gen) && e.host == m.gens[e.gen].host;
      forall i | 0 <= i < |m.log| && m.log[i].host == e.host
        ensures m.log[i].gen <= e.gen
      {
        assert m.log[i] in m.log;
      }
    }
    forall e | e in m'.log
      ensures e.gen < |m'.gens| && m'.gens[e.gen].host == e.host && (e.host in m'.hosts ==> e.gen <= m'.hosts[e.host])
    {
      assert e in m.log || e == m'.log[|m.log|];
    }
  }

  lemma StepExtends(s: System, s': System, mv: Move)
    requires TableOk(s.m) && Step(s, s', mv)
    ensures Extends(s.m, s'.m)
  {
    if mv.MGate? || mv.MShow? || mv.MReceive? || mv.MGiveUp? || mv.MCleanup? || mv.MUngate? {
      PromptStepExtends(s, s', mv);
    } else if !(mv.MCancel? || mv.MResolveSecret? || mv.MSend?) {
      TableStepExtends(s, s', mv);
    }
  }

  // ---- Prompts ----

  /** A pending prompt of a current generation belongs to the gate's holder. */
  ghost predicate PendingOk(s: System) {
    forall g | 0 <= g < |s.m.gens| && Current(s.m, g) && Pending(s.m.gens[g]) ::
      && s.gate.Some? && s.gate.value in s.prompts
      && var p := s.prompts[s.gate.value];
      && (p.Waiting? || p.Answered?) && p.gen == g
      && s.m.gens[g].fp == (if p.kind.HostKey? then Some(p.c) else None)
      && s.m.gens[g].secret == (if p.kind.SecretPrompt? then Some(p.c) else None)
  }

  ghost predicate GateOk(s: System) {
    && (forall id | id in s.prompts :: s.gate == Some(id))
    && (forall id | id in s.prompts && s.prompts[id].Gated? :: s.prompts[id].gen < |s.m.gens|)
  }

  predicate GotSecret(p: PromptPc)
    requires p.Answered?
  {
    p.got.Some? && p.got.value.Secret?
  }

  /** Each secret channel carries its own prompt ID, in the table, in flight,
      in its buffer and in what its prompt received. */
  ghost predicate SecretsOk(s: System) {
    && (forall g | 0 <= g < |s.m.gens| && s.m.gens[g].secret.Some? ::
          && s.m.gens[g].promptId != 0 && s.m.gens[g].secret.value < |s.chans|
          && s.chans[s.m.gens[g].secret.value].promptId == s.m.gens[g].promptId)
    && (forall id | id in s.sends && s.sends[id].answer.Secret? ::
          s.sends[id].c < |s.chans| && s.chans[s.sends[id].c].promptId == s.sends[id].answer.promptId)
    && (forall c | 0 <= c < |s.chans| && s.chans[c].buffer.Some? && s.chans[c].buffer.value.Secret? ::
          s.chans[c].promptId == s.chans[c].buffer.value.promptId)
    && (forall id | id in s.prompts && s.prompts[id].Answered? && GotSecret(s.prompts[id]) ::
          s.prompts[id].c < |s.chans| && s.chans[s.prompts[id].c].promptId == s.prompts[id].got.value.promptId)
    && (forall c | 0 <= c < |s.chans| :: s.chans[c].promptId <= s.m.promptSeq)
    && (forall c, d | 0 <= c < d < |s.chans| && s.chans[c].promptId != 0 :: s.chans[c].promptId != s.chans[d].promptId)
  }

  lemma TableStepKeepsPending(s: System, s': System, mv: Move)
    requires TableOk(s.m) && PendingOk(s) && GateOk(s)
    requires (mv.MConnect? || mv.MDisconnect? || mv.MClose? || mv.MStatus? || mv.MPublish?) && TableStep(s, s', mv)
    ensures PendingOk(s') && GateOk(s')
  {
    forall g | 0 <= g < |s'.m.gens| && Current(s'.m, g) && Pending(s'.m.gens[g])
      ensures g < |s.m.gens| && Current(s.m, g)
      ensures s'.m.gens[g].fp == s.m.gens[g].fp && s'.m.gens[g].secret == s.m.gens[g].secret
    {
    }
  }

  lemma PromptStepKeepsPending(s: System, s': System, mv: Move)
    requires TableOk(s.m) && PendingOk(s) && GateOk(s)
    requires mv.MGate? || mv.MShow? || mv.MReceive? || mv.MGiveUp? || mv.MCleanup? || mv.MUngate?
    requires PromptStep(s, s', mv)
    ensures PendingOk(s') && GateOk(s')
  {
    forall g | 0 <= g < |s'.m.gens| && Current(s'.m, g)
      ensures Current(s.m, g)
    {
    }
  }

  lemma TableStepKeepsSecrets(s: System, s': System, mv: Move)
    requires TableOk(s.m) && SecretsOk(s)
    requires (mv.MConnect? || mv.MDisconnect? || mv.MClose? || mv.MStatus? || mv.MPublish?) && TableStep(s, s', mv)
    ensures SecretsOk(s')
  {
  }

  lemma PromptStepKeepsSecrets(s: System, s': System, mv: Move)
    requires TableOk(s.m) && SecretsOk(s)
    requires mv.MGate? || mv.MShow? || mv.MReceive? || mv.MGiveUp? || mv.MCleanup? || mv.MUngate?
    requires PromptStep(s, s', mv)
    ensures SecretsOk(s')
  {
    match mv
    case MShow(id) => ShowKeepsSecrets(s, s', id);
    case MReceive(id) => ReceiveKeepsSecrets(s, s', id);
    case MCleanup(id) => CleanupKeepsSecrets(s, s', id);
    case _ => PromptOnlyKeepsSecrets(s, s', mv);
  }

  lemma ReceiveKeepsSecrets(s: System, s': System, id: Id)
    requires SecretsOk(s) && PromptStep(s, s', MReceive(id))
    ensures SecretsOk(s')
  {
  }

  lemma CleanupKeepsSecrets(s: System, s': System, id: Id)
    requires SecretsOk(s) && PromptStep(s, s', MCleanup(id))
    ensures SecretsOk(s')
  {
  }

  /** Moves that change only where a prompt is. */
  lemma PromptOnlyKeepsSecrets(s: System, s': System, mv: Move)
    requires SecretsOk(s) && (mv.MGate? || mv.MGiveUp? || mv.MUngate?) && PromptStep(s, s', mv)
    ensures SecretsOk(s')
  {
  }

  lemma ShowKeepsSecrets(s: System, s': System, id: Id)
    requires TableOk(s.m) && SecretsOk(s) && PromptStep(s, s', MShow(id))
    ensures SecretsOk(s')
  {
  }

  lemma SendStepKeepsSecrets(s: System, s': System, mv: Move)
    requires TableOk(s.m) && SecretsOk(s) && (mv.MCancel? || mv.MResolveSecret? || mv.MSend?) && SendStep(s, s', mv)
    ensures SecretsOk(s')
  {
  }

  ghost predicate Inv(s: System) {
    LogOk(s.m) && PendingOk(s) && GateOk(s) && SecretsOk(s)
  }

  lemma StepKeepsInv(s: System, s': System, mv: Move)
    requires Inv(s) && Step(s, s', mv)
    ensures Inv(s')
  {
    StepExtends(s, s', mv);
    ExtendsKeepsLogOk(s.m, s'.m);
    if mv.MGate? || mv.MShow? || mv.MReceive? || mv.MGiveUp? || mv.MCleanup? || mv.MUngate? {
      PromptStepKeepsPending(s, s', mv);
      PromptStepKeepsSecrets(s, s', mv);
    } else if mv.MCancel? || mv.MResolveSecret? || mv.MSend? {
      SendStepKeepsSecrets(s, s', mv);
    } else {
      TableStepKeepsPending(s, s', mv);
      TableStepKeepsSecrets(s, s', mv);
    }
  }

  // ---- What every run gives ----

  datatype Trace = Trace(states: seq<System>, moves: seq<Move>)

  ghost predicate StepAt(t: Trace, k: nat)
    requires k < |t.moves| && |t.states| == |t.moves| + 1
  {
    TableOk(t.states[k].m) && Step(t.states[k], t.states[k + 1], t.moves[k])
  }

  ghost predicate Run(t: Trace) {
    && |t.states| == |t.moves| + 1 && t.states[0] == START
    && forall k | 0 <= k < |t.moves| :: StepAt(t, k)
  }

  lemma {:induction false} RunKeepsInv(t: Trace, k: nat)
    requires Run(t) && k < |t.states|
    ensures Inv(t.states[k])
  {
    if k > 0 {
      RunKeepsInv(t, k - 1);
      assert StepAt(t, k - 1);
      StepKeepsInv(t.states[k - 1], t.states[k], t.moves[k - 1]);
    }
  }

  /** Per host, events come in contiguous blocks, one per generation, in
      insertion order. */
  lemma EventsComeInGenerationBlocks(t: Trace, s: nat, i: nat, j: nat, k: nat)
    requires Run(t) && s < |t.states| && i < j < k < |t.states[s].m.log|
    requires var log := t.states[s].m.log; log[i].host == log[j].host == log[k].host
    ensures var log := t.states[s].m.log;
      log[i].gen <= log[j].gen <= log[k].gen && (log[i].gen == log[k].gen ==> log[j].gen == log[i].gen)
  {
    RunKeepsInv(t, s);
  }

  /** After its Disconnect, its replacement or a Close, a generation is never
      current again, nothing it has changes, and nothing from it is emitted. */
  lemma {:induction false} RetiredGenerationIsSilent(t: Trace, k: nat, m: nat, g: GenId) returns (es: seq<Event>)
    requires Run(t) && k <= m < |t.states|
    requires g < |t.states[k].m.gens| && !Current(t.states[k].m, g)
    ensures g < |t.states[m].m.gens| && !Current(t.states[m].m, g)
    ensures t.states[m].m.gens[g] == t.states[k].m.gens[g]
    ensures t.states[m].m.log == t.states[k].m.log + es && forall e | e in es :: e.gen != g
    decreases m
  {
    es := [];
    if k < m {
      es := RetiredGenerationIsSilent(t, k, m - 1, g);
      assert StepAt(t, m - 1);
      RunKeepsInv(t, m - 1);
      var more := RetiredStepIsSilent(t.states[m - 1], t.states[m], t.moves[m - 1], g);
      es := es + more;
    }
  }

  lemma RetiredStepIsSilent(s: System, s': System, mv: Move, g: GenId) returns (es: seq<Event>)
    requires Inv(s) && TableOk(s.m) && Step(s, s', mv) && g < |s.m.gens| && !Current(s.m, g)
    ensures g < |s'.m.gens| && !Current(s'.m, g) && s'.m.gens[g] == s.m.gens[g]
    ensures s'.m.log == s.m.log + es && forall e | e in es :: e.gen != g
  {
    es := [];
    StepExtends(s, s', mv);
    if s'.m.log != s.m.log {
      var e :| s'.m.log == s.m.log + [e] && Current(s.m, e.gen);
      es := [e];
    }
  }

  /** Nothing in a log from `n` events on is from generation g. */
  ghost predicate SilentFrom(log: seq<Event>, n: nat, g: GenId) {
    forall i | n <= i < |log| :: log[i].gen != g
  }

  lemma RetiredFrom(t: Trace, k: nat, m: nat, g: GenId)
    requires Run(t) && k <= m < |t.states|
    requires g < |t.states[k].m.gens| && !Current(t.states[k].m, g)
    ensures !Current(t.states[m].m, g) && g < |t.states[m].m.gens|
    ensures t.states[m].m.gens[g] == t.states[k].m.gens[g]
    ensures t.states[k].m.log <= t.states[m].m.log && SilentFrom(t.states[m].m.log, |t.states[k].m.log|, g)
  {
    var es := RetiredGenerationIsSilent(t, k, m, g);
    forall i | |t.states[k].m.log| <= i < |t.states[m].m.log|
      ensures t.states[m].m.log[i].gen != g
    {
      assert t.states[m].m.log[i] in es;
    }
  }

  /** A disconnect of a host that has a generation: the host leaves the table,
      "stopped" is that generation's last word, and from then on, at every later
      moment m, it is not current and has no prompt pending. Other hosts keep
      what they have, and a host that has none changes nothing. */
  lemma DisconnectRetires(t: Trace, k: nat, m: nat)
    requires Run(t) && k < |t.moves| && t.moves[k].MDisconnect? && k < m < |t.states|
    ensures var (a, b, z, h) := (t.states[k].m, t.states[k + 1].m, t.states[m].m, t.moves[k].h);
      && b.hosts == a.hosts - {h} && b.promptSeq == a.promptSeq && |b.gens| == |a.gens|
      && (h !in a.hosts ==> t.states[k + 1] == t.states[k])
      && (h in a.hosts ==>
            var g := a.hosts[h];
            && g < |z.gens| && b.log == a.log + [Event(h, g, Status(Stopped))]
            && !Current(z, g) && !Pending(z.gens[g]) && z.gens[g].promptId == 0
            && b.log <= z.log && SilentFrom(z.log, |b.log|, g)
            && forall x | 0 <= x < |a.gens| && x != g :: b.gens[x] == a.gens[x])
  {
    assert StepAt(t, k);
    RunKeepsInv(t, k);
    RunKeepsInv(t, k + 1);
    var (a, h) := (t.states[k].m, t.moves[k].h);
    if h in a.hosts {
      RetiredFrom(t, k + 1, m, a.hosts[h]);
    }
  }

  /** Close retires every generation, silently: none that exists is current or
      emits at any later moment m, and none in the table keeps a channel. */
  lemma CloseRetiresAll(t: Trace, k: nat, m: nat)
    requires Run(t) && k < |t.moves| && t.moves[k].MClose? && k < m < |t.states|
    ensures var (a, b, z) := (t.states[k].m, t.states[k + 1].m, t.states[m].m);
      && b.hosts == map[] && b.log == a.log && b.log <= z.log && |a.gens| <= |z.gens|
      && forall g | 0 <= g < |a.gens| ::
           && !Current(z, g) && SilentFrom(z.log, |b.log|, g)
           && (if Current(a, g) then !Pending(z.gens[g]) else z.gens[g] == a.gens[g])
  {
    assert StepAt(t, k);
    RunKeepsInv(t, k + 1);
    var (a, b) := (t.states[k].m, t.states[k + 1].m);
    assert b.log <= t.states[m].m.log && |a.gens| <= |t.states[m].m.gens| by {
      LogGrows(t, k + 1, m);
    }
    forall g | 0 <= g < |a.gens|
      ensures !Current(t.states[m].m, g) && SilentFrom(t.states[m].m.log, |b.log|, g)
      ensures t.states[m].m.gens[g] == b.gens[g]
    {
      RetiredFrom(t, k + 1, m, g);
    }
  }

  lemma {:induction false} LogGrows(t: Trace, k: nat, m: nat)
    requires Run(t) && k <= m < |t.states|
    ensures t.states[k].m.log <= t.states[m].m.log && |t.states[k].m.gens| <= |t.states[m].m.gens|
    decreases m
  {
    if k < m {
      LogGrows(t, k, m - 1);
      assert StepAt(t, m - 1);
      StepExtends(t.states[m - 1], t.states[m], t.moves[m - 1]);
    }
  }

  /** A connect is refused, changing nothing, exactly when the host's generation
      has not stopped. Otherwise a new generation without prompts takes its place,
      and a stopped one that was there is retired: at every later moment m it is
      as it was, and silent. */
  lemma ConnectReplacesOnlyStopped(t: Trace, k: nat, m: nat)
    requires Run(t) && k < |t.moves| && t.moves[k].MConnect? && k < m < |t.states|
    ensures var (a, b, z, h) := (t.states[k].m, t.states[k + 1].m, t.states[m].m, t.moves[k].h);
      && b.log == a.log && b.promptSeq == a.promptSeq && h in b.hosts && b.hosts[h] < |b.gens|
      && (h in a.hosts ==> a.hosts[h] < |a.gens| <= |z.gens|)
      && if h in a.hosts && !a.gens[a.hosts[h]].status.Stopped? then t.states[k + 1] == t.states[k]
         else
           && b.hosts == a.hosts[h := |a.gens|] && b.gens == a.gens + [b.gens[b.hosts[h]]]
           && b.gens[b.hosts[h]].host == h && b.gens[b.hosts[h]].status.Connecting?
           && !Pending(b.gens[b.hosts[h]]) && Current(b, b.hosts[h])
           && (h in a.hosts ==>
                 && !Current(z, a.hosts[h]) && z.gens[a.hosts[h]] == a.gens[a.hosts[h]]
                 && SilentFrom(z.log, |a.log|, a.hosts[h]))
  {
    assert StepAt(t, k);
    RunKeepsInv(t, k);
    var (a, b, h) := (t.states[k].m, t.states[k + 1].m, t.moves[k].h);
    LogGrows(t, k, m);
    if h in a.hosts && a.gens[a.hosts[h]].status.Stopped? {
      RetiredFrom(t, k + 1, m, a.hosts[h]);
    }
  }

  /** A status or another event of generation g is let through exactly while it is
      current, except that "connecting" leaves a shown prompt alone; a status let
      through is the one the host then has, and nothing else changes. */
  lemma EventsOnlyWhileCurrent(t: Trace, k: nat)
    requires Run(t) && k < |t.moves| && (t.moves[k].MStatus? || t.moves[k].MPublish?)
    ensures var (s, s', mv) := (t.states[k], t.states[k + 1], t.moves[k]);
      && var (a, b, g) := (s.m, s'.m, mv.g);
      && g < |a.gens| && |b.gens| == |a.gens| && b.hosts == a.hosts && s' == s.(m := b)
      && var passes := Current(a, g) && !(mv.MStatus? && mv.state.Connecting? && ShowsPrompt(a, a.gens[g].host));
      && var what := if mv.MStatus? then Status(mv.state) else mv.what;
      && b.log == (if passes then a.log + [Event(a.gens[g].host, g, what)] else a.log)
      && b.gens[g] == (if passes && mv.MStatus? then a.gens[g].(status := mv.state) else a.gens[g])
      && b.promptSeq == a.promptSeq && forall x | 0 <= x < |a.gens| && x != g :: b.gens[x] == a.gens[x]
  {
    assert StepAt(t, k);
  }

  predicate PromptsFor(m: Manager, h: HostId) {
    h in m.hosts && m.hosts[h] < |m.gens| && Pending(m.gens[m.hosts[h]])
  }

  /** At most one host in the table has a prompt pending. */
  lemma AtMostOnePrompt(t: Trace, k: nat, a: HostId, b: HostId)
    requires Run(t) && k < |t.states|
    requires PromptsFor(t.states[k].m, a) && PromptsFor(t.states[k].m, b)
    ensures a == b
  {
    RunKeepsInv(t, k);
    var m := t.states[k].m;
    assert Current(m, m.hosts[a]) && Current(m, m.hosts[b]);
  }

  /** A secret is received only by the prompt whose ID it answers, and no two
      prompts share an ID. */
  lemma SecretReachesOnlyItsPrompt(t: Trace, k: nat, id: Id)
    requires Run(t) && k < |t.states| && id in t.states[k].prompts
    requires var p := t.states[k].prompts[id]; p.Answered? && p.got.Some? && p.got.value.Secret?
    ensures var s := t.states[k]; var p := s.prompts[id];
      && p.c < |s.chans| && s.chans[p.c].promptId == p.got.value.promptId
      && forall d | 0 <= d < |s.chans| && d != p.c && s.chans[d].promptId != 0 ::
           s.chans[d].promptId != p.got.value.promptId
  {
    RunKeepsInv(t, k);
  }

  // ---- Shown statuses and pending prompts ----

  predicate Underway(p: PromptPc) {
    p.Waiting? || p.Answered?
  }

  /** A prompt shown and not cleaned up has its channel in its generation, as
      long as that one is current. */
  ghost predicate ChannelsOk(s: System) {
    forall id | id in s.prompts && Underway(s.prompts[id]) ::
      var p := s.prompts[id];
      p.gen < |s.m.gens| && (Current(s.m, p.gen) ==>
        if p.kind.HostKey? then s.m.gens[p.gen].fp == Some(p.c) else s.m.gens[p.gen].secret == Some(p.c))
  }

  lemma StepKeepsChannels(s: System, s': System, mv: Move)
    requires TableOk(s.m) && GateOk(s) && ChannelsOk(s) && Step(s, s', mv)
    ensures ChannelsOk(s')
  {
    if mv.MGate? || mv.MShow? || mv.MReceive? || mv.MGiveUp? || mv.MCleanup? || mv.MUngate? {
      PromptStepKeepsChannels(s, s', mv);
    } else if !(mv.MCancel? || mv.MResolveSecret? || mv.MSend?) {
      TableStepKeepsChannels(s, s', mv);
    }
  }

  lemma PromptStepKeepsChannels(s: System, s': System, mv: Move)
    requires TableOk(s.m) && GateOk(s) && ChannelsOk(s)
    requires mv.MGate? || mv.MShow? || mv.MReceive? || mv.MGiveUp? || mv.MCleanup? || mv.MUngate?
    requires PromptStep(s, s', mv)
    ensures ChannelsOk(s')
  {
    forall id | id in s'.prompts && id in s.prompts && !mv.MGate?
      ensures id == mv.id
    {
      assert s.gate == Some(id);
    }
  }

  lemma TableStepKeepsChannels(s: System, s': System, mv: Move)
    requires TableOk(s.m) && ChannelsOk(s)
    requires (mv.MConnect? || mv.MDisconnect? || mv.MClose? || mv.MStatus? || mv.MPublish?) && TableStep(s, s', mv)
    ensures ChannelsOk(s')
  {
    forall g: GenId | g < |s.m.gens| && Current(s'.m, g)
      ensures Current(s.m, g) && s'.m.gens[g].fp == s.m.gens[g].fp && s'.m.gens[g].secret == s.m.gens[g].secret
    {
    }
  }

  lemma {:induction false} RunKeepsChannels(t: Trace, k: nat)
    requires Run(t) && k < |t.states|
    ensures Inv(t.states[k]) && ChannelsOk(t.states[k])
  {
    RunKeepsInv(t, k);
    if k > 0 {
      RunKeepsChannels(t, k - 1);
      assert StepAt(t, k - 1);
      StepKeepsChannels(t.states[k - 1], t.states[k], t.moves[k - 1]);
    }
  }

  /** A host has a prompt pending exactly while one of its generation's is shown
      and not cleaned up: the status it shows may outlast that. */
  lemma PendingIffUnderway(t: Trace, k: nat, h: HostId)
    requires Run(t) && k < |t.states|
    ensures var s := t.states[k];
      PromptsFor(s.m, h) <==>
      h in s.m.hosts && exists id | id in s.prompts :: Underway(s.prompts[id]) && s.prompts[id].gen == s.m.hosts[h]
  {
    RunKeepsChannels(t, k);
    var s := t.states[k];
    if PromptsFor(s.m, h) {
      assert Current(s.m, s.m.hosts[h]);
    }
    if h in s.m.hosts {
      assert Current(s.m, s.m.hosts[h]);
    }
  }

  /** An answer to a secret prompt is sent on exactly when the host's current
      generation has a secret prompt with that ID underway, and then on that
      prompt's own channel. */
  lemma AnswerFindsItsPrompt(t: Trace, k: nat)
    requires Run(t) && k < |t.moves| && t.moves[k].MResolveSecret?
    ensures var (s, s', mv) := (t.states[k], t.states[k + 1], t.moves[k]);
      && (mv.id in s'.sends <==> exists q | q in s.prompts :: Awaits(s, s.prompts[q], mv.h, mv.p))
      && (mv.id in s'.sends ==>
            s'.sends[mv.id].answer == Secret(mv.p, mv.secret) &&
            exists q | q in s.prompts :: Awaits(s, s.prompts[q], mv.h, mv.p) && s.prompts[q].c == s'.sends[mv.id].c)
      && s'.m == s.m && s'.prompts == s.prompts && s'.chans == s.chans
      && forall x | x in s.sends :: x in s'.sends && s'.sends[x] == s.sends[x]
  {
    assert StepAt(t, k);
    RunKeepsChannels(t, k);
    var (s, mv) := (t.states[k], t.moves[k]);
    if mv.h in s.m.hosts {
      assert Current(s.m, s.m.hosts[mv.h]);
    }
    var c := SecretChannel(s.m, mv.h, mv.p);
    if c.Some? {
      assert s.gate.value in s.prompts && Awaits(s, s.prompts[s.gate.value], mv.h, mv.p);
    }
  }

  /** The cleanup of a prompt leaves its generation, while current, with no prompt
      pending and no ID to answer, and touches nothing else. */
  lemma CleanupEndsPrompt(t: Trace, k: nat)
    requires Run(t) && k < |t.moves| && t.moves[k].MCleanup?
    ensures t.moves[k].id in t.states[k].prompts && t.states[k].prompts[t.moves[k].id].Answered?
    ensures var (a, b, q) := (t.states[k].m, t.states[k + 1].m, t.states[k].prompts[t.moves[k].id]);
      && q.gen < |a.gens| && |b.gens| == |a.gens| && b.hosts == a.hosts && b.log == a.log && b.promptSeq == a.promptSeq
      && (forall x | 0 <= x < |a.gens| && x != q.gen :: b.gens[x] == a.gens[x])
      && if Current(a, q.gen)
         then !Pending(b.gens[q.gen]) && b.gens[q.gen].status == a.gens[q.gen].status
              && (q.kind.SecretPrompt? ==> b.gens[q.gen].promptId == 0)
         else b == a
  {
    assert StepAt(t, k);
    RunKeepsChannels(t, k);
    var (s, q) := (t.states[k], t.states[k].prompts[t.moves[k].id]);
    assert s.gate == Some(t.moves[k].id);
    if Current(s.m, q.gen) {
      assert Pending(s.m.gens[q.gen]);
    }
  }

  /** A secret prompt with ID p of host h's generation, shown and not cleaned up. */
  ghost predicate Awaits(s: System, q: PromptPc, h: HostId, p: PromptId) {
    && Underway(q) && q.kind.SecretPrompt? && h in s.m.hosts && s.m.hosts[h] == q.gen
    && q.c < |s.chans| && s.chans[q.c].promptId == p
  }

  lemma Extended(t: Trace, s: System, mv: Move) returns (t': Trace)
    requires Run(t) && TableOk(t.states[|t.moves|].m) && Step(t.states[|t.moves|], s, mv)
    ensures Run(t') && t'.states == t.states + [s] && t'.moves == t.moves + [mv]
  {
    t' := Trace(t.states + [s], t.moves + [mv]);
    forall k | 0 <= k < |t'.moves|
      ensures StepAt(t', k)
    {
      assert k < |t.moves| ==> StepAt(t, k);
    }
  }

  function Last(t: Trace): System
    requires |t.states| > 0
  {
    t.states[|t.states| - 1]
  }

  /** A host-key prompt of host h, shown on its generation g. */
  lemma PromptShown(t: Trace, id: Id, h: HostId, g: GenId) returns (t': Trace)
    requires Run(t) && TableOk(Last(t).m) && Last(t).gate.None? && Last(t).prompts == map[]
    requires Current(Last(t).m, g) && Last(t).m.gens[g].host == h
    ensures Run(t') && TableOk(Last(t').m) && Last(t').gate == Some(id)
    ensures Last(t').m == Shown(Last(t).m, g, HostKey, |Last(t).chans|)
    ensures Last(t').prompts == map[id := Waiting(g, HostKey, |Last(t).chans|)]
  {
    var s := Last(t);
    var s1 := s.(gate := Some(id), prompts := map[id := Gated(g, HostKey)]);
    t' := Extended(t, s1, MGate(id, g, HostKey));
    var c := |s.chans|;
    var s2 := s1.(m := Shown(s.m, g, HostKey, c), chans := s.chans + [Chan(0, None)],
                  prompts := map[id := Waiting(g, HostKey, c)]);
    assert s2.prompts == s1.prompts[id := Waiting(g, HostKey, c)];
    t' := Extended(t', s2, MShow(id));
  }

  /** A shown prompt gives up, cleans up and lets the gate go. */
  lemma PromptEnds(t: Trace, id: Id, g: GenId, c: ChanId) returns (t': Trace)
    requires Run(t) && TableOk(Last(t).m) && g < |Last(t).m.gens|
    requires Last(t).prompts == map[id := Waiting(g, HostKey, c)]
    ensures Run(t') && Last(t').gate.None? && Last(t').prompts == map[]
    ensures Last(t').m == Cleaned(Last(t).m, g, HostKey, c)
  {
    var s := Last(t);
    var s1 := s.(prompts := s.prompts[id := Answered(g, HostKey, c, None)]);
    t' := Extended(t, s1, MGiveUp(id));
    var s2 := s1.(m := Cleaned(s.m, g, HostKey, c), prompts := s1.prompts[id := CleanedUp(None)]);
    t' := Extended(t', s2, MCleanup(id));
    var s3 := s2.(gate := None, prompts := s2.prompts - {id});
    assert s3.prompts == map[];
    t' := Extended(t', s3, MUngate(id));
  }

  /** Two hosts can show a pending prompt at once, though only one has it: the
      first one's status outlasts its prompt. */
  lemma TwoHostsShowPrompts(a: HostId, b: HostId) returns (t: Trace)
    requires a != b
    ensures Run(t) && ShowsPrompt(Last(t).m, a) && ShowsPrompt(Last(t).m, b)
    ensures !PromptsFor(Last(t).m, a) && PromptsFor(Last(t).m, b)
  {
    var s1 := START.(m := Inserted(INITIAL, a));
    var s2 := s1.(m := Inserted(s1.m, b));
    t := Extended(Trace([START], []), s1, MConnect(a));
    t := Extended(t, s2, MConnect(b));
    t := PromptShown(t, 1, a, 0);
    t := PromptEnds(t, 1, 0, 0);
    t := PromptShown(t, 2, b, 1);
  }

  /** What a section of a send or a prompt does to its channel: a send leaves its
      answer in an empty channel, or drops it, and is over; a prompt takes the
      answer out. No other channel changes. */
  lemma ChannelEffects(t: Trace, k: nat)
    requires Run(t) && k < |t.moves| && (t.moves[k].MSend? || t.moves[k].MReceive? || t.moves[k].MCancel?)
    ensures var (s, s', mv) := (t.states[k], t.states[k + 1], t.moves[k]);
      && s'.m == s.m && |s'.chans| == |s.chans|
      && match mv
         case MSend(id) =>
           && id in s.sends && s'.sends == s.sends - {id} && var x := s.sends[id];
           && (forall c | 0 <= c < |s.chans| ::
                 s'.chans[c] == if c == x.c && s.chans[c].buffer.None? then s.chans[c].(buffer := Some(x.answer))
                                else s.chans[c])
         case MReceive(id) =>
           && id in s.prompts && id in s'.prompts && s.prompts[id].Waiting? && s'.prompts[id].Answered?
           && var c := s.prompts[id].c;
           && c < |s.chans| && s.chans[c].buffer.Some? && s'.prompts[id].got == s.chans[c].buffer
           && s'.chans == s.chans[c := s.chans[c].(buffer := None)]
         case MCancel(id, c) => s'.sends == s.sends[id := Send(c, Cancel)] && s'.chans == s.chans
         case _ => true
  {
    assert StepAt(t, k);
  }

  /** A typed secret arrives: from a run that waits in a secret prompt, answering
      its ID, sending and receiving hands the prompt that secret. */
  lemma SecretArrives(t: Trace, id: Id, send: Id, secret: string) returns (t': Trace)
    requires Run(t) && id in Last(t).prompts && Last(t).prompts[id].Waiting? && Last(t).prompts[id].kind.SecretPrompt?
    requires Current(Last(t).m, Last(t).prompts[id].gen) && send !in Last(t).sends
    requires var c := Last(t).prompts[id].c; c < |Last(t).chans| && Last(t).chans[c].buffer.None?
    ensures Run(t') && |t'.moves| == |t.moves| + 3 && id in Last(t').prompts && Last(t').prompts[id].Answered?
    ensures Last(t').prompts[id].got == Some(Secret(Last(t).chans[Last(t).prompts[id].c].promptId, secret))
    ensures Last(t').m == Last(t).m && Last(t').sends == Last(t).sends
  {
    var s := Last(t);
    RunKeepsChannels(t, |t.moves|);
    var q := s.prompts[id];
    var p := s.chans[q.c].promptId;
    var s1 := s.(sends := s.sends[send := Send(q.c, Secret(p, secret))]);
    t' := Extended(t, s1, MResolveSecret(send, s.m.gens[q.gen].host, p, secret));
    var full := s.chans[q.c].(buffer := Some(Secret(p, secret)));
    var s2 := s1.(sends := s1.sends - {send}, chans := s.chans[q.c := full]);
    assert s2.sends == s.sends;
    t' := Extended(t', s2, MSend(send));
    var s3 := s2.(prompts := s2.prompts[id := Answered(q.gen, q.kind, q.c, s2.chans[q.c].buffer)],
                  chans := s2.chans[q.c := s2.chans[q.c].(buffer := None)]);
    t' := Extended(t', s3, MReceive(id));
  }
}
