/** How botBridgeHub keeps the watcher set and its persisted copy in step while
    any number of SetWatch calls and runtime refreshes run at once.

    SetWatch changes memory under mu, then persists what it saw under persistMu;
    a refresh reads a version, loads the file and offers it back as a seed. */
module WatcherPersistence {
  import opened KeyedList
  import opened Text
  import opened Wrappers

  datatype Route = Route(platform: string, connectionId: string, domain: string, chatType: string, chatId: string)

  function Key(r: Route): string {
    r.platform + "|" + r.connectionId + "|" + r.domain + "|" + r.chatId
  }

  type Watchers = map<string, Route>

  predicate NoChat(r: Route) {
    Trim(r.chatId) == ""
  }

  /** bridgeRoutesFromConfig: every field is trimmed on its way back. */
  function FromConfig(r: Route): Route {
    Route(Trim(r.platform), Trim(r.connectionId), Trim(r.domain), Trim(r.chatType), Trim(r.chatId))
  }

  function Reloaded(file: seq<Route>): (r: seq<Route>)
    ensures |r| == |file| && forall i | 0 <= i < |r| :: r[i] == FromConfig(file[i])
    ensures forall i | 0 <= i < |r| ::
              var f := file[i];
              r[i] == Route(Trim(f.platform), Trim(f.connectionId), Trim(f.domain), Trim(f.chatType), Trim(f.chatId))
  {
    seq(|file|, i requires 0 <= i < |file| => FromConfig(file[i]))
  }

  lemma FromConfigTwice(r: Route)
    ensures FromConfig(FromConfig(r)) == FromConfig(r) && (NoChat(FromConfig(r)) <==> NoChat(r))
  {
    TrimTwice(r.platform);
    TrimTwice(r.connectionId);
    TrimTwice(r.domain);
    TrimTwice(r.chatType);
    TrimTwice(r.chatId);
  }

  ghost predicate Keyed(m: Watchers) {
    forall k | k in m :: Key(m[k]) == k
  }

  /** routes lists the values of m, each key once. */
  ghost predicate Lists(routes: seq<Route>, m: Watchers) {
    && (forall r | r in routes :: Key(r) in m && m[Key(r)] == r)
    && (forall k | k in m :: m[k] in routes)
    && (forall i, j | 0 <= i < j < |routes| :: Key(routes[i]) != Key(routes[j]))
  }

  /** The map seedWatchers rebuilds: a later route wins its key. */
  function Seeded(routes: seq<Route>): Watchers {
    if |routes| == 0 then map[]
    else
      var m := Seeded(routes[..|routes| - 1]);
      var r := routes[|routes| - 1];
      if NoChat(r) then m else m[Key(r) := r]
  }

  function NonBlank(m: Watchers): Watchers {
    map k | k in m && !NoChat(m[k]) :: m[k]
  }

  lemma {:induction false} SeededOnly(routes: seq<Route>, k: string)
    requires k in Seeded(routes)
    ensures Seeded(routes)[k] in routes && !NoChat(Seeded(routes)[k]) && Key(Seeded(routes)[k]) == k
  {
    var init := routes[..|routes| - 1];
    if k in Seeded(init) {
      SeededOnly(init, k);
    }
  }

  lemma {:induction false} SeededAll(routes: seq<Route>, r: Route)
    requires r in routes && !NoChat(r)
    ensures Key(r) in Seeded(routes)
  {
    var init := routes[..|routes| - 1];
    if r in init {
      SeededAll(init, r);
    }
  }

  /** Route i has a chat, and no later route with one has its key. */
  predicate IsLastOfKey(routes: seq<Route>, i: nat) {
    && i < |routes| && Trim(routes[i].chatId) != ""
    && forall j | i < j < |routes| && Trim(routes[j].chatId) != "" :: Key(routes[j]) != Key(routes[i])
  }

  /** A seed keeps, of the routes with a chat, the last of each key. */
  lemma SeededIsLast(routes: seq<Route>)
    ensures forall k | k in Seeded(routes) :: Key(Seeded(routes)[k]) == k
    ensures forall r :: r in Seeded(routes).Values <==> exists i: nat :: IsLastOfKey(routes, i) && routes[i] == r
  {
    forall k | k in Seeded(routes)
      ensures Key(Seeded(routes)[k]) == k
      ensures exists i: nat :: IsLastOfKey(routes, i) && routes[i] == Seeded(routes)[k]
    {
      SeededOnly(routes, k);
      var i := LastOfKey(routes, k);
    }
    forall i: nat | IsLastOfKey(routes, i)
      ensures Key(routes[i]) in Seeded(routes) && Seeded(routes)[Key(routes[i])] == routes[i]
    {
      SeededAll(routes, routes[i]);
      var j := LastOfKey(routes, Key(routes[i]));
      assert !(i < j) && !(j < i);
    }
  }

  lemma {:induction false} LastOfKey(routes: seq<Route>, k: string) returns (i: nat)
    requires k in Seeded(routes)
    ensures IsLastOfKey(routes, i) && routes[i] == Seeded(routes)[k] && Key(routes[i]) == k
  {
    var last := |routes| - 1;
    if !NoChat(routes[last]) && Key(routes[last]) == k {
      i := last;
    } else {
      i := LastOfKey(routes[..last], k);
      assert routes[..last][i] == routes[i];
      forall j | i < j < |routes| && Trim(routes[j].chatId) != ""
        ensures Key(routes[j]) != k
      {
        assert j < last ==> routes[..last][j] == routes[j];
      }
    }
  }

  /** The key tells chats apart: without a bar in the first three fields, routes
      share it only if platform, connection, domain and chat agree. */
  lemma KeyIdentifiesChat(a: Route, b: Route)
    requires forall r | r in {a, b} :: '|' !in r.platform && '|' !in r.connectionId && '|' !in r.domain
    ensures Key(a) == Key(b) <==>
              && a.platform == b.platform && a.connectionId == b.connectionId
              && a.domain == b.domain && a.chatId == b.chatId
  {
    if Key(a) == Key(b) {
      assert a in {a, b} && b in {a, b};
      var ra, rb := a.connectionId + "|" + a.domain + "|" + a.chatId, b.connectionId + "|" + b.domain + "|" + b.chatId;
      assert Key(a) == a.platform + "|" + ra && Key(b) == b.platform + "|" + rb;
      FirstBar(a.platform, ra, b.platform, rb);
      assert ra == a.connectionId + "|" + (a.domain + "|" + a.chatId);
      assert rb == b.connectionId + "|" + (b.domain + "|" + b.chatId);
      FirstBar(a.connectionId, a.domain + "|" + a.chatId, b.connectionId, b.domain + "|" + b.chatId);
      FirstBar(a.domain, a.chatId, b.domain, b.chatId);
    }
  }

  lemma FirstBar(a: string, b: string, c: string, d: string)
    requires '|' !in a && '|' !in c && a + "|" + b == c + "|" + d
    ensures a == c && b == d
  {
    var s := a + "|" + b;
    assert s[|a|] == '|' && s[|c|] == '|';
    assert forall k | 0 <= k < |a| :: s[k] == a[k];
    assert forall k | 0 <= k < |c| :: s[k] == c[k];
    assert |a| == |c|;
    assert s[..|a|] == a && s[..|c|] == c && s[|a| + 1..] == b && s[|c| + 1..] == d;
  }

  /** Loading back what was persisted gives the watcher set, less the routes
      without a chat, exactly when every other route is trimmed. */
  lemma SeedOfPersisted(routes: seq<Route>, m: Watchers)
    requires Lists(routes, m) && Keyed(m)
    ensures Seeded(Reloaded(routes)) == NonBlank(m) <==> forall k | k in m && !NoChat(m[k]) :: FromConfig(m[k]) == m[k]
  {
    if forall k | k in m && !NoChat(m[k]) :: FromConfig(m[k]) == m[k] {
      TrimmedSetReloads(routes, m);
    }
    if Seeded(Reloaded(routes)) == NonBlank(m) {
      forall k | k in m && !NoChat(m[k])
        ensures FromConfig(m[k]) == m[k]
      {
        assert k in NonBlank(m);
        SeededOnly(Reloaded(routes), k);
        var i :| 0 <= i < |routes| && Reloaded(routes)[i] == m[k];
        FromConfigTwice(routes[i]);
      }
    }
  }

  lemma TrimmedSetReloads(routes: seq<Route>, m: Watchers)
    requires Lists(routes, m) && Keyed(m)
    requires forall k | k in m && !NoChat(m[k]) :: FromConfig(m[k]) == m[k]
    ensures Seeded(Reloaded(routes)) == NonBlank(m)
  {
    var l := Reloaded(routes);
    var s := Seeded(l);
    forall k | k in s
      ensures k in NonBlank(m) && s[k] == m[k]
    {
      SeededOnly(l, k);
      var i :| 0 <= i < |routes| && l[i] == s[k];
      FromConfigTwice(routes[i]);
      assert routes[i] in routes;
    }
    forall k | k in NonBlank(m)
      ensures k in s
    {
      var i :| 0 <= i < |routes| && routes[i] == m[k];
      assert l[i] == m[k];
      SeededAll(l, m[k]);
    }
  }

  // ---- The hub's fields and critical sections ----

  datatype Hub = Hub(watchers: Watchers, watchSeq: nat, dirty: bool, lastPersistSeq: nat)

  const INITIAL := Hub(map[], 0, false, 0)

  function Changed(m: Watchers, r: Route, enable: bool): Watchers {
    if enable then m[Key(r) := r] else m - {Key(r)}
  }

  function Set(h: Hub, r: Route, enable: bool): Hub {
    h.(watchers := Changed(h.watchers, r, enable), watchSeq := h.watchSeq + 1, dirty := true)
  }

  function MarkClean(h: Hub, n: nat): Hub {
    if h.watchSeq == n then h.(dirty := false) else h
  }

  predicate SeedApplies(h: Hub, expected: nat) {
    h.watchSeq == expected && !h.dirty
  }

  function Seed(h: Hub, routes: seq<Route>, expected: nat): Hub {
    if SeedApplies(h, expected) then h.(watchers := Seeded(routes)) else h
  }

  class BotBridgeHub {
    var watchers: Watchers
    var watchSeq: nat
    var watchPersistDirty: bool
    var lastPersistSeq: nat

    function View(): Hub
      reads this
    {
      Hub(watchers, watchSeq, watchPersistDirty, lastPersistSeq)
    }

    constructor ()
      ensures View() == INITIAL
    {
      watchers, watchSeq, watchPersistDirty, lastPersistSeq := map[], 0, false, 0;
    }

    /** SetWatch's first section under mu; the routes are those it will persist. */
    method BeginSetWatch(r: Route, enable: bool) returns (n: nat, routes: seq<Route>)
      requires Keyed(watchers)
      modifies this
      ensures View() == Set(old(View()), r, enable) && Keyed(watchers)
      ensures watchers == if enable then old(watchers)[Key(r) := r] else old(watchers) - {Key(r)}
      ensures watchSeq == old(watchSeq) + 1 && watchPersistDirty && lastPersistSeq == old(lastPersistSeq)
      ensures n == watchSeq && Lists(routes, watchers) && SortedById(routes, Key)
    {
      if enable {
        watchers := watchers[Key(r) := r];
      } else {
        watchers := watchers - {Key(r)};
      }
      watchSeq := watchSeq + 1;
      watchPersistDirty := true;
      n := watchSeq;
      routes := WatcherRoutes();
    }

    /** Every watcher once, sorted by key. */
    method WatcherRoutes() returns (routes: seq<Route>)
      requires Keyed(watchers)
      ensures Lists(routes, watchers) && SortedById(routes, Key)
    {
      routes := [];
      var todo := watchers.Keys;
      while todo != {}
        invariant todo <= watchers.Keys
        invariant forall r | r in routes :: Key(r) in watchers && Key(r) !in todo && watchers[Key(r)] == r
        invariant forall k | k in watchers && k !in todo :: watchers[k] in routes
        invariant forall i, j | 0 <= i < j < |routes| :: Key(routes[i]) != Key(routes[j])
        decreases |todo|
      {
        var k :| k in todo;
        todo := todo - {k};
        routes := routes + [watchers[k]];
      }
      SortKeeps(routes, Key, Key);
      routes := SortById(routes, Key);
    }

    /** SetWatch from its persistMu section on: skip what a later write already
        covered, otherwise write and mark. `persisted` is what the file write
        reports. */
    method FinishSetWatch(n: nat, persisted: bool) returns (wrote: bool)
      modifies this
      ensures wrote <==> n > old(lastPersistSeq) && persisted
      ensures View() == if wrote then MarkClean(old(View()).(lastPersistSeq := n), n) else old(View())
      ensures watchers == old(watchers) && watchSeq == old(watchSeq)
      ensures lastPersistSeq == if wrote then n else old(lastPersistSeq)
      ensures watchPersistDirty == (old(watchPersistDirty) && !(wrote && watchSeq == n))
    {
      if n <= lastPersistSeq || !persisted {
        return false;
      }
      lastPersistSeq := n;
      if watchSeq == n {
        watchPersistDirty := false;
      }
      return true;
    }

    method SeedWatchers(routes: seq<Route>, expected: nat)
      modifies this
      ensures View() == Seed(old(View()), routes, expected)
      ensures watchSeq != expected || watchPersistDirty ==> watchers == old(watchers)
      ensures watchSeq == old(watchSeq) && watchPersistDirty == old(watchPersistDirty)
      ensures lastPersistSeq == old(lastPersistSeq)
      ensures watchSeq == expected && !watchPersistDirty ==>
                && (forall k | k in watchers :: Key(watchers[k]) == k)
                && forall r :: r in watchers.Values <==>
                     exists i: nat :: IsLastOfKey(routes, i) && routes[i] == r
    {
      SeededIsLast(routes);
      if watchSeq != expected || watchPersistDirty {
        return;
      }
      watchers := map[];
      for i := 0 to |routes|
        invariant watchers == Seeded(routes[..i])
        invariant watchSeq == old(watchSeq) && watchPersistDirty == old(watchPersistDirty)
        invariant lastPersistSeq == old(lastPersistSeq)
      {
        assert routes[..i + 1][..i] == routes[..i];
        if !NoChat(routes[i]) {
          watchers := watchers[Key(routes[i]) := routes[i]];
        }
      }
      assert routes[..|routes|] == routes;
    }
  }

  // ---- Interleavings ----

  type Id = nat

  /** A SetWatch call past its first section: waiting for persistMu, writing
      under it, past the write, past the lastPersistSeq update. */
  datatype Writer =
    | Queued(n: nat, routes: seq<Route>)
    | Writing(n: nat, routes: seq<Route>)
    | Wrote(n: nat)
    | Marked(n: nat)

  /** A refresh past its version read, or past its file load. `settled` records
      whether the newest set had reached the file, or given up on it, at the
      version read; n is the number of the set the file held at the load. */
  datatype Seeder =
    | Versioned(v: nat, settled: bool)
    | Loaded(v: nat, settled: bool, routes: seq<Route>, n: nat)

  /** taken[n]: the watcher set as SetWatch number n left it. written: the
      sequence numbers of the file writes, oldest first. */
  datatype System = System(
    hub: Hub,
    file: seq<Route>,
    owner: Option<Id>,
    writers: map<Id, Writer>,
    seeders: map<Id, Seeder>,
    taken: map<nat, Watchers>,
    written: seq<nat>)

  datatype Move =
    | MSet(id: Id, r: Route, enable: bool, routes: seq<Route>, persists: bool)
    | MSkip(id: Id) | MAcquire(id: Id) | MFail(id: Id) | MWrite(id: Id) | MMark(id: Id) | MClean(id: Id)
    | MVersion(id: Id) | MLoad(id: Id) | MSeed(id: Id)

  ghost predicate StepSet(s: System, s': System, m: Move)
    requires m.MSet?
  {
    && m.id !in s.writers
    && Lists(m.routes, Changed(s.hub.watchers, m.r, m.enable))
    && s' == s.(hub := Set(s.hub, m.r, m.enable),
                taken := s.taken[s.hub.watchSeq + 1 := Changed(s.hub.watchers, m.r, m.enable)],
                writers := if m.persists then s.writers[m.id := Queued(s.hub.watchSeq + 1, m.routes)] else s.writers)
  }

  ghost predicate StepPersist(s: System, s': System, m: Move)
    requires m.MSkip? || m.MAcquire? || m.MFail? || m.MWrite? || m.MMark? || m.MClean?
  {
    m.id in s.writers && var w := s.writers[m.id];
    match m
    case MSkip(id) => s.owner.None? && w.Queued? && w.n <= s.hub.lastPersistSeq && s' == s.(writers := s.writers - {id})
    case MAcquire(id) =>
      s.owner.None? && w.Queued? && w.n > s.hub.lastPersistSeq
      && s' == s.(owner := Some(id), writers := s.writers[id := Writing(w.n, w.routes)])
    case MFail(id) => w.Writing? && s' == s.(owner := None, writers := s.writers - {id})
    case MWrite(id) =>
      w.Writing? && s' == s.(file := w.routes, written := s.written + [w.n], writers := s.writers[id := Wrote(w.n)])
    case MMark(id) =>
      w.Wrote? && s' == s.(hub := s.hub.(lastPersistSeq := w.n), writers := s.writers[id := Marked(w.n)])
    case MClean(id) =>
      w.Marked? && s' == s.(hub := MarkClean(s.hub, w.n), owner := None, writers := s.writers - {id})
  }

  /** The number of the set the file holds: the one being written, or the last
      one marked. */
  ghost function FileSeq(s: System): nat {
    if s.owner.Some? && s.owner.value in s.writers && s.writers[s.owner.value].Wrote?
    then s.writers[s.owner.value].n
    else s.hub.lastPersistSeq
  }

  predicate Pending(w: Writer) {
    w.Queued? || w.Writing?
  }

  /** No SetWatch with the newest number still has its write ahead of it. */
  ghost predicate Settled(s: System) {
    forall i | i in s.writers && s.writers[i].n == s.hub.watchSeq :: !Pending(s.writers[i])
  }

  ghost predicate StepSeed(s: System, s': System, m: Move)
    requires m.MVersion? || m.MLoad? || m.MSeed?
  {
    match m
    case MVersion(id) =>
      id !in s.seeders && s' == s.(seeders := s.seeders[id := Versioned(s.hub.watchSeq, Settled(s))])
    case MLoad(id) =>
      id in s.seeders && s.seeders[id].Versioned?
      && s' == s.(seeders := s.seeders[id :=
                    Loaded(s.seeders[id].v, s.seeders[id].settled, Reloaded(s.file), FileSeq(s))])
    case MSeed(id) =>
      id in s.seeders && s.seeders[id].Loaded? && s.owner.None?
      && s' == s.(hub := Seed(s.hub, s.seeders[id].routes, s.seeders[id].v), seeders := s.seeders - {id})
  }

  ghost predicate Step(s: System, s': System, m: Move) {
    match m
    case MSet(_, _, _, _, _) => StepSet(s, s', m)
    case MVersion(_) => StepSeed(s, s', m)
    case MLoad(_) => StepSeed(s, s', m)
    case MSeed(_) => StepSeed(s, s', m)
    case _ => StepPersist(s, s', m)
  }

  // ---- The invariant ----

  predicate Inside(w: Writer) {
    !w.Queued?
  }

  ghost predicate WriterOk(s: System, w: Writer) {
    && w.n <= s.hub.watchSeq && 0 < w.n
    && (w.Queued? || w.Writing? ==> w.n in s.taken && Lists(w.routes, s.taken[w.n]))
    && (w.Writing? || w.Wrote? ==> w.n > s.hub.lastPersistSeq)
    && (w.Marked? ==> w.n == s.hub.lastPersistSeq)
    && (w.Wrote? ==> w.n in s.taken)
  }

  /** What a refresh holds: a list the file had, never a newer number than the
      file has now; after a settled read, the newest one once it is there. */
  ghost predicate SeederOk(s: System, x: Seeder) {
    && x.v <= s.hub.watchSeq
    && (x.settled && x.v == s.hub.watchSeq ==> Settled(s))
    && (x.Loaded? ==>
          && x.n <= FileSeq(s) && (x.n == FileSeq(s) ==> x.routes == Reloaded(s.file))
          && (x.settled && x.v == s.hub.watchSeq && FileSeq(s) == s.hub.watchSeq ==> x.n == FileSeq(s)))
  }

  /** Numbers are not shared, and the file's own number is not still to come. */
  ghost predicate NumbersOk(s: System) {
    && (forall i, j | i in s.writers && j in s.writers && i != j :: s.writers[i].n != s.writers[j].n)
    && (forall i | i in s.writers && Pending(s.writers[i]) :: s.writers[i].n != FileSeq(s))
    && FileSeq(s) <= s.hub.watchSeq
  }

  predicate Increasing(ns: seq<nat>) {
    forall i, j | 0 <= i < j < |ns| :: ns[i] < ns[j]
  }

  ghost predicate FileOk(s: System, file0: seq<Route>) {
    && (FileSeq(s) == 0 ==> s.file == file0 && s.written == [])
    && (FileSeq(s) > 0 ==> FileSeq(s) in s.taken && Lists(s.file, s.taken[FileSeq(s)])
                           && s.written != [] && s.written[|s.written| - 1] == FileSeq(s))
    && Increasing(s.written)
  }

  ghost predicate Inv(s: System, file0: seq<Route>) {
    && Keyed(s.hub.watchers) && (forall n | n in s.taken :: Keyed(s.taken[n]) && n <= s.hub.watchSeq)
    && s.hub.lastPersistSeq <= s.hub.watchSeq
    && (!s.hub.dirty ==> s.hub.lastPersistSeq == s.hub.watchSeq)
    && (forall i | i in s.writers :: WriterOk(s, s.writers[i]) && (Inside(s.writers[i]) <==> s.owner == Some(i)))
    && (s.owner.Some? ==> s.owner.value in s.writers)
    && NumbersOk(s) && (forall i | i in s.seeders :: SeederOk(s, s.seeders[i]))
    && FileOk(s, file0)
  }

  lemma SetKeepsInv(s: System, s': System, m: Move, file0: seq<Route>)
    requires Inv(s, file0) && m.MSet? && StepSet(s, s', m)
    ensures Inv(s', file0)
  {
    assert Keyed(s'.hub.watchers);
    assert FileSeq(s') == FileSeq(s);
    forall i | i in s'.writers
      ensures WriterOk(s', s'.writers[i]) && (Inside(s'.writers[i]) <==> s'.owner == Some(i))
    {
      assert i in s.writers ==> WriterOk(s, s.writers[i]);
    }
    SetKeepsNumbers(s, s', m, file0);
    SeedersStayOk(s, s');
  }

  lemma SetKeepsNumbers(s: System, s': System, m: Move, file0: seq<Route>)
    requires Inv(s, file0) && m.MSet? && StepSet(s, s', m)
    ensures NumbersOk(s')
  {
    assert FileSeq(s') == FileSeq(s);
    forall i | i in s.writers
      ensures s.writers[i].n <= s.hub.watchSeq
    {
      assert WriterOk(s, s.writers[i]);
    }
  }

  /** A step that leaves the file, its number and the seeders alone, and adds no
      pending writer under the newest number, keeps the seeders right. */
  lemma SeedersStayOk(s: System, s': System)
    requires forall i | i in s.seeders :: SeederOk(s, s.seeders[i])
    requires s'.seeders == s.seeders && s'.file == s.file && FileSeq(s') == FileSeq(s)
    requires s'.hub.watchSeq > s.hub.watchSeq || (s'.hub.watchSeq == s.hub.watchSeq && (Settled(s) ==> Settled(s')))
    ensures forall i | i in s'.seeders :: SeederOk(s', s'.seeders[i])
  {
    forall i | i in s'.seeders
      ensures SeederOk(s', s'.seeders[i])
    {
      assert SeederOk(s, s.seeders[i]);
    }
  }

  lemma WriteKeepsInv(s: System, s': System, id: Id, file0: seq<Route>)
    requires Inv(s, file0) && StepPersist(s, s', MWrite(id))
    ensures Inv(s', file0)
  {
    var w := s.writers[id];
    assert WriterOk(s, w);
    assert s.owner == Some(id) && FileSeq(s) == s.hub.lastPersistSeq && FileSeq(s') == w.n;
    assert FileOk(s', file0);
    WriteKeepsSeeders(s, s', id, file0);
  }

  /** The file's number grows; the newest one reaches it only from a writer that
      was pending, so under no settled read. */
  lemma WriteKeepsSeeders(s: System, s': System, id: Id, file0: seq<Route>)
    requires Inv(s, file0) && StepPersist(s, s', MWrite(id))
    requires FileSeq(s') == s.writers[id].n > FileSeq(s)
    ensures forall i | i in s'.seeders :: SeederOk(s', s'.seeders[i])
  {
    forall i | i in s'.seeders
      ensures SeederOk(s', s'.seeders[i])
    {
      assert SeederOk(s, s.seeders[i]);
      assert Settled(s) ==> s.writers[id].n != s.hub.watchSeq;
      assert Settled(s) ==> Settled(s');
    }
  }

  lemma MarkKeepsInv(s: System, s': System, id: Id, file0: seq<Route>)
    requires Inv(s, file0) && StepPersist(s, s', MMark(id))
    ensures Inv(s', file0)
  {
    assert WriterOk(s, s.writers[id]) && s.owner == Some(id);
    assert FileSeq(s') == FileSeq(s);
    forall i | i in s'.writers
      ensures WriterOk(s', s'.writers[i])
    {
      assert WriterOk(s, s.writers[i]);
    }
    assert Settled(s) ==> Settled(s');
    SeedersStayOk(s, s');
  }

  /** A writer that leaves, or takes persistMu, changes nothing about the rest. */
  lemma WritersStayOk(s: System, s': System, id: Id, file0: seq<Route>)
    requires Inv(s, file0) && id in s.writers
    requires s' == s.(hub := s.hub.(dirty := s'.hub.dirty), owner := s'.owner, writers := s'.writers)
    requires s'.writers.Keys <= s.writers.Keys && FileSeq(s') == FileSeq(s)
    requires forall i | i in s'.writers && i != id :: s'.writers[i] == s.writers[i]
    requires id in s'.writers ==>
               s'.writers[id].n == s.writers[id].n && (Pending(s'.writers[id]) <==> Pending(s.writers[id]))
    ensures NumbersOk(s') && FileOk(s', file0)
    ensures forall i | i in s'.seeders :: SeederOk(s', s'.seeders[i])
    ensures forall i | i in s'.writers && i != id :: WriterOk(s', s'.writers[i])
  {
    forall i | i in s'.writers && i != id
      ensures WriterOk(s', s'.writers[i])
    {
      assert WriterOk(s, s.writers[i]);
    }
    SettledStays(s, s', id);
    SeedersStayOk(s, s');
  }

  lemma SkipKeepsInv(s: System, s': System, id: Id, file0: seq<Route>)
    requires Inv(s, file0) && StepPersist(s, s', MSkip(id))
    ensures Inv(s', file0)
  {
    WritersStayOk(s, s', id, file0);
  }

  lemma AcquireKeepsInv(s: System, s': System, id: Id, file0: seq<Route>)
    requires Inv(s, file0) && StepPersist(s, s', MAcquire(id))
    ensures Inv(s', file0)
  {
    assert WriterOk(s, s.writers[id]);
    WritersStayOk(s, s', id, file0);
    assert WriterOk(s', s'.writers[id]);
  }

  lemma FailKeepsInv(s: System, s': System, id: Id, file0: seq<Route>)
    requires Inv(s, file0) && StepPersist(s, s', MFail(id))
    ensures Inv(s', file0)
  {
    assert WriterOk(s, s.writers[id]) && s.owner == Some(id);
    WritersStayOk(s, s', id, file0);
  }

  lemma CleanKeepsInv(s: System, s': System, id: Id, file0: seq<Route>)
    requires Inv(s, file0) && StepPersist(s, s', MClean(id))
    ensures Inv(s', file0)
  {
    assert WriterOk(s, s.writers[id]) && s.owner == Some(id);
    WritersStayOk(s, s', id, file0);
  }

  lemma SettledStays(s: System, s': System, id: Id)
    requires s'.hub.watchSeq == s.hub.watchSeq && s'.writers.Keys <= s.writers.Keys
    requires forall i | i in s'.writers ::
               s'.writers[i].n == s.writers[i].n && (Pending(s'.writers[i]) <==> Pending(s.writers[i]))
    ensures Settled(s) ==> Settled(s')
  {
  }

  lemma PersistKeepsInv(s: System, s': System, m: Move, file0: seq<Route>)
    requires Inv(s, file0)
    requires (m.MSkip? || m.MAcquire? || m.MFail? || m.MWrite? || m.MMark? || m.MClean?) && StepPersist(s, s', m)
    ensures Inv(s', file0)
  {
    match m
    case MWrite(id) => WriteKeepsInv(s, s', id, file0);
    case MMark(id) => MarkKeepsInv(s, s', id, file0);
    case MSkip(id) => SkipKeepsInv(s, s', id, file0);
    case MAcquire(id) => AcquireKeepsInv(s, s', id, file0);
    case MFail(id) => FailKeepsInv(s, s', id, file0);
    case MClean(id) => CleanKeepsInv(s, s', id, file0);
  }

  lemma SeedKeepsInv(s: System, s': System, m: Move, file0: seq<Route>)
    requires Inv(s, file0) && (m.MVersion? || m.MLoad? || m.MSeed?) && StepSeed(s, s', m)
    ensures Inv(s', file0)
  {
    assert FileSeq(s') == FileSeq(s) && s'.writers == s.writers && s'.hub.watchSeq == s.hub.watchSeq;
    if m.MSeed? {
      forall k | k in Seeded(s.seeders[m.id].routes)
        ensures Key(Seeded(s.seeders[m.id].routes)[k]) == k
      {
        SeededOnly(s.seeders[m.id].routes, k);
      }
    }
    forall i | i in s'.seeders
      ensures SeederOk(s', s'.seeders[i])
    {
      assert i in s.seeders ==> SeederOk(s, s.seeders[i]);
    }
  }

  datatype Trace = Trace(states: seq<System>, moves: seq<Move>)

  ghost predicate StepAt(t: Trace, k: nat)
    requires k < |t.moves| && |t.states| == |t.moves| + 1
  {
    Step(t.states[k], t.states[k + 1], t.moves[k])
  }

  function Start(file0: seq<Route>): System {
    System(INITIAL, file0, None, map[], map[], map[], [])
  }

  ghost predicate Path(t: Trace, from: System) {
    && |t.states| == |t.moves| + 1
    && t.states[0] == from
    && forall k | 0 <= k < |t.moves| :: StepAt(t, k)
  }

  ghost predicate Run(t: Trace, file0: seq<Route>) {
    Path(t, Start(file0))
  }

  lemma StepKeepsInv(s: System, s': System, m: Move, file0: seq<Route>)
    requires Inv(s, file0) && Step(s, s', m)
    ensures Inv(s', file0)
  {
    match m
    case MSet(_, _, _, _, _) => SetKeepsInv(s, s', m, file0);
    case MVersion(_) => SeedKeepsInv(s, s', m, file0);
    case MLoad(_) => SeedKeepsInv(s, s', m, file0);
    case MSeed(_) => SeedKeepsInv(s, s', m, file0);
    case _ => PersistKeepsInv(s, s', m, file0);
  }

  lemma {:induction false} RunKeepsInv(t: Trace, k: nat, file0: seq<Route>)
    requires Run(t, file0) && k < |t.states|
    ensures Inv(t.states[k], file0)
  {
    if k > 0 {
      RunKeepsInv(t, k - 1, file0);
      assert StepAt(t, k - 1);
      StepKeepsInv(t.states[k - 1], t.states[k], t.moves[k - 1], file0);
    }
  }

  // ---- What every run gives ----

  /** Written sequence numbers strictly increase; outside a write the file
      lists the watcher set as it stood at lastPersistSeq (the initial file
      before the first write); nothing dirty means nothing unwritten. */
  lemma FileFollowsMemory(t: Trace, k: nat, file0: seq<Route>)
    requires Run(t, file0) && k < |t.states|
    ensures var s := t.states[k];
      && Increasing(s.written)
      && s.hub.lastPersistSeq <= s.hub.watchSeq
      && (!s.hub.dirty ==> s.hub.lastPersistSeq == s.hub.watchSeq)
      && (s.owner.None? ==>
            if s.hub.lastPersistSeq == 0 then s.file == file0
            else s.hub.lastPersistSeq in s.taken && Lists(s.file, s.taken[s.hub.lastPersistSeq]))
  {
    RunKeepsInv(t, k, file0);
  }

  /** A SetWatch call that ends well, by its write or because it was covered, leaves
      the file with its set or a newer one; a failed write leaves the file. Either
      way it is over and persistMu is free. */
  lemma EndedCallIsPersisted(t: Trace, k: nat, file0: seq<Route>)
    requires Run(t, file0) && k < |t.moves| && (t.moves[k].MSkip? || t.moves[k].MClean? || t.moves[k].MFail?)
    ensures var (s, s', id) := (t.states[k], t.states[k + 1], t.moves[k].id);
      && id in s.writers && s'.writers == s.writers - {id} && s'.owner.None? && s'.file == s.file
      && (!t.moves[k].MFail? ==> s.writers[id].n <= s'.hub.lastPersistSeq == FileSeq(s'))
      && (!t.moves[k].MClean? ==> s'.hub == s.hub)
  {
    RunKeepsInv(t, k, file0);
    assert StepAt(t, k);
  }

  /** The number of SetWatch calls begun among the first k moves. */
  function Sets(moves: seq<Move>): nat {
    if |moves| == 0 then 0 else Sets(moves[..|moves| - 1]) + if moves[|moves| - 1].MSet? then 1 else 0
  }

  lemma {:induction false} WatchSeqCountsSets(t: Trace, k: nat, file0: seq<Route>)
    requires Run(t, file0) && k < |t.states|
    ensures t.states[k].hub.watchSeq == Sets(t.moves[..k])
  {
    if k > 0 {
      WatchSeqCountsSets(t, k - 1, file0);
      assert StepAt(t, k - 1);
      assert t.moves[..k][..k - 1] == t.moves[..k - 1];
    }
  }

  /** What a seeder remembers is its version read: the state of some earlier
      moment, with the sequence number found there, and whether it was settled. */
  lemma {:induction false} VersionWasRead(t: Trace, k: nat, id: Id, file0: seq<Route>) returns (j: nat)
    requires Run(t, file0) && k < |t.states| && id in t.states[k].seeders
    ensures j < k && t.moves[j] == MVersion(id)
    ensures t.states[k].seeders[id].v == t.states[j].hub.watchSeq
    ensures t.states[k].seeders[id].settled == Settled(t.states[j])
  {
    assert StepAt(t, k - 1);
    if id in t.states[k - 1].seeders {
      j := VersionWasRead(t, k - 1, id, file0);
    } else {
      j := k - 1;
    }
  }

  /** A seed takes effect only if no SetWatch began since its version read; if
      that read was settled, memory then equals the file. */
  lemma SeedIsFresh(t: Trace, k: nat, id: Id, file0: seq<Route>) returns (j: nat)
    requires Run(t, file0) && k < |t.moves| && t.moves[k] == MSeed(id) && id in t.states[k].seeders
    requires SeedApplies(t.states[k].hub, t.states[k].seeders[id].v)
    ensures j < k && t.moves[j] == MVersion(id)
    ensures Sets(t.moves[..k]) == Sets(t.moves[..j])
    ensures Settled(t.states[j]) ==> t.states[k + 1].hub.watchers == Seeded(Reloaded(t.states[k + 1].file))
  {
    assert StepAt(t, k);
    j := VersionWasRead(t, k, id, file0);
    WatchSeqCountsSets(t, k, file0);
    WatchSeqCountsSets(t, j, file0);
    RunKeepsInv(t, k, file0);
    assert SeederOk(t.states[k], t.states[k].seeders[id]);
  }

  // ---- When every seed offers the newest set ----

  /** The refresh id, about to offer its list: if the seed applies, the list is
      the newest set's. */
  ghost predicate SeedsNewest(s: System, id: Id) {
    && id in s.seeders && s.seeders[id].Loaded?
    && (SeedApplies(s.hub, s.seeders[id].v) ==> s.seeders[id].n == s.hub.watchSeq)
  }

  ghost predicate NoSeed(moves: seq<Move>, id: Id) {
    forall m | m in moves :: m != MSeed(id)
  }

  /** Move m is the first seed of refresh id. */
  ghost predicate OwnSeed(u: Trace, m: nat, id: Id) {
    m < |u.moves| && u.moves[m] == MSeed(id) && NoSeed(u.moves[..m], id)
  }

  /** After a version read, every continuation of the run offers the newest set
      whenever its seed applies, exactly when the newest SetWatch had no write
      ahead of it at that read. */
  lemma SettledIffSeedsNewest(t: Trace, k: nat, id: Id, file0: seq<Route>)
    requires Run(t, file0) && k < |t.moves| && t.moves[k] == MVersion(id)
    ensures Settled(t.states[k]) <==>
            forall u, m: nat | Path(u, t.states[k + 1]) && OwnSeed(u, m, id) :: SeedsNewest(u.states[m], id)
  {
    var s := t.states[k + 1];
    assert StepAt(t, k);
    RunKeepsInv(t, k + 1, file0);
    if Settled(t.states[k]) {
      forall u, m: nat | Path(u, s) && OwnSeed(u, m, id)
        ensures SeedsNewest(u.states[m], id)
      {
        SettledSeedsNewest(u, s, m, id, file0);
      }
    } else {
      var u, m := UnsettledSeedsStale(s, id, file0);
      assert OwnSeed(u, m, id);
    }
  }

  lemma UnsettledSeedsStale(s: System, id: Id, file0: seq<Route>) returns (u: Trace, m: nat)
    requires Inv(s, file0) && !Settled(s)
    requires id in s.seeders && s.seeders[id].Versioned? && s.seeders[id].v == s.hub.watchSeq
    ensures Path(u, s) && OwnSeed(u, m, id) && !SeedsNewest(u.states[m], id)
  {
    var w :| w in s.writers && s.writers[w].n == s.hub.watchSeq && Pending(s.writers[w]);
    u := StaleSeed(Trace([s], []), s, w, id, file0);
    m := |u.moves| - 1;
  }

  lemma {:induction false} VersionKept(u: Trace, s: System, j: nat, id: Id, file0: seq<Route>)
    requires Path(u, s) && Inv(s, file0) && id in s.seeders && j < |u.states| && NoSeed(u.moves[..j], id)
    ensures Inv(u.states[j], file0) && id in u.states[j].seeders
    ensures u.states[j].seeders[id].v == s.seeders[id].v && u.states[j].seeders[id].settled == s.seeders[id].settled
  {
    if j > 0 {
      var init := u.moves[..j - 1];
      forall m | m in init
        ensures m != MSeed(id)
      {
        assert m in u.moves[..j];
      }
      VersionKept(u, s, j - 1, id, file0);
      assert StepAt(u, j - 1) && u.moves[j - 1] in u.moves[..j];
      StepKeepsInv(u.states[j - 1], u.states[j], u.moves[j - 1], file0);
      StepKeepsVersion(u.states[j - 1], u.states[j], u.moves[j - 1], id);
    }
  }

  lemma StepKeepsVersion(s: System, s': System, m: Move, id: Id)
    requires Step(s, s', m) && id in s.seeders && m != MSeed(id)
    ensures id in s'.seeders && s'.seeders[id].v == s.seeders[id].v && s'.seeders[id].settled == s.seeders[id].settled
  {
  }

  lemma SettledSeedsNewest(u: Trace, s: System, m: nat, id: Id, file0: seq<Route>)
    requires Path(u, s) && OwnSeed(u, m, id) && Inv(s, file0) && id in s.seeders && s.seeders[id].settled
    ensures SeedsNewest(u.states[m], id)
  {
    VersionKept(u, s, m, id, file0);
    assert StepAt(u, m);
    assert SeederOk(u.states[m], u.states[m].seeders[id]);
  }

  // ---- The failing side ----

  function Last(t: Trace): System
    requires |t.states| > 0
  {
    t.states[|t.states| - 1]
  }

  /** A trace on its way to the stale seed of refresh id, after `from`. */
  ghost predicate OnWay(u: Trace, from: System, id: Id, file0: seq<Route>) {
    Path(u, from) && NoSeed(u.moves, id) && Inv(Last(u), file0)
  }

  lemma Extended(u: Trace, from: System, s: System, m: Move, id: Id, file0: seq<Route>) returns (u': Trace)
    requires OnWay(u, from, id, file0) && Step(Last(u), s, m) && m != MSeed(id)
    ensures OnWay(u', from, id, file0) && Last(u') == s
  {
    u' := Trace(u.states + [s], u.moves + [m]);
    PathGrows(u, from, s, m);
    StepKeepsInv(Last(u), s, m, file0);
  }

  lemma PathGrows(u: Trace, from: System, s: System, m: Move)
    requires Path(u, from) && Step(Last(u), s, m)
    ensures Path(Trace(u.states + [s], u.moves + [m]), from)
  {
    var u' := Trace(u.states + [s], u.moves + [m]);
    forall k | 0 <= k < |u'.moves|
      ensures StepAt(u', k)
    {
      assert k < |u.moves| ==> StepAt(u, k);
    }
  }

  /** SetWatch w carries the newest number, its write still ahead, and refresh id
      holds the list `routes`, numbered n, under the current version. */
  ghost predicate Stale(s: System, w: Id, id: Id, routes: seq<Route>, n: nat) {
    && w in s.writers && s.writers[w].n == s.hub.watchSeq && Pending(s.writers[w])
    && id in s.seeders && s.seeders[id].Loaded? && s.seeders[id].v == s.hub.watchSeq
    && s.seeders[id].routes == routes && s.seeders[id].n == n < s.hub.watchSeq
  }

  /** Another SetWatch inside persistMu finishes or fails. */
  lemma {:induction false} Vacated(u: Trace, from: System, w: Id, id: Id, routes: seq<Route>, n: nat, file0: seq<Route>)
    returns (u': Trace)
    requires OnWay(u, from, id, file0) && Stale(Last(u), w, id, routes, n)
    ensures OnWay(u', from, id, file0) && Stale(Last(u'), w, id, routes, n)
    ensures Last(u').hub.watchSeq == Last(u).hub.watchSeq && Last(u').taken == Last(u).taken
    ensures Last(u').owner == (if Last(u').writers[w].Writing? then Some(w) else None)
    decreases if Last(u).owner.None? || Last(u).owner == Some(w) then 0
              else if Last(u).writers[Last(u).owner.value].Wrote? then 2 else 1
  {
    var s := Last(u);
    u' := u;
    if s.owner.Some? && s.owner != Some(w) {
      var o := s.owner.value;
      var x := s.writers[o];
      assert WriterOk(s, x) && Inside(x);
      if x.Wrote? {
        u' := Extended(u, from, s.(hub := s.hub.(lastPersistSeq := x.n), writers := s.writers[o := Marked(x.n)]),
                       MMark(o), id, file0);
      } else if x.Marked? {
        u' := Extended(u, from, s.(hub := MarkClean(s.hub, x.n), owner := None, writers := s.writers - {o}),
                       MClean(o), id, file0);
      } else {
        u' := Extended(u, from, s.(owner := None, writers := s.writers - {o}), MFail(o), id, file0);
      }
      u' := Vacated(u', from, w, id, routes, n, file0);
    }
  }

  /** SetWatch w writes, marks and cleans. */
  lemma Persisted(u: Trace, from: System, w: Id, id: Id, routes: seq<Route>, n: nat, file0: seq<Route>)
    returns (u': Trace)
    requires OnWay(u, from, id, file0) && Stale(Last(u), w, id, routes, n)
    requires Last(u).owner == Some(w) && Last(u).writers[w].Writing?
    ensures OnWay(u', from, id, file0) && Last(u').owner.None? && !Last(u').hub.dirty
    ensures Last(u').hub.watchSeq == Last(u).hub.watchSeq && Last(u').taken == Last(u).taken
    ensures Last(u').seeders == Last(u).seeders && Last(u').file == Last(u).writers[w].routes
  {
    var s := Last(u);
    var x := s.writers[w];
    var s1 := s.(file := x.routes, written := s.written + [x.n], writers := s.writers[w := Wrote(x.n)]);
    u' := Extended(u, from, s1, MWrite(w), id, file0);
    var s2 := s1.(hub := s1.hub.(lastPersistSeq := x.n), writers := s1.writers[w := Marked(x.n)]);
    u' := Extended(u', from, s2, MMark(w), id, file0);
    var s3 := s2.(hub := MarkClean(s2.hub, x.n), owner := None, writers := s2.writers - {w});
    u' := Extended(u', from, s3, MClean(w), id, file0);
  }

  /** From any state where the newest SetWatch has its write ahead and a refresh
      has read that version: the refresh loads the file, the write finishes, and
      the seed replaces memory by the list the file had before. */
  lemma StaleSeed(t: Trace, from: System, w: Id, id: Id, file0: seq<Route>) returns (u: Trace)
    requires OnWay(t, from, id, file0)
    requires var s := Last(t);
      && w in s.writers && s.writers[w].n == s.hub.watchSeq && Pending(s.writers[w])
      && id in s.seeders && s.seeders[id].Versioned? && s.seeders[id].v == s.hub.watchSeq
    ensures Path(u, from) && |u.moves| > 0 && OwnSeed(u, |u.moves| - 1, id) && !SeedsNewest(u.states[|u.moves| - 1], id)
    ensures !Last(u).hub.dirty && Last(u).hub.watchers == Seeded(Reloaded(Last(t).file))
    ensures Last(t).hub.watchSeq in Last(t).taken && Lists(Last(u).file, Last(t).taken[Last(t).hub.watchSeq])
  {
    var s := Last(t);
    assert WriterOk(s, s.writers[w]);
    var routes, n := Reloaded(s.file), FileSeq(s);
    u := Extended(t, from, s.(seeders := s.seeders[id := Loaded(s.seeders[id].v, s.seeders[id].settled, routes, n)]),
                  MLoad(id), id, file0);
    u := Vacated(u, from, w, id, routes, n, file0);
    u := Acquired(u, from, w, id, routes, n, file0);
    assert WriterOk(Last(u), Last(u).writers[w]);
    u := Persisted(u, from, w, id, routes, n, file0);
    var s4 := Last(u);
    var s5 := s4.(hub := Seed(s4.hub, routes, s4.hub.watchSeq), seeders := s4.seeders - {id});
    PathGrows(u, from, s5, MSeed(id));
    var m := |u.moves|;
    var u' := Trace(u.states + [s5], u.moves + [MSeed(id)]);
    assert u'.moves[..m] == u.moves && u'.states[m] == s4;
    u := u';
  }

  lemma Acquired(u: Trace, from: System, w: Id, id: Id, routes: seq<Route>, n: nat, file0: seq<Route>)
    returns (u': Trace)
    requires OnWay(u, from, id, file0) && Stale(Last(u), w, id, routes, n)
    requires Last(u).owner == (if Last(u).writers[w].Writing? then Some(w) else None)
    ensures OnWay(u', from, id, file0) && Stale(Last(u'), w, id, routes, n)
    ensures Last(u').hub == Last(u).hub && Last(u').taken == Last(u).taken
    ensures Last(u').owner == Some(w) && Last(u').writers[w].Writing?
  {
    var s := Last(u);
    u' := u;
    if s.writers[w].Queued? {
      var x := s.writers[w];
      u' := Extended(u, from, s.(owner := Some(w), writers := s.writers[w := Writing(x.n, x.routes)]),
                     MAcquire(w), id, file0);
    }
  }

  /** The failing side is reached: one SetWatch from an empty start, a refresh
      that reads its version before the write and the file before it too. The
      run ends clean, with the watched chat in the file and not in memory. */
  lemma StaleSeedRun(r: Route) returns (u: Trace)
    requires !NoChat(r)
    ensures Run(u, []) && !Last(u).hub.dirty && r in Last(u).file
    ensures Last(u).hub.watchers == map[] && Seeded(Reloaded(Last(u).file)) != map[]
  {
    var s0 := Start([]);
    var w := map[Key(r) := r];
    var s1 := s0.(hub := Hub(w, 1, true, 0), taken := map[1 := w], writers := map[0 := Queued(1, [r])]);
    var s2 := s1.(seeders := map[1 := Versioned(1, false)]);
    assert Lists([r], w) && Changed(s0.hub.watchers, r, true) == w;
    assert 0 in s1.writers && s1.writers[0].n == s1.hub.watchSeq && Pending(s1.writers[0]) && !Settled(s1);
    u := Extended(Trace([s0], []), s0, s1, MSet(0, r, true, [r], true), 1, []);
    u := Extended(u, s0, s2, MVersion(1), 1, []);
    assert Last(u) == s2;
    u := StaleSeed(u, s0, 0, 1, []);
    var file := Last(u).file;
    assert Lists(file, w) && Key(r) in w && w[Key(r)] in file;
    var i :| 0 <= i < |file| && file[i] == r;
    FromConfigTwice(r);
    assert Reloaded(file)[i] == FromConfig(r);
    SeededAll(Reloaded(file), FromConfig(r));
  }
}
