/** mediaTokenStore: temporary file tokens with a fixed lifetime and a cap on
    their number. `create` trims the queue and the map together, `get` deletes
    an expired token from the map only. */
module MediaTokens {

  import opened Wrappers

  type Token = string
  type Time = int

  datatype Entry = Entry(path: string, createdAt: Time, expiresAt: Time)

  /** order: oldest first. */
  datatype Store = Store(byTok: map<Token, Entry>, order: seq<Token>)

  const EMPTY := Store(map[], [])

  predicate Expired(s: Store, tok: Token, now: Time) {
    tok !in s.byTok || now >= s.byTok[tok].expiresAt
  }

  function DropHead(s: Store): Store
    requires s.order != []
  {
    Store(s.byTok - {s.order[0]}, s.order[1..])
  }

  function DropExpired(s: Store, now: Time): Store
    decreases |s.order|
  {
    if s.order != [] && Expired(s, s.order[0], now) then DropExpired(DropHead(s), now) else s
  }

  function Trim(s: Store, maxN: nat): Store
    decreases |s.order|
  {
    if |s.order| > maxN then Trim(DropHead(s), maxN) else s
  }

  function Cleaned(s: Store, now: Time, maxN: nat): Store {
    Trim(DropExpired(s, now), maxN)
  }

  /** create reads the clock twice: for the cleanup, and for the new entry. */
  function Created(s: Store, tok: Token, path: string, t0: Time, t1: Time, maxN: nat, ttl: nat): Store {
    var c := Cleaned(s, t0, maxN);
    Trim(Store(c.byTok[tok := Entry(path, t1, t1 + ttl)], c.order + [tok]), maxN)
  }

  function Got(s: Store, tok: Token, now: Time): (Store, Option<Entry>) {
    if tok !in s.byTok then (s, None)
    else if now > s.byTok[tok].expiresAt then (s.(byTok := s.byTok - {tok}), None)
    else (s, Some(s.byTok[tok]))
  }

  class MediaTokenStore {
    var byTok: map<Token, Entry>
    var order: seq<Token>
    const maxN: nat
    const ttl: nat

    function View(): Store
      reads this
    {
      Store(byTok, order)
    }

    constructor (maxN: nat, ttl: nat)
      ensures View() == EMPTY && this.maxN == maxN && this.ttl == ttl
    {
      byTok, order := map[], [];
      this.maxN, this.ttl := maxN, ttl;
    }

    method TrimLocked()
      modifies this`byTok, this`order
      ensures View() == Trim(old(View()), maxN)
      ensures |order| <= maxN && (|old(order)| <= maxN ==> View() == old(View()))
    {
      while |order| > maxN
        invariant Trim(View(), maxN) == Trim(old(View()), maxN)
        decreases |order|
      {
        byTok := byTok - {order[0]};
        order := order[1..];
      }
    }

    method CleanupLocked(now: Time)
      modifies this`byTok, this`order
      ensures View() == Cleaned(old(View()), now, maxN)
      ensures order != [] && |old(order)| <= maxN ==> order[0] in byTok && now < byTok[order[0]].expiresAt
    {
      while |order| > 0
        invariant DropExpired(View(), now) == DropExpired(old(View()), now)
        decreases |order|
      {
        var tok := order[0];
        if tok !in byTok {
          assert byTok - {tok} == byTok;
          order := order[1..];
        } else if now >= byTok[tok].expiresAt {
          byTok := byTok - {tok};
          order := order[1..];
        } else {
          break;
        }
      }
      TrimLocked();
    }

    method Create(tok: Token, path: string, t0: Time, t1: Time)
      modifies this`byTok, this`order
      ensures View() == Created(old(View()), tok, path, t0, t1, maxN, ttl)
      ensures |order| <= maxN
    {
      CleanupLocked(t0);
      byTok := byTok[tok := Entry(path, t1, t1 + ttl)];
      order := order + [tok];
      TrimLocked();
    }

    method Get(tok: Token, now: Time) returns (e: Option<Entry>)
      modifies this`byTok
      ensures (View(), e) == Got(old(View()), tok, now)
      ensures order == old(order)
      ensures e.Some? <==> tok in old(byTok) && now <= old(byTok)[tok].expiresAt
      ensures e.Some? ==> e.value == old(byTok)[tok]
      ensures byTok == if tok in old(byTok) && now > old(byTok)[tok].expiresAt then old(byTok) - {tok} else old(byTok)
    {
      if tok !in byTok {
        return None;
      }
      e := Some(byTok[tok]);
      if now > byTok[tok].expiresAt {
        byTok := byTok - {tok};
        e := None;
      }
    }
  }

  // ---- Histories of calls ----

  datatype Call = Create(tok: Token, path: string, t0: Time, t1: Time) | Get(tok: Token, now: Time)

  /** A token ever created, with its entry. */
  datatype Birth = Birth(tok: Token, entry: Entry)

  /** The store after a history, with every creation so far and the last clock
      reading. */
  datatype World = World(s: Store, born: seq<Birth>, now: Time)

  function After(w: World, c: Call, maxN: nat, ttl: nat): World {
    match c
    case Create(tok, path, t0, t1) =>
      World(Created(w.s, tok, path, t0, t1, maxN, ttl), w.born + [Birth(tok, Entry(path, t1, t1 + ttl))], t1)
    case Get(tok, now) => World(Got(w.s, tok, now).0, w.born, now)
  }

  /** The clock does not run backwards, and a new token is one never used. */
  predicate Proper(w: World, c: Call) {
    match c
    case Create(tok, _, t0, t1) => w.now <= t0 <= t1 && forall b | b in w.born :: b.tok != tok
    case Get(_, now) => w.now <= now
  }

  predicate DistinctBirths(born: seq<Birth>) {
    forall i, j | 0 <= i < j < |born| :: born[i].tok != born[j].tok
  }

  predicate SortedBirths(born: seq<Birth>) {
    forall i, j | 0 <= i < j < |born| :: born[i].entry.expiresAt <= born[j].entry.expiresAt
  }

  /** A creation no longer in the queue: gone from the map, and either expired
      or followed by maxN creations. */
  ghost predicate Gone(w: World, j: nat, maxN: nat)
    requires j < |w.born|
  {
    && w.born[j].tok !in w.s.byTok
    && (w.born[j].entry.expiresAt <= w.now || |w.born| - 1 - j >= maxN)
  }

  /** A creation still in the queue: in the map, or already expired when `get`
      met it. */
  ghost predicate Queued(w: World, j: nat)
    requires j < |w.born|
  {
    if w.born[j].tok in w.s.byTok then w.s.byTok[w.born[j].tok] == w.born[j].entry
    else w.born[j].entry.expiresAt <= w.now
  }

  /** The queue is the creations from number k on, at most maxN + slack. */
  ghost predicate QueueUpTo(w: World, k: nat, slack: nat, maxN: nat) {
    && k <= |w.born| && |w.s.order| == |w.born| - k <= maxN + slack
    && (forall i | 0 <= i < |w.s.order| :: w.s.order[i] == w.born[k + i].tok)
    && (forall j | 0 <= j < k :: Gone(w, j, maxN))
    && (forall j | k <= j < |w.born| :: Queued(w, j))
  }

  ghost predicate QueueFrom(w: World, k: nat, maxN: nat) {
    QueueUpTo(w, k, 0, maxN)
  }

  /** The queue is exactly the live keys: none of it is missing from the map. */
  ghost predicate Exact(w: World, k: nat, maxN: nat) {
    QueueFrom(w, k, maxN) && forall j | k <= j < |w.born| :: w.born[j].tok in w.s.byTok
  }

  /** Tokens are distinct and expire in creation order, none later than a
      token created now would. */
  ghost predicate BirthsOk(w: World, ttl: nat) {
    && DistinctBirths(w.born) && SortedBirths(w.born)
    && (forall i | 0 <= i < |w.born| :: w.born[i].entry.expiresAt <= w.now + ttl)
  }

  ghost predicate KeysBorn(w: World) {
    forall t | t in w.s.byTok :: exists i :: 0 <= i < |w.born| && w.born[i].tok == t
  }

  /** Popping the head of the queue keeps the queue relation when the head is
      expired, or when maxN creations have followed it. */
  lemma HeadDropped(w: World, k: nat, maxN: nat, slack: nat)
    requires DistinctBirths(w.born) && QueueUpTo(w, k, slack, maxN) && w.s.order != []
    requires Expired(w.s, w.s.order[0], w.now) || |w.born| - 1 - k >= maxN
    ensures QueueUpTo(w.(s := DropHead(w.s)), k + 1, slack, maxN)
  {
    var w' := w.(s := DropHead(w.s));
    assert w.s.order[0] == w.born[k].tok;
    assert Queued(w, k);
    forall j | 0 <= j < |w.born|
      ensures j <= k ==> Gone(w', j, maxN)
      ensures j > k ==> Queued(w', j)
    {
      assert if j < k then Gone(w, j, maxN) else Queued(w, j);
    }
  }

  /** An unexpired head makes the whole queue live. */
  lemma HeadLive(w: World, k: nat, maxN: nat)
    requires SortedBirths(w.born) && QueueFrom(w, k, maxN)
    requires w.s.order == [] || !Expired(w.s, w.s.order[0], w.now)
    ensures Exact(w, k, maxN)
  {
    if w.s.order != [] {
      assert w.s.order[0] == w.born[k].tok && Queued(w, k);
      forall j | k <= j < |w.born|
        ensures w.born[j].tok in w.s.byTok
      {
        assert Queued(w, j) && w.born[k].entry.expiresAt <= w.born[j].entry.expiresAt;
      }
    }
  }

  /** Dropping the expired heads leaves a queue that is exactly the live tokens. */
  lemma {:induction false} DropExpiredExact(w: World, k: nat, maxN: nat) returns (k': nat)
    requires DistinctBirths(w.born) && SortedBirths(w.born) && QueueFrom(w, k, maxN)
    ensures Exact(w.(s := DropExpired(w.s, w.now)), k', maxN)
    ensures DropExpired(w.s, w.now).byTok.Keys <= w.s.byTok.Keys
    decreases |w.s.order|
  {
    if w.s.order != [] && Expired(w.s, w.s.order[0], w.now) {
      HeadDropped(w, k, maxN, 0);
      k' := DropExpiredExact(w.(s := DropHead(w.s)), k + 1, maxN);
    } else {
      k' := k;
      HeadLive(w, k, maxN);
    }
  }

  lemma TrimWithin(s: Store, maxN: nat)
    requires |s.order| <= maxN
    ensures Trim(s, maxN) == s
  {
  }

  /** Time passing only ages entries. */
  lemma LaterClock(w: World, k: nat, maxN: nat, now: Time)
    requires QueueFrom(w, k, maxN) && w.now <= now
    ensures QueueFrom(w.(now := now), k, maxN)
  {
    var w' := w.(now := now);
    forall j | 0 <= j < |w.born|
      ensures j < k ==> Gone(w', j, maxN)
      ensures j >= k ==> Queued(w', j)
    {
      assert if j < k then Gone(w, j, maxN) else Queued(w, j);
    }
  }

  /** `get` deletes from the map only, and only what has expired. */
  lemma GetKeepsQueue(w: World, k: nat, tok: Token, now: Time, maxN: nat, ttl: nat)
    requires DistinctBirths(w.born) && KeysBorn(w) && QueueFrom(w, k, maxN) && w.now <= now
    ensures QueueFrom(After(w, Get(tok, now), maxN, ttl), k, maxN)
  {
    LaterClock(w, k, maxN, now);
    var w0, w' := w.(now := now), After(w, Get(tok, now), maxN, ttl);
    forall j | 0 <= j < |w.born|
      ensures j < k ==> Gone(w', j, maxN)
      ensures j >= k ==> Queued(w', j)
    {
      assert if j < k then Gone(w0, j, maxN) else Queued(w0, j);
    }
  }

  /** Appending the new token to an exact queue, at the later clock reading. */
  lemma AppendToken(w: World, k: nat, b: Birth, t1: Time, maxN: nat) returns (w': World)
    requires Exact(w, k, maxN) && w.now <= t1
    requires (forall x | x in w.born :: x.tok != b.tok) && KeysBorn(w)
    ensures w' == World(Store(w.s.byTok[b.tok := b.entry], w.s.order + [b.tok]), w.born + [b], t1)
    ensures QueueUpTo(w', k, 1, maxN)
    ensures forall j | k <= j < |w'.born| :: w'.born[j].tok in w'.s.byTok
  {
    w' := World(Store(w.s.byTok[b.tok := b.entry], w.s.order + [b.tok]), w.born + [b], t1);
    forall j | 0 <= j < |w.born|
      ensures j < k ==> Gone(w', j, maxN)
      ensures j >= k ==> Queued(w', j)
    {
      assert w.born[j] in w.born;
      assert if j < k then Gone(w, j, maxN) else Queued(w, j);
    }
    assert Queued(w', |w.born|);
  }

  lemma CleanupMakesExact(w: World, k: nat, t0: Time, maxN: nat, ttl: nat) returns (k': nat)
    requires BirthsOk(w, ttl) && KeysBorn(w) && QueueFrom(w, k, maxN) && w.now <= t0
    ensures Exact(World(Cleaned(w.s, t0, maxN), w.born, t0), k', maxN)
    ensures KeysBorn(World(Cleaned(w.s, t0, maxN), w.born, t0))
  {
    LaterClock(w, k, maxN, t0);
    k' := DropExpiredExact(w.(now := t0), k, maxN);
    TrimWithin(DropExpired(w.s, t0), maxN);
    forall t | t in Cleaned(w.s, t0, maxN).byTok
      ensures exists i :: 0 <= i < |w.born| && w.born[i].tok == t
    {
      assert t in w.s.byTok;
    }
  }

  /** The new token's own trim evicts at most one creation, the oldest. */
  lemma TrimAppended(w: World, k: nat, maxN: nat) returns (k': nat)
    requires DistinctBirths(w.born) && QueueUpTo(w, k, 1, maxN)
    requires forall j | k <= j < |w.born| :: w.born[j].tok in w.s.byTok
    ensures Exact(w.(s := Trim(w.s, maxN)), k', maxN)
  {
    k' := k;
    if |w.s.order| > maxN {
      HeadDropped(w, k, maxN, 1);
      TrimWithin(DropHead(w.s), maxN);
      k' := k + 1;
    } else {
      TrimWithin(w.s, maxN);
    }
  }

  /** create ends with a queue that is exactly the live keys. */
  lemma CreateMakesExact(w: World, k: nat, c: Call, maxN: nat, ttl: nat) returns (k': nat)
    requires BirthsOk(w, ttl) && KeysBorn(w) && QueueFrom(w, k, maxN) && c.Create? && Proper(w, c)
    ensures Exact(After(w, c, maxN, ttl), k', maxN) && BirthsOk(After(w, c, maxN, ttl), ttl)
  {
    k' := CleanupMakesExact(w, k, c.t0, maxN, ttl);
    var b := Birth(c.tok, Entry(c.path, c.t1, c.t1 + ttl));
    var w2 := AppendToken(World(Cleaned(w.s, c.t0, maxN), w.born, c.t0), k', b, c.t1, maxN);
    BirthsStayOk(w, b, c.t1, ttl);
    k' := TrimAppended(w2, k', maxN);
    assert After(w, c, maxN, ttl) == w2.(s := Trim(w2.s, maxN));
  }

  lemma BirthsStayOk(w: World, b: Birth, t1: Time, ttl: nat)
    requires BirthsOk(w, ttl) && w.now <= t1 && b.entry.expiresAt == t1 + ttl
    requires forall x | x in w.born :: x.tok != b.tok
    ensures forall s :: BirthsOk(World(s, w.born + [b], t1), ttl)
  {
    assert forall i | 0 <= i < |w.born| :: w.born[i] in w.born;
  }

  // ---- What every history gives ----

  function AfterAll(calls: seq<Call>, maxN: nat, ttl: nat, start: Time): World {
    if |calls| == 0 then World(EMPTY, [], start)
    else After(AfterAll(calls[..|calls| - 1], maxN, ttl, start), calls[|calls| - 1], maxN, ttl)
  }

  ghost predicate ProperHistory(calls: seq<Call>, maxN: nat, ttl: nat, start: Time) {
    |calls| > 0 ==>
      && ProperHistory(calls[..|calls| - 1], maxN, ttl, start)
      && Proper(AfterAll(calls[..|calls| - 1], maxN, ttl, start), calls[|calls| - 1])
  }

  lemma {:induction false} HistoryKeepsQueue(calls: seq<Call>, maxN: nat, ttl: nat, start: Time) returns (k: nat)
    requires ProperHistory(calls, maxN, ttl, start)
    ensures var w := AfterAll(calls, maxN, ttl, start);
      && BirthsOk(w, ttl) && KeysBorn(w) && QueueFrom(w, k, maxN)
      && (calls != [] && calls[|calls| - 1].Create? ==> Exact(w, k, maxN))
  {
    k := 0;
    if |calls| > 0 {
      k := HistoryKeepsQueue(calls[..|calls| - 1], maxN, ttl, start);
      k := CallKeepsQueue(AfterAll(calls[..|calls| - 1], maxN, ttl, start), calls[|calls| - 1], k, maxN, ttl);
    }
  }

  lemma CallKeepsQueue(w: World, c: Call, k: nat, maxN: nat, ttl: nat) returns (k': nat)
    requires BirthsOk(w, ttl) && KeysBorn(w) && QueueFrom(w, k, maxN) && Proper(w, c)
    ensures var w' := After(w, c, maxN, ttl);
      BirthsOk(w', ttl) && KeysBorn(w') && QueueFrom(w', k', maxN) && (c.Create? ==> Exact(w', k', maxN))
  {
    k' := k;
    match c
    case Create(_, _, _, _) =>
      k' := CreateMakesExact(w, k, c, maxN, ttl);
      CreatedKeysBorn(w, c, maxN, ttl);
    case Get(tok, now) =>
      GetKeepsQueue(w, k, tok, now, maxN, ttl);
      forall t | t in After(w, c, maxN, ttl).s.byTok
        ensures exists i :: 0 <= i < |w.born| && w.born[i].tok == t
      {
        assert t in w.s.byTok;
      }
  }

  lemma {:induction false} TrimShrinks(s: Store, maxN: nat)
    ensures Trim(s, maxN).byTok.Keys <= s.byTok.Keys
    decreases |s.order|
  {
    if |s.order| > maxN {
      TrimShrinks(DropHead(s), maxN);
    }
  }

  lemma {:induction false} DropExpiredShrinks(s: Store, now: Time)
    ensures DropExpired(s, now).byTok.Keys <= s.byTok.Keys
    decreases |s.order|
  {
    if s.order != [] && Expired(s, s.order[0], now) {
      DropExpiredShrinks(DropHead(s), now);
    }
  }

  lemma CreatedKeysBorn(w: World, c: Call, maxN: nat, ttl: nat)
    requires KeysBorn(w) && c.Create?
    ensures KeysBorn(After(w, c, maxN, ttl))
  {
    DropExpiredShrinks(w.s, c.t0);
    TrimShrinks(DropExpired(w.s, c.t0), maxN);
    var cleaned := Cleaned(w.s, c.t0, maxN);
    TrimShrinks(Store(cleaned.byTok[c.tok := Entry(c.path, c.t1, c.t1 + ttl)], cleaned.order + [c.tok]), maxN);
    var w' := After(w, c, maxN, ttl);
    forall t | t in w'.s.byTok
      ensures exists i :: 0 <= i < |w'.born| && w'.born[i].tok == t
    {
      if t == c.tok {
        assert w'.born[|w.born|].tok == t;
      } else {
        assert t in w.s.byTok;
        var i :| 0 <= i < |w.born| && w.born[i].tok == t;
        assert w'.born[i].tok == t;
      }
    }
  }

  /** After every create the queue is exactly the live keys, without repeats,
      sorted by expiry and at most maxN long. */
  lemma QueueIsLiveKeys(calls: seq<Call>, maxN: nat, ttl: nat, start: Time)
    requires ProperHistory(calls, maxN, ttl, start) && calls != [] && calls[|calls| - 1].Create?
    ensures var s := AfterAll(calls, maxN, ttl, start).s;
      && (forall t :: t in s.byTok <==> t in s.order)
      && (forall i, j | 0 <= i < j < |s.order| :: s.order[i] != s.order[j])
      && (forall i, j | 0 <= i < j < |s.order| :: s.byTok[s.order[i]].expiresAt <= s.byTok[s.order[j]].expiresAt)
      && |s.order| <= maxN
  {
    var k := HistoryKeepsQueue(calls, maxN, ttl, start);
    var w := AfterAll(calls, maxN, ttl, start);
    forall i | 0 <= i < |w.s.order|
      ensures w.s.order[i] in w.s.byTok && w.s.byTok[w.s.order[i]] == w.born[k + i].entry
    {
      assert Queued(w, k + i);
    }
    forall t | t in w.s.byTok
      ensures t in w.s.order
    {
      var j :| 0 <= j < |w.born| && w.born[j].tok == t;
      assert j < k ==> Gone(w, j, maxN);
      assert w.s.order[j - k] == t;
    }
  }

  /** A token that has not expired is missing only if at least maxN tokens were
      created after it; one that is present is what was created. */
  lemma UnexpiredMissingOnlyByEviction(calls: seq<Call>, maxN: nat, ttl: nat, start: Time, j: nat)
    requires ProperHistory(calls, maxN, ttl, start)
    requires var w := AfterAll(calls, maxN, ttl, start); j < |w.born| && w.now < w.born[j].entry.expiresAt
    ensures var w := AfterAll(calls, maxN, ttl, start);
      if w.born[j].tok in w.s.byTok then w.s.byTok[w.born[j].tok] == w.born[j].entry
      else |w.born| - 1 - j >= maxN
  {
    var k := HistoryKeepsQueue(calls, maxN, ttl, start);
    var w := AfterAll(calls, maxN, ttl, start);
    assert if j < k then Gone(w, j, maxN) else Queued(w, j);
  }
}
