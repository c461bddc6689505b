/** History pages over raw messages: windows of visible user turns, walked from
    the newest backwards, and the checkpoint turns remapped to a window. */
module HistoryPages {

  import opened Wrappers

  /** A provider message, and whether it opens a visible user turn. */
  datatype Message = Message(opensTurn: bool, body: string)

  const DEFAULT_PAGE_TURNS := 60
  const MAX_PAGE_TURNS := 200

  /** normalizeHistoryPageLimit */
  function PageLimit(limit: int): (n: nat)
    ensures 1 <= n <= MAX_PAGE_TURNS
    ensures 1 <= limit <= MAX_PAGE_TURNS ==> n == limit
    ensures limit <= 0 ==> n == 60
    ensures limit > MAX_PAGE_TURNS ==> n == 200
  {
    if limit <= 0 then DEFAULT_PAGE_TURNS else if limit > MAX_PAGE_TURNS then MAX_PAGE_TURNS else limit
  }

  function Turns(msgs: seq<Message>): nat {
    if |msgs| == 0 then 0 else Turns(msgs[..|msgs| - 1]) + if msgs[|msgs| - 1].opensTurn then 1 else 0
  }

  /** The turn message i belongs to, -1 before the first one. */
  function TurnOf(msgs: seq<Message>, i: nat): int
    requires i < |msgs|
  {
    Turns(msgs[..i + 1]) - 1
  }

  /** Whether a window of turns [lo, hi) shows message i; what precedes the
      first turn goes with the oldest window. */
  predicate InWindow(msgs: seq<Message>, lo: int, hi: int, i: nat)
    requires i < |msgs|
  {
    var t := TurnOf(msgs, i);
    if t < 0 then lo == 0 else lo <= t < hi
  }

  /** The indexes of the first n messages that a window shows, in order. */
  function Indexes(msgs: seq<Message>, lo: int, hi: int, n: nat): seq<nat>
    requires n <= |msgs|
  {
    if n == 0 then []
    else Indexes(msgs, lo, hi, n - 1) + if InWindow(msgs, lo, hi, n - 1) then [n - 1] else []
  }

  function Window(msgs: seq<Message>, lo: int, hi: int): seq<nat> {
    Indexes(msgs, lo, hi, |msgs|)
  }

  lemma {:induction false} IndexesAscend(msgs: seq<Message>, lo: int, hi: int, n: nat)
    requires n <= |msgs|
    ensures var ix := Indexes(msgs, lo, hi, n);
      && (forall k | 0 <= k < |ix| :: ix[k] < n && InWindow(msgs, lo, hi, ix[k]))
      && (forall j, k | 0 <= j < k < |ix| :: ix[j] < ix[k])
      && (forall i: nat | i < n && InWindow(msgs, lo, hi, i) :: i in ix)
  {
    if n > 0 {
      IndexesAscend(msgs, lo, hi, n - 1);
    }
  }

  datatype Page = Page(startTurn: nat, endTurn: nat, totalTurns: nat, hasOlder: bool, indexes: seq<nat>)

  /** historyPageFromProviderMessages, before rendering. */
  function PageOf(msgs: seq<Message>, beforeTurn: int, limit: int): Page {
    var total := Turns(msgs);
    var before := if beforeTurn <= 0 || beforeTurn > total then total else beforeTurn;
    var start := if before - PageLimit(limit) > 0 then before - PageLimit(limit) else 0;
    Page(start, before, total, start > 0, if |msgs| == 0 || start >= before then [] else Window(msgs, start, before))
  }

  method VisibleUserTurns(msgs: seq<Message>) returns (total: nat)
    ensures total == Turns(msgs)
  {
    total := 0;
    for i := 0 to |msgs|
      invariant total == Turns(msgs[..i])
    {
      assert msgs[..i + 1][..i] == msgs[..i];
      if msgs[i].opensTurn {
        total := total + 1;
      }
    }
    assert msgs[..|msgs|] == msgs;
  }

  method MessagesForTurnRange(msgs: seq<Message>, startTurn: int, endTurn: int)
    returns (out: seq<Message>, indexes: seq<nat>)
    ensures indexes == Window(msgs, startTurn, endTurn)
    ensures |out| == |indexes| && forall k | 0 <= k < |indexes| :: indexes[k] < |msgs| && out[k] == msgs[indexes[k]]
  {
    out, indexes := [], [];
    var turn := -1;
    for i := 0 to |msgs|
      invariant turn == Turns(msgs[..i]) - 1
      invariant indexes == Indexes(msgs, startTurn, endTurn, i)
      invariant |out| == |indexes| && forall k | 0 <= k < |indexes| :: indexes[k] < |msgs| && out[k] == msgs[indexes[k]]
    {
      assert msgs[..i + 1][..i] == msgs[..i];
      if msgs[i].opensTurn {
        turn := turn + 1;
      }
      if turn < 0 {
        if startTurn == 0 {
          out, indexes := out + [msgs[i]], indexes + [i];
        }
        continue;
      }
      if turn >= startTurn && turn < endTurn {
        out, indexes := out + [msgs[i]], indexes + [i];
      }
    }
  }

  /** The page's messages are those its window selects, each once, in order. */
  method HistoryPage(msgs: seq<Message>, beforeTurn: int, limit: int) returns (page: Page, out: seq<Message>)
    ensures page == PageOf(msgs, beforeTurn, limit)
    ensures |out| == |page.indexes|
    ensures forall k | 0 <= k < |out| :: page.indexes[k] < |msgs| && out[k] == msgs[page.indexes[k]]
  {
    var n := PageLimit(limit);
    var total := VisibleUserTurns(msgs);
    var before := beforeTurn;
    if before <= 0 || before > total {
      before := total;
    }
    var start := if before - n > 0 then before - n else 0;
    if |msgs| == 0 || start >= before {
      return Page(start, before, total, start > 0, []), [];
    }
    var indexes;
    out, indexes := MessagesForTurnRange(msgs, start, before);
    page := Page(start, before, total, start > 0, indexes);
  }

  // ---- Tiling ----

  lemma {:induction false} TurnsMonotone(msgs: seq<Message>, i: nat, j: nat)
    requires i <= j <= |msgs|
    ensures Turns(msgs[..i]) <= Turns(msgs[..j])
    decreases j
  {
    if i < j {
      TurnsMonotone(msgs, i, j - 1);
      assert msgs[..j][..j - 1] == msgs[..j - 1];
    }
  }

  /** Two adjacent windows, older first, make one. */
  lemma {:induction false} WindowsJoin(msgs: seq<Message>, lo: nat, mid: nat, hi: nat, n: nat)
    requires lo < mid < hi && n <= |msgs|
    ensures Indexes(msgs, lo, hi, n) == Indexes(msgs, lo, mid, n) + Indexes(msgs, mid, hi, n)
  {
    if n > 0 {
      var i := n - 1;
      WindowsJoin(msgs, lo, mid, hi, i);
      assert InWindow(msgs, lo, hi, i) <==> InWindow(msgs, lo, mid, i) || InWindow(msgs, mid, hi, i);
      if InWindow(msgs, lo, mid, i) {
        NothingLater(msgs, mid, hi, n);
        assert Indexes(msgs, mid, hi, i) == [];
      }
    }
  }

  /** Before a window's first turn is reached, it shows nothing. */
  lemma {:induction false} NothingLater(msgs: seq<Message>, mid: nat, hi: nat, n: nat)
    requires 0 < n <= |msgs| && mid > 0 && TurnOf(msgs, n - 1) < mid
    ensures Indexes(msgs, mid, hi, n) == []
  {
    if n > 1 {
      TurnsMonotone(msgs, n - 1, n);
      NothingLater(msgs, mid, hi, n - 1);
    }
  }

  /** The window of every turn is the whole list. */
  lemma {:induction false} WholeWindow(msgs: seq<Message>, n: nat)
    requires n <= |msgs|
    ensures Indexes(msgs, 0, Turns(msgs), n) == seq(n, i requires 0 <= i < n => i)
  {
    if n > 0 {
      WholeWindow(msgs, n - 1);
      TurnsMonotone(msgs, n, |msgs|);
      assert msgs[..|msgs|] == msgs;
    }
  }

  /** The pages met when walking back from beforeTurn, oldest first. */
  function Walk(msgs: seq<Message>, beforeTurn: nat, limit: int): seq<Page>
    requires 0 < beforeTurn <= Turns(msgs)
    decreases beforeTurn
  {
    var page := PageOf(msgs, beforeTurn, limit);
    (if page.hasOlder then Walk(msgs, page.startTurn, limit) else []) + [page]
  }

  function Concat(pages: seq<Page>): seq<nat> {
    if |pages| == 0 then [] else Concat(pages[..|pages| - 1]) + pages[|pages| - 1].indexes
  }

  lemma {:induction false} WalkCovers(msgs: seq<Message>, beforeTurn: nat, limit: int)
    requires 0 < beforeTurn <= Turns(msgs)
    ensures Concat(Walk(msgs, beforeTurn, limit)) == Window(msgs, 0, beforeTurn)
    decreases beforeTurn
  {
    var page := PageOf(msgs, beforeTurn, limit);
    var older := if page.hasOlder then Walk(msgs, page.startTurn, limit) else [];
    assert Walk(msgs, beforeTurn, limit)[..|older|] == older;
    if page.hasOlder {
      WalkCovers(msgs, page.startTurn, limit);
      WindowsJoin(msgs, 0, page.startTurn, beforeTurn, |msgs|);
    }
  }

  /** With a visible user turn, walking beforeTurn := StartTurn until HasOlder is
      false gives windows that concatenate, oldest first, to the whole list. */
  lemma PagesTileTranscript(msgs: seq<Message>, limit: int)
    requires Turns(msgs) > 0
    ensures Concat(Walk(msgs, Turns(msgs), limit)) == seq(|msgs|, i requires 0 <= i < |msgs| => i)
    ensures Walk(msgs, Turns(msgs), limit)[|Walk(msgs, Turns(msgs), limit)| - 1] == PageOf(msgs, 0, limit)
  {
    WalkCovers(msgs, Turns(msgs), limit);
    WholeWindow(msgs, |msgs|);
  }

  /** The tiling needs its condition: without a visible user turn, and only
      then, the first page shows nothing and offers nothing older, whatever
      messages there are. */
  lemma NoTurnShowsNothing(msgs: seq<Message>, limit: int)
    ensures PageOf(msgs, 0, limit).indexes == [] && !PageOf(msgs, 0, limit).hasOlder <==> Turns(msgs) == 0
  {
    if Turns(msgs) > 0 && !PageOf(msgs, 0, limit).hasOlder {
      WholeWindow(msgs, |msgs|);
    }
  }

  /** Turns are counted by the messages that open one. */
  lemma {:induction false} TurnsAre(msgs: seq<Message>)
    ensures Turns(msgs) == |set i: nat | i < |msgs| && msgs[i].opensTurn|
  {
    var opening := set i: nat | i < |msgs| && msgs[i].opensTurn;
    if |msgs| > 0 {
      var last := |msgs| - 1;
      TurnsAre(msgs[..last]);
      var before := set i: nat | i < last && msgs[..last][i].opensTurn;
      assert opening == before + if msgs[last].opensTurn then {last} else {};
    }
  }

  /** A page ends where it was asked to, or at the newest turn, and covers as many
      turns as its limit allows. No page shows a message twice. */
  lemma PageIndexesAscend(msgs: seq<Message>, beforeTurn: int, limit: int)
    ensures var p := PageOf(msgs, beforeTurn, limit);
      && p.totalTurns == Turns(msgs)
      && p.endTurn == (if 0 < beforeTurn <= p.totalTurns then beforeTurn else p.totalTurns)
      && p.endTurn - p.startTurn == (if p.endTurn < PageLimit(limit) then p.endTurn else PageLimit(limit))
      && (p.hasOlder <==> p.startTurn > 0)
    ensures var ix := PageOf(msgs, beforeTurn, limit).indexes;
      (forall k | 0 <= k < |ix| :: ix[k] < |msgs|) && (forall j, k | 0 <= j < k < |ix| :: ix[j] < ix[k])
  {
    var page := PageOf(msgs, beforeTurn, limit);
    if page.indexes != [] {
      IndexesAscend(msgs, page.startTurn, page.endTurn, |msgs|);
      assert page.indexes == Indexes(msgs, page.startTurn, page.endTurn, |msgs|);
    }
  }

  /** A page with a turn shows exactly the messages of its turns, and the oldest one
      also what precedes the first. */
  lemma PageShows(msgs: seq<Message>, beforeTurn: int, limit: int, i: nat)
    requires i < |msgs| && Turns(msgs) > 0
    ensures var p := PageOf(msgs, beforeTurn, limit);
      i in p.indexes <==> if TurnOf(msgs, i) < 0 then !p.hasOlder else p.startTurn <= TurnOf(msgs, i) < p.endTurn
  {
    var p := PageOf(msgs, beforeTurn, limit);
    var ix := Window(msgs, p.startTurn, p.endTurn);
    IndexesAscend(msgs, p.startTurn, p.endTurn, |msgs|);
    assert p.indexes == ix;
    if i in ix {
      var k :| 0 <= k < |ix| && ix[k] == i;
    }
  }

  /** checkpointTurnsForProviderWindow: a page position carries the turn its
      original message has, and no other position carries one. */
  method CheckpointTurnsForWindow(turns: map<nat, int>, indexes: seq<nat>) returns (out: map<nat, int>)
    ensures forall k | 0 <= k < |indexes| :: k in out <==> indexes[k] in turns
    ensures forall k | k in out :: k < |indexes| && indexes[k] in turns && out[k] == turns[indexes[k]]
  {
    out := map[];
    if |turns| == 0 || |indexes| == 0 {
      return;
    }
    for k := 0 to |indexes|
      invariant forall j | 0 <= j < k :: j in out <==> indexes[j] in turns
      invariant forall j | j in out :: j < k && indexes[j] in turns && out[j] == turns[indexes[j]]
    {
      if indexes[k] in turns {
        out := out[k := turns[indexes[k]]];
      }
    }
  }
}
