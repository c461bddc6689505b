/** The prompt-history tape: entries of many session files read page by page
    through a cursor, loading each file once. */
module PromptHistory {

  import opened Wrappers

  type Path = string
  type Entry = string

  /** A scan of one session file: its entries newest first, or a failure. */
  datatype Scan = Entries(entries: seq<Entry>) | Missing | Unreadable

  /** A decoded cursor; the codec is the identity here. */
  datatype Cursor = Cursor(nonce: string, session: int, offset: int)

  datatype Page = Page(entries: seq<Entry>, older: Option<Cursor>, hasOlder: bool)

  const PAGE_LIMIT := 50
  const MAX_PAGE_LIMIT := 200

  function PageLimit(limit: int): (n: nat)
    ensures 1 <= n <= MAX_PAGE_LIMIT
    ensures 1 <= limit <= MAX_PAGE_LIMIT ==> n == limit
    ensures limit <= 0 ==> n == 50
    ensures limit > MAX_PAGE_LIMIT ==> n == 200
  {
    if limit <= 0 then PAGE_LIMIT else if limit > MAX_PAGE_LIMIT then MAX_PAGE_LIMIT else limit
  }

  /** What a session contributes: a missing or unreadable file counts as empty. */
  function Content(disk: map<Path, Scan>, p: Path): seq<Entry> {
    if p in disk && disk[p].Entries? then disk[p].entries else []
  }

  /** The whole tape, every session's entries in tape order. */
  function Flat(disk: map<Path, Scan>, sessions: seq<Path>): seq<Entry> {
    if |sessions| == 0 then [] else Content(disk, sessions[0]) + Flat(disk, sessions[1..])
  }

  function Min(a: int, b: int): int {
    if a <= b then a else b
  }

  function Max(a: int, b: int): int {
    if a >= b then a else b
  }

  /** The flat position a session index and offset stand for. */
  function Position(disk: map<Path, Scan>, sessions: seq<Path>, session: nat, offset: nat): nat {
    if session >= |sessions| then |Flat(disk, sessions)|
    else |Flat(disk, sessions[..session])| + Min(offset, |Content(disk, sessions[session])|)
  }

  lemma {:induction false} FlatAppend(disk: map<Path, Scan>, a: seq<Path>, b: seq<Path>)
    ensures Flat(disk, a + b) == Flat(disk, a) + Flat(disk, b)
  {
    if |a| > 0 {
      assert (a + b)[1..] == a[1..] + b;
      FlatAppend(disk, a[1..], b);
    } else {
      assert a + b == b;
    }
  }

  /** Session s of the tape occupies its own slice of the flat tape. */
  lemma SessionSlice(disk: map<Path, Scan>, sessions: seq<Path>, s: nat)
    requires s < |sessions|
    ensures var lo := |Flat(disk, sessions[..s])|;
            var content := Content(disk, sessions[s]);
      && |Flat(disk, sessions[..s + 1])| == lo + |content|
      && lo + |content| <= |Flat(disk, sessions)|
      && Flat(disk, sessions)[lo..lo + |content|] == content
  {
    var one := [sessions[s]];
    assert one[1..] == [];
    assert Flat(disk, one) == Content(disk, sessions[s]);
    assert sessions[..s + 1] == sessions[..s] + one;
    FlatAppend(disk, sessions[..s], one);
    assert sessions == sessions[..s + 1] + sessions[s + 1..];
    FlatAppend(disk, sessions[..s + 1], sessions[s + 1..]);
  }

  lemma SliceOfSlice<T>(s: seq<T>, a: nat, b: nat, c: nat, d: nat)
    requires a <= b <= |s| && c <= d <= b - a
    ensures s[a..b][c..d] == s[a + c..a + d]
  {
    var x, y := s[a..b][c..d], s[a + c..a + d];
    assert |x| == |y|;
    forall i | 0 <= i < |x|
      ensures x[i] == y[i]
    {
      assert s[a..b][c + i] == s[a + (c + i)];
    }
  }

  lemma JoinSlices<T>(s: seq<T>, a: nat, b: nat, c: nat)
    requires a <= b <= c <= |s|
    ensures s[a..c] == s[a..b] + s[b..c]
  {
  }

  /** A slice that ends inside `content`'s place, extended by part of it. */
  lemma TakeSlice<T>(s: seq<T>, start: nat, lo: nat, content: seq<T>, offset: nat, end: nat)
    requires offset <= end <= |content| && start <= lo + offset && lo + |content| <= |s|
    requires s[lo..lo + |content|] == content
    ensures s[start..lo + end] == s[start..lo + offset] + content[offset..end]
  {
    SliceOfSlice(s, lo, lo + |content|, offset, end);
    JoinSlices(s, start, lo + offset, lo + end);
  }

  /** Skipping an exhausted session does not move the position. */
  lemma NextSession(disk: map<Path, Scan>, sessions: seq<Path>, s: nat, offset: nat)
    requires s < |sessions| && offset >= |Content(disk, sessions[s])|
    ensures Position(disk, sessions, s + 1, 0) == Position(disk, sessions, s, offset)
  {
    SessionSlice(disk, sessions, s);
    if s + 1 == |sessions| {
      assert sessions[..s + 1] == sessions;
    }
  }

  class PromptHistoryTape {
    const nonce: string
    const sessions: seq<Path>
    var loaded: map<Path, seq<Entry>>

    /** The session files, read while the tape lives. */
    ghost const disk: map<Path, Scan>

    /** Cached entries agree with a fresh load. */
    ghost predicate Valid()
      reads this
    {
      forall p | p in loaded :: loaded[p] == Content(disk, p)
    }

    constructor (nonce: string, sessions: seq<Path>, ghost disk: map<Path, Scan>)
      ensures Valid() && loaded == map[]
      ensures this.nonce == nonce && this.sessions == sessions && this.disk == disk
    {
      this.nonce := nonce;
      this.sessions := sessions;
      this.disk := disk;
      this.loaded := map[];
    }

    /** The file has yet to be read, and reading it fails. */
    predicate Unread(index: nat, scan: Scan)
      requires index < |sessions|
      reads this`loaded
    {
      sessions[index] !in loaded && scan.Unreadable?
    }

    /** Both failures are cached as empty; an unreadable file is also reported,
        once. `scan` is what reading the file gives if it has to be read. */
    method EntriesForSession(index: nat, scan: Scan) returns (entries: seq<Entry>, failed: bool)
      requires Valid() && index < |sessions|
      requires scan == if sessions[index] in disk then disk[sessions[index]] else Missing
      modifies this`loaded
      ensures Valid() && sessions[index] in loaded
      ensures entries == Content(disk, sessions[index])
      ensures failed == old(Unread(index, scan)) && (failed ==> entries == [])
      ensures failed ==> entries == []
    {
      var path := sessions[index];
      if path in loaded {
        return loaded[path], false;
      }
      match scan {
        case Entries(es) =>
          loaded := loaded[path := es];
          return es, false;
        case Missing =>
          loaded := loaded[path := []];
          return [], false;
        case Unreadable =>
          loaded := loaded[path := []];
          return [], true;
      }
    }

    /** Where a request starts: the decoded cursor if it is this tape's, with
        negative parts raised to zero, otherwise the beginning. */
    function From(c: Option<Cursor>): (int, int) {
      if c.None? || c.value.nonce != nonce then (0, 0)
      else (if c.value.session < 0 then 0 else c.value.session, if c.value.offset < 0 then 0 else c.value.offset)
    }

    ghost function Start(c: Option<Cursor>): nat {
      Position(disk, sessions, From(c).0, From(c).1)
    }

    /** A cursor of another tape starts at the newest entry, and negative parts of
        this tape's count as zero. */
    lemma StartIs(c: Option<Cursor>)
      ensures c.None? || c.value.nonce != nonce ==> Start(c) == 0
      ensures c.Some? && c.value.nonce == nonce ==>
                Start(c) == Position(disk, sessions, Max(c.value.session, 0), Max(c.value.offset, 0))
    {
      assert sessions[..0] == [];
    }

    ghost function All(): seq<Entry> {
      Flat(disk, sessions)
    }

    /** A page read from flat position `start` is the next `limit` entries of the
        tape, and its cursor the position after them; without an older cursor
        the tape is exhausted. */
    ghost predicate PageFrom(page: Page, start: nat, limit: nat) {
      && start <= |All()| && page.entries == All()[start..Min(start + limit, |All()|)]
      && (page.older.Some? ==>
            page.older.value.nonce == nonce && Start(page.older) == start + |page.entries| && |page.entries| == limit)
      && (page.older.None? ==> start + |page.entries| == |All()|)
    }

    /** Reads the page at a cursor. */
    method ReadOlder(c: Option<Cursor>, limit: nat, fs: map<Path, Scan>) returns (page: Page)
      requires Valid() && fs == disk
      modifies this`loaded
      ensures Valid()
      ensures PageFrom(page, Start(c), limit)
      ensures page.hasOlder <==> page.older.Some?
    {
      var session, offset := From(c).0, From(c).1;
      var out: seq<Entry> := [];
      ghost var start := Start(c);
      StartReading(start, session, offset);
      while session < |sessions| && |out| < limit
        invariant Valid() && 0 <= session && 0 <= offset
        invariant ReadUpTo(out, start, session, offset) && |out| <= limit
        decreases |sessions| - session, limit - |out|
      {
        var path := sessions[session];
        var entries, failed := EntriesForSession(session, if path in fs then fs[path] else Missing);
        if failed || offset >= |entries| {
          SkipSession(out, start, session, offset);
          session, offset := session + 1, 0;
        } else {
          var end := Min(|entries|, offset + limit - |out|);
          TakeFromSession(out, start, session, offset, end);
          out := out + entries[offset..end];
          offset := end;
          if offset >= |entries| && |out| < limit {
            SkipSession(out, start, session, offset);
            session, offset := session + 1, 0;
          }
        }
      }
      if session < |sessions| && sessions[session] in loaded && offset >= |loaded[sessions[session]]| {
        SkipSession(out, start, session, offset);
        session, offset := session + 1, 0;
      }
      var older := if session < |sessions| then Some(Cursor(nonce, session, offset)) else None;
      page := Page(out, older, session < |sessions|);
      StopReading(out, start, session, offset, limit, page);
    }

    /** `out` is the tape from `start` up to this session and offset. */
    ghost predicate ReadUpTo(out: seq<Entry>, start: nat, session: nat, offset: nat) {
      start + |out| == Position(disk, sessions, session, offset) <= |All()| && out == All()[start..start + |out|]
    }

    lemma StartReading(start: nat, session: nat, offset: nat)
      requires start == Position(disk, sessions, session, offset)
      ensures ReadUpTo([], start, session, offset)
    {
      if session < |sessions| {
        SessionSlice(disk, sessions, session);
      }
    }

    lemma SkipSession(out: seq<Entry>, start: nat, session: nat, offset: nat)
      requires ReadUpTo(out, start, session, offset)
      requires session < |sessions| && offset >= |Content(disk, sessions[session])|
      ensures ReadUpTo(out, start, session + 1, 0)
    {
      NextSession(disk, sessions, session, offset);
    }

    lemma TakeFromSession(out: seq<Entry>, start: nat, session: nat, offset: nat, end: nat)
      requires ReadUpTo(out, start, session, offset)
      requires session < |sessions| && offset <= end <= |Content(disk, sessions[session])|
      ensures ReadUpTo(out + Content(disk, sessions[session])[offset..end], start, session, end)
    {
      SessionSlice(disk, sessions, session);
      TakeSlice(All(), start, |Flat(disk, sessions[..session])|, Content(disk, sessions[session]), offset, end);
    }

    lemma StopReading(out: seq<Entry>, start: nat, session: nat, offset: nat, limit: nat, page: Page)
      requires ReadUpTo(out, start, session, offset) && |out| <= limit
      requires session < |sessions| ==> |out| == limit
      requires page.entries == out
      requires page.older == if session < |sessions| then Some(Cursor(nonce, session, offset)) else None
      ensures PageFrom(page, start, limit)
    {
    }

    lemma NextPage(out: seq<Entry>, at: nat, page: Page, limit: nat)
      requires at <= |All()| && out == All()[..at] && PageFrom(page, at, limit)
      ensures at + |page.entries| <= |All()| && out + page.entries == All()[..at + |page.entries|]
      ensures page.older.None? ==> out + page.entries == All()
    {
      JoinSlices(All(), 0, at, at + |page.entries|);
    }

    /** readAll terminates and is the concatenation of every session, whatever
        the page limit (the source pages by MAX_PAGE_LIMIT). */
    method ReadAll(limit: nat, fs: map<Path, Scan>) returns (out: seq<Entry>)
      requires Valid() && fs == disk && limit > 0
      modifies this`loaded
      ensures Valid() && out == All()
    {
      out := [];
      var cursor: Option<Cursor> := None;
      ghost var at: nat := 0;
      assert Start(None) == 0 by {
        assert sessions[..0] == [];
      }
      while true
        invariant Valid() && Start(cursor) == at <= |All()| && out == All()[..at]
        decreases |All()| - at
      {
        var page := ReadOlder(cursor, limit, fs);
        NextPage(out, at, page, limit);
        out := out + page.entries;
        at := at + |page.entries|;
        if !page.hasOlder || page.older.None? {
          return;
        }
        cursor := page.older;
      }
    }
  }
}
