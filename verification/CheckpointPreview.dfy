/** CheckpointsForTab's backward pass: for every turn, a bounded sorted preview
    of the files a code restore from that turn would touch, their number, and
    whether the restore is possible. */
module CheckpointPreview {
  import opened StringOrder

  type Path = string

  const PREVIEW_LIMIT := 60

  /** p is the sorted list of the `limit` smallest members of s. */
  ghost predicate IsPreview(p: seq<Path>, s: set<Path>, limit: nat) {
    && Sorted(p) && ToSet(p) <= s
    && (|p| < limit ==> ToSet(p) == s)
    && |p| <= limit
    && (forall x, i | x in s && x !in p && 0 <= i < |p| :: Less(p[i], x))
  }

  /** A preview is determined by the set and the limit. */
  lemma PreviewUnique(p: seq<Path>, q: seq<Path>, s: set<Path>, limit: nat)
    requires IsPreview(p, s, limit) && IsPreview(q, s, limit)
    ensures p == q
  {
    SortedSize(p);
    SortedSize(q);
    if !(ToSet(p) <= ToSet(q)) {
      var x :| x in p && x !in q;
      SubsetFull(p, q, s, x);
    }
    if !(ToSet(q) <= ToSet(p)) {
      var x :| x in q && x !in p;
      SubsetFull(q, p, s, x);
    }
    SortedUnique(p, q);
  }

  /** If x is in p but not q, everything in q is below x, so also in p; but then
      p is larger than the limit q already reaches. */
  lemma SubsetFull(p: seq<Path>, q: seq<Path>, s: set<Path>, x: Path)
    requires Sorted(p) && Sorted(q) && ToSet(p) <= s && ToSet(q) <= s
    requires forall y, i | y in s && y !in q && 0 <= i < |q| :: Less(q[i], y)
    requires forall y, i | y in s && y !in p && 0 <= i < |p| :: Less(p[i], y)
    requires x in p && x !in q
    ensures |p| > |q|
  {
    assert x in ToSet(p);
    forall y | y in ToSet(q)
      ensures y in ToSet(p)
    {
      var i :| 0 <= i < |q| && q[i] == y;
      assert Less(y, x);
      if y !in p {
        var j :| 0 <= j < |p| && p[j] == x;
        assert y in ToSet(q) && Less(p[j], y);
        Asymmetric(x, y);
      }
    }
    SortedSize(p);
    SortedSize(q);
    assert ToSet(q) < ToSet(p);
    ProperSubsetSize(ToSet(q), ToSet(p));
  }

  lemma ProperSubsetSize(a: set<Path>, b: set<Path>)
    requires a < b
    ensures |a| < |b|
  {
    var x :| x in b && x !in a;
    SubsetSize(a, b - {x});
  }

  lemma {:induction false} SubsetSize(a: set<Path>, b: set<Path>)
    requires a <= b
    ensures |a| <= |b|
  {
    if a != {} {
      var x :| x in a;
      SubsetSize(a - {x}, b - {x});
    }
  }

  /** sort.SearchStrings: the least index whose element is not below path. */
  method SearchStrings(buf: array<Path>, n: nat, path: Path) returns (idx: nat)
    requires n <= buf.Length && Sorted(buf[..n])
    ensures idx <= n
    ensures forall k | 0 <= k < idx :: Less(buf[k], path)
    ensures forall k | idx <= k < n :: !Less(buf[k], path)
  {
    idx := 0;
    var hi := n;
    while idx < hi
      invariant idx <= hi <= n
      invariant forall k | 0 <= k < idx :: Less(buf[k], path)
      invariant forall k | hi <= k < n :: !Less(buf[k], path)
    {
      var mid := (idx + hi) / 2;
      if Less(buf[mid], path) {
        BelowMid(buf[..n], mid, path);
        idx := mid + 1;
      } else {
        AboveMid(buf[..n], mid, path);
        hi := mid;
      }
    }
  }

  lemma BelowMid(s: seq<Path>, mid: nat, path: Path)
    requires Sorted(s) && mid < |s| && Less(s[mid], path)
    ensures forall k | 0 <= k <= mid :: Less(s[k], path)
  {
    forall k | 0 <= k < mid
      ensures Less(s[k], path)
    {
      Transitive(s[k], s[mid], path);
    }
  }

  lemma AboveMid(s: seq<Path>, mid: nat, path: Path)
    requires Sorted(s) && mid < |s| && !Less(s[mid], path)
    ensures forall k | mid <= k < |s| :: !Less(s[k], path)
  {
    forall k | mid < k < |s|
      ensures !Less(s[k], path)
    {
      if Less(s[k], path) {
        Transitive(s[mid], s[k], path);
      }
    }
  }

  /** What the insert leaves in the buffer: path put at idx, the tail shifted
      right, and the last element dropped when the preview was full. */
  function InsertAt(p: seq<Path>, idx: nat, path: Path, limit: nat): seq<Path>
    requires idx <= |p| <= limit
  {
    if |p| < limit then p[..idx] + [path] + p[idx..]
    else if idx >= limit then p
    else p[..idx] + [path] + p[idx..limit - 1]
  }

  /** copy(buf[idx+1:], buf[idx:last]); the ranges overlap. */
  method ShiftRight(buf: array<Path>, idx: nat, last: nat)
    requires idx <= last < buf.Length
    modifies buf
    ensures buf[..idx] == old(buf[..idx])
    ensures buf[idx + 1..last + 1] == old(buf[idx..last])
  {
    ghost var was := buf[..];
    var k := last;
    while k > idx
      invariant idx <= k <= last
      invariant forall i | 0 <= i <= k :: buf[i] == was[i]
      invariant forall i | k < i <= last :: buf[i] == was[i - 1]
    {
      buf[k] := buf[k - 1];
      k := k - 1;
    }
  }

  /** What one insert promises: nothing for a path it must not add, otherwise
      path at its sorted place. */
  ghost predicate InsertedSorted(p: seq<Path>, q: seq<Path>, path: Path, limit: nat)
    requires |p| <= limit
  {
    if limit == 0 || path == "" || path in p then q == p
    else exists idx: nat | idx <= |p| ::
      && q == InsertAt(p, idx, path, limit)
      && (forall k | 0 <= k < idx :: Less(p[k], path))
      && (forall k | idx <= k < |p| :: Less(path, p[k]))
  }

  /** insertCheckpointFilePreview over its backing array. */
  method InsertFilePreview(buf: array<Path>, n: nat, path: Path, limit: nat) returns (n': nat)
    requires n <= limit <= buf.Length && Sorted(buf[..n])
    modifies buf
    ensures n <= n' <= limit
    ensures InsertedSorted(old(buf[..n]), buf[..n'], path, limit)
  {
    ghost var p := buf[..n];
    if limit == 0 || path == "" {
      return n;
    }
    var idx := SearchStrings(buf, n, path);
    if idx < n && buf[idx] == path {
      assert path == p[idx];
      return n;
    }
    NotAmong(p, idx, path);
    if n == limit && idx >= limit {
      assert p == InsertAt(p, idx, path, limit);
      return n;
    }
    var last := if n < limit then n else limit - 1;
    ShiftRight(buf, idx, last);
    assert old(buf[idx..last]) == p[idx..last];
    buf[idx] := path;
    n' := last + 1;
    assert buf[..idx] == p[..idx] && buf[idx + 1..n'] == p[idx..last];
    Reassembled(buf[..n'], p, idx, path, limit);
  }

  lemma Reassembled(q: seq<Path>, p: seq<Path>, idx: nat, path: Path, limit: nat)
    requires idx <= |p| <= limit && idx < limit
    requires var last := if |p| < limit then |p| else limit - 1;
      |q| == last + 1 && q[..idx] == p[..idx] && q[idx] == path && q[idx + 1..] == p[idx..last]
    ensures q == InsertAt(p, idx, path, limit)
  {
    assert q == q[..idx] + [q[idx]] + q[idx + 1..];
  }

  lemma NotAmong(p: seq<Path>, idx: nat, path: Path)
    requires idx <= |p| && Sorted(p)
    requires forall k | 0 <= k < idx :: Less(p[k], path)
    requires forall k | idx <= k < |p| :: !Less(p[k], path)
    requires idx < |p| ==> p[idx] != path
    ensures path !in p && forall k | idx <= k < |p| :: Less(path, p[k])
  {
    Irreflexive(path);
    forall k | idx <= k < |p|
      ensures Less(path, p[k]) && p[k] != path
    {
      Total(path, p[idx]);
      if k > idx {
        Transitive(path, p[idx], p[k]);
      }
      Asymmetric(path, p[k]);
    }
  }

  /** Inserting one more member keeps the preview exact. */
  lemma InsertKeepsPreview(p: seq<Path>, s: set<Path>, idx: nat, path: Path, limit: nat)
    requires IsPreview(p, s, limit) && limit > 0 && path !in p && idx <= |p|
    requires forall k | 0 <= k < idx :: Less(p[k], path)
    requires forall k | idx <= k < |p| :: Less(path, p[k])
    requires path !in s
    ensures IsPreview(InsertAt(p, idx, path, limit), s + {path}, limit)
  {
    var q := InsertAt(p, idx, path, limit);
    if idx < limit {
      InsertSorted(p, idx, path, limit);
      if |p| < limit {
        assert p == p[..idx] + p[idx..];
        assert ToSet(q) == s + {path};
      } else {
        forall x, i | x in s + {path} && x !in q && 0 <= i < |q|
          ensures Less(q[i], x)
        {
          Dropped(p, s, idx, path, limit, x, i);
        }
      }
    } else {
      assert forall i | 0 <= i < |q| :: Less(q[i], path);
    }
  }

  lemma InsertSorted(p: seq<Path>, idx: nat, path: Path, limit: nat)
    requires Sorted(p) && idx <= |p| <= limit && idx < limit
    requires forall k | 0 <= k < idx :: Less(p[k], path)
    requires forall k | idx <= k < |p| :: Less(path, p[k])
    ensures Sorted(InsertAt(p, idx, path, limit))
    ensures forall x | x in InsertAt(p, idx, path, limit) :: x in p || x == path
  {
  }

  lemma Kept(p: seq<Path>, idx: nat, path: Path, limit: nat, k: nat)
    requires idx < limit == |p| && k < limit - 1
    ensures p[k] in InsertAt(p, idx, path, limit)
  {
    assert InsertAt(p, idx, path, limit)[if k < idx then k else k + 1] == p[k];
  }

  /** Whatever the full preview drops lies above everything it keeps. */
  lemma Dropped(p: seq<Path>, s: set<Path>, idx: nat, path: Path, limit: nat, x: Path, i: nat)
    requires IsPreview(p, s, limit) && path !in p && idx < limit == |p|
    requires forall k | 0 <= k < idx :: Less(p[k], path)
    requires forall k | idx <= k < |p| :: Less(path, p[k])
    requires var q := InsertAt(p, idx, path, limit); x in s && x !in q && x != path && i < |q|
    ensures Less(InsertAt(p, idx, path, limit)[i], x)
  {
    var q := InsertAt(p, idx, path, limit);
    assert q[idx] == path;
    var last := p[limit - 1];
    if x in p {
      var k :| 0 <= k < limit && p[k] == x;
      if k < limit - 1 {
        Kept(p, idx, path, limit, k);
      }
    } else if i == idx {
      Transitive(path, last, x);
    }
  }

  // ---- The backward pass ----

  /** One checkpoint as the controller reports it. */
  datatype Meta = Meta(paths: seq<Path>, canUndoFiles: bool)

  datatype Row = Row(files: seq<Path>, canUndoFiles: bool, fileCount: nat, filesTruncated: bool, canCode: bool)

  /** Every path touched at or after turn i. */
  function Touched(metas: seq<Meta>, i: nat): set<Path>
    requires i <= |metas|
    decreases |metas| - i
  {
    if i == |metas| then {} else Touched(metas, i + 1) + ToSet(metas[i].paths)
  }

  ghost predicate HasCode(metas: seq<Meta>, i: nat) {
    exists j | i <= j < |metas| :: metas[j].paths != []
  }

  ghost predicate AllUndoable(metas: seq<Meta>, i: nat) {
    forall j | i <= j < |metas| && metas[j].paths != [] :: metas[j].canUndoFiles
  }

  /** Restoring code from turn i changes something, and every turn it undoes
      can be undone. */
  ghost predicate CanRestore(metas: seq<Meta>, i: nat) {
    HasCode(metas, i) && AllUndoable(metas, i)
  }

  /** The pass's two flags over the turns from i on. */
  ghost predicate Flags(metas: seq<Meta>, i: nat, hasCode: bool, canCode: bool) {
    hasCode == HasCode(metas, i) && canCode == AllUndoable(metas, i)
  }

  lemma FlagsStep(metas: seq<Meta>, i: nat, hasCode: bool, canCode: bool)
    requires i < |metas| && Flags(metas, i + 1, hasCode, canCode)
    ensures Flags(metas, i, metas[i].paths != [] || hasCode, (metas[i].paths == [] || metas[i].canUndoFiles) && canCode)
  {
  }

  ghost predicate RowOk(r: Row, metas: seq<Meta>, i: nat)
    requires i < |metas|
  {
    && IsPreview(r.files, Touched(metas, i) - {""}, PREVIEW_LIMIT)
    && r.fileCount == |Touched(metas, i)|
    && (r.filesTruncated <==> r.fileCount > |r.files|)
    && (r.canCode <==> CanRestore(metas, i))
  }

  ghost predicate RowDone(r: Row, metas: seq<Meta>, i: nat)
    requires i < |metas|
  {
    RowOk(r, metas, i) && r.canUndoFiles == metas[i].canUndoFiles
  }

  /** Adding a path not seen before extends the preview to the larger set; the
      empty path is counted but never shown. */
  lemma AddPath(p: seq<Path>, q: seq<Path>, seen: set<Path>, f: Path, limit: nat)
    requires limit > 0 && f !in seen
    requires IsPreview(p, seen - {""}, limit) && InsertedSorted(p, q, f, limit)
    ensures IsPreview(q, seen + {f} - {""}, limit)
  {
    assert f in p ==> f in ToSet(p);
    if f == "" {
      assert seen + {f} - {""} == seen - {""};
    } else {
      var idx: nat :| idx <= |p| && q == InsertAt(p, idx, f, limit)
        && (forall k | 0 <= k < idx :: Less(p[k], f)) && (forall k | idx <= k < |p| :: Less(f, p[k]));
      InsertKeepsPreview(p, seen - {""}, idx, f, limit);
      assert seen + {f} - {""} == seen - {""} + {f};
    }
  }

  /** The inner loop over one turn's files. */
  method AddTurnFiles(buf: array<Path>, n: nat, seen: set<Path>, files: seq<Path>)
    returns (n': nat, seen': set<Path>)
    requires n <= PREVIEW_LIMIT == buf.Length && IsPreview(buf[..n], seen - {""}, PREVIEW_LIMIT)
    modifies buf
    ensures n' <= PREVIEW_LIMIT && seen' == seen + ToSet(files)
    ensures IsPreview(buf[..n'], seen' - {""}, PREVIEW_LIMIT)
  {
    n', seen' := n, seen;
    for k := 0 to |files|
      invariant n' <= PREVIEW_LIMIT && seen' == seen + ToSet(files[..k])
      invariant IsPreview(buf[..n'], seen' - {""}, PREVIEW_LIMIT)
    {
      var f := files[k];
      assert files[..k + 1] == files[..k] + [f];
      if f !in seen' {
        ghost var p := buf[..n'];
        n' := InsertFilePreview(buf, n', f, PREVIEW_LIMIT);
        AddPath(p, buf[..n'], seen', f, PREVIEW_LIMIT);
        seen' := seen' + {f};
      }
    }
    assert files[..|files|] == files;
  }

  /** Midway: rows from i on are done, earlier ones still hold their turn's own
      files. */
  ghost predicate Midway(out: seq<Row>, metas: seq<Meta>, i: nat) {
    && |out| == |metas| && i <= |metas|
    && (forall k | 0 <= k < i :: out[k].files == metas[k].paths && out[k].canUndoFiles == metas[k].canUndoFiles)
    && (forall k | i <= k < |metas| :: RowDone(out[k], metas, k))
  }

  /** What the pass has collected from turn i on. */
  ghost predicate Shows(metas: seq<Meta>, i: nat, shown: seq<Path>, seen: set<Path>) {
    i <= |metas| && seen == Touched(metas, i) && IsPreview(shown, seen - {""}, PREVIEW_LIMIT)
  }

  lemma ShowsStep(metas: seq<Meta>, i: nat, seen: set<Path>, shown: seq<Path>, seen': set<Path>)
    requires i < |metas| && seen == Touched(metas, i + 1) && seen' == seen + ToSet(metas[i].paths)
    requires IsPreview(shown, seen' - {""}, PREVIEW_LIMIT)
    ensures Shows(metas, i, shown, seen')
  {
  }

  lemma RowIsDone(metas: seq<Meta>, i: nat, row: Row, seen: set<Path>, n: nat, hasCode: bool, canCode: bool)
    requires i < |metas| && |row.files| == n && Flags(metas, i, hasCode, canCode)
    requires row == Row(row.files, metas[i].canUndoFiles, |seen|, |seen| > n, hasCode && canCode)
    requires Shows(metas, i, row.files, seen)
    ensures RowDone(row, metas, i)
  {
  }

  lemma WriteRow(out: seq<Row>, metas: seq<Meta>, i: nat, row: Row)
    requires i < |metas| && Midway(out, metas, i + 1) && RowDone(row, metas, i)
    ensures Midway(out[i := row], metas, i)
  {
  }

  /** The rows before the pass: each turn with its own files. */
  method FreshRows(metas: seq<Meta>) returns (out: array<Row>)
    ensures fresh(out) && Midway(out[..], metas, |metas|)
  {
    out := new Row[|metas|](i requires 0 <= i < |metas| => Row(metas[i].paths, metas[i].canUndoFiles, 0, false, false));
  }

  /** One step of the pass: turn i joins the preview and its row is written. */
  method PassTurn(metas: seq<Meta>, out: array<Row>, i: nat, buf: array<Path>, n: nat, seen: set<Path>,
                  hasCode: bool, canCode: bool)
    returns (n': nat, seen': set<Path>, hasCode': bool, canCode': bool)
    requires i < |metas| && Midway(out[..], metas, i + 1) && Flags(metas, i + 1, hasCode, canCode)
    requires n <= PREVIEW_LIMIT == buf.Length && Shows(metas, i + 1, buf[..n], seen)
    modifies out, buf
    ensures Midway(out[..], metas, i) && Flags(metas, i, hasCode', canCode')
    ensures n' <= PREVIEW_LIMIT && Shows(metas, i, buf[..n'], seen')
  {
    FlagsStep(metas, i, hasCode, canCode);
    ghost var rows := out[..];
    assert rows[i].files == metas[i].paths && rows[i].canUndoFiles == metas[i].canUndoFiles;
    var files, canUndo := out[i].files, out[i].canUndoFiles;
    hasCode', canCode' := hasCode, canCode;
    if |files| > 0 {
      hasCode' := true;
      if !canUndo {
        canCode' := false;
      }
    }
    n', seen' := AddTurnFiles(buf, n, seen, files);
    ShowsStep(metas, i, seen, buf[..n'], seen');
    var row := Row(buf[..n'], canUndo, |seen'|, |seen'| > n', hasCode' && canCode');
    RowIsDone(metas, i, row, seen', n', hasCode', canCode');
    WriteRow(rows, metas, i, row);
    out[i] := row;
    assert out[..] == rows[i := row];
  }

  /** After the backward pass every row shows the files of its own suffix of
      turns; the buffer's later inserts reach no row already written, because
      each row copies it. */
  method CheckpointRows(metas: seq<Meta>) returns (out: array<Row>)
    ensures out.Length == |metas|
    ensures forall i | 0 <= i < |metas| :: RowDone(out[i], metas, i)
  {
    out := FreshRows(metas);
    var buf := new Path[PREVIEW_LIMIT];
    var n: nat, seen, hasCodeAfter, canCodeAfter := 0, {}, false, true;
    var i: nat := |metas|;
    while i > 0
      invariant 0 <= i <= |metas| && n <= PREVIEW_LIMIT
      invariant Shows(metas, i, buf[..n], seen)
      invariant Flags(metas, i, hasCodeAfter, canCodeAfter)
      invariant Midway(out[..], metas, i)
    {
      i := i - 1;
      n, seen, hasCodeAfter, canCodeAfter := PassTurn(metas, out, i, buf, n, seen, hasCodeAfter, canCodeAfter);
    }
  }

  // ---- What the counts mean ----

  /** A set with and without one element. */
  lemma SizeWithout(s: set<Path>, x: Path)
    ensures |s| == |s - {x}| + if x in s then 1 else 0
  {
    if x in s {
      assert s == s - {x} + {x};
    } else {
      assert s == s - {x};
    }
  }

  /** A preview is as long as the set allows. */
  lemma PreviewSize(p: seq<Path>, s: set<Path>, limit: nat)
    requires IsPreview(p, s, limit)
    ensures |p| == if |s| < limit then |s| else limit
  {
    SortedSize(p);
    SubsetSize(ToSet(p), s);
  }

  /** A row's count is the number of files it could show exactly when no turn
      from it on touched the empty path; and it reports more files than it
      shows exactly when there are more than the limit, or one is empty. */
  lemma CountsWithEmptyPath(r: Row, metas: seq<Meta>, i: nat)
    requires i < |metas| && RowOk(r, metas, i)
    ensures r.fileCount == |Touched(metas, i) - {""}| <==> "" !in Touched(metas, i)
    ensures r.filesTruncated <==> |Touched(metas, i) - {""}| > PREVIEW_LIMIT || "" in Touched(metas, i)
  {
    SizeWithout(Touched(metas, i), "");
    PreviewSize(r.files, Touched(metas, i) - {""}, PREVIEW_LIMIT);
  }

  /** One turn that touched the empty path only: one file counted, none shown,
      and the list reported as cut. */
  lemma EmptyPathIsCounted(r: Row, undoable: bool)
    requires RowOk(r, [Meta([""], undoable)], 0)
    ensures r.files == [] && r.fileCount == 1 && r.filesTruncated
  {
    var metas := [Meta([""], undoable)];
    assert Touched(metas, 0) == {""} by {
      assert Touched(metas, 1) == {};
      assert ToSet([""]) == {""};
    }
    PreviewSize(r.files, {}, PREVIEW_LIMIT);
    CountsWithEmptyPath(r, metas, 0);
  }
}
