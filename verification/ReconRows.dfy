/** The whole table after any run of scans and marks, row by row, told from the events alone. */
module ReconRows {
  import opened Wrappers
  import opened ReconIndex
  import opened ReconScan
  import opened ReconRuns

  /** What a walk found at a path. */
  function FoundAt(cs: seq<Candidate>, p: Path): Option<Candidate> {
    if cs == [] then None
    else if cs[|cs| - 1].path == p then Some(cs[|cs| - 1])
    else FoundAt(cs[..|cs| - 1], p)
  }

  /** What a scan that committed found at a path. */
  function ScannedAt(e: Event, p: Path): Option<Candidate> {
    if e.Scanned? then FoundAt(e.cs, p) else None
  }

  /** The path as the latest scan that found it found it. */
  function LastFound(es: seq<Event>, p: Path): Option<Candidate> {
    if es == [] then None
    else
      var (front, last) := (es[..|es| - 1], es[|es| - 1]);
      if ScannedAt(last, p).Some? then ScannedAt(last, p) else LastFound(front, p)
  }

  /** The mark, if the event is one of a path in the table. */
  function MarkOf(front: seq<Event>, last: Event, p: Path): Mark {
    if last.Marking? && last.path == p && LastFound(front, p).Some? then last.mark else Mark(None, None, None)
  }

  /** The level of the latest mark that gave one. */
  function LevelGiven(es: seq<Event>, p: Path): Option<Level> {
    if es == [] then None
    else
      var (front, last) := (es[..|es| - 1], es[|es| - 1]);
      if MarkOf(front, last, p).level.Some? then MarkOf(front, last, p).level else LevelGiven(front, p)
  }

  /** The parent of the latest mark that gave one, unless it was a path not in the table. */
  function ParentGiven(es: seq<Event>, p: Path): Option<Option<Path>> {
    if es == [] then None
    else
      var (front, last) := (es[..|es| - 1], es[|es| - 1]);
      var parent := MarkOf(front, last, p).parent;
      if parent.Some? && (parent.value.None? || LastFound(front, parent.value.value).Some?) then parent
      else ParentGiven(front, p)
  }

  /** The content hash on record: that of the file as last found, except that a quick scan keeps the one
      on record for a file whose size and time are as they were. */
  function HashNow(es: seq<Event>, p: Path): Option<Digest> {
    if es == [] then None
    else
      var (front, last) := (es[..|es| - 1], es[|es| - 1]);
      match ScannedAt(last, p)
      case None => HashNow(front, p)
      case Some(c) =>
        if c.kind == Directory then None
        else if SameStamp(front, p, c) && !last.rehash && HashNow(front, p).Some? then HashNow(front, p)
        else Some(c.digest)
  }

  predicate SameStamp(front: seq<Event>, p: Path, c: Candidate) {
    var was := LastFound(front, p);
    was.Some? && was.value.size == c.size && was.value.mtime == c.mtime
  }

  /** The last event found the path again, with another kind, hash or size; the time does not count. */
  predicate Differs(es: seq<Event>, p: Path)
    requires es != []
  {
    var (front, last) := (es[..|es| - 1], es[|es| - 1]);
    var was, now := LastFound(front, p), ScannedAt(last, p);
    was.Some? && now.Some? &&
    (was.value.kind != now.value.kind || HashNow(front, p) != HashNow(es, p) || was.value.size != now.value.size)
  }

  /** The latest status given; a verified artifact that is found to differ goes back into review. */
  function StatusNow(es: seq<Event>, p: Path): Review {
    if es == [] then Unreviewed
    else
      var (front, last) := (es[..|es| - 1], es[|es| - 1]);
      var given := MarkOf(front, last, p).status;
      if given.Some? then given.value
      else if StatusNow(front, p) == Verified && Differs(es, p) then InReview
      else StatusNow(front, p)
  }

  /** The run of the first scan that found the path. */
  function FirstRun(es: seq<Event>, p: Path): nat {
    if es == [] then 0
    else
      var (front, last) := (es[..|es| - 1], es[|es| - 1]);
      if LastFound(front, p).None? && ScannedAt(last, p).Some? then last.run else FirstRun(front, p)
  }

  /** The run of the latest scan that found it. */
  function LastRun(es: seq<Event>, p: Path): nat {
    if es == [] then 0
    else
      var (front, last) := (es[..|es| - 1], es[|es| - 1]);
      if ScannedAt(last, p).Some? then last.run else LastRun(front, p)
  }

  /** The first scan since then that did not find it. */
  function MissedBy(es: seq<Event>, p: Path): Option<nat> {
    if es == [] then None
    else
      var (front, last) := (es[..|es| - 1], es[|es| - 1]);
      if !last.Scanned? then MissedBy(front, p)
      else if ScannedAt(last, p).Some? || LastFound(front, p).None? then None
      else if MissedBy(front, p).Some? then MissedBy(front, p)
      else Some(last.run)
  }

  /** The row of a path found as c. */
  ghost predicate RowAs(es: seq<Event>, p: Path, c: Candidate, a: Artifact) {
    && a.facts == Facts(c.kind, HashNow(es, p), c.size, c.mtime)
    && a.level == (if LevelGiven(es, p).Some? then Tag(LevelGiven(es, p).value, Manual) else Tag(c.level, Auto))
    && a.parent == (if ParentGiven(es, p).Some? then Tag(ParentGiven(es, p).value, Manual) else Tag(c.parent, Auto))
    && a.review == StatusNow(es, p)
    && a.seen.first == FirstRun(es, p) && a.seen.last == LastRun(es, p)
    && a.missing == MissedBy(es, p).Some? && a.seen.missingSince == MissedBy(es, p)
  }

  ghost predicate RowIs(es: seq<Event>, p: Path) {
    match LastFound(es, p)
    case None => Lookup(Play(EMPTY, es).db, p) == None
    case Some(c) => Lookup(Play(EMPTY, es).db, p).Some? && RowAs(es, p, c, Lookup(Play(EMPTY, es).db, p).value)
  }

  // ---- One event ----

  lemma {:induction false} FoundAtIs(cs: seq<Candidate>, p: Path)
    ensures FoundAt(cs, p).Some? <==> Found(cs, p)
    ensures FoundAt(cs, p).Some? ==> exists i :: 0 <= i < |cs| && cs[i].path == p && FoundAt(cs, p) == Some(cs[i])
  {
    if cs != [] {
      var front := cs[..|cs| - 1];
      FoundAtIs(front, p);
      if Found(front, p) {
        var i :| 0 <= i < |front| && front[i].path == p && FoundAt(front, p) == Some(front[i]);
        assert cs[i].path == p && cs[i] == front[i];
      } else if i :| 0 <= i < |cs| && cs[i].path == p {
        assert i == |cs| - 1 || front[i].path == p;
      }
    }
  }

  /** The row a scan leaves of a path. */
  lemma ScanRowIs(h: History, cs: seq<Candidate>, run: nat, rehash: bool, p: Path)
    requires Inv(h) && CanHappen(h, Scanned(cs, run, rehash))
    ensures Lookup(Scan(h.db, cs, run, rehash), p) ==
      match FoundAt(cs, p)
      case Some(c) => Some(RowAfter(Lookup(h.db, p), c, run, rehash))
      case None => RowUnfound(Lookup(h.db, p), run)
  {
    hide TableOk, Scan, RowAfter, LastChangedOk, ParentsPresent;
    FoundAtIs(cs, p);
    ScanRows(h.db, cs, run, rehash, p);
  }

  lemma FoundRow(front: seq<Event>, e: Event, p: Path, c: Candidate)
    requires e.Scanned? && ScannedAt(e, p) == Some(c) && RowIs(front, p)
    ensures RowAs(front + [e], p, c, RowAfter(Lookup(Play(EMPTY, front).db, p), c, e.run, e.rehash))
  {
    assert (front + [e])[..|front|] == front;
    if LastFound(front, p).None? {
      NeverFound(front, p);
    }
  }

  /** Nothing is on record of a path that was never found. */
  lemma {:induction false} NeverFound(es: seq<Event>, p: Path)
    requires LastFound(es, p).None?
    ensures LevelGiven(es, p).None? && ParentGiven(es, p).None? && StatusNow(es, p) == Unreviewed
    ensures HashNow(es, p).None? && MissedBy(es, p).None?
  {
    if es != [] {
      NeverFound(es[..|es| - 1], p);
    }
  }

  lemma UnfoundRow(front: seq<Event>, e: Event, p: Path)
    requires e.Scanned? && ScannedAt(e, p).None? && RowIs(front, p)
    ensures var row := RowUnfound(Lookup(Play(EMPTY, front).db, p), e.run);
      match LastFound(front + [e], p)
      case None => row == None
      case Some(c) => row.Some? && RowAs(front + [e], p, c, row.value)
  {
    assert (front + [e])[..|front|] == front;
  }

  /** What a mark writes into the row it is for. */
  function MarkedAs(db: Db, a: Artifact, m: Mark): Artifact {
    a.(review := if m.status.Some? then m.status.value else a.review,
       level := if m.level.Some? then Tag(m.level.value, Manual) else a.level,
       parent := if m.parent.Some? && (m.parent.value.None? || m.parent.value.value in db.artifacts)
                 then Tag(m.parent.value, Manual) else a.parent)
  }

  lemma MarkOnRow(db: Db, path: Path, m: Mark, p: Path)
    ensures Lookup(Marked(db, path, m), p) ==
      if p == path && p in db.artifacts then Some(MarkedAs(db, db.artifacts[p], m)) else Lookup(db, p)
  {
  }

  lemma MarkedRow(front: seq<Event>, e: Event, p: Path)
    requires e.Marking? && RowIs(front, p)
    requires e.mark.parent.Some? && e.mark.parent.value.Some? ==> RowIs(front, e.mark.parent.value.value)
    ensures RowIs(front + [e], p)
  {
    hide Marked;
    assert (front + [e])[..|front|] == front;
    var db := Play(EMPTY, front).db;
    MarkOnRow(db, e.path, e.mark, p);
    if e.mark.parent.Some? && e.mark.parent.value.Some? {
      var parent := e.mark.parent.value.value;
      assert parent in db.artifacts <==> LastFound(front, parent).Some?;
    }
    assert Play(EMPTY, front + [e]).db == Marked(db, e.path, e.mark);
  }

  /** Every row is what the events say: present once found; facts as last found; level and parent as last
      given by hand, else as last found; the status as last given, back in review once a verified artifact
      differed; the runs that first and last found it; and missing since the first scan that missed it. */
  lemma {:induction false} RowsExactly(es: seq<Event>, p: Path)
    requires Playable(EMPTY, es)
    ensures RowIs(es, p)
    decreases |es|
  {
    if es != [] {
      hide RowIs, RowAs, Inv, CanHappen, RowAfter;
      var (front, last) := (es[..|es| - 1], es[|es| - 1]);
      assert es == front + [last];
      RowsExactly(front, p);
      PlayKeepsInv(EMPTY, front);
      match last
      case Scanned(cs, run, rehash) =>
        ScanRowIs(Play(EMPTY, front), cs, run, rehash, p);
        if ScannedAt(last, p).Some? {
          FoundRow(front, last, p, ScannedAt(last, p).value);
        } else {
          UnfoundRow(front, last, p);
        }
        RowFrom(es, p);
      case ScanFailed(_) => FailedRow(front, last, p);
      case Marking(_, m) =>
        if m.parent.Some? && m.parent.value.Some? {
          RowsExactly(front, m.parent.value.value);
        }
        MarkedRow(front, last, p);
    }
  }

  lemma RowFrom(es: seq<Event>, p: Path)
    requires match LastFound(es, p)
      case None => Lookup(Play(EMPTY, es).db, p) == None
      case Some(c) => Lookup(Play(EMPTY, es).db, p).Some? && RowAs(es, p, c, Lookup(Play(EMPTY, es).db, p).value)
    ensures RowIs(es, p)
  {
  }

  lemma FailedRow(front: seq<Event>, e: Event, p: Path)
    requires e.ScanFailed? && RowIs(front, p)
    ensures RowIs(front + [e], p)
  {
    assert (front + [e])[..|front|] == front;
  }

  // ---- What a mark is good for ----

  /** The mark at i is of a path in the table. */
  predicate Marks(es: seq<Event>, i: nat, p: Path) {
    i < |es| && es[i].Marking? && es[i].path == p && LastFound(es[..i], p).Some?
  }

  lemma FrontOf(es: seq<Event>, i: nat)
    requires i < |es|
    ensures es[..|es| - 1][..i] == es[..i]
    ensures i < |es| - 1 ==> es[..|es| - 1][i] == es[i]
  {
  }

  lemma {:induction false} LevelGivenAt(es: seq<Event>, i: nat, p: Path)
    requires Marks(es, i, p) && es[i].mark.level.Some?
    requires forall j :: i < j < |es| && es[j].Marking? && es[j].path == p ==> es[j].mark.level.None?
    ensures LevelGiven(es, p) == es[i].mark.level
    decreases |es|
  {
    FrontOf(es, i);
    if i < |es| - 1 {
      LevelGivenAt(es[..|es| - 1], i, p);
    }
  }

  /** A level given by hand stays, whatever scans find and whatever else is marked, until another is given. */
  lemma MarkedLevelStays(es: seq<Event>, i: nat, p: Path)
    requires Playable(EMPTY, es) && Marks(es, i, p) && es[i].mark.level.Some?
    requires forall j :: i < j < |es| && es[j].Marking? && es[j].path == p ==> es[j].mark.level.None?
    ensures var db := Play(EMPTY, es).db; p in db.artifacts && db.artifacts[p].level.value == es[i].mark.level.value
  {
    LevelGivenAt(es, i, p);
    RowsExactly(es, p);
    MarkedIsFound(es, i, p);
  }

  lemma {:induction false} MarkedIsFound(es: seq<Event>, i: nat, p: Path)
    requires i <= |es| && LastFound(es[..i], p).Some?
    ensures LastFound(es, p).Some?
    decreases |es|
  {
    if i < |es| {
      FrontOf(es, i);
      MarkedIsFound(es[..|es| - 1], i, p);
    } else {
      assert es[..i] == es;
    }
  }

  lemma {:induction false} ParentGivenAt(es: seq<Event>, i: nat, p: Path)
    requires Marks(es, i, p) && es[i].mark.parent.Some?
    requires es[i].mark.parent.value.Some? ==> LastFound(es[..i], es[i].mark.parent.value.value).Some?
    requires forall j :: i < j < |es| && es[j].Marking? && es[j].path == p ==> es[j].mark.parent.None?
    ensures ParentGiven(es, p) == es[i].mark.parent
    decreases |es|
  {
    FrontOf(es, i);
    if i < |es| - 1 {
      ParentGivenAt(es[..|es| - 1], i, p);
    }
  }

  /** So does a parent, given while it was in the table itself. */
  lemma MarkedParentStays(es: seq<Event>, i: nat, p: Path)
    requires Playable(EMPTY, es) && Marks(es, i, p) && es[i].mark.parent.Some?
    requires es[i].mark.parent.value.Some? ==> LastFound(es[..i], es[i].mark.parent.value.value).Some?
    requires forall j :: i < j < |es| && es[j].Marking? && es[j].path == p ==> es[j].mark.parent.None?
    ensures var db := Play(EMPTY, es).db; p in db.artifacts && db.artifacts[p].parent.value == es[i].mark.parent.value
  {
    ParentGivenAt(es, i, p);
    RowsExactly(es, p);
    MarkedIsFound(es, i, p);
  }

  /** The event at k found the path to differ. */
  predicate DiffersAt(es: seq<Event>, k: int, p: Path) { 0 <= k < |es| && Differs(es[..k + 1], p) }

  /** Some event after the mark did. */
  ghost predicate DifferedSince(es: seq<Event>, i: nat, p: Path) {
    exists k :: i < k < |es| && DiffersAt(es, k, p)
  }

  lemma {:induction false} StatusGivenAt(es: seq<Event>, i: nat, p: Path)
    requires Marks(es, i, p) && es[i].mark.status.Some?
    requires forall j :: i < j < |es| && es[j].Marking? && es[j].path == p ==> es[j].mark.status.None?
    ensures StatusNow(es, p) ==
      if es[i].mark.status.value == Verified && DifferedSince(es, i, p) then InReview else es[i].mark.status.value
    decreases |es|
  {
    FrontOf(es, i);
    var n := |es| - 1;
    if i < n {
      hide Differs;
      StatusGivenAt(es[..n], i, p);
      DifferedOneMore(es, i, p);
    }
  }

  lemma DifferedOneMore(es: seq<Event>, i: nat, p: Path)
    requires i < |es| - 1
    ensures DifferedSince(es, i, p) <==> DifferedSince(es[..|es| - 1], i, p) || Differs(es, p)
  {
    hide Differs;
    var n := |es| - 1;
    assert es[..n + 1] == es && DiffersAt(es, n, p) == Differs(es, p);
    forall k | i < k < n ensures DiffersAt(es[..n], k, p) == DiffersAt(es, k, p) {
      assert es[..n][..k + 1] == es[..k + 1];
    }
  }

  /** A status stays as given until another is given; only verified ends before, in review, as soon as a scan
      finds the artifact to differ. */
  lemma MarkedStatusStays(es: seq<Event>, i: nat, p: Path)
    requires Playable(EMPTY, es) && Marks(es, i, p) && es[i].mark.status.Some?
    requires forall j :: i < j < |es| && es[j].Marking? && es[j].path == p ==> es[j].mark.status.None?
    ensures var db := Play(EMPTY, es).db; var given := es[i].mark.status.value;
      p in db.artifacts &&
      db.artifacts[p].review == if given == Verified && DifferedSince(es, i, p) then InReview else given
  {
    StatusGivenAt(es, i, p);
    RowsExactly(es, p);
    MarkedIsFound(es, i, p);
  }
}
