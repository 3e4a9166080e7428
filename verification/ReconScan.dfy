/** What one scan does, path by path; when the quick scan is as good as a full one; rescanning. */
module ReconScan {
  import opened Wrappers
  import opened ReconIndex

  ghost predicate DistinctPaths(cs: seq<Candidate>) {
    forall i, j :: 0 <= i < j < |cs| ==> cs[i].path != cs[j].path
  }

  ghost predicate Found(cs: seq<Candidate>, p: Path) { exists i :: 0 <= i < |cs| && cs[i].path == p }

  /** The rows of the table are its paths, once each. */
  ghost predicate TableOk(db: Db) {
    && (forall p :: p in db.artifacts <==> p in db.rows)
    && (forall i, j :: 0 <= i < j < |db.rows| ==> db.rows[i] != db.rows[j])
  }

  ghost predicate NewRun(db: Db, run: nat) {
    forall p <- db.artifacts :: db.artifacts[p].seen.last != run
  }

  /** The row a candidate leaves behind. */
  function RowAfter(stored: Option<Artifact>, c: Candidate, run: nat, rehash: bool): Artifact {
    var hash := HashOf(stored, c, rehash);
    match stored
    case None => NewArtifact(c, hash, run)
    case Some(a) => Updated(a, c, hash, run)
  }

  // ---- Visiting the candidates ----

  lemma VisitKeepsTable(db: Db, c: Candidate, run: nat, rehash: bool)
    requires TableOk(db)
    ensures TableOk(Visit(db, c, run, rehash))
    ensures var after := Visit(db, c, run, rehash);
      forall p :: Lookup(after, p) ==
        if p == c.path then Some(RowAfter(Lookup(db, p), c, run, rehash)) else Lookup(db, p)
  {
    hide HashOf, Updated, NewArtifact, Changed;
  }

  lemma {:induction false} VisitAllRows(db: Db, cs: seq<Candidate>, run: nat, rehash: bool)
    requires TableOk(db) && DistinctPaths(cs)
    ensures TableOk(VisitAll(db, cs, run, rehash))
    ensures forall p :: !Found(cs, p) ==> Lookup(VisitAll(db, cs, run, rehash), p) == Lookup(db, p)
    ensures forall i :: 0 <= i < |cs| ==>
      Lookup(VisitAll(db, cs, run, rehash), cs[i].path) == Some(RowAfter(Lookup(db, cs[i].path), cs[i], run, rehash))
  {
    hide TableOk, Visit, RowAfter, Lookup;
    if cs != [] {
      var n := |cs| - 1;
      var front := cs[..n];
      VisitAllRows(db, front, run, rehash);
      VisitKeepsTable(VisitAll(db, front, run, rehash), cs[n], run, rehash);
      forall p | Found(front, p) || p == cs[n].path ensures Found(cs, p) {
        var i := if p == cs[n].path then n else var j :| 0 <= j < |front| && front[j].path == p; j;
        assert cs[i].path == p;
      }
      assert !Found(front, cs[n].path);
      forall i | 0 <= i < |cs|
        ensures Lookup(VisitAll(db, cs, run, rehash), cs[i].path) ==
                Some(RowAfter(Lookup(db, cs[i].path), cs[i], run, rehash))
      {
        assert i < n ==> front[i] == cs[i] && cs[i].path != cs[n].path;
      }
    }
  }

  // ---- The sweep ----

  function SweptRow(db: Db, rows: seq<Path>, run: nat, p: Path): Option<Artifact> {
    if p in rows && p in db.artifacts && Unseen(db.artifacts[p], run) then Some(Lost(db.artifacts[p], run))
    else Lookup(db, p)
  }

  lemma {:induction false} SweepRows(db: Db, rows: seq<Path>, run: nat)
    requires forall p <- rows :: p in db.artifacts
    ensures Sweep(db, rows, run).rows == db.rows
    ensures forall p :: Lookup(Sweep(db, rows, run), p) == SweptRow(db, rows, run, p)
  {
    hide Unseen, Lost;
    if rows != [] {
      var n := |rows| - 1;
      SweepRows(db, rows[..n], run);
      forall p ensures Lookup(Sweep(db, rows, run), p) == SweptRow(db, rows, run, p) {
        assert p in rows <==> p in rows[..n] || p == rows[n];
        assert Lookup(Sweep(db, rows[..n], run), p) == SweptRow(db, rows[..n], run, p);
      }
    }
  }

  // ---- A whole scan ----

  function RowUnfound(stored: Option<Artifact>, run: nat): Option<Artifact> {
    match stored
    case None => None
    case Some(a) => Some(if a.missing then a else Lost(a, run))
  }

  /** A candidate's row is written as its visit says; any other row is at most marked missing. */
  lemma ScanRows(db: Db, cs: seq<Candidate>, run: nat, rehash: bool, p: Path)
    requires TableOk(db) && DistinctPaths(cs) && NewRun(db, run)
    ensures TableOk(Scan(db, cs, run, rehash))
    ensures forall i :: 0 <= i < |cs| && cs[i].path == p ==>
      Lookup(Scan(db, cs, run, rehash), p) == Some(RowAfter(Lookup(db, p), cs[i], run, rehash))
    ensures !Found(cs, p) ==> Lookup(Scan(db, cs, run, rehash), p) == RowUnfound(Lookup(db, p), run)
  {
    hide VisitAll, HashOf, Changed, Sweep, Lost;
    var visited := VisitAll(db, cs, run, rehash);
    VisitAllRows(db, cs, run, rehash);
    SweepRows(visited, visited.rows, run);
    SameKeys(visited, Scan(db, cs, run, rehash));
  }

  lemma SameKeys(a: Db, b: Db)
    requires TableOk(a) && a.rows == b.rows
    requires forall p :: Lookup(b, p).Some? <==> Lookup(a, p).Some?
    ensures TableOk(b)
  {
    forall p ensures p in b.artifacts <==> p in a.artifacts {
      assert Lookup(b, p).Some? <==> Lookup(a, p).Some?;
    }
  }

  // ---- The quick scan ----

  /** No file hides a change behind an unchanged size and time. */
  ghost predicate Trustworthy(db: Db, cs: seq<Candidate>) {
    forall i :: 0 <= i < |cs| ==> TrustworthyAt(db, cs[i])
  }

  ghost predicate TrustworthyAt(db: Db, c: Candidate) {
    c.kind == File && c.path in db.artifacts && MetadataMatches(db.artifacts[c.path], c) ==>
      db.artifacts[c.path].facts.hash == Some(c.digest)
  }

  lemma QuickVisit(db: Db, c: Candidate, run: nat)
    requires TrustworthyAt(db, c)
    ensures Visit(db, c, run, false) == Visit(db, c, run, true)
  {
    assert HashOf(Lookup(db, c.path), c, false) == HashOf(Lookup(db, c.path), c, true);
  }

  lemma {:induction false} QuickVisits(db: Db, cs: seq<Candidate>, run: nat)
    requires TableOk(db) && DistinctPaths(cs) && Trustworthy(db, cs)
    ensures VisitAll(db, cs, run, false) == VisitAll(db, cs, run, true)
  {
    if cs != [] {
      var n := |cs| - 1;
      var front := cs[..n];
      assert Trustworthy(db, front) by {
        forall i | 0 <= i < |front| ensures TrustworthyAt(db, front[i]) { assert front[i] == cs[i]; }
      }
      QuickVisits(db, front, run);
      VisitAllRows(db, front, run, true);
      hide TableOk, RowAfter, Visit, MetadataMatches;
      assert !Found(front, cs[n].path);
      assert Lookup(VisitAll(db, front, run, true), cs[n].path) == Lookup(db, cs[n].path);
      assert TrustworthyAt(db, cs[n]);
      QuickVisit(VisitAll(db, front, run, true), cs[n], run);
    }
  }

  /** A quick scan leaves the same table and the same log as a full rehash exactly when every file whose
      size and time match its row still has the content that row was hashed from. */
  lemma QuickEqualsRehashExactly(db: Db, cs: seq<Candidate>, run: nat)
    requires TableOk(db) && DistinctPaths(cs) && NewRun(db, run)
    ensures Scan(db, cs, run, false) == Scan(db, cs, run, true) <==> Trustworthy(db, cs)
  {
    if Trustworthy(db, cs) {
      QuickVisits(db, cs, run);
    } else {
      hide Scan, TableOk, NewRun;
      var i :| 0 <= i < |cs| && !TrustworthyAt(db, cs[i]);
      ScanRows(db, cs, run, false, cs[i].path);
      ScanRows(db, cs, run, true, cs[i].path);
    }
  }

  // ---- Scanning the same tree again ----

  /** Every file's row holds the hash of its content. */
  ghost predicate Settled(db: Db, cs: seq<Candidate>) {
    forall i :: 0 <= i < |cs| && cs[i].kind == File ==>
      cs[i].path in db.artifacts && db.artifacts[cs[i].path].facts.hash == Some(cs[i].digest)
  }

  lemma ScanSettles(db: Db, cs: seq<Candidate>, run: nat, rehash: bool)
    requires TableOk(db) && DistinctPaths(cs) && NewRun(db, run)
    ensures Settled(Scan(db, cs, run, rehash), cs) <==> rehash || Trustworthy(db, cs)
  {
    hide Scan, TableOk, NewRun;
    var after := Scan(db, cs, run, rehash);
    forall i | 0 <= i < |cs|
      ensures cs[i].path in after.artifacts
      ensures after.artifacts[cs[i].path].facts.hash == HashOf(Lookup(db, cs[i].path), cs[i], rehash)
    {
      ScanRows(db, cs, run, rehash, cs[i].path);
    }
    if !rehash && !Trustworthy(db, cs) {
      var i :| 0 <= i < |cs| && !TrustworthyAt(db, cs[i]);
      assert after.artifacts[cs[i].path].facts.hash != Some(cs[i].digest);
    }
  }

  /** The row is what visiting this candidate leaves behind, but for the run that saw it. */
  ghost predicate UpToDate(a: Artifact, c: Candidate) {
    && a.facts == Facts(c.kind, a.facts.hash, c.size, c.mtime)
    && (if c.kind == File then a.facts.hash.Some? else a.facts.hash.None?)
    && (a.level.origin == Auto ==> a.level.value == c.level)
    && (a.parent.origin == Auto ==> a.parent.value == c.parent)
    && !a.missing && a.seen.missingSince == None
  }

  lemma RowIsUpToDate(stored: Option<Artifact>, c: Candidate, run: nat, rehash: bool)
    ensures UpToDate(RowAfter(stored, c, run, rehash), c)
  {
  }

  ghost predicate AllUpToDate(db: Db, cs: seq<Candidate>) {
    && (forall i :: 0 <= i < |cs| ==> cs[i].path in db.artifacts && UpToDate(db.artifacts[cs[i].path], cs[i]))
    && (forall p <- db.artifacts :: !Found(cs, p) ==> db.artifacts[p].missing)
  }

  lemma ScanBringsUpToDate(db: Db, cs: seq<Candidate>, run: nat, rehash: bool)
    requires TableOk(db) && DistinctPaths(cs) && NewRun(db, run)
    ensures TableOk(Scan(db, cs, run, rehash)) && AllUpToDate(Scan(db, cs, run, rehash), cs)
  {
    hide Scan, TableOk, NewRun, RowAfter, UpToDate;
    var after := Scan(db, cs, run, rehash);
    forall i | 0 <= i < |cs|
      ensures cs[i].path in after.artifacts && UpToDate(after.artifacts[cs[i].path], cs[i])
    {
      ScanRows(db, cs, run, rehash, cs[i].path);
      RowIsUpToDate(Lookup(db, cs[i].path), cs[i], run, rehash);
    }
    forall p | p in after.artifacts && !Found(cs, p) ensures after.artifacts[p].missing {
      ScanRows(db, cs, run, rehash, p);
    }
    ScanRows(db, cs, run, rehash, []);
  }

  /** Visiting an up-to-date row changes only the run that saw it, unless a rehash finds another hash. */
  lemma VisitAgain(a: Artifact, c: Candidate, run: nat, rehash: bool)
    requires UpToDate(a, c)
    ensures Changed(a, c, HashOf(Some(a), c, rehash)) <==>
            rehash && c.kind == File && a.facts.hash != Some(c.digest)
    ensures !Changed(a, c, HashOf(Some(a), c, rehash)) ==>
            RowAfter(Some(a), c, run, rehash) == a.(seen := a.seen.(last := run))
  {
  }

  ghost predicate LogsAt(db: Db, c: Candidate, rehash: bool) {
    c.path in db.artifacts ==> Changed(db.artifacts[c.path], c, HashOf(Some(db.artifacts[c.path]), c, rehash))
  }

  lemma VisitLogs(db: Db, c: Candidate, run: nat, rehash: bool)
    ensures var after := Visit(db, c, run, rehash);
      db.changes <= after.changes && (after.changes == db.changes <==> !LogsAt(db, c, rehash))
  {
    hide Changed, HashOf, Updated, NewArtifact;
  }

  lemma SameLogsAt(a: Db, b: Db, c: Candidate, rehash: bool)
    requires Lookup(a, c.path) == Lookup(b, c.path)
    ensures LogsAt(a, c, rehash) == LogsAt(b, c, rehash)
  {
  }

  lemma {:induction false} VisitAllLogs(db: Db, cs: seq<Candidate>, run: nat, rehash: bool)
    requires TableOk(db) && DistinctPaths(cs)
    ensures var after := VisitAll(db, cs, run, rehash);
      && db.changes <= after.changes
      && (after.changes == db.changes <==> forall i :: 0 <= i < |cs| ==> !LogsAt(db, cs[i], rehash))
  {
    if cs != [] {
      var n := |cs| - 1;
      var front := cs[..n];
      VisitAllLogs(db, front, run, rehash);
      VisitAllRows(db, front, run, rehash);
      hide TableOk, RowAfter, Visit, LogsAt;
      assert !Found(front, cs[n].path);
      assert Lookup(VisitAll(db, front, run, rehash), cs[n].path) == Lookup(db, cs[n].path);
      SameLogsAt(VisitAll(db, front, run, rehash), db, cs[n], rehash);
      VisitLogs(VisitAll(db, front, run, rehash), cs[n], run, rehash);
      assert forall i :: 0 <= i < n ==> front[i] == cs[i];
    }
  }

  lemma {:induction false} SweepLogs(db: Db, rows: seq<Path>, run: nat)
    ensures db.changes <= Sweep(db, rows, run).changes
    ensures (forall p <- rows :: p in db.artifacts ==> !Unseen(db.artifacts[p], run)) ==> Sweep(db, rows, run) == db
  {
    hide Unseen, Lost;
    if rows != [] {
      assert forall p <- rows[..|rows| - 1] :: p in rows;
      SweepLogs(db, rows[..|rows| - 1], run);
    }
  }

  lemma NothingUnseen(db: Db, cs: seq<Candidate>, run: nat, rehash: bool, p: Path)
    requires TableOk(db) && DistinctPaths(cs) && AllUpToDate(db, cs)
    requires p in VisitAll(db, cs, run, rehash).artifacts
    ensures !Unseen(VisitAll(db, cs, run, rehash).artifacts[p], run)
  {
    hide TableOk, VisitAll, HashOf, Changed, UpToDate;
    VisitAllRows(db, cs, run, rehash);
    assert Lookup(VisitAll(db, cs, run, rehash), p).Some?;
    if Found(cs, p) {
      var i :| 0 <= i < |cs| && cs[i].path == p;
      assert Lookup(VisitAll(db, cs, run, rehash), cs[i].path) ==
             Some(RowAfter(Lookup(db, cs[i].path), cs[i], run, rehash));
    } else {
      assert Lookup(db, p).Some?;
    }
  }

  /** After a scan, scanning the same tree again logs nothing, exactly when the second scan is quick or
      every stored hash is that of the content, as after a full rehash. */
  lemma RescanLogsNothingExactly(db: Db, cs: seq<Candidate>, first: nat, rehash: bool, second: nat, again: bool)
    requires TableOk(db) && DistinctPaths(cs) && NewRun(db, first)
    requires NewRun(Scan(db, cs, first, rehash), second)
    ensures var after := Scan(db, cs, first, rehash);
      Scan(after, cs, second, again).changes == after.changes <==> !again || rehash || Trustworthy(db, cs)
  {
    var after := Scan(db, cs, first, rehash);
    hide Scan, VisitAll, Changed, HashOf, TableOk, UpToDate, Sweep, Trustworthy;
    ScanBringsUpToDate(db, cs, first, rehash);
    ScanSettles(db, cs, first, rehash);
    RescanLogs(after, cs, second, again);
  }

  lemma RescanLogs(db: Db, cs: seq<Candidate>, run: nat, rehash: bool)
    requires TableOk(db) && DistinctPaths(cs) && AllUpToDate(db, cs) && NewRun(db, run)
    ensures Scan(db, cs, run, rehash).changes == db.changes <==> !rehash || Settled(db, cs)
  {
    hide VisitAll, Changed, HashOf, TableOk, UpToDate, Sweep;
    var visited := VisitAll(db, cs, run, rehash);
    VisitAllLogs(db, cs, run, rehash);
    forall i | 0 <= i < |cs|
      ensures LogsAt(db, cs[i], rehash) <==>
        rehash && cs[i].kind == File && db.artifacts[cs[i].path].facts.hash != Some(cs[i].digest)
    {
      VisitAgain(db.artifacts[cs[i].path], cs[i], run, rehash);
    }
    SweepLogs(visited, visited.rows, run);
    forall p | p in visited.artifacts ensures !Unseen(visited.artifacts[p], run) {
      NothingUnseen(db, cs, run, rehash, p);
    }
  }
}
