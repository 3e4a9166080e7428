/** What one scan logs of one path. */
module ReconLog {
  import opened Wrappers
  import opened ReconIndex
  import opened ReconScan

  /** The log's entries for a path, in order. */
  function EntriesOf(changes: seq<Change>, p: Path): seq<Change> {
    if changes == [] then []
    else
      var last := changes[|changes| - 1];
      EntriesOf(changes[..|changes| - 1], p) + if last.path == p then [last] else []
  }

  lemma EntriesAppend(changes: seq<Change>, c: Change, p: Path)
    ensures EntriesOf(changes + [c], p) == EntriesOf(changes, p) + if c.path == p then [c] else []
  {
    assert (changes + [c])[..|changes|] == changes;
  }

  /** A path that was found: added when it is new, modified when its kind, hash or size differ. */
  function LogFound(stored: Option<Artifact>, c: Candidate, run: nat, rehash: bool): seq<Change> {
    var hash := HashOf(stored, c, rehash);
    match stored
    case None => [Change(run, c.path, Added, None, hash, None, c.mtime)]
    case Some(a) =>
      if a.facts.kind != c.kind || a.facts.hash != hash || a.facts.size != c.size then
        [Change(run, c.path, Modified, a.facts.hash, hash, a.facts.mtime, c.mtime)]
      else []
  }

  /** A path that was not: missing, the first time. */
  function LogUnfound(stored: Option<Artifact>, p: Path, run: nat): seq<Change> {
    match stored
    case None => []
    case Some(a) => if a.missing then [] else [Change(run, p, Missing, a.facts.hash, None, a.facts.mtime, None)]
  }

  lemma VisitEntries(db: Db, c: Candidate, run: nat, rehash: bool, p: Path)
    ensures EntriesOf(Visit(db, c, run, rehash).changes, p) == EntriesOf(db.changes, p) +
              if c.path == p then LogFound(Lookup(db, p), c, run, rehash) else []
  {
    hide HashOf, Updated, NewArtifact, EntriesOf;
    forall e: Change {
      EntriesAppend(db.changes, e, p);
    }
  }

  lemma {:induction false} VisitAllEntries(db: Db, cs: seq<Candidate>, run: nat, rehash: bool, p: Path)
    requires TableOk(db) && DistinctPaths(cs)
    ensures !Found(cs, p) ==> EntriesOf(VisitAll(db, cs, run, rehash).changes, p) == EntriesOf(db.changes, p)
    ensures forall i :: 0 <= i < |cs| && cs[i].path == p ==>
      EntriesOf(VisitAll(db, cs, run, rehash).changes, p) ==
      EntriesOf(db.changes, p) + LogFound(Lookup(db, p), cs[i], run, rehash)
  {
    hide TableOk, RowAfter, Visit, LogFound, EntriesOf, Lookup;
    if cs != [] {
      var n := |cs| - 1;
      var front := cs[..n];
      VisitAllEntries(db, front, run, rehash, p);
      VisitAllRows(db, front, run, rehash);
      VisitEntries(VisitAll(db, front, run, rehash), cs[n], run, rehash, p);
      assert forall i :: 0 <= i < n ==> front[i] == cs[i];
      assert !Found(front, cs[n].path);
    }
  }

  lemma {:induction false} SweepEntries(db: Db, rows: seq<Path>, run: nat, p: Path)
    requires forall i, j :: 0 <= i < j < |rows| ==> rows[i] != rows[j]
    ensures EntriesOf(Sweep(db, rows, run).changes, p) == EntriesOf(db.changes, p) +
              if p in rows && p in db.artifacts && Unseen(db.artifacts[p], run) then LogUnfound(Lookup(db, p), p, run)
              else []
  {
    hide Lost, EntriesOf;
    if rows != [] {
      var n := |rows| - 1;
      SweepEntries(db, rows[..n], run, p);
      assert p in rows <==> p in rows[..n] || p == rows[n];
      assert rows[n] !in rows[..n];
      forall e: Change {
        EntriesAppend(Sweep(db, rows[..n], run).changes, e, p);
      }
    }
  }

  /** A scan adds to the log of a path exactly what is due: of a candidate, what its visit says; of any
      other row, that it went missing, unless it had before. */
  lemma ScanLogsExactly(db: Db, cs: seq<Candidate>, run: nat, rehash: bool, p: Path)
    requires TableOk(db) && DistinctPaths(cs) && NewRun(db, run)
    ensures forall i :: 0 <= i < |cs| && cs[i].path == p ==>
      EntriesOf(Scan(db, cs, run, rehash).changes, p) ==
      EntriesOf(db.changes, p) + LogFound(Lookup(db, p), cs[i], run, rehash)
    ensures !Found(cs, p) ==>
      EntriesOf(Scan(db, cs, run, rehash).changes, p) == EntriesOf(db.changes, p) + LogUnfound(Lookup(db, p), p, run)
  {
    hide VisitAll, Changed, HashOf, Sweep, EntriesOf, LogFound;
    var visited := VisitAll(db, cs, run, rehash);
    VisitAllRows(db, cs, run, rehash);
    VisitAllEntries(db, cs, run, rehash, p);
    SweepEntries(visited, visited.rows, run, p);
    if i :| 0 <= i < |cs| && cs[i].path == p {
      assert Lookup(visited, p) == Some(RowAfter(Lookup(db, p), cs[i], run, rehash));
    }
  }

  /** A path that was missing and is found again is current again; and its return is logged nowhere
      exactly when its kind, its hash as the scan takes it, and its size are as stored. */
  lemma ReturnsQuietlyExactly(db: Db, cs: seq<Candidate>, run: nat, rehash: bool, i: nat)
    requires TableOk(db) && DistinctPaths(cs) && NewRun(db, run)
    requires i < |cs| && cs[i].path in db.artifacts && db.artifacts[cs[i].path].missing
    ensures var p, c, a, after := cs[i].path, cs[i], db.artifacts[cs[i].path], Scan(db, cs, run, rehash);
      && p in after.artifacts && !after.artifacts[p].missing && after.artifacts[p].seen.missingSince == None
      && (EntriesOf(after.changes, p) == EntriesOf(db.changes, p) <==>
          a.facts.kind == c.kind && a.facts.hash == HashOf(Some(a), c, rehash) && a.facts.size == c.size)
  {
    hide Scan, HashOf, EntriesOf, TableOk;
    var p := cs[i].path;
    ScanLogsExactly(db, cs, run, rehash, p);
    ScanRows(db, cs, run, rehash, p);
    assert Lookup(db, p) == Some(db.artifacts[p]);
  }
}
