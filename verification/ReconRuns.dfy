/** The architecture index over any run of scans, failed scans and marks by hand. */
module ReconRuns {
  import opened Wrappers
  import opened ReconIndex
  import opened ReconScan

  /** used: the runs that ended. Runs may overlap: they end in any order, each at most once. */
  datatype History = History(db: Db, used: set<nat>)

  datatype Event =
    | Scanned(cs: seq<Candidate>, run: nat, rehash: bool)
    | ScanFailed(run: nat)
    | Marking(path: Path, mark: Mark)

  /** The parents of candidates are candidates. */
  ghost predicate ParentsFound(cs: seq<Candidate>) {
    forall i :: 0 <= i < |cs| && cs[i].parent.Some? ==> Found(cs, cs[i].parent.value)
  }

  ghost predicate CanHappen(h: History, e: Event) {
    match e
    case Scanned(cs, run, _) => run !in h.used && DistinctPaths(cs) && ParentsFound(cs)
    case ScanFailed(run) => run !in h.used
    case Marking(_, _) => true
  }

  function Next(h: History, e: Event): History {
    match e
    case Scanned(cs, run, rehash) => History(Scan(h.db, cs, run, rehash), h.used + {run})
    case ScanFailed(run) => h.(used := h.used + {run})
    case Marking(path, mark) => h.(db := Marked(h.db, path, mark))
  }

  function Play(h: History, es: seq<Event>): History {
    if es == [] then h else Next(Play(h, es[..|es| - 1]), es[|es| - 1])
  }

  ghost predicate Playable(h: History, es: seq<Event>) {
    es == [] ||
    (Playable(h, es[..|es| - 1]) && CanHappen(Play(h, es[..|es| - 1]), es[|es| - 1]))
  }

  const EMPTY := History(Db(map[], [], []), {})

  // ---- What every step keeps ----

  predicate Alters(c: Change, p: Path) { c.path == p && c.what != Missing }

  /** The run of the latest added or modified entry of a path. */
  function LastAltered(changes: seq<Change>, p: Path): Option<nat> {
    if changes == [] then None
    else if Alters(changes[|changes| - 1], p) then Some(changes[|changes| - 1].run)
    else LastAltered(changes[..|changes| - 1], p)
  }

  ghost predicate LastChangedAt(db: Db, p: Path) {
    match Lookup(db, p)
    case None => LastAltered(db.changes, p) == None
    case Some(a) => LastAltered(db.changes, p) == Some(a.seen.changed)
  }

  ghost predicate LastChangedOk(db: Db) { forall p :: LastChangedAt(db, p) }

  predicate ParentPresent(db: Db, p: Path) {
    p in db.artifacts && db.artifacts[p].parent.value.Some? ==> db.artifacts[p].parent.value.value in db.artifacts
  }

  ghost predicate ParentsPresent(db: Db) { forall p :: ParentPresent(db, p) }

  ghost predicate SeenByUsed(h: History) {
    forall p <- h.db.artifacts :: h.db.artifacts[p].seen.last in h.used
  }

  ghost predicate Inv(h: History) {
    TableOk(h.db) && LastChangedOk(h.db) && ParentsPresent(h.db) && SeenByUsed(h)
  }

  lemma LastAlteredOneMore(changes: seq<Change>, c: Change, p: Path)
    ensures LastAltered(changes + [c], p) == if Alters(c, p) then Some(c.run) else LastAltered(changes, p)
  {
    assert (changes + [c])[..|changes|] == changes;
  }

  /** What a visit logs about a path and what it writes into its row belong together. */
  lemma VisitKeepsLastChangedAt(db: Db, c: Candidate, run: nat, rehash: bool, p: Path)
    requires LastChangedAt(db, p)
    ensures LastChangedAt(Visit(db, c, run, rehash), p)
  {
    hide HashOf, Changed, LastAltered;
    var stored, hash := Lookup(db, c.path), HashOf(Lookup(db, c.path), c, rehash);
    match stored {
      case None => LastAlteredOneMore(db.changes, Change(run, c.path, Added, None, hash, None, c.mtime), p);
      case Some(a) =>
        LastAlteredOneMore(db.changes, Change(run, c.path, Modified, a.facts.hash, hash, a.facts.mtime, c.mtime), p);
    }
  }

  lemma VisitKeepsLastChanged(db: Db, c: Candidate, run: nat, rehash: bool)
    requires LastChangedOk(db)
    ensures LastChangedOk(Visit(db, c, run, rehash))
  {
    hide LastChangedAt, Visit;
    forall p ensures LastChangedAt(Visit(db, c, run, rehash), p) {
      assert LastChangedAt(db, p);
      VisitKeepsLastChangedAt(db, c, run, rehash, p);
    }
  }

  lemma {:induction false} VisitAllKeepsLastChanged(db: Db, cs: seq<Candidate>, run: nat, rehash: bool)
    requires LastChangedOk(db)
    ensures LastChangedOk(VisitAll(db, cs, run, rehash))
  {
    hide LastChangedOk, Visit;
    if cs != [] {
      VisitAllKeepsLastChanged(db, cs[..|cs| - 1], run, rehash);
      VisitKeepsLastChanged(VisitAll(db, cs[..|cs| - 1], run, rehash), cs[|cs| - 1], run, rehash);
    }
  }

  lemma {:induction false} SweepAltersNothing(db: Db, rows: seq<Path>, run: nat, p: Path)
    ensures LastAltered(Sweep(db, rows, run).changes, p) == LastAltered(db.changes, p)
  {
    hide Unseen, Lost;
    if rows != [] {
      var front := rows[..|rows| - 1];
      SweepAltersNothing(db, front, run, p);
      var before := Sweep(db, front, run);
      var after := Sweep(db, rows, run);
      if |after.changes| > |before.changes| {
        LastAlteredOneMore(before.changes, after.changes[|before.changes|], p);
      }
    }
  }

  lemma ScanKeepsLastChanged(db: Db, cs: seq<Candidate>, run: nat, rehash: bool)
    requires TableOk(db) && DistinctPaths(cs) && LastChangedOk(db)
    ensures LastChangedOk(Scan(db, cs, run, rehash))
  {
    hide TableOk, VisitAll, RowAfter, LastAltered;
    var visited := VisitAll(db, cs, run, rehash);
    VisitAllKeepsLastChanged(db, cs, run, rehash);
    VisitAllRows(db, cs, run, rehash);
    TableRows(visited);
    SweepRows(visited, visited.rows, run);
    forall p ensures LastChangedAt(Scan(db, cs, run, rehash), p) {
      SweepAltersNothing(visited, visited.rows, run, p);
      assert LastChangedAt(visited, p);
      assert Lookup(Scan(db, cs, run, rehash), p) == SweptRow(visited, visited.rows, run, p);
    }
  }

  lemma TableRows(db: Db)
    requires TableOk(db)
    ensures forall p <- db.rows :: p in db.artifacts
  {
  }

  /** A scan's rows all have their parents in the table, so its commit meets the deferred foreign key. */
  lemma ScanKeepsParents(db: Db, cs: seq<Candidate>, run: nat, rehash: bool)
    requires TableOk(db) && DistinctPaths(cs) && NewRun(db, run) && ParentsFound(cs) && ParentsPresent(db)
    ensures ParentsPresent(Scan(db, cs, run, rehash))
  {
    hide TableOk, Scan, HashOf, Changed;
    var after := Scan(db, cs, run, rehash);
    forall p | p in db.artifacts || Found(cs, p) ensures p in after.artifacts {
      ScanRows(db, cs, run, rehash, p);
    }
    forall p ensures ParentPresent(after, p) {
      ScanRows(db, cs, run, rehash, p);
      assert ParentPresent(db, p);
      assert p in after.artifacts ==> Lookup(after, p) == Some(after.artifacts[p]);
      if Found(cs, p) {
        var i :| 0 <= i < |cs| && cs[i].path == p;
        assert Lookup(after, p) == Some(RowAfter(Lookup(db, p), cs[i], run, rehash));
      }
    }
  }

  lemma ScanKeepsSeen(h: History, cs: seq<Candidate>, run: nat, rehash: bool)
    requires TableOk(h.db) && DistinctPaths(cs) && NewRun(h.db, run) && SeenByUsed(h)
    ensures TableOk(Scan(h.db, cs, run, rehash))
    ensures SeenByUsed(Next(h, Scanned(cs, run, rehash)))
  {
    hide TableOk, Scan, HashOf, Changed;
    var after := Scan(h.db, cs, run, rehash);
    ScanRows(h.db, cs, run, rehash, []);
    forall p | p in after.artifacts ensures after.artifacts[p].seen.last in h.used + {run} {
      ScanRows(h.db, cs, run, rehash, p);
      assert Lookup(after, p) == Some(after.artifacts[p]);
      if Found(cs, p) {
        var i :| 0 <= i < |cs| && cs[i].path == p;
        assert Lookup(after, p) == Some(RowAfter(Lookup(h.db, p), cs[i], run, rehash));
      }
    }
  }

  /** Rewriting a row without touching what scans recorded of it, under a parent in the table. */
  lemma StoredKeepsInv(h: History, p: Path, a: Artifact)
    requires Inv(h) && p in h.db.artifacts && a.seen == h.db.artifacts[p].seen
    requires a.parent.value.Some? ==> a.parent.value.value in h.db.artifacts
    ensures Inv(h.(db := Stored(h.db, p, a)))
  {
    var after := Stored(h.db, p, a);
    forall q
      ensures q in after.artifacts <==> q in h.db.artifacts
      ensures LastChangedAt(after, q) && ParentPresent(after, q)
    {
      assert ParentPresent(h.db, q) && LastChangedAt(h.db, q);
    }
  }

  lemma ParentIsPresent(h: History, p: Path)
    requires Inv(h)
    ensures ParentPresent(h.db, p)
  {
  }

  lemma StatusKeepsInv(h: History, p: Path, status: Option<Review>)
    requires Inv(h) && p in h.db.artifacts
    ensures Inv(h.(db := WithStatus(h.db, p, status))) && p in WithStatus(h.db, p, status).artifacts
  {
    hide Inv;
    ParentIsPresent(h, p);
    if status.Some? {
      StoredKeepsInv(h, p, h.db.artifacts[p].(review := status.value));
    }
  }

  lemma LevelKeepsInv(h: History, p: Path, level: Option<Level>)
    requires Inv(h) && p in h.db.artifacts
    ensures Inv(h.(db := WithLevel(h.db, p, level))) && p in WithLevel(h.db, p, level).artifacts
  {
    hide Inv;
    ParentIsPresent(h, p);
    if level.Some? {
      StoredKeepsInv(h, p, h.db.artifacts[p].(level := Tag(level.value, Manual)));
    }
  }

  lemma ParentKeepsInv(h: History, p: Path, parent: Option<Option<Path>>)
    requires Inv(h) && p in h.db.artifacts
    ensures Inv(h.(db := WithParent(h.db, p, parent)))
  {
    hide Inv;
    if parent.Some? && !Refused(h.db, parent) {
      StoredKeepsInv(h, p, h.db.artifacts[p].(parent := Tag(parent.value, Manual)));
    }
  }

  lemma MarkKeepsInv(h: History, p: Path, m: Mark)
    requires Inv(h)
    ensures Inv(Next(h, Marking(p, m)))
  {
    hide Inv, WithStatus, WithLevel, WithParent;
    if p in h.db.artifacts {
      StatusKeepsInv(h, p, m.status);
      var h1 := h.(db := WithStatus(h.db, p, m.status));
      LevelKeepsInv(h1, p, m.level);
      ParentKeepsInv(h1.(db := WithLevel(h1.db, p, m.level)), p, m.parent);
    }
  }

  lemma NextKeepsInv(h: History, e: Event)
    requires Inv(h) && CanHappen(h, e)
    ensures Inv(Next(h, e))
  {
    match e
    case Scanned(cs, run, rehash) =>
      hide TableOk, LastChangedOk, ParentsPresent, Scan;
      ScanKeepsLastChanged(h.db, cs, run, rehash);
      ScanKeepsParents(h.db, cs, run, rehash);
      ScanKeepsSeen(h, cs, run, rehash);
    case ScanFailed(_) =>
    case Marking(p, m) => MarkKeepsInv(h, p, m);
  }

  lemma {:induction false} PlayKeepsInv(h: History, es: seq<Event>)
    requires Inv(h) && Playable(h, es)
    ensures Inv(Play(h, es))
  {
    hide Inv, CanHappen, Next;
    if es != [] {
      PlayKeepsInv(h, es[..|es| - 1]);
      NextKeepsInv(Play(h, es[..|es| - 1]), es[|es| - 1]);
    }
  }

  // ---- Over whole runs ----

  /** Whatever scans and marks happened, an artifact's last changed run is that of the latest added or
      modified entry logged for its path, and a path is in the table exactly when it has one. */
  lemma LastChangedIsLatestEntry(es: seq<Event>, p: Path)
    requires Playable(EMPTY, es)
    ensures var db := Play(EMPTY, es).db;
      if p in db.artifacts then LastAltered(db.changes, p) == Some(db.artifacts[p].seen.changed)
      else LastAltered(db.changes, p) == None
  {
    PlayKeepsInv(EMPTY, es);
    assert LastChangedAt(Play(EMPTY, es).db, p);
  }

  /** At every point every parent is in the table: no scan's commit trips over the foreign key. */
  lemma EveryParentIsPresent(es: seq<Event>, p: Path)
    requires Playable(EMPTY, es) && p in Play(EMPTY, es).db.artifacts
    ensures var db := Play(EMPTY, es).db; var parent := db.artifacts[p].parent.value;
      parent.Some? ==> parent.value in db.artifacts
  {
    PlayKeepsInv(EMPTY, es);
    assert ParentPresent(Play(EMPTY, es).db, p);
  }

  /** What a scan can do to one stored row. */
  lemma ScanOnRow(db: Db, cs: seq<Candidate>, run: nat, rehash: bool, p: Path)
    requires TableOk(db) && DistinctPaths(cs) && NewRun(db, run) && p in db.artifacts
    ensures var a := db.artifacts[p]; var after := Scan(db, cs, run, rehash);
      && p in after.artifacts
      && (after.artifacts[p] == a || after.artifacts[p] == Lost(a, run) ||
          exists c, hash :: after.artifacts[p] == Updated(a, c, hash, run))
  {
    hide TableOk, Scan, Updated, HashOf, Lost;
    ScanRows(db, cs, run, rehash, p);
    if Found(cs, p) {
      var i :| 0 <= i < |cs| && cs[i].path == p;
      assert RowAfter(Lookup(db, p), cs[i], run, rehash) ==
             Updated(db.artifacts[p], cs[i], HashOf(Lookup(db, p), cs[i], rehash), run);
    }
  }

  predicate LeavesTags(e: Event, p: Path) {
    e.Marking? && e.path == p ==> e.mark.level.None? && e.mark.parent.None?
  }

  lemma StepKeepsTags(h: History, e: Event, p: Path)
    requires Inv(h) && CanHappen(h, e) && LeavesTags(e, p) && p in h.db.artifacts
    ensures var a := h.db.artifacts[p]; var after := Next(h, e).db;
      && p in after.artifacts
      && (a.level.origin == Manual ==> after.artifacts[p].level == a.level)
      && (a.parent.origin == Manual ==> after.artifacts[p].parent == a.parent)
  {
    match e
    case Scanned(cs, run, rehash) =>
      hide TableOk, Scan, Changed;
      ScanOnRow(h.db, cs, run, rehash, p);
    case ScanFailed(_) =>
    case Marking(path, mark) => MarkKeepsTags(h.db, path, mark, p);
  }

  lemma MarkKeepsTags(db: Db, path: Path, m: Mark, p: Path)
    requires p in db.artifacts && (path == p ==> m.level.None? && m.parent.None?)
    ensures var a, after := db.artifacts[p], Marked(db, path, m);
      p in after.artifacts && after.artifacts[p].level == a.level && after.artifacts[p].parent == a.parent
  {
  }

  /** A level or parent set by hand survives every scan and every mark of something else. */
  lemma {:induction false} ManualTagsSurvive(h: History, es: seq<Event>, p: Path)
    requires Inv(h) && Playable(h, es) && p in h.db.artifacts
    requires forall i :: 0 <= i < |es| ==> LeavesTags(es[i], p)
    ensures var a := h.db.artifacts[p]; var after := Play(h, es).db;
      && p in after.artifacts
      && (a.level.origin == Manual ==> after.artifacts[p].level == a.level)
      && (a.parent.origin == Manual ==> after.artifacts[p].parent == a.parent)
  {
    hide Inv, CanHappen, Next, LeavesTags;
    if es != [] {
      var front := es[..|es| - 1];
      assert forall i :: 0 <= i < |front| ==> front[i] == es[i];
      ManualTagsSurvive(h, front, p);
      PlayKeepsInv(h, front);
      StepKeepsTags(Play(h, front), es[|es| - 1], p);
    }
  }

  // ---- Reviews ----

  predicate Modifies(c: Change, p: Path) { c.path == p && c.what == Modified }

  /** How often a path was logged as modified. */
  function Modifications(changes: seq<Change>, p: Path): nat {
    if changes == [] then 0
    else Modifications(changes[..|changes| - 1], p) + if Modifies(changes[|changes| - 1], p) then 1 else 0
  }

  lemma ModificationsOneMore(changes: seq<Change>, c: Change, p: Path)
    ensures Modifications(changes + [c], p) == Modifications(changes, p) + if Modifies(c, p) then 1 else 0
  {
    assert (changes + [c])[..|changes|] == changes;
  }

  /** A review begun with `base` modifications on record: it stands verified just while there are no more. */
  ghost predicate StandsSince(db: Db, p: Path, base: nat) {
    && p in db.artifacts
    && base <= Modifications(db.changes, p)
    && db.artifacts[p].review == if Modifications(db.changes, p) == base then Verified else InReview
  }

  lemma VisitKeepsStanding(db: Db, c: Candidate, run: nat, rehash: bool, p: Path, base: nat)
    requires StandsSince(db, p, base)
    ensures StandsSince(Visit(db, c, run, rehash), p, base)
  {
    hide HashOf, Changed, Modifications;
    var stored, hash := Lookup(db, c.path), HashOf(Lookup(db, c.path), c, rehash);
    match stored {
      case None => ModificationsOneMore(db.changes, Change(run, c.path, Added, None, hash, None, c.mtime), p);
      case Some(a) =>
        ModificationsOneMore(db.changes, Change(run, c.path, Modified, a.facts.hash, hash, a.facts.mtime, c.mtime), p);
    }
  }

  lemma {:induction false} VisitAllKeepsStanding(db: Db, cs: seq<Candidate>, run: nat, rehash: bool, p: Path, base: nat)
    requires StandsSince(db, p, base)
    ensures StandsSince(VisitAll(db, cs, run, rehash), p, base)
  {
    hide StandsSince, Visit;
    if cs != [] {
      VisitAllKeepsStanding(db, cs[..|cs| - 1], run, rehash, p, base);
      VisitKeepsStanding(VisitAll(db, cs[..|cs| - 1], run, rehash), cs[|cs| - 1], run, rehash, p, base);
    }
  }

  lemma {:induction false} SweepKeepsStanding(db: Db, rows: seq<Path>, run: nat, p: Path, base: nat)
    requires StandsSince(db, p, base)
    ensures StandsSince(Sweep(db, rows, run), p, base)
  {
    if rows != [] {
      var front := rows[..|rows| - 1];
      SweepKeepsStanding(db, front, run, p, base);
      var before := Sweep(db, front, run);
      var after := Sweep(db, rows, run);
      if |after.changes| > |before.changes| {
        ModificationsOneMore(before.changes, after.changes[|before.changes|], p);
      }
      SweepKeepsReviews(db, front, run, p);
      SweepKeepsReviews(db, rows, run, p);
    }
  }

  lemma {:induction false} SweepKeepsReviews(db: Db, rows: seq<Path>, run: nat, p: Path)
    requires p in db.artifacts
    ensures var after := Sweep(db, rows, run);
      p in after.artifacts && after.artifacts[p].review == db.artifacts[p].review
  {
    if rows != [] {
      SweepKeepsReviews(db, rows[..|rows| - 1], run, p);
    }
  }

  predicate LeavesReview(e: Event, p: Path) { e.Marking? && e.path == p ==> e.mark.status.None? }

  /** An artifact marked verified stays so, whatever scans and other marks follow, exactly until a scan
      logs it as modified; from then on it is back in review. */
  lemma {:induction false} VerifiedUntilModified(h: History, es: seq<Event>, p: Path)
    requires p in h.db.artifacts && h.db.artifacts[p].review == Verified
    requires forall i :: 0 <= i < |es| ==> LeavesReview(es[i], p)
    ensures StandsSince(Play(h, es).db, p, Modifications(h.db.changes, p))
  {
    if es != [] {
      hide StandsSince, Scan;
      var front := es[..|es| - 1];
      assert forall i :: 0 <= i < |front| ==> front[i] == es[i];
      VerifiedUntilModified(h, front, p);
      StepKeepsStanding(Play(h, front), es[|es| - 1], p, Modifications(h.db.changes, p));
    }
  }

  lemma StepKeepsStanding(h: History, e: Event, p: Path, base: nat)
    requires StandsSince(h.db, p, base) && LeavesReview(e, p)
    ensures StandsSince(Next(h, e).db, p, base)
  {
    if e.Scanned? {
      hide StandsSince;
      var visited := VisitAll(h.db, e.cs, e.run, e.rehash);
      VisitAllKeepsStanding(h.db, e.cs, e.run, e.rehash, p, base);
      SweepKeepsStanding(visited, visited.rows, e.run, p, base);
    }
  }
}
