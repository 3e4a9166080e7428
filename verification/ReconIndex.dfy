/** The architecture scanner's index: a table of artifacts, brought up to date by scans, and a log of
    changes (scripts/architecture-recon-index.ts:640-896). */
module ReconIndex {
  import opened Wrappers

  /** A path below the root, segment by segment; the root itself is empty. */
  type Path = seq<string>

  /** A content hash in hexadecimal, never empty. */
  type Digest = s: string | s != "" witness "0"

  datatype Kind = Directory | File
  datatype Level = Context | Container | Component | Code
  datatype Origin = Auto | Manual
  datatype Review = Unreviewed | InReview | Verified | Excluded
  datatype Tag<T> = Tag(value: T, origin: Origin)
  datatype Facts = Facts(kind: Kind, hash: Option<Digest>, size: Option<nat>, mtime: Option<int>)
  datatype Seen = Seen(first: nat, last: nat, changed: nat, missingSince: Option<nat>)

  datatype Artifact = Artifact(facts: Facts, level: Tag<Level>, parent: Tag<Option<Path>>, review: Review,
                               missing: bool, seen: Seen)

  /** A file or directory found on disk; digest is what hashing the file's bytes would give. */
  datatype Candidate = Candidate(path: Path, kind: Kind, level: Level, parent: Option<Path>,
                                 digest: Digest, size: Option<nat>, mtime: Option<int>)

  datatype ChangeKind = Added | Modified | Missing
  datatype Change = Change(run: nat, path: Path, what: ChangeKind, before: Option<Digest>, after: Option<Digest>,
                           mtimeBefore: Option<int>, mtimeAfter: Option<int>)

  /** rows: the paths in the table's row order. */
  datatype Db = Db(artifacts: map<Path, Artifact>, rows: seq<Path>, changes: seq<Change>)

  // ---- One candidate ----

  /** A quick scan trusts the stored hash of a file whose size and time are as stored. */
  predicate MetadataMatches(a: Artifact, c: Candidate) {
    a.facts.hash.Some? && a.facts.size == c.size && a.facts.mtime == c.mtime
  }

  function HashOf(stored: Option<Artifact>, c: Candidate, rehash: bool): Option<Digest> {
    if c.kind == Directory then None
    else if !rehash && stored.Some? && MetadataMatches(stored.value, c) then stored.value.facts.hash
    else Some(c.digest)
  }

  predicate Changed(a: Artifact, c: Candidate, hash: Option<Digest>) {
    a.facts.kind != c.kind || a.facts.hash != hash || a.facts.size != c.size
  }

  function NewArtifact(c: Candidate, hash: Option<Digest>, run: nat): Artifact {
    Artifact(Facts(c.kind, hash, c.size, c.mtime), Tag(c.level, Auto), Tag(c.parent, Auto), Unreviewed, false,
             Seen(run, run, run, None))
  }

  function Retag<T>(t: Tag<T>, value: T): Tag<T> {
    if t.origin == Manual then t else t.(value := value)
  }

  function Updated(a: Artifact, c: Candidate, hash: Option<Digest>, run: nat): Artifact {
    var changed := Changed(a, c, hash);
    Artifact(Facts(c.kind, hash, c.size, c.mtime), Retag(a.level, c.level), Retag(a.parent, c.parent),
             if changed && a.review == Verified then InReview else a.review,
             false,
             Seen(a.seen.first, run, if changed then run else a.seen.changed, None))
  }

  function Lookup(db: Db, p: Path): Option<Artifact> {
    if p in db.artifacts then Some(db.artifacts[p]) else None
  }

  function Visit(db: Db, c: Candidate, run: nat, rehash: bool): Db {
    var stored := Lookup(db, c.path);
    var hash := HashOf(stored, c, rehash);
    match stored
    case None =>
      Db(db.artifacts[c.path := NewArtifact(c, hash, run)], db.rows + [c.path],
         db.changes + [Change(run, c.path, Added, None, hash, None, c.mtime)])
    case Some(a) =>
      Db(db.artifacts[c.path := Updated(a, c, hash, run)], db.rows,
         if Changed(a, c, hash) then
           db.changes + [Change(run, c.path, Modified, a.facts.hash, hash, a.facts.mtime, c.mtime)]
         else db.changes)
  }

  function VisitAll(db: Db, cs: seq<Candidate>, run: nat, rehash: bool): Db {
    if cs == [] then db
    else Visit(VisitAll(db, cs[..|cs| - 1], run, rehash), cs[|cs| - 1], run, rehash)
  }

  // ---- The sweep for what was not seen ----

  predicate Unseen(a: Artifact, run: nat) { a.seen.last != run && !a.missing }

  function Lost(a: Artifact, run: nat): Artifact {
    a.(missing := true,
       seen := a.seen.(missingSince := if a.seen.missingSince.Some? then a.seen.missingSince else Some(run)))
  }

  function Sweep(db: Db, rows: seq<Path>, run: nat): Db {
    if rows == [] then db
    else
      var before := Sweep(db, rows[..|rows| - 1], run);
      var p := rows[|rows| - 1];
      if p in db.artifacts && Unseen(db.artifacts[p], run) then
        var a := db.artifacts[p];
        Db(before.artifacts[p := Lost(a, run)], before.rows,
           before.changes + [Change(run, p, Missing, a.facts.hash, None, a.facts.mtime, None)])
      else before
  }

  /** A scan that commits. */
  function Scan(db: Db, cs: seq<Candidate>, run: nat, rehash: bool): Db {
    var visited := VisitAll(db, cs, run, rehash);
    Sweep(visited, visited.rows, run)
  }

  // ---- Marks by hand ----

  datatype Mark = Mark(status: Option<Review>, level: Option<Level>, parent: Option<Option<Path>>)

  function Stored(db: Db, p: Path, a: Artifact): Db { db.(artifacts := db.artifacts[p := a]) }

  function WithStatus(db: Db, p: Path, status: Option<Review>): Db
    requires p in db.artifacts
  {
    if status.Some? then Stored(db, p, db.artifacts[p].(review := status.value)) else db
  }

  function WithLevel(db: Db, p: Path, level: Option<Level>): Db
    requires p in db.artifacts
  {
    if level.Some? then Stored(db, p, db.artifacts[p].(level := Tag(level.value, Manual))) else db
  }

  /** A parent that is not in the table is refused by the table's foreign key. */
  predicate Refused(db: Db, parent: Option<Option<Path>>) {
    parent.Some? && parent.value.Some? && parent.value.value !in db.artifacts
  }

  function WithParent(db: Db, p: Path, parent: Option<Option<Path>>): Db
    requires p in db.artifacts
  {
    if parent.Some? && !Refused(db, parent) then Stored(db, p, db.artifacts[p].(parent := Tag(parent.value, Manual)))
    else db
  }

  /** An unknown artifact is refused whole; an unknown parent only after the status and the level have
      been stored. */
  function Marked(db: Db, p: Path, m: Mark): Db {
    if p !in db.artifacts then db
    else WithParent(WithLevel(WithStatus(db, p, m.status), p, m.level), p, m.parent)
  }

  // ---- The index itself ----

  datatype Counts = Counts(added: nat, modified: nat, same: nat, missing: nat)

  /** How many changes of one kind a log holds. */
  function Tally(changes: seq<Change>, what: ChangeKind): nat {
    if changes == [] then 0
    else Tally(changes[..|changes| - 1], what) + if changes[|changes| - 1].what == what then 1 else 0
  }

  lemma TallyOneMore(changes: seq<Change>, c: Change, what: ChangeKind)
    ensures Tally(changes + [c], what) == Tally(changes, what) + if c.what == what then 1 else 0
  {
    assert (changes + [c])[..|changes|] == changes;
  }

  class Index {
    var artifacts: map<Path, Artifact>
    var rows: seq<Path>
    var changes: seq<Change>

    constructor ()
      ensures View() == Db(map[], [], [])
    {
      artifacts, rows, changes := map[], [], [];
    }

    function View(): Db reads this { Db(artifacts, rows, changes) }

    /** What the counts say about the changes logged since `before`. */
    ghost predicate Counted(counts: Counts, before: seq<Change>, visited: nat)
      reads this
    {
      && Tally(changes, Added) == Tally(before, Added) + counts.added
      && Tally(changes, Modified) == Tally(before, Modified) + counts.modified
      && Tally(changes, Missing) == Tally(before, Missing) + counts.missing
      && counts.added + counts.modified + counts.same == visited
    }

    method VisitCandidate(c: Candidate, run: nat, rehash: bool, counts: Counts, ghost before: seq<Change>, ghost n: nat)
      returns (counts': Counts)
      requires Counted(counts, before, n)
      modifies this
      ensures View() == Visit(old(View()), c, run, rehash)
      ensures Counted(counts', before, n + 1)
    {
      hide Tally, Changed, Updated;
      var hash: Option<Digest> := None;
      if c.kind == File {
        var metadataMatches := !rehash && c.path in artifacts && MetadataMatches(artifacts[c.path], c);
        hash := if metadataMatches then artifacts[c.path].facts.hash else Some(c.digest);
      }
      if c.path !in artifacts {
        artifacts := artifacts[c.path := NewArtifact(c, hash, run)];
        rows := rows + [c.path];
        Log(Change(run, c.path, Added, None, hash, None, c.mtime));
        return counts.(added := counts.added + 1);
      }
      var a := artifacts[c.path];
      artifacts := artifacts[c.path := Updated(a, c, hash, run)];
      if Changed(a, c, hash) {
        Log(Change(run, c.path, Modified, a.facts.hash, hash, a.facts.mtime, c.mtime));
        counts' := counts.(modified := counts.modified + 1);
      } else {
        counts' := counts.(same := counts.same + 1);
      }
    }

    method Log(c: Change)
      modifies this`changes
      ensures changes == old(changes) + [c]
      ensures forall what :: Tally(changes, what) == Tally(old(changes), what) + if c.what == what then 1 else 0
    {
      forall what ensures Tally(changes + [c], what) == Tally(changes, what) + if c.what == what then 1 else 0 {
        TallyOneMore(changes, c, what);
      }
      changes := changes + [c];
    }

    /** The scan's transaction. Its counts agree with what it logs, and cover every candidate. */
    method RunScan(cs: seq<Candidate>, run: nat, rehash: bool) returns (counts: Counts)
      modifies this
      ensures View() == Scan(old(View()), cs, run, rehash)
      ensures Counted(counts, old(changes), |cs|)
    {
      counts := Counts(0, 0, 0, 0);
      for i := 0 to |cs|
        invariant View() == VisitAll(old(View()), cs[..i], run, rehash)
        invariant Counted(counts, old(changes), i)
      {
        assert cs[..i + 1][..i] == cs[..i];
        counts := VisitCandidate(cs[i], run, rehash, counts, old(changes), i);
      }
      assert cs[..|cs|] == cs;
      counts := SweepUnseen(run, counts, old(changes), |cs|);
    }

    method SweepUnseen(run: nat, counts: Counts, ghost before: seq<Change>, ghost n: nat) returns (counts': Counts)
      requires Counted(counts, before, n)
      modifies this
      ensures View() == Sweep(old(View()), old(rows), run)
      ensures Counted(counts', before, n)
    {
      hide Tally;
      counts' := counts;
      var table := artifacts;
      ghost var was := View();
      for i := 0 to |rows|
        invariant rows == was.rows && table == was.artifacts
        invariant View() == Sweep(was, rows[..i], run)
        invariant Counted(counts', before, n)
      {
        hide Unseen, Lost;
        assert rows[..i + 1][..i] == rows[..i];
        var p := rows[i];
        if p in table && Unseen(table[p], run) {
          artifacts := artifacts[p := Lost(table[p], run)];
          Log(Change(run, p, Missing, table[p].facts.hash, None, table[p].facts.mtime, None));
          counts' := counts'.(missing := counts'.missing + 1);
        }
      }
      assert rows[..|rows|] == rows;
    }

    method MarkArtifact(p: Path, m: Mark) returns (ok: bool)
      modifies this
      ensures View() == Marked(old(View()), p, m)
      ensures ok <==> p in old(artifacts) && !Refused(old(View()), m.parent)
    {
      if p !in artifacts {
        return false;
      }
      MarkStatus(p, m.status);
      MarkLevel(p, m.level);
      ok := MarkParent(p, m.parent);
    }

    method MarkStatus(p: Path, status: Option<Review>)
      requires p in artifacts
      modifies this`artifacts
      ensures View() == WithStatus(old(View()), p, status)
    {
      if status.Some? {
        artifacts := artifacts[p := artifacts[p].(review := status.value)];
      }
    }

    method MarkLevel(p: Path, level: Option<Level>)
      requires p in artifacts
      modifies this`artifacts
      ensures View() == WithLevel(old(View()), p, level)
    {
      if level.Some? {
        artifacts := artifacts[p := artifacts[p].(level := Tag(level.value, Manual))];
      }
    }

    method MarkParent(p: Path, parent: Option<Option<Path>>) returns (ok: bool)
      requires p in artifacts
      modifies this`artifacts
      ensures View() == WithParent(old(View()), p, parent) && ok == !Refused(old(View()), parent)
    {
      if parent.Some? {
        if parent.value.Some? && parent.value.value !in artifacts {
          return false;
        }
        artifacts := artifacts[p := artifacts[p].(parent := Tag(parent.value, Manual))];
      }
      return true;
    }
  }
}
