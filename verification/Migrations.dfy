/** Any number of migration runners over one database (scripts/db-migrate.ts).
    A step is one stretch between two awaits of one runner; steps of different
    runners interleave freely, and a runner may crash between any two of its steps. */
module Migrations {
  import opened Wrappers

  type RunnerId = nat

  datatype File = File(version: string, body: string)

  /** Where a runner stands: before the ledger read, in the file loop, inside the
      transaction of file `index`, or stopped. */
  datatype Phase = Starting | Looping | Locked | Checked | Applied | Recorded | Finished | Failed

  datatype Runner = Runner(files: seq<File>, phase: Phase, snapshot: set<string>, index: nat, count: nat)

  /** ledger: the committed rows of hub_migrations; commits: the bodies whose
      transaction committed, in order; lock: the holder of the advisory lock. */
  datatype Db = Db(ledger: set<string>, commits: seq<File>, lock: Option<RunnerId>)

  datatype Op =
    | ReadLedger
    | Skip
    | Lock
    | Recheck
    | Apply(ok: bool)
    | Record
    | Commit(ok: bool)
    | Finish
    | Crash

  predicate InTransaction(p: Phase) {
    p.Locked? || p.Checked? || p.Applied? || p.Recorded?
  }

  predicate Stopped(p: Phase) { p.Finished? || p.Failed? }

  function Version(r: Runner): string
    requires r.index < |r.files|
  {
    r.files[r.index].version
  }

  predicate AtFile(r: Runner) { r.index < |r.files| }

  predicate Enabled(id: RunnerId, r: Runner, db: Db, op: Op) {
    match op
    case ReadLedger => r.phase.Starting?
    case Skip => r.phase.Looping? && AtFile(r) && Version(r) in r.snapshot
    case Lock => r.phase.Looping? && AtFile(r) && Version(r) !in r.snapshot && db.lock.None?
    case Recheck => r.phase.Locked? && AtFile(r)
    case Apply(_) => r.phase.Checked? && AtFile(r)
    case Record => r.phase.Applied? && AtFile(r)
    case Commit(_) => r.phase.Recorded? && AtFile(r)
    case Finish => r.phase.Looping? && r.index == |r.files|
    case Crash => !Stopped(r.phase)
  }

  /** Leaving a transaction, by commit, rollback or loss of the connection, frees the lock. */
  function Release(id: RunnerId, db: Db): Db {
    if db.lock == Some(id) then db.(lock := None) else db
  }

  function Abort(id: RunnerId, r: Runner, db: Db): (Runner, Db) {
    (r.(phase := Failed), Release(id, db))
  }

  function Step(id: RunnerId, r: Runner, db: Db, op: Op): (Runner, Db)
    requires Enabled(id, r, db, op)
  {
    match op
    case ReadLedger => (r.(phase := Looping, snapshot := db.ledger, index := 0, count := 0), db)
    case Skip => (r.(index := r.index + 1), db)
    case Lock => (r.(phase := Locked), db.(lock := Some(id)))
    case Recheck =>
      if Version(r) in db.ledger then
        (r.(phase := Looping, index := r.index + 1, count := r.count + 1), Release(id, db))
      else (r.(phase := Checked), db)
    case Apply(ok) => if ok then (r.(phase := Applied), db) else Abort(id, r, db)
    case Record =>
      // The primary key of the ledger refuses a version it already holds.
      if Version(r) in db.ledger then Abort(id, r, db) else (r.(phase := Recorded), db)
    case Commit(ok) =>
      if !ok then Abort(id, r, db)
      else
        (r.(phase := Looping, index := r.index + 1, count := r.count + 1),
         Release(id, Db(db.ledger + {Version(r)}, db.commits + [r.files[r.index]], db.lock)))
    case Finish => (r.(phase := Finished), db)
    case Crash => Abort(id, r, db)
  }

  // ---- The whole system ----

  datatype System = System(db: Db, runners: map<RunnerId, Runner>)

  datatype Event = Launch(id: RunnerId, files: seq<File>) | Act(id: RunnerId, op: Op)

  predicate CanHappen(s: System, e: Event) {
    match e
    case Launch(id, _) => id !in s.runners
    case Act(id, op) => id in s.runners && Enabled(id, s.runners[id], s.db, op)
  }

  function Next(s: System, e: Event): System
    requires CanHappen(s, e)
  {
    match e
    case Launch(id, files) => s.(runners := s.runners[id := Runner(files, Starting, {}, 0, 0)])
    case Act(id, op) =>
      var (r, db) := Step(id, s.runners[id], s.db, op);
      System(db, s.runners[id := r])
  }

  function Initially(ledger: set<string>): System {
    System(Db(ledger, [], None), map[])
  }

  ghost predicate Reaches(from: System, events: seq<Event>, to: System)
    decreases |events|
  {
    if events == [] then to == from
    else
      var last := |events| - 1;
      exists mid :: Reaches(from, events[..last], mid) && CanHappen(mid, events[last]) && to == Next(mid, events[last])
  }

  // ---- What every step keeps ----

  function Versions(files: seq<File>): set<string> {
    set i | 0 <= i < |files| :: files[i].version
  }

  ghost predicate DistinctVersions(files: seq<File>) {
    forall i, j :: 0 <= i < j < |files| ==> files[i].version != files[j].version
  }

  /** How many of the first n files the snapshot lacks. */
  function Missing(files: seq<File>, n: nat, snapshot: set<string>): nat
    requires n <= |files|
  {
    if n == 0 then 0
    else Missing(files, n - 1, snapshot) + if files[n - 1].version in snapshot then 0 else 1
  }

  ghost predicate RunnerOk(id: RunnerId, r: Runner, db: Db) {
    && r.index <= |r.files|
    && r.snapshot <= db.ledger
    && (forall k :: 0 <= k < r.index ==> r.files[k].version in db.ledger)
    && r.count == Missing(r.files, r.index, r.snapshot)
    && (InTransaction(r.phase) ==> db.lock == Some(id) && AtFile(r) && Version(r) !in r.snapshot)
    && (InTransaction(r.phase) && !r.phase.Locked? ==> Version(r) !in db.ledger)
    && (r.phase.Starting? ==> r.index == 0)
    && (r.phase.Finished? ==> r.index == |r.files|)
  }

  ghost predicate DbOk(db: Db, initial: set<string>) {
    && DistinctVersions(db.commits)
    && db.ledger == initial + Versions(db.commits)
    && initial !! Versions(db.commits)
  }

  ghost predicate Inv(s: System, initial: set<string>) {
    && DbOk(s.db, initial)
    && (forall id <- s.runners :: RunnerOk(id, s.runners[id], s.db))
    && (forall id <- s.runners :: s.db.lock == Some(id) ==> InTransaction(s.runners[id].phase))
    && (s.db.lock.Some? ==> s.db.lock.value in s.runners)
  }

  /** Only a commit changes the ledger, and it adds a version the ledger lacked. */
  lemma StepOnLedger(id: RunnerId, r: Runner, db: Db, op: Op)
    requires Enabled(id, r, db, op) && RunnerOk(id, r, db)
    ensures var (r', db') := Step(id, r, db, op);
      if op == Commit(true) then
        && Version(r) !in db.ledger
        && db'.ledger == db.ledger + {Version(r)} && db'.commits == db.commits + [r.files[r.index]]
      else
        db'.ledger == db.ledger && db'.commits == db.commits
  {
  }

  lemma StepKeepsDbOk(id: RunnerId, r: Runner, db: Db, op: Op, initial: set<string>)
    requires Enabled(id, r, db, op) && RunnerOk(id, r, db) && DbOk(db, initial)
    ensures DbOk(Step(id, r, db, op).1, initial)
  {
    StepOnLedger(id, r, db, op);
    if op == Commit(true) {
      VersionsOfAppend(db.commits, r.files[r.index]);
    }
  }

  lemma VersionsOfAppend(files: seq<File>, f: File)
    ensures Versions(files + [f]) == Versions(files) + {f.version}
  {
    var more := files + [f];
    assert more[|files|] == f;
    forall v | v in Versions(files) ensures v in Versions(more) {
      var i :| 0 <= i < |files| && files[i].version == v;
      assert more[i] == files[i];
    }
  }

  lemma StepKeepsRunnerOk(id: RunnerId, r: Runner, db: Db, op: Op)
    requires Enabled(id, r, db, op) && RunnerOk(id, r, db)
    ensures var (r', db') := Step(id, r, db, op);
      && RunnerOk(id, r', db')
      && r'.files == r.files
      && (db'.lock == db.lock || db.lock == Some(id) || db'.lock == Some(id))
      && (db'.lock == Some(id) && (db.lock != Some(id) || InTransaction(r.phase)) ==> InTransaction(r'.phase))
  {
  }

  /** A step of one runner leaves another's facts alone: the other's check under the
      lock stays good because nobody else can commit while the lock is held. */
  lemma StepKeepsOthers(id: RunnerId, r: Runner, db: Db, op: Op, other: RunnerId, o: Runner)
    requires Enabled(id, r, db, op) && RunnerOk(id, r, db)
    requires other != id && RunnerOk(other, o, db)
    ensures RunnerOk(other, o, Step(id, r, db, op).1)
  {
    StepOnLedger(id, r, db, op);
  }

  lemma NextKeepsInv(s: System, e: Event, initial: set<string>)
    requires Inv(s, initial) && CanHappen(s, e)
    ensures Inv(Next(s, e), initial)
    ensures s.db.ledger <= Next(s, e).db.ledger
  {
    match e
    case Launch(id, files) =>
      assert s.db.lock != Some(id);
    case Act(id, op) =>
      hide RunnerOk, DbOk, Step, Enabled;
      StepOnLedger(id, s.runners[id], s.db, op);
      StepKeepsDbOk(id, s.runners[id], s.db, op, initial);
      StepKeepsRunnerOk(id, s.runners[id], s.db, op);
      forall other <- s.runners | other != id
        ensures RunnerOk(other, s.runners[other], Next(s, e).db)
      {
        StepKeepsOthers(id, s.runners[id], s.db, op, other, s.runners[other]);
      }
  }

  lemma {:induction false} ReachableInv(initial: set<string>, events: seq<Event>, s: System)
    requires Reaches(Initially(initial), events, s)
    ensures Inv(s, initial)
    decreases |events|
  {
    if events != [] {
      var last := |events| - 1;
      var mid :| Reaches(Initially(initial), events[..last], mid) && CanHappen(mid, events[last])
                 && s == Next(mid, events[last]);
      ReachableInv(initial, events[..last], mid);
      NextKeepsInv(mid, events[last], initial);
    }
  }

  // ---- Over whole runs ----

  /** Each migration commits at most once, and never when the ledger already had it. */
  lemma EachMigrationCommitsOnce(initial: set<string>, events: seq<Event>, s: System)
    requires Reaches(Initially(initial), events, s)
    ensures DistinctVersions(s.db.commits)
    ensures forall c <- s.db.commits :: c.version !in initial
  {
    ReachableInv(initial, events, s);
    forall c <- s.db.commits ensures c.version in Versions(s.db.commits) {
    }
  }

  /** The ledger is what it was at first and exactly the versions whose bodies committed. */
  lemma LedgerMatchesCommits(initial: set<string>, events: seq<Event>, s: System)
    requires Reaches(Initially(initial), events, s)
    ensures s.db.ledger == initial + Versions(s.db.commits)
  {
    ReachableInv(initial, events, s);
  }

  /** Two runners are never inside their transactions together. */
  lemma TransactionsExclude(initial: set<string>, events: seq<Event>, s: System, a: RunnerId, b: RunnerId)
    requires Reaches(Initially(initial), events, s)
    requires a in s.runners && b in s.runners
    requires InTransaction(s.runners[a].phase) && InTransaction(s.runners[b].phase)
    ensures a == b
  {
    ReachableInv(initial, events, s);
    assert RunnerOk(a, s.runners[a], s.db) && RunnerOk(b, s.runners[b], s.db);
  }

  /** The ledger's primary key never has to refuse the insert that follows a body. */
  lemma RecordNeverConflicts(initial: set<string>, events: seq<Event>, s: System, id: RunnerId)
    requires Reaches(Initially(initial), events, s)
    requires id in s.runners && Enabled(id, s.runners[id], s.db, Record)
    ensures Step(id, s.runners[id], s.db, Record).0.phase == Recorded
  {
    ReachableInv(initial, events, s);
    assert RunnerOk(id, s.runners[id], s.db);
  }

  lemma {:induction false} LedgerGrows(initial: set<string>, before: seq<Event>, s: System,
                                       after: seq<Event>, t: System)
    requires Reaches(Initially(initial), before, s) && Reaches(s, after, t)
    ensures Inv(t, initial) && s.db.ledger <= t.db.ledger
    decreases |after|
  {
    ReachableInv(initial, before, s);
    if after != [] {
      var last := |after| - 1;
      var mid :| Reaches(s, after[..last], mid) && CanHappen(mid, after[last]) && t == Next(mid, after[last]);
      LedgerGrows(initial, before, s, after[..last], mid);
      NextKeepsInv(mid, after[last], initial);
    }
  }

  /** A runner that finished left every version of its list in the ledger, for good; the number it
      reports is how many of them its first look at the ledger lacked, whoever applied them. */
  lemma FinishedMeansApplied(initial: set<string>, before: seq<Event>, s: System, after: seq<Event>, t: System,
                             id: RunnerId)
    requires Reaches(Initially(initial), before, s) && Reaches(s, after, t)
    requires id in s.runners && s.runners[id].phase == Finished
    ensures Versions(s.runners[id].files) <= t.db.ledger
    ensures var r := s.runners[id]; r.count == Missing(r.files, |r.files|, r.snapshot)
  {
    ReachableInv(initial, before, s);
    LedgerGrows(initial, before, s, after, t);
    assert RunnerOk(id, s.runners[id], s.db);
  }

  /** Events lead to one state only. */
  lemma {:induction false} ReachesOneState(from: System, events: seq<Event>, s: System, t: System)
    requires Reaches(from, events, s) && Reaches(from, events, t)
    ensures s == t
    decreases |events|
  {
    if events != [] {
      var last := |events| - 1;
      var a :| Reaches(from, events[..last], a) && CanHappen(a, events[last]) && s == Next(a, events[last]);
      var b :| Reaches(from, events[..last], b) && CanHappen(b, events[last]) && t == Next(b, events[last]);
      ReachesOneState(from, events[..last], a, b);
    }
  }

  /** The runner looked at the ledger at event n, when the system was in state m. */
  ghost predicate LooksAt(from: System, events: seq<Event>, n: nat, m: System, id: RunnerId) {
    n < |events| && events[n] == Act(id, ReadLedger) && Reaches(from, events[..n], m)
  }

  /** Only a look changes a runner's snapshot, and its list never changes. */
  lemma StepSnapshot(id: RunnerId, r: Runner, db: Db, op: Op)
    requires Enabled(id, r, db, op)
    ensures var r' := Step(id, r, db, op).0;
      && r'.files == r.files && !r'.phase.Starting?
      && (if op.ReadLedger? then r.phase.Starting? && r'.snapshot == db.ledger else r'.snapshot == r.snapshot)
  {
  }

  lemma NextRunner(s: System, e: Event, id: RunnerId)
    requires CanHappen(s, e)
    ensures id in Next(s, e).runners <==> id in s.runners || e.id == id
    ensures id in s.runners && e.id != id ==> Next(s, e).runners[id] == s.runners[id]
    ensures e.Launch? && e.id == id ==> id !in s.runners && Next(s, e).runners[id].files == e.files
    ensures e.Act? && e.id == id ==>
      && id in s.runners && Next(s, e).runners[id].files == s.runners[id].files
      && !Next(s, e).runners[id].phase.Starting?
      && (if e.op.ReadLedger? then s.runners[id].phase.Starting? && Next(s, e).runners[id].snapshot == s.db.ledger
          else Next(s, e).runners[id].snapshot == s.runners[id].snapshot)
  {
    hide Step, Enabled;
    if e.Act? {
      StepSnapshot(e.id, s.runners[e.id], s.db, e.op);
    }
  }

  lemma {:induction false} SnapshotIsLook(from: System, events: seq<Event>, s: System, n: nat, m: System, id: RunnerId)
    requires Reaches(from, events, s) && LooksAt(from, events, n, m, id)
    ensures id in s.runners && s.runners[id].phase != Starting && s.runners[id].snapshot == m.db.ledger
    decreases |events|
  {
    hide Next, CanHappen;
    var last := |events| - 1;
    var mid :| Reaches(from, events[..last], mid) && CanHappen(mid, events[last]) && s == Next(mid, events[last]);
    NextRunner(mid, events[last], id);
    if n == last {
      ReachesOneState(from, events[..n], mid, m);
    } else {
      assert events[..last][..n] == events[..n];
      SnapshotIsLook(from, events[..last], mid, n, m, id);
    }
  }

  lemma {:induction false} RunningHasLooked(from: System, events: seq<Event>, s: System, id: RunnerId)
    returns (n: nat, m: System)
    requires Reaches(from, events, s) && from.runners == map[]
    requires id in s.runners && !s.runners[id].phase.Starting? && !s.runners[id].phase.Failed?
    ensures LooksAt(from, events, n, m, id)
    decreases |events|
  {
    var last := |events| - 1;
    var mid :| Reaches(from, events[..last], mid) && CanHappen(mid, events[last]) && s == Next(mid, events[last]);
    if events[last] == Act(id, ReadLedger) {
      n, m := last, mid;
    } else {
      n, m := RunningHasLooked(from, events[..last], mid, id);
      assert events[..last][..n] == events[..n];
    }
  }

  /** The runners there are those launched, each with the list it was launched with. */
  lemma {:induction false} RunnersExactly(initial: set<string>, events: seq<Event>, s: System, id: RunnerId,
                                          files: seq<File>)
    requires Reaches(Initially(initial), events, s)
    ensures Launch(id, files) in events <==> id in s.runners && s.runners[id].files == files
    decreases |events|
  {
    hide Next, CanHappen;
    if events != [] {
      var last := |events| - 1;
      var mid :| Reaches(Initially(initial), events[..last], mid) && CanHappen(mid, events[last]) &&
        s == Next(mid, events[last]);
      NextRunner(mid, events[last], id);
      RunnersExactly(initial, events[..last], mid, id, files);
      assert events == events[..last] + [events[last]];
    }
  }

  lemma StepCommits(id: RunnerId, r: Runner, db: Db, op: Op)
    requires Enabled(id, r, db, op)
    ensures var (r', db') := Step(id, r, db, op);
      && r'.files == r.files
      && (db'.commits == db.commits || (AtFile(r) && db'.commits == db.commits + [r.files[r.index]]))
  {
  }

  lemma NextCommits(s: System, e: Event)
    requires CanHappen(s, e)
    ensures Next(s, e).db.commits == s.db.commits ||
      (e.Act? && exists f <- s.runners[e.id].files :: Next(s, e).db.commits == s.db.commits + [f])
    ensures forall id <- s.runners :: id in Next(s, e).runners && Next(s, e).runners[id].files == s.runners[id].files
  {
    hide Step, Enabled;
    if e.Act? {
      StepCommits(e.id, s.runners[e.id], s.db, e.op);
    }
  }

  /** Whatever was committed stands in the list of a runner. */
  lemma {:induction false} CommitsAreListed(initial: set<string>, events: seq<Event>, s: System, f: File)
    returns (id: RunnerId)
    requires Reaches(Initially(initial), events, s) && f in s.db.commits
    ensures id in s.runners && f in s.runners[id].files
    decreases |events|
  {
    hide Next, CanHappen;
    var last := |events| - 1;
    var mid :| Reaches(Initially(initial), events[..last], mid) && CanHappen(mid, events[last]) &&
      s == Next(mid, events[last]);
    NextCommits(mid, events[last]);
    if f in mid.db.commits {
      id := CommitsAreListed(initial, events[..last], mid, f);
    } else {
      id := events[last].id;
      assert id in mid.runners by { CanAct(mid, events[last]); }
    }
  }

  lemma CanAct(s: System, e: Event)
    requires CanHappen(s, e) && e.Act?
    ensures e.id in s.runners
  {
  }

  /** A runner that finished reports how many versions of its list were not in the ledger when it looked. */
  lemma FinishedCountsMissing(initial: set<string>, events: seq<Event>, s: System, id: RunnerId)
    returns (n: nat, m: System)
    requires Reaches(Initially(initial), events, s) && id in s.runners && s.runners[id].phase == Finished
    ensures LooksAt(Initially(initial), events, n, m, id)
    ensures var r := s.runners[id]; r.count == Missing(r.files, |r.files|, m.db.ledger)
  {
    n, m := RunningHasLooked(Initially(initial), events, s, id);
    SnapshotIsLook(Initially(initial), events, s, n, m, id);
    ReachableInv(initial, events, s);
    assert RunnerOk(id, s.runners[id], s.db);
  }

  /** In any reachable state a runner that has not stopped can move, or the one it waits for can. */
  lemma NobodyIsStuck(initial: set<string>, events: seq<Event>, s: System, id: RunnerId)
    requires Reaches(Initially(initial), events, s)
    requires id in s.runners && !Stopped(s.runners[id].phase)
    ensures exists mover, op :: op != Crash && CanHappen(s, Act(mover, op))
  {
    ReachableInv(initial, events, s);
    var mover := if s.runners[id].phase == Looping && s.db.lock.Some? then s.db.lock.value else id;
    var r := s.runners[mover];
    assert RunnerOk(id, s.runners[id], s.db) && RunnerOk(mover, r, s.db);
    if r.phase == Looping && !(AtFile(r) && s.db.lock.Some?) {
      assert AtFile(r) || CanHappen(s, Act(mover, Finish));
      assert AtFile(r) ==> CanHappen(s, Act(mover, Skip)) || CanHappen(s, Act(mover, Lock));
    } else {
      var op := match r.phase
        case Starting => ReadLedger
        case Locked => Recheck
        case Checked => Apply(true)
        case Applied => Record
        case Recorded => Commit(true)
        case _ => if AtFile(r) then Skip else Finish;
      assert CanHappen(s, Act(mover, op));
    }
  }

  /** Every step of a runner brings it nearer its end: at most five steps a file, and two more. */
  function Remaining(r: Runner): int {
    match r.phase
    case Starting => 5 * |r.files| + 2
    case Looping => 5 * (|r.files| - r.index) + 1
    case Locked => 5 * (|r.files| - r.index)
    case Checked => 5 * (|r.files| - r.index) - 1
    case Applied => 5 * (|r.files| - r.index) - 2
    case Recorded => 5 * (|r.files| - r.index) - 3
    case Finished => 0
    case Failed => 0
  }

  lemma StepsRunOut(id: RunnerId, r: Runner, db: Db, op: Op)
    requires Enabled(id, r, db, op) && RunnerOk(id, r, db)
    ensures 0 <= Remaining(Step(id, r, db, op).0) < Remaining(r)
  {
  }

  // ---- Order ----

  /** With `order` a list of versions: a version is in the ledger only with all earlier ones. */
  ghost predicate DownwardClosed(ledger: set<string>, order: seq<string>) {
    forall i, j :: 0 <= i < j < |order| && order[j] in ledger ==> order[i] in ledger
  }

  /** The list holds, before each version of `order`, the versions that precede it there. */
  ghost predicate Respects(files: seq<File>, order: seq<string>) {
    forall k, i, j :: 0 <= k < |files| && 0 <= i < j < |order| && files[k].version == order[j] ==>
      order[i] in Versions(files[..k])
  }

  ghost predicate AllRespect(s: System, order: seq<string>) {
    forall id <- s.runners :: Respects(s.runners[id].files, order)
  }

  lemma NextKeepsOrder(s: System, e: Event, initial: set<string>, order: seq<string>)
    requires Inv(s, initial) && CanHappen(s, e)
    requires AllRespect(s, order) && DownwardClosed(s.db.ledger, order)
    requires e.Launch? ==> Respects(e.files, order)
    ensures AllRespect(Next(s, e), order) && DownwardClosed(Next(s, e).db.ledger, order)
  {
    if e.Act? {
      var r := s.runners[e.id];
      assert RunnerOk(e.id, r, s.db) && Respects(r.files, order);
      StepOnLedger(e.id, r, s.db, e.op);
      StepKeepsRunnerOk(e.id, r, s.db, e.op);
      if e.op == Commit(true) {
        assert Versions(r.files[..r.index]) <= s.db.ledger;
      }
    }
  }

  /** If every runner's list respects one order, a ledger that is downward closed in it stays so. */
  lemma {:induction false} LedgerStaysDownwardClosed(initial: set<string>, events: seq<Event>, s: System,
                                                     order: seq<string>)
    requires Reaches(Initially(initial), events, s)
    requires DownwardClosed(initial, order)
    requires forall i :: 0 <= i < |events| && events[i].Launch? ==> Respects(events[i].files, order)
    ensures AllRespect(s, order) && DownwardClosed(s.db.ledger, order)
    decreases |events|
  {
    if events != [] {
      var last := |events| - 1;
      var mid :| Reaches(Initially(initial), events[..last], mid) && CanHappen(mid, events[last])
                 && s == Next(mid, events[last]);
      forall i | 0 <= i < last && events[..last][i].Launch? ensures Respects(events[..last][i].files, order) {
        assert events[i].Launch?;
      }
      LedgerStaysDownwardClosed(initial, events[..last], mid, order);
      ReachableInv(initial, events[..last], mid);
      NextKeepsOrder(mid, events[last], initial, order);
    }
  }

  /** The sorted list itself respects its order when its versions are distinct, and so does any
      prefix of it: an older build beside a newer one is harmless. */
  lemma PrefixesRespect(files: seq<File>, n: nat)
    requires n <= |files| && DistinctVersions(files)
    ensures Respects(files[..n], seq(|files|, i requires 0 <= i < |files| => files[i].version))
  {
    var order := seq(|files|, i requires 0 <= i < |files| => files[i].version);
    forall k, i, j | 0 <= k < n && 0 <= i < j < |order| && files[..n][k].version == order[j]
      ensures order[i] in Versions(files[..n][..k])
    {
      assert files[k].version == files[j].version;
      assert k == j;
      assert files[..n][..k][i] == files[i];
    }
  }
}
