/** The runner itself, working on a shared database (scripts/db-migrate.ts:47-79). */
module MigrationRunner {
  import opened Wrappers
  import opened Migrations

  class Database {
    var ledger: set<string>
    var commits: seq<File>
    var lock: Option<RunnerId>

    constructor (initial: set<string>)
      ensures View() == Db(initial, [], None)
    {
      ledger, commits, lock := initial, [], None;
    }

    function View(): Db reads this { Db(ledger, commits, lock) }
  }

  /** The files that become due, in order, when the first n are applied to a ledger. */
  function Due(files: seq<File>, n: nat, ledger: set<string>): seq<File>
    requires n <= |files|
  {
    if n == 0 then []
    else
      Due(files, n - 1, ledger) +
      if files[n - 1].version in ledger + Versions(files[..n - 1]) then [] else [files[n - 1]]
  }

  lemma NothingDue(files: seq<File>, ledger: set<string>)
    ensures Due(files, 0, ledger) == [] && Versions(files[..0]) == {}
  {
  }

  lemma DueStep(files: seq<File>, n: nat, ledger: set<string>)
    requires n < |files|
    ensures Versions(files[..n + 1]) == Versions(files[..n]) + {files[n].version}
    ensures Due(files, n + 1, ledger) ==
            Due(files, n, ledger) + if files[n].version in ledger + Versions(files[..n]) then [] else [files[n]]
  {
    assert files[..n + 1] == files[..n] + [files[n]];
    VersionsOfAppend(files[..n], files[n]);
  }

  class MigrationRunner {
    const id: RunnerId
    const files: seq<File>
    const db: Database
    var phase: Phase
    var snapshot: set<string>
    var index: nat
    var count: nat

    constructor (id: RunnerId, files: seq<File>, db: Database)
      ensures View() == Runner(files, Starting, {}, 0, 0)
      ensures this.id == id && this.files == files && this.db == db
    {
      this.id, this.files, this.db := id, files, db;
      phase, snapshot, index, count := Starting, {}, 0, 0;
    }

    function View(): Runner reads this { Runner(files, phase, snapshot, index, count) }

    predicate Can(op: Op) reads this, db { Enabled(id, View(), db.View(), op) }

    /** This runner took the step `op` from the state given. */
    predicate Took(r: Runner, d: Db, op: Op) reads this, db {
      Enabled(id, r, d, op) && (View(), db.View()) == Step(id, r, d, op)
    }

    method ReadLedger()
      requires Can(Op.ReadLedger)
      modifies this
      ensures Took(old(View()), old(db.View()), Op.ReadLedger)
    {
      snapshot := db.ledger;
      index, count := 0, 0;
      phase := Looping;
    }

    method Skip()
      requires Can(Op.Skip)
      modifies this
      ensures Took(old(View()), old(db.View()), Op.Skip)
    {
      index := index + 1;
    }

    method Lock()
      requires Can(Op.Lock)
      modifies this, db
      ensures Took(old(View()), old(db.View()), Op.Lock)
    {
      db.lock := Some(id);
      phase := Locked;
    }

    method Recheck()
      requires Can(Op.Recheck)
      modifies this, db
      ensures Took(old(View()), old(db.View()), Op.Recheck)
    {
      if files[index].version in db.ledger {
        Unlock();
        index, count := index + 1, count + 1;
        phase := Looping;
      } else {
        phase := Checked;
      }
    }

    method Apply(ok: bool)
      requires Can(Op.Apply(ok))
      modifies this, db
      ensures Took(old(View()), old(db.View()), Op.Apply(ok))
    {
      if ok {
        phase := Applied;
      } else {
        Stop();
      }
    }

    method Record()
      requires Can(Op.Record)
      modifies this, db
      ensures Took(old(View()), old(db.View()), Op.Record)
    {
      if files[index].version in db.ledger {
        Stop();
      } else {
        phase := Recorded;
      }
    }

    method Commit(ok: bool)
      requires Can(Op.Commit(ok))
      modifies this, db
      ensures Took(old(View()), old(db.View()), Op.Commit(ok))
    {
      if ok {
        db.ledger := db.ledger + {files[index].version};
        db.commits := db.commits + [files[index]];
        Unlock();
        index, count := index + 1, count + 1;
        phase := Looping;
      } else {
        Stop();
      }
    }

    method Finish()
      requires Can(Op.Finish)
      modifies this
      ensures Took(old(View()), old(db.View()), Op.Finish)
    {
      phase := Finished;
    }

    method Crash()
      requires Can(Op.Crash)
      modifies this, db
      ensures Took(old(View()), old(db.View()), Op.Crash)
    {
      Stop();
    }

    method Unlock()
      modifies db
      ensures db.View() == Release(id, old(db.View()))
    {
      if db.lock == Some(id) {
        db.lock := None;
      }
    }

    method Stop()
      modifies this, db
      ensures (View(), db.View()) == Abort(id, old(View()), old(db.View()))
    {
      phase := Failed;
      Unlock();
    }

    /** The transaction of one file, undisturbed. */
    method ApplyFile(ok: bool)
      requires Can(Op.Lock)
      modifies this, db
      ensures db.lock == None && snapshot == old(snapshot)
      ensures var f := files[old(index)];
        if f.version in old(db.ledger) || ok then
          && phase == Looping && index == old(index) + 1
          && db.ledger == old(db.ledger) + {f.version}
          && db.commits == old(db.commits) + if f.version in old(db.ledger) then [] else [f]
        else
          phase == Failed && index == old(index) && db.View() == old(db.View())
    {
      Lock();
      Recheck();
      if phase == Checked {
        Apply(ok);
        if phase == Applied {
          Record();
          Commit(true);
        }
      }
    }

    /** A whole run with the database to itself; bodyOk says which bodies the database accepts. It
        applies what is due, in order, up to the first body that fails. */
    method Migrate(bodyOk: seq<bool>)
      requires phase == Starting && db.lock == None && |bodyOk| == |files|
      modifies this, db
      ensures db.lock == None && index <= |files|
      ensures db.commits == old(db.commits) + Due(files, index, old(db.ledger))
      ensures db.ledger == old(db.ledger) + Versions(files[..index])
      ensures (phase == Finished && index == |files|) ||
              (phase == Failed && index < |files| && !bodyOk[index] && files[index].version !in db.ledger)
    {
      hide Due, Versions;
      NothingDue(files, db.ledger);
      ReadLedger();
      while index < |files|
        invariant phase == Looping && db.lock == None && index <= |files|
        invariant snapshot == old(db.ledger)
        invariant db.commits == old(db.commits) + Due(files, index, old(db.ledger))
        invariant db.ledger == old(db.ledger) + Versions(files[..index])
      {
        DueStep(files, index, old(db.ledger));
        if files[index].version in snapshot {
          Skip();
        } else {
          ApplyFile(bodyOk[index]);
          if phase == Failed {
            return;
          }
        }
      }
      Finish();
    }
  }
}
