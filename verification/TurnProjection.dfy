/** The projection of retry branches, turn by turn: what the flat loop of TurnBranches amounts to. */
module TurnProjection {
  import opened Wrappers
  import opened TurnBranches

  // ---- A transcript as a list of turns ----

  /** The turns from a row on: each runs up to the next user row. */
  function Turns(rows: seq<Row>, from: nat): seq<seq<Row>>
    requires from <= |rows|
    decreases |rows| - from
  {
    if from == |rows| then [] else [TurnAt(rows, from)] + Turns(rows, TurnEnd(rows, from))
  }

  function Flatten(turns: seq<seq<Row>>): seq<Row> {
    if turns == [] then [] else turns[0] + Flatten(turns[1..])
  }

  lemma FlattenCons(turn: seq<Row>, turns: seq<seq<Row>>)
    ensures Flatten([turn] + turns) == turn + Flatten(turns)
  {
    assert ([turn] + turns)[1..] == turns;
  }

  lemma TurnThenRest(rows: seq<Row>, from: nat)
    requires from < |rows|
    ensures TurnAt(rows, from) + rows[TurnEnd(rows, from)..] == rows[from..]
  {
  }

  /** Splitting loses nothing. */
  lemma {:induction false} FlattenTurns(rows: seq<Row>, from: nat)
    requires from <= |rows|
    ensures Flatten(Turns(rows, from)) == rows[from..]
    decreases |rows| - from
  {
    if from < |rows| {
      hide TurnEnd, TurnAt;
      var end := TurnEnd(rows, from);
      FlattenTurns(rows, end);
      FlattenCons(TurnAt(rows, from), Turns(rows, end));
      TurnThenRest(rows, from);
    }
  }

  /** The turn headed by a key. */
  function TurnOf(rows: seq<Row>, key: string): seq<Row>
    requires Index(rows, key).Some?
  {
    TurnAt(rows, Index(rows, key).value)
  }

  /** A turn headed by a non-root attempt of a complete branch. */
  predicate Dropped(rows: seq<Row>, branches: map<string, Branch>, head: string) {
    exists root :: root in branches && head in branches[root].attempts && head != root
                   && Applies(rows, root, branches[root])
  }

  predicate Loaded(rows: seq<Row>, key: string) { exists i :: 0 <= i < |rows| && rows[i].key == key }

  /** The root of the branch and all its attempts are in the transcript. */
  predicate Complete(rows: seq<Row>, root: string, b: Branch) {
    Loaded(rows, root) && forall a :: 0 <= a < |b.attempts| ==> Loaded(rows, b.attempts[a])
  }

  /** A branch takes effect exactly when it is complete. */
  lemma AppliesExactly(rows: seq<Row>, root: string, b: Branch)
    ensures Applies(rows, root, b) <==> Complete(rows, root, b)
  {
    assert Loaded(rows, root) <==> Index(rows, root).Some?;
    forall a | 0 <= a < |b.attempts| ensures Loaded(rows, b.attempts[a]) <==> Index(rows, b.attempts[a]).Some? {
    }
  }

  /** What the slot of a turn shows: nothing for a later attempt, and for a root the turn of the attempt
      whose number the branch gives, or its own when there is no such attempt. */
  function Slot(rows: seq<Row>, branches: map<string, Branch>, turn: seq<Row>): seq<Row>
    requires turn != []
  {
    var head := turn[0].key;
    if Dropped(rows, branches, head) then []
    else if head in branches && Complete(rows, head, branches[head]) then
      var b := branches[head];
      TurnOf(rows, if 0 <= b.active < |b.attempts| then b.attempts[b.active] else head)
    else turn
  }

  predicate NoEmptyTurn(turns: seq<seq<Row>>) { forall i :: 0 <= i < |turns| ==> turns[i] != [] }

  function Slots(rows: seq<Row>, branches: map<string, Branch>, turns: seq<seq<Row>>): seq<seq<Row>>
    requires NoEmptyTurn(turns)
  {
    if turns == [] then [] else [Slot(rows, branches, turns[0])] + Slots(rows, branches, turns[1..])
  }

  // ---- What the projection relies on ----

  ghost predicate DistinctKeys(rows: seq<Row>) {
    forall i, j :: 0 <= i < j < |rows| ==> rows[i].key != rows[j].key
  }

  /** The root of a branch and its attempts. */
  predicate InFamily(root: string, b: Branch, key: string) { key == root || key in b.attempts }

  ghost predicate Disjoint(branches: map<string, Branch>) {
    forall r, s, k ::
      r in branches && s in branches && InFamily(r, branches[r], k) && InFamily(s, branches[s], k) ==> r == s
  }

  ghost predicate AttemptsAreUserRows(rows: seq<Row>, branches: map<string, Branch>) {
    forall r, i :: r in branches && 0 <= i < |rows| && InFamily(r, branches[r], rows[i].key) ==> rows[i].role == User
  }

  ghost predicate Sound(rows: seq<Row>, branches: map<string, Branch>) {
    DistinctKeys(rows) && Disjoint(branches) && AttemptsAreUserRows(rows, branches)
  }

  predicate StartsTurn(rows: seq<Row>, i: nat) { i < |rows| && (i == 0 || rows[i].role == User) }

  // ---- One turn ----

  /** A turn headed by a user row overlaps the turn at `start` only when it is that turn. */
  lemma TurnsDoNotOverlap(rows: seq<Row>, start: nat, i: nat, j: nat)
    requires StartsTurn(rows, start) && InTurn(rows, start, j)
    requires i < |rows| && rows[i].role == User && InTurn(rows, i, j)
    ensures i == start
  {
  }

  lemma {:induction false} IndexOfRow(rows: seq<Row>, i: nat)
    requires i < |rows| && DistinctKeys(rows)
    ensures Index(rows, rows[i].key) == Some(i)
  {
  }

  /** A row of a turn is hidden exactly when the turn is a later attempt or a root that yields its slot. */
  lemma TurnHidden(rows: seq<Row>, branches: map<string, Branch>, start: nat, j: nat)
    requires Sound(rows, branches) && StartsTurn(rows, start) && InTurn(rows, start, j)
    ensures var k := rows[start].key;
      Hidden(rows, branches, j) <==>
      Dropped(rows, branches, k) || (k in branches && Swaps(rows, k, branches[k]))
  {
    var k := rows[start].key;
    IndexOfRow(rows, start);
    if Hidden(rows, branches, j) {
      var root :| root in branches && Hides(rows, root, branches[root], j);
      HiddenByHead(rows, branches, root, start, j);
    }
    if Dropped(rows, branches, k) {
      var root :| root in branches && k in branches[root].attempts && k != root && Applies(rows, root, branches[root]);
      var a :| 0 <= a < |branches[root].attempts| && branches[root].attempts[a] == k;
      assert HidesAttempt(rows, root, branches[root], a, j);
      assert Hides(rows, root, branches[root], j);
    }
    if k in branches && Swaps(rows, k, branches[k]) {
      assert Hides(rows, k, branches[k], j);
    }
  }

  lemma HiddenByHead(rows: seq<Row>, branches: map<string, Branch>, root: string, start: nat, j: nat)
    requires Sound(rows, branches) && StartsTurn(rows, start) && InTurn(rows, start, j)
    requires root in branches && Hides(rows, root, branches[root], j)
    ensures var k := rows[start].key;
      Dropped(rows, branches, k) || (k == root && Swaps(rows, root, branches[root]))
  {
    var b := branches[root];
    if Swaps(rows, root, b) && InTurn(rows, Index(rows, root).value, j) {
      TurnsDoNotOverlap(rows, start, Index(rows, root).value, j);
    } else {
      var a :| 0 <= a < |b.attempts| && HidesAttempt(rows, root, b, a, j);
      var i := Index(rows, b.attempts[a]).value;
      assert InFamily(root, b, rows[i].key);
      TurnsDoNotOverlap(rows, start, i, j);
    }
  }

  /** Only the head of a turn can be replaced. */
  lemma TurnReplaced(rows: seq<Row>, branches: map<string, Branch>, start: nat, j: nat)
    requires Sound(rows, branches) && StartsTurn(rows, start) && InTurn(rows, start, j)
    ensures var k := rows[start].key;
      Replaced(rows, branches, j) <==> j == start && k in branches && Swaps(rows, k, branches[k])
  {
    IndexOfRow(rows, start);
    if Replaced(rows, branches, j) {
      assert InFamily(rows[j].key, branches[rows[j].key], rows[j].key);
    }
  }

  lemma {:induction false} HiddenStretch(rows: seq<Row>, branches: map<string, Branch>, from: nat, end: nat)
    requires from <= end <= |rows|
    requires forall j: nat :: from <= j < end ==> Shown(rows, branches, j) == []
    ensures Projection(rows, branches, from) == Projection(rows, branches, end)
    decreases end - from
  {
    hide Shown;
    if from < end {
      HiddenStretch(rows, branches, from + 1, end);
    }
  }

  lemma {:induction false} ShownStretch(rows: seq<Row>, branches: map<string, Branch>, from: nat, end: nat)
    requires from <= end <= |rows|
    requires forall j: nat :: from <= j < end ==> Shown(rows, branches, j) == [rows[j]]
    ensures Projection(rows, branches, from) == rows[from..end] + Projection(rows, branches, end)
    decreases end - from
  {
    hide Shown;
    if from < end {
      ShownStretch(rows, branches, from + 1, end);
      SliceCons(rows, from, end, Projection(rows, branches, end));
    } else {
      assert rows[from..end] == [];
    }
  }

  lemma SliceCons(rows: seq<Row>, from: nat, end: nat, rest: seq<Row>)
    requires from < end <= |rows|
    ensures rows[from..end] + rest == [rows[from]] + (rows[from + 1..end] + rest)
  {
  }

  lemma DroppedIsNoRoot(rows: seq<Row>, branches: map<string, Branch>, k: string)
    requires Disjoint(branches) && Dropped(rows, branches, k)
    ensures k !in branches
  {
    var root :| root in branches && k in branches[root].attempts && k != root && Applies(rows, root, branches[root]);
    assert InFamily(root, branches[root], k);
    if k in branches {
      assert InFamily(k, branches[k], k);
    }
  }

  function ShownByHead(rows: seq<Row>, branches: map<string, Branch>, start: nat, j: nat): seq<Row>
    requires start < |rows| && j < |rows|
  {
    var k := rows[start].key;
    if k in branches && Swaps(rows, k, branches[k]) then
      if j == start then TurnOf(rows, ActiveKey(k, branches[k])) else []
    else if Dropped(rows, branches, k) then [] else [rows[j]]
  }

  /** The rows of one turn together show what its slot holds. */
  lemma ShownOfTurn(rows: seq<Row>, branches: map<string, Branch>, start: nat, j: nat)
    requires Sound(rows, branches) && StartsTurn(rows, start) && InTurn(rows, start, j)
    ensures Shown(rows, branches, j) == ShownByHead(rows, branches, start, j)
  {
    hide Hidden, Dropped, Swaps, Sound, Replaced;
    TurnHidden(rows, branches, start, j);
    TurnReplaced(rows, branches, start, j);
  }

  lemma SoundIsDistinct(rows: seq<Row>, branches: map<string, Branch>)
    requires Sound(rows, branches)
    ensures DistinctKeys(rows) && Disjoint(branches)
  {
  }

  /** A slot, told from whether its branch swaps another turn in. */
  lemma SlotOfTurn(rows: seq<Row>, branches: map<string, Branch>, start: nat)
    requires Sound(rows, branches) && StartsTurn(rows, start)
    ensures var k := rows[start].key;
      Slot(rows, branches, TurnAt(rows, start)) ==
        if Dropped(rows, branches, k) then []
        else if k in branches && Swaps(rows, k, branches[k]) then TurnOf(rows, ActiveKey(k, branches[k]))
        else rows[start..TurnEnd(rows, start)]
  {
    hide Dropped, Index, Sound;
    assert TurnAt(rows, start)[0].key == rows[start].key;
    SoundIsDistinct(rows, branches);
    IndexOfRow(rows, start);
    var k := rows[start].key;
    if k in branches {
      AppliesExactly(rows, k, branches[k]);
    }
  }

  /** A stretch of which only the first row shows anything. */
  lemma SwappedStretch(rows: seq<Row>, branches: map<string, Branch>, from: nat, end: nat)
    requires from < end <= |rows|
    requires forall j: nat :: from < j < end ==> Shown(rows, branches, j) == []
    ensures Projection(rows, branches, from) == Shown(rows, branches, from) + Projection(rows, branches, end)
  {
    hide Shown;
    HiddenStretch(rows, branches, from + 1, end);
  }

  lemma ShownInTurn(rows: seq<Row>, branches: map<string, Branch>, start: nat)
    requires Sound(rows, branches) && StartsTurn(rows, start)
    ensures start < TurnEnd(rows, start) <= |rows|
    ensures forall j: nat :: start <= j < TurnEnd(rows, start) ==>
              Shown(rows, branches, j) == ShownByHead(rows, branches, start, j)
  {
    hide Shown, ShownByHead, Sound;
    forall j: nat | start <= j < TurnEnd(rows, start)
      ensures Shown(rows, branches, j) == ShownByHead(rows, branches, start, j)
    {
      ShownOfTurn(rows, branches, start, j);
    }
  }

  lemma ProjectTurn(rows: seq<Row>, branches: map<string, Branch>, start: nat)
    requires Sound(rows, branches) && StartsTurn(rows, start)
    ensures var end := TurnEnd(rows, start);
      Projection(rows, branches, start) == Slot(rows, branches, TurnAt(rows, start)) + Projection(rows, branches, end)
  {
    hide Dropped, Swaps, ActiveKey, TurnOf, TurnAt, Shown, Sound, Disjoint, DistinctKeys, Slot, Projection, TurnEnd;
    var end := TurnEnd(rows, start);
    var k := rows[start].key;
    SlotOfTurn(rows, branches, start);
    SoundIsDistinct(rows, branches);
    ShownInTurn(rows, branches, start);
    if Dropped(rows, branches, k) {
      DroppedIsNoRoot(rows, branches, k);
      HiddenStretch(rows, branches, start, end);
    } else if k in branches && Swaps(rows, k, branches[k]) {
      SwappedStretch(rows, branches, start, end);
    } else {
      ShownStretch(rows, branches, start, end);
    }
  }

  /** From any turn on, the projection is the slots of the remaining turns put one after another. */
  lemma {:induction false} ProjectionFrom(rows: seq<Row>, branches: map<string, Branch>, from: nat)
    requires Sound(rows, branches) && from <= |rows| && (from == |rows| || StartsTurn(rows, from))
    ensures NoEmptyTurn(Turns(rows, from))
    ensures Projection(rows, branches, from) == Flatten(Slots(rows, branches, Turns(rows, from)))
    decreases |rows| - from
  {
    hide Sound, Slot;
    if from < |rows| {
      var end := TurnEnd(rows, from);
      ProjectionFrom(rows, branches, end);
      ProjectTurn(rows, branches, from);
      assert Turns(rows, from) == [TurnAt(rows, from)] + Turns(rows, end);
      assert Turns(rows, from)[1..] == Turns(rows, end);
    }
  }

  /** The projection of a whole transcript: split it into turns, drop later attempts, put the active
      attempt's turn into its root's slot, and flatten. */
  lemma ProjectionIsTurnwise(rows: seq<Row>, branches: map<string, Branch>)
    requires Sound(rows, branches)
    ensures NoEmptyTurn(Turns(rows, 0))
    ensures Projection(rows, branches, 0) == Flatten(Slots(rows, branches, Turns(rows, 0)))
  {
    ProjectionFrom(rows, branches, 0);
  }

  /** In the slot of a complete branch's root the projection shows the turn headed by the active attempt,
      and goes on behind the root's own turn. */
  lemma RootShowsActive(rows: seq<Row>, branches: map<string, Branch>, start: nat, shown: nat)
    requires Sound(rows, branches) && StartsTurn(rows, start) && rows[start].key in branches && shown < |rows|
    requires Complete(rows, rows[start].key, branches[rows[start].key])
    requires var b := branches[rows[start].key];
      rows[shown].key == if 0 <= b.active < |b.attempts| then b.attempts[b.active] else rows[start].key
    ensures Projection(rows, branches, start) ==
            rows[shown..TurnEnd(rows, shown)] + Projection(rows, branches, TurnEnd(rows, start))
  {
    var k := rows[start].key;
    ProjectTurn(rows, branches, start);
    SoundIsDistinct(rows, branches);
    IndexOfRow(rows, shown);
    assert TurnAt(rows, start)[0].key == k;
    RootIsNotDropped(rows, branches, k);
  }

  lemma RootIsNotDropped(rows: seq<Row>, branches: map<string, Branch>, k: string)
    requires Disjoint(branches) && k in branches
    ensures !Dropped(rows, branches, k)
  {
    if Dropped(rows, branches, k) {
      DroppedIsNoRoot(rows, branches, k);
    }
  }

  /** A branch whose root, active attempt or any attempt is missing changes nothing, whatever the others are. */
  lemma {:induction false} IncompleteBranchChangesNothing(rows: seq<Row>, branches: map<string, Branch>, root: string,
                                                          from: nat)
    requires from <= |rows| && root in branches && !Complete(rows, root, branches[root])
    ensures Projection(rows, branches, from) == Projection(rows, branches - {root}, from)
    decreases |rows| - from
  {
    hide Applies, Shown, Complete;
    AppliesExactly(rows, root, branches[root]);
    if from < |rows| {
      IncompleteBranchChangesNothing(rows, branches, root, from + 1);
      IncompleteBranchHidesNothing(rows, branches, root, from);
    }
  }

  lemma IncompleteBranchHidesNothing(rows: seq<Row>, branches: map<string, Branch>, root: string, j: nat)
    requires j < |rows| && root in branches && !Applies(rows, root, branches[root])
    ensures Shown(rows, branches, j) == Shown(rows, branches - {root}, j)
  {
    hide Applies, Index, Hidden, Hides;
    HiddenWithoutIncomplete(rows, branches, root, j);
    assert Replaced(rows, branches, j) <==> Replaced(rows, branches - {root}, j);
  }

  lemma HiddenWithoutIncomplete(rows: seq<Row>, branches: map<string, Branch>, root: string, j: nat)
    requires root in branches && !Applies(rows, root, branches[root])
    ensures Hidden(rows, branches, j) <==> Hidden(rows, branches - {root}, j)
  {
    var fewer := branches - {root};
    assert !Hides(rows, root, branches[root], j);
    hide Hides, Applies;
    if r :| r in branches && Hides(rows, r, branches[r], j) {
      assert r in fewer && fewer[r] == branches[r];
    }
    if r :| r in fewer && Hides(rows, r, fewer[r], j) {
      assert branches[r] == fewer[r];
    }
  }
}
