/** Retry branches of a chat transcript, projected into one slot per turn (src/lib/chat/response-tree.ts). */
module TurnBranches {
  import opened Wrappers

  datatype Role = User | Assistant
  datatype Row = Row(key: string, role: Role)
  datatype Branch = Branch(attempts: seq<string>, active: int)

  // ---- Looking rows up ----

  /** The row a key names: the last one, as in a Map built from the rows. */
  function Index(rows: seq<Row>, key: string): (i: Option<nat>)
    ensures i.Some? ==> i.value < |rows| && rows[i.value].key == key
    ensures i.Some? ==> forall j :: i.value < j < |rows| ==> rows[j].key != key
    ensures i.None? ==> forall j :: 0 <= j < |rows| ==> rows[j].key != key
  {
    if rows == [] then None
    else if rows[|rows| - 1].key == key then Some(|rows| - 1)
    else Index(rows[..|rows| - 1], key)
  }

  method BuildIndex(rows: seq<Row>) returns (byKey: map<string, nat>)
    ensures forall k :: k in byKey <==> Index(rows, k).Some?
    ensures forall k <- byKey :: Index(rows, k) == Some(byKey[k])
  {
    byKey := map[];
    for i := 0 to |rows|
      invariant forall k :: k in byKey <==> Index(rows[..i], k).Some?
      invariant forall k <- byKey :: Index(rows[..i], k) == Some(byKey[k])
    {
      assert rows[..i + 1][..i] == rows[..i];
      byKey := byKey[rows[i].key := i];
    }
    assert rows[..|rows|] == rows;
  }

  /** Where the turn that starts at `start` ends: the next user row after it. */
  function TurnEnd(rows: seq<Row>, start: nat): (end: nat)
    requires start < |rows|
    ensures start < end <= |rows|
    ensures forall j :: start < j < end ==> rows[j].role != User
    ensures end == |rows| || rows[end].role == User
    decreases |rows| - start
  {
    if start + 1 == |rows| || rows[start + 1].role == User then start + 1 else TurnEnd(rows, start + 1)
  }

  lemma {:induction false} TurnEndIs(rows: seq<Row>, start: nat, end: nat)
    requires start < end <= |rows|
    requires forall j :: start < j < end ==> rows[j].role != User
    requires end == |rows| || rows[end].role == User
    ensures TurnEnd(rows, start) == end
    decreases end - start
  {
    if start + 1 < end {
      assert rows[start + 1].role != User;
      TurnEndIs(rows, start + 1, end);
    }
  }

  method FindTurnEnd(rows: seq<Row>, start: nat) returns (end: nat)
    requires start < |rows|
    ensures end == TurnEnd(rows, start)
  {
    end := start + 1;
    while end < |rows| && rows[end].role != User
      invariant start < end <= |rows|
      invariant forall j :: start < j < end ==> rows[j].role != User
    {
      end := end + 1;
    }
    TurnEndIs(rows, start, end);
  }

  function TurnAt(rows: seq<Row>, start: nat): seq<Row>
    requires start < |rows|
  {
    rows[start..TurnEnd(rows, start)]
  }

  predicate InTurn(rows: seq<Row>, start: nat, j: int) {
    start < |rows| && start <= j < TurnEnd(rows, start)
  }

  // ---- The projection, index by index ----

  function ActiveKey(root: string, b: Branch): string {
    if 0 <= b.active < |b.attempts| then b.attempts[b.active] else root
  }

  /** The branch takes effect: its root, its active attempt and all its attempts are in the transcript. */
  predicate Applies(rows: seq<Row>, root: string, b: Branch) {
    && Index(rows, root).Some?
    && Index(rows, ActiveKey(root, b)).Some?
    && forall a :: 0 <= a < |b.attempts| ==> Index(rows, b.attempts[a]).Some?
  }

  predicate Swaps(rows: seq<Row>, root: string, b: Branch) {
    Applies(rows, root, b) && Index(rows, ActiveKey(root, b)) != Index(rows, root)
  }

  predicate HidesAttempt(rows: seq<Row>, root: string, b: Branch, a: int, j: int)
    requires Applies(rows, root, b) && 0 <= a < |b.attempts|
  {
    var i := Index(rows, b.attempts[a]);
    i != Index(rows, root) && InTurn(rows, i.value, j)
  }

  predicate Hides(rows: seq<Row>, root: string, b: Branch, j: int) {
    && Applies(rows, root, b)
    && ((exists a :: 0 <= a < |b.attempts| && HidesAttempt(rows, root, b, a, j)) ||
        (Swaps(rows, root, b) && InTurn(rows, Index(rows, root).value, j)))
  }

  predicate Hidden(rows: seq<Row>, branches: map<string, Branch>, j: int) {
    exists root :: root in branches && Hides(rows, root, branches[root], j)
  }

  predicate Replaced(rows: seq<Row>, branches: map<string, Branch>, j: nat)
    requires j < |rows|
  {
    var k := rows[j].key;
    k in branches && Index(rows, k) == Some(j) && Swaps(rows, k, branches[k])
  }

  /** What the result shows for row j. */
  function Shown(rows: seq<Row>, branches: map<string, Branch>, j: nat): seq<Row>
    requires j < |rows|
  {
    if Replaced(rows, branches, j) then
      TurnAt(rows, Index(rows, ActiveKey(rows[j].key, branches[rows[j].key])).value)
    else if Hidden(rows, branches, j) then []
    else [rows[j]]
  }

  function Projection(rows: seq<Row>, branches: map<string, Branch>, from: nat): seq<Row>
    requires from <= |rows|
    decreases |rows| - from
  {
    if from == |rows| then [] else Shown(rows, branches, from) + Projection(rows, branches, from + 1)
  }

  // ---- The projection, in place ----

  method HideTurn(rows: seq<Row>, start: nat, before: set<int>) returns (hidden: set<int>)
    requires start < |rows|
    ensures forall j: int :: j in hidden <==> j in before || InTurn(rows, start, j)
  {
    hidden := before;
    var end := FindTurnEnd(rows, start);
    for i := start to end
      invariant forall j: int :: j in hidden <==> j in before || start <= j < i
    {
      hidden := hidden + {i};
    }
  }

  ghost predicate HidesBefore(rows: seq<Row>, root: string, b: Branch, n: nat, j: int)
    requires Applies(rows, root, b) && n <= |b.attempts|
  {
    exists a :: 0 <= a < n && HidesAttempt(rows, root, b, a, j)
  }

  lemma HidesOneMore(rows: seq<Row>, root: string, b: Branch, n: nat, j: int)
    requires Applies(rows, root, b) && n < |b.attempts|
    ensures HidesBefore(rows, root, b, n + 1, j) <==>
            HidesBefore(rows, root, b, n, j) || HidesAttempt(rows, root, b, n, j)
  {
  }

  /** One pass of the loop over the branches: what this branch hides. */
  method HideBranch(rows: seq<Row>, byKey: map<string, nat>, root: string, b: Branch, before: set<int>)
    returns (hidden: set<int>)
    requires forall k <- byKey :: Index(rows, k) == Some(byKey[k])
    requires Applies(rows, root, b)
    requires root in byKey && forall a :: 0 <= a < |b.attempts| ==> b.attempts[a] in byKey
    ensures forall j: int :: j in hidden <==> j in before || Hides(rows, root, b, j)
  {
    hidden := before;
    for i := 0 to |b.attempts|
      invariant forall j: int :: j in hidden <==> j in before || HidesBefore(rows, root, b, i, j)
    {
      forall j: int ensures HidesBefore(rows, root, b, i + 1, j) <==>
                            HidesBefore(rows, root, b, i, j) || HidesAttempt(rows, root, b, i, j)
      {
        HidesOneMore(rows, root, b, i, j);
      }
      var attemptIndex := byKey[b.attempts[i]];
      if attemptIndex != byKey[root] {
        hidden := HideTurn(rows, attemptIndex, hidden);
      }
    }
    if Swaps(rows, root, b) {
      hidden := HideTurn(rows, byKey[root], hidden);
    }
  }

  ghost predicate HidesSoFar(rows: seq<Row>, branches: map<string, Branch>, todo: set<string>, j: int) {
    exists root :: root in branches && root !in todo && Hides(rows, root, branches[root], j)
  }

  ghost predicate ReplacedSoFar(rows: seq<Row>, branches: map<string, Branch>, todo: set<string>, j: nat) {
    j < |rows| && rows[j].key !in todo && Replaced(rows, branches, j)
  }

  lemma VisitRootHides(rows: seq<Row>, branches: map<string, Branch>, todo: set<string>, root: string, j: int)
    requires root in todo && todo <= branches.Keys
    ensures HidesSoFar(rows, branches, todo - {root}, j) <==>
      HidesSoFar(rows, branches, todo, j) || Hides(rows, root, branches[root], j)
  {
    hide Hides;
    if HidesSoFar(rows, branches, todo, j) {
      var r :| r in branches && r !in todo && Hides(rows, r, branches[r], j);
      assert r !in todo - {root};
    }
    assert root !in todo - {root};
  }

  lemma VisitRootReplaces(rows: seq<Row>, branches: map<string, Branch>, todo: set<string>, root: string, j: nat)
    requires root in todo && todo <= branches.Keys
    ensures ReplacedSoFar(rows, branches, todo - {root}, j) <==>
      ReplacedSoFar(rows, branches, todo, j) ||
      (Swaps(rows, root, branches[root]) && Index(rows, root) == Some(j))
  {
    hide Swaps;
  }

  lemma VisitRoot(rows: seq<Row>, branches: map<string, Branch>, todo: set<string>, root: string)
    requires root in todo && todo <= branches.Keys
    ensures forall j: int :: HidesSoFar(rows, branches, todo - {root}, j) <==>
      HidesSoFar(rows, branches, todo, j) || Hides(rows, root, branches[root], j)
    ensures forall j: nat :: ReplacedSoFar(rows, branches, todo - {root}, j) <==>
      ReplacedSoFar(rows, branches, todo, j) ||
      (Swaps(rows, root, branches[root]) && Index(rows, root) == Some(j))
  {
    hide Hides, HidesSoFar, ReplacedSoFar, Swaps;
    forall j: int ensures HidesSoFar(rows, branches, todo - {root}, j) <==>
      HidesSoFar(rows, branches, todo, j) || Hides(rows, root, branches[root], j)
    {
      VisitRootHides(rows, branches, todo, root, j);
    }
    forall j: nat ensures ReplacedSoFar(rows, branches, todo - {root}, j) <==>
      ReplacedSoFar(rows, branches, todo, j) || (Swaps(rows, root, branches[root]) && Index(rows, root) == Some(j))
    {
      VisitRootReplaces(rows, branches, todo, root, j);
    }
  }

  /** The loop over the branches, which are visited in any order. */
  method VisitBranches(rows: seq<Row>, branches: map<string, Branch>)
    returns (hidden: set<int>, replacement: map<nat, seq<Row>>)
    ensures forall j: int :: j in hidden <==> Hidden(rows, branches, j)
    ensures forall j: nat :: j in replacement <==> j < |rows| && Replaced(rows, branches, j)
    ensures forall j: nat :: j in replacement ==> replacement[j] == Shown(rows, branches, j)
  {
    var byKey := BuildIndex(rows);
    hidden, replacement := {}, map[];
    var todo := branches.Keys;
    while todo != {}
      invariant todo <= branches.Keys
      invariant forall j: int :: j in hidden <==> HidesSoFar(rows, branches, todo, j)
      invariant forall j: nat :: j in replacement <==> ReplacedSoFar(rows, branches, todo, j)
      invariant forall j: nat :: j in replacement ==> replacement[j] == Shown(rows, branches, j)
    {
      hide Hides, HidesSoFar, ReplacedSoFar;
      var root :| root in todo;
      var branch := branches[root];
      VisitRoot(rows, branches, todo, root);
      HidesOnlyIfApplies(rows, root, branch);
      if root in byKey && ActiveKey(root, branch) in byKey {
        if forall a :: 0 <= a < |branch.attempts| ==> branch.attempts[a] in byKey {
          hidden := HideBranch(rows, byKey, root, branch, hidden);
          var activeIndex := byKey[ActiveKey(root, branch)];
          if activeIndex != byKey[root] {
            var end := FindTurnEnd(rows, activeIndex);
            replacement := replacement[byKey[root] := rows[activeIndex..end]];
          }
        }
      }
      todo := todo - {root};
    }
  }

  lemma HidesOnlyIfApplies(rows: seq<Row>, root: string, b: Branch)
    ensures !Applies(rows, root, b) ==> forall j: int :: !Hides(rows, root, b, j)
  {
  }

  /** Row by row, what the first n rows show; with the rest it makes up the projection. */
  function ShownBefore(rows: seq<Row>, branches: map<string, Branch>, n: nat): seq<Row>
    requires n <= |rows|
  {
    if n == 0 then [] else ShownBefore(rows, branches, n - 1) + Shown(rows, branches, n - 1)
  }

  lemma {:induction false} ShownThenRest(rows: seq<Row>, branches: map<string, Branch>, n: nat)
    requires n <= |rows|
    ensures ShownBefore(rows, branches, n) + Projection(rows, branches, n) == Projection(rows, branches, 0)
  {
    hide Shown;
    if n > 0 {
      ShownThenRest(rows, branches, n - 1);
      var shown := Shown(rows, branches, n - 1);
      assert ShownBefore(rows, branches, n - 1) + (shown + Projection(rows, branches, n))
          == (ShownBefore(rows, branches, n - 1) + shown) + Projection(rows, branches, n);
    }
  }

  lemma ShownUnreplaced(rows: seq<Row>, branches: map<string, Branch>, j: nat)
    requires j < |rows|
    ensures !Replaced(rows, branches, j) ==>
      Shown(rows, branches, j) == if Hidden(rows, branches, j) then [] else [rows[j]]
  {
  }

  lemma ShownOneMore(rows: seq<Row>, branches: map<string, Branch>, n: nat)
    requires n < |rows|
    ensures ShownBefore(rows, branches, n + 1) == ShownBefore(rows, branches, n) + Shown(rows, branches, n)
  {
  }

  method ProjectTurnBranches(rows: seq<Row>, branches: map<string, Branch>) returns (result: seq<Row>)
    ensures result == Projection(rows, branches, 0)
  {
    var hidden, replacement := VisitBranches(rows, branches);
    result := [];
    assert ShownBefore(rows, branches, 0) == [];
    hide Hidden, Replaced, Shown, ShownBefore, Projection;
    for i := 0 to |rows|
      invariant result == ShownBefore(rows, branches, i)
    {
      ShownUnreplaced(rows, branches, i);
      ShownOneMore(rows, branches, i);
      if i in replacement {
        result := result + replacement[i];
      } else if i !in hidden {
        result := result + [rows[i]];
      }
    }
    ShownThenRest(rows, branches, |rows|);
    NothingBehind(rows, branches);
  }

  lemma NothingBehind(rows: seq<Row>, branches: map<string, Branch>)
    ensures Projection(rows, branches, |rows|) == []
  {
  }
}
