/** Reading stored branches back in whatever shape they are (src/lib/chat/response-tree.ts:11-37). */
module TurnNormalize {
  import opened Wrappers
  import opened TurnBranches

  datatype RawKey = Text(text: string) | NotText
  datatype RawNumber = Whole(n: int) | NotWhole
  /** An entry of the stored object: anything but an object, or an object with these two members. */
  datatype RawBranch = NotObject | Object(attempts: Option<seq<RawKey>>, active: RawNumber)

  /** The non-empty texts of a list, each at its first place. */
  function FirstTexts(keys: seq<RawKey>): (r: seq<string>)
    ensures forall i, j :: 0 <= i < j < |r| ==> r[i] != r[j]
    ensures forall s :: s in r <==> s != "" && Text(s) in keys
  {
    if keys == [] then []
    else
      var last := keys[|keys| - 1];
      var r := FirstTexts(keys[..|keys| - 1]);
      assert keys == keys[..|keys| - 1] + [last];
      if last.Text? && last.text != "" && last.text !in r then r + [last.text] else r
  }

  /** s stands in the list before t does. */
  ghost predicate Before(keys: seq<RawKey>, s: string, t: string) {
    exists i :: 0 <= i < |keys| && keys[i] == Text(s) && forall j :: 0 <= j <= i ==> keys[j] != Text(t)
  }

  /** The texts keep the order in which they first stand in the list. */
  lemma {:induction false} FirstTextsInOrder(keys: seq<RawKey>, a: nat, b: nat)
    requires a < b < |FirstTexts(keys)|
    ensures Before(keys, FirstTexts(keys)[a], FirstTexts(keys)[b])
  {
    var front := keys[..|keys| - 1];
    var r := FirstTexts(front);
    var s, t := FirstTexts(keys)[a], FirstTexts(keys)[b];
    if b < |r| {
      FirstTextsInOrder(front, a, b);
      var i :| 0 <= i < |front| && front[i] == Text(s) && forall j :: 0 <= j <= i ==> front[j] != Text(t);
      assert keys[i] == Text(s) && forall j :: 0 <= j <= i ==> keys[j] == front[j];
    } else {
      assert s in r && t !in r;
      var i :| 0 <= i < |front| && front[i] == Text(s);
      assert keys[i] == Text(s) && forall j :: 0 <= j <= i ==> keys[j] == front[j] && front[j] in front;
    }
  }

  /** The members kept from a stored entry. */
  function Attempts(b: RawBranch): seq<string> {
    if b.Object? && b.attempts.Some? then FirstTexts(b.attempts.value) else []
  }

  predicate Keeps(root: string, b: RawBranch) {
    b.Object? && b.attempts.Some? && root != "" && Text(root) in b.attempts.value
  }

  /** Attempts are distinct non-empty keys, the root among them, and one of them is active. */
  ghost predicate WellFormed(root: string, b: Branch) {
    && (forall i, j :: 0 <= i < j < |b.attempts| ==> b.attempts[i] != b.attempts[j])
    && "" !in b.attempts
    && root in b.attempts
    && 0 <= b.active < |b.attempts|
  }

  method DistinctTexts(keys: seq<RawKey>) returns (r: seq<string>)
    ensures r == FirstTexts(keys)
  {
    r := [];
    for i := 0 to |keys|
      invariant r == FirstTexts(keys[..i])
    {
      assert keys[..i + 1][..i] == keys[..i];
      match keys[i]
      case Text(s) =>
        if |s| > 0 && s !in r {
          r := r + [s];
        }
      case NotText =>
    }
    assert keys[..|keys|] == keys;
  }

  /** The active attempt asked for, brought into range; the last one when none was. */
  ghost predicate ActiveAsAsked(asked: RawNumber, count: nat, active: int) {
    match asked
    case NotWhole => active == count - 1
    case Whole(n) => active == if n < 0 then 0 else if n < count then n else count - 1
  }

  ghost predicate Normalizes(root: string, raw: RawBranch, b: Branch) {
    && WellFormed(root, b)
    && b.attempts == Attempts(raw)
    && ActiveAsAsked(if raw.Object? then raw.active else NotWhole, |b.attempts|, b.active)
  }

  method NormalizeBranch(root: string, candidate: RawBranch) returns (branch: Option<Branch>)
    ensures branch.Some? <==> Keeps(root, candidate)
    ensures branch.Some? ==> Normalizes(root, candidate, branch.value)
  {
    if candidate.NotObject? {
      return None;
    }
    var attempts := [];
    if candidate.attempts.Some? {
      attempts := DistinctTexts(candidate.attempts.value);
    }
    if |attempts| == 0 || root !in attempts {
      return None;
    }
    var requested := if candidate.active.Whole? then candidate.active.n else |attempts| - 1;
    return Some(Branch(attempts, Max(0, Min(|attempts| - 1, requested))));
  }

  method NormalizeTurnBranches(value: Option<map<string, RawBranch>>) returns (normalized: map<string, Branch>)
    ensures value.None? ==> normalized == map[]
    ensures value.Some? ==> forall root :: root in normalized <==>
      root in value.value && Keeps(root, value.value[root])
    ensures value.Some? ==> forall root <- normalized :: Normalizes(root, value.value[root], normalized[root])
  {
    hide Keeps, Normalizes;
    normalized := map[];
    if value.None? {
      return;
    }
    var todo := value.value.Keys;
    while todo != {}
      invariant todo <= value.value.Keys
      invariant forall root :: root in normalized <==>
        root in value.value && root !in todo && Keeps(root, value.value[root])
      invariant forall root <- normalized :: Normalizes(root, value.value[root], normalized[root])
    {
      var root :| root in todo;
      todo := todo - {root};
      var branch := NormalizeBranch(root, value.value[root]);
      if branch.Some? {
        normalized := normalized[root := branch.value];
      }
    }
  }

  function Max(a: int, b: int): int { if a < b then b else a }

  function Min(a: int, b: int): int { if a < b then a else b }

  /** A normalized branch takes effect exactly when all its attempts are loaded. */
  lemma NormalizedApplies(rows: seq<Row>, root: string, b: Branch)
    requires WellFormed(root, b)
    ensures Applies(rows, root, b) <==> forall a :: 0 <= a < |b.attempts| ==> Index(rows, b.attempts[a]).Some?
  {
    var a :| 0 <= a < |b.attempts| && b.attempts[a] == root;
  }
}
