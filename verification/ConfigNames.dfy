/** The names dirty paths are reported under: keys joined by dots (config-schema.ts:315-341). */
module ConfigNames {
  import opened ConfigDirty
  import opened ConfigPaths

  /** One key further; an empty prefix leaves no dot. */
  function Joined(prefix: string, key: string): string {
    if prefix == "" then key else prefix + "." + key
  }

  function NameFrom(prefix: string, p: Path): string
    decreases p
  {
    if p == [] then prefix else NameFrom(Joined(prefix, p[0]), p[1..])
  }

  function Name(p: Path): string { NameFrom("", p) }

  /** What stands between the dots of the keys. */
  function Segments(p: Path): seq<string> {
    if p == [] then [] else SplitOnDots(p[0]) + Segments(p[1..])
  }

  /** Empty keys at the front leave no trace in a name. */
  function FromFirstKey(p: Path): (q: Path)
    ensures q != [] ==> q[0] != ""
  {
    if p == [] || p[0] != "" then p else FromFirstKey(p[1..])
  }

  lemma {:induction false} SplitOfJoin(a: string, b: string)
    ensures SplitOnDots(a + "." + b) == SplitOnDots(a) + SplitOnDots(b)
  {
    if a == "" {
      assert (a + "." + b)[1..] == b;
    } else {
      assert (a + "." + b)[1..] == a[1..] + "." + b;
      SplitOfJoin(a[1..], b);
    }
  }

  function JoinDots(parts: seq<string>): string
    requires parts != []
  {
    if |parts| == 1 then parts[0] else parts[0] + "." + JoinDots(parts[1..])
  }

  lemma {:induction false} JoinUndoesSplit(s: string)
    ensures JoinDots(SplitOnDots(s)) == s
  {
    if s != "" {
      var rest := SplitOnDots(s[1..]);
      JoinUndoesSplit(s[1..]);
      assert s == [s[0]] + s[1..];
      if s[0] == '.' {
        assert ([""] + rest)[1..] == rest;
      } else {
        assert ([[s[0]] + rest[0]] + rest[1..])[1..] == rest[1..];
      }
    }
  }

  lemma {:induction false} NameSplits(prefix: string, p: Path)
    requires prefix != ""
    ensures NameFrom(prefix, p) != "" && SplitOnDots(NameFrom(prefix, p)) == SplitOnDots(prefix) + Segments(p)
    decreases p
  {
    hide SplitOnDots;
    if p != [] {
      var next := prefix + "." + p[0];
      SplitOfJoin(prefix, p[0]);
      NameSplits(next, p[1..]);
      Regroup(SplitOnDots(prefix), SplitOnDots(p[0]), Segments(p[1..]));
    }
  }

  lemma Regroup(a: seq<string>, b: seq<string>, c: seq<string>)
    ensures (a + b) + c == a + (b + c)
  {
  }

  lemma {:induction false} EmptyKeysVanish(p: Path)
    ensures Name(p) == Name(FromFirstKey(p))
  {
    if p != [] && p[0] == "" {
      EmptyKeysVanish(p[1..]);
    }
  }

  lemma NameOfRest(p: Path)
    ensures var q := FromFirstKey(p);
      && (q == [] ==> Name(p) == "")
      && (q != [] ==> Name(p) != "" && SplitOnDots(Name(p)) == Segments(q))
  {
    EmptyKeysVanish(p);
    var q := FromFirstKey(p);
    if q != [] {
      NameSplits(q[0], q[1..]);
    }
  }

  /** Two paths are reported under one name exactly when, but for empty keys in front, their keys have
      the same parts between dots. */
  lemma SameNameExactly(p: Path, q: Path)
    ensures Name(p) == Name(q) <==> Segments(FromFirstKey(p)) == Segments(FromFirstKey(q))
  {
    NameOfRest(p);
    NameOfRest(q);
    SegmentsOfSome(FromFirstKey(p));
    SegmentsOfSome(FromFirstKey(q));
    if Name(p) != "" && Name(q) != "" && Segments(FromFirstKey(p)) == Segments(FromFirstKey(q)) {
      JoinUndoesSplit(Name(p));
      JoinUndoesSplit(Name(q));
    }
  }

  lemma SegmentsOfSome(p: Path)
    ensures Segments(p) == [] <==> p == []
  {
  }

  lemma {:induction false} DotlessSegments(p: Path)
    requires forall i :: 0 <= i < |p| ==> '.' !in p[i]
    ensures Segments(p) == p
  {
    if p != [] {
      SplitKey(p[0], "");
      assert p[0] + "" == p[0];
      DotlessSegments(p[1..]);
    }
  }

  /** Paths whose keys are not empty and hold no dots have names of their own. */
  lemma NamesApart(p: Path, q: Path)
    requires forall i :: 0 <= i < |p| ==> p[i] != "" && '.' !in p[i]
    requires forall i :: 0 <= i < |q| ==> q[i] != "" && '.' !in q[i]
    ensures Name(p) == Name(q) ==> p == q
  {
    SameNameExactly(p, q);
    DotlessSegments(p);
    DotlessSegments(q);
  }

  /** The name of a path of plain keys parses back to it, so it can be read and written under that name. */
  lemma NameParsesBack(p: Path)
    requires forall i :: 0 <= i < |p| ==> IsPlainKey(p[i])
    ensures ParsePath(Name(p)) == p
  {
    var none := seq(|p|, _ => false);
    ParseUndoesText(p, none);
    if p != [] {
      NameIsText(p[0], p[1..], none[1..]);
    }
  }

  lemma {:induction false} NameIsText(prefix: string, p: Path, none: seq<bool>)
    requires prefix != "" && |none| == |p| && forall i :: 0 <= i < |p| ==> !none[i]
    ensures NameFrom(prefix, p) == prefix + Render(p, none)
    decreases p
  {
    if p == [] {
      assert prefix + "" == prefix;
    } else {
      NameIsText(Joined(prefix, p[0]), p[1..], none[1..]);
      assert prefix + "." + p[0] + Render(p[1..], none[1..]) == prefix + ("." + p[0] + Render(p[1..], none[1..]));
    }
  }
}
