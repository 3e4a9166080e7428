/** What path text means, told from its characters, and what a write leaves on the way to its target. */
module ConfigPathLaws {
  import opened Json
  import opened ConfigDirty
  import opened ConfigPaths

  // ---- the path syntax ----

  /** A bracketed index stands in `s` from `i` to `j`. */
  predicate IndexAt(s: string, i: nat, j: nat) {
    i + 1 < j < |s| && s[i] == '[' && s[j] == ']' && forall k :: i < k < j ==> '0' <= s[k] <= '9'
  }

  lemma {:induction false} RunStopsAt(s: string, rest: string)
    requires rest == "" || !('0' <= rest[0] <= '9')
    ensures DigitRun(s + rest) == DigitRun(s)
  {
    if s == "" {
      assert s + rest == rest;
    } else {
      assert (s + rest)[1..] == s[1..] + rest;
      RunStopsAt(s[1..], rest);
    }
  }

  lemma StartsAlike(a: string, b: string)
    requires a != "" && b != "" && (b[0] == '.' || b[0] == '[')
    ensures StartsWithIndex(a + b) <==> StartsWithIndex(a)
    ensures DigitRun((a + b)[1..]) == DigitRun(a[1..])
  {
    assert (a + b)[1..] == a[1..] + b;
    RunStopsAt(a[1..], b);
    var n := DigitRun(a[1..]);
    assert n + 1 == |a| ==> (a + b)[n + 1] == b[0];
  }

  lemma IndexSplitsOff(s: string)
    requires StartsWithIndex(s)
    ensures var n := DigitRun(s[1..]);
      n + 2 <= |s| && IndexesToDots(s) == "." + s[1..n + 1] + IndexesToDots(s[n + 2..])
  {
  }

  lemma CharSplitsOff(s: string)
    requires s != "" && !StartsWithIndex(s)
    ensures IndexesToDots(s) == [s[0]] + IndexesToDots(s[1..])
  {
  }

  lemma NoText()
    ensures IndexesToDots("") == ""
  {
  }

  lemma Grouped(a: string, b: string, c: string)
    ensures a + (b + c) == (a + b) + c
  {
  }

  lemma Parts(a: string, b: string, n: nat)
    requires n + 1 < |a|
    ensures (a + b)[1..] == a[1..] + b && (a + b)[n + 2..] == a[n + 2..] + b && (a + b)[1..n + 1] == a[1..n + 1]
  {
  }

  /** No index reaches across a dot or an opening bracket. */
  lemma {:induction false} IndexesApart(a: string, b: string)
    requires b != "" && (b[0] == '.' || b[0] == '[')
    ensures IndexesToDots(a + b) == IndexesToDots(a) + IndexesToDots(b)
  {
    NoText();
    hide IndexesToDots, StartsWithIndex, DigitRun;
    if a == "" {
      assert a + b == b && "" + IndexesToDots(b) == IndexesToDots(b);
    } else {
      var s, n := a + b, DigitRun(a[1..]);
      StartsAlike(a, b);
      if StartsWithIndex(a) {
        IndexSplitsOff(a);
        IndexSplitsOff(s);
        Parts(a, b, n);
        IndexesApart(a[n + 2..], b);
        Grouped("." + a[1..n + 1], IndexesToDots(a[n + 2..]), IndexesToDots(b));
      } else {
        CharSplitsOff(a);
        CharSplitsOff(s);
        assert s[1..] == a[1..] + b;
        IndexesApart(a[1..], b);
        Grouped([a[0]], IndexesToDots(a[1..]), IndexesToDots(b));
      }
    }
  }

  lemma DotStays(s: string)
    ensures IndexesToDots("." + s) == "." + IndexesToDots(s)
  {
    assert ("." + s)[1..] == s;
  }

  lemma {:induction false} SplitApart(a: string, b: string)
    ensures SplitOnDots(a + "." + b) == SplitOnDots(a) + SplitOnDots(b)
  {
    var s := a + "." + b;
    if a == "" {
      assert s[1..] == b;
    } else {
      assert s[1..] == a[1..] + "." + b;
      SplitApart(a[1..], b);
    }
  }

  lemma {:induction false} NonEmptyApart(a: seq<string>, b: seq<string>)
    ensures NonEmpty(a + b) == NonEmpty(a) + NonEmpty(b)
  {
    if a == [] {
      assert a + b == b;
    } else {
      assert (a + b)[1..] == a[1..] + b;
      NonEmptyApart(a[1..], b);
    }
  }

  /** A dot puts two paths one behind the other. */
  lemma DotJoins(a: string, b: string)
    ensures ParsePath(a + "." + b) == ParsePath(a) + ParsePath(b)
  {
    hide SplitOnDots, NonEmpty, IndexesToDots;
    assert a + "." + b == a + ("." + b);
    IndexesApart(a, "." + b);
    DotStays(b);
    var x, y := IndexesToDots(a), IndexesToDots(b);
    assert x + ("." + y) == x + "." + y;
    SplitApart(x, y);
    NonEmptyApart(SplitOnDots(x), SplitOnDots(y));
  }

  lemma IndexTurns(d: string, b: string)
    requires d != "" && forall i :: 0 <= i < |d| ==> '0' <= d[i] <= '9'
    ensures IndexesToDots("[" + d + "]" + b) == "." + d + IndexesToDots(b)
  {
    var s := "[" + d + "]" + b;
    assert s[1..] == d + ("]" + b);
    DigitsRunOut(d, "]" + b);
    assert s[1..|d| + 1] == d && s[|d| + 2..] == b;
  }

  /** An index in brackets is a key behind a dot, wherever it stands. */
  lemma IndexIsKey(a: string, d: string, b: string)
    requires d != "" && forall i :: 0 <= i < |d| ==> '0' <= d[i] <= '9'
    ensures ParsePath(a + "[" + d + "]" + b) == ParsePath(a + "." + d + b)
  {
    hide SplitOnDots, NonEmpty, IndexesToDots;
    var indexed, dotted := "[" + d + "]" + b, "." + (d + b);
    IndexesApart(a, indexed);
    IndexesApart(a, dotted);
    DotStays(d + b);
    PlainTextStays(d, b);
    IndexTurns(d, b);
    assert IndexesToDots(indexed) == IndexesToDots(dotted);
    assert a + "[" + d + "]" + b == a + indexed && a + "." + d + b == a + dotted;
  }

  /** Text with no dot and no bracketed index is a single key, or none if it is empty. */
  lemma PlainTextIsOneKey(s: string)
    requires '.' !in s && forall i, j :: !IndexAt(s, i, j)
    ensures ParsePath(s) == if s == "" then [] else [s]
  {
    NoIndexToReplace(s);
    SplitKey(s, "");
    assert s + "" == s;
    assert SplitOnDots(s) == [s];
    assert [s][1..] == [] && NonEmpty([]) == [];
  }

  lemma {:induction false} NoIndexToReplace(s: string)
    requires forall i, j :: !IndexAt(s, i, j)
    ensures IndexesToDots(s) == s
  {
    if s != "" {
      if StartsWithIndex(s) {
        var n := DigitRun(s[1..]);
        assert forall k :: 0 < k < n + 1 ==> s[k] == s[1..][k - 1];
        assert IndexAt(s, 0, n + 1);
      }
      forall i: nat, j: nat ensures !IndexAt(s[1..], i, j) {
        if IndexAt(s[1..], i, j) {
          assert forall k :: i + 1 < k < j + 1 ==> s[k] == s[1..][k - 1];
          assert IndexAt(s, i + 1, j + 1);
        }
      }
      NoIndexToReplace(s[1..]);
    }
  }

  // ---- a write ----

  /** A container on the way to the target stays what it is, with its members; where there was none, an array
      is made if the next key is a run of digits, and an object otherwise. */
  lemma {:induction false} ContainersOnTheWay(v: Json, p: Path, x: Json, n: nat)
    requires v.Node? && n < |p|
    ensures var c, w := At(v, p[..n]), At(SetAt(v, p, x), p[..n]);
      && w.Node?
      && (c.Node? ==> w.isArray == c.isArray && w.m - {p[n]} == c.m - {p[n]})
      && (!c.Node? ==> w.m - {p[n]} == map[])
      && (!c.Node? ==> (w.isArray <==> p[n] != "" && forall i :: 0 <= i < |p[n]| ==> '0' <= p[n][i] <= '9'))
    decreases p
  {
    if n == 0 {
      assert p[..0] == [];
    } else {
      var child := Get(v, p[0]);
      AtStep(v, p, n);
      AtStep(SetAt(v, p, x), p, n);
      ContainersOnTheWay(Opened(child, p[1]), p[1..], x, n - 1);
      if !child.Node? {
        NothingOrFresh(child, IsDigits(p[1]), p[1..][..n - 1]);
      }
    }
  }

  /** In place of a value that is no container, a fresh one has nothing below it either. */
  lemma NothingOrFresh(child: Json, isArray: bool, q: Path)
    requires !child.Node?
    ensures q != [] ==> At(child, q) == Undefined && At(Node(isArray, map[]), q) == Undefined
  {
    if q != [] {
      NothingBelow(child, q);
      EmptyBelow(isArray, q);
    }
  }

  /** At the target the member is there with the value written, or not there at all when that was undefined. */
  lemma {:induction false} TargetMember(v: Json, p: Path, x: Json)
    requires v.Node? && p != []
    ensures var k := p[|p| - 1]; var w := At(SetAt(v, p, x), p[..|p| - 1]);
      w.Node? && (k in w.m <==> x != Undefined) && (x != Undefined ==> w.m[k] == x)
    decreases p
  {
    if |p| == 1 {
      assert p[..0] == [];
    } else {
      AtStep(SetAt(v, p, x), p, |p| - 1);
      TargetMember(Opened(Get(v, p[0]), p[1]), p[1..], x);
    }
  }
}
