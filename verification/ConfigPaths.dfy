/** Reading and writing a configuration by path, and the path syntax. */
module ConfigPaths {
  import opened Json
  import opened ConfigDirty

  // ---- the path syntax ----

  predicate IsDigit(c: char) { '0' <= c <= '9' }

  predicate IsDigits(s: string) { s != "" && forall i :: 0 <= i < |s| ==> IsDigit(s[i]) }

  /** How many digits `s` begins with. */
  function DigitRun(s: string): (n: nat)
    ensures n <= |s| && (forall i :: 0 <= i < n ==> IsDigit(s[i])) && (n < |s| ==> !IsDigit(s[n]))
  {
    if s == "" || !IsDigit(s[0]) then 0 else 1 + DigitRun(s[1..])
  }

  /** `s` begins with a bracketed index. */
  predicate StartsWithIndex(s: string) {
    s != "" && s[0] == '[' && (var n := DigitRun(s[1..]); n > 0 && n + 1 < |s| && s[n + 1] == ']')
  }

  /** Every `[12]` becomes `.12`. */
  function IndexesToDots(s: string): string {
    if s == "" then ""
    else if StartsWithIndex(s) then
      var n := DigitRun(s[1..]);
      "." + s[1..n + 1] + IndexesToDots(s[n + 2..])
    else [s[0]] + IndexesToDots(s[1..])
  }

  function SplitOnDots(s: string): (parts: seq<string>)
    ensures parts != []
  {
    if s == "" then [""]
    else
      var rest := SplitOnDots(s[1..]);
      if s[0] == '.' then [""] + rest else [[s[0]] + rest[0]] + rest[1..]
  }

  function NonEmpty(parts: seq<string>): seq<string> {
    if parts == [] then [] else (if parts[0] == "" then [] else [parts[0]]) + NonEmpty(parts[1..])
  }

  function ParsePath(path: string): Path {
    NonEmpty(SplitOnDots(IndexesToDots(path)))
  }

  /** A key that can stand in a path as it is. */
  predicate IsPlainKey(k: string) { k != "" && '.' !in k && '[' !in k }

  /** The keys in path syntax; an index key may be written in brackets where `bracketed` says so. */
  function Render(keys: Path, bracketed: seq<bool>): string
    requires |bracketed| == |keys|
  {
    if keys == [] then ""
    else (if bracketed[0] && IsDigits(keys[0]) then "[" + keys[0] + "]" else "." + keys[0])
         + Render(keys[1..], bracketed[1..])
  }

  function Dotted(keys: Path): string {
    if keys == [] then "" else "." + keys[0] + Dotted(keys[1..])
  }

  lemma {:induction false} DigitsRunOut(d: string, rest: string)
    requires forall i :: 0 <= i < |d| ==> IsDigit(d[i])
    requires rest != "" && !IsDigit(rest[0])
    ensures DigitRun(d + rest) == |d|
  {
    if d == "" {
      assert d + rest == rest;
    } else {
      assert (d + rest)[1..] == d[1..] + rest;
      DigitsRunOut(d[1..], rest);
    }
  }

  lemma CharStays(c: char, rest: string)
    requires c != '['
    ensures IndexesToDots([c] + rest) == [c] + IndexesToDots(rest)
  {
    assert ([c] + rest)[1..] == rest;
  }

  lemma {:induction false} PlainTextStays(k: string, rest: string)
    requires '[' !in k
    ensures IndexesToDots(k + rest) == k + IndexesToDots(rest)
  {
    hide IndexesToDots;
    if k == "" {
      assert k + rest == rest && k + IndexesToDots(rest) == IndexesToDots(rest);
    } else {
      PlainTextStays(k[1..], rest);
      CharStays(k[0], k[1..] + rest);
      assert k + rest == [k[0]] + (k[1..] + rest);
      assert k + IndexesToDots(rest) == [k[0]] + (k[1..] + IndexesToDots(rest));
    }
  }

  lemma {:induction false} RenderToDots(keys: Path, bracketed: seq<bool>)
    requires |bracketed| == |keys| && forall i :: 0 <= i < |keys| ==> IsPlainKey(keys[i])
    ensures IndexesToDots(Render(keys, bracketed)) == Dotted(keys)
  {
    if keys != [] {
      var k, rest := keys[0], Render(keys[1..], bracketed[1..]);
      RenderToDots(keys[1..], bracketed[1..]);
      if bracketed[0] && IsDigits(k) {
        var s := "[" + k + "]" + rest;
        assert s[1..] == k + ("]" + rest);
        DigitsRunOut(k, "]" + rest);
        assert s[1..|k| + 1] == k && s[|k| + 2..] == rest;
      } else {
        assert "." + k + rest == ("." + k) + rest;
        PlainTextStays("." + k, rest);
      }
    }
  }

  lemma {:induction false} SplitKey(k: string, rest: string)
    requires '.' !in k && (rest == "" || rest[0] == '.')
    ensures SplitOnDots(k + rest) == [k] + (if rest == "" then [] else SplitOnDots(rest[1..]))
  {
    if k == "" {
      assert k + rest == rest;
    } else {
      assert (k + rest)[1..] == k[1..] + rest;
      SplitKey(k[1..], rest);
      assert k == [k[0]] + k[1..] && k[0] != '.';
    }
  }

  lemma DotSplitsOff(s: string)
    ensures NonEmpty(SplitOnDots("." + s)) == NonEmpty(SplitOnDots(s))
  {
    assert ("." + s)[1..] == s;
    assert SplitOnDots("." + s) == [""] + SplitOnDots(s);
  }

  lemma KeySplitsOff(k: string, rest: string)
    requires '.' !in k && k != "" && (rest == "" || rest[0] == '.')
    ensures NonEmpty(SplitOnDots(k + rest)) == [k] + NonEmpty(SplitOnDots(rest))
  {
    SplitKey(k, rest);
    if rest != "" {
      assert rest == "." + rest[1..];
      DotSplitsOff(rest[1..]);
    }
  }

  lemma {:induction false} ParseDotted(keys: Path)
    requires forall i :: 0 <= i < |keys| ==> IsPlainKey(keys[i])
    ensures NonEmpty(SplitOnDots(Dotted(keys))) == keys
  {
    if keys != [] {
      var rest := Dotted(keys[1..]);
      assert Dotted(keys) == "." + (keys[0] + rest);
      assert IsPlainKey(keys[0]);
      hide SplitOnDots, NonEmpty;
      DotSplitsOff(keys[0] + rest);
      KeySplitsOff(keys[0], rest);
      ParseDotted(keys[1..]);
    }
  }

  /** Parsing undoes rendering, whichever index keys are written in brackets. */
  lemma ParseUndoesRender(keys: Path, bracketed: seq<bool>)
    requires |bracketed| == |keys| && forall i :: 0 <= i < |keys| ==> IsPlainKey(keys[i])
    ensures ParsePath(Render(keys, bracketed)) == keys
  {
    RenderToDots(keys, bracketed);
    ParseDotted(keys);
  }

  /** A leading dot makes no difference. */
  lemma LeadingDot(s: string)
    ensures ParsePath("." + s) == ParsePath(s)
  {
    assert ("." + s)[1..] == s;
    assert IndexesToDots("." + s) == "." + IndexesToDots(s);
    assert ("." + IndexesToDots(s))[1..] == IndexesToDots(s);
  }

  /** The keys as callers write them, with no dot in front of the first: `a.b[0]`. */
  function PathText(keys: Path, bracketed: seq<bool>): string
    requires |bracketed| == |keys|
  {
    if keys == [] || (bracketed[0] && IsDigits(keys[0])) then Render(keys, bracketed)
    else keys[0] + Render(keys[1..], bracketed[1..])
  }

  /** Parsing undoes writing a path, whichever index keys are in brackets. */
  lemma ParseUndoesText(keys: Path, bracketed: seq<bool>)
    requires |bracketed| == |keys| && forall i :: 0 <= i < |keys| ==> IsPlainKey(keys[i])
    ensures ParsePath(PathText(keys, bracketed)) == keys
    ensures ParsePath("." + PathText(keys, bracketed)) == keys
  {
    ParseUndoesRender(keys, bracketed);
    LeadingDot(PathText(keys, bracketed));
    if keys != [] && !(bracketed[0] && IsDigits(keys[0])) {
      assert Render(keys, bracketed) == "." + PathText(keys, bracketed);
    }
  }

  // ---- writing at a path ----

  /** `v` with one member set, or deleted when `x` is Undefined. */
  function WithMember(v: Json, k: string, x: Json): Json
    requires v.Node?
  {
    v.(m := if x == Undefined then v.m - {k} else v.m[k := x])
  }

  /** What stands at a key on the way down: the container there, or a fresh one. */
  function Opened(child: Json, nextKey: string): Json {
    if child.Node? then child else Node(IsDigits(nextKey), map[])
  }

  function SetAt(v: Json, p: Path, x: Json): (r: Json)
    requires v.Node? && p != []
    ensures r.Node?
    decreases p
  {
    if |p| == 1 then WithMember(v, p[0], x)
    else WithMember(v, p[0], SetAt(Opened(Get(v, p[0]), p[1]), p[1..], x))
  }

  predicate IsPrefix(p: Path, q: Path) { p <= q }

  /** What was written is read back; a deletion reads as absent. */
  lemma {:induction false} SetThenGet(v: Json, p: Path, x: Json)
    requires v.Node? && p != []
    ensures At(SetAt(v, p, x), p) == x
    decreases p
  {
    var w := SetAt(v, p, x);
    if |p| == 1 {
      AtKey(w, p);
    } else {
      SetThenGet(Opened(Get(v, p[0]), p[1]), p[1..], x);
    }
  }

  /** Nothing stands below a value that is no container. */
  lemma {:induction false} NothingBelow(v: Json, q: Path)
    requires !v.Node? && q != []
    ensures At(v, q) == Undefined
    decreases q
  {
    if |q| > 1 {
      NothingBelow(Undefined, q[1..]);
    } else {
      AtKey(v, q);
    }
  }

  /** An empty container reads as absent at every path below it. */
  lemma EmptyBelow(isArray: bool, q: Path)
    requires q != []
    ensures At(Node(isArray, map[]), q) == Undefined
  {
    if |q| > 1 {
      NothingBelow(Undefined, q[1..]);
    } else {
      AtKey(Node(isArray, map[]), q);
    }
  }

  /** A path that neither leads to `p` nor goes through it reads as it did. */
  lemma {:induction false} SetElsewhere(v: Json, p: Path, x: Json, q: Path)
    requires v.Node? && p != [] && !IsPrefix(p, q) && !IsPrefix(q, p)
    ensures At(SetAt(v, p, x), q) == At(v, q)
    decreases p
  {
    if q[0] == p[0] {
      assert p == [p[0]] + p[1..] && q == [q[0]] + q[1..];
      assert |p| > 1 && |q| > 1;
      assert !IsPrefix(p[1..], q[1..]) && !IsPrefix(q[1..], p[1..]);
      var child := Get(v, p[0]);
      SetElsewhere(Opened(child, p[1]), p[1..], x, q[1..]);
      if !child.Node? {
        NothingBelow(child, q[1..]);
        EmptyBelow(IsDigits(p[1]), q[1..]);
      }
    } else {
      assert Get(SetAt(v, p, x), q[0]) == Get(v, q[0]);
    }
  }

  // ---- the loops ----

  /** One member of the container at position `pos` set, which is what an assignment through a reference does. */
  function PutMember(v: Json, pos: Path, k: string, x: Json): (r: Json)
    requires v.Node?
    ensures r.Node?
    decreases pos
  {
    if pos == [] then WithMember(v, k, x)
    else if Get(v, pos[0]).Node? then WithMember(v, pos[0], PutMember(v.m[pos[0]], pos[1..], k, x))
    else v
  }

  /** A container stands at `pos`. */
  predicate HasContainer(v: Json, pos: Path)
    decreases pos
  {
    v.Node? && (pos == [] || HasContainer(Get(v, pos[0]), pos[1..]))
  }

  /** Opening the next container on the way changes nothing about the outcome of the write. */
  lemma {:induction false} OpenNext(v: Json, p: Path, i: nat, x: Json)
    requires i + 1 < |p| && HasContainer(v, p[..i])
    ensures var child := Get(At(v, p[..i]), p[i]);
            var w := if child.Node? then v else PutMember(v, p[..i], p[i], Node(IsDigits(p[i + 1]), map[]));
            w.Node? && HasContainer(w, p[..i + 1]) && SetAt(w, p, x) == SetAt(v, p, x)
    decreases p
  {
    if i == 0 {
      assert p[..0] == [] && p[..1] == [p[0]] && p[..1][1..] == [];
      var child := Get(v, p[0]);
      if !child.Node? {
        var w := WithMember(v, p[0], Node(IsDigits(p[1]), map[]));
        assert SetAt(w, p, x).m == SetAt(v, p, x).m;
      }
    } else {
      var c := Get(v, p[0]);
      assert p[..i][0] == p[0] && p[..i][1..] == p[1..][..i - 1];
      assert p[..i + 1][0] == p[0] && p[..i + 1][1..] == p[1..][..i];
      OpenNext(c, p[1..], i - 1, x);
      var child := Get(At(v, p[..i]), p[i]);
      if !child.Node? {
        var blank := Node(IsDigits(p[i + 1]), map[]);
        var w := PutMember(v, p[..i], p[i], blank);
        assert Get(w, p[0]) == PutMember(c, p[1..][..i - 1], p[i], blank);
        assert SetAt(w, p, x).m == SetAt(v, p, x).m;
      }
    }
  }

  /** With the way open, the last assignment is the whole write. */
  lemma {:induction false} LastAssignment(v: Json, p: Path, x: Json)
    requires p != [] && HasContainer(v, p[..|p| - 1])
    ensures PutMember(v, p[..|p| - 1], p[|p| - 1], x) == SetAt(v, p, x)
    decreases p
  {
    if |p| > 1 {
      assert p[..|p| - 1][0] == p[0] && p[..|p| - 1][1..] == p[1..][..|p| - 2];
      LastAssignment(Get(v, p[0]), p[1..], x);
    }
  }

  /** A configuration being edited in place. References into a tree are positions in it. */
  class ConfigDraft {
    var root: Json

    constructor (root: Json)
      requires root.Node?
      ensures this.root == root
    {
      this.root := root;
    }

    method DeepGet(path: string) returns (value: Json)
      ensures value == At(root, ParsePath(path))
    {
      var parts := ParsePath(path);
      var cur := root;
      for i := 0 to |parts|
        invariant At(cur, parts[i..]) == At(root, parts)
      {
        assert parts[i..][1..] == parts[i + 1..];
        if !cur.Node? {
          NothingBelow(cur, parts[i..]);
          return Undefined;
        }
        cur := Get(cur, parts[i]);
      }
      value := cur;
    }

    /** An empty path has no last part, and the source then writes a member named "undefined". */
    method DeepSet(path: string, value: Json)
      requires root.Node?
      modifies this
      ensures root == SetAt(old(root), if ParsePath(path) == [] then ["undefined"] else ParsePath(path), value)
    {
      var parts := ParsePath(path);
      if parts == [] {
        root := WithMember(root, "undefined", value);
        return;
      }
      assert parts[..0] == [] && HasContainer(root, parts[..0]);
      hide ParsePath, SetAt, PutMember, IsDigits, HasContainer, At, Get;
      var i := 0;  // the source's `cur` is the container at parts[..i]
      while i < |parts| - 1
        invariant 0 <= i <= |parts| - 1
        invariant root.Node? && HasContainer(root, parts[..i])
        invariant SetAt(root, parts, value) == SetAt(old(root), parts, value)
      {
        OpenNext(root, parts, i, value);
        if !Get(At(root, parts[..i]), parts[i]).Node? {
          root := PutMember(root, parts[..i], parts[i], Node(IsDigits(parts[i + 1]), map[]));
        }
        i := i + 1;
      }
      LastAssignment(root, parts, value);
      root := PutMember(root, parts[..i], parts[i], value);
    }

    method DeepDelete(path: string)
      requires root.Node?
      modifies this
      ensures root == SetAt(old(root), if ParsePath(path) == [] then ["undefined"] else ParsePath(path), Undefined)
      ensures ParsePath(path) != [] ==> At(root, ParsePath(path)) == Undefined
    {
      DeepSet(path, Undefined);
      if ParsePath(path) != [] {
        SetThenGet(old(root), ParsePath(path), Undefined);
      }
    }
  }
}
