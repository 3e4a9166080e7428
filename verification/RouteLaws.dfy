/** What the guard lets through, told from the manifest, the organisation's kind and its switches. */
module RouteLaws {
  import opened Wrappers
  import opened Availability
  import opened RouteGuard

  /** The module is not meant for organisations of this kind; one whose kind is not known counts as a
      business. */
  predicate WrongKind(m: Manifest, id: string, kind: Option<OrgKind>) {
    id in m.entries && m.entries[id].kinds.Some? &&
    match kind
    case Some(Personal) => Personal !in m.entries[id].kinds.value
    case _ => Business !in m.entries[id].kinds.value
  }

  /** The module has a switch of its own, and that is recorded as off. */
  predicate TurnedOff(m: Manifest, id: string, toggles: Toggles) {
    && id in m.entries && m.entries[id].toggle.Some? && m.entries[id].toggle.value != ""
    && (m.entries[id].toggle.value, false) in toggles.Items
  }

  /** The module at the end of the way, reached through requirements, keeps its start from being shown. */
  ghost predicate Bars(m: Manifest, way: seq<string>, kind: Option<OrgKind>, toggles: Toggles) {
    IsWay(m, way) && (WrongKind(m, way[|way| - 1], kind) || TurnedOff(m, way[|way| - 1], toggles))
  }

  ghost predicate Barred(m: Manifest, id: string, kind: Option<OrgKind>, toggles: Toggles) {
    exists way :: Bars(m, way, kind, toggles) && way[0] == id
  }

  lemma BarredBy(m: Manifest, a: string, b: string, kind: Option<OrgKind>, toggles: Toggles)
    requires Needs(m, a, b) && Barred(m, b, kind, toggles)
    ensures Barred(m, a, kind, toggles)
  {
    var way :| Bars(m, way, kind, toggles) && way[0] == b;
    WayFrom(m, a, way);
    assert Bars(m, [a] + way, kind, toggles);
  }

  lemma WayFrom(m: Manifest, a: string, way: seq<string>)
    requires IsWay(m, way) && Needs(m, a, way[0])
    ensures IsWay(m, [a] + way) && ([a] + way)[|way|] == way[|way| - 1]
  {
    var longer := [a] + way;
    forall i, j | 0 <= i < |longer| && j == i + 1 && j < |longer| ensures Needs(m, longer[i], longer[j]) {
      if i > 0 { assert Needs(m, way[i - 1], way[j - 1]); }
    }
  }

  lemma WayOn(m: Manifest, way: seq<string>)
    requires IsWay(m, way) && |way| > 1
    ensures IsWay(m, way[1..]) && Needs(m, way[0], way[1])
  {
    var rest := way[1..];
    assert Needs(m, way[0], way[1]);
    forall i, j | 0 <= i < |rest| && j == i + 1 && j < |rest| ensures Needs(m, rest[i], rest[j]) {
      assert Needs(m, way[i + 1], way[j + 1]);
    }
  }

  lemma EntryUnfit(m: Manifest, id: string, kind: Option<OrgKind>, toggles: Toggles)
    requires id in m.entries
    ensures var e := m.entries[id];
      && (WrongKind(m, id, kind) <==> e.kinds.Some? && ResolvedKind(kind) !in e.kinds.value)
      && (TurnedOff(m, id, toggles) <==> SwitchedOff(e, toggles))
  {
  }

  /** A module is available exactly unless it, or one it requires however far down, is for the other kind
      of organisation or switched off. */
  lemma {:induction false} AvailableExactly(m: Manifest, rank: map<string, nat>, id: string, kind: Option<OrgKind>,
                                            toggles: Toggles)
    requires Ranked(m, rank)
    ensures Available(m, rank, id, kind, toggles) <==> !Barred(m, id, kind, toggles)
    decreases if id in m.entries then rank[id] + 1 else 0
  {
    if id in m.entries {
      var e := m.entries[id];
      EntryUnfit(m, id, kind, toggles);
      forall i | 0 <= i < |e.needs|
        ensures Available(m, rank, e.needs[i], kind, toggles) <==> !Barred(m, e.needs[i], kind, toggles)
        ensures Barred(m, e.needs[i], kind, toggles) ==> Barred(m, id, kind, toggles)
      {
        AvailableExactly(m, rank, e.needs[i], kind, toggles);
        if Barred(m, e.needs[i], kind, toggles) {
          BarredBy(m, id, e.needs[i], kind, toggles);
        }
      }
    }
    FirstBarsOrNext(m, id, kind, toggles);
  }

  lemma FirstBarsOrNext(m: Manifest, id: string, kind: Option<OrgKind>, toggles: Toggles)
    ensures WrongKind(m, id, kind) || TurnedOff(m, id, toggles) ==> Barred(m, id, kind, toggles)
    ensures Barred(m, id, kind, toggles) ==>
      WrongKind(m, id, kind) || TurnedOff(m, id, toggles) ||
      (id in m.entries &&
       exists i :: 0 <= i < |m.entries[id].needs| && Barred(m, m.entries[id].needs[i], kind, toggles))
  {
    if WrongKind(m, id, kind) || TurnedOff(m, id, toggles) {
      assert Bars(m, [id], kind, toggles);
    }
    if way :| Bars(m, way, kind, toggles) && way[0] == id {
      if |way| > 1 {
        WayOn(m, way);
        assert Bars(m, way[1..], kind, toggles);
        assert Barred(m, way[1], kind, toggles);
        var i :| 0 <= i < |m.entries[id].needs| && m.entries[id].needs[i] == way[1];
      }
    }
  }

  /** A module with kinds is required, however far down, while the organisation's kind is not known. */
  ghost predicate KindNeeded(m: Manifest, id: string) {
    exists way :: IsWay(m, way) && way[0] == id && way[|way| - 1] in m.entries && m.entries[way[|way| - 1]].kinds.Some?
  }

  /** A path is blocked exactly when it has an owner, and that is barred, or requires a kind that is not known. */
  lemma BlockedExactly(m: Manifest, rank: map<string, nat>, path: string, kind: Option<OrgKind>, toggles: Toggles)
    requires Ranked(m, rank)
    ensures Blocked(m, rank, path, kind, toggles) <==>
      exists owner: Match :: IsOwner(m, path, owner) &&
        (Barred(m, owner.id, kind, toggles) || (kind.None? && KindNeeded(m, owner.id)))
  {
    hide IsOwner, Available, Barred;
    forall owner: Match
      ensures OwnerBlocked(m, rank, owner, kind, toggles) <==>
              Barred(m, owner.id, kind, toggles) || (kind.None? && KindNeeded(m, owner.id))
    {
      AvailableExactly(m, rank, owner.id, kind, toggles);
      RestrictedIsKindNeeded(m, owner.id);
    }
  }

  lemma RestrictedIsKindNeeded(m: Manifest, id: string)
    ensures Restricted(m, id) <==> KindNeeded(m, id)
  {
    if way :| IsWay(m, way) && way[0] == id && HasKinds(m, way[|way| - 1]) {
      assert KindNeeded(m, id);
    }
    if way :| IsWay(m, way) && way[0] == id && way[|way| - 1] in m.entries && m.entries[way[|way| - 1]].kinds.Some? {
      assert HasKinds(m, way[|way| - 1]);
    }
  }

  // ---- Prefixes ----

  /** A path's parts between slashes. */
  function Segments(path: string): (parts: seq<string>)
    ensures parts != []
  {
    if path == "" then [""]
    else
      var rest := Segments(path[1..]);
      if path[0] == '/' then [""] + rest else [[path[0]] + rest[0]] + rest[1..]
  }

  /** A prefix matches a path exactly when its parts are the first ones of the path's. */
  lemma {:induction false} MatchesBySegments(path: string, prefix: string)
    ensures Matches(path, prefix) <==> Segments(prefix) <= Segments(path)
    decreases |prefix|
  {
    if prefix == "" {
      EmptyPrefix(path);
    } else if path == "" {
      FirstSegment(prefix);
    } else {
      MatchesBySegments(path[1..], prefix[1..]);
      MatchesStep(path, prefix);
      SegmentsStep(path, prefix);
    }
  }

  lemma EmptyPrefix(path: string)
    ensures Matches(path, "") <==> [""] <= Segments(path)
  {
    assert "" + "/" == "/";
  }

  lemma FirstSegment(prefix: string)
    requires prefix != ""
    ensures !Matches("", prefix) && !(Segments(prefix) <= [""])
  {
  }

  lemma MatchesStep(path: string, prefix: string)
    requires path != "" && prefix != ""
    ensures Matches(path, prefix) <==> path[0] == prefix[0] && Matches(path[1..], prefix[1..])
  {
    assert prefix + "/" == [prefix[0]] + (prefix[1..] + "/");
    assert path == [path[0]] + path[1..] && prefix == [prefix[0]] + prefix[1..];
  }

  lemma SegmentsStep(path: string, prefix: string)
    requires path != "" && prefix != ""
    ensures Segments(prefix) <= Segments(path) <==>
            path[0] == prefix[0] && Segments(prefix[1..]) <= Segments(path[1..])
  {
    var a, b := Segments(prefix[1..]), Segments(path[1..]);
    ConsPrefix(a[0], a[1..], b[0], b[1..]);
    assert a == [a[0]] + a[1..] && b == [b[0]] + b[1..];
    if prefix[0] == '/' || path[0] == '/' {
      ConsPrefix("", a, [path[0]] + b[0], b[1..]);
      ConsPrefix([prefix[0]] + a[0], a[1..], "", b);
      ConsPrefix("", a, "", b);
    } else {
      ConsPrefix([prefix[0]] + a[0], a[1..], [path[0]] + b[0], b[1..]);
      ConsText(prefix[0], a[0], path[0], b[0]);
    }
  }

  lemma ConsPrefix(x: string, a: seq<string>, y: string, b: seq<string>)
    ensures [x] + a <= [y] + b <==> x == y && a <= b
  {
    var s, t := [x] + a, [y] + b;
    if s <= t {
      assert t[..|a| + 1] == s && s[0] == t[0];
      assert a == s[1..] && b == t[1..] && b[..|a|] == t[1..|a| + 1];
    } else if a <= b {
      assert t[..|a| + 1] == [y] + b[..|a|];
    }
  }

  lemma ConsText(c: char, x: string, d: char, y: string)
    ensures [c] + x == [d] + y <==> c == d && x == y
  {
    if [c] + x == [d] + y {
      assert ([c] + x)[1..] == x && ([d] + y)[1..] == y && ([c] + x)[0] == ([d] + y)[0];
    }
  }
}
