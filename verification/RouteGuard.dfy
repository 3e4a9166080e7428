/** The guard in front of the app's pages (src/lib/modules/route-guard.ts), over any manifest. */
module RouteGuard {
  import opened Wrappers
  import opened Availability

  // ---- Kind restrictions ----

  predicate HasKinds(m: Manifest, id: string) { id in m.entries && m.entries[id].kinds.Some? }

  predicate Needs(m: Manifest, a: string, b: string) { a in m.entries && b in m.entries[a].needs }

  /** Each module on the way requires the next. */
  ghost predicate IsWay(m: Manifest, way: seq<string>) {
    way != [] && forall i, j :: 0 <= i < |way| && j == i + 1 && j < |way| ==> Needs(m, way[i], way[j])
  }

  /** A module with kinds can be reached through requirements. */
  ghost predicate Restricted(m: Manifest, id: string) {
    exists way :: IsWay(m, way) && way[0] == id && HasKinds(m, way[|way| - 1])
  }

  lemma RestrictedBy(m: Manifest, a: string, b: string)
    requires Needs(m, a, b) && Restricted(m, b)
    ensures Restricted(m, a)
  {
    var way :| IsWay(m, way) && way[0] == b && HasKinds(m, way[|way| - 1]);
    var longer := [a] + way;
    forall i, j | 0 <= i < |longer| && j == i + 1 && j < |longer| ensures Needs(m, longer[i], longer[j]) {
      if i > 0 { assert Needs(m, way[i - 1], way[j - 1]); }
    }
    assert HasKinds(m, longer[|longer| - 1]);
  }

  lemma RestrictedHere(m: Manifest, id: string)
    requires HasKinds(m, id)
    ensures Restricted(m, id)
  {
    assert IsWay(m, [id]);
  }

  /** Fully explored: without kinds, and all it requires was seen. */
  predicate Cleared(m: Manifest, seen: set<string>, id: string) {
    id in m.entries ==>
      m.entries[id].kinds.None? &&
      forall i :: 0 <= i < |m.entries[id].needs| ==> m.entries[id].needs[i] in seen
  }

  /** The depth-first search with its shared set of seen ids. It ends on any manifest, cyclic or not. */
  method Search(m: Manifest, id: string, seen: set<string>) returns (found: bool, seen': set<string>)
    ensures found ==> Restricted(m, id)
    ensures seen <= seen' && id in seen'
    ensures !found ==> forall x :: x in seen' && x !in seen ==> Cleared(m, seen', x)
    decreases m.entries.Keys - seen
  {
    seen' := seen;
    if id in seen {
      return false, seen;
    }
    seen' := seen + {id};
    if id !in m.entries {
      return false, seen';
    }
    var e := m.entries[id];
    if e.kinds.Some? {
      RestrictedHere(m, id);
      return true, seen';
    }
    for i := 0 to |e.needs|
      invariant seen + {id} <= seen'
      invariant forall j :: 0 <= j < i ==> e.needs[j] in seen'
      invariant forall x :: x in seen' && x !in seen && x != id ==> Cleared(m, seen', x)
    {
      ghost var before := seen';
      assert id in m.entries.Keys - seen && id !in m.entries.Keys - seen';
      found, seen' := Search(m, e.needs[i], seen');
      if found {
        assert Needs(m, id, e.needs[i]);
        RestrictedBy(m, id, e.needs[i]);
        return;
      }
      forall x | x in before && x !in seen && x != id ensures Cleared(m, seen', x) {
        assert Cleared(m, before, x);
      }
    }
    found := false;
  }

  lemma {:induction false} WayStaysSeen(m: Manifest, seen: set<string>, way: seq<string>, i: nat)
    requires forall x <- seen :: Cleared(m, seen, x)
    requires IsWay(m, way) && way[0] in seen && i < |way|
    ensures way[i] in seen && !HasKinds(m, way[i])
  {
    if i > 0 {
      WayStaysSeen(m, seen, way, i - 1);
      assert Needs(m, way[i - 1], way[i]) && Cleared(m, seen, way[i - 1]);
    }
    assert way[i] in seen ==> Cleared(m, seen, way[i]);
  }

  /** The search says exactly whether a module with kinds is reachable through requirements. */
  method IsKindRestricted(m: Manifest, id: string) returns (found: bool)
    ensures found <==> Restricted(m, id)
  {
    var seen;
    found, seen := Search(m, id, {});
    if !found {
      forall way | IsWay(m, way) && way[0] == id ensures !HasKinds(m, way[|way| - 1]) {
        WayStaysSeen(m, seen, way, |way| - 1);
      }
    }
  }

  // ---- The guard ----

  ghost predicate OwnerBlocked(m: Manifest, rank: map<string, nat>, owner: Match, kind: Option<OrgKind>,
                               toggles: Toggles)
    requires Ranked(m, rank)
  {
    (kind.None? && Restricted(m, owner.id)) || !Available(m, rank, owner.id, kind, toggles)
  }

  /** The path has an owner, and that is not to be shown. */
  ghost predicate Blocked(m: Manifest, rank: map<string, nat>, path: string, kind: Option<OrgKind>, toggles: Toggles)
    requires Ranked(m, rank)
  {
    exists owner: Match :: IsOwner(m, path, owner) && OwnerBlocked(m, rank, owner, kind, toggles)
  }

  method IsAppRouteBlocked(m: Manifest, rank: map<string, nat>, path: string, kind: Option<OrgKind>, toggles: Toggles)
    returns (blocked: bool)
    requires ManifestOk(m) && Ranked(m, rank)
    ensures blocked <==> Blocked(m, rank, path, kind, toggles)
  {
    hide IsLongest, IsFirst, Restricted;
    var best := ResolveModuleForPath(m, path);
    if best.None? {
      NoOwner(m, path);
      return false;
    }
    OnlyOwnerCounts(m, rank, path, best.value, kind, toggles);
    if kind.None? {
      var restricted := IsKindRestricted(m, best.value.id);
      if restricted {
        return true;
      }
    }
    blocked := !Available(m, rank, best.value.id, kind, toggles);
  }

  lemma NoOwner(m: Manifest, path: string)
    requires forall c: Match :: Declares(m, c) ==> !Matches(path, c.prefix)
    ensures !exists owner: Match :: IsOwner(m, path, owner)
  {
  }

  lemma OnlyOwnerCounts(m: Manifest, rank: map<string, nat>, path: string, best: Match, kind: Option<OrgKind>,
                        toggles: Toggles)
    requires ManifestOk(m) && Ranked(m, rank) && IsOwner(m, path, best)
    ensures Blocked(m, rank, path, kind, toggles) <==> OwnerBlocked(m, rank, best, kind, toggles)
  {
    hide IsOwner, OwnerBlocked;
    forall owner: Match | IsOwner(m, path, owner) ensures owner == best {
      OwnerIsDetermined(m, path, owner, best);
    }
  }

  /** Where no kind restriction is reachable, the kind makes no difference to availability. */
  lemma {:induction false} UnrestrictedIgnoresKind(m: Manifest, rank: map<string, nat>, id: string,
                                                   a: Option<OrgKind>, b: Option<OrgKind>, toggles: Toggles)
    requires Ranked(m, rank) && !Restricted(m, id)
    ensures Available(m, rank, id, a, toggles) == Available(m, rank, id, b, toggles)
    decreases if id in m.entries then rank[id] + 1 else 0
  {
    if id in m.entries {
      if HasKinds(m, id) {
        RestrictedHere(m, id);
      }
      var e := m.entries[id];
      forall i | 0 <= i < |e.needs|
        ensures Available(m, rank, e.needs[i], a, toggles) == Available(m, rank, e.needs[i], b, toggles)
      {
        assert Needs(m, id, e.needs[i]);
        if Restricted(m, e.needs[i]) {
          RestrictedBy(m, id, e.needs[i]);
        }
        UnrestrictedIgnoresKind(m, rank, e.needs[i], a, b, toggles);
      }
    }
  }

  /** Not knowing the kind fails closed: a path is blocked then exactly when it is blocked for business or
      for personal, or its module is kind-restricted at all. */
  lemma UnresolvedFailsClosed(m: Manifest, rank: map<string, nat>, path: string, toggles: Toggles)
    requires Ranked(m, rank)
    ensures Blocked(m, rank, path, None, toggles) <==>
      Blocked(m, rank, path, Some(Business), toggles) || Blocked(m, rank, path, Some(Personal), toggles) ||
      exists owner: Match :: IsOwner(m, path, owner) && Restricted(m, owner.id)
  {
    hide IsOwner, Restricted, Available;
    forall owner: Match | IsOwner(m, path, owner)
      ensures OwnerBlocked(m, rank, owner, None, toggles) <==>
        OwnerBlocked(m, rank, owner, Some(Business), toggles) ||
        OwnerBlocked(m, rank, owner, Some(Personal), toggles) ||
        Restricted(m, owner.id)
    {
      if !Restricted(m, owner.id) {
        UnrestrictedIgnoresKind(m, rank, owner.id, None, Some(Business), toggles);
        UnrestrictedIgnoresKind(m, rank, owner.id, None, Some(Personal), toggles);
      }
    }
  }
}
