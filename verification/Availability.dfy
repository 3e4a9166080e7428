/** Which module owns a path, and whether it is available (src/lib/modules/availability.ts), over any manifest. */
module Availability {
  import opened Wrappers

  datatype OrgKind = Business | Personal

  /** kinds: None for both; needs: the ids of the modules it requires. */
  datatype Entry = Entry(prefixes: seq<string>, toggle: Option<string>, kinds: Option<seq<OrgKind>>, needs: seq<string>)

  /** ids: the manifest's keys in their order. */
  datatype Manifest = Manifest(ids: seq<string>, entries: map<string, Entry>)

  /** Absent means enabled. */
  type Toggles = map<string, bool>

  ghost predicate ManifestOk(m: Manifest) {
    && (forall i, j :: 0 <= i < j < |m.ids| ==> m.ids[i] != m.ids[j])
    && (forall id :: id in m.ids <==> id in m.entries)
  }

  // ---- The owner of a path ----

  predicate Matches(path: string, prefix: string) { path == prefix || prefix + "/" <= path }

  datatype Match = Match(id: string, prefix: string)

  /** A module and one of its prefixes. */
  predicate Declares(m: Manifest, c: Match) { c.id in m.entries && c.prefix in m.entries[c.id].prefixes }

  /** A matching prefix that no other matching prefix of the manifest is longer than. */
  ghost predicate IsLongest(m: Manifest, path: string, best: Match) {
    && Declares(m, best) && Matches(path, best.prefix)
    && forall c: Match :: Declares(m, c) && Matches(path, c.prefix) ==> |c.prefix| <= |best.prefix|
  }

  /** Of equal prefixes the one declared first wins: no earlier module declares this one. */
  ghost predicate IsFirst(m: Manifest, best: Match) {
    forall i, j :: 0 <= i < j < |m.ids| && m.ids[j] == best.id ==> !Declares(m, Match(m.ids[i], best.prefix))
  }

  /** The module a path belongs to: longest prefix, and of equal ones the first declared. */
  ghost predicate IsOwner(m: Manifest, path: string, best: Match) {
    IsLongest(m, path, best) && IsFirst(m, best)
  }

  /** best is the longest match among the first n modules and the first k prefixes of the next. */
  ghost predicate LongestSoFar(m: Manifest, path: string, best: Option<Match>, n: nat, k: nat)
    requires ManifestOk(m) && n <= |m.ids|
  {
    && (best.Some? ==> Declares(m, best.value) && Matches(path, best.value.prefix))
    && (forall i, j :: Visited(m, n, k, i, j) && Matches(path, m.entries[m.ids[i]].prefixes[j]) ==>
          best.Some? && |m.entries[m.ids[i]].prefixes[j]| <= |best.value.prefix|)
  }

  predicate Visited(m: Manifest, n: nat, k: nat, i: int, j: int) {
    && 0 <= i <= n && i < |m.ids| && m.ids[i] in m.entries
    && 0 <= j < |m.entries[m.ids[i]].prefixes|
    && (i == n ==> j < k)
  }

  /** The module at this place in the manifest won over all earlier ones by a longer prefix. */
  ghost predicate WonAt(m: Manifest, path: string, best: Match, at: nat) {
    && at < |m.ids| && m.ids[at] == best.id
    && forall i, p :: 0 <= i < at && Declares(m, Match(m.ids[i], p)) && Matches(path, p) ==> |p| < |best.prefix|
  }

  lemma ShorterBefore(m: Manifest, path: string, best: Option<Match>, n: nat, k: nat, prefix: string)
    requires ManifestOk(m) && n < |m.ids| && LongestSoFar(m, path, best, n, k)
    requires best.None? || |prefix| > |best.value.prefix|
    ensures forall i, p :: 0 <= i < n && Declares(m, Match(m.ids[i], p)) && Matches(path, p) ==> |p| < |prefix|
  {
    forall i, p | 0 <= i < n && Declares(m, Match(m.ids[i], p)) && Matches(path, p) ensures |p| < |prefix| {
      var j :| 0 <= j < |m.entries[m.ids[i]].prefixes| && m.entries[m.ids[i]].prefixes[j] == p;
      assert Visited(m, n, k, i, j);
    }
  }

  /** What the loops know after the first n modules and the first k prefixes of the next. */
  ghost predicate SoFar(m: Manifest, path: string, best: Option<Match>, at: nat, n: nat, k: nat)
    requires ManifestOk(m) && n <= |m.ids|
  {
    LongestSoFar(m, path, best, n, k) && (best.Some? ==> WonAt(m, path, best.value, at))
  }

  lemma NextPrefix(m: Manifest, path: string, best: Option<Match>, at: nat, n: nat, k: nat)
    requires ManifestOk(m) && n < |m.ids| && SoFar(m, path, best, at, n, k)
    requires m.ids[n] in m.entries && k < |m.entries[m.ids[n]].prefixes|
    ensures var prefix := m.entries[m.ids[n]].prefixes[k];
      if Matches(path, prefix) && (best.None? || |prefix| > |best.value.prefix|) then
        SoFar(m, path, Some(Match(m.ids[n], prefix)), n, n, k + 1)
      else SoFar(m, path, best, at, n, k + 1)
  {
    hide Matches;
    var prefix := m.entries[m.ids[n]].prefixes[k];
    if best.None? || |prefix| > |best.value.prefix| {
      ShorterBefore(m, path, best, n, k, prefix);
    }
  }

  lemma NextModule(m: Manifest, path: string, best: Option<Match>, at: nat, n: nat)
    requires ManifestOk(m) && n < |m.ids| && m.ids[n] in m.entries
    requires SoFar(m, path, best, at, n, |m.entries[m.ids[n]].prefixes|)
    ensures SoFar(m, path, best, at, n + 1, 0)
  {
    hide Matches;
  }

  lemma AllModules(m: Manifest, path: string, best: Option<Match>, at: nat)
    requires ManifestOk(m) && SoFar(m, path, best, at, |m.ids|, 0)
    ensures best.Some? ==> IsOwner(m, path, best.value)
    ensures best.None? ==> forall c: Match :: Declares(m, c) ==> !Matches(path, c.prefix)
  {
    hide Matches;
    forall c: Match | Declares(m, c) && Matches(path, c.prefix)
      ensures best.Some? && |c.prefix| <= |best.value.prefix|
    {
      var i :| 0 <= i < |m.ids| && m.ids[i] == c.id;
      var j :| 0 <= j < |m.entries[c.id].prefixes| && m.entries[c.id].prefixes[j] == c.prefix;
      assert Visited(m, |m.ids|, 0, i, j);
    }
  }

  method ResolveModuleForPath(m: Manifest, path: string) returns (best: Option<Match>)
    requires ManifestOk(m)
    ensures best.Some? ==> IsOwner(m, path, best.value)
    ensures best.None? ==> forall c: Match :: Declares(m, c) ==> !Matches(path, c.prefix)
  {
    hide LongestSoFar, WonAt, IsLongest, IsFirst, Matches;
    best := None;
    ghost var at := 0;
    NothingYet(m, path);
    for n := 0 to |m.ids|
      invariant SoFar(m, path, best, at, n, 0)
    {
      assert m.ids[n] in m.ids;
      var entry := m.entries[m.ids[n]];
      for k := 0 to |entry.prefixes|
        invariant SoFar(m, path, best, at, n, k)
      {
        var prefix := entry.prefixes[k];
        NextPrefix(m, path, best, at, n, k);
        if Matches(path, prefix) && (best.None? || |prefix| > |best.value.prefix|) {
          best := Some(Match(m.ids[n], prefix));
          at := n;
        }
      }
      NextModule(m, path, best, at, n);
    }
    AllModules(m, path, best, at);
  }

  lemma NothingYet(m: Manifest, path: string)
    requires ManifestOk(m)
    ensures SoFar(m, path, None, 0, 0, 0)
  {
  }

  /** No two modules declare the same prefix. */
  ghost predicate PrefixesApart(m: Manifest) {
    forall c: Match, d: Match :: Declares(m, c) && Declares(m, d) && c.prefix == d.prefix ==> c.id == d.id
  }

  lemma MatchingPrefixesNest(path: string, a: string, b: string)
    requires Matches(path, a) && Matches(path, b) && |a| == |b|
    ensures a == b
  {
    assert a == path[..|a|] by {
      if path != a { assert (a + "/")[..|a|] == a; }
    }
    assert b == path[..|b|] by {
      if path != b { assert (b + "/")[..|b|] == b; }
    }
  }

  /** A path has at most one owner. */
  lemma OwnerIsDetermined(m: Manifest, path: string, a: Match, b: Match)
    requires ManifestOk(m) && IsOwner(m, path, a) && IsOwner(m, path, b)
    ensures a == b
  {
    MatchingPrefixesNest(path, a.prefix, b.prefix);
    assert a.id in m.ids && b.id in m.ids;
    var i :| 0 <= i < |m.ids| && m.ids[i] == a.id;
    var j :| 0 <= j < |m.ids| && m.ids[j] == b.id;
    assert Declares(m, Match(m.ids[i], b.prefix)) && Declares(m, Match(m.ids[j], a.prefix));
  }

  /** The owner does not depend on the order of the manifest when prefixes are kept apart. */
  lemma OwnerIsUnique(m: Manifest, path: string, a: Match, b: Match)
    requires PrefixesApart(m) && IsLongest(m, path, a) && IsLongest(m, path, b)
    ensures a == b
  {
    MatchingPrefixesNest(path, a.prefix, b.prefix);
  }

  // ---- Availability ----

  /** Requirements lead down: the manifest has no cycle of them. */
  predicate Ranked(m: Manifest, rank: map<string, nat>) {
    forall id <- m.entries :: id in rank &&
      forall i :: 0 <= i < |m.entries[id].needs| && m.entries[id].needs[i] in m.entries ==>
        m.entries[id].needs[i] in rank && rank[m.entries[id].needs[i]] < rank[id]
  }

  /** An unresolved kind counts as business here. */
  function ResolvedKind(kind: Option<OrgKind>): OrgKind {
    if kind == Some(Personal) then Personal else Business
  }

  predicate SwitchedOff(e: Entry, toggles: Toggles) {
    e.toggle.Some? && e.toggle.value != "" && e.toggle.value in toggles && !toggles[e.toggle.value]
  }

  predicate Available(m: Manifest, rank: map<string, nat>, id: string, kind: Option<OrgKind>, toggles: Toggles)
    requires Ranked(m, rank)
    decreases if id in m.entries then rank[id] + 1 else 0
  {
    if id !in m.entries then true
    else
      var e := m.entries[id];
      if e.kinds.Some? && ResolvedKind(kind) !in e.kinds.value then false
      else if SwitchedOff(e, toggles) then false
      else forall i :: 0 <= i < |e.needs| ==> Available(m, rank, e.needs[i], kind, toggles)
  }
}
