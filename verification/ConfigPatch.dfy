/**
 * The merge patch the config editor sends, and what applying it does. `Diff` and `Strip` are the
 * functions the loops of `ConfigSchema` compute; `MergePatch` is the algorithm of section 2 of
 * RFC 7396; `Unredact` is the configuration the user meant.
 */
module ConfigPatch {
  import opened Json

  const SENTINEL := Str("__OPENCLAW_REDACTED__")

  // ---- the patch ----

  /** The patch entry of one key; `Undefined` when there is none. */
  function Entry(o: Json, c: Json, k: string): Json
    requires IsPlainObject(o) && IsPlainObject(c)
    decreases o, 0
  {
    if k in o.m && k !in c.m then Null
    else if k !in o.m && k in c.m then c.m[k]
    else if k !in o.m then Undefined
    else if IsPlainObject(o.m[k]) && IsPlainObject(c.m[k]) then
      var sub := Diff(o.m[k], c.m[k]);
      if sub.m == map[] then Undefined else sub
    else if DeepEqual(o.m[k], c.m[k]) then Undefined
    else c.m[k]
  }

  function Diff(o: Json, c: Json): (patch: Json)
    requires IsPlainObject(o) && IsPlainObject(c)
    ensures IsPlainObject(patch)
    decreases o, 1
  {
    Node(false, map k | k in o.m.Keys + c.m.Keys && Entry(o, c, k) != Undefined :: Entry(o, c, k))
  }

  /** What is left of a member: nothing of a sentinel, nor of an object that ends up empty. */
  function StripValue(v: Json): Json
    decreases v, 1
  {
    if v == SENTINEL then Undefined
    else if IsPlainObject(v) then (var s := Strip(v); if s.m == map[] then Undefined else s)
    else v
  }

  function Strip(v: Json): (r: Json)
    requires IsPlainObject(v)
    ensures IsPlainObject(r)
    decreases v, 0
  {
    Node(false, map k | k in v.m && StripValue(v.m[k]) != Undefined :: StripValue(v.m[k]))
  }

  // ---- applying it ----

  /** The member a merge leaves at one key: a null deletes, anything else is merged in. */
  function MergeMember(t: Json, p: Json): Json
    decreases p, 1
  {
    if p == Undefined then t else if p == Null then Undefined else MergePatch(t, p)
  }

  /** Section 2 of RFC 7396. */
  function MergePatch(target: Json, patch: Json): Json
    decreases patch, 0
  {
    if !IsPlainObject(patch) then patch
    else
      var t := if IsPlainObject(target) then target.m else map[];
      Node(false,
           map k | k in t.Keys + patch.m.Keys
                   && (if k in patch.m then MergeMember(Get(Node(false, t), k), patch.m[k]) else t[k]) != Undefined
             :: if k in patch.m then MergeMember(Get(Node(false, t), k), patch.m[k]) else t[k])
  }

  /** `c` with each sentinel member replaced by what the original holds there. */
  function Unredact(o: Json, c: Json): Json
    decreases c
  {
    if c == SENTINEL then o
    else if !IsPlainObject(c) then c
    else
      Node(false,
           map k | k in c.m && Unredact(MemberOf(o, k), c.m[k]) != Undefined :: Unredact(MemberOf(o, k), c.m[k]))
  }

  function MemberOf(o: Json, k: string): Json {
    if IsPlainObject(o) then Get(o, k) else Undefined
  }

  // ---- when it does what was meant ----

  /**
   * A value written where the original holds no object survives the trip: it is no null, and in it
   * every object holds something besides sentinels.
   */
  predicate Writable(v: Json) {
    if v == SENTINEL then true
    else if v == Null then false
    else if IsPlainObject(v) then
      (exists k :: k in v.m && v.m[k] != SENTINEL) && forall k :: k in v.m ==> Writable(v.m[k])
    else true
  }

  predicate MemberPatchable(o: Json, c: Json, k: string)
    requires IsPlainObject(o) && IsPlainObject(c) && k in c.m
    decreases o, 0
  {
    if k !in o.m then Writable(c.m[k])
    else if IsPlainObject(o.m[k]) && IsPlainObject(c.m[k]) then Patchable(o.m[k], c.m[k])
    else if DeepEqual(o.m[k], c.m[k]) then !Confused(o.m[k], c.m[k])
    else Writable(c.m[k])
  }

  /** Every added or replaced member is writable, and no object was edited into an equal-looking array. */
  predicate Patchable(o: Json, c: Json)
    requires IsPlainObject(o) && IsPlainObject(c)
    decreases o, 1
  {
    forall k :: k in c.m ==> MemberPatchable(o, c, k)
  }

  // ---- the members of each result ----

  lemma DiffMember(o: Json, c: Json, k: string)
    requires IsPlainObject(o) && IsPlainObject(c)
    ensures Get(Diff(o, c), k) == Entry(o, c, k)
  {
  }

  lemma StripMember(v: Json, k: string)
    requires IsPlainObject(v)
    ensures Get(Strip(v), k) == StripValue(Get(v, k))
  {
  }

  lemma MergeMemberAt(t: Json, p: Json, k: string)
    requires IsPlainObject(p)
    ensures Get(MergePatch(t, p), k) == MergeMember(MemberOf(t, k), Get(p, k))
  {
  }

  lemma UnredactMember(o: Json, c: Json, k: string)
    requires IsPlainObject(c)
    ensures Get(Unredact(o, c), k) == if k in c.m then Unredact(MemberOf(o, k), c.m[k]) else Undefined
  {
  }

  /** Objects without undefined members are equal when they read the same at every key. */
  lemma SameReads(a: Json, b: Json)
    requires IsPlainObject(a) && IsPlainObject(b)
    requires forall k :: k in a.m ==> a.m[k] != Undefined
    requires forall k :: k in b.m ==> b.m[k] != Undefined
    ensures a == b <==> forall k :: Get(a, k) == Get(b, k)
  {
    if forall k :: Get(a, k) == Get(b, k) {
      forall k ensures k in a.m <==> k in b.m {
        assert Get(a, k) == Get(b, k);
      }
      forall k | k in a.m ensures a.m[k] == b.m[k] {
        assert Get(a, k) == Get(b, k);
      }
      SameMembers(a, b);
    }
  }

  lemma {:induction false} DiffWellFormed(o: Json, c: Json)
    requires IsPlainObject(o) && IsPlainObject(c) && WellFormed(o) && WellFormed(c)
    ensures WellFormed(Diff(o, c))
  {
    forall k | k in Diff(o, c).m ensures WellFormed(Entry(o, c, k)) {
      if IsPlainObject(Get(o, k)) && IsPlainObject(Get(c, k)) {
        DiffWellFormed(o.m[k], c.m[k]);
      }
    }
  }

  // ---- writing where there is no object ----

  /** A target that is no object contributes nothing to a merge. */
  lemma MergeIntoNonObject(t: Json, p: Json)
    requires !IsPlainObject(t)
    ensures MergePatch(t, p) == MergePatch(Undefined, p)
  {
  }

  /** A writable value is stripped to nothing only if it is a sentinel. */
  lemma {:induction false} WritableStays(v: Json)
    requires WellFormed(v) && Writable(v) && v != SENTINEL && v != Undefined
    ensures StripValue(v) != Undefined && StripValue(v) != Null
  {
    if IsPlainObject(v) {
      var k :| k in v.m && v.m[k] != SENTINEL;
      WritableStays(v.m[k]);
      StripMember(v, k);
    }
  }

  /** Written where nothing was, a value arrives as meant exactly when it is writable. */
  lemma {:induction false} WriteExact(v: Json)
    requires WellFormed(v) && v != Undefined
    ensures MergeMember(Undefined, StripValue(v)) == Unredact(Undefined, v) <==> Writable(v)
  {
    if IsPlainObject(v) {
      var p := Strip(v);
      forall k | k in v.m
        ensures MergeMember(Undefined, StripValue(v.m[k])) == Unredact(Undefined, v.m[k]) <==> Writable(v.m[k])
      {
        WriteExact(v.m[k]);
      }
      var got, want := MergePatch(Undefined, p), Unredact(Undefined, v);
      forall k ensures Get(got, k) == Get(want, k) <==> (k in v.m ==> Writable(v.m[k])) {
        MergeMemberAt(Undefined, p, k);
        StripMember(v, k);
        UnredactMember(Undefined, v, k);
      }
      SameReads(got, want);
    }
  }

  /** Written over a value that is no object, likewise; a sentinel keeps what was there. */
  lemma OverwriteExact(t: Json, v: Json)
    requires WellFormed(v) && v != Undefined && !IsPlainObject(t)
    ensures MergeMember(t, StripValue(v)) == Unredact(t, v) <==> Writable(v)
  {
    WriteExact(v);
    if v != SENTINEL {
      assert Unredact(t, v) == Unredact(Undefined, v) by {
        if IsPlainObject(v) {
          assert forall k :: MemberOf(t, k) == MemberOf(Undefined, k);
          SameUnredact(t, v);
        }
      }
      if StripValue(v) != Undefined {
        MergeIntoNonObject(t, StripValue(v));
      } else if Writable(v) {
        WritableStays(v);
      }
    }
  }

  lemma SameUnredact(t: Json, v: Json)
    requires IsPlainObject(v) && !IsPlainObject(t)
    ensures Unredact(t, v) == Unredact(Undefined, v)
  {
    forall k ensures Get(Unredact(t, v), k) == Get(Unredact(Undefined, v), k) {
      UnredactMember(t, v, k);
      UnredactMember(Undefined, v, k);
    }
    SameReads(Unredact(t, v), Unredact(Undefined, v));
  }

  // ---- the whole patch ----

  /** Merging an empty patch changes no object. */
  lemma MergeEmpty(t: Json)
    requires IsPlainObject(t) && WellFormed(t)
    ensures MergePatch(t, Node(false, map[])) == t
  {
    var e := Node(false, map[]);
    forall k ensures Get(MergePatch(t, e), k) == Get(t, k) {
      MergeMemberAt(t, e, k);
    }
    SameReads(MergePatch(t, e), t);
  }

  /** A value that was not edited is unredacted to itself. */
  lemma {:induction false} UnredactSelf(v: Json)
    requires WellFormed(v)
    ensures Unredact(v, v) == v
  {
    if IsPlainObject(v) {
      forall k ensures Get(Unredact(v, v), k) == Get(v, k) {
        UnredactMember(v, v, k);
        if k in v.m {
          UnredactSelf(v.m[k]);
        }
      }
      SameReads(Unredact(v, v), v);
    }
  }

  lemma {:induction false} MemberExact(o: Json, c: Json, k: string)
    requires IsPlainObject(o) && IsPlainObject(c) && WellFormed(o) && WellFormed(c)
    ensures k in c.m ==>
              (MergeMember(Get(o, k), StripValue(Entry(o, c, k))) == Unredact(Get(o, k), c.m[k])
               <==> MemberPatchable(o, c, k))
    ensures k !in c.m ==> MergeMember(Get(o, k), StripValue(Entry(o, c, k))) == Undefined
    decreases o, 0
  {
    if k in c.m {
      if k !in o.m {
        WriteExact(c.m[k]);
      } else if IsPlainObject(o.m[k]) && IsPlainObject(c.m[k]) {
        PatchExact(o.m[k], c.m[k]);
        MergeEmpty(o.m[k]);
      } else if DeepEqual(o.m[k], c.m[k]) {
        DeepEqualExact(o.m[k], c.m[k]);
        UnredactSelf(o.m[k]);
      } else if IsPlainObject(o.m[k]) {
        WriteExact(c.m[k]);
      } else {
        OverwriteExact(o.m[k], c.m[k]);
      }
    }
  }

  /**
   * Applying the stripped diff to the original gives the edited configuration with its sentinels
   * filled in, exactly when the edit is patchable.
   */
  lemma {:induction false} PatchExact(o: Json, c: Json)
    requires IsPlainObject(o) && IsPlainObject(c) && WellFormed(o) && WellFormed(c)
    ensures MergePatch(o, Strip(Diff(o, c))) == Unredact(o, c) <==> Patchable(o, c)
    decreases o, 1
  {
    var got, want := MergePatch(o, Strip(Diff(o, c))), Unredact(o, c);
    forall k ensures Get(got, k) == Get(want, k) <==> (k in c.m ==> MemberPatchable(o, c, k)) {
      MergeMemberAt(o, Strip(Diff(o, c)), k);
      StripMember(Diff(o, c), k);
      DiffMember(o, c, k);
      UnredactMember(o, c, k);
      MemberExact(o, c, k);
    }
    SameReads(got, want);
  }

  /** One member that is not patchable keeps the whole edit from arriving. */
  lemma OneMemberSpoils(o: Json, c: Json, k: string)
    requires IsPlainObject(o) && IsPlainObject(c) && WellFormed(o) && WellFormed(c)
    requires k in c.m && !MemberPatchable(o, c, k)
    ensures MergePatch(o, Strip(Diff(o, c))) != Unredact(o, c)
  {
    PatchExact(o, c);
  }

  /** An added null never arrives: the merge reads it as a deletion. */
  lemma AddedNullIsLost(o: Json, c: Json, k: string)
    requires IsPlainObject(o) && IsPlainObject(c) && WellFormed(o) && WellFormed(c)
    requires k !in o.m && k in c.m && c.m[k] == Null
    ensures MergePatch(o, Strip(Diff(o, c))) != Unredact(o, c)
  {
    OneMemberSpoils(o, c, k);
  }

  /** Nor does an added empty object: it is pruned as if sentinels had emptied it. */
  lemma AddedEmptyObjectIsLost(o: Json, c: Json, k: string)
    requires IsPlainObject(o) && IsPlainObject(c) && WellFormed(o) && WellFormed(c)
    requires k !in o.m && k in c.m && c.m[k] == Node(false, map[])
    ensures MergePatch(o, Strip(Diff(o, c))) != Unredact(o, c)
  {
    OneMemberSpoils(o, c, k);
  }

  /** Nor an object edited into an array with equal members: it is taken for unchanged. */
  lemma ObjectTurnedArrayIsUnnoticed(o: Json, c: Json, k: string)
    requires IsPlainObject(o) && IsPlainObject(c) && WellFormed(o) && WellFormed(c)
    requires k in o.m && k in c.m && IsPlainObject(o.m[k]) && c.m[k] == Node(true, o.m[k].m)
    ensures MergePatch(o, Strip(Diff(o, c))) != Unredact(o, c)
  {
    forall j | j in o.m[k].m ensures DeepEqual(o.m[k].m[j], Get(c.m[k], j)) {
      DeepEqualExact(o.m[k].m[j], o.m[k].m[j]);
    }
    OneMemberSpoils(o, c, k);
  }
}
