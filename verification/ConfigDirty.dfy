/** Which paths of a configuration were edited. A path is its sequence of keys. */
module ConfigDirty {
  import opened Json
  import opened ConfigPatch

  type Path = seq<string>

  function At(v: Json, p: Path): Json
    decreases p
  {
    if p == [] then v else At(Get(v, p[0]), p[1..])
  }

  /** `p` leads through objects on both sides. */
  ghost predicate ThroughObjects(o: Json, c: Json, p: Path) {
    forall i :: 0 < i < |p| ==> IsPlainObject(At(o, p[..i])) && IsPlainObject(At(c, p[..i]))
  }

  ghost predicate IsDirty(o: Json, c: Json, p: Path) {
    p != [] && ThroughObjects(o, c, p) && !DeepEqual(At(o, p), At(c, p))
  }

  lemma AtKey(v: Json, p: Path)
    requires |p| == 1
    ensures At(v, p) == Get(v, p[0])
  {
    assert p[1..] == [];
  }

  lemma AtStep(v: Json, p: Path, i: nat)
    requires 0 < i <= |p|
    ensures At(v, p[..i]) == At(Get(v, p[0]), p[1..][..i - 1])
  {
    assert p[..i][1..] == p[1..][..i - 1];
  }

  /** A dirty path is a differing key, or goes on from one that is an object on both sides. */
  lemma DirtyStep(o: Json, c: Json, p: Path)
    requires p != []
    ensures IsDirty(o, c, p) <==>
              (if |p| == 1 then !DeepEqual(Get(o, p[0]), Get(c, p[0]))
               else && IsPlainObject(Get(o, p[0])) && IsPlainObject(Get(c, p[0]))
                    && IsDirty(Get(o, p[0]), Get(c, p[0]), p[1..]))
  {
    if |p| == 1 {
      assert p[1..] == [];
      AtKey(o, p);
      AtKey(c, p);
    } else {
      assert p[..1] == [p[0]] && p[1..][..0] == [];
      AtStep(o, p, 1);
      AtStep(c, p, 1);
      forall i | 1 < i <= |p|
        ensures At(o, p[..i]) == At(Get(o, p[0]), p[1..][..i - 1])
        ensures At(c, p[..i]) == At(Get(c, p[0]), p[1..][..i - 1])
      {
        AtStep(o, p, i);
        AtStep(c, p, i);
      }
      assert p[..|p|] == p && p[1..][..|p| - 1] == p[1..];
      if ThroughObjects(o, c, p) {
        forall i | 0 < i < |p[1..]|
          ensures IsPlainObject(At(Get(o, p[0]), p[1..][..i])) && IsPlainObject(At(Get(c, p[0]), p[1..][..i]))
        {
          assert IsPlainObject(At(o, p[..i + 1])) && IsPlainObject(At(c, p[..i + 1]));
        }
      }
      if IsPlainObject(Get(o, p[0])) && IsPlainObject(Get(c, p[0]))
         && ThroughObjects(Get(o, p[0]), Get(c, p[0]), p[1..]) {
        forall i | 0 < i < |p| ensures IsPlainObject(At(o, p[..i])) && IsPlainObject(At(c, p[..i])) {
          assert i > 1 ==> IsPlainObject(At(Get(o, p[0]), p[1..][..i - 1]));
        }
      }
    }
  }

  /** Objects that agree, agree at every key. */
  lemma EqualAtKey(o: Json, c: Json, k: string)
    requires IsPlainObject(o) && IsPlainObject(c) && DeepEqual(o, c)
    ensures DeepEqual(Get(o, k), Get(c, k))
  {
    assert k in o.m.Keys + c.m.Keys ==> DeepEqual(o.m[k], Get(c, k));
  }

  /** Something dirty below an object makes the object differ. */
  lemma {:induction false} DirtyBelow(o: Json, c: Json, p: Path)
    requires IsPlainObject(o) && IsPlainObject(c) && IsDirty(o, c, p)
    ensures !DeepEqual(o, c)
  {
    DirtyStep(o, c, p);
    if |p| > 1 {
      DirtyBelow(Get(o, p[0]), Get(c, p[0]), p[1..]);
    }
    if DeepEqual(o, c) {
      EqualAtKey(o, c, p[0]);
    }
  }

  /** The dirty paths are closed under non-empty prefixes. */
  lemma {:induction false} DirtyIsPrefixClosed(o: Json, c: Json, p: Path, i: nat)
    requires IsDirty(o, c, p) && 0 < i <= |p|
    ensures IsDirty(o, c, p[..i])
  {
    if i == |p| {
      assert p[..i] == p;
    } else {
      DirtyStep(o, c, p);
      DirtyStep(o, c, p[..i]);
      if i == 1 {
        DirtyBelow(Get(o, p[0]), Get(c, p[0]), p[1..]);
      } else {
        DirtyIsPrefixClosed(Get(o, p[0]), Get(c, p[0]), p[1..], i - 1);
        assert p[..i][1..] == p[1..][..i - 1];
      }
    }
  }

  /** A key that differs is a key of one side. */
  lemma DirtyKeyExists(o: Json, c: Json, k: string)
    requires IsPlainObject(o) && IsPlainObject(c) && !DeepEqual(Get(o, k), Get(c, k))
    ensures k in o.m.Keys + c.m.Keys
  {
  }

  /** There is a patch exactly when something differs, and then its top-level keys are the dirty ones. */
  lemma {:induction false} PatchIffDirty(o: Json, c: Json)
    requires IsPlainObject(o) && IsPlainObject(c) && WellFormed(o) && WellFormed(c)
    ensures Diff(o, c).m == map[] <==> DeepEqual(o, c)
    ensures forall k :: k in Diff(o, c).m <==> IsDirty(o, c, [k])
  {
    forall k ensures k in Diff(o, c).m <==> IsDirty(o, c, [k])
             ensures IsDirty(o, c, [k]) <==> !DeepEqual(Get(o, k), Get(c, k)) {
      DiffMember(o, c, k);
      DirtyStep(o, c, [k]);
      if IsPlainObject(Get(o, k)) && IsPlainObject(Get(c, k)) {
        PatchIffDirty(o.m[k], c.m[k]);
      }
    }
    if Diff(o, c).m == map[] {
      forall k | k in o.m.Keys + c.m.Keys ensures k in o.m && DeepEqual(o.m[k], Get(c, k)) {
        assert k !in Diff(o, c).m;
      }
    } else {
      var k :| k in Diff(o, c).m;
      if DeepEqual(o, c) {
        EqualAtKey(o, c, k);
      }
    }
  }
}
