/** What computing the patch leaves of the configuration, told leaf by leaf and object by object. */
module ConfigResidue {
  import opened Json
  import opened ConfigPatch
  import opened ConfigDirty
  import opened ConfigPaths
  import opened ConfigSharing

  /** The way to `q` leads through objects. */
  predicate AllObjects(v: Json, q: Path) { forall m :: 0 <= m < |q| ==> IsPlainObject(At(v, q[..m])) }

  /** `q` lies inside an object of the configuration that the original does not have as an object. */
  predicate InsideNew(o: Json, c: Json, q: Path) {
    AllObjects(c, q) && exists n :: 0 < n < |q| && !IsPlainObject(At(o, q[..n]))
  }

  /** An object is worth sending when somewhere in it, through objects, stands a value that is no marker. */
  ghost predicate HoldsValue(v: Json) { exists q :: IsValueIn(v, q) }

  predicate IsValueIn(v: Json, q: Path) {
    q != [] && AllObjects(v, q) && At(v, q) != Undefined && At(v, q) != SENTINEL && !IsPlainObject(At(v, q))
  }

  lemma AllObjectsStep(v: Json, q: Path)
    requires q != []
    ensures AllObjects(v, q) <==> IsPlainObject(v) && AllObjects(Get(v, q[0]), q[1..])
  {
    assert q[..0] == [];
    forall m | 0 < m < |q| ensures At(v, q[..m]) == At(Get(v, q[0]), q[1..][..m - 1]) {
      AtStep(v, q, m);
    }
    if IsPlainObject(v) && AllObjects(Get(v, q[0]), q[1..]) {
      forall m | 0 < m < |q| ensures IsPlainObject(At(v, q[..m])) {
        assert IsPlainObject(At(Get(v, q[0]), q[1..][..m - 1]));
      }
    }
    if AllObjects(v, q) {
      forall m | 0 <= m < |q[1..]| ensures IsPlainObject(At(Get(v, q[0]), q[1..][..m])) {
        var n := m + 1;
        assert IsPlainObject(At(v, q[..n]));
      }
    }
  }

  lemma InsideNewStep(o: Json, c: Json, q: Path)
    requires IsPlainObject(c) && |q| > 1
    ensures InsideNew(o, c, q) <==>
      if IsPlainObject(Get(o, q[0])) then InsideNew(Get(o, q[0]), Get(c, q[0]), q[1..])
      else AllObjects(Get(c, q[0]), q[1..])
  {
    hide AllObjects;
    AllObjectsStep(c, q);
    AtStep(o, q, 1);
    assert q[1..][..0] == [];
    forall m | 0 < m < |q| ensures At(o, q[..m]) == At(Get(o, q[0]), q[1..][..m - 1]) {
      AtStep(o, q, m);
    }
    if IsPlainObject(Get(o, q[0])) && InsideNew(Get(o, q[0]), Get(c, q[0]), q[1..]) {
      var n :| 0 < n < |q[1..]| && !IsPlainObject(At(Get(o, q[0]), q[1..][..n]));
      var m := n + 1;
      assert !IsPlainObject(At(o, q[..m]));
    }
  }

  // ---- stripping ----

  lemma {:induction false} StripLeaf(v: Json, q: Path)
    requires IsPlainObject(v) && WellFormed(v) && q != [] && !IsPlainObject(At(v, q))
    ensures At(Strip(v), q) == if At(v, q) == SENTINEL && AllObjects(v, q) then Undefined else At(v, q)
    decreases q
  {
    hide AllObjects;
    var x := Get(v, q[0]);
    StripMember(v, q[0]);
    AllObjectsStep(v, q);
    if |q| == 1 {
      AtKey(v, q);
      AtKey(Strip(v), q);
      NoStep(x, q[1..]);
    } else if IsPlainObject(x) {
      StripLeaf(x, q[1..]);
      NothingBelow(Undefined, q[1..]);
      EmptyBelow(false, q[1..]);
    } else {
      AllObjectsStep(x, q[1..]);
      NothingBelow(Undefined, q[1..]);
      NothingBelow(SENTINEL, q[1..]);
    }
  }

  lemma NoStep(v: Json, q: Path)
    requires q == []
    ensures AllObjects(v, q)
  {
  }

  lemma {:induction false} StripObject(v: Json, q: Path)
    requires IsPlainObject(v) && WellFormed(v) && q != [] && AllObjects(v, q) && IsPlainObject(At(v, q))
    ensures At(Strip(v), q) == StripValue(At(v, q))
    decreases q
  {
    hide AllObjects;
    StripMember(v, q[0]);
    AllObjectsStep(v, q);
    if |q| == 1 {
      AtKey(v, q);
      AtKey(Strip(v), q);
    } else {
      AllObjectsStep(Get(v, q[0]), q[1..]);
      StripObject(Get(v, q[0]), q[1..]);
      NothingBelow(Undefined, q[1..]);
      EmptyBelow(false, q[1..]);
    }
  }

  /** Stripping leaves an object exactly when it holds a value. */
  lemma {:induction false} StripKeepsExactly(v: Json)
    requires IsPlainObject(v) && WellFormed(v)
    ensures StripValue(v) != Undefined <==> HoldsValue(v)
  {
    if q :| IsValueIn(v, q) {
      StripLeaf(v, q);
      if |q| > 1 { NothingBelow(Undefined, q[1..]); } else { AtKey(Strip(v), q); }
    }
    if StripValue(v) != Undefined {
      var k :| k in Strip(v).m;
      StripMember(v, k);
      var x := v.m[k];
      if IsPlainObject(x) {
        StripKeepsExactly(x);
        var q :| IsValueIn(x, q);
        ValueOneDown(v, k, q);
      } else {
        AtKey(v, [k]);
        assert [k][..0] == [];
        assert IsValueIn(v, [k]);
      }
    }
  }

  lemma ValueOneDown(v: Json, k: string, q: Path)
    requires IsPlainObject(v) && IsValueIn(Get(v, k), q)
    ensures IsValueIn(v, [k] + q)
  {
    hide AllObjects;
    assert ([k] + q)[1..] == q;
    AllObjectsStep(v, [k] + q);
  }

  // ---- the configuration after the patch was computed ----

  function After(o: Json, c: Json): Json
    requires IsPlainObject(o) && IsPlainObject(c)
  {
    Residue(DiffShared(o, c), c)
  }

  /** A value stays as it is, but for the markers inside objects that are new: those are taken out. */
  lemma {:induction false} LeafAfterPatch(o: Json, c: Json, q: Path)
    requires IsPlainObject(o) && IsPlainObject(c) && WellFormed(c) && q != [] && !IsPlainObject(At(c, q))
    ensures At(After(o, c), q) == if At(c, q) == SENTINEL && InsideNew(o, c, q) then Undefined else At(c, q)
    decreases q
  {
    hide InsideNew, AllObjects, DiffShared, Residue, Strip;
    var k := q[0];
    SameKeys(o, c);
    if k !in c.m {
      assert Get(After(o, c), k) == Get(c, k);
      NotInside(o, c, q);
    } else {
      ResidueMember(o, c, k);
      if |q| == 1 {
        AtKey(c, q);
        NotInside(o, c, q);
      } else {
        InsideNewStep(o, c, q);
        if !IsPlainObject(c.m[k]) {
          AllObjectsStep(c.m[k], q[1..]);
          NotInside(Get(o, k), c.m[k], q[1..]);
        } else if IsPlainObject(Get(o, k)) {
          LeafAfterPatch(o.m[k], c.m[k], q[1..]);
        } else {
          StripLeaf(c.m[k], q[1..]);
        }
      }
    }
  }

  lemma NotInside(o: Json, c: Json, q: Path)
    requires |q| <= 1 || !IsPlainObject(c) || !IsPlainObject(Get(c, q[0]))
    ensures !InsideNew(o, c, q)
  {
    if |q| > 1 {
      AllObjectsStep(c, q);
      AllObjectsStep(Get(c, q[0]), q[1..]);
    }
  }

  lemma SameKeys(o: Json, c: Json)
    requires IsPlainObject(o) && IsPlainObject(c)
    ensures IsPlainObject(After(o, c)) && After(o, c).m.Keys == c.m.Keys
  {
  }

  /** An object stays one, but for those inside a new object that hold no value: they are taken out. */
  lemma {:induction false} ObjectAfterPatch(o: Json, c: Json, q: Path)
    requires IsPlainObject(o) && IsPlainObject(c) && WellFormed(c) && AllObjects(c, q) && IsPlainObject(At(c, q))
    ensures var after := At(After(o, c), q);
      if InsideNew(o, c, q) && !HoldsValue(At(c, q)) then after == Undefined else IsPlainObject(after)
    decreases q
  {
    hide InsideNew, AllObjects, DiffShared, Residue, HoldsValue;
    SameKeys(o, c);
    if q != [] {
      var k := q[0];
      AllObjectsStep(c, q);
      if |q| == 1 {
        AtKey(c, q);
        AtKey(After(o, c), q);
        ResidueMember(o, c, k);
        NotInside(o, c, q);
        if IsPlainObject(Get(o, k)) {
          SameKeys(o.m[k], c.m[k]);
        }
      } else {
        AllObjectsStep(Get(c, k), q[1..]);
        ResidueMember(o, c, k);
        InsideNewStep(o, c, q);
        if IsPlainObject(Get(o, k)) {
          ObjectAfterPatch(o.m[k], c.m[k], q[1..]);
        } else {
          WellFormedAt(c, q);
          StripObject(c.m[k], q[1..]);
          StripKeepsExactly(At(c, q));
        }
      }
    } else {
      NotInside(o, c, q);
    }
  }

  lemma {:induction false} WellFormedAt(v: Json, q: Path)
    requires WellFormed(v)
    ensures WellFormed(At(v, q))
    decreases q
  {
    if q != [] {
      WellFormedAt(Get(v, q[0]), q[1..]);
    }
  }
}
