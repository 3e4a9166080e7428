/**
 * The patch shares objects with the configuration being edited: a value that was added or replaced
 * enters the patch by reference, at the position it has in the configuration, so stripping the patch
 * in place strips that part of the configuration too (config-schema.ts:350-417).
 */
module ConfigSharing {
  import opened Wrappers
  import opened Json
  import opened ConfigPatch
  import opened ConfigDirty
  import opened ConfigSchema

  /** A part of a patch: an object of its own, a value that nothing changes in place, or the very object
      that the configuration holds at the same position. */
  datatype Part = Own(m: map<string, Part>) | Value(v: Json) | Shared

  /** The parts fit the configuration: own objects lie over objects, shared ones are objects. */
  predicate Fits(p: Part, c: Json)
    decreases p
  {
    match p
    case Own(m) => IsPlainObject(c) && forall k :: k in m ==> Fits(m[k], Get(c, k))
    case Value(v) => !IsPlainObject(v) && v != Undefined
    case Shared => IsPlainObject(c)
  }

  /** What a reader of the patch sees. */
  function Seen(p: Part, c: Json): Json
    decreases p
  {
    match p
    case Own(m) => Node(false, map k | k in m :: Seen(m[k], Get(c, k)))
    case Value(v) => v
    case Shared => c
  }

  /** What stripping the patch in place leaves of the configuration. */
  function Residue(p: Part, c: Json): Json
    decreases p
  {
    match p
    case Own(m) =>
      if !IsPlainObject(c) then c
      else Node(false, map k | k in c.m :: if k in m then Residue(m[k], c.m[k]) else c.m[k])
    case Value(_) => c
    case Shared => if IsPlainObject(c) then Strip(c) else c
  }

  /** The patch as `diffObjects` builds it. */
  function DiffShared(o: Json, c: Json): (p: Part)
    requires IsPlainObject(o) && IsPlainObject(c)
    ensures p.Own?
    decreases o, 1
  {
    Own(map k | k in o.m.Keys + c.m.Keys && Entry(o, c, k) != Undefined :: PartFor(o, c, k))
  }

  function PartFor(o: Json, c: Json, k: string): Part
    requires IsPlainObject(o) && IsPlainObject(c)
    decreases o, 0
  {
    if k !in c.m then Value(Null)
    else if !IsPlainObject(c.m[k]) then Value(c.m[k])
    else if k in o.m && IsPlainObject(o.m[k]) then DiffShared(o.m[k], c.m[k])
    else Shared
  }

  lemma {:induction false} PartForFits(o: Json, c: Json, k: string)
    requires IsPlainObject(o) && IsPlainObject(c) && WellFormed(c) && Entry(o, c, k) != Undefined
    ensures Fits(PartFor(o, c, k), Get(c, k))
    ensures Seen(PartFor(o, c, k), Get(c, k)) == Entry(o, c, k)
    decreases o, 0
  {
    if k in o.m && k in c.m && IsPlainObject(o.m[k]) && IsPlainObject(c.m[k]) {
      DiffSharedFits(o.m[k], c.m[k]);
    }
  }

  /** Read through what it shares, the patch is the diff. */
  lemma {:induction false} DiffSharedFits(o: Json, c: Json)
    requires IsPlainObject(o) && IsPlainObject(c) && WellFormed(c)
    ensures Fits(DiffShared(o, c), c)
    ensures Seen(DiffShared(o, c), c) == Diff(o, c)
    decreases o, 1
  {
    hide PartFor, Entry;
    var p := DiffShared(o, c);
    forall k | k in p.m
      ensures Fits(p.m[k], Get(c, k)) && Seen(p.m[k], Get(c, k)) == Entry(o, c, k)
    {
      PartForFits(o, c, k);
    }
    SameMembers(Seen(p, c), Diff(o, c));
  }

  // ---- stripping in place ----

  function Lookup(patch: map<string, Part>, k: string): Option<Part> { if k in patch then Some(patch[k]) else None }

  /** One part of the patch and the member of the configuration it lies over, before and after. */
  ghost predicate StrippedAt(p: Part, c: Json, left: Option<Part>, c': Json) {
    && c' == Residue(p, c)
    && match left
       case None => StripValue(Seen(p, c)) == Undefined
       case Some(q) => Fits(q, c') && Seen(q, c') == StripValue(Seen(p, c))
  }

  /** The parts still to do are as they were, the others are stripped in both places. */
  ghost predicate Underway(patch: map<string, Part>, config: Json, todo: set<string>,
                           patch': map<string, Part>, config': Json) {
    && IsPlainObject(config) && IsPlainObject(config')
    && patch'.Keys <= patch.Keys && config'.m.Keys == config.m.Keys
    && (forall k :: k !in patch ==> Get(config', k) == Get(config, k))
    && (forall k :: k in patch ==>
          if k in todo then Lookup(patch', k) == Some(patch[k]) && Get(config', k) == Get(config, k)
          else StrippedAt(patch[k], Get(config, k), Lookup(patch', k), Get(config', k)))
  }

  /** The loop over the patch: its own entries go, and of what it shares the configuration's. */
  method StripInPlace(patch: map<string, Part>, config: Json) returns (patch': map<string, Part>, config': Json)
    requires Fits(Own(patch), config) && WellFormed(config)
    ensures IsPlainObject(config') && config' == Residue(Own(patch), config)
    ensures Fits(Own(patch'), config') && Seen(Own(patch'), config') == Strip(Seen(Own(patch), config))
    decreases Own(patch)
  {
    hide Underway, StrippedAt, Seen, Residue, Strip, StripValue;
    patch', config' := patch, config;
    var todo := patch.Keys;
    NotBegun(patch, config);
    while todo != {}
      invariant todo <= patch.Keys && Underway(patch, config, todo, patch', config')
      decreases todo
    {
      var key :| key in todo;
      NextPart(patch, config, todo, patch', config', key);
      match patch[key] {
      case Value(v) =>
        ValueDone(v, Get(config, key));
        OneDone(patch, config, todo, patch', config', key, if v == SENTINEL then None else Some(Value(v)),
                Get(config, key));
        if v == SENTINEL {
          patch' := patch' - {key};
        } else {
          assert patch'[key := Value(v)] == patch';
        }
      case Own(m) =>
        var m', inner := StripInPlace(m, config'.m[key]);
        OwnDone(m, config.m[key], m', inner);
        OneDone(patch, config, todo, patch', config', key, if m' == map[] then None else Some(Own(m')), inner);
        config' := Node(false, config'.m[key := inner]);
        patch' := if m' == map[] then patch' - {key} else patch'[key := Own(m')];
      case Shared =>
        var inner := StripRedactedSentinels(config'.m[key]);
        SharedDone(config.m[key], inner);
        OneDone(patch, config, todo, patch', config', key, if inner.m == map[] then None else Some(Shared), inner);
        config' := Node(false, config'.m[key := inner]);
        if inner.m == map[] {
          patch' := patch' - {key};
        } else {
          assert patch'[key := Shared] == patch';
        }
      }
      todo := todo - {key};
    }
    AllStripped(patch, config, patch', config');
  }

  lemma NotBegun(patch: map<string, Part>, config: Json)
    requires IsPlainObject(config)
    ensures Underway(patch, config, patch.Keys, patch, config)
  {
  }

  /** A part not done yet is as it was, on both sides. */
  lemma NextPart(patch: map<string, Part>, config: Json, todo: set<string>, patch': map<string, Part>, config': Json,
                 key: string)
    requires Fits(Own(patch), config) && WellFormed(config) && key in todo && todo <= patch.Keys
    requires Underway(patch, config, todo, patch', config')
    ensures key in patch' && patch'[key] == patch[key] && IsPlainObject(config') && Fits(patch[key], Get(config, key))
    ensures Put(config', key, Get(config, key)) == config'
    ensures !patch[key].Value? ==>
      key in config.m && key in config'.m && config'.m[key] == config.m[key] &&
      IsPlainObject(config.m[key]) && WellFormed(config.m[key])
  {
    assert Fits(patch[key], Get(config, key)) && Lookup(patch', key) == Some(patch[key]);
    if key in config'.m {
      assert config'.m[key := Get(config, key)] == config'.m;
    }
  }

  function Put(config: Json, key: string, member: Json): Json
    requires IsPlainObject(config)
  {
    if key in config.m then Node(false, config.m[key := member]) else config
  }

  /** Writing one finished part to both sides. */
  lemma OneDone(patch: map<string, Part>, config: Json, todo: set<string>, patch': map<string, Part>, config': Json,
                key: string, left: Option<Part>, member: Json)
    requires key in todo && todo <= patch.Keys && Underway(patch, config, todo, patch', config')
    requires StrippedAt(patch[key], Get(config, key), left, member)
    requires key !in config.m ==> member == Undefined
    ensures Underway(patch, config, todo - {key}, if left.None? then patch' - {key} else patch'[key := left.value],
                     Put(config', key, member))
  {
    hide StrippedAt;
  }

  lemma ValueDone(v: Json, c: Json)
    requires Fits(Value(v), c)
    ensures StrippedAt(Value(v), c, if v == SENTINEL then None else Some(Value(v)), c)
  {
  }

  lemma OwnDone(m: map<string, Part>, c: Json, m': map<string, Part>, inner: Json)
    requires inner == Residue(Own(m), c) && Fits(Own(m'), inner) && Seen(Own(m'), inner) == Strip(Seen(Own(m), c))
    ensures StrippedAt(Own(m), c, if m' == map[] then None else Some(Own(m')), inner)
  {
    assert Seen(Own(m'), inner).m.Keys == m'.Keys;
  }

  lemma SharedDone(c: Json, inner: Json)
    requires IsPlainObject(c) && inner == Strip(c)
    ensures StrippedAt(Shared, c, if inner.m == map[] then None else Some(Shared), inner)
  {
  }

  lemma AllStripped(patch: map<string, Part>, config: Json, patch': map<string, Part>, config': Json)
    requires Fits(Own(patch), config) && Underway(patch, config, {}, patch', config')
    ensures config' == Residue(Own(patch), config)
    ensures Fits(Own(patch'), config') && Seen(Own(patch'), config') == Strip(Seen(Own(patch), config))
  {
    hide StripValue;
    forall k | k in config.m
      ensures config'.m[k] == if k in patch then Residue(patch[k], config.m[k]) else config.m[k]
    {
      assert Get(config', k) == config'.m[k] && Get(config, k) == config.m[k];
    }
    SameMembers(config', Residue(Own(patch), config));
    var seen := Seen(Own(patch), config);
    var got, want := Seen(Own(patch'), config'), Strip(seen);
    forall k ensures Get(got, k) == Get(want, k) && (k in got.m <==> k in want.m) {
      PartsAgree(patch, config, patch', config', k);
      StripMember(seen, k);
    }
    forall k | k in got.m ensures got.m[k] == want.m[k] {
      assert Get(got, k) == Get(want, k);
    }
    SameMembers(got, want);
  }

  lemma PartsAgree(patch: map<string, Part>, config: Json, patch': map<string, Part>, config': Json, k: string)
    requires Fits(Own(patch), config) && Underway(patch, config, {}, patch', config')
    ensures Get(Seen(Own(patch'), config'), k) == StripValue(Get(Seen(Own(patch), config), k))
    ensures k in patch' <==> StripValue(Get(Seen(Own(patch), config), k)) != Undefined
    ensures k in patch' ==> Fits(patch'[k], Get(config', k))
  {
    if k in patch {
      assert StrippedAt(patch[k], Get(config, k), Lookup(patch', k), Get(config', k));
      if k in patch' {
        SeenIsThere(patch'[k], Get(config', k));
      }
    }
  }

  lemma SeenIsThere(p: Part, c: Json)
    requires Fits(p, c)
    ensures Seen(p, c) != Undefined
  {
  }

  /** The configuration being edited. */
  class Editor {
    var current: Json

    constructor (current: Json)
      ensures this.current == current
    {
      this.current := current;
    }

    /** The members of the patch; none where the source returns null, which is when nothing differs. */
    static method DiffObjects(original: Json, current: Json) returns (patch: map<string, Part>)
      requires IsPlainObject(original) && IsPlainObject(current) && WellFormed(original) && WellFormed(current)
      ensures Own(patch) == DiffShared(original, current)
      ensures patch == map[] <==> DeepEqual(original, current)
      decreases original
    {
      hide DeepEqual, PartOrNone, WellFormed, DiffShared, Diff;
      patch := map[];
      var todo := original.m.Keys + current.m.Keys;
      ghost var done: set<string> := {};
      while todo != {}
        invariant done !! todo && done + todo == original.m.Keys + current.m.Keys
        invariant forall k :: Lookup(patch, k) == if k in done then PartOrNone(original, current, k) else None
        decreases todo
      {
        var key :| key in todo;
        todo, done := todo - {key}, done + {key};
        var part := PartOf(original, current, key);
        if part.Some? {
          patch := patch[key := part.value];
        }
      }
      PartsAreDiff(original, current, patch);
    }

    /** One turn of that loop. */
    static method PartOf(original: Json, current: Json, key: string) returns (part: Option<Part>)
      requires IsPlainObject(original) && IsPlainObject(current) && WellFormed(original) && WellFormed(current)
      requires key in original.m.Keys + current.m.Keys
      ensures part == PartOrNone(original, current, key)
      decreases original, 0
    {
      hide DeepEqual;
      if key !in current.m {
        return Some(Value(Null));
      }
      var curVal := current.m[key];
      if key !in original.m {
        return Some(if IsPlainObject(curVal) then Shared else Value(curVal));
      }
      var origVal := original.m[key];
      if IsPlainObject(origVal) && IsPlainObject(curVal) {
        DiffSharedFits(origVal, curVal);
        var sub := DiffObjects(origVal, curVal);
        SeenEmpty(sub, curVal);
        return if sub == map[] then None else Some(Own(sub));
      }
      if DeepEqual(origVal, curVal) {
        return None;
      }
      return Some(if IsPlainObject(curVal) then Shared else Value(curVal));
    }

    /** The patch to send, None for "nothing to send". Merged into the original it gives the edited
        configuration, sentinels filled in, exactly when the edit is patchable. The configuration itself
        loses what stripping the patch takes from the objects they share. */
    method ComputePatch(original: Json) returns (result: Option<Json>)
      requires IsPlainObject(original) && IsPlainObject(current) && WellFormed(original) && WellFormed(current)
      modifies this
      ensures result == (var p := Strip(Diff(original, old(current))); if p.m == map[] then None else Some(p))
      ensures (if result.None? then original else MergePatch(original, result.value)) ==
                Unredact(original, old(current))
              <==> Patchable(original, old(current))
      ensures current == Residue(DiffShared(original, old(current)), old(current))
    {
      hide DeepEqual, Patchable, Unredact, MergePatch, DiffShared;
      PatchExact(original, current);
      MergeEmpty(original);
      DiffSharedFits(original, current);
      var patch := DiffObjects(original, current);
      SeenEmpty(patch, current);
      if patch == map[] {
        NothingShared(current);
        assert Strip(Diff(original, current)).m == map[];
        return None;
      }
      patch, current := StripInPlace(patch, current);
      SeenEmpty(patch, current);
      if patch == map[] {
        return None;
      }
      result := Some(Seen(Own(patch), current));
    }
  }

  /** The part of one key, if it has one. */
  function PartOrNone(o: Json, c: Json, k: string): Option<Part>
    requires IsPlainObject(o) && IsPlainObject(c)
  {
    if Entry(o, c, k) != Undefined then Some(PartFor(o, c, k)) else None
  }

  lemma PartsAreDiff(o: Json, c: Json, patch: map<string, Part>)
    requires IsPlainObject(o) && IsPlainObject(c) && WellFormed(o) && WellFormed(c)
    requires forall k :: Lookup(patch, k) == if k in o.m.Keys + c.m.Keys then PartOrNone(o, c, k) else None
    ensures Own(patch) == DiffShared(o, c)
    ensures patch == map[] <==> DeepEqual(o, c)
  {
    hide DeepEqual, PartFor, Entry, WellFormed;
    forall k ensures k in patch <==> k in o.m.Keys + c.m.Keys && Entry(o, c, k) != Undefined
             ensures k in patch ==> patch[k] == PartFor(o, c, k)
    {
      assert Lookup(patch, k) == if k in o.m.Keys + c.m.Keys then PartOrNone(o, c, k) else None;
    }
    assert patch == DiffShared(o, c).m;
    assert patch.Keys == Diff(o, c).m.Keys;
    PatchIffDirty(o, c);
  }

  lemma SeenEmpty(m: map<string, Part>, c: Json)
    ensures Seen(Own(m), c).m == map[] <==> m == map[]
  {
    assert Seen(Own(m), c).m.Keys == m.Keys;
  }

  lemma NothingShared(c: Json)
    requires IsPlainObject(c)
    ensures Residue(Own(map[]), c) == c
  {
    SameMembers(Residue(Own(map[]), c), c);
  }

  // ---- what becomes of the configuration ----

  /** Stripping takes nothing from a value. */
  predicate Clean(v: Json) {
    IsPlainObject(v) ==>
      forall k :: k in v.m ==> v.m[k] != SENTINEL && v.m[k] != Node(false, map[]) && Clean(v.m[k])
  }

  lemma {:induction false} CleanIsStripped(v: Json)
    requires IsPlainObject(v) && WellFormed(v)
    ensures Strip(v) == v <==> Clean(v)
  {
    forall k | k in v.m
      ensures StripValue(v.m[k]) == v.m[k] <==> v.m[k] != SENTINEL && v.m[k] != Node(false, map[]) && Clean(v.m[k])
    {
      if IsPlainObject(v.m[k]) {
        CleanIsStripped(v.m[k]);
      }
    }
    if Strip(v) == v {
      forall k | k in v.m ensures StripValue(v.m[k]) == v.m[k] {
        StripMember(v, k);
      }
    }
    if Clean(v) {
      SameMembers(Strip(v), v);
    }
  }

  /** Every object that was added, or put in the place of something else, is clean. */
  predicate SharesOnlyClean(o: Json, c: Json)
    requires IsPlainObject(o) && IsPlainObject(c)
    decreases o
  {
    forall k :: k in c.m && IsPlainObject(c.m[k]) ==>
      if k in o.m && IsPlainObject(o.m[k]) then SharesOnlyClean(o.m[k], c.m[k])
      else Clean(c.m[k])
  }

  lemma {:induction false} ResidueMember(o: Json, c: Json, k: string)
    requires IsPlainObject(o) && IsPlainObject(c) && WellFormed(c) && k in c.m
    ensures IsPlainObject(Residue(DiffShared(o, c), c)) && k in Residue(DiffShared(o, c), c).m
    ensures var after := Residue(DiffShared(o, c), c).m[k];
      after ==
        if !IsPlainObject(c.m[k]) then c.m[k]
        else if k in o.m && IsPlainObject(o.m[k]) then Residue(DiffShared(o.m[k], c.m[k]), c.m[k])
        else Strip(c.m[k])
  {
    if k in o.m && IsPlainObject(o.m[k]) && IsPlainObject(c.m[k]) && Entry(o, c, k) == Undefined {
      DiffSharedFits(o.m[k], c.m[k]);
      SeenEmpty(DiffShared(o.m[k], c.m[k]).m, c.m[k]);
      NothingShared(c.m[k]);
    }
  }

  /** Computing the patch leaves the configuration as it was exactly when every object it hands over to
      the patch is clean: it holds no sentinel and no empty object. */
  lemma {:induction false} CurrentSurvivesExactly(o: Json, c: Json)
    requires IsPlainObject(o) && IsPlainObject(c) && WellFormed(o) && WellFormed(c)
    ensures Residue(DiffShared(o, c), c) == c <==> SharesOnlyClean(o, c)
    decreases o
  {
    var after := Residue(DiffShared(o, c), c);
    forall k | k in c.m
      ensures k in after.m
      ensures after.m[k] == c.m[k] <==>
        (IsPlainObject(c.m[k]) ==>
           if k in o.m && IsPlainObject(o.m[k]) then SharesOnlyClean(o.m[k], c.m[k])
           else Clean(c.m[k]))
    {
      ResidueMember(o, c, k);
      if IsPlainObject(c.m[k]) {
        CleanIsStripped(c.m[k]);
        if k in o.m && IsPlainObject(o.m[k]) {
          CurrentSurvivesExactly(o.m[k], c.m[k]);
        }
      }
    }
    if SharesOnlyClean(o, c) {
      SameMembers(after, c);
    }
  }

  // ---- trying again ----

  lemma {:induction false} StripTwice(v: Json)
    requires WellFormed(v)
    ensures StripValue(StripValue(v)) == StripValue(v)
    ensures IsPlainObject(v) ==> Strip(Strip(v)) == Strip(v)
  {
    if IsPlainObject(v) {
      var once, twice := Strip(v), Strip(Strip(v));
      forall k ensures Get(twice, k) == Get(once, k) && (k in twice.m <==> k in once.m) {
        StripMember(v, k);
        StripMember(once, k);
        if k in v.m {
          StripTwice(v.m[k]);
        }
      }
      forall k | k in once.m ensures twice.m[k] == once.m[k] {
        assert Get(twice, k) == Get(once, k);
      }
      SameMembers(twice, once);
    }
  }

  lemma {:induction false} SameEntry(o: Json, c: Json, k: string)
    requires IsPlainObject(o) && IsPlainObject(c) && WellFormed(o) && WellFormed(c)
    ensures IsPlainObject(Residue(DiffShared(o, c), c))
    ensures StripValue(Entry(o, Residue(DiffShared(o, c), c), k)) == StripValue(Entry(o, c, k))
    decreases o, 0
  {
    var after := Residue(DiffShared(o, c), c);
    if k in c.m {
      ResidueMember(o, c, k);
      if IsPlainObject(c.m[k]) {
        if k in o.m && IsPlainObject(o.m[k]) {
          SamePatchAgain(o.m[k], c.m[k]);
          EntryStripped(o, c, k);
          EntryStripped(o, after, k);
        } else {
          StripTwice(c.m[k]);
        }
      }
    }
  }

  lemma EntryStripped(o: Json, c: Json, k: string)
    requires IsPlainObject(o) && IsPlainObject(c) && k in o.m && k in c.m
    requires IsPlainObject(o.m[k]) && IsPlainObject(c.m[k])
    ensures var sub := Strip(Diff(o.m[k], c.m[k]));
      StripValue(Entry(o, c, k)) == if sub.m == map[] then Undefined else sub
  {
  }

  /** What stripping takes from the configuration does not show in the patch: computing it again from
      what is left gives the same one. */
  lemma {:induction false} SamePatchAgain(o: Json, c: Json)
    requires IsPlainObject(o) && IsPlainObject(c) && WellFormed(o) && WellFormed(c)
    ensures IsPlainObject(Residue(DiffShared(o, c), c))
    ensures Strip(Diff(o, Residue(DiffShared(o, c), c))) == Strip(Diff(o, c))
    decreases o, 1
  {
    var after := Residue(DiffShared(o, c), c);
    var again, once := Strip(Diff(o, after)), Strip(Diff(o, c));
    forall k ensures Get(again, k) == Get(once, k) && (k in again.m <==> k in once.m) {
      SameEntry(o, c, k);
      DiffMember(o, after, k);
      DiffMember(o, c, k);
      StripMember(Diff(o, after), k);
      StripMember(Diff(o, c), k);
    }
    forall k | k in once.m ensures again.m[k] == once.m[k] {
      assert Get(again, k) == Get(once, k);
    }
    SameMembers(again, once);
  }
}
