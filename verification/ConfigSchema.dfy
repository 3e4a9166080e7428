/** Stripping sentinels in place, and the loops that find the dirty paths (config-schema.ts:297-342, 406-417). */
module ConfigSchema {
  import opened Json
  import opened ConfigPatch
  import opened ConfigDirty
  import opened ConfigNames

  /** The object left in place of `obj` once its sentinels are stripped. */
  method StripRedactedSentinels(obj: Json) returns (stripped: Json)
    requires IsPlainObject(obj) && WellFormed(obj)
    ensures stripped == Strip(obj)
    decreases obj
  {
    var m := obj.m;
    var keys := obj.m.Keys;
    ghost var seen: set<string> := {};
    while keys != {}
      invariant seen !! keys && seen + keys == obj.m.Keys
      invariant m.Keys <= obj.m.Keys
      invariant forall k :: k in keys ==> k in m && m[k] == obj.m[k]
      invariant forall k :: k in seen ==> (k in m <==> StripValue(obj.m[k]) != Undefined)
      invariant forall k :: k in seen && k in m ==> m[k] == StripValue(obj.m[k])
      decreases keys
    {
      var key :| key in keys;
      keys, seen := keys - {key}, seen + {key};
      var val := m[key];
      if val == SENTINEL {
        m := m - {key};
      } else if IsPlainObject(val) {
        var inner := StripRedactedSentinels(val);
        m := m[key := inner];
        if inner.m == map[] {
          m := m - {key};
        }
      }
    }
    stripped := Node(false, m);
    SameMembers(stripped, Strip(obj));
  }

  method ComputeDirtyPaths(original: Json, current: Json) returns (dirty: set<string>)
    requires IsPlainObject(original) && IsPlainObject(current)
    ensures forall k :: k in dirty <==> IsDirty(original, current, [k])
  {
    dirty := {};
    var allKeys := original.m.Keys + current.m.Keys;
    ghost var seen: set<string> := {};
    while allKeys != {}
      invariant seen !! allKeys && seen + allKeys == original.m.Keys + current.m.Keys
      invariant forall k :: k in dirty <==> k in seen && !DeepEqual(Get(original, k), Get(current, k))
      decreases allKeys
    {
      var key :| key in allKeys;
      allKeys, seen := allKeys - {key}, seen + {key};
      if !DeepEqual(Get(original, key), Get(current, key)) {
        dirty := dirty + {key};
      }
    }
    forall k ensures k in dirty <==> IsDirty(original, current, [k]) {
      DirtyStep(original, current, [k]);
      if !DeepEqual(Get(original, k), Get(current, k)) {
        DirtyKeyExists(original, current, k);
      }
    }
  }

  /** The name, after the prefix, of a dirty path whose first key is among `keys`. */
  ghost predicate NamedUnder(o: Json, c: Json, prefix: string, keys: set<string>, p: Path, name: string) {
    p != [] && p[0] in keys && IsDirty(o, c, p) && NameFrom(prefix, p) == name
  }

  ghost predicate NamesUnder(o: Json, c: Json, prefix: string, keys: set<string>, name: string) {
    exists p :: NamedUnder(o, c, prefix, keys, p, name)
  }

  /** The name, after the prefix, of a dirty path. */
  ghost predicate IsDirtyName(o: Json, c: Json, prefix: string, name: string) {
    exists p :: IsDirty(o, c, p) && NameFrom(prefix, p) == name
  }

  /** The names of the dirty paths below `prefix`: exactly those of the paths through objects on both sides
      where the values differ. */
  method ComputeDeepDirtyPaths(original: Json, current: Json, prefix: string) returns (dirty: set<string>)
    requires IsPlainObject(original) && IsPlainObject(current)
    ensures forall name :: name in dirty <==> IsDirtyName(original, current, prefix, name)
    decreases original
  {
    dirty := {};
    var allKeys := original.m.Keys + current.m.Keys;
    ghost var seen: set<string> := {};
    while allKeys != {}
      invariant seen !! allKeys && seen + allKeys == original.m.Keys + current.m.Keys
      invariant forall name :: name in dirty <==> NamesUnder(original, current, prefix, seen, name)
      decreases allKeys
    {
      hide IsDirtyName, NamesUnder, DeepEqual;
      var key :| key in allKeys;
      ghost var before := seen;
      allKeys, seen := allKeys - {key}, seen + {key};
      var path := Joined(prefix, key);
      var origVal, curVal := Get(original, key), Get(current, key);
      ghost var was := dirty;
      if !DeepEqual(origVal, curVal) {
        dirty := dirty + {path};
        if IsPlainObject(origVal) && IsPlainObject(curVal) {
          var subs := ComputeDeepDirtyPaths(origVal, curVal, path);
          dirty := dirty + subs;
        }
      }
      forall name ensures name in dirty <==> NamesUnder(original, current, prefix, seen, name) {
        OneMoreName(original, current, prefix, before, key, name);
      }
    }
    forall name ensures name in dirty <==> IsDirtyName(original, current, prefix, name) {
      AllNames(original, current, prefix, seen, name);
    }
  }

  lemma AllNames(o: Json, c: Json, prefix: string, keys: set<string>, name: string)
    requires IsPlainObject(o) && IsPlainObject(c) && keys == o.m.Keys + c.m.Keys
    ensures NamesUnder(o, c, prefix, keys, name) <==> IsDirtyName(o, c, prefix, name)
  {
    hide IsDirty;
    if p :| IsDirty(o, c, p) && NameFrom(prefix, p) == name {
      DirtyIsNotEmpty(o, c, p);
      DirtyIsPrefixClosed(o, c, p, 1);
      DirtyStep(o, c, p[..1]);
      DirtyKeyExists(o, c, p[0]);
      assert NamedUnder(o, c, prefix, keys, p, name);
    }
    if p :| NamedUnder(o, c, prefix, keys, p, name) {
      assert IsDirty(o, c, p);
    }
  }

  lemma NameOfKey(prefix: string, key: string)
    ensures NameFrom(prefix, [key]) == Joined(prefix, key)
  {
    assert [key][1..] == [];
  }

  lemma NamesThrough(o: Json, c: Json, prefix: string, keys: set<string>, key: string, name: string)
    requires key in keys && !DeepEqual(Get(o, key), Get(c, key))
    ensures name == Joined(prefix, key) ==> NamesUnder(o, c, prefix, keys, name)
    ensures IsPlainObject(Get(o, key)) && IsPlainObject(Get(c, key)) &&
            IsDirtyName(Get(o, key), Get(c, key), Joined(prefix, key), name) ==>
              NamesUnder(o, c, prefix, keys, name)
  {
    hide IsDirty, DeepEqual;
    DirtyStep(o, c, [key]);
    if name == Joined(prefix, key) {
      NameOfKey(prefix, key);
      assert NamedUnder(o, c, prefix, keys, [key], name);
    }
    if IsPlainObject(Get(o, key)) && IsPlainObject(Get(c, key)) {
      if q :| IsDirty(Get(o, key), Get(c, key), q) && NameFrom(Joined(prefix, key), q) == name {
        DirtyIsNotEmpty(Get(o, key), Get(c, key), q);
        var p := [key] + q;
        assert p[1..] == q;
        DirtyStep(o, c, p);
        assert NamedUnder(o, c, prefix, keys, p, name);
      }
    }
  }

  lemma DirtyIsNotEmpty(o: Json, c: Json, p: Path)
    requires IsDirty(o, c, p)
    ensures p != []
  {
  }

  /** A dirty path through a key names the key itself or something dirty below it. */
  lemma ThroughKey(o: Json, c: Json, prefix: string, key: string, p: Path)
    requires IsDirty(o, c, p) && p != [] && p[0] == key
    ensures !DeepEqual(Get(o, key), Get(c, key))
    ensures NameFrom(prefix, p) == Joined(prefix, key) ||
            (IsPlainObject(Get(o, key)) && IsPlainObject(Get(c, key)) &&
             IsDirtyName(Get(o, key), Get(c, key), Joined(prefix, key), NameFrom(prefix, p)))
  {
    hide IsDirty, DeepEqual;
    DirtyStep(o, c, p);
    if |p| > 1 {
      DirtyBelow(Get(o, key), Get(c, key), p[1..]);
    } else {
      assert p == [key];
      NameOfKey(prefix, key);
    }
  }

  /** The names through one more key: the key's own when it differs, and those below it. */
  lemma OneMoreName(o: Json, c: Json, prefix: string, keys: set<string>, key: string, name: string)
    ensures NamesUnder(o, c, prefix, keys + {key}, name) <==>
              NamesUnder(o, c, prefix, keys, name) ||
              (!DeepEqual(Get(o, key), Get(c, key)) &&
               (name == Joined(prefix, key) ||
                (IsPlainObject(Get(o, key)) && IsPlainObject(Get(c, key)) &&
                 IsDirtyName(Get(o, key), Get(c, key), Joined(prefix, key), name))))
  {
    hide IsDirty, DeepEqual, IsDirtyName, IsPlainObject, NameFrom, Joined;
    if p :| NamedUnder(o, c, prefix, keys + {key}, p, name) {
      if p[0] in keys {
        assert NamedUnder(o, c, prefix, keys, p, name);
      } else {
        ThroughKey(o, c, prefix, key, p);
      }
    }
    if p :| NamedUnder(o, c, prefix, keys, p, name) {
      assert NamedUnder(o, c, prefix, keys + {key}, p, name);
    }
    if !DeepEqual(Get(o, key), Get(c, key)) {
      NamesThrough(o, c, prefix, keys + {key}, key, name);
    }
  }
}
