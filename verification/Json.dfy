/**
 * JSON values as the config editor sees them. An array is a container whose members are its index
 * keys, so that a path step reads objects and arrays alike; `Undefined` is an absent member.
 */
module Json {
  datatype Json =
    | Undefined
    | Null
    | Bool(b: bool)
    | Num(n: real)
    | Str(s: string)
    | Node(isArray: bool, m: map<string, Json>)

  predicate IsPlainObject(v: Json) { v.Node? && !v.isArray }

  function Get(v: Json, k: string): Json {
    if v.Node? && k in v.m then v.m[k] else Undefined
  }

  /** The keys a value has as a container. */
  function KeysOf(v: Json): set<string> { if v.Node? then v.m.Keys else {} }

  /** No member is explicitly undefined, at any depth. */
  ghost predicate WellFormed(v: Json) {
    v.Node? ==> forall k :: k in v.m ==> v.m[k] != Undefined && WellFormed(v.m[k])
  }

  /** Containers with the same kind and the same members are equal. */
  lemma SameMembers(a: Json, b: Json)
    requires a.Node? && b.Node? && a.isArray == b.isArray && a.m.Keys == b.m.Keys
    requires forall k :: k in a.m ==> a.m[k] == b.m[k]
    ensures a == b
  {
    assert a.m == b.m;
  }

  /** The source's `deepEqual`, which compares an object with an array key by key but not the reverse. */
  predicate DeepEqual(a: Json, b: Json) {
    if !a.Node? || !b.Node? then a == b
    else if a.isArray then
      b.isArray && |a.m| == |b.m| && forall k :: k in a.m ==> DeepEqual(a.m[k], Get(b, k))
    else
      forall k :: k in a.m.Keys + b.m.Keys ==> k in a.m && DeepEqual(a.m[k], Get(b, k))
  }

  /** Somewhere `a` has an object where `b` has an array. */
  predicate Confused(a: Json, b: Json) {
    && a.Node? && b.Node?
    && ((!a.isArray && b.isArray) || exists k :: k in a.m && k in b.m && Confused(a.m[k], b.m[k]))
  }

  /** Values that `DeepEqual` accepts have the same keys. */
  lemma DeepEqualKeys(a: Json, b: Json)
    requires WellFormed(a) && WellFormed(b) && DeepEqual(a, b) && a.Node?
    ensures b.Node? && a.m.Keys == b.m.Keys
  {
    if a.isArray {
      forall k | k in a.m ensures k in b.m {
        assert DeepEqual(a.m[k], Get(b, k));
      }
      Contained(a.m.Keys, b.m.Keys);
    } else {
      forall k | k in a.m.Keys + b.m.Keys ensures k in a.m && k in b.m {
        assert DeepEqual(a.m[k], Get(b, k));
      }
    }
  }

  /** A subset as large as the whole is the whole. */
  lemma Contained(s: set<string>, t: set<string>)
    requires s <= t && |s| == |t|
    ensures s == t
  {
    assert t == s + (t - s);
    assert |t| == |s| + |t - s|;
  }

  /** `deepEqual` is equality, but for an object in the first place of an array in the second. */
  lemma {:induction false} DeepEqualExact(a: Json, b: Json)
    requires WellFormed(a) && WellFormed(b)
    ensures a == b <==> DeepEqual(a, b) && !Confused(a, b)
  {
    if a.Node? && b.Node? {
      forall k | k in a.m && k in b.m
        ensures a.m[k] == b.m[k] <==> DeepEqual(a.m[k], b.m[k]) && !Confused(a.m[k], b.m[k])
      {
        DeepEqualExact(a.m[k], b.m[k]);
      }
      if DeepEqual(a, b) && !Confused(a, b) {
        DeepEqualKeys(a, b);
        assert forall k :: k in a.m ==> DeepEqual(a.m[k], Get(b, k)) && !Confused(a.m[k], b.m[k]);
        SameMembers(a, b);
      }
    }
  }

  /** The exception is real, and one-sided. */
  lemma DeepEqualIsAsymmetric()
    ensures DeepEqual(Node(false, map[]), Node(true, map[]))
    ensures !DeepEqual(Node(true, map[]), Node(false, map[]))
  {
  }
}
