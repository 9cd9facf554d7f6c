/** Map keys: the bridge's equality and hash, and duplicate detection by a hash set. */
module Keys {
  import opened Options
  import opened Numbers
  import opened Types
  import opened Values

  // -------------------------------------------------------------------------------------------
  // Equality

  predicate IsNaN(bits: Word) {
    !Finite(bits) && bits % 0x10_0000_0000_0000 != 0
  }

  predicate IsZero(bits: Word) {
    bits == 0 || bits == TWO63
  }

  /** IEEE equality of binary64 numbers: both zeros are equal, NaN equals nothing. */
  predicate RealEqual(a: Word, b: Word) {
    !IsNaN(a) && !IsNaN(b) && (a == b || (IsZero(a) && IsZero(b)))
  }

  function PartsOf(v: Value): seq<Value> {
    if v.content.Parts? then v.content.parts else []
  }

  /** The engine's equality on scalars and on empty containers of one type. */
  predicate LeafEqual(a: Content, b: Content) {
    match (a, b)
    case (Number(x), Number(y)) => x == y
    case (Real(x), Real(y)) => RealEqual(x, y)
    case (Interval(_, _, _), Interval(_, _, _)) => a == b
    case (Bytes(x), Bytes(y)) => x == y
    case (Parts(x), Parts(y)) => x == [] && y == []
    case _ => false
  }

  predicate KeyEqual(left: Value, right: Value) {
    if left.kind != right.kind then false
    else if left.content.Null? || right.content.Null? then left.content.Null? == right.content.Null?
    else
      var (l, r) := (PartsOf(left), PartsOf(right));
      if |l| != |r| then false
      else if |l| == 0 then LeafEqual(left.content, right.content)
      else forall i :: 0 <= i < |l| ==> KeyEqual(l[i], r[i])
  }

  /** No NaN anywhere inside. */
  predicate Comparable(v: Value) {
    match v.content
    case Real(bits) => !IsNaN(bits)
    case Parts(parts) => forall i :: 0 <= i < |parts| ==> Comparable(parts[i])
    case _ => true
  }

  lemma {:induction false} KeyEqualReflexive(v: Value)
    ensures KeyEqual(v, v) <==> Comparable(v)
  {
    var parts := PartsOf(v);
    forall i | 0 <= i < |parts| ensures KeyEqual(parts[i], parts[i]) <==> Comparable(parts[i]) {
      KeyEqualReflexive(parts[i]);
    }
  }

  lemma {:induction false} KeyEqualSymmetric(a: Value, b: Value)
    ensures KeyEqual(a, b) <==> KeyEqual(b, a)
  {
    var (l, r) := (PartsOf(a), PartsOf(b));
    if |l| == |r| {
      forall i | 0 <= i < |l| ensures KeyEqual(l[i], r[i]) <==> KeyEqual(r[i], l[i]) {
        KeyEqualSymmetric(l[i], r[i]);
      }
    }
  }

  lemma {:induction false} KeyEqualTransitive(a: Value, b: Value, c: Value)
    requires KeyEqual(a, b) && KeyEqual(b, c)
    ensures KeyEqual(a, c)
  {
    var (x, y, z) := (PartsOf(a), PartsOf(b), PartsOf(c));
    if !a.content.Null? {
      forall i | 0 <= i < |x| ensures KeyEqual(x[i], z[i]) {
        KeyEqualTransitive(x[i], y[i], z[i]);
      }
    }
  }

  /** The value with every negative zero made positive. */
  function PlusZero(v: Value): Value {
    match v.content
    case Real(bits) => Value(v.kind, Real(if bits == 0x8000_0000_0000_0000 then 0 else bits))
    case Parts(parts) => Value(v.kind, Parts(seq(|parts|, i requires 0 <= i < |parts| => PlusZero(parts[i]))))
    case _ => v
  }

  /** What key equality means: the same value up to the sign of zeros, with no NaN in it. */
  lemma {:induction false} KeyEqualMeansSame(a: Value, b: Value)
    ensures KeyEqual(a, b) <==> Comparable(a) && Comparable(b) && PlusZero(a) == PlusZero(b)
  {
    var (l, r) := (PartsOf(a), PartsOf(b));
    if |l| == |r| {
      forall i | 0 <= i < |l|
        ensures KeyEqual(l[i], r[i]) <==> Comparable(l[i]) && Comparable(r[i]) && PlusZero(l[i]) == PlusZero(r[i])
      {
        KeyEqualMeansSame(l[i], r[i]);
      }
    }
    if a.content.Parts? && b.content.Parts? {
      var (x, y) := (PlusZero(a).content.parts, PlusZero(b).content.parts);
      assert |x| == |l| && |y| == |r|;
      assert x == y <==> |l| == |r| && forall i :: 0 <= i < |l| ==> PlusZero(l[i]) == PlusZero(r[i]) by {
        if |l| == |r| && forall i :: 0 <= i < |l| ==> PlusZero(l[i]) == PlusZero(r[i]) {
          assert x == y;
        }
        if x == y {
          forall i | 0 <= i < |l| ensures PlusZero(l[i]) == PlusZero(r[i]) {
            assert x[i] == y[i];
          }
        }
      }
    }
  }

  // -------------------------------------------------------------------------------------------
  // Hashing

  /** The standard library's hashes of the inspected fields. */
  datatype Hashers = Hashers(
    word: Word -> bv64, int32: int -> bv64, binary: Word -> bv64, text: seq<Byte> -> bv64)

  /** Equal numbers hash equally, the two zeros included. */
  ghost predicate RespectsZero(h: Hashers) {
    forall a, b :: RealEqual(a, b) ==> h.binary(a) == h.binary(b)
  }

  function Combine(hash: bv64, part: bv64): bv64 {
    hash ^ (part + 0x9e3779b9 + (hash << 6) + (hash >> 2))
  }

  function HashFields(h: Hashers, info: ValueInfo): bv64 {
    var a := Combine(0, h.word(info.low));
    var b := Combine(a, h.word(info.high));
    var c := Combine(b, h.int32(info.months));
    var d := Combine(c, h.int32(info.days));
    var e := Combine(d, h.binary(info.binary));
    if info.bytes == [] then e else Combine(e, h.text(info.bytes))
  }

  /** None is the exception for a type that inspection refuses. */
  function KeyHash(f: Facts, h: Hashers, v: Value): Option<bv64>
    decreases v, 1, 0
  {
    match InspectValue(f, v)
    case None => None
    case Some(info) =>
      if info.isNull then Some(0) else HashParts(f, h, v, |PartsOf(v)|, HashFields(h, info))
  }

  /** The hash after the first count parts. */
  function HashParts(f: Facts, h: Hashers, v: Value, count: nat, start: bv64): Option<bv64>
    requires count <= |PartsOf(v)|
    decreases v, 0, count
  {
    if count == 0 then Some(start)
    else
      match (HashParts(f, h, v, count - 1, start), KeyHash(f, h, PartsOf(v)[count - 1]))
      case (Some(hash), Some(part)) => Some(Combine(hash, part))
      case _ => None
  }

  /** Inspection works at every depth. */
  predicate Hashable(f: Facts, v: Value) {
    InspectValue(f, v).Some? && forall i :: 0 <= i < |PartsOf(v)| ==> Hashable(f, PartsOf(v)[i])
  }

  /** The same fields, but perhaps for the sign of a zero. */
  predicate SameFields(x: ValueInfo, y: ValueInfo) {
    x.(binary := y.binary) == y && (x.binary == y.binary || RealEqual(x.binary, y.binary))
  }

  lemma {:induction false} EqualLeavesInspectEqually(f: Facts, a: Value, b: Value)
    requires KeyEqual(a, b)
    ensures InspectValue(f, a).Some? <==> InspectValue(f, b).Some?
    ensures InspectValue(f, a).Some? ==> SameFields(InspectValue(f, a).value, InspectValue(f, b).value)
  {
  }

  lemma SameFieldsHashEqually(h: Hashers, x: ValueInfo, y: ValueInfo)
    requires RespectsZero(h) && SameFields(x, y)
    ensures HashFields(h, x) == HashFields(h, y)
  {
    assert h.binary(x.binary) == h.binary(y.binary);
  }

  lemma {:induction false} EqualKeysHashEqually(f: Facts, h: Hashers, a: Value, b: Value)
    requires RespectsZero(h) && KeyEqual(a, b)
    ensures KeyHash(f, h, a) == KeyHash(f, h, b)
    decreases a, 0
  {
    EqualLeavesInspectEqually(f, a, b);
    if InspectValue(f, a).Some? && !a.content.Null? {
      SameFieldsHashEqually(h, InspectValue(f, a).value, InspectValue(f, b).value);
      EqualPartsHashEqually(f, h, a, b, |PartsOf(a)|, HashFields(h, InspectValue(f, a).value));
    }
  }

  lemma {:induction false} EqualPartsHashEqually(f: Facts, h: Hashers, a: Value, b: Value, count: nat, start: bv64)
    requires RespectsZero(h) && KeyEqual(a, b) && !a.content.Null? && count <= |PartsOf(a)|
    ensures count <= |PartsOf(b)| && HashParts(f, h, a, count, start) == HashParts(f, h, b, count, start)
    decreases a, 0, count
  {
    if count > 0 {
      EqualPartsHashEqually(f, h, a, b, count - 1, start);
      EqualKeysHashEqually(f, h, PartsOf(a)[count - 1], PartsOf(b)[count - 1]);
    }
  }

  lemma {:induction false} HashedIffHashable(f: Facts, h: Hashers, v: Value)
    ensures KeyHash(f, h, v).Some? <==> Hashable(f, v)
    decreases v, 0
  {
    if InspectValue(f, v).Some? && !v.content.Null? {
      PartsHashedIffHashable(f, h, v, |PartsOf(v)|, HashFields(h, InspectValue(f, v).value));
    }
  }

  lemma {:induction false} PartsHashedIffHashable(f: Facts, h: Hashers, v: Value, count: nat, start: bv64)
    requires count <= |PartsOf(v)|
    ensures HashParts(f, h, v, count, start).Some? <==> forall i :: 0 <= i < count ==> Hashable(f, PartsOf(v)[i])
    decreases v, 0, count
  {
    if count > 0 {
      PartsHashedIffHashable(f, h, v, count - 1, start);
      HashedIffHashable(f, h, PartsOf(v)[count - 1]);
    }
  }

  // -------------------------------------------------------------------------------------------
  // The hash set

  /** A member and the hash it was stored under. */
  datatype Member = Member(hash: bv64, key: Value)

  /** A lookup compares with the members of equal hash only. */
  predicate Found(members: seq<Member>, hash: bv64, key: Value) {
    exists i :: 0 <= i < |members| && members[i].hash == hash && KeyEqual(members[i].key, key)
  }

  predicate StoredUnder(f: Facts, h: Hashers, member: Member, key: Value) {
    member.key == key && KeyHash(f, h, key) == Some(member.hash)
  }

  /** The set holds exactly these keys, each under its own hash. */
  predicate Holds(f: Facts, h: Hashers, members: seq<Member>, keys: seq<Value>) {
    |members| == |keys| && forall i :: 0 <= i < |keys| ==> StoredUnder(f, h, members[i], keys[i])
  }

  predicate SeenBefore(keys: seq<Value>, key: Value) {
    exists i :: 0 <= i < |keys| && KeyEqual(keys[i], key)
  }

  /** Looking at equal hashes is enough: the set finds a duplicate exactly when some pair is equal. */
  lemma HashSetAgreesWithPairs(f: Facts, h: Hashers, members: seq<Member>, keys: seq<Value>, key: Value)
    requires RespectsZero(h) && Holds(f, h, members, keys) && KeyHash(f, h, key).Some?
    ensures Found(members, KeyHash(f, h, key).value, key) <==> SeenBefore(keys, key)
  {
    if SeenBefore(keys, key) {
      var i :| 0 <= i < |keys| && KeyEqual(keys[i], key);
      EqualKeysHashEqually(f, h, keys[i], key);
      assert StoredUnder(f, h, members[i], keys[i]);
    }
    if Found(members, KeyHash(f, h, key).value, key) {
      var i :| 0 <= i < |members| && members[i].hash == KeyHash(f, h, key).value && KeyEqual(members[i].key, key);
      assert StoredUnder(f, h, members[i], keys[i]);
    }
  }

  lemma InsertHolds(f: Facts, h: Hashers, members: seq<Member>, keys: seq<Value>, member: Member, key: Value)
    requires Holds(f, h, members, keys) && StoredUnder(f, h, member, key)
    ensures Holds(f, h, members + [member], keys + [key])
  {
    forall i | 0 <= i < |keys| + 1 ensures StoredUnder(f, h, (members + [member])[i], (keys + [key])[i]) {
      if i < |keys| {
        assert StoredUnder(f, h, members[i], keys[i]);
      }
    }
  }
}
