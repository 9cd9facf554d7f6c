/** Building nested values, reading them back at any depth, and who owns the child values meanwhile. */
module Construction {
  import opened Options
  import opened Numbers
  import opened Types
  import opened Values
  import opened Keys

  // -------------------------------------------------------------------------------------------
  // What is accepted

  predicate Container(t: LogicalType) {
    t.List? || t.Array? || t.Struct? || t.Map?
  }

  /** The engine's type of one map entry. */
  function EntryType(f: Facts, t: LogicalType): LogicalType
    requires t.Map?
  {
    Struct([Field(f.entryKey, t.key), Field(f.entryValue, t.value)])
  }

  function KeyAt(children: seq<Option<Value>>, pair: nat): Option<Value>
    requires 2 * pair < |children|
  {
    children[2 * pair]
  }

  function ItemAt(children: seq<Option<Value>>, pair: nat): Option<Value>
    requires 2 * pair + 1 < |children|
  {
    children[2 * pair + 1]
  }

  predicate WidthFits(t: LogicalType, count: nat) {
    (t.Array? ==> count == t.length) && (t.Struct? ==> count == |t.fields|) && (t.Map? ==> count % 2 == 0)
  }

  function ExpectedKind(t: LogicalType, i: nat): LogicalType
    requires t.List? || t.Array? || (t.Struct? && i < |t.fields|)
  {
    match t
    case List(child) => child
    case Array(child, _) => child
    case Struct(fields) => fields[i].kind
  }

  predicate ElementFits(t: LogicalType, i: nat, child: Option<Value>)
    requires t.List? || t.Array? || (t.Struct? && i < |t.fields|)
  {
    child.Some? && child.value.kind == ExpectedKind(t, i)
  }

  predicate EntryFits(t: LogicalType, key: Option<Value>, item: Option<Value>)
    requires t.Map?
  {
    && key.Some? && !key.value.content.Null? && key.value.kind == t.key
    && item.Some? && item.value.kind == t.value
  }

  predicate ElementsFit(t: LogicalType, children: seq<Option<Value>>)
    requires Container(t) && !t.Map? && WidthFits(t, |children|)
  {
    forall i :: 0 <= i < |children| ==> ElementFits(t, i, children[i])
  }

  predicate EntryAllowed(f: Facts, t: LogicalType, children: seq<Option<Value>>, pair: nat)
    requires t.Map? && 2 * pair + 1 < |children|
  {
    EntryFits(t, KeyAt(children, pair), ItemAt(children, pair)) && Hashable(f, KeyAt(children, pair).value)
  }

  predicate SameKey(children: seq<Option<Value>>, i: nat, j: nat)
    requires 2 * i < |children| && 2 * j < |children|
  {
    var (a, b) := (KeyAt(children, i), KeyAt(children, j));
    a.Some? && b.Some? && KeyEqual(a.value, b.value)
  }

  /** The first entries have the right types and keys that inspection accepts, and no two keys are equal. */
  predicate FirstEntriesFit(f: Facts, t: LogicalType, children: seq<Option<Value>>, pairs: nat)
    requires t.Map? && 2 * pairs <= |children|
  {
    && (forall i :: 0 <= i < pairs ==> EntryAllowed(f, t, children, i))
    && (forall i, j :: 0 <= i < j < pairs ==> !SameKey(children, i, j))
  }

  predicate EntriesFit(f: Facts, t: LogicalType, children: seq<Option<Value>>)
    requires t.Map? && |children| % 2 == 0
  {
    FirstEntriesFit(f, t, children, |children| / 2)
  }

  predicate ChildrenFit(f: Facts, t: LogicalType, children: seq<Option<Value>>)
    requires Container(t)
  {
    WidthFits(t, |children|) && if t.Map? then EntriesFit(f, t, children) else ElementsFit(t, children)
  }

  /** One entry of a map value. */
  function EntryOf(f: Facts, t: LogicalType, children: seq<Option<Value>>, pair: nat): Value
    requires t.Map? && 2 * pair + 1 < |children| && EntryAllowed(f, t, children, pair)
  {
    Value(EntryType(f, t), Parts([KeyAt(children, pair).value, ItemAt(children, pair).value]))
  }

  function Assemble(f: Facts, t: LogicalType, children: seq<Option<Value>>): Value
    requires Container(t) && ChildrenFit(f, t, children)
  {
    if t.Map? then
      Value(t, Parts(seq(|children| / 2, i requires 0 <= i < |children| / 2 =>
                           EntryOf(f, t, children, i))))
    else
      Value(t, Parts(seq(|children|, i requires 0 <= i < |children| => children[i].value)))
  }

  /** None is the invalid-argument error; a missing child is a null pointer. */
  function MakeValue(f: Facts, t: LogicalType, info: ValueInfo, children: seq<Option<Value>>): Option<Value> {
    if |children| > MAX_CHILDREN then None
    else if info.isNull then
      if children != [] then None else Some(Value(t, Null))
    else if Container(t) then
      if ChildrenFit(f, t, children) then Some(Assemble(f, t, children)) else None
    else if children != [] then None
    else
      match MakeScalar(f, t, info)
      case Some(content) => Some(Value(t, content))
      case None => None
  }

  // -------------------------------------------------------------------------------------------
  // Children read back

  function ValueChild(v: Value, index: nat): (child: Option<Value>)
    ensures child.Some? ==> child.value < v
  {
    if v.content.Null? || index >= |PartsOf(v)| then None else Some(PartsOf(v)[index])
  }

  /** A reader takes the two fields of each map entry in turn. */
  function PartAt(v: Value, index: nat): (part: Option<Value>)
    ensures part.Some? ==> part.value < v
  {
    if v.kind.Map? then
      match ValueChild(v, index / 2)
      case Some(entry) => ValueChild(entry, index % 2)
      case None => None
    else ValueChild(v, index)
  }

  lemma MadeEntry(f: Facts, t: LogicalType, info: ValueInfo, children: seq<Option<Value>>, pair: nat)
    requires t.Map? && MakeValue(f, t, info, children).Some? && 2 * pair + 1 < |children|
    ensures children[2 * pair].Some? && children[2 * pair + 1].Some?
    ensures MakeValue(f, t, info, children).value.kind == t
    ensures ValueChild(MakeValue(f, t, info, children).value, pair) ==
            Some(Value(EntryType(f, t), Parts([children[2 * pair].value, children[2 * pair + 1].value])))
  {
    assert EntryAllowed(f, t, children, pair);
    assert PartsOf(MakeValue(f, t, info, children).value)[pair] == EntryOf(f, t, children, pair);
  }

  /** The parts of a made value are its children in order, map entries flattened. */
  lemma MadeParts(f: Facts, t: LogicalType, info: ValueInfo, children: seq<Option<Value>>, i: nat)
    requires MakeValue(f, t, info, children).Some? && i < |children|
    ensures children[i].Some? && PartAt(MakeValue(f, t, info, children).value, i) == children[i]
  {
    if t.Map? {
      var pair := i / 2;
      MadeEntry(f, t, info, children, pair);
      assert i == 2 * pair || i == 2 * pair + 1;
    } else {
      assert ElementFits(t, i, children[i]);
    }
  }

  // -------------------------------------------------------------------------------------------
  // Ownership

  /** A value object on the heap; frees and owners count what happened to it. */
  class Cell {
    const value: Value
    var frees: nat
    var owners: nat

    constructor (value: Value)
      ensures this.value == value && frees == 0 && owners == 0
    {
      this.value := value;
      frees, owners := 0, 0;
    }
  }

  function ValueOf(cell: Cell?): Option<Value> {
    if cell == null then None else Some(cell.value)
  }

  function Contents(slots: array<Cell?>): seq<Option<Value>>
    reads slots
  {
    seq(slots.Length, i requires 0 <= i < slots.Length reads slots =>
          ValueOf(slots[i]))
  }

  /** The caller hands over distinct cells. */
  predicate Distinct(cells: seq<Cell?>) {
    forall i, j :: 0 <= i < j < |cells| && cells[i] != null ==> cells[i] != cells[j]
  }

  /** Nobody owns or has freed any of these cells. */
  predicate Loose(cells: seq<Cell?>)
    reads cells
  {
    forall i :: 0 <= i < |cells| && cells[i] != null ==> cells[i].frees == 0 && cells[i].owners == 0
  }

  /** Frees each cell; null pointers are skipped. */
  method Release(cells: seq<Cell?>)
    requires Distinct(cells)
    modifies cells
    ensures forall i :: 0 <= i < |cells| && cells[i] != null ==>
              cells[i].frees == old(cells[i].frees) + 1 && cells[i].owners == old(cells[i].owners)
  {
    var i := 0;
    while i < |cells|
      invariant 0 <= i <= |cells|
      invariant forall j :: 0 <= j < |cells| && cells[j] != null ==>
                  && cells[j].frees == old(cells[j].frees) + (if j < i then 1 else 0)
                  && cells[j].owners == old(cells[j].owners)
    {
      if cells[i] != null {
        cells[i].frees := cells[i].frees + 1;
      }
      i := i + 1;
    }
  }

  /** The new value becomes the owner of each cell. */
  method Adopt(cells: seq<Cell>)
    requires Distinct(cells)
    modifies cells
    ensures forall i :: 0 <= i < |cells| ==>
              cells[i].owners == old(cells[i].owners) + 1 && cells[i].frees == old(cells[i].frees)
  {
    var i := 0;
    while i < |cells|
      invariant 0 <= i <= |cells|
      invariant forall j :: 0 <= j < |cells| ==>
                  && cells[j].owners == old(cells[j].owners) + (if j < i then 1 else 0)
                  && cells[j].frees == old(cells[j].frees)
    {
      cells[i].owners := cells[i].owners + 1;
      i := i + 1;
    }
  }

  /** What leaving the function does to the slots on every path: free what is left and null the slot. */
  method ConsumeSlots(slots: array<Cell?>)
    requires Distinct(slots[..])
    modifies slots, slots[..]
    ensures forall i :: 0 <= i < slots.Length ==> slots[i] == null
    ensures forall c: Cell :: c in old(slots[..]) ==> c.frees == old(c.frees) + 1 && c.owners == old(c.owners)
  {
    var i := 0;
    while i < slots.Length
      invariant 0 <= i <= slots.Length
      invariant forall j :: 0 <= j < i ==> slots[j] == null
      invariant forall j :: i <= j < slots.Length ==> slots[j] == old(slots[j])
      invariant forall j :: 0 <= j < slots.Length && old(slots[j]) != null ==>
                  && old(slots[j]).frees == old(slots[j].frees) + (if j < i then 1 else 0)
                  && old(slots[j]).owners == old(slots[j].owners)
    {
      if slots[i] != null {
        slots[i].frees := slots[i].frees + 1;
      }
      slots[i] := null;
      i := i + 1;
    }
  }

  /** The cells that stood in the slots before position count, in order. */
  predicate MovedFrom(values: seq<Cell>, cells: seq<Cell?>, count: nat) {
    |values| == count <= |cells| && forall i :: 0 <= i < count ==> values[i] == cells[i]
  }

  /** The slots before position count are null and the others untouched. */
  twostate predicate EmptiedUpTo(slots: array<Cell?>, count: nat)
    reads slots
  {
    && count <= slots.Length
    && (forall i :: 0 <= i < count ==> slots[i] == null)
    && (forall i :: count <= i < slots.Length ==> slots[i] == old(slots[i]))
  }

  /** Moves list, array or struct children out of the slots, up to the first that does not fit. */
  method MoveElements(t: LogicalType, slots: array<Cell?>) returns (ok: bool, values: seq<Cell>)
    requires Container(t) && !t.Map? && WidthFits(t, slots.Length)
    modifies slots
    ensures ok <==> ElementsFit(t, old(Contents(slots)))
    ensures ok ==> |values| == slots.Length
    ensures MovedFrom(values, old(slots[..]), |values|) && EmptiedUpTo(slots, |values|)
  {
    values := [];
    var i := 0;
    while i < slots.Length
      invariant i == |values| && MovedFrom(values, old(slots[..]), i) && EmptiedUpTo(slots, i)
      invariant forall j :: 0 <= j < i ==> ElementFits(t, j, old(Contents(slots))[j])
    {
      if slots[i] == null || slots[i].value.kind != ExpectedKind(t, i) {
        assert !ElementFits(t, i, old(Contents(slots))[i]);
        return false, values;
      }
      values := values + [slots[i]];
      slots[i] := null;
      i := i + 1;
    }
    return true, values;
  }

  ghost predicate KeysOf(keys: seq<Value>, children: seq<Option<Value>>)
    requires 2 * |keys| <= |children|
  {
    forall i :: 0 <= i < |keys| ==> KeyAt(children, i) == Some(keys[i])
  }

  /** One more entry fits exactly when it is allowed and its key is new. */
  lemma OneMoreEntry(f: Facts, t: LogicalType, children: seq<Option<Value>>, keys: seq<Value>)
    requires t.Map? && 2 * |keys| + 1 < |children|
    requires FirstEntriesFit(f, t, children, |keys|) && KeysOf(keys, children)
    ensures FirstEntriesFit(f, t, children, |keys| + 1) <==>
            (EntryAllowed(f, t, children, |keys|) && !SeenBefore(keys, KeyAt(children, |keys|).value))
  {
    var n := |keys|;
    if EntryAllowed(f, t, children, n) && SeenBefore(keys, KeyAt(children, n).value) {
      var i :| 0 <= i < n && KeyEqual(keys[i], KeyAt(children, n).value);
      assert SameKey(children, i, n);
    }
  }

  lemma FewerEntriesFit(f: Facts, t: LogicalType, children: seq<Option<Value>>, pairs: nat, fewer: nat)
    requires t.Map? && fewer <= pairs && 2 * pairs <= |children| && FirstEntriesFit(f, t, children, pairs)
    ensures FirstEntriesFit(f, t, children, fewer)
  {
  }

  /** Checks one entry and remembers its key. */
  method Insert(f: Facts, h: Hashers, t: LogicalType, key: Cell?, item: Cell?, members: seq<Member>,
                ghost children: seq<Option<Value>>, ghost keys: seq<Value>)
    returns (ok: bool, inserted: seq<Member>)
    requires t.Map? && RespectsZero(h) && Holds(f, h, members, keys)
    requires 2 * |keys| + 1 < |children| && KeysOf(keys, children) && FirstEntriesFit(f, t, children, |keys|)
    requires KeyAt(children, |keys|) == ValueOf(key) && ItemAt(children, |keys|) == ValueOf(item)
    ensures ok <==> FirstEntriesFit(f, t, children, |keys| + 1)
    ensures ok ==> key != null && item != null && Holds(f, h, inserted, keys + [key.value])
  {
    inserted := members;
    OneMoreEntry(f, t, children, keys);
    if key == null || key.value.content.Null? || key.value.kind != t.key || item == null || item.value.kind != t.value {
      return false, members;
    }
    HashedIffHashable(f, h, key.value);
    var hash := KeyHash(f, h, key.value);
    if hash.None? {
      return false, members;
    }
    HashSetAgreesWithPairs(f, h, members, keys, key.value);
    if Found(members, hash.value, key.value) {
      return false, members;
    }
    InsertHolds(f, h, members, keys, Member(hash.value, key.value), key.value);
    return true, members + [Member(hash.value, key.value)];
  }

  /** Moves map entries out of the slots, up to the first that does not fit or repeats a key. */
  method MoveEntries(f: Facts, h: Hashers, t: LogicalType, slots: array<Cell?>) returns (ok: bool, values: seq<Cell>)
    requires t.Map? && slots.Length % 2 == 0 && RespectsZero(h)
    modifies slots
    ensures ok <==> EntriesFit(f, t, old(Contents(slots)))
    ensures ok ==> |values| == slots.Length
    ensures MovedFrom(values, old(slots[..]), |values|) && EmptiedUpTo(slots, |values|)
  {
    values := [];
    ghost var given, keys: seq<Value> := Contents(slots), [];
    var members: seq<Member> := [];
    var i := 0;
    while 2 * i < slots.Length
      invariant |values| == 2 * i && MovedFrom(values, old(slots[..]), 2 * i) && EmptiedUpTo(slots, 2 * i)
      invariant |keys| == i && Holds(f, h, members, keys)
      invariant KeysOf(keys, given) && FirstEntriesFit(f, t, given, i)
    {
      var key, item := slots[2 * i], slots[2 * i + 1];
      ok, members := Insert(f, h, t, key, item, members, given, keys);
      if !ok {
        if EntriesFit(f, t, given) {
          FewerEntriesFit(f, t, given, slots.Length / 2, i + 1);
        }
        return false, values;
      }
      keys := keys + [key.value];
      values := values + [key, item];
      slots[2 * i], slots[2 * i + 1] := null, null;
      i := i + 1;
    }
    return true, values;
  }

  /** Decides what to build, moving children out of the slots on the way. */
  method Decide(f: Facts, h: Hashers, t: LogicalType, info: ValueInfo, slots: array<Cell?>)
    returns (value: Option<Value>, values: seq<Cell>)
    requires RespectsZero(h)
    modifies slots
    ensures value == MakeValue(f, t, info, old(Contents(slots)))
    ensures value.Some? ==> |values| == slots.Length
    ensures MovedFrom(values, old(slots[..]), |values|) && EmptiedUpTo(slots, |values|)
  {
    ghost var given := Contents(slots);
    value, values := None, [];
    if slots.Length > MAX_CHILDREN {
      return;
    }
    if info.isNull {
      return if slots.Length == 0 then Some(Value(t, Null)) else None, [];
    }
    if Container(t) {
      if !WidthFits(t, slots.Length) {
        return;
      }
      var ok;
      if t.Map? {
        ok, values := MoveEntries(f, h, t, slots);
      } else {
        ok, values := MoveElements(t, slots);
      }
      if ok {
        var children := seq(|values|, i requires 0 <= i < |values| => Some(values[i].value));
        assert children == given;
        value := Some(Assemble(f, t, children));
      }
      return;
    }
    if slots.Length == 0 {
      var content := MakeScalar(f, t, info);
      value := if content.Some? then Some(Value(t, content.value)) else None;
    }
  }

  /**
   * Makes a value from the children in the slots. Whatever happens, every slot is null afterwards and every
   * child is either owned once by the new value or freed once.
   */
  method ValueMake(f: Facts, h: Hashers, t: LogicalType, info: ValueInfo, slots: array<Cell?>) returns (made: Cell?)
    requires RespectsZero(h) && Distinct(slots[..]) && Loose(slots[..])
    modifies slots, slots[..]
    ensures made != null ==> fresh(made)
    ensures ValueOf(made) == MakeValue(f, t, info, old(Contents(slots)))
    ensures forall i :: 0 <= i < slots.Length ==> slots[i] == null
    ensures forall c: Cell :: c in old(slots[..]) ==>
              c.owners == (if made != null then 1 else 0) && c.frees == 1 - c.owners
  {
    ghost var cells := slots[..];
    var value, values := Decide(f, h, t, info, slots);
    assert forall i :: 0 <= i < |values| ==> values[i] == cells[i];
    if value.Some? {
      made := new Cell(value.value);
      Adopt(values);
    } else {
      made := null;
      Release(values);
    }
    ConsumeSlots(slots);
  }
}
