/** Logical types: building them from descriptors, and reading them back through inspect and child. */
module Types {
  import opened Options

  const MAX_CHILDREN := 131072

  const DECIMAL := 41
  const LIST := 52
  const ARRAY := 53
  const STRUCT := 54
  const MAP := 55

  /** Graph covers node, relationship and recursive relationship types; Hidden any type inspect refuses. */
  datatype LogicalType =
    | Scalar(tag: nat)
    | Decimal(precision: nat, scale: nat)
    | List(child: LogicalType)
    | Array(child: LogicalType, length: nat)
    | Map(key: LogicalType, value: LogicalType)
    | Struct(fields: seq<Field>)
    | Graph(tag: nat, fields: seq<Field>)
    | Hidden(tag: nat)

  datatype Field = Field(name: string, kind: LogicalType)

  datatype TypeInfo = TypeInfo(tag: nat, aux1: nat, aux2: nat, children: nat)

  /** The tags a caller may build without children. */
  predicate InputTag(tag: nat) {
    22 <= tag <= 40 || tag == 43 || tag == 50 || tag == 51 || tag == 59 || tag == 60
  }

  // -------------------------------------------------------------------------------------------
  // Reading

  /** None is the unsupported-type error. */
  function Inspect(t: LogicalType): Option<TypeInfo> {
    match t
    case Scalar(tag) => Some(TypeInfo(tag, 0, 0, 0))
    case Decimal(precision, scale) => Some(TypeInfo(DECIMAL, precision, scale, 0))
    case List(_) => Some(TypeInfo(LIST, 0, 0, 1))
    case Array(_, length) => Some(TypeInfo(ARRAY, length, 0, 1))
    case Map(_, _) => Some(TypeInfo(MAP, 0, 0, 2))
    case Struct(fields) => Some(TypeInfo(STRUCT, 0, 0, |fields|))
    case Graph(tag, fields) => Some(TypeInfo(tag, 0, 0, |fields|))
    case Hidden(_) => None
  }

  datatype ChildAnswer = Child(kind: LogicalType, name: string) | Unsupported | OutOfRange

  /** A cursor is needed only for names; without one the name is empty. */
  function TypeChild(t: LogicalType, index: nat, named: bool): ChildAnswer {
    match Inspect(t)
    case None => Unsupported
    case Some(info) =>
      if index >= info.children then OutOfRange
      else match t
        case List(child) => Child(child, "")
        case Array(child, _) => Child(child, "")
        case Map(key, value) => Child(if index == 0 then key else value, "")
        case Struct(fields) => Child(fields[index].kind, if named then fields[index].name else "")
        case Graph(_, fields) => Child(fields[index].kind, if named then fields[index].name else "")
        case _ => OutOfRange
  }

  // -------------------------------------------------------------------------------------------
  // Building

  predicate DistinctNames(names: seq<string>) {
    forall i, j :: 0 <= i < j < |names| ==> names[i] != names[j]
  }

  /** A missing child is a null pointer. */
  predicate AllPresent(children: seq<Option<LogicalType>>) {
    forall i :: 0 <= i < |children| ==> children[i].Some?
  }

  function Fields(children: seq<Option<LogicalType>>, names: seq<string>): seq<Field>
    requires |names| == |children| && AllPresent(children)
  {
    seq(|children|, i requires 0 <= i < |children| => Field(names[i], children[i].value))
  }

  predicate FieldsAllowed(children: seq<Option<LogicalType>>, names: Option<seq<string>>) {
    children == [] || (names.Some? && |names.value| == |children| && DistinctNames(names.value) && AllPresent(children))
  }

  /** None is the invalid-argument error. */
  function MakeType(tag: nat, aux1: nat, aux2: nat, children: seq<Option<LogicalType>>, names: Option<seq<string>>)
    : Option<LogicalType>
  {
    if |children| > MAX_CHILDREN then None
    else if tag == DECIMAL then
      if children != [] || aux1 < 1 || aux1 > 38 || aux2 > aux1 then None else Some(Decimal(aux1, aux2))
    else if tag == LIST then
      if |children| != 1 || children[0].None? then None else Some(List(children[0].value))
    else if tag == ARRAY then
      if |children| != 1 || aux1 == 0 || aux1 > MAX_CHILDREN || children[0].None? then None
      else Some(Array(children[0].value, aux1))
    else if tag == MAP then
      if |children| != 2 || children[0].None? || children[1].None? then None
      else Some(Map(children[0].value, children[1].value))
    else if tag == STRUCT then
      if !FieldsAllowed(children, names) then None
      else Some(Struct(if children == [] then [] else Fields(children, names.value)))
    else if children != [] || !InputTag(tag) then None
    else Some(Scalar(tag))
  }

  /** The bridge's field loop: names are checked as they come, against a set of those seen. */
  method MakeFields(children: seq<Option<LogicalType>>, names: Option<seq<string>>) returns (fields: Option<seq<Field>>)
    requires names.Some? ==> |names.value| == |children|
    ensures fields.Some? <==> FieldsAllowed(children, names)
    ensures fields.Some? ==> fields.value == if children == [] then [] else Fields(children, names.value)
  {
    var built: seq<Field>, seen: set<string> := [], {};
    var i := 0;
    while i < |children|
      invariant 0 <= i <= |children| && |built| == i
      invariant i > 0 ==> names.Some?
      invariant names.Some? ==> forall name :: name in seen <==> name in names.value[..i]
      invariant names.Some? ==> DistinctNames(names.value[..i])
      invariant forall j :: 0 <= j < i ==> children[j].Some? && built[j] == Field(names.value[j], children[j].value)
    {
      if names.None? {
        return None;
      }
      var name := names.value[i];
      assert names.value[..i + 1] == names.value[..i] + [name];
      if name in seen {
        assert exists j :: 0 <= j < i && names.value[j] == name;
        return None;
      }
      seen := seen + {name};
      if children[i].None? {
        return None;
      }
      built := built + [Field(name, children[i].value)];
      i := i + 1;
    }
    if names.Some? {
      assert names.value[..i] == names.value;
    }
    fields := Some(built);
  }

  method TypeMake(tag: nat, aux1: nat, aux2: nat, children: seq<Option<LogicalType>>, names: Option<seq<string>>)
    returns (made: Option<LogicalType>)
    requires names.Some? ==> |names.value| == |children|
    ensures made == MakeType(tag, aux1, aux2, children, names)
  {
    if |children| > MAX_CHILDREN {
      return None;
    }
    match tag {
      case 41 =>
        if |children| != 0 || aux1 < 1 || aux1 > 38 || aux2 > aux1 {
          return None;
        }
        made := Some(Decimal(aux1, aux2));
      case 52 =>
        if |children| != 1 || children[0].None? {
          return None;
        }
        made := Some(List(children[0].value));
      case 53 =>
        if |children| != 1 || aux1 == 0 || aux1 > MAX_CHILDREN || children[0].None? {
          return None;
        }
        made := Some(Array(children[0].value, aux1));
      case 55 =>
        if |children| != 2 || children[0].None? || children[1].None? {
          return None;
        }
        made := Some(Map(children[0].value, children[1].value));
      case 54 =>
        var fields := MakeFields(children, names);
        if fields.None? {
          return None;
        }
        made := Some(Struct(fields.value));
      case _ =>
        if |children| != 0 || !InputTag(tag) {
          return None;
        }
        made := Some(Scalar(tag));
    }
  }

  // -------------------------------------------------------------------------------------------
  // Descriptor trees

  datatype Descriptor =
    Descriptor(tag: nat, aux1: nat, aux2: nat, children: seq<Descriptor>, names: seq<string>)

  /** Boolean and integers, floating point, date, timestamps and interval; text, bytes, UUID and JSON. */
  const INPUT_SCALARS: set<nat> := {
    22, 23, 24, 25, 26, 27, 28, 29, 30, 31, 43,
    32, 33, 34, 35, 36, 37, 38, 39, 40,
    50, 51, 59, 60}

  predicate WellFormed(d: Descriptor) {
    && |d.children| <= 131072
    && (forall i :: 0 <= i < |d.children| ==> WellFormed(d.children[i]))
    && |d.names| == |d.children|
    && (if d.tag == 41 then d.children == [] && 1 <= d.aux1 <= 38 && d.aux2 <= d.aux1
        else if d.tag == 52 then |d.children| == 1
        else if d.tag == 53 then |d.children| == 1 && 1 <= d.aux1 <= 131072
        else if d.tag == 55 then |d.children| == 2
        else if d.tag == 54 then DistinctNames(d.names)
        else d.children == [] && d.tag in INPUT_SCALARS)
  }

  /** Building a tree bottom up, as the callers of the bridge do. */
  function Build(d: Descriptor): Option<LogicalType> {
    if |d.names| != |d.children| then None
    else MakeType(d.tag, d.aux1, d.aux2,
                  seq(|d.children|, i requires 0 <= i < |d.children| => Build(d.children[i])), Some(d.names))
  }

  /** Reading a type, with a cursor, through the inspectors alone. */
  function ReadBack(t: LogicalType): Option<Descriptor>
    decreases t, 1
  {
    if Inspect(t).None? then None
    else
      var info := Inspect(t).value;
      var parts := seq(info.children, i requires 0 <= i < info.children => ReadChild(t, i));
      if exists i :: 0 <= i < |parts| && parts[i].None? then None
      else
        Some(Descriptor(info.tag, info.aux1, info.aux2,
                        seq(|parts|, i requires 0 <= i < |parts| => parts[i].value),
                        seq(|parts|, i requires 0 <= i < |parts| => ChildOf(t, i).name)))
  }

  function ChildOf(t: LogicalType, i: nat): (answer: ChildAnswer)
    requires Inspect(t).Some? && i < Inspect(t).value.children
    ensures answer.Child? && answer.kind < t
  {
    TypeChild(t, i, true)
  }

  function ReadChild(t: LogicalType, i: nat): Option<Descriptor>
    requires Inspect(t).Some? && i < Inspect(t).value.children
    decreases t, 0
  {
    ReadBack(ChildOf(t, i).kind)
  }

  /** What building ignores reads back as zero or as an empty name. */
  function Canonical(d: Descriptor): Descriptor {
    Descriptor(d.tag,
               if d.tag == DECIMAL || d.tag == ARRAY then d.aux1 else 0,
               if d.tag == DECIMAL then d.aux2 else 0,
               seq(|d.children|, i requires 0 <= i < |d.children| => Canonical(d.children[i])),
               seq(|d.names|, i requires 0 <= i < |d.names| => if d.tag == STRUCT then d.names[i] else ""))
  }

  /** A tree can be built exactly when it is well formed. */
  lemma {:induction false} BuildableIffWellFormed(d: Descriptor)
    ensures Build(d).Some? <==> WellFormed(d)
  {
    forall i | 0 <= i < |d.children| ensures Build(d.children[i]).Some? <==> WellFormed(d.children[i]) {
      BuildableIffWellFormed(d.children[i]);
    }
    if |d.names| == |d.children| {
      var built := seq(|d.children|, i requires 0 <= i < |d.children| => Build(d.children[i]));
      assert forall i :: 0 <= i < |built| ==> built[i] == Build(d.children[i]);
      assert AllPresent(built) <==> forall i :: 0 <= i < |d.children| ==> WellFormed(d.children[i]);
    }
  }

  /** Building and reading back gives the same tree, names included. */
  lemma {:induction false} BuildThenRead(d: Descriptor)
    requires Build(d).Some?
    ensures ReadBack(Build(d).value) == Some(Canonical(d))
  {
    BuildableIffWellFormed(d);
    var t := Build(d).value;
    var info := Inspect(t).value;
    forall i | 0 <= i < |d.children|
      ensures Build(d.children[i]).Some? && ReadBack(Build(d.children[i]).value) == Some(Canonical(d.children[i]))
    {
      BuildableIffWellFormed(d.children[i]);
      BuildThenRead(d.children[i]);
    }
    assert info.children == |d.children|;
    forall i | 0 <= i < info.children
      ensures ReadChild(t, i) == Some(Canonical(d.children[i]))
      ensures ChildOf(t, i).name == if d.tag == STRUCT then d.names[i] else ""
    {
      assert ChildOf(t, i).kind == Build(d.children[i]).value;
    }
    ReadBackFromParts(t, Canonical(d));
  }

  /** A type reads back as the tree whose parts are read from its children. */
  lemma ReadBackFromParts(t: LogicalType, d: Descriptor)
    requires Inspect(t).Some? && |d.children| == |d.names| == Inspect(t).value.children
    requires Inspect(t).value == TypeInfo(d.tag, d.aux1, d.aux2, |d.children|)
    requires forall i :: 0 <= i < |d.children| ==> ReadChild(t, i) == Some(d.children[i]) && ChildOf(t, i).name == d.names[i]
    ensures ReadBack(t) == Some(d)
  {
    var parts := seq(|d.children|, i requires 0 <= i < |d.children| => ReadChild(t, i));
    assert forall i :: 0 <= i < |parts| ==> parts[i] == Some(d.children[i]);
    assert seq(|parts|, i requires 0 <= i < |parts| => parts[i].value) == d.children;
    assert seq(|parts|, i requires 0 <= i < |parts| => ChildOf(t, i).name) == d.names;
  }

  /** What is read back builds the same type again. */
  lemma {:induction false} CanonicalBuildsSame(d: Descriptor)
    requires Build(d).Some?
    ensures Build(Canonical(d)) == Build(d)
  {
    BuildableIffWellFormed(d);
    var again := Canonical(d);
    forall i | 0 <= i < |d.children| ensures Build(again.children[i]) == Build(d.children[i]) {
      BuildableIffWellFormed(d.children[i]);
      CanonicalBuildsSame(d.children[i]);
    }
    assert seq(|d.children|, i requires 0 <= i < |d.children| => Build(d.children[i])) ==
           seq(|again.children|, i requires 0 <= i < |again.children| => Build(again.children[i]));
    if d.tag == STRUCT {
      assert again.names == d.names;
    }
  }
}
