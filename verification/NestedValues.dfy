/** Nested values of any depth: built bottom up, read back through inspect and child alone. */
module NestedValues {
  import opened Options
  import opened Numbers
  import opened Types
  import opened Values
  import opened Keys
  import opened Construction

  /** What a caller wants to pass: the children of a map alternate between keys and values. */
  datatype Tree = Tree(kind: LogicalType, info: ValueInfo, children: seq<Tree>)

  function BuildAll(f: Facts, trees: seq<Tree>): (built: seq<Option<Value>>)
    ensures |built| == |trees|
    ensures forall i :: 0 <= i < |trees| ==> built[i] == BuildTree(f, trees[i])
  {
    seq(|trees|, i requires 0 <= i < |trees| => BuildTree(f, trees[i]))
  }

  function BuildTree(f: Facts, tree: Tree): Option<Value> {
    MakeValue(f, tree.kind, tree.info, BuildAll(f, tree.children))
  }

  function ReadPart(f: Facts, v: Value, index: nat): Option<Tree>
    decreases v, 0
  {
    match PartAt(v, index)
    case Some(part) => ReadTree(f, part)
    case None => None
  }

  function PartCount(kind: LogicalType, info: ValueInfo): nat {
    if kind.Map? then 2 * info.children else info.children
  }

  function ReadTree(f: Facts, v: Value): Option<Tree>
    decreases v, 1
  {
    match InspectValue(f, v)
    case None => None
    case Some(info) =>
      var parts := seq(PartCount(v.kind, info), i requires 0 <= i < PartCount(v.kind, info) => ReadPart(f, v, i));
      if exists i :: 0 <= i < |parts| && parts[i].None? then None
      else Some(Tree(v.kind, info, seq(|parts|, i requires 0 <= i < |parts| => parts[i].value)))
  }

  /** Every type in the tree is one that inspection accepts. */
  predicate Readable(tree: Tree) {
    Inspect(tree.kind).Some? && forall i :: 0 <= i < |tree.children| ==> Readable(tree.children[i])
  }

  function ExpectedInfo(f: Facts, tree: Tree): ValueInfo {
    if tree.info.isNull then BLANK.(isNull := true)
    else if tree.kind.Map? then BLANK.(children := |tree.children| / 2)
    else if Container(tree.kind) then BLANK.(children := |tree.children|)
    else Kept(f, tree.kind, tree.info)
  }

  /** The tree with every field its types do not use blanked. */
  function Expected(f: Facts, tree: Tree): Tree {
    Tree(tree.kind, ExpectedInfo(f, tree),
         seq(|tree.children|, i requires 0 <= i < |tree.children| => Expected(f, tree.children[i])))
  }

  /** A value reads back as the tree whose parts are read from its children. */
  lemma ReadTreeFromParts(f: Facts, v: Value, tree: Tree)
    requires tree.kind == v.kind && InspectValue(f, v) == Some(tree.info)
    requires PartCount(v.kind, tree.info) == |tree.children|
    requires forall i :: 0 <= i < |tree.children| ==> ReadPart(f, v, i) == Some(tree.children[i])
    ensures ReadTree(f, v) == Some(tree)
  {
    var parts := seq(|tree.children|, i requires 0 <= i < |tree.children| => ReadPart(f, v, i));
    assert forall i :: 0 <= i < |parts| ==> parts[i] == Some(tree.children[i]);
    assert seq(|parts|, i requires 0 <= i < |parts| => parts[i].value) == tree.children;
  }

  /** Inspection of a built value gives its scalar fields or its number of children. */
  lemma BuiltInspects(f: Facts, tree: Tree)
    requires Readable(tree) && BuildTree(f, tree).Some?
    ensures BuildTree(f, tree).value.kind == tree.kind
    ensures InspectValue(f, BuildTree(f, tree).value) == Some(ExpectedInfo(f, tree))
    ensures PartCount(tree.kind, ExpectedInfo(f, tree)) == |tree.children|
  {
    if !tree.info.isNull && !Container(tree.kind) {
      ScalarRoundTrip(f, tree.kind, tree.info);
    }
  }

  /** The parts of a built value are the values built for the children, map entries flattened. */
  lemma BuiltParts(f: Facts, tree: Tree, i: nat)
    requires BuildTree(f, tree).Some? && i < |tree.children|
    ensures BuildTree(f, tree.children[i]).Some?
    ensures PartAt(BuildTree(f, tree).value, i) == BuildTree(f, tree.children[i])
  {
    MadeParts(f, tree.kind, tree.info, BuildAll(f, tree.children), i);
  }

  /** Building a tree of any depth and reading it back gives the same tree. */
  lemma {:induction false} BuildThenReadTree(f: Facts, tree: Tree)
    requires Readable(tree) && BuildTree(f, tree).Some?
    ensures ReadTree(f, BuildTree(f, tree).value) == Some(Expected(f, tree))
  {
    var v := BuildTree(f, tree).value;
    BuiltInspects(f, tree);
    forall i | 0 <= i < |tree.children| ensures ReadPart(f, v, i) == Some(Expected(f, tree.children[i])) {
      BuiltParts(f, tree, i);
      BuildThenReadTree(f, tree.children[i]);
    }
    ReadTreeFromParts(f, v, Expected(f, tree));
  }

  /** No NaN can be built, so equality is reflexive on what can. */
  lemma {:induction false} BuiltIsComparable(f: Facts, tree: Tree)
    requires BuildTree(f, tree).Some?
    ensures Comparable(BuildTree(f, tree).value)
  {
    forall i | 0 <= i < |tree.children|
      ensures BuildTree(f, tree.children[i]).Some? && Comparable(BuildTree(f, tree.children[i]).value)
    {
      BuiltParts(f, tree, i);
      BuiltIsComparable(f, tree.children[i]);
    }
    PartsAreComparable(f, tree);
  }

  lemma PartsAreComparable(f: Facts, tree: Tree)
    requires BuildTree(f, tree).Some?
    requires forall i :: 0 <= i < |tree.children| ==>
               BuildTree(f, tree.children[i]).Some? && Comparable(BuildTree(f, tree.children[i]).value)
    ensures Comparable(BuildTree(f, tree).value)
  {
    var v, children := BuildTree(f, tree).value, BuildAll(f, tree.children);
    forall j | 0 <= j < |PartsOf(v)| ensures Comparable(PartsOf(v)[j]) {
      if tree.kind.Map? {
        assert PartsOf(v)[j] == EntryOf(f, tree.kind, children, j);
        assert KeyAt(children, j) == BuildTree(f, tree.children[2 * j]);
        assert ItemAt(children, j) == BuildTree(f, tree.children[2 * j + 1]);
      } else {
        assert ElementFits(tree.kind, j, children[j]);
        assert PartsOf(v)[j] == BuildTree(f, tree.children[j]).value;
      }
    }
  }

  /** Hashing refuses no readable value that was built. */
  lemma {:induction false} BuiltIsHashable(f: Facts, tree: Tree)
    requires Readable(tree) && BuildTree(f, tree).Some?
    ensures Hashable(f, BuildTree(f, tree).value)
  {
    BuiltInspects(f, tree);
    forall i | 0 <= i < |tree.children|
      ensures BuildTree(f, tree.children[i]).Some? && Hashable(f, BuildTree(f, tree.children[i]).value)
    {
      BuiltParts(f, tree, i);
      BuiltIsHashable(f, tree.children[i]);
    }
    var v, children := BuildTree(f, tree).value, BuildAll(f, tree.children);
    forall j | 0 <= j < |PartsOf(v)| ensures Hashable(f, PartsOf(v)[j]) {
      if tree.kind.Map? {
        assert PartsOf(v)[j] == EntryOf(f, tree.kind, children, j);
        assert KeyAt(children, j) == BuildTree(f, tree.children[2 * j]);
        assert ItemAt(children, j) == BuildTree(f, tree.children[2 * j + 1]);
      } else {
        assert ElementFits(tree.kind, j, children[j]);
        assert PartsOf(v)[j] == BuildTree(f, tree.children[j]).value;
      }
    }
  }

  /** The type of a child as a caller reads it. */
  function ChildType(kind: LogicalType, index: nat): LogicalType {
    var answer := TypeChild(kind, index, false);
    if answer.Child? then answer.kind else kind
  }

  /** How many children a value of the type takes, as a caller reads it. */
  predicate CountFits(kind: LogicalType, count: nat)
    requires Inspect(kind).Some?
  {
    var info := Inspect(kind).value;
    count <= 131072 && (kind.Array? ==> count == info.aux1) && (kind.Struct? ==> count == info.children)
  }

  predicate ChildFits(f: Facts, kind: LogicalType, child: Tree, index: nat) {
    var built := BuildTree(f, child);
    built.Some? && built.value.kind == ChildType(kind, if kind.Struct? then index else 0)
  }

  /** A list, array or struct can be built exactly when the count is right and each child has its own type. */
  lemma ContainerAcceptedIffChildrenFit(f: Facts, tree: Tree)
    requires !tree.info.isNull && (tree.kind.List? || tree.kind.Array? || tree.kind.Struct?)
    ensures BuildTree(f, tree).Some? <==>
            CountFits(tree.kind, |tree.children|) &&
            forall i :: 0 <= i < |tree.children| ==> ChildFits(f, tree.kind, tree.children[i], i)
  {
    var (kind, built) := (tree.kind, BuildAll(f, tree.children));
    if CountFits(kind, |tree.children|) {
      forall i | 0 <= i < |built|
        ensures ElementFits(kind, i, built[i]) <==> ChildFits(f, kind, tree.children[i], i)
      {
        assert built[i] == BuildTree(f, tree.children[i]);
      }
    }
  }

  /** A typed null takes no children and nothing else. */
  lemma NullAcceptedIffChildless(f: Facts, tree: Tree)
    requires tree.info.isNull
    ensures BuildTree(f, tree) == if tree.children == [] then Some(Value(tree.kind, Null)) else None
  {
  }

  predicate PairFits(children: seq<Option<Value>>, kind: LogicalType, pair: nat)
    requires kind.Map? && 2 * pair + 1 < |children|
  {
    var (key, item) := (KeyAt(children, pair), ItemAt(children, pair));
    && key.Some? && !key.value.content.Null? && key.value.kind == ChildType(kind, 0)
    && item.Some? && item.value.kind == ChildType(kind, 1)
  }

  /** A map can be built exactly when its pairs have the right types, no key is null, and no two keys are equal. */
  lemma MapAcceptedIffKeysDistinct(f: Facts, tree: Tree)
    requires Readable(tree) && tree.kind.Map? && !tree.info.isNull
    ensures var built := BuildAll(f, tree.children);
      BuildTree(f, tree).Some? <==>
      && |built| <= 131072 && |built| % 2 == 0
      && (forall i :: 0 <= i < |built| / 2 ==> PairFits(built, tree.kind, i))
      && (forall i, j :: 0 <= i < j < |built| / 2 ==> !SameKey(built, i, j))
  {
    var built := BuildAll(f, tree.children);
    if |built| % 2 == 0 {
      forall i | 0 <= i < |built| / 2 ensures PairFits(built, tree.kind, i) <==> EntryAllowed(f, tree.kind, built, i) {
        if PairFits(built, tree.kind, i) {
          assert KeyAt(built, i) == BuildTree(f, tree.children[2 * i]);
          BuiltIsHashable(f, tree.children[2 * i]);
        }
      }
    }
  }
}
