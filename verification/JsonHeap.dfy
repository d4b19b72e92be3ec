/** Dictionaries and lists on the heap, as a JSON document is loaded, and the trees they make up. */
module JsonHeap {
  /** A dictionary with its entries in order, or a list, whose entries have no keys worth looking at. */
  class Container {
    const dict: bool
    var entries: seq<(string, Item)>

    constructor (dict: bool, entries: seq<(string, Item)>)
      ensures this.dict == dict && this.entries == entries
    {
      this.dict := dict;
      this.entries := entries;
    }
  }

  datatype Item = Str(s: string) | Scalar(text: string) | Ref(c: Container)

  /** A document as a tree, which still knows what containers it consists of. */
  datatype Tree = TStr(s: string) | TScalar(text: string) | TNode(c: Container, kids: Kids)
  datatype Kids = NoKid | Kid(key: string, tree: Tree, more: Kids)

  function Objs(t: Tree): set<Container> {
    match t
    case TStr(_) => {}
    case TScalar(_) => {}
    case TNode(c, kids) => {c} + KidObjs(kids)
  }

  function KidObjs(kids: Kids): set<Container> {
    match kids case NoKid => {} case Kid(_, t, more) => Objs(t) + KidObjs(more)
  }

  predicate KeyIn(kids: Kids, k: string) {
    match kids case NoKid => false case Kid(key, _, more) => key == k || KeyIn(more, k)
  }

  predicate DistinctKeys(kids: Kids) {
    match kids case NoKid => true case Kid(k, _, more) => !KeyIn(more, k) && DistinctKeys(more)
  }

  /** No container occurs twice, and dictionaries have distinct keys. */
  predicate Proper(t: Tree) {
    match t
    case TStr(_) => true
    case TScalar(_) => true
    case TNode(c, kids) => c !in KidObjs(kids) && ProperKids(kids) && (c.dict ==> DistinctKeys(kids))
  }

  predicate ProperKids(kids: Kids) {
    match kids
    case NoKid => true
    case Kid(_, t, more) => Proper(t) && ProperKids(more) && Objs(t) !! KidObjs(more)
  }

  /** The heap holds this tree. */
  ghost predicate Holds(item: Item, t: Tree)
    reads Objs(t)
    decreases t
  {
    match t
    case TStr(s) => item == Str(s)
    case TScalar(text) => item == Scalar(text)
    case TNode(c, kids) => item == Ref(c) && HoldsKids(c.entries, kids)
  }

  ghost predicate HoldsKids(entries: seq<(string, Item)>, kids: Kids)
    reads KidObjs(kids)
    decreases kids
  {
    match kids
    case NoKid => entries == []
    case Kid(k, t, more) =>
      entries != [] && entries[0].0 == k && Holds(entries[0].1, t) && HoldsKids(entries[1..], more)
  }

  function Size(t: Tree): nat {
    match t case TStr(_) => 1 case TScalar(_) => 1 case TNode(_, kids) => 1 + KidsSize(kids)
  }

  function KidsSize(kids: Kids): nat {
    match kids case NoKid => 0 case Kid(_, t, more) => Size(t) + KidsSize(more)
  }

  // ---------------------------------------------------------------- children by index

  function Len(kids: Kids): nat {
    match kids case NoKid => 0 case Kid(_, _, more) => 1 + Len(more)
  }

  function KeyAt(kids: Kids, i: nat): string
    requires i < Len(kids)
  {
    if i == 0 then kids.key else KeyAt(kids.more, i - 1)
  }

  function At(kids: Kids, i: nat): Tree
    requires i < Len(kids)
  {
    if i == 0 then kids.tree else At(kids.more, i - 1)
  }

  ghost predicate HoldsEach(entries: seq<(string, Item)>, kids: Kids)
    reads KidObjs(kids)
  {
    |entries| == Len(kids) &&
    forall i :: 0 <= i < |entries| ==> HoldsAt(entries, kids, i)
  }

  ghost predicate HoldsAt(entries: seq<(string, Item)>, kids: Kids, i: nat)
    requires |entries| == Len(kids) && i < |entries|
    reads KidObjs(kids)
  {
    ObjsAt(kids, i);
    entries[i].0 == KeyAt(kids, i) && Holds(entries[i].1, At(kids, i))
  }

  lemma {:induction false} ObjsAt(kids: Kids, i: nat)
    requires i < Len(kids)
    ensures Objs(At(kids, i)) <= KidObjs(kids)
    ensures Size(At(kids, i)) <= KidsSize(kids)
    ensures ProperKids(kids) ==> Proper(At(kids, i))
  {
    if i == 0 {
    } else {
      ObjsAt(kids.more, i - 1);
    }
  }

  lemma {:induction false} DisjointAt(kids: Kids, i: nat, j: nat)
    requires ProperKids(kids) && i < Len(kids) && j < Len(kids) && i != j
    ensures Objs(At(kids, i)) !! Objs(At(kids, j))
  {
    if i == 0 {
      ObjsAt(kids.more, j - 1);
    } else if j == 0 {
      ObjsAt(kids.more, i - 1);
    } else {
      DisjointAt(kids.more, i - 1, j - 1);
    }
  }

  lemma {:induction false} EachFromKids(entries: seq<(string, Item)>, kids: Kids)
    requires HoldsKids(entries, kids)
    ensures HoldsEach(entries, kids)
    decreases kids
  {
    match kids
    case NoKid =>
    case Kid(k, t, more) =>
      EachFromKids(entries[1..], more);
      forall i | 0 <= i < |entries| ensures HoldsAt(entries, kids, i) {
        if i > 0 { assert HoldsAt(entries[1..], more, i - 1); }
      }
  }

  lemma {:induction false} KidsFromEach(entries: seq<(string, Item)>, kids: Kids)
    requires HoldsEach(entries, kids)
    ensures HoldsKids(entries, kids)
    decreases kids
  {
    match kids
    case NoKid =>
    case Kid(k, t, more) =>
      assert HoldsAt(entries, kids, 0);
      forall i | 0 <= i < |entries| - 1 ensures HoldsAt(entries[1..], more, i) {
        assert HoldsAt(entries, kids, i + 1);
      }
      KidsFromEach(entries[1..], more);
  }
}
