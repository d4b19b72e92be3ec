/** What finalizing guarantees about a fixture, and how the derived `remove` fixture relates to its source. */
module FixtureProperties {
  import opened Wrappers
  import opened JsonHeap
  import opened Fixtures

  /** What is known of the two library functions: the keys that matter are their own lower case, and only
      text with an at sign looks like an e-mail address. */
  ghost predicate Reasonable(r: Rules) {
    && r.lower("name") == "name" && r.lower("login") == "login" && r.lower("email") == "email"
    && r.lower("action") == "action"
    && (forall s :: '@' !in s ==> r.mask(s) == s)
  }

  // ---------------------------------------------------------------- shape and people

  /** The same containers, keys, order and other leaves; strings stay strings. */
  predicate SameShape(t: Tree, u: Tree)
    decreases t
  {
    match (t, u)
    case (TStr(_), TStr(_)) => true
    case (TScalar(x), TScalar(y)) => x == y
    case (TNode(c, x), TNode(d, y)) => c == d && SameKidShapes(x, y)
    case _ => false
  }

  predicate SameKidShapes(x: Kids, y: Kids)
    decreases x
  {
    match (x, y)
    case (NoKid, NoKid) => true
    case (Kid(k, t, more), Kid(l, u, rest)) => k == l && SameShape(t, u) && SameKidShapes(more, rest)
    case _ => false
  }

  lemma {:induction false} ShapeKept(r: Rules, t: Tree, person: bool)
    ensures SameShape(t, Sanitized(r, Scrub(t, person)))
    decreases t
  {
    match t
    case TStr(_) =>
    case TScalar(_) =>
    case TNode(c, kids) => KidShapesKept(r, c.dict, person, kids);
  }

  lemma {:induction false} KidShapesKept(r: Rules, dict: bool, person: bool, kids: Kids)
    ensures SameKidShapes(kids, SanitizedKids(r, dict, ScrubKids(dict, person, kids)))
    decreases kids
  {
    match kids
    case NoKid =>
    case Kid(k, t, more) =>
      ShapeKept(r, t, UnderPerson(dict, k, t));
      KidShapesKept(r, dict, person, more);
  }

  /** A dictionary under a key that names a person, in a dictionary. */
  predicate IsPerson(dict: bool, k: string, t: Tree) {
    && dict && t.TNode? && t.c.dict
    && (k == "actor" || k == "user" || k == "assignee" || k == "creator" || k == "owner" || k == "sender" ||
        k == "author")
  }

  /** What the string under a key of a person has become, if it is to be hidden. */
  function Hidden(k: string): Option<string> {
    if k == "name" then Some("Ada Lovelace")
    else if k == "login" then Some("ada-sample")
    else if k == "email" then Some("user@example.com")
    else None
  }

  /** At every depth the string name, login and e-mail address of a person are placeholders, and so is every
      string of a dictionary under an e-mail key. */
  predicate PeopleHidden(r: Rules, t: Tree, person: bool)
    decreases t
  {
    match t
    case TStr(_) => true
    case TScalar(_) => true
    case TNode(c, kids) => KidsHidden(r, c.dict, person, kids)
  }

  predicate KidsHidden(r: Rules, dict: bool, person: bool, kids: Kids)
    decreases kids
  {
    match kids
    case NoKid => true
    case Kid(k, t, more) =>
      && (person && t.TStr? && Hidden(k).Some? ==> t.s == Hidden(k).value)
      && (dict && t.TStr? && r.lower(k) == "email" ==> t.s == "user@example.com")
      && PeopleHidden(r, t, IsPerson(dict, k, t))
      && KidsHidden(r, dict, person, more)
  }

  lemma {:induction false} FinalizedHidesPeople(r: Rules, t: Tree, person: bool)
    requires Reasonable(r) && (person ==> t.TNode? && t.c.dict)
    ensures PeopleHidden(r, Sanitized(r, Scrub(t, person)), person)
    decreases t
  {
    match t
    case TStr(_) =>
    case TScalar(_) =>
    case TNode(c, kids) => FinalizedHidesKids(r, c.dict, person, kids);
  }

  lemma {:induction false} FinalizedHidesKids(r: Rules, dict: bool, person: bool, kids: Kids)
    requires Reasonable(r) && (person ==> dict)
    ensures KidsHidden(r, dict, person, SanitizedKids(r, dict, ScrubKids(dict, person, kids)))
    decreases kids
  {
    match kids
    case NoKid =>
    case Kid(k, t, more) =>
      FinalizedHidesPeople(r, t, UnderPerson(dict, k, t));
      FinalizedHidesKids(r, dict, person, more);
      CleanTexts(r);
  }

  /** The placeholders, and the derived action, sanitized. */
  lemma CleanTexts(r: Rules)
    requires Reasonable(r)
    ensures forall k :: Personal(k) <==> Hidden(k).Some?
    ensures forall k :: Personal(k) ==> CleanString(r, k, Placeholder(k)) == Hidden(k).value
    ensures CleanString(r, "action", REMOVE) == REMOVE
  {
    assert '@' !in LOGIN && '@' !in REMOVE;
  }

  /** What has become of a string of a dictionary that is neither a person's nor under an e-mail key: a name
      is as it was, anything else has its e-mail addresses masked and is as it was if it has no at sign. */
  predicate StringKept(r: Rules, k: string, s: string, u: Tree) {
    var key := r.lower(k);
    if s != "" && (key == "name" || key == "displayname" || key == "full_name") then u == TStr(s)
    else u == TStr(r.mask(s)) && ('@' !in s ==> u == TStr(s))
  }

  /** Nothing else is lost, at any depth, and every string of a list is as it was. */
  predicate OthersKept(r: Rules, t: Tree, u: Tree, person: bool)
    decreases t
  {
    match (t, u)
    case (TNode(c, x), TNode(_, y)) => OtherKidsKept(r, c.dict, person, x, y)
    case (TNode(_, _), _) => false
    case _ => t == u
  }

  predicate OtherKidsKept(r: Rules, dict: bool, person: bool, x: Kids, y: Kids)
    decreases x
  {
    match (x, y)
    case (NoKid, NoKid) => true
    case (Kid(k, t, more), Kid(_, u, rest)) =>
      && (if dict && t.TStr? then (person && Hidden(k).Some?) || r.lower(k) == "email" || StringKept(r, k, t.s, u)
          else OthersKept(r, t, u, IsPerson(dict, k, t)))
      && OtherKidsKept(r, dict, person, more, rest)
    case _ => false
  }

  lemma {:induction false} FinalizedKeepsOthers(r: Rules, t: Tree, person: bool)
    requires Reasonable(r) && (person ==> t.TNode? && t.c.dict)
    ensures OthersKept(r, t, Sanitized(r, Scrub(t, person)), person)
    decreases t
  {
    match t
    case TStr(_) =>
    case TScalar(_) =>
    case TNode(c, kids) => FinalizedKeepsOtherKids(r, c.dict, person, kids);
  }

  lemma {:induction false} FinalizedKeepsOtherKids(r: Rules, dict: bool, person: bool, kids: Kids)
    requires Reasonable(r) && (person ==> dict)
    ensures OtherKidsKept(r, dict, person, kids, SanitizedKids(r, dict, ScrubKids(dict, person, kids)))
    decreases kids
  {
    match kids
    case NoKid =>
    case Kid(k, t, more) =>
      FinalizedKeepsOthers(r, t, UnderPerson(dict, k, t));
      FinalizedKeepsOtherKids(r, dict, person, more);
      CleanTexts(r);
  }

  // ---------------------------------------------------------------- the derived fixture

  const REMOVE := "remove"

  /** `obj["action"] = "remove"`: replaced where it is, or added at the end. */
  function WithAction(kids: Kids): Kids {
    match kids
    case NoKid => Kid("action", TStr(REMOVE), NoKid)
    case Kid(k, t, more) => if k == "action" then Kid(k, TStr(REMOVE), more) else Kid(k, t, WithAction(more))
  }

  /** The value under a key, if there is one. */
  function Lookup(kids: Kids, k: string): Option<Tree> {
    match kids
    case NoKid => None
    case Kid(l, t, more) => if l == k then Some(t) else Lookup(more, k)
  }

  /** The derived dictionary says "remove" under "action" and the same as before under every other key. */
  lemma {:induction false} WithActionSays(kids: Kids, k: string)
    ensures Lookup(WithAction(kids), k) == if k == "action" then Some(TStr("remove")) else Lookup(kids, k)
    ensures Len(WithAction(kids)) == Len(kids) + if Lookup(kids, "action").Some? then 0 else 1
  {
    match kids
    case NoKid =>
    case Kid(_, _, more) => WithActionSays(more, k);
  }

  function FinalizedKids(r: Rules, kids: Kids): Kids {
    SanitizedKids(r, true, ScrubKids(true, false, kids))
  }

  /** Finalizing after setting the action is setting it after finalizing, for every dictionary. */
  lemma {:induction false} ActionCommutes(r: Rules, kids: Kids)
    requires Reasonable(r)
    ensures FinalizedKids(r, WithAction(kids)) == WithAction(FinalizedKids(r, kids))
  {
    CleanTexts(r);
    match kids
    case NoKid =>
      FinalizedStep(r, "action", TStr(REMOVE), NoKid);
    case Kid(k, t, more) =>
      FinalizedStep(r, k, t, more);
      if k == "action" {
        FinalizedStep(r, k, TStr(REMOVE), more);
      } else {
        FinalizedStep(r, k, t, WithAction(more));
        ActionCommutes(r, more);
      }
  }

  /** One entry of a dictionary that is not a person, finalized. */
  function FinalizedKid(r: Rules, k: string, t: Tree): Tree {
    if t.TStr? then TStr(CleanString(r, k, t.s)) else Sanitized(r, Scrub(t, UnderPerson(true, k, t)))
  }

  lemma FinalizedStep(r: Rules, k: string, t: Tree, more: Kids)
    ensures FinalizedKids(r, Kid(k, t, more)) == Kid(k, FinalizedKid(r, k, t), FinalizedKids(r, more))
  {
    var scrubbed := Scrub(t, UnderPerson(true, k, t));
    assert ScrubKids(true, false, Kid(k, t, more)) == Kid(k, scrubbed, ScrubKids(true, false, more));
    assert scrubbed.TStr? <==> t.TStr?;
  }

  /** Two trees that differ only in what containers they are made of. */
  predicate Alike(t: Tree, u: Tree)
    decreases t
  {
    match (t, u)
    case (TNode(c, x), TNode(d, y)) => c.dict == d.dict && AlikeKids(x, y)
    case (TNode(_, _), _) => false
    case _ => t == u
  }

  predicate AlikeKids(x: Kids, y: Kids)
    decreases x
  {
    match (x, y)
    case (NoKid, NoKid) => true
    case (Kid(k, t, more), Kid(l, u, rest)) => k == l && Alike(t, u) && AlikeKids(more, rest)
    case _ => false
  }

  lemma {:induction false} AlikeFinalized(r: Rules, t: Tree, u: Tree, person: bool)
    requires Alike(t, u)
    ensures Alike(Sanitized(r, Scrub(t, person)), Sanitized(r, Scrub(u, person)))
    decreases t
  {
    if t.TNode? { AlikeKidsFinalized(r, t.c.dict, t.kids, u.kids, person); }
  }

  lemma {:induction false} AlikeKidsFinalized(r: Rules, dict: bool, x: Kids, y: Kids, person: bool)
    requires AlikeKids(x, y)
    ensures AlikeKids(SanitizedKids(r, dict, ScrubKids(dict, person, x)),
                      SanitizedKids(r, dict, ScrubKids(dict, person, y)))
    decreases x
  {
    if x.NoKid? {
    } else {
      AlikeFinalized(r, x.tree, y.tree, UnderPerson(dict, x.key, x.tree));
      AlikeKidsFinalized(r, dict, x.more, y.more, person);
    }
  }

  lemma {:induction false} AlikeWithAction(x: Kids, y: Kids)
    requires AlikeKids(x, y)
    ensures AlikeKids(WithAction(x), WithAction(y))
  {
    if x.NoKid? {
    } else {
      AlikeWithAction(x.more, y.more);
    }
  }

  /** `json.loads(json.dumps(obj))`: new containers throughout, alike. */
  method DeepCopy(item: Item, ghost t: Tree) returns (copy: Item, ghost u: Tree)
    requires Holds(item, t) && Proper(t)
    ensures Holds(copy, u) && Alike(t, u) && Proper(u) && fresh(Objs(u))
    decreases Size(t), 0
  {
    match item {
      case Str(s) => copy, u := item, t;
      case Scalar(text) => copy, u := item, t;
      case Ref(c) =>
        var entries; ghost var kids;
        assert allocated(t) && allocated(t.kids) && allocated(KidObjs(t.kids));
        entries, kids := CopyEntries(c.entries, t.kids);
        assert allocated(kids) && allocated(KidObjs(kids));
        var d := new Container(c.dict, entries);
        SameKeys(t.kids, kids);
        copy, u := Ref(d), TNode(d, kids);
    }
  }

  method CopyEntries(entries: seq<(string, Item)>, ghost kids: Kids)
    returns (copy: seq<(string, Item)>, ghost more: Kids)
    requires HoldsKids(entries, kids) && ProperKids(kids)
    ensures HoldsKids(copy, more) && AlikeKids(kids, more) && ProperKids(more) && fresh(KidObjs(more))
    decreases KidsSize(kids), 1, |entries|
  {
    if |entries| == 0 {
      return [], NoKid;
    }
    var first; ghost var tree;
    assert allocated(kids.more) && allocated(KidObjs(kids.more));
    first, tree := DeepCopy(entries[0].1, kids.tree);
    assert allocated(tree) && allocated(Objs(tree));
    var rest; ghost var later;
    rest, later := CopyEntries(entries[1..], kids.more);
    copy := [(entries[0].0, first)] + rest;
    more := Kid(kids.key, tree, later);
    assert copy[1..] == rest;
  }

  lemma {:induction false} SameKeys(x: Kids, y: Kids)
    requires AlikeKids(x, y)
    ensures DistinctKeys(x) ==> DistinctKeys(y)
    ensures forall k :: KeyIn(x, k) <==> KeyIn(y, k)
  {
    if x.NoKid? {
    } else {
      SameKeys(x.more, y.more);
    }
  }

  lemma {:induction false} WithActionKeeps(kids: Kids)
    ensures KidObjs(WithAction(kids)) <= KidObjs(kids)
    ensures forall k :: KeyIn(WithAction(kids), k) <==> k == "action" || KeyIn(kids, k)
    ensures DistinctKeys(kids) ==> DistinctKeys(WithAction(kids))
    ensures ProperKids(kids) ==> ProperKids(WithAction(kids))
  {
    if kids.NoKid? {
    } else {
      WithActionKeeps(kids.more);
    }
  }

  /** The entries with the action set, `i` being where it is or the length. */
  function ActionSet(entries: seq<(string, Item)>, i: nat): seq<(string, Item)> {
    if i < |entries| then entries[i := ("action", Str(REMOVE))] else entries + [("action", Str(REMOVE))]
  }

  lemma {:induction false} ActionAt(entries: seq<(string, Item)>, kids: Kids, i: nat)
    requires HoldsKids(entries, kids) && i <= |entries|
    requires forall j :: 0 <= j < i ==> entries[j].0 != "action"
    requires i < |entries| ==> entries[i].0 == "action"
    ensures HoldsKids(ActionSet(entries, i), WithAction(kids))
    decreases kids
  {
    match kids
    case NoKid =>
    case Kid(k, t, more) =>
      if i == 0 {
        assert ActionSet(entries, 0)[1..] == entries[1..];
      } else {
        ActionAt(entries[1..], more, i - 1);
        assert ActionSet(entries, i)[1..] == ActionSet(entries[1..], i - 1);
      }
  }

  /** `obj["action"] = "remove"` on the heap. */
  method SetAction(c: Container, ghost kids: Kids)
    requires HoldsKids(c.entries, kids) && c !in KidObjs(kids)
    modifies c
    ensures HoldsKids(c.entries, WithAction(kids))
  {
    WithActionKeeps(kids);
    var i := 0;
    while i < |c.entries| && c.entries[i].0 != "action"
      invariant i <= |c.entries|
      invariant forall j :: 0 <= j < i ==> c.entries[j].0 != "action"
    {
      i := i + 1;
    }
    ActionAt(c.entries, kids, i);
    c.entries := ActionSet(c.entries, i);
  }

  /** `derived["action"] = "remove"` and `finalize(derived)` */
  method SetActionAndFinalize(r: Rules, derived: Item, ghost t: Tree) returns (ghost u: Tree)
    requires Holds(derived, t) && Proper(t) && derived.Ref? && derived.c.dict
    modifies Objs(t)
    ensures u == Finalized(r, TNode(derived.c, WithAction(t.kids))) && Holds(derived, u)
  {
    ghost var changed := TNode(derived.c, WithAction(t.kids));
    WithActionKeeps(t.kids);
    SetAction(derived.c, t.kids);
    assert allocated(changed) && allocated(Objs(changed));
    var same := Finalize(r, derived, changed);
    u := Finalized(r, changed);
  }

  /** The last part of `main`: the captured payload and the derived one are finalized from two copies, and
      differ only in the action. */
  method DeriveRemoved(r: Rules, raw: Item, ghost t: Tree) returns (removed: Item, ghost u: Tree)
    requires Reasonable(r)
    requires Holds(raw, t) && Proper(t) && raw.Ref? && raw.c.dict
    modifies Objs(t)
    ensures Holds(raw, Finalized(r, t)) && Holds(removed, u)
    ensures Alike(TNode(raw.c, WithAction(Finalized(r, t).kids)), u)
  {
    assert allocated(t) && allocated(Objs(t));
    ghost var copied;
    removed, copied := DeepCopy(raw, t);
    assert allocated(copied) && allocated(Objs(copied));
    var same := Finalize(r, raw, t);
    ScrubKeeps(t, false);
    SanitizedKeeps(r, Scrub(t, false));
    u := SetActionAndFinalize(r, removed, copied);
    RemovedAlike(r, t, copied);
  }

  lemma RemovedAlike(r: Rules, t: Tree, copied: Tree)
    requires Reasonable(r) && Alike(t, copied) && t.TNode? && t.c.dict
    ensures Alike(TNode(t.c, WithAction(Finalized(r, t).kids)), Finalized(r, TNode(copied.c, WithAction(copied.kids))))
  {
    AlikeFinalized(r, t, copied, false);
    AlikeWithAction(FinalizedKids(r, t.kids), FinalizedKids(r, copied.kids));
    ActionCommutes(r, copied.kids);
  }
}
