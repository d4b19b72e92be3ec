/** Scrubbing captured payloads in place: people, then e-mail addresses, and the derived `remove` fixture. */
module Fixtures {
  import opened JsonHeap

  // ---------------------------------------------------------------- what scrubbing people gives

  predicate PersonKey(k: string) {
    k == "actor" || k == "user" || k == "assignee" || k == "creator" || k == "owner" || k == "sender" || k == "author"
  }

  const NAME := "Ada Lovelace"
  const LOGIN := "ada-sample"

  predicate Personal(k: string) {
    k == "name" || k == "login" || k == "email"
  }

  function Placeholder(k: string): string {
    if k == "name" then NAME else if k == "login" then LOGIN else "ada@example.com"
  }

  /** A tree scrubbed of people; `person` says that it is a dictionary under a person's key. */
  function Scrub(t: Tree, person: bool): Tree
    decreases t
  {
    match t
    case TStr(_) => t
    case TScalar(_) => t
    case TNode(c, kids) => TNode(c, ScrubKids(c.dict, person, kids))
  }

  predicate UnderPerson(dict: bool, k: string, t: Tree) {
    dict && PersonKey(k) && t.TNode? && t.c.dict
  }

  function ScrubKids(dict: bool, person: bool, kids: Kids): Kids
    decreases kids
  {
    match kids
    case NoKid => NoKid
    case Kid(k, t, more) =>
      Kid(k, if person && Personal(k) && t.TStr? then TStr(Placeholder(k)) else Scrub(t, UnderPerson(dict, k, t)),
          ScrubKids(dict, person, more))
  }

  /** One string-valued entry replaced. */
  function SetKid(kids: Kids, key: string, value: string): Kids {
    match kids
    case NoKid => NoKid
    case Kid(k, t, more) => Kid(k, if k == key && t.TStr? then TStr(value) else t, SetKid(more, key, value))
  }

  function PersonKids(kids: Kids): Kids {
    SetKid(SetKid(SetKid(kids, "name", NAME), "login", LOGIN), "email", Placeholder("email"))
  }

  lemma {:induction false} SetKidKeeps(kids: Kids, key: string, value: string)
    ensures KidObjs(SetKid(kids, key, value)) == KidObjs(kids) && KidsSize(SetKid(kids, key, value)) == KidsSize(kids)
    ensures forall k :: KeyIn(SetKid(kids, key, value), k) <==> KeyIn(kids, k)
    ensures DistinctKeys(kids) ==> DistinctKeys(SetKid(kids, key, value))
    ensures ProperKids(kids) ==> ProperKids(SetKid(kids, key, value))
  {
    if kids.NoKid? {
    } else {
      SetKidKeeps(kids.more, key, value);
    }
  }

  lemma PersonKidsKeep(kids: Kids)
    ensures KidObjs(PersonKids(kids)) == KidObjs(kids) && KidsSize(PersonKids(kids)) == KidsSize(kids)
    ensures DistinctKeys(kids) ==> DistinctKeys(PersonKids(kids))
    ensures ProperKids(kids) ==> ProperKids(PersonKids(kids))
  {
    SetKidKeeps(kids, "name", NAME);
    SetKidKeeps(SetKid(kids, "name", NAME), "login", LOGIN);
    SetKidKeeps(SetKid(SetKid(kids, "name", NAME), "login", LOGIN), "email", Placeholder("email"));
  }

  /** Replacing a person's own strings first and then scrubbing is scrubbing as a person. */
  lemma {:induction false} PersonThenScrub(dict: bool, kids: Kids)
    ensures ScrubKids(dict, false, PersonKids(kids)) == ScrubKids(dict, true, kids)
  {
    if kids.NoKid? {
    } else {
      PersonThenScrub(dict, kids.more);
    }
  }

  lemma {:induction false} ScrubKeeps(t: Tree, person: bool)
    ensures Objs(Scrub(t, person)) == Objs(t)
    ensures Proper(t) ==> Proper(Scrub(t, person))
    decreases t
  {
    match t
    case TStr(_) =>
    case TScalar(_) =>
    case TNode(c, kids) => ScrubKidsKeep(c.dict, person, kids);
  }

  lemma {:induction false} ScrubKidsKeep(dict: bool, person: bool, kids: Kids)
    ensures var s := ScrubKids(dict, person, kids);
      && KidObjs(s) == KidObjs(kids) && Len(s) == Len(kids)
      && (forall k :: KeyIn(s, k) <==> KeyIn(kids, k))
      && (DistinctKeys(kids) ==> DistinctKeys(s)) && (ProperKids(kids) ==> ProperKids(s))
    decreases kids
  {
    match kids
    case NoKid =>
    case Kid(k, t, more) =>
      ScrubKeeps(t, UnderPerson(dict, k, t));
      ScrubKidsKeep(dict, person, more);
  }

  lemma {:induction false} ScrubKidsAt(dict: bool, kids: Kids, i: nat)
    requires i < Len(kids)
    ensures var s := ScrubKids(dict, false, kids);
      Len(s) == Len(kids) && KeyAt(s, i) == KeyAt(kids, i) &&
      At(s, i) == Scrub(At(kids, i), UnderPerson(dict, KeyAt(kids, i), At(kids, i)))
  {
    ScrubKidsKeep(dict, false, kids);
    if i == 0 {
    } else {
      ScrubKidsAt(dict, kids.more, i - 1);
    }
  }

  /** What has become of a person's own strings. */
  lemma {:induction false} PersonEntry(dict: bool, kids: Kids, i: nat)
    requires i < Len(kids) && At(kids, i).TStr?
    ensures var s, k := ScrubKids(dict, true, kids), KeyAt(kids, i);
      && Len(s) == Len(kids) && KeyAt(s, i) == k
      && At(s, i) == TStr(if k == "name" then "Ada Lovelace" else if k == "login" then "ada-sample"
                          else if k == "email" then "ada@example.com" else At(kids, i).s)
  {
    ScrubKidsKeep(dict, true, kids);
    if i > 0 { PersonEntry(dict, kids.more, i - 1); }
  }

  // ---------------------------------------------------------------- scrubbing people in place

  /** `if key in v and isinstance(v[key], str): v[key] = value` */
  method SetString(c: Container, key: string, value: string, ghost kids: Kids)
    requires HoldsKids(c.entries, kids) && c !in KidObjs(kids) && DistinctKeys(kids)
    modifies c
    ensures HoldsKids(c.entries, SetKid(kids, key, value))
  {
    var i := 0;
    EachFromKids(c.entries, kids);
    while i < |c.entries| && c.entries[i].0 != key
      invariant i <= |c.entries|
      invariant forall j :: 0 <= j < i ==> c.entries[j].0 != key
    {
      i := i + 1;
    }
    ghost var before := c.entries;
    if i < |c.entries| && c.entries[i].1.Str? {
      c.entries := c.entries[i := (key, Str(value))];
    }
    SetAt(before, kids, key, value, i);
  }

  /** The entries with the string under a key, at index `i`, replaced. */
  function Replaced(entries: seq<(string, Item)>, key: string, value: string, i: nat): seq<(string, Item)> {
    if i < |entries| && entries[i].1.Str? then entries[i := (key, Str(value))] else entries
  }

  lemma {:induction false} SetAt(entries: seq<(string, Item)>, kids: Kids, key: string, value: string, i: nat)
    requires HoldsKids(entries, kids) && DistinctKeys(kids) && i <= |entries|
    requires forall j :: 0 <= j < i ==> entries[j].0 != key
    requires i < |entries| ==> entries[i].0 == key
    ensures HoldsKids(Replaced(entries, key, value, i), SetKid(kids, key, value))
    decreases kids
  {
    match kids
    case NoKid =>
    case Kid(k, t, more) =>
      if i == 0 {
        NoKeySet(more, key, value);
        assert Replaced(entries, key, value, 0)[1..] == entries[1..];
      } else {
        SetAt(entries[1..], more, key, value, i - 1);
        assert Replaced(entries, key, value, i)[1..] == Replaced(entries[1..], key, value, i - 1);
      }
  }

  lemma {:induction false} NoKeySet(kids: Kids, key: string, value: string)
    requires !KeyIn(kids, key)
    ensures SetKid(kids, key, value) == kids
  {
    if kids.NoKid? {
    } else {
      NoKeySet(kids.more, key, value);
    }
  }

  /** The person's own name, login and e-mail address. */
  method ReplacePerson(c: Container, ghost kids: Kids)
    requires HoldsKids(c.entries, kids) && c !in KidObjs(kids) && DistinctKeys(kids)
    modifies c
    ensures HoldsKids(c.entries, PersonKids(kids))
  {
    SetString(c, "name", NAME, kids);
    SetKidKeeps(kids, "name", NAME);
    ghost var named := SetKid(kids, "name", NAME);
    SetString(c, "login", LOGIN, named);
    SetKidKeeps(named, "login", LOGIN);
    SetString(c, "email", "ada@example.com", SetKid(named, "login", LOGIN));
  }

  /** The body of the loop: a person's strings, and then everything below. */
  method ScrubEntry(dict: bool, k: string, v: Item, ghost t: Tree)
    requires Holds(v, t) && Proper(t)
    modifies Objs(t)
    ensures Holds(v, Scrub(t, UnderPerson(dict, k, t)))
    decreases Size(t), 1
  {
    if dict && PersonKey(k) && v.Ref? && v.c.dict {
      ReplacePerson(v.c, t.kids);
      PersonKidsKeep(t.kids);
      PersonThenScrub(v.c.dict, t.kids);
      ScrubPeople(v, TNode(v.c, PersonKids(t.kids)));
    } else {
      ScrubPeople(v, t);
    }
  }

  /** Different entries have nothing in common, before and after. */
  lemma EntriesApart(dict: bool, kids: Kids, i: nat, j: nat)
    requires ProperKids(kids) && i < Len(kids) && j < Len(kids) && i != j
    ensures Len(ScrubKids(dict, false, kids)) == Len(kids)
    ensures Objs(At(kids, j)) !! Objs(At(kids, i)) && Objs(At(ScrubKids(dict, false, kids), j)) !! Objs(At(kids, i))
  {
    DisjointAt(kids, j, i);
    ScrubKidsKeep(dict, false, kids);
    ScrubKidsAt(dict, kids, j);
    ScrubKeeps(At(kids, j), UnderPerson(dict, KeyAt(kids, j), At(kids, j)));
  }

  /** The first `i` entries hold `done`, the others `kids`. */
  ghost predicate Midway(entries: seq<(string, Item)>, kids: Kids, done: Kids, i: nat)
    requires i <= |entries| == Len(kids) == Len(done)
    reads KidObjs(kids), KidObjs(done)
  {
    && (forall j :: 0 <= j < i ==> HoldsAt(entries, done, j))
    && (forall j :: i <= j < |entries| ==> HoldsAt(entries, kids, j))
  }

  /** One round of the loop. */
  method ScrubOne(c: Container, i: nat, ghost kids: Kids)
    requires ProperKids(kids) && c !in KidObjs(kids) && i < |c.entries| == Len(kids)
    requires Len(ScrubKids(c.dict, false, kids)) == Len(kids)
    requires Midway(c.entries, kids, ScrubKids(c.dict, false, kids), i)
    modifies KidObjs(kids)
    ensures c.entries == old(c.entries)
    ensures Midway(c.entries, kids, ScrubKids(c.dict, false, kids), i + 1)
    decreases KidsSize(kids), 2
  {
    var (k, v) := c.entries[i];
    ghost var done := ScrubKids(c.dict, false, kids);
    ObjsAt(kids, i);
    assert HoldsAt(c.entries, kids, i);
    forall j | 0 <= j < i ensures Holds(c.entries[j].1, At(done, j)) && c.entries[j].0 == KeyAt(done, j) {
      assert HoldsAt(c.entries, done, j);
    }
    forall j | i < j < |c.entries| ensures Holds(c.entries[j].1, At(kids, j)) && c.entries[j].0 == KeyAt(kids, j) {
      assert HoldsAt(c.entries, kids, j);
    }
    ScrubEntry(c.dict, k, v, At(kids, i));
    forall j | 0 <= j < i ensures HoldsAt(c.entries, done, j) {
      EntriesApart(c.dict, kids, i, j);
      var o := At(done, j);
      assert old(Holds(c.entries[j].1, o));
      assert old(allocated(o)) && old(allocated(Objs(o)));
      assert forall x :: x in Objs(o) ==> x.entries == old(x.entries);
      assert Holds(c.entries[j].1, o);
    }
    forall j | i < j < |c.entries| ensures HoldsAt(c.entries, kids, j) {
      EntriesApart(c.dict, kids, i, j);
      var o := At(kids, j);
      assert old(Holds(c.entries[j].1, o));
      assert old(allocated(o)) && old(allocated(Objs(o)));
      assert forall x :: x in Objs(o) ==> x.entries == old(x.entries);
      assert Holds(c.entries[j].1, o);
    }
    ScrubKidsAt(c.dict, kids, i);
    assert HoldsAt(c.entries, done, i);
  }

  /** `scrub_people` */
  method ScrubPeople(item: Item, ghost t: Tree)
    requires Holds(item, t) && Proper(t)
    modifies Objs(t)
    ensures Holds(item, Scrub(t, false))
    decreases Size(t), 0
  {
    if item.Ref? {
      var c := item.c;
      ghost var kids, done := t.kids, ScrubKids(c.dict, false, t.kids);
      ScrubKidsKeep(c.dict, false, kids);
      EachFromKids(c.entries, kids);
      var n := |c.entries|;
      for i := 0 to n
        invariant c.entries == old(c.entries)
        invariant Midway(c.entries, kids, done, i)
      {
        ScrubOne(c, i, kids);
      }
      KidsFromEach(c.entries, done);
    }
  }

  // ---------------------------------------------------------------- what sanitizing gives

  /** `str.lower`, and the replacement of everything that looks like an e-mail address. */
  datatype Rules = Rules(lower: string -> string, mask: string -> string)

  const MAIL := "user@example.com"

  /** A string entry of a dictionary, sanitized. */
  function CleanString(r: Rules, k: string, s: string): string {
    var kl := r.lower(k);
    if (kl == "name" || kl == "displayname" || kl == "full_name") && s != "" then s
    else if kl == "email" then MAIL
    else r.mask(s)
  }

  /** Strings in lists stay as they are. */
  function Sanitized(r: Rules, t: Tree): Tree
    decreases t
  {
    match t
    case TStr(_) => t
    case TScalar(_) => t
    case TNode(c, kids) => TNode(c, SanitizedKids(r, c.dict, kids))
  }

  function SanitizedKids(r: Rules, dict: bool, kids: Kids): Kids
    decreases kids
  {
    match kids
    case NoKid => NoKid
    case Kid(k, t, more) =>
      Kid(k, if dict && t.TStr? then TStr(CleanString(r, k, t.s)) else Sanitized(r, t), SanitizedKids(r, dict, more))
  }

  lemma {:induction false} SanitizedKeeps(r: Rules, t: Tree)
    ensures Objs(Sanitized(r, t)) == Objs(t)
    decreases t
  {
    match t
    case TStr(_) =>
    case TScalar(_) =>
    case TNode(c, kids) => SanitizedKidsKeep(r, c.dict, kids);
  }

  lemma {:induction false} SanitizedKidsKeep(r: Rules, dict: bool, kids: Kids)
    ensures KidObjs(SanitizedKids(r, dict, kids)) == KidObjs(kids) && Len(SanitizedKids(r, dict, kids)) == Len(kids)
    decreases kids
  {
    match kids
    case NoKid =>
    case Kid(k, t, more) =>
      SanitizedKeeps(r, t);
      SanitizedKidsKeep(r, dict, more);
  }

  lemma {:induction false} SanitizedKidsAt(r: Rules, dict: bool, kids: Kids, i: nat)
    requires i < Len(kids)
    ensures var s, t := SanitizedKids(r, dict, kids), At(kids, i);
      Len(s) == Len(kids) && KeyAt(s, i) == KeyAt(kids, i) &&
      At(s, i) == if dict && t.TStr? then TStr(CleanString(r, KeyAt(kids, i), t.s)) else Sanitized(r, t)
  {
    SanitizedKidsKeep(r, dict, kids);
    if i == 0 {
    } else {
      SanitizedKidsAt(r, dict, kids.more, i - 1);
    }
  }

  lemma CleanApart(r: Rules, dict: bool, kids: Kids, i: nat, j: nat)
    requires ProperKids(kids) && i < Len(kids) && j < Len(kids) && i != j
    ensures Len(SanitizedKids(r, dict, kids)) == Len(kids)
    ensures Objs(At(kids, j)) !! Objs(At(kids, i)) && Objs(At(SanitizedKids(r, dict, kids), j)) !! Objs(At(kids, i))
  {
    DisjointAt(kids, j, i);
    SanitizedKidsKeep(r, dict, kids);
    SanitizedKidsAt(r, dict, kids, j);
    SanitizedKeeps(r, At(kids, j));
  }

  // ---------------------------------------------------------------- sanitizing in place

  /** One round of the loop: a string entry of a dictionary is overwritten, anything else is descended into. */
  method SanitizeOne(r: Rules, c: Container, i: nat, ghost kids: Kids)
    requires ProperKids(kids) && c !in KidObjs(kids) && i < |c.entries| == Len(kids)
    requires Len(SanitizedKids(r, c.dict, kids)) == Len(kids)
    requires Midway(c.entries, kids, SanitizedKids(r, c.dict, kids), i)
    modifies c, KidObjs(kids)
    ensures |c.entries| == |old(c.entries)|
    ensures Midway(c.entries, kids, SanitizedKids(r, c.dict, kids), i + 1)
    decreases KidsSize(kids), 2
  {
    var (k, v) := c.entries[i];
    assert HoldsAt(c.entries, kids, i);
    SanitizedKidsAt(r, c.dict, kids, i);
    if c.dict && v.Str? {
      var kl := r.lower(k);
      if (kl == "name" || kl == "displayname" || kl == "full_name") && v.s != "" {
        Overwrite(r, c, i, v.s, kids);
      } else if kl == "email" {
        Overwrite(r, c, i, MAIL, kids);
      } else {
        Overwrite(r, c, i, r.mask(v.s), kids);
      }
    } else {
      Descend(r, c, i, kids);
    }
  }

  /** `obj[k] = value` */
  method Overwrite(r: Rules, c: Container, i: nat, value: string, ghost kids: Kids)
    requires c !in KidObjs(kids) && i < |c.entries| == Len(kids) == Len(SanitizedKids(r, c.dict, kids))
    requires Midway(c.entries, kids, SanitizedKids(r, c.dict, kids), i)
    requires At(SanitizedKids(r, c.dict, kids), i) == TStr(value)
    requires KeyAt(SanitizedKids(r, c.dict, kids), i) == c.entries[i].0
    modifies c
    ensures |c.entries| == |old(c.entries)|
    ensures Midway(c.entries, kids, SanitizedKids(r, c.dict, kids), i + 1)
  {
    ghost var done, before := SanitizedKids(r, c.dict, kids), c.entries;
    SanitizedKidsKeep(r, c.dict, kids);
    c.entries := c.entries[i := (c.entries[i].0, Str(value))];
    forall j | 0 <= j < i ensures HoldsAt(c.entries, done, j) {
      assert old(HoldsAt(before, done, j));
    }
    forall j | i < j < |c.entries| ensures HoldsAt(c.entries, kids, j) {
      assert old(HoldsAt(before, kids, j));
    }
    assert HoldsAt(c.entries, done, i);
  }

  method Descend(r: Rules, c: Container, i: nat, ghost kids: Kids)
    requires ProperKids(kids) && c !in KidObjs(kids) && i < |c.entries| == Len(kids)
    requires Len(SanitizedKids(r, c.dict, kids)) == Len(kids)
    requires Midway(c.entries, kids, SanitizedKids(r, c.dict, kids), i)
    requires !(c.dict && c.entries[i].1.Str?)
    modifies KidObjs(kids)
    ensures c.entries == old(c.entries)
    ensures Midway(c.entries, kids, SanitizedKids(r, c.dict, kids), i + 1)
    decreases KidsSize(kids), 1
  {
    ghost var done := SanitizedKids(r, c.dict, kids);
    ObjsAt(kids, i);
    assert HoldsAt(c.entries, kids, i);
    forall j | 0 <= j < i ensures Holds(c.entries[j].1, At(done, j)) && c.entries[j].0 == KeyAt(done, j) {
      assert HoldsAt(c.entries, done, j);
    }
    forall j | i < j < |c.entries| ensures Holds(c.entries[j].1, At(kids, j)) && c.entries[j].0 == KeyAt(kids, j) {
      assert HoldsAt(c.entries, kids, j);
    }
    Sanitize(r, c.entries[i].1, At(kids, i));
    forall j | 0 <= j < i ensures HoldsAt(c.entries, done, j) {
      CleanApart(r, c.dict, kids, i, j);
      var o := At(done, j);
      assert old(Holds(c.entries[j].1, o));
      assert old(allocated(o)) && old(allocated(Objs(o)));
      assert forall x :: x in Objs(o) ==> x.entries == old(x.entries);
      assert Holds(c.entries[j].1, o);
    }
    forall j | i < j < |c.entries| ensures HoldsAt(c.entries, kids, j) {
      CleanApart(r, c.dict, kids, i, j);
      var o := At(kids, j);
      assert old(Holds(c.entries[j].1, o));
      assert old(allocated(o)) && old(allocated(Objs(o)));
      assert forall x :: x in Objs(o) ==> x.entries == old(x.entries);
      assert Holds(c.entries[j].1, o);
    }
    SanitizedKidsAt(r, c.dict, kids, i);
    assert HoldsAt(c.entries, done, i);
  }

  /** `sanitize` */
  method Sanitize(r: Rules, item: Item, ghost t: Tree)
    requires Holds(item, t) && Proper(t)
    modifies Objs(t)
    ensures Holds(item, Sanitized(r, t))
    decreases Size(t), 0
  {
    if item.Ref? {
      var c := item.c;
      ghost var kids, done := t.kids, SanitizedKids(r, c.dict, t.kids);
      SanitizedKidsKeep(r, c.dict, kids);
      EachFromKids(c.entries, kids);
      var n := |c.entries|;
      for i := 0 to n
        invariant |c.entries| == n
        invariant Midway(c.entries, kids, done, i)
      {
        SanitizeOne(r, c, i, kids);
      }
      KidsFromEach(c.entries, done);
    }
  }

  /** The tree that finalizing leaves. */
  function Finalized(r: Rules, t: Tree): Tree {
    Sanitized(r, Scrub(t, false))
  }

  /** `finalize`: in place, and nothing outside the document is touched. */
  method Finalize(r: Rules, raw: Item, ghost t: Tree) returns (same: Item)
    requires Holds(raw, t) && Proper(t)
    modifies Objs(t)
    ensures same == raw && Holds(raw, Finalized(r, t))
  {
    ScrubPeople(raw, t);
    ScrubKeeps(t, false);
    Sanitize(r, raw, Scrub(t, false));
    same := raw;
  }
}
