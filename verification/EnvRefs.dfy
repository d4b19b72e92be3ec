/** References to environment variables in a configuration tree: `${NAME}` and `$NAME`, replaced in one
    pass over each string. */
module EnvRefs {
  import opened Wrappers

  /** What `process.env[name]` answers, as text; nothing for `undefined`. */
  type Env = map<string, string>

  /** The variables that are set, in front of the names that `process.env` inherits. */
  function Visible(own: Env, inherited: Env): Env {
    inherited + own
  }

  // ---------------------------------------------------------------- one string

  /** `\w` */
  predicate WordChar(c: char) {
    'a' <= c <= 'z' || 'A' <= c <= 'Z' || '0' <= c <= '9' || c == '_'
  }

  /** The length of the longest run of word characters at the front. */
  function Run(s: string): (n: nat)
    ensures n <= |s|
    ensures forall i :: 0 <= i < n ==> WordChar(s[i])
    ensures n < |s| ==> !WordChar(s[n])
  {
    if s == "" || !WordChar(s[0]) then 0 else 1 + Run(s[1..])
  }

  /** What the pattern matches at the front: a name, and the length of the match. */
  function RefAt(s: string): (r: Option<(string, nat)>)
    ensures r.Some? ==> 0 < r.value.1 <= |s|
  {
    if |s| < 2 || s[0] != '$' then None
    else if s[1] == '{' then
      var n := Run(s[2..]);
      if n > 0 && n + 2 < |s| && s[n + 2] == '}' then Some((s[2..n + 2], n + 3)) else None
    else
      var n := Run(s[1..]);
      if n > 0 then Some((s[1..n + 1], n + 1)) else None
  }

  /** `value.replace(pattern, lookup)`: matches from left to right; the first unset name is the error. */
  function Replace(env: Env, s: string): Result<string, string>
    decreases |s|
  {
    if s == "" then Ok("")
    else
      match RefAt(s)
      case None => Prefixed([s[0]], Replace(env, s[1..]))
      case Some((name, n)) => if name !in env then Err(name) else Prefixed(env[name], Replace(env, s[n..]))
  }

  function Prefixed(front: string, r: Result<string, string>): Result<string, string> {
    match r case Ok(s) => Ok(front + s) case Err(e) => Err(e)
  }

  // ---------------------------------------------------------------- what a string consists of

  datatype Piece = Char(c: char) | Ref(text: string, name: string)

  function TextOf(p: Piece): string {
    match p case Char(c) => [c] case Ref(text, _) => text
  }

  function Flat(ps: seq<Piece>): string {
    if ps == [] then "" else TextOf(ps[0]) + Flat(ps[1..])
  }

  /** Letters, digits and underscores, at least one. */
  predicate IsName(name: string) {
    && name != ""
    && forall i :: 0 <= i < |name| ==>
         'a' <= name[i] <= 'z' || 'A' <= name[i] <= 'Z' || '0' <= name[i] <= '9' || name[i] == '_'
  }

  /** The two ways to write a reference. */
  predicate Braced(text: string, name: string) { text == "${" + name + "}" }
  predicate Bare(text: string, name: string) { text == "$" + name }

  predicate IsRef(text: string, name: string) {
    IsName(name) && (Braced(text, name) || Bare(text, name))
  }

  /** A reference that could not be longer where this text follows it. */
  predicate LongestRef(text: string, name: string, rest: string) {
    IsRef(text, name) && (Bare(text, name) && rest != "" ==> !WordChar(rest[0]))
  }

  ghost predicate NoRefStarts(s: string) {
    forall text, name :: IsRef(text, name) ==> !(text <= s)
  }

  /** A string is cut properly: every reference piece is one, a bare one is as long as possible, and no
      reference starts at a character that is a piece of its own. */
  ghost predicate ProperCut(ps: seq<Piece>) {
    if ps == [] then true else
      && ProperCut(ps[1..])
      && match ps[0]
         case Char(_) => NoRefStarts(Flat(ps))
         case Ref(text, name) =>
           LongestRef(text, name, Flat(ps[1..]))
  }

  function Pieces(s: string): seq<Piece>
    decreases |s|
  {
    if s == "" then []
    else
      match RefAt(s)
      case None => [Char(s[0])] + Pieces(s[1..])
      case Some((name, n)) => [Ref(s[..n], name)] + Pieces(s[n..])
  }

  /** A run is what is in front of the first other character. */
  lemma {:induction false} RunIs(name: string, rest: string)
    requires forall i :: 0 <= i < |name| ==> WordChar(name[i])
    requires rest != "" ==> !WordChar(rest[0])
    ensures Run(name + rest) == |name|
  {
    if name == "" {
      assert name + rest == rest;
    } else {
      assert (name + rest)[1..] == name[1..] + rest;
      RunIs(name[1..], rest);
    }
  }

  /** The pattern matches a reference at the front, taken as long as possible. */
  lemma RefMatches(text: string, name: string, rest: string)
    requires LongestRef(text, name, rest)
    ensures RefAt(text + rest) == Some((name, |text|))
  {
    if Braced(text, name) {
      BracedMatches(text + rest, name, rest);
    } else {
      BareMatches(text + rest, name, rest);
    }
  }

  lemma BracedMatches(s: string, name: string, rest: string)
    requires IsName(name) && s == "${" + name + "}" + rest
    ensures RefAt(s) == Some((name, |name| + 3))
  {
    var after := "}" + rest;
    assert s[2..] == name + after;
    RunIs(name, after);
    assert s[2..|name| + 2] == name && s[|name| + 2] == '}';
  }

  lemma BareMatches(s: string, name: string, rest: string)
    requires IsName(name) && s == "$" + name + rest && (rest != "" ==> !WordChar(rest[0]))
    ensures RefAt(s) == Some((name, |name| + 1))
  {
    assert s[1..] == name + rest;
    RunIs(name, rest);
    assert s[1..|name| + 1] == name && s[1] == name[0];
  }

  /** What the pattern matches is a reference, as long as possible. */
  lemma MatchIsRef(s: string)
    requires RefAt(s).Some?
    ensures var (name, n) := RefAt(s).value;
      LongestRef(s[..n], name, s[n..])
  {
    var (name, n) := RefAt(s).value;
    if s[1] == '{' {
      assert s[..n] == "${" + name + "}";
      assert !WordChar('{');
    } else {
      assert s[..n] == "$" + name;
    }
  }

  /** The pattern matches exactly where a reference starts. */
  lemma MatchesIff(s: string)
    ensures RefAt(s).Some? <==> exists text, name :: IsRef(text, name) && text <= s
  {
    if RefAt(s).Some? {
      MatchIsRef(s);
      var (name, n) := RefAt(s).value;
      assert IsRef(s[..n], name) && s[..n] <= s;
    }
    forall text, name | IsRef(text, name) && text <= s ensures RefAt(s).Some? {
      if Braced(text, name) {
        assert s == text + s[|text|..];
        RefMatches(text, name, s[|text|..]);
      } else {
        assert s[1] == text[1] == name[0];
        assert s[1..][0] == s[1] && WordChar(name[0]);
      }
    }
  }

  lemma NoMatchIff(s: string)
    ensures RefAt(s) == None <==> NoRefStarts(s)
  {
    MatchesIff(s);
  }

  lemma CutChar(s: string, ps: seq<Piece>)
    requires s != "" && RefAt(s) == None && ProperCut(ps) && Flat(ps) == s[1..]
    ensures Flat([Char(s[0])] + ps) == s && ProperCut([Char(s[0])] + ps)
  {
    assert ([Char(s[0])] + ps)[1..] == ps;
    assert s == [s[0]] + s[1..];
    NoMatchIff(s);
  }

  lemma CutRef(s: string, ps: seq<Piece>)
    requires RefAt(s).Some? && ProperCut(ps) && Flat(ps) == s[RefAt(s).value.1..]
    ensures var (name, n) := RefAt(s).value;
      Flat([Ref(s[..n], name)] + ps) == s && ProperCut([Ref(s[..n], name)] + ps)
  {
    var (name, n) := RefAt(s).value;
    MatchIsRef(s);
    RefInFront(s[..n], name, ps);
    assert s == s[..n] + s[n..];
  }

  lemma RefInFront(text: string, name: string, ps: seq<Piece>)
    requires ProperCut(ps) && LongestRef(text, name, Flat(ps))
    ensures Flat([Ref(text, name)] + ps) == text + Flat(ps) && ProperCut([Ref(text, name)] + ps)
  {
    var cut := [Ref(text, name)] + ps;
    assert cut[0] == Ref(text, name) && cut[1..] == ps;
  }

  /** Every string has a proper cut, and only one: what the pattern finds from left to right. */
  lemma {:induction false} PiecesAreProper(s: string)
    ensures Flat(Pieces(s)) == s && ProperCut(Pieces(s))
    decreases |s|
  {
    if s == "" {
    } else {
      if RefAt(s) == None {
        PiecesAreProper(s[1..]);
        CutChar(s, Pieces(s[1..]));
      } else {
        var n := RefAt(s).value.1;
        PiecesAreProper(s[n..]);
        CutRef(s, Pieces(s[n..]));
      }
    }
  }

  /** Where no reference starts, the first piece is the character. */
  lemma CharFirst(c: char, rest: string)
    requires NoRefStarts([c] + rest)
    ensures Pieces([c] + rest) == [Char(c)] + Pieces(rest)
  {
    var s := [c] + rest;
    assert s[1..] == rest;
    NoMatchIff(s);
  }

  /** Where one does, it is the longest reference there. */
  lemma RefFirst(text: string, name: string, rest: string)
    requires LongestRef(text, name, rest)
    ensures Pieces(text + rest) == [Ref(text, name)] + Pieces(rest)
  {
    var s := text + rest;
    RefMatches(text, name, rest);
    assert s[..|text|] == text && s[|text|..] == rest;
  }

  lemma ProperFirst(ps: seq<Piece>)
    requires ps != [] && ProperCut(ps)
    ensures Pieces(Flat(ps)) == [ps[0]] + Pieces(Flat(ps[1..]))
  {
    var rest := Flat(ps[1..]);
    assert Flat(ps) == TextOf(ps[0]) + rest;
    match ps[0] {
      case Char(c) => CharFirst(c, rest);
      case Ref(text, name) => RefFirst(text, name, rest);
    }
  }

  /** There is no other proper cut. */
  lemma {:induction false} ProperIsPieces(ps: seq<Piece>)
    requires ProperCut(ps)
    ensures Pieces(Flat(ps)) == ps
  {
    if ps == [] {
    } else {
      ProperIsPieces(ps[1..]);
      ProperFirst(ps);
      assert ps == [ps[0]] + ps[1..];
    }
  }

  function Refs(ps: seq<Piece>): seq<string> {
    if ps == [] then [] else (if ps[0].Ref? then [ps[0].name] else []) + Refs(ps[1..])
  }

  function FirstUnset(env: Env, names: seq<string>): Option<string> {
    if names == [] then None else if names[0] !in env then Some(names[0]) else FirstUnset(env, names[1..])
  }

  /** The pieces in order, each reference as its value, as it is: values are not searched again. */
  function Rendered(env: Env, ps: seq<Piece>): string {
    if ps == [] then ""
    else
      (match ps[0]
       case Char(c) => [c]
       case Ref(_, name) => if name in env then env[name] else "") + Rendered(env, ps[1..])
  }

  /** The replacement fails with the first unset reference, and otherwise renders the pieces. */
  lemma {:induction false} ReplaceRenders(env: Env, s: string)
    ensures Replace(env, s) ==
      match FirstUnset(env, Refs(Pieces(s)))
      case Some(name) => Err(name)
      case None => Ok(Rendered(env, Pieces(s)))
    decreases |s|
  {
    if s == "" {
    } else {
      var ps := Pieces(s);
      match RefAt(s) {
        case None =>
          ReplaceRenders(env, s[1..]);
          assert ps[1..] == Pieces(s[1..]);
          assert [] + Refs(ps[1..]) == Refs(ps[1..]);
        case Some((name, n)) =>
          ReplaceRenders(env, s[n..]);
          assert ps[1..] == Pieces(s[n..]);
          assert Refs(ps) == [name] + Refs(ps[1..]) && Refs(ps)[1..] == Refs(ps[1..]);
      }
    }
  }

  // ---------------------------------------------------------------- the tree

  /** A parsed configuration; `Scalar` is a number, a boolean or null. */
  datatype Config = Text(s: string) | Scalar(text: string) | List(items: Items) | Object(members: Members)
  datatype Items = NoItem | Item(config: Config, more: Items)
  datatype Members = NoMember | Member(key: string, config: Config, more: Members)

  function ResolveEnvRefs(env: Env, value: Config): Result<Config, string> {
    match value
    case Text(s) => (match Replace(env, s) case Ok(r) => Ok(Text(r)) case Err(e) => Err(e))
    case Scalar(_) => Ok(value)
    case List(items) => (match ResolveItems(env, items) case Ok(r) => Ok(List(r)) case Err(e) => Err(e))
    case Object(members) => (match ResolveMembers(env, members) case Ok(r) => Ok(Object(r)) case Err(e) => Err(e))
  }

  function ResolveItems(env: Env, items: Items): Result<Items, string> {
    match items
    case NoItem => Ok(NoItem)
    case Item(config, more) =>
      match ResolveEnvRefs(env, config)
      case Err(e) => Err(e)
      case Ok(c) => match ResolveItems(env, more) case Ok(r) => Ok(Item(c, r)) case Err(e) => Err(e)
  }

  function ResolveMembers(env: Env, members: Members): Result<Members, string> {
    match members
    case NoMember => Ok(NoMember)
    case Member(key, config, more) =>
      match ResolveEnvRefs(env, config)
      case Err(e) => Err(e)
      case Ok(c) => match ResolveMembers(env, more) case Ok(r) => Ok(Member(key, c, r)) case Err(e) => Err(e)
  }

  /** The strings of a tree, in order. */
  function Texts(value: Config): seq<string> {
    match value
    case Text(s) => [s]
    case Scalar(_) => []
    case List(items) => ItemTexts(items)
    case Object(members) => MemberTexts(members)
  }

  function ItemTexts(items: Items): seq<string> {
    match items case NoItem => [] case Item(config, more) => Texts(config) + ItemTexts(more)
  }

  function MemberTexts(members: Members): seq<string> {
    match members case NoMember => [] case Member(_, config, more) => Texts(config) + MemberTexts(more)
  }

  /** Two trees that differ at most in their strings. */
  predicate SameShape(a: Config, b: Config) {
    match (a, b)
    case (Text(_), Text(_)) => true
    case (Scalar(x), Scalar(y)) => x == y
    case (List(x), List(y)) => SameItems(x, y)
    case (Object(x), Object(y)) => SameMembers(x, y)
    case _ => false
  }

  predicate SameItems(a: Items, b: Items) {
    match (a, b)
    case (NoItem, NoItem) => true
    case (Item(c, x), Item(d, y)) => SameShape(c, d) && SameItems(x, y)
    case _ => false
  }

  predicate SameMembers(a: Members, b: Members) {
    match (a, b)
    case (NoMember, NoMember) => true
    case (Member(k, c, x), Member(l, d, y)) => k == l && SameShape(c, d) && SameMembers(x, y)
    case _ => false
  }

  /** The references in strings, in order. */
  function AllRefs(texts: seq<string>): seq<string> {
    if texts == [] then [] else Refs(Pieces(texts[0])) + AllRefs(texts[1..])
  }

  function AllRendered(env: Env, texts: seq<string>): seq<string> {
    if texts == [] then [] else [Rendered(env, Pieces(texts[0]))] + AllRendered(env, texts[1..])
  }

  lemma {:induction false} RefsAppend(a: seq<string>, b: seq<string>)
    ensures AllRefs(a + b) == AllRefs(a) + AllRefs(b)
  {
    if a == [] {
      assert a + b == b;
    } else {
      assert (a + b)[1..] == a[1..] + b && (a + b)[0] == a[0];
      RefsAppend(a[1..], b);
      ConcatAssoc(Refs(Pieces(a[0])), AllRefs(a[1..]), AllRefs(b));
    }
  }

  lemma {:induction false} RenderedAppend(env: Env, a: seq<string>, b: seq<string>)
    ensures AllRendered(env, a + b) == AllRendered(env, a) + AllRendered(env, b)
  {
    if a == [] {
      assert a + b == b;
    } else {
      assert (a + b)[1..] == a[1..] + b && (a + b)[0] == a[0];
      RenderedAppend(env, a[1..], b);
      ConcatAssoc([Rendered(env, Pieces(a[0]))], AllRendered(env, a[1..]), AllRendered(env, b));
    }
  }

  lemma {:induction false} UnsetAppend(env: Env, a: seq<string>, b: seq<string>)
    ensures FirstUnset(env, a + b) == if FirstUnset(env, a).Some? then FirstUnset(env, a) else FirstUnset(env, b)
  {
    if a == [] {
      assert a + b == b;
    } else {
      assert (a + b)[1..] == a[1..] + b;
      UnsetAppend(env, a[1..], b);
    }
  }

  lemma BothTexts(env: Env, a: seq<string>, b: seq<string>)
    ensures FirstUnset(env, AllRefs(a + b)) ==
      if FirstUnset(env, AllRefs(a)).Some? then FirstUnset(env, AllRefs(a)) else FirstUnset(env, AllRefs(b))
    ensures AllRendered(env, a + b) == AllRendered(env, a) + AllRendered(env, b)
  {
    RefsAppend(a, b);
    RenderedAppend(env, a, b);
    UnsetAppend(env, AllRefs(a), AllRefs(b));
  }

  /** For every tree: it throws exactly if some reference in some string is unset, naming the first one, and
      otherwise keeps shape, keys and other leaves, with every string rendered. */
  lemma {:induction false} ResolveRenders(env: Env, value: Config)
    ensures match ResolveEnvRefs(env, value)
      case Err(name) => FirstUnset(env, AllRefs(Texts(value))) == Some(name)
      case Ok(r) => FirstUnset(env, AllRefs(Texts(value))) == None && SameShape(value, r) &&
                    Texts(r) == AllRendered(env, Texts(value))
    decreases value
  {
    match value
    case Text(s) =>
      ReplaceRenders(env, s);
      assert [s][1..] == [];
      assert Refs(Pieces(s)) + [] == Refs(Pieces(s));
    case Scalar(_) =>
    case List(items) => ResolveItemsRenders(env, items);
    case Object(members) => ResolveMembersRenders(env, members);
  }

  lemma {:induction false} ResolveItemsRenders(env: Env, items: Items)
    ensures match ResolveItems(env, items)
      case Err(name) => FirstUnset(env, AllRefs(ItemTexts(items))) == Some(name)
      case Ok(r) => FirstUnset(env, AllRefs(ItemTexts(items))) == None && SameItems(items, r) &&
                    ItemTexts(r) == AllRendered(env, ItemTexts(items))
    decreases items
  {
    match items
    case NoItem =>
    case Item(config, more) =>
      ResolveRenders(env, config);
      ResolveItemsRenders(env, more);
      BothTexts(env, Texts(config), ItemTexts(more));
  }

  lemma {:induction false} ResolveMembersRenders(env: Env, members: Members)
    ensures match ResolveMembers(env, members)
      case Err(name) => FirstUnset(env, AllRefs(MemberTexts(members))) == Some(name)
      case Ok(r) => FirstUnset(env, AllRefs(MemberTexts(members))) == None && SameMembers(members, r) &&
                    MemberTexts(r) == AllRendered(env, MemberTexts(members))
    decreases members
  {
    match members
    case NoMember =>
    case Member(key, config, more) =>
      ResolveRenders(env, config);
      ResolveMembersRenders(env, more);
      BothTexts(env, Texts(config), MemberTexts(more));
  }

  /** Both ways to write a name, in whatever letters, digits and underscores, resolve to the variable's text,
      as it is, or throw the name. A variable that is set hides an inherited one. */
  lemma NamesResolve(own: Env, inherited: Env, name: string)
    requires IsName(name)
    ensures var env := Visible(own, inherited);
      var r := if name in own then Ok(Text(own[name]))
               else if name in inherited then Ok(Text(inherited[name])) else Err(name);
      && ResolveEnvRefs(env, Text("${" + name + "}")) == r
      && ResolveEnvRefs(env, Text("$" + name)) == r
  {
    var env := Visible(own, inherited);
    WholeRef(env, "${" + name + "}", name);
    WholeRef(env, "$" + name, name);
  }

  lemma WholeRef(env: Env, text: string, name: string)
    requires IsRef(text, name)
    ensures Replace(env, text) == if name in env then Ok(env[name]) else Err(name)
  {
    assert text + "" == text;
    RefMatches(text, name, "");
    assert text[|text|..] == "" && Replace(env, "") == Ok("");
    if name in env { assert env[name] + "" == env[name]; }
  }

  /** After the dollar sign comes a name, or a brace, a name and a brace. */
  ghost predicate NameFollows(rest: string) {
    (rest != "" && IsName(rest[..1])) || exists name :: IsName(name) && "{" + name + "}" <= rest
  }

  /** A dollar sign starts a reference exactly if a name follows: not at the end, not before any other
      character, not before a brace that opens anything else. */
  lemma DollarStarts(rest: string)
    ensures RefAt("$" + rest).Some? <==> NameFollows(rest)
  {
    var s := "$" + rest;
    if RefAt(s).Some? {
      MatchIsRef(s);
      FirstOfRef(s[..RefAt(s).value.1], RefAt(s).value.0, rest);
    }
    MatchesIff(s);
    if rest != "" && IsName(rest[..1]) { assert IsRef("$" + rest[..1], rest[..1]) && "$" + rest[..1] <= s; }
    forall name | IsName(name) && "{" + name + "}" <= rest ensures RefAt(s).Some? {
      assert IsRef("${" + name + "}", name) && "${" + name + "}" <= s;
    }
  }

  lemma FirstOfRef(text: string, name: string, rest: string)
    requires IsRef(text, name) && text <= "$" + rest
    ensures NameFollows(rest)
  {
    if Braced(text, name) {
      assert text[1..] == "{" + name + "}" && text[1..] <= rest;
    } else {
      assert rest[..1] == [text[1]] == [name[0]];
    }
  }

  /** Where none follows, the dollar sign stays and what follows it is read on its own. */
  lemma DollarStays(env: Env, rest: string)
    ensures !NameFollows(rest) ==> Replace(env, "$" + rest) == Prefixed("$", Replace(env, rest))
  {
    DollarStarts(rest);
    assert ("$" + rest)[1..] == rest;
  }

  lemma {:induction false} UnsetExact(env: Env, names: seq<string>)
    ensures FirstUnset(env, names).Some? <==> exists n :: n in names && n !in env
  {
    if names == [] {
    } else {
      UnsetExact(env, names[1..]);
      assert forall n :: n in names <==> n == names[0] || n in names[1..];
    }
  }

  /** Some reference in some string of the tree is not answered. */
  ghost predicate SomeMissing(env: Env, value: Config) {
    exists n :: n in AllRefs(Texts(value)) && n !in env
  }

  /** It throws exactly if some reference is neither set nor inherited. So throwing means what it is for, that
      some reference is not set, exactly if some reference is neither or all are set: otherwise every one that
      is not set is inherited, and then it goes through. */
  lemma ThrowsExactly(own: Env, inherited: Env, value: Config)
    ensures var thrown := ResolveEnvRefs(Visible(own, inherited), value).Err?;
      && (thrown <==> SomeMissing(Visible(own, inherited), value))
      && ((thrown <==> SomeMissing(own, value)) <==>
            SomeMissing(Visible(own, inherited), value) || !SomeMissing(own, value))
  {
    ResolveRenders(Visible(own, inherited), value);
    UnsetExact(Visible(own, inherited), AllRefs(Texts(value)));
  }

  /** A reference to an inherited name that is not set does not throw: the inherited text goes in. */
  lemma InheritedGoesIn(own: Env, inherited: Env, name: string)
    requires IsName(name) && name !in own && name in inherited
    ensures ResolveEnvRefs(Visible(own, inherited), Text("$" + name)) == Ok(Text(inherited[name]))
    ensures SomeMissing(own, Text("$" + name))
  {
    var s := "$" + name;
    assert s + "" == s;
    RefFirst(s, name, "");
    BareMatches(s, name, "");
    var env := Visible(own, inherited);
    assert env[name] == inherited[name] && inherited[name] + "" == inherited[name];
    assert s[|s|..] == "" && Replace(env, s[|s|..]) == Ok("");
    OnlyRef(s, name);
  }

  lemma OnlyRef(s: string, name: string)
    requires Pieces(s) == [Ref(s, name)] + Pieces("")
    ensures name in AllRefs(Texts(Text(s)))
  {
    assert Pieces(s)[0] == Ref(s, name) && [s][0] == s;
    assert Refs(Pieces(s))[0] == name;
  }

  /** For `$constructor`, a name that every object inherits: nothing is thrown although it is not set. */
  lemma InheritedNotThrown(own: Env, inherited: Env)
    requires "constructor" !in own && "constructor" in inherited
    ensures ResolveEnvRefs(Visible(own, inherited), Text("$constructor")) == Ok(Text(inherited["constructor"]))
    ensures SomeMissing(own, Text("$constructor"))
  {
    assert "$" + "constructor" == "$constructor";
    InheritedGoesIn(own, inherited, "constructor");
  }
}
