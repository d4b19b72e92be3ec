/** The backtracking search that the generated router unrolls, for any trie, and the flat list of
    routes that a trie stands for. The main result is `WalkIsFirstMatch`: on a well-formed trie the
    search, with its cursor that is not always put back, answers exactly like trying the flat routes
    one after another.
 */
module RouteTrie {
  import opened Wrappers

  /** A static node: the code under `case c: // Prefix: "..."`. `restores` says that the node saved
      the cursor in `origElem` and puts it back when nothing below it matched. */
  datatype Node<E> =
    Node(prefix: string, endpoint: Option<E>, kids: List<Node<E>>, param: Param<E>, restores: bool)

  /** What follows the static children of a node: a parameter that takes the whole rest (no slash
      allowed), or one that takes everything up to the next slash. */
  datatype Param<E> = NoParam | Rest(endpoint: E) | Segment(kids: List<Node<E>>)

  /** Either an endpoint with its path arguments, or the cursor left behind by a failed search. */
  datatype Walked<E> = Hit(endpoint: E, args: seq<string>) | Fell(elem: string)

  /** `strings.IndexByte(s, '/')`, with the length standing for "absent". */
  function SlashIndex(s: string): (i: nat)
    ensures i <= |s|
    ensures '/' !in s[..i]
    ensures i < |s| ==> s[i] == '/'
  {
    if s == "" || s[0] == '/' then 0 else 1 + SlashIndex(s[1..])
  }

  /** `if len(elem) == 0 { break }`: emitted for a node without endpoint that has children. The
      cursor is empty when this break is taken. */
  predicate Guarded<E>(n: Node<E>) {
    n.endpoint.None? && n.kids.Cons?
  }

  predicate StartsWith(prefix: string, c: char) {
    prefix != "" && prefix[0] == c
  }

  function Walk<E>(n: Node<E>, elem: string): Walked<E>
    decreases n, 0
  {
    if !(n.prefix <= elem) then Fell(elem)
    else
      var rest := elem[|n.prefix|..];
      if rest == "" && n.endpoint.Some? then Hit(n.endpoint.value, [])
      else if rest == "" && n.kids.Cons? then Fell("")
      else
        var below := WalkKids(n.kids, rest);
        if below.Hit? then below else
        var last := WalkParam(n.param, below.elem);
        if last.Hit? then last else Fell(if n.restores then elem else last.elem)
  }

  /** `switch elem[0] { case ... }` */
  function WalkKids<E>(kids: List<Node<E>>, elem: string): Walked<E>
    decreases kids, 0
  {
    match kids
    case Nil => Fell(elem)
    case Cons(k, others) =>
      if elem != "" && StartsWith(k.prefix, elem[0]) then Walk(k, elem) else WalkKids(others, elem)
  }

  function WalkParam<E>(p: Param<E>, elem: string): Walked<E>
    decreases p, 0
  {
    match p
    case NoParam => Fell(elem)
    case Rest(e) => if '/' in elem then Fell(elem) else Hit(e, [elem])
    case Segment(kids) =>
      var i := SlashIndex(elem);
      if i == |elem| then Fell("") else
      var below := WalkKids(kids, elem[i..]);
      if below.Hit? then Hit(below.endpoint, [elem[..i]] + below.args) else below
  }

  // ---------------------------------------------------------------- flat routes

  /** A path pattern: literal text and holes for the arguments. */
  datatype Pattern = End | Lit(text: string, more: Pattern) | Hole(mayBeEmpty: bool, more: Pattern)

  datatype Route<E> = Route(pattern: Pattern, endpoint: E)

  /** Matches a path against one pattern; a hole takes the longest slash-free run. */
  function Match(p: Pattern, path: string): Option<seq<string>> {
    match p
    case End => if path == "" then Some([]) else None
    case Lit(text, more) => if text <= path then Match(more, path[|text|..]) else None
    case Hole(mayBeEmpty, more) =>
      var i := SlashIndex(path);
      if i == 0 && !mayBeEmpty then None else
      match Match(more, path[i..])
      case None => None
      case Some(args) => Some([path[..i]] + args)
  }

  /** The first route that matches, with its arguments. */
  function FirstMatch<E>(routes: List<Route<E>>, path: string): Option<(E, seq<string>)> {
    match routes
    case Nil => None
    case Cons(r, others) =>
      match Match(r.pattern, path)
      case Some(args) => Some((r.endpoint, args))
      case None => FirstMatch(others, path)
  }

  /** The flat routes of a trie reached after the literal text `before`; static children come before
      the parameter. */
  function Routes<E>(before: string, n: Node<E>): List<Route<E>>
    decreases n, 0
  {
    var here := before + n.prefix;
    Append(OwnRoute(here, n.endpoint),
      Append(KidRoutes(here, n.kids), ParamRoutes(here, n.param, n.endpoint.None? && n.kids.Nil?)))
  }

  function OwnRoute<E>(here: string, endpoint: Option<E>): List<Route<E>> {
    match endpoint
    case None => Nil
    case Some(e) => Cons(Route(Lit(here, End), e), Nil)
  }

  function KidRoutes<E>(here: string, kids: List<Node<E>>): List<Route<E>>
    decreases kids, 0
  {
    match kids
    case Nil => Nil
    case Cons(k, others) => Append(Routes(here, k), KidRoutes(here, others))
  }

  function ParamRoutes<E>(here: string, p: Param<E>, mayBeEmpty: bool): List<Route<E>>
    decreases p, 0
  {
    match p
    case NoParam => Nil
    case Rest(e) => Cons(Route(Lit(here, Hole(mayBeEmpty, End)), e), Nil)
    case Segment(kids) => AfterHole(here, KidRoutes("", kids))
  }

  function AfterHole<E>(here: string, routes: List<Route<E>>): List<Route<E>> {
    match routes
    case Nil => Nil
    case Cons(r, others) => Cons(Route(Lit(here, Hole(true, r.pattern)), r.endpoint), AfterHole(here, others))
  }

  // ---------------------------------------------------------------- well-formed tries

  predicate WellFormed<E>(n: Node<E>)
    decreases n, 0
  {
    && n.prefix != ""
    && WellFormedKids(n.kids)
    && WellFormedParam(n.param)
    && (n.param.NoParam? || KidsReturnCursor(n.kids, n.param))
  }

  /** Siblings begin with different characters, so at most one `case` applies. */
  predicate WellFormedKids<E>(kids: List<Node<E>>)
    decreases kids, 0
  {
    match kids
    case Nil => true
    case Cons(k, others) => WellFormed(k) && NoneStartsLike(others, k.prefix) && WellFormedKids(others)
  }

  predicate WellFormedParam<E>(p: Param<E>)
    decreases p, 0
  {
    match p
    case Segment(kids) => WellFormedKids(kids)
    case _ => true
  }

  predicate NoneStartsLike<E>(kids: List<Node<E>>, s: string) {
    match kids
    case Nil => true
    case Cons(k, others) => (s == "" || !StartsWith(k.prefix, s[0])) && NoneStartsLike(others, s)
  }

  /** A child searched before a parameter must put the cursor back. Its own empty-rest break does not,
      so that break is harmless only where the parameter could not have matched anyway. */
  predicate KidsReturnCursor<E>(kids: List<Node<E>>, p: Param<E>) {
    match kids
    case Nil => true
    case Cons(k, others) =>
      && k.restores
      && (Guarded(k) ==> WalkParam(p, "").Fell? && WalkParam(p, k.prefix).Fell?)
      && KidsReturnCursor(others, p)
  }

  // ---------------------------------------------------------------- the refinement

  ghost predicate Answers<E>(w: Walked<E>, m: Option<(E, seq<string>)>) {
    match w
    case Hit(e, args) => m == Some((e, args))
    case Fell(_) => m.None?
  }

  lemma FirstMatchAppend<E>(a: List<Route<E>>, b: List<Route<E>>, path: string)
    ensures FirstMatch(Append(a, b), path)
         == (if FirstMatch(a, path).Some? then FirstMatch(a, path) else FirstMatch(b, path))
  {
  }

  lemma {:induction false} FirstMatchAfterHole<E>(here: string, routes: List<Route<E>>, elem: string)
    ensures var i := SlashIndex(elem);
      var below := FirstMatch(routes, elem[i..]);
      FirstMatch(AfterHole(here, routes), here + elem)
        == if below.Some? then Some((below.value.0, [elem[..i]] + below.value.1)) else None
  {
    assert (here + elem)[|here|..] == elem;
    match routes
    case Nil =>
    case Cons(r, others) =>
      FirstMatchAfterHole(here, others, elem);
      assert Match(Lit(here, Hole(true, r.pattern)), here + elem) == Match(Hole(true, r.pattern), elem);
  }

  lemma NothingStartsLikeEmpty<E>(kids: List<Node<E>>)
    ensures NoneStartsLike(kids, "")
  {
  }

  lemma NoneStartsLikeFirstChar<E>(kids: List<Node<E>>, s: string, t: string)
    requires NoneStartsLike(kids, s)
    requires t == "" || (s != "" && s[0] == t[0])
    ensures NoneStartsLike(kids, t)
  {
  }

  lemma {:induction false} KidsMissOnFirstChar<E>(before: string, kids: List<Node<E>>, elem: string)
    requires WellFormedKids(kids) && NoneStartsLike(kids, elem)
    ensures FirstMatch(KidRoutes(before, kids), before + elem).None?
    decreases kids
  {
    match kids
    case Nil =>
    case Cons(k, others) =>
      KidsMissOnFirstChar(before, others, elem);
      FirstMatchAppend(Routes(before, k), KidRoutes(before, others), before + elem);
      assert !(k.prefix <= elem);
      assert (before + elem)[|before|..] == elem;
      NodeMisses(before, k, before + elem);
  }

  /** Every route of a node begins with the node's text. */
  lemma {:induction false} NodeMisses<E>(before: string, n: Node<E>, path: string)
    requires !(before + n.prefix <= path)
    ensures FirstMatch(Routes(before, n), path).None?
    decreases n
  {
    var here := before + n.prefix;
    var own, kids := OwnRoute(here, n.endpoint), KidRoutes(here, n.kids);
    var params := ParamRoutes(here, n.param, n.endpoint.None? && n.kids.Nil?);
    FirstMatchAppend(own, Append(kids, params), path);
    FirstMatchAppend(kids, params, path);
    KidsMiss(here, n.kids, path);
    if n.param.Segment? {
      AfterHoleMisses(here, KidRoutes("", n.param.kids), path);
    }
  }

  lemma {:induction false} KidsMiss<E>(here: string, kids: List<Node<E>>, path: string)
    requires !(here <= path)
    ensures FirstMatch(KidRoutes(here, kids), path).None?
    decreases kids
  {
    match kids
    case Nil =>
    case Cons(k, others) =>
      FirstMatchAppend(Routes(here, k), KidRoutes(here, others), path);
      NodeMisses(here, k, path);
      KidsMiss(here, others, path);
  }

  lemma AfterHoleMisses<E>(here: string, routes: List<Route<E>>, path: string)
    requires !(here <= path)
    ensures FirstMatch(AfterHole(here, routes), path).None?
  {
  }

  /** The backtracking search answers like the flat route list, for every well-formed trie. */
  lemma {:induction false} WalkIsFirstMatch<E>(before: string, n: Node<E>, elem: string)
    requires WellFormed(n)
    ensures Answers(Walk(n, elem), FirstMatch(Routes(before, n), before + elem))
    ensures Walk(n, elem).Fell? && n.restores ==>
              Walk(n, elem).elem == elem || (Guarded(n) && elem == n.prefix && Walk(n, elem).elem == "")
    decreases n, 0
  {
    var path, here := before + elem, before + n.prefix;
    if !(n.prefix <= elem) {
      assert path[|before|..] == elem;
      NodeMisses(before, n, path);
    } else {
      var rest, mayBeEmpty := elem[|n.prefix|..], n.endpoint.None? && n.kids.Nil?;
      assert path == here + rest;
      var own := OwnRoute(here, n.endpoint);
      var kids, params := KidRoutes(here, n.kids), ParamRoutes(here, n.param, mayBeEmpty);
      FirstMatchAppend(own, Append(kids, params), path);
      FirstMatchAppend(kids, params, path);
      assert path[|here|..] == rest;
      assert n.endpoint.Some? ==> Match(Lit(here, End), path) == Match(End, rest);
      if rest == "" && n.endpoint.Some? {
      } else if rest == "" && n.kids.Cons? {
        assert elem == n.prefix;
        NothingStartsLikeEmpty(n.kids);
        KidsMissOnFirstChar(here, n.kids, rest);
        ParamMissesEmpty(here, n.param);
      } else {
        KidsAreFirstMatch(here, n.kids, n.param, rest);
        if WalkKids(n.kids, rest).Fell? {
          ParamIsFirstMatch(here, n.param, mayBeEmpty, rest);
        }
      }
    }
  }

  /** With the empty-rest break taken, no parameter route of the node matches either. */
  lemma ParamMissesEmpty<E>(here: string, p: Param<E>)
    requires WellFormedParam(p)
    ensures FirstMatch(ParamRoutes(here, p, false), here + "").None?
  {
    assert (here + "")[|here|..] == "";
    assert Match(Hole(false, End), "") == None;
    if p.Segment? {
      FirstMatchAfterHole(here, KidRoutes("", p.kids), "");
      assert ""[SlashIndex("")..] == "" && "" + "" == "";
      NothingStartsLikeEmpty(p.kids);
      KidsMissOnFirstChar("", p.kids, "");
    }
  }

  /** The children answer like their routes; and if they come before a parameter, the cursor they
      leave makes the parameter answer as it would have on the cursor they were given. */
  lemma {:induction false} KidsAreFirstMatch<E>(here: string, kids: List<Node<E>>, p: Param<E>, elem: string)
    requires WellFormedKids(kids)
    ensures Answers(WalkKids(kids, elem), FirstMatch(KidRoutes(here, kids), here + elem))
    ensures WalkKids(kids, elem).Fell? && KidsReturnCursor(kids, p) ==>
              var left := WalkKids(kids, elem).elem;
              left == elem || (WalkParam(p, left).Fell? && WalkParam(p, elem).Fell?)
    decreases kids, 0
  {
    match kids
    case Nil =>
    case Cons(k, others) =>
      var path := here + elem;
      FirstMatchAppend(Routes(here, k), KidRoutes(here, others), path);
      if elem != "" && StartsWith(k.prefix, elem[0]) {
        WalkIsFirstMatch(here, k, elem);
        NoneStartsLikeFirstChar(others, k.prefix, elem);
        KidsMissOnFirstChar(here, others, elem);
      } else {
        assert path[|here|..] == elem;
        NodeMisses(here, k, path);
        KidsAreFirstMatch(here, others, p, elem);
      }
  }

  lemma RestIsFirstMatch<E>(here: string, e: E, mayBeEmpty: bool, elem: string)
    requires elem != "" || mayBeEmpty
    ensures Answers(WalkParam(Rest(e), elem), FirstMatch(ParamRoutes(here, Rest(e), mayBeEmpty), here + elem))
  {
    var i := SlashIndex(elem);
    assert i == |elem| ==> elem[..i] == elem;
    assert '/' in elem <==> i < |elem|;
    assert (here + elem)[|here|..] == elem;
    assert Match(End, elem[i..]) == if i == |elem| then Some([]) else None;
    assert [elem] + [] == [elem];
    assert Match(Hole(mayBeEmpty, End), elem) == if i == |elem| then Some([elem]) else None;
  }

  lemma {:induction false} ParamIsFirstMatch<E>(here: string, p: Param<E>, mayBeEmpty: bool, elem: string)
    requires WellFormedParam(p)
    requires elem != "" || mayBeEmpty
    ensures Answers(WalkParam(p, elem), FirstMatch(ParamRoutes(here, p, mayBeEmpty), here + elem))
    decreases p, 0
  {
    match p
    case NoParam =>
    case Rest(e) => RestIsFirstMatch(here, e, mayBeEmpty, elem);
    case Segment(kids) =>
      var i := SlashIndex(elem);
      FirstMatchAfterHole(here, KidRoutes("", kids), elem);
      assert "" + elem[i..] == elem[i..];
      if i == |elem| {
        NothingStartsLikeEmpty(kids);
        KidsMissOnFirstChar("", kids, elem[i..]);
      } else {
        KidsAreFirstMatch("", kids, NoParam, elem[i..]);
      }
  }

  // ---------------------------------------------------------------- what a pattern means

  /** Whether the arguments fit the holes: as many as there are holes, no slash, empty only where allowed. */
  predicate Fits(p: Pattern, args: seq<string>) {
    match p
    case End => args == []
    case Lit(_, more) => Fits(more, args)
    case Hole(mayBeEmpty, more) =>
      args != [] && '/' !in args[0] && (mayBeEmpty || args[0] != "") && Fits(more, args[1..])
  }

  /** The path that a pattern denotes for the given arguments. */
  function Fill(p: Pattern, args: seq<string>): string
    requires Fits(p, args)
  {
    match p
    case End => ""
    case Lit(text, more) => text + Fill(more, args)
    case Hole(_, more) => args[0] + Fill(more, args[1..])
  }

  /** A hole ends the pattern or is followed by a slash. */
  predicate SlashDelimited(p: Pattern) {
    match p
    case End => true
    case Lit(_, more) => SlashDelimited(more)
    case Hole(_, more) => (more.End? || (more.Lit? && StartsWith(more.text, '/'))) && SlashDelimited(more)
  }

  lemma {:induction false} SlashIndexOf(a: string, rest: string)
    requires '/' !in a
    requires rest == "" || rest[0] == '/'
    ensures SlashIndex(a + rest) == |a|
  {
    if a == "" {
      assert a + rest == rest;
    } else {
      assert (a + rest)[1..] == a[1..] + rest;
      SlashIndexOf(a[1..], rest);
    }
  }

  /** Matching a pattern succeeds exactly on the paths that the pattern denotes, with the arguments
      that denote them. */
  lemma {:induction false} MatchIsFill(p: Pattern, path: string, args: seq<string>)
    requires SlashDelimited(p)
    ensures Match(p, path) == Some(args) <==> Fits(p, args) && path == Fill(p, args)
  {
    match p
    case End =>
    case Lit(text, more) =>
      if text <= path {
        MatchIsFill(more, path[|text|..], args);
        assert text + path[|text|..] == path;
      }
      if Fits(more, args) {
        assert (text + Fill(more, args))[|text|..] == Fill(more, args);
      }
    case Hole(mayBeEmpty, more) =>
      var i := SlashIndex(path);
      if args != [] {
        MatchIsFill(more, path[i..], args[1..]);
        assert [args[0]] + args[1..] == args;
        assert path == path[..i] + path[i..];
        if Fits(p, args) {
          var rest := Fill(more, args[1..]);
          SlashIndexOf(args[0], rest);
          assert (args[0] + rest)[..|args[0]|] == args[0] && (args[0] + rest)[|args[0]|..] == rest;
        }
        if Match(p, path) == Some(args) {
          var tail := Match(more, path[i..]).value;
          assert ([path[..i]] + tail)[1..] == tail;
        }
      }
  }

  predicate Member<T(==)>(x: T, xs: List<T>) {
    xs.Cons? && (x == xs.head || Member(x, xs.tail))
  }

  predicate AllDelimited<E>(routes: List<Route<E>>) {
    match routes
    case Nil => true
    case Cons(r, others) => SlashDelimited(r.pattern) && AllDelimited(others)
  }

  /** Route `r` denotes `path` with arguments `args`. */
  predicate Denotes<E>(r: Route<E>, args: seq<string>, path: string) {
    Fits(r.pattern, args) && path == Fill(r.pattern, args)
  }

  /** The table answers with a route that denotes the path, and gives no answer exactly when no route
      denotes it with any arguments. */
  lemma {:induction false} FirstMatchMeaning<E>(routes: List<Route<E>>, path: string)
    requires AllDelimited(routes)
    ensures match FirstMatch(routes, path)
      case Some(found) => exists r :: Member(r, routes) && r.endpoint == found.0 && Denotes(r, found.1, path)
      case None => forall r, args :: Member(r, routes) ==> !Denotes(r, args, path)
  {
    if routes.Nil? {
    } else {
      var r, others := routes.head, routes.tail;
      FirstMatchMeaning(others, path);
      var m := Match(r.pattern, path);
      if m.Some? {
        MatchIsFill(r.pattern, path, m.value);
        assert Member(r, routes) && Denotes(r, m.value, path);
      } else {
        forall args ensures !Denotes(r, args, path) { MatchIsFill(r.pattern, path, args); }
        if FirstMatch(others, path).Some? {
          var found := FirstMatch(others, path).value;
          var q :| Member(q, others) && q.endpoint == found.0 && Denotes(q, found.1, path);
          assert Member(q, routes);
        }
      }
    }
  }
}
