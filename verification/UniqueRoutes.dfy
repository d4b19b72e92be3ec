/** No path is denoted by two rows of the table, but for the setting id "test": the order of the rows
    decides nothing else. */
module UniqueRoutes {
  import opened Wrappers
  import opened RouteTrie
  import opened RouteTable
  import opened FlatTable
  import opened ClientCalls

  // ---------------------------------------------------------------- static routes of any trie

  predicate IsStatic<E>(r: Route<E>) {
    r.pattern.Lit? && r.pattern.more.End?
  }

  lemma MemberAppend<T>(x: T, a: List<T>, b: List<T>)
    ensures Member(x, Append(a, b)) <==> Member(x, a) || Member(x, b)
  {
  }

  lemma {:induction false} HolesAreNotStatic<E>(here: string, routes: List<Route<E>>, r: Route<E>)
    requires Member(r, AfterHole(here, routes))
    ensures !IsStatic(r)
  {
    if r == AfterHole(here, routes).head {
    } else {
      HolesAreNotStatic(here, routes.tail, r);
    }
  }

  /** A static route of a node is its own, or one of its children's. */
  lemma StaticOf<E>(before: string, n: Node<E>, r: Route<E>)
    requires Member(r, Routes(before, n)) && IsStatic(r)
    ensures var here := before + n.prefix;
      Member(r, OwnRoute(here, n.endpoint)) || Member(r, KidRoutes(here, n.kids))
  {
    var here := before + n.prefix;
    var own, kids := OwnRoute(here, n.endpoint), KidRoutes(here, n.kids);
    var params := ParamRoutes(here, n.param, n.endpoint.None? && n.kids.Nil?);
    MemberAppend(r, own, Append(kids, params));
    MemberAppend(r, kids, params);
    if Member(r, params) && n.param.Segment? {
      HolesAreNotStatic(here, KidRoutes("", n.param.kids), r);
    }
  }

  /** Its text goes through the node. */
  lemma {:induction false} StaticStarts<E>(before: string, n: Node<E>, r: Route<E>)
    requires WellFormed(n) && Member(r, Routes(before, n)) && IsStatic(r)
    ensures before + n.prefix <= r.pattern.text
    decreases n
  {
    StaticOf(before, n, r);
    var here := before + n.prefix;
    if Member(r, KidRoutes(here, n.kids)) { KidStarts(here, n.kids, r); }
  }

  /** And through one of the children: its next character is not that of any other node's text. */
  lemma {:induction false} KidStarts<E>(here: string, kids: List<Node<E>>, r: Route<E>)
    requires WellFormedKids(kids) && Member(r, KidRoutes(here, kids)) && IsStatic(r)
    ensures here <= r.pattern.text && |here| < |r.pattern.text|
    ensures forall s :: s != "" && NoneStartsLike(kids, s) ==> s[0] != r.pattern.text[|here|]
    decreases kids
  {
    var k, others := kids.head, kids.tail;
    MemberAppend(r, Routes(here, k), KidRoutes(here, others));
    if Member(r, Routes(here, k)) {
      StaticStarts(here, k, r);
      assert (here + k.prefix)[|here|] == k.prefix[0];
      assert r.pattern.text[|here|] == k.prefix[0];
    } else {
      KidStarts(here, others, r);
    }
  }

  /** In a well-formed trie nothing is found in front of a static route for its own text. */
  lemma {:induction false} StaticWins<E>(before: string, n: Node<E>, r: Route<E>)
    requires WellFormed(n) && Member(r, Routes(before, n)) && IsStatic(r)
    ensures FirstMatch(Routes(before, n), r.pattern.text) == Some((r.endpoint, []))
    decreases n
  {
    StaticOf(before, n, r);
    var here, text := before + n.prefix, r.pattern.text;
    var own, kids := OwnRoute(here, n.endpoint), KidRoutes(here, n.kids);
    var params := ParamRoutes(here, n.param, n.endpoint.None? && n.kids.Nil?);
    FirstMatchAppend(own, Append(kids, params), text);
    FirstMatchAppend(kids, params, text);
    OwnMatches(here, n.endpoint, r, text);
    if !Member(r, own) { KidWins(here, n.kids, r); }
  }

  lemma OwnMatches<E>(here: string, endpoint: Option<E>, r: Route<E>, text: string)
    ensures Member(r, OwnRoute(here, endpoint)) ==> endpoint == Some(r.endpoint) && r.pattern == Lit(here, End)
    ensures FirstMatch(OwnRoute(here, endpoint), text) ==
      if endpoint.Some? && text == here then Some((endpoint.value, [])) else None
  {
    if here <= text {
      assert text == here + text[|here|..];
    }
    if endpoint.Some? {
      var own := Route(Lit(here, End), endpoint.value);
      assert OwnRoute(here, endpoint) == Cons(own, Nil) && !Member(r, Nil);
      assert Match(own.pattern, text) == if text == here then Some([]) else None;
      assert FirstMatch<E>(Nil, text) == None;
    }
  }

  lemma {:induction false} KidWins<E>(here: string, kids: List<Node<E>>, r: Route<E>)
    requires WellFormedKids(kids) && Member(r, KidRoutes(here, kids)) && IsStatic(r)
    ensures FirstMatch(KidRoutes(here, kids), r.pattern.text) == Some((r.endpoint, []))
    ensures here <= r.pattern.text && |here| < |r.pattern.text|
    decreases kids
  {
    var k, others, text := kids.head, kids.tail, r.pattern.text;
    KidStarts(here, kids, r);
    MemberAppend(r, Routes(here, k), KidRoutes(here, others));
    FirstMatchAppend(Routes(here, k), KidRoutes(here, others), text);
    if Member(r, Routes(here, k)) {
      StaticWins(here, k, r);
    } else {
      KidStarts(here, others, r);
      KidWins(here, others, r);
      assert (here + k.prefix)[|here|] == k.prefix[0] != text[|here|];
      NodeMisses(here, k, text);
    }
  }

  // ---------------------------------------------------------------- the rows with a parameter

  const ROLE_ROW := Route(Lit("/members/", Hole(true, Lit("/role", End))), ROLE_EP)
  const DISCONNECT_ROW := Route(Lit("/integrations/", Hole(true, Lit("/disconnect", End))), DISCONNECT_EP)
  const INVITATION_ROW := Route(Lit("/invitations/", Hole(true, End)), INVITATION_EP)
  const SETTING_ROW := Route(Lit("/integrations/linear/settings/", Hole(false, End)), SETTING_EP)

  predicate KnownRow(r: Route<Endpoint>) {
    IsStatic(r) || r == ROLE_ROW || r == DISCONNECT_ROW || r == INVITATION_ROW || r == SETTING_ROW
  }

  lemma RowsAreKnown(r: Route<Endpoint>)
    requires Member(r, TABLE)
    ensures KnownRow(r)
  {
    assert Member(r, LATE_TABLE) ==> KnownRow(r);
    assert Member(r, MID_TABLE) ==> KnownRow(r);
    assert Member(r, IN_TABLE) ==> KnownRow(r);
  }

  /** A path of a row whose one hole ends it. */
  lemma LastHole(before: string, mayBeEmpty: bool, args: seq<string>, path: string)
    requires var p := Lit(before, Hole(mayBeEmpty, End)); Fits(p, args) && path == Fill(p, args)
    ensures |args| == 1 && '/' !in args[0] && (args[0] == "" ==> mayBeEmpty) && path == before + args[0]
  {
    var p := Lit(before, Hole(mayBeEmpty, End));
    assert Fits(Hole(mayBeEmpty, End), args) && Fits(End, args[1..]);
    assert Fill(p, args) == before + Fill(Hole(mayBeEmpty, End), args);
    assert Fill(Hole(mayBeEmpty, End), args) == args[0] + "";
  }

  /** A path of a row whose one hole has text after it. */
  lemma InnerHole(before: string, after: string, args: seq<string>, path: string)
    requires var p := Lit(before, Hole(true, Lit(after, End))); Fits(p, args) && path == Fill(p, args)
    ensures |args| == 1 && '/' !in args[0] && path == before + (args[0] + after)
  {
    var tail := Lit(after, End);
    assert Fits(Hole(true, tail), args) && Fits(tail, args[1..]) && Fits(End, args[1..]);
    assert Fill(Lit(before, Hole(true, tail)), args) == before + Fill(Hole(true, tail), args);
    assert Fill(Hole(true, tail), args) == args[0] + Fill(tail, args[1..]);
    assert Fill(tail, args[1..]) == after + "";
  }

  // ---------------------------------------------------------------- all rows

  const TEST_PATH := "/integrations/linear/settings/test"

  lemma SettingIsTest(id: string)
    ensures "/integrations/linear/settings/" + id == TEST_PATH <==> id == "test"
  {
    var before := "/integrations/linear/settings/";
    assert before + "test" == TEST_PATH;
    assert (before + id)[|before|..] == id && (before + "test")[|before|..] == "test";
  }

  lemma SettingAlone(args: seq<string>, path: string)
    requires Denotes(SETTING_ROW, args, path)
    ensures FirstMatch(TABLE, path) == if path == TEST_PATH then Some((TEST_EP, [])) else Some((SETTING_EP, args))
  {
    LastHole("/integrations/linear/settings/", false, args, path);
    SettingRoute(args[0]);
    SettingIsTest(args[0]);
    assert args == [args[0]];
  }

  lemma StaticAlone(r: Route<Endpoint>, args: seq<string>, path: string)
    requires Member(r, TABLE) && IsStatic(r) && Denotes(r, args, path)
    ensures FirstMatch(TABLE, path) == Some((r.endpoint, args))
  {
    assert r.pattern == Lit(r.pattern.text, End) && Fits(End, args);
    assert path == r.pattern.text + Fill(End, args) == r.pattern.text;
    RootWellFormed();
    RootRows();
    StaticWins("", ROOT, r);
  }

  /** Every row that denotes a path is the table's answer for it, so that at most one does; only on the
      path of the test the setting's row gives way to the static one. */
  lemma RowAlone(r: Route<Endpoint>, args: seq<string>, path: string)
    requires Member(r, TABLE) && Denotes(r, args, path)
    ensures FirstMatch(TABLE, path) == Some((r.endpoint, args)) <==> !(r == SETTING_ROW && path == TEST_PATH)
  {
    RowsAreKnown(r);
    if IsStatic(r) {
      StaticAlone(r, args, path);
    } else if r == ROLE_ROW {
      InnerHole("/members/", "/role", args, path);
      RoleRoute(args[0]);
      assert args == [args[0]];
    } else if r == DISCONNECT_ROW {
      InnerHole("/integrations/", "/disconnect", args, path);
      DisconnectRoute(args[0]);
      assert args == [args[0]];
    } else if r == INVITATION_ROW {
      LastHole("/invitations/", true, args, path);
      InvitationRoute(args[0]);
      assert args == [args[0]];
    } else {
      SettingAlone(args, path);
    }
  }
}
