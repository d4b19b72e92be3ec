/** `FindPath` and `ServeHTTP` agree on the route, and exactly when they agree on its argument. */
module RouteAgreement {
  import opened Wrappers
  import opened RouteTrie
  import opened RouteTable
  import opened RouteReply
  import opened PercentCoding
  import opened PathRoundTrip
  import ClientCalls

  /** Every hole stands directly after a slash. */
  predicate HolesAfterSlash(p: Pattern, afterSlash: bool) {
    match p
    case End => true
    case Lit(text, more) => text != "" && HolesAfterSlash(more, text[|text| - 1] == '/')
    case Hole(_, more) => afterSlash && HolesAfterSlash(more, false)
  }

  predicate AllHolesAfterSlash(routes: List<Route<Endpoint>>) {
    match routes
    case Nil => true
    case Cons(r, others) => HolesAfterSlash(r.pattern, false) && AllHolesAfterSlash(others)
  }

  /** Moving a text from the front of the path to what is done. */
  lemma TextDone(done: string, text: string, path: string)
    requires text <= path
    ensures done + path == done + text + path[|text|..]
  {
    assert path == text + path[|text|..];
    ConcatAssoc(done, text, path[|text|..]);
  }

  /** A segment of decodable text that stands after a slash is decodable. */
  lemma SegmentDecodes(done: string, path: string)
    requires done != "" && done[|done| - 1] == '/' && Unescape(done + path).Some?
    ensures var i := SlashIndex(path);
      Unescape(path[..i]).Some? && done + path == done + path[..i] + path[i..]
  {
    var i := SlashIndex(path);
    TextDone(done, path[..i], path);
    UnescapePiece(done, path[..i], path[i..]);
  }

  /** Arguments routed out of decodable text are decodable; `done` is the text before `path`. */
  lemma {:induction false} ArgsDecode(p: Pattern, afterSlash: bool, done: string, path: string, args: seq<string>)
    requires Match(p, path) == Some(args) && HolesAfterSlash(p, afterSlash)
    requires afterSlash ==> done != "" && done[|done| - 1] == '/'
    requires Unescape(done + path).Some?
    ensures forall a :: a in args ==> Unescape(a).Some?
  {
    match p
    case End =>
    case Lit(text, more) =>
      TextDone(done, text, path);
      assert (done + text)[|done + text| - 1] == text[|text| - 1];
      ArgsDecode(more, text[|text| - 1] == '/', done + text, path[|text|..], args);
    case Hole(_, more) =>
      SegmentDecodes(done, path);
      var i := SlashIndex(path);
      ArgsDecode(more, false, done + path[..i], path[i..], Match(more, path[i..]).value);
  }

  lemma {:induction false} RoutedArgsDecode(routes: List<Route<Endpoint>>, done: string, path: string)
    requires AllHolesAfterSlash(routes) && Unescape(done + path).Some?
    ensures FirstMatch(routes, path).Some? ==>
      forall a :: a in FirstMatch(routes, path).value.1 ==> Unescape(a).Some?
  {
    if routes.Nil? {
    } else {
      var m := Match(routes.head.pattern, path);
      if m.Some? {
        ArgsDecode(routes.head.pattern, false, done, path, m.value);
      } else {
        RoutedArgsDecode(routes.tail, done, path);
      }
    }
  }

  lemma ParameterHoles()
    ensures HolesAfterSlash(Lit("/integrations/linear/settings/", Hole(false, End)), false)
    ensures HolesAfterSlash(Lit("/integrations/", Hole(true, Lit("/disconnect", End))), false)
    ensures HolesAfterSlash(Lit("/invitations/", Hole(true, End)), false)
    ensures HolesAfterSlash(Lit("/members/", Hole(true, Lit("/role", End))), false)
  {
  }

  lemma StaticHoles(text: string, e: Endpoint)
    requires text != ""
    ensures HolesAfterSlash(Static(text, e).pattern, false)
  {
  }

  lemma TableHoles()
    ensures AllHolesAfterSlash(TABLE)
  {
    ParameterHoles();
    forall text: string, e | text != "" ensures HolesAfterSlash(Static(text, e).pattern, false) {
      StaticHoles(text, e);
    }
    assert AllHolesAfterSlash(LATE_TABLE);
    assert AllHolesAfterSlash(MID_TABLE);
    assert AllHolesAfterSlash(IN_TABLE);
  }

  /** What the handler's decoder makes of a routed argument; it has no other failure than `Required`. */
  function HandlerValue(arg: string, escaped: bool): string {
    if escaped && Unescape(arg).Some? then Unescape(arg).value else arg
  }

  /** `FindPath` finds a route exactly when `ServeHTTP` reaches a handler, with the same operation, for
      every URL and method. Its arguments are the handler's values exactly unless the raw path is there,
      does not normalise, and the argument holds a well-formed escape: then `FindPath` unescapes a
      decoded path once more. */
  lemma FindPathAgrees(prefix: string, plain: char -> bool, verb: string, u: URL)
    requires !plain('%')
    ensures var normalize := s => Normalize(plain, s);
      var reply := Prescribed(prefix, SearchedPath(normalize, u), SearchedIsEscaped(normalize, u), verb);
      var found := FoundPath(prefix, normalize, Unescape, verb, u);
      && (found.Some? <==> reply.Handle?)
      && (found.Some? ==>
            && found.value.op == reply.op && |found.value.args| == |reply.args|
            && forall i :: 0 <= i < |reply.args| ==>
                 (found.value.args[i] == HandlerValue(reply.args[i], reply.escaped) <==>
                  !(u.rawPath != "" && normalize(u.rawPath) == None
                    && '%' in reply.args[i] && Unescape(reply.args[i]).Some?)))
  {
    var normalize := s => Normalize(plain, s);
    var path, escaped := SearchedPath(normalize, u), SearchedIsEscaped(normalize, u);
    var cut := CutPrefix(prefix, path);
    if cut.Some? && FirstMatch(TABLE, cut.value).Some? {
      var args := FirstMatch(TABLE, cut.value).value.1;
      if u.rawPath != "" && normalize(u.rawPath).Some? {
        NormalizeDecodes(plain, u.rawPath);
        assert path == prefix + cut.value;
        TableHoles();
        RoutedArgsDecode(TABLE, prefix, cut.value);
        if !escaped {
          forall i | 0 <= i < |args| ensures '%' !in args[i] { RoutedArgInPath(TABLE, cut.value, i); }
        }
      }
      forall i | 0 <= i < |args| && Unescape(args[i]).Some?
        ensures '%' !in args[i] <==> Unescape(args[i]).value == args[i]
      {
        UnescapeShortens(args[i]);
      }
    }
  }

  lemma {:induction false} RoutedArgInPath(routes: List<Route<Endpoint>>, path: string, i: nat)
    requires '%' !in path && FirstMatch(routes, path).Some? && i < |FirstMatch(routes, path).value.1|
    ensures '%' !in FirstMatch(routes, path).value.1[i]
  {
    var m := Match(routes.head.pattern, path);
    if m.Some? {
      ArgInPath(routes.head.pattern, path, i);
    } else {
      RoutedArgInPath(routes.tail, path, i);
    }
  }

  lemma {:induction false} ArgInPath(p: Pattern, path: string, i: nat)
    requires '%' !in path && Match(p, path).Some? && i < |Match(p, path).value|
    ensures '%' !in Match(p, path).value[i]
  {
    match p
    case End =>
    case Lit(text, more) => ArgInPath(more, path[|text|..], i);
    case Hole(_, more) => if i > 0 { ArgInPath(more, path[SlashIndex(path)..], i - 1); }
  }

  /** Where it unescapes as it should, the handler's decoder never fails but on an empty argument. */
  lemma DecoderOnlyRequires(prefix: string, plain: char -> bool, verb: string, u: URL)
    requires !plain('%')
    ensures var normalize := s => Normalize(plain, s);
      var reply := Prescribed(prefix, SearchedPath(normalize, u), SearchedIsEscaped(normalize, u), verb);
      reply.Handle? ==> forall i :: 0 <= i < |reply.args| ==>
        var value := HandlerValue(reply.args[i], reply.escaped);
        PathParam(reply.args[i], reply.escaped) == if value == "" then Err(Required) else Ok(value)
  {
    var normalize := s => Normalize(plain, s);
    var path := SearchedPath(normalize, u);
    var cut := CutPrefix(prefix, path);
    if SearchedIsEscaped(normalize, u) && cut.Some? && FirstMatch(TABLE, cut.value).Some? {
      NormalizeDecodes(plain, u.rawPath);
      assert path == prefix + cut.value;
      TableHoles();
      RoutedArgsDecode(TABLE, prefix, cut.value);
    }
  }

  /** For the URL of any request that can be received the two agree on the arguments as well: a raw path
      from which a path could be decoded always normalises. */
  lemma ReceivedUrlsAgree(prefix: string, plain: char -> bool, pathPlain: char -> bool, verb: string, raw: string)
    requires !plain('%') && Received(pathPlain, raw).Some?
    ensures var u := Received(pathPlain, raw).value;
      var normalize := s => Normalize(plain, s);
      var reply := Prescribed(prefix, SearchedPath(normalize, u), SearchedIsEscaped(normalize, u), verb);
      var found := FoundPath(prefix, normalize, Unescape, verb, u);
      && (found.Some? <==> reply.Handle?)
      && (found.Some? ==>
            && found.value.op == reply.op && |found.value.args| == |reply.args|
            && forall i :: 0 <= i < |reply.args| ==>
                 found.value.args[i] == HandlerValue(reply.args[i], reply.escaped))
  {
    NormalizeDecodes(plain, raw);
    FindPathAgrees(prefix, plain, verb, Received(pathPlain, raw).value);
  }

  lemma EscapedA()
    ensures Unescape("%41") == Some("A")
  {
    assert Escaped("%41") == Some('A') && "%41"[3..] == "" && ['A'] + "" == "A";
  }

  lemma RawPathFails(plain: char -> bool)
    ensures Normalize(plain, "/%zz") == None
  {
    assert "/%zz"[1..] == "%zz" && Escaped("%zz") == None;
  }

  /** For a URL that was built by hand, with a raw path that is not an encoding of its path, they can
      disagree: the handler sees `%41` and `FindPath` reports `A`. */
  lemma FindPathUnescapesTwice(plain: char -> bool)
    ensures var u := URL("/invitations/%41", "/%zz");
      var normalize := s => Normalize(plain, s);
      && Prescribed("", SearchedPath(normalize, u), SearchedIsEscaped(normalize, u), "DELETE")
           == Handle(RevokeInvitation, ["%41"], false)
      && FoundPath("", normalize, Unescape, "DELETE", u)
           == Some(Found(RevokeInvitation, "/invitations/{invitationId}", ["A"]))
  {
    ClientCalls.InvitationRoute("%41");
    assert "/invitations/" + "%41" == "/invitations/%41";
    RawPathFails(plain);
    EscapedA();
    RespondOne(INVITATION_EP, ["%41"], "DELETE", false);
    LookupOne(INVITATION_EP, ["A"], "DELETE");
    assert Unescaped(Unescape, ["%41"]) == ["A"];
  }
}
