/** From the generated client's URL through the server's router to the server's parameter decoder. */
module PathRoundTrip {
  import opened Wrappers
  import opened RouteTrie
  import opened RouteTable
  import opened RouteReply
  import opened PercentCoding
  import opened ClientCalls

  // ---------------------------------------------------------------- the client

  /** The raw URL path that the client sends for a parameter value. */
  function ClientPath(base: string, client: char -> bool, c: Call, value: string): string {
    base + (c.before + (Escape(client, value) + c.after))
  }

  /** `uri.AddPathParts`: appends the parts to the base path. */
  method AddPathParts(base: string, parts: array<string>) returns (raw: string)
    ensures raw == base + Concat(parts[..])
  {
    raw := base;
    for i := 0 to parts.Length
      invariant raw == base + Concat(parts[..i])
    {
      ConcatSnoc(parts[..i], parts[i]);
      assert parts[..i + 1] == parts[..i] + [parts[i]];
      raw := raw + parts[i];
    }
    assert parts[..parts.Length] == parts[..];
  }

  function Concat(parts: seq<string>): string {
    if parts == [] then "" else parts[0] + Concat(parts[1..])
  }

  lemma ConcatSnoc(parts: seq<string>, last: string)
    ensures Concat(parts + [last]) == Concat(parts) + last
  {
    if parts == [] {
    } else {
      assert (parts + [last])[1..] == parts[1..] + [last];
      ConcatSnoc(parts[1..], last);
    }
  }

  method SendUpdateLinearSettings(base: string, client: char -> bool, settingId: string) returns (raw: string)
    ensures raw == ClientPath(base, client, UPDATE_SETTING, settingId)
  {
    var pathParts := new string[2];
    pathParts[0] := "/integrations/linear/settings/";
    pathParts[1] := Escape(client, settingId);
    raw := AddPathParts(base, pathParts);
    TwoParts(pathParts[..]);
  }

  method SendDeleteLinearSettings(base: string, client: char -> bool, settingId: string) returns (raw: string)
    ensures raw == ClientPath(base, client, DELETE_SETTING, settingId)
  {
    var pathParts := new string[2];
    pathParts[0] := "/integrations/linear/settings/";
    pathParts[1] := Escape(client, settingId);
    raw := AddPathParts(base, pathParts);
    TwoParts(pathParts[..]);
  }

  method SendRevokeInvitation(base: string, client: char -> bool, invitationId: string) returns (raw: string)
    ensures raw == ClientPath(base, client, REVOKE, invitationId)
  {
    var pathParts := new string[2];
    pathParts[0] := "/invitations/";
    pathParts[1] := Escape(client, invitationId);
    raw := AddPathParts(base, pathParts);
    TwoParts(pathParts[..]);
  }

  method SendDisconnectIntegration(base: string, client: char -> bool, provider: string) returns (raw: string)
    ensures raw == ClientPath(base, client, DISCONNECT, provider)
  {
    var pathParts := new string[3];
    pathParts[0] := "/integrations/";
    pathParts[1] := Escape(client, provider);
    pathParts[2] := "/disconnect";
    raw := AddPathParts(base, pathParts);
    ThreeParts(pathParts[..]);
  }

  method SendUpdateMemberRole(base: string, client: char -> bool, membershipId: string) returns (raw: string)
    ensures raw == ClientPath(base, client, UPDATE_ROLE, membershipId)
  {
    var pathParts := new string[3];
    pathParts[0] := "/members/";
    pathParts[1] := Escape(client, membershipId);
    pathParts[2] := "/role";
    raw := AddPathParts(base, pathParts);
    ThreeParts(pathParts[..]);
  }

  lemma TwoParts(p: seq<string>)
    requires |p| == 2
    ensures Concat(p) == p[0] + (p[1] + "")
  {
    assert p[1..][1..] == [];
    assert Concat(p[1..]) == p[1] + "";
  }

  lemma ThreeParts(p: seq<string>)
    requires |p| == 3
    ensures Concat(p) == p[0] + (p[1] + p[2])
  {
    TwoParts(p[1..]);
    assert p[2] + "" == p[2];
  }

  // ---------------------------------------------------------------- the server's URL and parameters

  /** `url.URL.setPath`: the raw path is kept only where it is not the default encoding of the path. */
  function Received(pathPlain: char -> bool, raw: string): Option<URL> {
    match Unescape(raw)
    case None => None
    case Some(path) => Some(URL(path, if Escape(pathPlain, path) == raw then "" else raw))
  }

  datatype ParamError = BadEscape | Required | BadValue(name: string)

  /** The value of a path parameter, from its routed argument. */
  function PathParam(arg: string, argsEscaped: bool): Result<string, ParamError> {
    match (if argsEscaped then Unescape(arg) else Some(arg))
    case None => Err(BadEscape)
    case Some(value) => if value == "" then Err(Required) else Ok(value)
  }

  /** `decodeUpdateLinearSettingsParams`, `decodeDeleteLinearSettingsParams`,
      `decodeRevokeInvitationParams` and `decodeUpdateMemberRoleParams`. */
  method DecodePathParam(args: seq<string>, argsEscaped: bool) returns (r: Result<string, ParamError>)
    requires |args| == 1
    ensures r == PathParam(args[0], argsEscaped)
  {
    var param := args[0];
    if argsEscaped {
      var unescaped := Unescape(args[0]);
      if unescaped == None {
        return Err(BadEscape);
      }
      param := unescaped.value;
    }
    if |param| > 0 {
      r := Ok(param);
    } else {
      r := Err(Required);
    }
  }

  /** A path parameter is refused as missing exactly if it is empty, and as badly escaped exactly if it was
      routed in escaped form and does not decode. */
  lemma ParamRefused(arg: string, argsEscaped: bool)
    ensures PathParam(arg, argsEscaped) == Err(Required) <==> arg == ""
    ensures PathParam(arg, argsEscaped) == Err(BadEscape) <==> argsEscaped && Unescape(arg) == None
    ensures !argsEscaped && arg != "" ==> PathParam(arg, argsEscaped) == Ok(arg)
  {
  }

  datatype DisconnectParams = DisconnectParams(provider: string, level: Option<string>)

  predicate ProviderValid(p: string) { p == "slack" || p == "linear" }
  predicate LevelValid(l: string) { l == "workspace" || l == "user" }

  /** Path value first, then its enum, then the `level` query parameter or its default. */
  function DisconnectParamsOf(arg: string, argsEscaped: bool, query: Option<string>):
    Result<DisconnectParams, ParamError>
  {
    match PathParam(arg, argsEscaped)
    case Err(e) => Err(e)
    case Ok(p) =>
      if !ProviderValid(p) then Err(BadValue("provider"))
      else match query
        case None => Ok(DisconnectParams(p, Some("workspace")))
        case Some(l) => if LevelValid(l) then Ok(DisconnectParams(p, query)) else Err(BadValue("level"))
  }

  /** `decodeDisconnectIntegrationParams`: the default level is written and then overwritten. */
  method DecodeDisconnectParams(args: seq<string>, argsEscaped: bool, query: Option<string>)
    returns (params: DisconnectParams, err: Option<ParamError>)
    requires |args| == 1
    ensures match DisconnectParamsOf(args[0], argsEscaped, query)
      case Ok(p) => params == p && err == None
      case Err(e) => err == Some(e)
  {
    params, err := DisconnectParams("", None), None;
    var param := args[0];
    if argsEscaped {
      var unescaped := Unescape(args[0]);
      if unescaped == None {
        return params, Some(BadEscape);
      }
      param := unescaped.value;
    }
    if |param| > 0 {
      params := params.(provider := param);
      if !ProviderValid(params.provider) {
        return params, Some(BadValue("provider"));
      }
    } else {
      return params, Some(Required);
    }
    params := params.(level := Some("workspace"));
    if query.Some? {
      params := params.(level := Some(query.value));
      if !LevelValid(params.level.value) {
        return params, Some(BadValue("level"));
      }
    }
  }

  // ---------------------------------------------------------------- the round trip

  /** What is asked of the encodings: `%` and `/` are always escaped in a value, letters never need to be
      (section 2.3 of RFC 3986), and the default path encoding writes slashes plainly. */
  ghost predicate Encodings(client: char -> bool, plain: char -> bool, pathPlain: char -> bool) {
    && Sound(client)
    && Sound(plain) && (forall c :: 'a' <= c <= 'z' ==> plain(c))
    && pathPlain('/') && !pathPlain('%')
  }

  lemma CallRoute(c: Call, id: string)
    requires c in CALLS && id != "" && '/' !in id
    ensures FirstMatch(TABLE, c.before + (id + c.after))
         == if c.endpoint == SETTING_EP && id == "test" then Some((TEST_EP, [])) else Some((c.endpoint, [id]))
  {
    if c == UPDATE_ROLE {
      RoleRoute(id);
    } else if c == REVOKE {
      InvitationRoute(id);
      assert id + "" == id;
    } else if c == DISCONNECT {
      DisconnectRoute(id);
    } else {
      SettingRoute(id);
      assert id + "" == id;
    }
  }

  lemma CallReply(c: Call, id: string, base: string, escaped: bool)
    requires c in CALLS && id != "" && '/' !in id
    ensures Prescribed(base, base + (c.before + (id + c.after)), escaped, c.verb)
         == if c.endpoint == SETTING_EP && id == "test"
            then NotAllowed("POST", ON_POST, JSON) else Handle(c.op, [id], escaped)
  {
    CallRoute(c, id);
    var path := c.before + (id + c.after);
  }

  /** Text that needs no escaping. */
  ghost predicate Literal(s: string) {
    Octets(s) && '%' !in s
  }

  lemma CallLiteral(c: Call)
    requires c in CALLS
    ensures Literal(c.before) && Literal(c.after) && c.before != ""
  {
    LiteralPrefixes();
  }

  lemma LiteralPrefixes()
    ensures Literal("/integrations/linear/settings/")
    ensures Literal("/integrations/") && Literal("/invitations/") && Literal("/members/")
  {
  }

  function Path(base: string, before: string, value: string, after: string): string {
    base + (before + (value + after))
  }

  /** Decoding the raw path that the client sends gives the plain path. */
  lemma SentPathDecodes(base: string, before: string, after: string, client: char -> bool, id: string)
    requires Literal(base) && Literal(before) && Literal(after) && Sound(client) && Octets(id)
    ensures Unescape(Path(base, before, Escape(client, id), after)) == Some(Path(base, before, id, after))
  {
    var e := Escape(client, id);
    UnescapeEscape(client, id);
    UnescapeLiteral(after);
    UnescapeAppend(e, after);
    UnescapeLiteral(before);
    UnescapeAppend(before, e + after);
    UnescapeLiteral(base);
    UnescapeAppend(base, before + (e + after));
  }

  lemma PathSlashes(base: string, before: string, value: string, after: string)
    ensures Slashes(Path(base, before, value, after)) ==
      Slashes(base) + Slashes(before) + Slashes(value) + Slashes(after)
  {
    SlashesAppend(base, before + (value + after));
    SlashesAppend(before, value + after);
    SlashesAppend(value, after);
  }

  lemma PathOctets(base: string, before: string, after: string, id: string)
    requires Literal(base) && Literal(before) && Literal(after) && Octets(id)
    ensures Octets(Path(base, before, id, after))
  {
    assert Octets(id + after);
    assert Octets(before + (id + after));
  }

  /** If the server keeps no raw path, the value holds no slash. */
  lemma NoRawPathNoSlash(base: string, before: string, after: string,
                         client: char -> bool, pathPlain: char -> bool, id: string)
    requires Literal(base) && Literal(before) && Literal(after) && Sound(client) && pathPlain('/') && Octets(id)
    requires Escape(pathPlain, Path(base, before, id, after)) == Path(base, before, Escape(client, id), after)
    ensures '/' !in id
  {
    assert Slashes(Path(base, before, id, after)) == Slashes(Path(base, before, Escape(client, id), after)) by {
      PathOctets(base, before, after, id);
      EscapeKeepsSlashes(pathPlain, Path(base, before, id, after));
    }
    assert Slashes(id) == Slashes(Escape(client, id)) by {
      PathSlashes(base, before, id, after);
      PathSlashes(base, before, Escape(client, id), after);
    }
    EscapeIsSegment(client, id);
    SlashesZero(Escape(client, id));
    SlashesZero(id);
  }

  /** If it keeps the raw path, the searched path holds the value in a normalised encoding. */
  lemma NormalizedSentPath(base: string, before: string, after: string,
                           client: char -> bool, plain: char -> bool, both: char -> bool, id: string)
    requires Literal(base) && Literal(before) && Literal(after) && Sound(client) && Octets(id)
    requires forall x :: both(x) == (client(x) || plain(x))
    ensures Normalize(plain, Path(base, before, Escape(client, id), after))
         == Some(Path(base, before, Escape(both, id), after))
  {
    var e := Escape(client, id);
    assert after + "" == after;
    NormalizeLiteral(plain, after, "");
    NormalizeEscape(plain, client, both, id, after);
    NormalizeLiteral(plain, before, e + after);
    NormalizeLiteral(plain, base, before + (e + after));
  }

  lemma {:induction false} EscapeAllPlain(plain: char -> bool, s: string)
    requires forall i :: 0 <= i < |s| ==> plain(s[i])
    ensures Escape(plain, s) == s
  {
    if s == "" {
    } else {
      EscapeAllPlain(plain, s[1..]);
      assert s == [s[0]] + s[1..];
    }
  }

  /** The value in a normalised encoding is a segment that decodes to the value, and is "test" exactly
      when the value is. */
  lemma NormalizedSegment(both: char -> bool, id: string)
    requires Sound(both) && (forall c :: 'a' <= c <= 'z' ==> both(c)) && Octets(id) && id != ""
    ensures var seg := Escape(both, id);
      seg != "" && '/' !in seg && Unescape(seg) == Some(id) && (seg == "test" <==> id == "test") &&
      ('%' !in seg ==> seg == id)
  {
    var seg := Escape(both, id);
    EscapeIsSegment(both, id);
    UnescapeEscape(both, id);
    if id == "test" { EscapeAllPlain(both, id); }
    if '%' !in seg { UnescapeLiteral(seg); }
  }

  /** However the server keeps the URL, the searched path holds the value as one segment, which the
      decoder turns into the value. */
  lemma SearchedSegment(base: string, before: string, after: string, id: string,
                        client: char -> bool, plain: char -> bool, pathPlain: char -> bool) returns (seg: string)
    requires Literal(base) && Literal(before) && Literal(after) && Octets(id) && id != "" && before != ""
    requires Encodings(client, plain, pathPlain)
    ensures var u := Received(pathPlain, Path(base, before, Escape(client, id), after));
      var normalize := s => Normalize(plain, s);
      && u.Some?
      && SearchedPath(normalize, u.value) == Path(base, before, seg, after)
      && PathParam(seg, SearchedIsEscaped(normalize, u.value)) == Ok(id)
    ensures seg != "" && '/' !in seg && (seg == "test" <==> id == "test")
  {
    SentPathDecodes(base, before, after, client, id);
    var raw, path := Path(base, before, Escape(client, id), after), Path(base, before, id, after);
    if Escape(pathPlain, path) == raw {
      NoRawPathNoSlash(base, before, after, client, pathPlain, id);
      seg := id;
    } else {
      var both := x => client(x) || plain(x);
      seg := Escape(both, id);
      NormalizedSentPath(base, before, after, client, plain, both, id);
      NormalizedSegment(both, id);
    }
  }

  /** The level that the server works with, for the level that the client was given. */
  function LevelOr(level: Option<string>): string {
    if level.Some? then level.value else "workspace"
  }

  /** The called operation is reached, and the server's own decoder of its parameters gives back what the
      client was given. `level` only matters where there is such a parameter. */
  predicate Recovered(c: Call, id: string, level: Option<string>, reply: Reply) {
    && reply.Handle? && reply.op == c.op && |reply.args| == 1
    && if c == DISCONNECT
       then DisconnectParamsOf(reply.args[0], reply.escaped, level) == Ok(DisconnectParams(id, Some(LevelOr(level))))
       else PathParam(reply.args[0], reply.escaped) == Ok(id)
  }

  /** The values that survive: not the setting id "test", and only providers and levels that the server knows. */
  predicate Survives(c: Call, id: string, level: Option<string>) {
    && !(c.endpoint == SETTING_EP && id == "test")
    && (c == DISCONNECT ==>
          id in ["slack", "linear"] && (level.Some? ==> level.value in ["workspace", "user"]))
  }

  /** The server's reply to the client's call, with the URL as the server receives it. */
  ghost function ReplyTo(c: Call, id: string, base: string,
                         client: char -> bool, plain: char -> bool, pathPlain: char -> bool): Option<Reply> {
    var normalize := s => Normalize(plain, s);
    match Received(pathPlain, ClientPath(base, client, c, id))
    case None => None
    case Some(u) => Some(Prescribed(base, SearchedPath(normalize, u), SearchedIsEscaped(normalize, u), c.verb))
  }

  /** Once the value has arrived, only the two enumerations of the disconnect call can still refuse it. */
  lemma Arrived(c: Call, id: string, level: Option<string>, reply: Reply)
    requires reply.Handle? && reply.op == c.op && |reply.args| == 1
    requires PathParam(reply.args[0], reply.escaped) == Ok(id)
    ensures c == DISCONNECT ==>
      (if id in ["slack", "linear"] && (level.Some? ==> level.value in ["workspace", "user"])
       then Recovered(c, id, level, reply)
       else DisconnectParamsOf(reply.args[0], reply.escaped, level) ==
              Err(BadValue(if id in ["slack", "linear"] then "level" else "provider")))
    ensures c != DISCONNECT ==> Recovered(c, id, level, reply)
  {
  }

  /** For all five operations and every non-empty value, the client's URL comes back as the called operation
      with the same parameters exactly if the value survives. Otherwise the static route refuses the setting
      id "test", and the decoder of the disconnect call names the first parameter that it does not know. */
  lemma ClientPathRoundTrip(c: Call, id: string, level: Option<string>, base: string,
                            client: char -> bool, plain: char -> bool, pathPlain: char -> bool)
    requires c in CALLS && id != "" && Octets(id) && Literal(base)
    requires Encodings(client, plain, pathPlain)
    ensures var reply := ReplyTo(c, id, base, client, plain, pathPlain);
      && reply.Some?
      && (Recovered(c, id, level, reply.value) <==> Survives(c, id, level))
      && (!Survives(c, id, level) ==>
            if c == DISCONNECT
            then reply.value.Handle? && |reply.value.args| == 1 &&
              DisconnectParamsOf(reply.value.args[0], reply.value.escaped, level) ==
                Err(BadValue(if id in ["slack", "linear"] then "level" else "provider"))
            else reply.value == NotAllowed("POST", ON_POST, JSON))
  {
    CallLiteral(c);
    var normalize := s => Normalize(plain, s);
    var seg := SearchedSegment(base, c.before, c.after, id, client, plain, pathPlain);
    var u := Received(pathPlain, ClientPath(base, client, c, id)).value;
    CallReply(c, seg, base, SearchedIsEscaped(normalize, u));
    assert DISCONNECT.endpoint != SETTING_EP;
    var reply := ReplyTo(c, id, base, client, plain, pathPlain).value;
    if reply.Handle? { Arrived(c, id, level, reply); }
  }

  /** The setting id that the static route captures, for both calls with a setting id. */
  lemma TestCaptured(c: Call, base: string, client: char -> bool, plain: char -> bool, pathPlain: char -> bool)
    requires c == UPDATE_SETTING || c == DELETE_SETTING
    requires Literal(base) && Encodings(client, plain, pathPlain)
    ensures ReplyTo(c, "test", base, client, plain, pathPlain) == Some(NotAllowed("POST", ON_POST, JSON))
  {
    var id := "test";
    assert Octets(id) && id[0] == 't';
    assert c in CALLS && c != DISCONNECT;
    assert !Survives(c, id, None);
    ClientPathRoundTrip(c, id, None, base, client, plain, pathPlain);
  }

  /** A provider that the client sends as well as any other, and the server does not know. */
  lemma UnknownProvider(base: string, client: char -> bool, plain: char -> bool, pathPlain: char -> bool)
    requires Literal(base) && Encodings(client, plain, pathPlain)
    ensures var reply := ReplyTo(DISCONNECT, "github", base, client, plain, pathPlain);
      && reply.Some? && reply.value.Handle? && |reply.value.args| == 1
      && DisconnectParamsOf(reply.value.args[0], reply.value.escaped, None) == Err(BadValue("provider"))
  {
    var id := "github";
    assert Octets(id) && id[0] == 'g';
    assert DISCONNECT in CALLS;
    assert !Survives(DISCONNECT, id, None);
    ClientPathRoundTrip(DISCONNECT, id, None, base, client, plain, pathPlain);
  }
}
