/** The answer to a path that exists but not for the requested method (sections 9.3.7, 10.2.1 and 15.5.6
    of RFC 9110). */
module MethodNotAllowed {
  import opened Wrappers
  import opened RouteTrie
  import opened RouteTable
  import opened RouteReply

  datatype Response = Response(status: int, headers: map<string, string>)

  /** `notAllowed`: `requestMethod` is the `Access-Control-Request-Method` header. None when a configured
      `MethodNotAllowed` handler writes the response instead. */
  function Answer(refusal: Reply, verb: string, requestMethod: string, upper: string -> string, delegated: bool):
    (r: Option<Response>)
    requires refusal.NotAllowed?
  {
    var headers: map<string, string> :=
      if verb != "OPTIONS" then map[]
      else
        map["Access-Control-Allow-Methods" := refusal.allowedMethods]
        + (if requestMethod != "" && upper(requestMethod) in refusal.allowedHeaders
           then map["Access-Control-Allow-Headers" := refusal.allowedHeaders[upper(requestMethod)]] else map[])
        + (if refusal.acceptPost != "" then map["Accept-Post" := refusal.acceptPost] else map[]);
    if delegated then None
    else if verb == "OPTIONS" then Some(Response(204, headers))
    else Some(Response(405, headers["Allow" := refusal.allowedMethods]))
  }

  /** The elements of a comma-separated header value. */
  function Elements(s: string): seq<string> {
    if s == "" then [""]
    else if s[0] == ',' then [""] + Elements(s[1..])
    else var rest := Elements(s[1..]); [[s[0]] + rest[0]] + rest[1..]
  }

  function Verbs(ops: List<(string, Operation)>): seq<string> {
    match ops
    case Nil => []
    case Cons((v, _), others) => [v] + Verbs(others)
  }

  predicate VerbsPlain(ops: List<(string, Operation)>) {
    match ops
    case Nil => true
    case Cons((v, _), others) => ',' !in v && VerbsPlain(others)
  }

  predicate TablePlain(routes: List<Route<Endpoint>>) {
    match routes
    case Nil => true
    case Cons(r, others) => r.endpoint.ops.Cons? && VerbsPlain(r.endpoint.ops) && TablePlain(others)
  }

  lemma {:induction false} ElementsOfOne(v: string)
    requires ',' !in v
    ensures Elements(v) == [v]
  {
    if v == "" {
    } else {
      ElementsOfOne(v[1..]);
      assert v == [v[0]] + v[1..];
    }
  }

  lemma {:induction false} ElementsOfMore(v: string, rest: string)
    requires ',' !in v
    ensures Elements(v + "," + rest) == [v] + Elements(rest)
  {
    var s := v + "," + rest;
    if v == "" {
      assert s[1..] == rest;
    } else {
      ElementsOfMore(v[1..], rest);
      assert s[1..] == v[1..] + "," + rest;
      assert v == [v[0]] + v[1..];
    }
  }

  /** Reading the `Allow` value back gives the endpoint's methods, in order. */
  lemma {:induction false} AllowListElements(ops: List<(string, Operation)>)
    requires ops.Cons? && VerbsPlain(ops)
    ensures Elements(AllowList(ops)) == Verbs(ops)
  {
    if ops.tail.Nil? {
      ElementsOfOne(ops.head.0);
      assert [ops.head.0] + [] == [ops.head.0];
    } else {
      AllowListElements(ops.tail);
      ElementsOfMore(ops.head.0, AllowList(ops.tail));
    }
  }

  lemma VerbsHaveOperations(ops: List<(string, Operation)>, v: string)
    ensures v in Verbs(ops) <==> OperationFor(ops, v).Some?
  {
  }

  /** The methods of the header value are those that the endpoint has an operation for. */
  lemma AllowListHandled(e: Endpoint, args: seq<string>, escaped: bool)
    requires e.ops.Cons? && VerbsPlain(e.ops)
    ensures forall v :: v in Elements(AllowList(e.ops)) <==> Respond(e, args, v, escaped).Handle?
  {
    AllowListElements(e.ops);
    forall v ensures v in Verbs(e.ops) <==> Respond(e, args, v, escaped).Handle? { VerbsHaveOperations(e.ops, v); }
  }

  lemma {:induction false} RoutedOpsPlain(routes: List<Route<Endpoint>>, path: string)
    requires TablePlain(routes) && FirstMatch(routes, path).Some?
    ensures var e := FirstMatch(routes, path).value.0; e.ops.Cons? && VerbsPlain(e.ops)
  {
    if Match(routes.head.pattern, path).Some? {
    } else {
      RoutedOpsPlain(routes.tail, path);
    }
  }

  lemma LateTableIsPlain()
    ensures TablePlain(LATE_TABLE)
  {
  }

  lemma MidTableIsPlain()
    ensures TablePlain(MID_TABLE)
  {
    LateTableIsPlain();
  }

  lemma InTableIsPlain()
    ensures TablePlain(IN_TABLE)
  {
    MidTableIsPlain();
  }

  lemma TableIsPlain()
    ensures TablePlain(TABLE)
  {
    InTableIsPlain();
  }

  /** A refusal, sent as 405 or as 204 to OPTIONS, lists exactly the methods for which this very path
      would have been handled. */
  lemma RefusalListsHandledMethods(prefix: string, path: string, escaped: bool, verb: string,
                                   requestMethod: string, upper: string -> string)
    requires Prescribed(prefix, path, escaped, verb).NotAllowed?
    ensures var r := Answer(Prescribed(prefix, path, escaped, verb), verb, requestMethod, upper, false).value;
      var name := if verb == "OPTIONS" then "Access-Control-Allow-Methods" else "Allow";
      && r.status == (if verb == "OPTIONS" then 204 else 405)
      && name in r.headers
      && (verb == "OPTIONS" <==> "Allow" !in r.headers)
      && forall v :: v in Elements(r.headers[name]) <==> Prescribed(prefix, path, escaped, v).Handle?
  {
    var (e, args) := FirstMatch(TABLE, CutPrefix(prefix, path).value).value;
    TableIsPlain();
    RoutedOpsPlain(TABLE, CutPrefix(prefix, path).value);
    AllowListHandled(e, args, escaped);
  }

  // ---------------------------------------------------------------- what a preflight request is told

  /** The operations whose handler decodes a request body. */
  predicate TakesBody(op: Operation) {
    match op
    case CreateInvitation | CreateLinearSettings | CreateOrganization | SubmitOssApplication | TestLinearTemplate
       | UpdateLinearSettings | UpdateMemberRole | UpdateOrganizationProfile | UploadOrganizationAvatar => true
    case _ => false
  }

  /** The header to send with each method with a body. */
  function HeadersFor(ops: List<(string, Operation)>): map<string, string> {
    match ops
    case Nil => map[]
    case Cons((v, op), others) =>
      if TakesBody(op) then HeadersFor(others)[v := "Content-Type"] else HeadersFor(others)
  }

  predicate VerbsDiffer(ops: List<(string, Operation)>) {
    match ops
    case Nil => true
    case Cons((v, _), others) => v !in Verbs(others) && VerbsDiffer(others)
  }

  /** The endpoint advertises a content type for exactly its methods with a body. */
  predicate Advertises(e: Endpoint) {
    && VerbsDiffer(e.ops)
    && e.allowedHeaders == HeadersFor(e.ops)
    && e.acceptPost == if "POST" in HeadersFor(e.ops) then JSON else ""
  }

  predicate AllAdvertise(routes: List<Route<Endpoint>>) {
    match routes
    case Nil => true
    case Cons(r, others) => Advertises(r.endpoint) && AllAdvertise(others)
  }

  lemma {:induction false} HeadersForBodies(ops: List<(string, Operation)>, v: string)
    requires VerbsDiffer(ops)
    ensures v in HeadersFor(ops) <==> OperationFor(ops, v).Some? && TakesBody(OperationFor(ops, v).value)
    ensures v in HeadersFor(ops) ==> HeadersFor(ops)[v] == "Content-Type"
  {
    match ops
    case Nil =>
    case Cons((w, _), others) =>
      HeadersForBodies(others, v);
      VerbsHaveOperations(others, v);
  }

  lemma OneAdvertises(e: Endpoint, verb: string, op: Operation)
    requires e.ops == One(verb, op)
    requires e.allowedHeaders == if TakesBody(op) then map[verb := "Content-Type"] else map[]
    requires e.acceptPost == if verb == "POST" && TakesBody(op) then JSON else ""
    ensures Advertises(e)
  {
  }

  /** Two operations of which the second takes the body. */
  lemma TwoAdvertise(e: Endpoint, verb: string, op: Operation, verb': string, op': Operation)
    requires e.ops == Two(verb, op, verb', op') && verb != verb' && !TakesBody(op) && TakesBody(op')
    requires e.allowedHeaders == map[verb' := "Content-Type"]
    requires e.acceptPost == if verb' == "POST" then JSON else ""
    ensures Advertises(e)
  {
    var second := e.ops.tail;
    assert second == One(verb', op') && Verbs(second.tail) == [] && VerbsDiffer(second.tail);
    assert Verbs(second) == [verb'] + [] && HeadersFor(second) == map[verb' := "Content-Type"];
  }

  lemma BillingAdvertise()
    ensures Advertises(BILLING_EP) && Advertises(CHECKOUT_EP) && Advertises(OSS_EP) && Advertises(PORTAL_EP)
  {
    OneAdvertises(BILLING_EP, "GET", GetBilling);
    OneAdvertises(CHECKOUT_EP, "POST", CreateBillingCheckout);
    OneAdvertises(OSS_EP, "POST", SubmitOssApplication);
    OneAdvertises(PORTAL_EP, "POST", CreateBillingPortal);
  }

  lemma LinearAdvertise()
    ensures Advertises(SETTINGS_EP) && Advertises(TEST_EP) && Advertises(SETTING_EP) && Advertises(WEBHOOKS_EP)
  {
    TwoAdvertise(SETTINGS_EP, "GET", GetLinearSettings, "POST", CreateLinearSettings);
    OneAdvertises(TEST_EP, "POST", TestLinearTemplate);
    TwoAdvertise(SETTING_EP, "DELETE", DeleteLinearSettings, "PUT", UpdateLinearSettings);
    OneAdvertises(WEBHOOKS_EP, "GET", ListLinearWebhooks);
  }

  lemma IntegrationsAdvertise()
    ensures Advertises(SYNC_EP) && Advertises(SLACK_EP) && Advertises(STATUS_EP) && Advertises(DISCONNECT_EP)
  {
    OneAdvertises(SYNC_EP, "POST", SyncSettings);
    OneAdvertises(SLACK_EP, "GET", ListSlackMembers);
    OneAdvertises(STATUS_EP, "GET", GetIntegrationStatus);
    OneAdvertises(DISCONNECT_EP, "POST", DisconnectIntegration);
  }

  lemma InvitationsAdvertise()
    ensures Advertises(INVITATIONS_EP) && Advertises(INVITATION_EP)
  {
    TwoAdvertise(INVITATIONS_EP, "GET", ListInvitations, "POST", CreateInvitation);
    OneAdvertises(INVITATION_EP, "DELETE", RevokeInvitation);
  }

  lemma MembersAdvertise()
    ensures Advertises(ME_EP) && Advertises(MEMBERS_EP) && Advertises(ROLE_EP)
  {
    OneAdvertises(ME_EP, "GET", GetMe);
    OneAdvertises(MEMBERS_EP, "GET", ListMembers);
    OneAdvertises(ROLE_EP, "PUT", UpdateMemberRole);
  }

  lemma AvatarAdvertise()
    ensures Advertises(AVATAR_EP) && Advertises(REGENERATE_EP)
  {
    TwoAdvertise(AVATAR_EP, "DELETE", DeleteOrganizationAvatar, "PUT", UploadOrganizationAvatar);
    OneAdvertises(REGENERATE_EP, "POST", RegenerateOrganizationAvatar);
  }

  lemma OrganizationAdvertise()
    ensures Advertises(PROFILE_EP) && Advertises(ORGANIZATIONS_EP)
  {
    TwoAdvertise(PROFILE_EP, "GET", GetOrganizationProfile, "PUT", UpdateOrganizationProfile);
    OneAdvertises(ORGANIZATIONS_EP, "POST", CreateOrganization);
  }

  lemma OtherAdvertise()
    ensures Advertises(PING_EP) && Advertises(CHAT_EP)
  {
    OneAdvertises(PING_EP, "GET", Ping);
    OneAdvertises(CHAT_EP, "GET", GetSupportChat);
  }

  lemma TableAdvertises()
    ensures AllAdvertise(TABLE)
  {
    MembersAdvertise();
    AvatarAdvertise();
    OrganizationAdvertise();
    OtherAdvertise();
    assert AllAdvertise(LATE_TABLE);
    IntegrationsAdvertise();
    InvitationsAdvertise();
    assert AllAdvertise(MID_TABLE);
    LinearAdvertise();
    assert AllAdvertise(IN_TABLE);
    BillingAdvertise();
  }

  lemma {:induction false} RoutedAdvertises(routes: List<Route<Endpoint>>, path: string)
    requires AllAdvertise(routes) && FirstMatch(routes, path).Some?
    ensures Advertises(FirstMatch(routes, path).value.0)
  {
    if Match(routes.head.pattern, path).Some? {
    } else {
      RoutedAdvertises(routes.tail, path);
    }
  }

  predicate ReadsBody(reply: Reply) {
    reply.Handle? && TakesBody(reply.op)
  }

  /** A preflight request is told the header to send exactly if the method that it asks about would, on this
      very path, reach a handler that reads a body, and what a POST may hold exactly if a POST would. */
  lemma PreflightHeaders(prefix: string, path: string, escaped: bool, verb: string,
                         requestMethod: string, upper: string -> string)
    requires Prescribed(prefix, path, escaped, verb).NotAllowed?
    ensures var h := Answer(Prescribed(prefix, path, escaped, verb), verb, requestMethod, upper, false).value.headers;
      && ("Access-Control-Allow-Headers" in h <==>
            && verb == "OPTIONS" && requestMethod != ""
            && ReadsBody(Prescribed(prefix, path, escaped, upper(requestMethod))))
      && ("Access-Control-Allow-Headers" in h ==> h["Access-Control-Allow-Headers"] == "Content-Type")
      && ("Accept-Post" in h <==> verb == "OPTIONS" && ReadsBody(Prescribed(prefix, path, escaped, "POST")))
      && ("Accept-Post" in h ==> h["Accept-Post"] == "application/json")
  {
    var (e, args) := FirstMatch(TABLE, CutPrefix(prefix, path).value).value;
    TableAdvertises();
    RoutedAdvertises(TABLE, CutPrefix(prefix, path).value);
    HeadersForBodies(e.ops, upper(requestMethod));
    HeadersForBodies(e.ops, "POST");
  }

  /** The prescribed reply says whether some row of the table denotes the path, and is that row's. */
  lemma PrescribedMeaning(prefix: string, elem: string, escaped: bool, verb: string)
    ensures var reply := Prescribed(prefix, prefix + elem, escaped, verb);
      if reply == NotFound then forall r, args :: Member(r, TABLE) ==> !Denotes(r, args, elem)
      else exists r, args ::
        Member(r, TABLE) && Denotes(r, args, elem) && reply == Respond(r.endpoint, args, verb, escaped)
  {
    assert prefix == "" ==> prefix + elem == elem;
    assert (prefix + elem)[|prefix|..] == elem;
    TableDelimited();
    FirstMatchMeaning(TABLE, elem);
  }

  lemma TableDelimited()
    ensures AllDelimited(TABLE)
  {
    assert StartsWith("/disconnect", '/') && StartsWith("/role", '/');
    assert SlashDelimited(Lit("/integrations/", Hole(true, Lit("/disconnect", End))));
    assert SlashDelimited(Lit("/members/", Hole(true, Lit("/role", End))));
    assert AllDelimited(LATE_TABLE);
    assert AllDelimited(MID_TABLE);
    assert AllDelimited(IN_TABLE);
  }
}
