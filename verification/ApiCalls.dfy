/** Every operation of the API as the generated client calls it, independently of the router's table, and that
    the router reaches an operation by exactly its own call. */
module ApiCalls {
  import opened Wrappers
  import opened RouteTrie
  import opened RouteTable
  import opened RouteReply
  import opened FlatTable
  import opened ClientCalls
  import opened UniqueRoutes
  import MethodNotAllowed

  // ---------------------------------------------------------------- what the client sends

  /** The method of an operation's call. */
  function Verb(op: Operation): string {
    match op
    case GetBilling | GetLinearSettings | ListLinearWebhooks | ListSlackMembers | GetIntegrationStatus
       | ListInvitations | GetMe | ListMembers | GetOrganizationProfile | Ping | GetSupportChat => "GET"
    case CreateBillingCheckout | SubmitOssApplication | CreateBillingPortal | CreateLinearSettings
       | TestLinearTemplate | SyncSettings | DisconnectIntegration | CreateInvitation
       | RegenerateOrganizationAvatar | CreateOrganization => "POST"
    case UpdateLinearSettings | UpdateMemberRole | UploadOrganizationAvatar | UpdateOrganizationProfile => "PUT"
    case DeleteLinearSettings | RevokeInvitation | DeleteOrganizationAvatar => "DELETE"
  }

  /** Its path, up to the parameter if there is one. */
  function Before(op: Operation): string {
    match op
    case GetBilling => "/billing"
    case CreateBillingCheckout => "/billing/checkout"
    case SubmitOssApplication => "/billing/oss-application"
    case CreateBillingPortal => "/billing/portal"
    case GetLinearSettings => "/integrations/linear/settings"
    case CreateLinearSettings => "/integrations/linear/settings"
    case TestLinearTemplate => "/integrations/linear/settings/test"
    case DeleteLinearSettings => "/integrations/linear/settings/"
    case UpdateLinearSettings => "/integrations/linear/settings/"
    case ListLinearWebhooks => "/integrations/linear/webhooks"
    case SyncSettings => "/integrations/settings/sync"
    case ListSlackMembers => "/integrations/slack/members"
    case GetIntegrationStatus => "/integrations/status"
    case DisconnectIntegration => "/integrations/"
    case ListInvitations => "/invitations"
    case CreateInvitation => "/invitations"
    case RevokeInvitation => "/invitations/"
    case GetMe => "/me"
    case ListMembers => "/members"
    case UpdateMemberRole => "/members/"
    case DeleteOrganizationAvatar => "/organization/avatar"
    case UploadOrganizationAvatar => "/organization/avatar"
    case RegenerateOrganizationAvatar => "/organization/avatar/regenerate"
    case GetOrganizationProfile => "/organization/profile"
    case UpdateOrganizationProfile => "/organization/profile"
    case CreateOrganization => "/organizations"
    case Ping => "/ping"
    case GetSupportChat => "/support/chat"
  }

  /** The parameter's name. */
  function Param(op: Operation): Option<string> {
    match op
    case UpdateLinearSettings | DeleteLinearSettings => Some("settingId")
    case DisconnectIntegration => Some("provider")
    case RevokeInvitation => Some("invitationId")
    case UpdateMemberRole => Some("membershipId")
    case _ => None
  }

  /** The text of the path after the parameter. */
  function After(op: Operation): string {
    match op
    case DisconnectIntegration => "/disconnect"
    case UpdateMemberRole => "/role"
    case _ => ""
  }

  function SentPath(op: Operation, arg: string): string {
    if Param(op).None? then Before(op) else Before(op) + (arg + After(op))
  }

  function SentArgs(op: Operation, arg: string): seq<string> {
    if Param(op).None? then [] else [arg]
  }

  /** The path with the parameter's name in braces. */
  function SentPattern(op: Operation): string {
    if Param(op).None? then Before(op) else SentPath(op, "{" + Param(op).value + "}")
  }

  predicate OfSetting(op: Operation) { op == UpdateLinearSettings || op == DeleteLinearSettings }

  /** What can stand for the parameter: one segment; a setting id is not empty, and not "test". */
  predicate Routable(op: Operation, arg: string) {
    && '/' !in arg
    && (Param(op).None? ==> arg == "")
    && (OfSetting(op) ==> arg != "" && arg != "test")
  }

  // ---------------------------------------------------------------- the rows of the table

  function EndpointOf(op: Operation): Endpoint {
    match op
    case GetBilling => BILLING_EP
    case CreateBillingCheckout => CHECKOUT_EP
    case SubmitOssApplication => OSS_EP
    case CreateBillingPortal => PORTAL_EP
    case GetLinearSettings => SETTINGS_EP
    case CreateLinearSettings => SETTINGS_EP
    case TestLinearTemplate => TEST_EP
    case DeleteLinearSettings => SETTING_EP
    case UpdateLinearSettings => SETTING_EP
    case ListLinearWebhooks => WEBHOOKS_EP
    case SyncSettings => SYNC_EP
    case ListSlackMembers => SLACK_EP
    case GetIntegrationStatus => STATUS_EP
    case DisconnectIntegration => DISCONNECT_EP
    case ListInvitations => INVITATIONS_EP
    case CreateInvitation => INVITATIONS_EP
    case RevokeInvitation => INVITATION_EP
    case GetMe => ME_EP
    case ListMembers => MEMBERS_EP
    case UpdateMemberRole => ROLE_EP
    case DeleteOrganizationAvatar => AVATAR_EP
    case UploadOrganizationAvatar => AVATAR_EP
    case RegenerateOrganizationAvatar => REGENERATE_EP
    case GetOrganizationProfile => PROFILE_EP
    case UpdateOrganizationProfile => PROFILE_EP
    case CreateOrganization => ORGANIZATIONS_EP
    case Ping => PING_EP
    case GetSupportChat => CHAT_EP
  }

  function PatternOf(op: Operation): Pattern {
    if Param(op).None? then Lit(Before(op), End)
    else Lit(Before(op), Hole(!OfSetting(op), if After(op) == "" then End else Lit(After(op), End)))
  }

  /** The operations of a row are the ones whose calls have its methods and its pattern. */
  predicate OpsSent(ops: List<(string, Operation)>, p: Pattern) {
    match ops
    case Nil => true
    case Cons((v, op), others) => Verb(op) == v && PatternOf(op) == p && OpsSent(others, p)
  }

  predicate RowsSent(routes: List<Route<Endpoint>>) {
    match routes
    case Nil => true
    case Cons(r, others) => OpsSent(r.endpoint.ops, r.pattern) && RowsSent(others)
  }

  lemma OneSent(e: Endpoint, verb: string, op: Operation, p: Pattern)
    requires e.ops == One(verb, op) && Verb(op) == verb && PatternOf(op) == p
    ensures OpsSent(e.ops, p)
  {
    assert OpsSent(e.ops.tail, p);
  }

  lemma TwoSent(e: Endpoint, verb: string, op: Operation, verb': string, op': Operation, p: Pattern)
    requires e.ops == Two(verb, op, verb', op')
    requires Verb(op) == verb && PatternOf(op) == p
    requires Verb(op') == verb' && PatternOf(op') == p
    ensures OpsSent(e.ops, p)
  {
    assert OpsSent(e.ops.tail.tail, p);
    assert OpsSent(e.ops.tail, p);
  }

  lemma BillingSent()
    ensures OpsSent(BILLING_EP.ops, Lit("/billing", End))
    ensures OpsSent(CHECKOUT_EP.ops, Lit("/billing/checkout", End))
    ensures OpsSent(OSS_EP.ops, Lit("/billing/oss-application", End))
    ensures OpsSent(PORTAL_EP.ops, Lit("/billing/portal", End))
  {
    OneSent(BILLING_EP, "GET", GetBilling, Lit("/billing", End));
    OneSent(CHECKOUT_EP, "POST", CreateBillingCheckout, Lit("/billing/checkout", End));
    OneSent(OSS_EP, "POST", SubmitOssApplication, Lit("/billing/oss-application", End));
    OneSent(PORTAL_EP, "POST", CreateBillingPortal, Lit("/billing/portal", End));
  }

  lemma LinearSent()
    ensures OpsSent(SETTINGS_EP.ops, Lit("/integrations/linear/settings", End))
    ensures OpsSent(TEST_EP.ops, Lit("/integrations/linear/settings/test", End))
    ensures OpsSent(SETTING_EP.ops, Lit("/integrations/linear/settings/", Hole(false, End)))
    ensures OpsSent(WEBHOOKS_EP.ops, Lit("/integrations/linear/webhooks", End))
  {
    TwoSent(SETTINGS_EP, "GET", GetLinearSettings, "POST", CreateLinearSettings,
      Lit("/integrations/linear/settings", End));
    OneSent(TEST_EP, "POST", TestLinearTemplate, Lit("/integrations/linear/settings/test", End));
    TwoSent(SETTING_EP, "DELETE", DeleteLinearSettings, "PUT", UpdateLinearSettings,
      Lit("/integrations/linear/settings/", Hole(false, End)));
    OneSent(WEBHOOKS_EP, "GET", ListLinearWebhooks, Lit("/integrations/linear/webhooks", End));
  }

  lemma IntegrationsSent()
    ensures OpsSent(SYNC_EP.ops, Lit("/integrations/settings/sync", End))
    ensures OpsSent(SLACK_EP.ops, Lit("/integrations/slack/members", End))
    ensures OpsSent(STATUS_EP.ops, Lit("/integrations/status", End))
    ensures OpsSent(DISCONNECT_EP.ops, Lit("/integrations/", Hole(true, Lit("/disconnect", End))))
  {
    OneSent(SYNC_EP, "POST", SyncSettings, Lit("/integrations/settings/sync", End));
    OneSent(SLACK_EP, "GET", ListSlackMembers, Lit("/integrations/slack/members", End));
    OneSent(STATUS_EP, "GET", GetIntegrationStatus, Lit("/integrations/status", End));
    OneSent(DISCONNECT_EP, "POST", DisconnectIntegration, Lit("/integrations/", Hole(true, Lit("/disconnect", End))));
  }

  lemma InvitationsSent()
    ensures OpsSent(INVITATIONS_EP.ops, Lit("/invitations", End))
    ensures OpsSent(INVITATION_EP.ops, Lit("/invitations/", Hole(true, End)))
  {
    TwoSent(INVITATIONS_EP, "GET", ListInvitations, "POST", CreateInvitation, Lit("/invitations", End));
    OneSent(INVITATION_EP, "DELETE", RevokeInvitation, Lit("/invitations/", Hole(true, End)));
  }

  lemma MembersSent()
    ensures OpsSent(ME_EP.ops, Lit("/me", End))
    ensures OpsSent(MEMBERS_EP.ops, Lit("/members", End))
    ensures OpsSent(ROLE_EP.ops, Lit("/members/", Hole(true, Lit("/role", End))))
  {
    OneSent(ME_EP, "GET", GetMe, Lit("/me", End));
    OneSent(MEMBERS_EP, "GET", ListMembers, Lit("/members", End));
    OneSent(ROLE_EP, "PUT", UpdateMemberRole, Lit("/members/", Hole(true, Lit("/role", End))));
  }

  lemma AvatarSent()
    ensures OpsSent(AVATAR_EP.ops, Lit("/organization/avatar", End))
    ensures OpsSent(REGENERATE_EP.ops, Lit("/organization/avatar/regenerate", End))
  {
    TwoSent(AVATAR_EP, "DELETE", DeleteOrganizationAvatar, "PUT", UploadOrganizationAvatar,
      Lit("/organization/avatar", End));
    OneSent(REGENERATE_EP, "POST", RegenerateOrganizationAvatar, Lit("/organization/avatar/regenerate", End));
  }

  lemma OrganizationSent()
    ensures OpsSent(PROFILE_EP.ops, Lit("/organization/profile", End))
    ensures OpsSent(ORGANIZATIONS_EP.ops, Lit("/organizations", End))
  {
    TwoSent(PROFILE_EP, "GET", GetOrganizationProfile, "PUT", UpdateOrganizationProfile,
      Lit("/organization/profile", End));
    OneSent(ORGANIZATIONS_EP, "POST", CreateOrganization, Lit("/organizations", End));
  }

  lemma OtherSent()
    ensures OpsSent(PING_EP.ops, Lit("/ping", End))
    ensures OpsSent(CHAT_EP.ops, Lit("/support/chat", End))
  {
    OneSent(PING_EP, "GET", Ping, Lit("/ping", End));
    OneSent(CHAT_EP, "GET", GetSupportChat, Lit("/support/chat", End));
  }

  lemma TableSent()
    ensures RowsSent(TABLE)
  {
    MembersSent();
    AvatarSent();
    OrganizationSent();
    OtherSent();
    assert RowsSent(LATE_TABLE);
    IntegrationsSent();
    InvitationsSent();
    assert RowsSent(MID_TABLE);
    LinearSent();
    assert RowsSent(IN_TABLE);
    BillingSent();
  }

  lemma LateMembers()
    ensures Member(Static("/me", ME_EP), LATE_TABLE)
    ensures Member(Static("/members", MEMBERS_EP), LATE_TABLE)
    ensures Member(Static("/organization/avatar", AVATAR_EP), LATE_TABLE)
    ensures Member(Static("/organization/avatar/regenerate", REGENERATE_EP), LATE_TABLE)
    ensures Member(Static("/organization/profile", PROFILE_EP), LATE_TABLE)
    ensures Member(Static("/organizations", ORGANIZATIONS_EP), LATE_TABLE)
    ensures Member(Static("/ping", PING_EP), LATE_TABLE)
    ensures Member(Static("/support/chat", CHAT_EP), LATE_TABLE)
  {
  }

  lemma MidMembers()
    ensures Member(Static("/integrations/slack/members", SLACK_EP), MID_TABLE)
    ensures Member(Static("/integrations/status", STATUS_EP), MID_TABLE)
    ensures Member(Static("/invitations", INVITATIONS_EP), MID_TABLE)
  {
  }

  lemma InMembers()
    ensures Member(Static("/integrations/linear/settings", SETTINGS_EP), IN_TABLE)
    ensures Member(Static("/integrations/linear/settings/test", TEST_EP), IN_TABLE)
    ensures Member(Static("/integrations/linear/webhooks", WEBHOOKS_EP), IN_TABLE)
    ensures Member(Static("/integrations/settings/sync", SYNC_EP), IN_TABLE)
  {
  }

  lemma TopMembers()
    ensures Member(Static("/billing", BILLING_EP), TABLE)
    ensures Member(Static("/billing/checkout", CHECKOUT_EP), TABLE)
    ensures Member(Static("/billing/oss-application", OSS_EP), TABLE)
    ensures Member(Static("/billing/portal", PORTAL_EP), TABLE)
  {
  }

  // ---------------------------------------------------------------- a call reaches its operation

  predicate Listed(r: Route<Endpoint>) {
    Member(r, LATE_TABLE) || Member(r, MID_TABLE) || Member(r, IN_TABLE) || Member(r, TABLE)
  }

  /** The table's three ends are parts of it. */
  lemma MemberOfTable(r: Route<Endpoint>)
    ensures Member(r, LATE_TABLE) || Member(r, MID_TABLE) || Member(r, IN_TABLE) ==> Member(r, TABLE)
  {
    assert Member(r, LATE_TABLE) ==> Member(r, MID_TABLE);
    assert Member(r, MID_TABLE) ==> Member(r, IN_TABLE);
    assert Member(r, IN_TABLE) ==> Member(r, TABLE);
  }

  lemma StaticFound(path: string, e: Endpoint)
    requires Listed(Static(path, e))
    ensures FirstMatch(TABLE, path) == Some((e, []))
  {
    var r := Static(path, e);
    MemberOfTable(r);
    assert Fits(End, []) && Fill(r.pattern, []) == path + "";
    StaticAlone(r, [], path);
  }

  lemma LateListed(op: Operation)
    requires op in {GetMe, ListMembers, DeleteOrganizationAvatar, UploadOrganizationAvatar,
      RegenerateOrganizationAvatar, GetOrganizationProfile, UpdateOrganizationProfile, CreateOrganization,
      Ping, GetSupportChat}
    ensures Listed(Static(Before(op), EndpointOf(op)))
  {
    LateMembers();
  }

  lemma MidListed(op: Operation)
    requires op in {ListSlackMembers, GetIntegrationStatus, ListInvitations, CreateInvitation}
    ensures Listed(Static(Before(op), EndpointOf(op)))
  {
    MidMembers();
  }

  lemma InListed(op: Operation)
    requires op in {GetLinearSettings, CreateLinearSettings, TestLinearTemplate, ListLinearWebhooks, SyncSettings}
    ensures Listed(Static(Before(op), EndpointOf(op)))
  {
    InMembers();
  }

  lemma TopListed(op: Operation)
    requires op in {GetBilling, CreateBillingCheckout, SubmitOssApplication, CreateBillingPortal}
    ensures Listed(Static(Before(op), EndpointOf(op)))
  {
    TopMembers();
  }

  lemma PlainListed(op: Operation)
    requires Param(op).None?
    ensures Listed(Static(Before(op), EndpointOf(op)))
  {
    match op
    case GetMe | ListMembers | DeleteOrganizationAvatar | UploadOrganizationAvatar
       | RegenerateOrganizationAvatar | GetOrganizationProfile | UpdateOrganizationProfile | CreateOrganization
       | Ping | GetSupportChat => LateListed(op);
    case ListSlackMembers | GetIntegrationStatus | ListInvitations | CreateInvitation => MidListed(op);
    case GetLinearSettings | CreateLinearSettings | TestLinearTemplate | ListLinearWebhooks
       | SyncSettings => InListed(op);
    case GetBilling | CreateBillingCheckout | SubmitOssApplication | CreateBillingPortal => TopListed(op);
  }

  lemma PlainFound(op: Operation)
    requires Param(op).None?
    ensures FirstMatch(TABLE, Before(op)) == Some((EndpointOf(op), []))
  {
    PlainListed(op);
    StaticFound(Before(op), EndpointOf(op));
  }

  lemma ParamFound(op: Operation, arg: string)
    requires Param(op).Some? && Routable(op, arg)
    ensures FirstMatch(TABLE, SentPath(op, arg)) == Some((EndpointOf(op), [arg]))
  {
    assert arg + "" == arg;
    match op
    case DeleteLinearSettings => SettingRoute(arg);
    case UpdateLinearSettings => SettingRoute(arg);
    case DisconnectIntegration => DisconnectRoute(arg);
    case RevokeInvitation => InvitationRoute(arg);
    case UpdateMemberRole => RoleRoute(arg);
  }

  lemma CallFound(op: Operation, arg: string)
    requires Routable(op, arg)
    ensures FirstMatch(TABLE, SentPath(op, arg)) == Some((EndpointOf(op), SentArgs(op, arg)))
  {
    if Param(op).None? { PlainFound(op); } else { ParamFound(op, arg); }
  }

  lemma FirstOf(ops: List<(string, Operation)>, verb: string, op: Operation)
    requires ops.Cons? && ops.head == (verb, op)
    ensures OperationFor(ops, verb) == Some(op)
  {
  }

  lemma SecondOf(ops: List<(string, Operation)>, first: string, verb: string, op: Operation, op': Operation)
    requires ops == Two(first, op', verb, op) && first != verb
    ensures OperationFor(ops, verb) == Some(op)
  {
    FirstOf(ops.tail, verb, op);
  }

  lemma BillingOperations()
    ensures OperationFor(BILLING_EP.ops, "GET") == Some(GetBilling)
    ensures OperationFor(CHECKOUT_EP.ops, "POST") == Some(CreateBillingCheckout)
    ensures OperationFor(OSS_EP.ops, "POST") == Some(SubmitOssApplication)
    ensures OperationFor(PORTAL_EP.ops, "POST") == Some(CreateBillingPortal)
  {
    FirstOf(BILLING_EP.ops, "GET", GetBilling);
    FirstOf(CHECKOUT_EP.ops, "POST", CreateBillingCheckout);
    FirstOf(OSS_EP.ops, "POST", SubmitOssApplication);
    FirstOf(PORTAL_EP.ops, "POST", CreateBillingPortal);
  }

  lemma LinearOperations()
    ensures OperationFor(SETTINGS_EP.ops, "GET") == Some(GetLinearSettings)
    ensures OperationFor(SETTINGS_EP.ops, "POST") == Some(CreateLinearSettings)
    ensures OperationFor(TEST_EP.ops, "POST") == Some(TestLinearTemplate)
    ensures OperationFor(SETTING_EP.ops, "DELETE") == Some(DeleteLinearSettings)
    ensures OperationFor(SETTING_EP.ops, "PUT") == Some(UpdateLinearSettings)
    ensures OperationFor(WEBHOOKS_EP.ops, "GET") == Some(ListLinearWebhooks)
  {
    FirstOf(SETTINGS_EP.ops, "GET", GetLinearSettings);
    SecondOf(SETTINGS_EP.ops, "GET", "POST", CreateLinearSettings, GetLinearSettings);
    FirstOf(TEST_EP.ops, "POST", TestLinearTemplate);
    FirstOf(SETTING_EP.ops, "DELETE", DeleteLinearSettings);
    SecondOf(SETTING_EP.ops, "DELETE", "PUT", UpdateLinearSettings, DeleteLinearSettings);
    FirstOf(WEBHOOKS_EP.ops, "GET", ListLinearWebhooks);
  }

  lemma IntegrationsOperations()
    ensures OperationFor(SYNC_EP.ops, "POST") == Some(SyncSettings)
    ensures OperationFor(SLACK_EP.ops, "GET") == Some(ListSlackMembers)
    ensures OperationFor(STATUS_EP.ops, "GET") == Some(GetIntegrationStatus)
    ensures OperationFor(DISCONNECT_EP.ops, "POST") == Some(DisconnectIntegration)
  {
    FirstOf(SYNC_EP.ops, "POST", SyncSettings);
    FirstOf(SLACK_EP.ops, "GET", ListSlackMembers);
    FirstOf(STATUS_EP.ops, "GET", GetIntegrationStatus);
    FirstOf(DISCONNECT_EP.ops, "POST", DisconnectIntegration);
  }

  lemma MembersOperations()
    ensures OperationFor(INVITATIONS_EP.ops, "GET") == Some(ListInvitations)
    ensures OperationFor(INVITATIONS_EP.ops, "POST") == Some(CreateInvitation)
    ensures OperationFor(INVITATION_EP.ops, "DELETE") == Some(RevokeInvitation)
    ensures OperationFor(ME_EP.ops, "GET") == Some(GetMe)
    ensures OperationFor(MEMBERS_EP.ops, "GET") == Some(ListMembers)
    ensures OperationFor(ROLE_EP.ops, "PUT") == Some(UpdateMemberRole)
  {
    FirstOf(INVITATIONS_EP.ops, "GET", ListInvitations);
    SecondOf(INVITATIONS_EP.ops, "GET", "POST", CreateInvitation, ListInvitations);
    FirstOf(INVITATION_EP.ops, "DELETE", RevokeInvitation);
    FirstOf(ME_EP.ops, "GET", GetMe);
    FirstOf(MEMBERS_EP.ops, "GET", ListMembers);
    FirstOf(ROLE_EP.ops, "PUT", UpdateMemberRole);
  }

  lemma OrganizationOperations()
    ensures OperationFor(AVATAR_EP.ops, "DELETE") == Some(DeleteOrganizationAvatar)
    ensures OperationFor(AVATAR_EP.ops, "PUT") == Some(UploadOrganizationAvatar)
    ensures OperationFor(REGENERATE_EP.ops, "POST") == Some(RegenerateOrganizationAvatar)
    ensures OperationFor(PROFILE_EP.ops, "GET") == Some(GetOrganizationProfile)
    ensures OperationFor(PROFILE_EP.ops, "PUT") == Some(UpdateOrganizationProfile)
    ensures OperationFor(ORGANIZATIONS_EP.ops, "POST") == Some(CreateOrganization)
  {
    FirstOf(AVATAR_EP.ops, "DELETE", DeleteOrganizationAvatar);
    SecondOf(AVATAR_EP.ops, "DELETE", "PUT", UploadOrganizationAvatar, DeleteOrganizationAvatar);
    FirstOf(REGENERATE_EP.ops, "POST", RegenerateOrganizationAvatar);
    FirstOf(PROFILE_EP.ops, "GET", GetOrganizationProfile);
    SecondOf(PROFILE_EP.ops, "GET", "PUT", UpdateOrganizationProfile, GetOrganizationProfile);
    FirstOf(ORGANIZATIONS_EP.ops, "POST", CreateOrganization);
  }

  lemma OtherOperations()
    ensures OperationFor(PING_EP.ops, "GET") == Some(Ping)
    ensures OperationFor(CHAT_EP.ops, "GET") == Some(GetSupportChat)
  {
    FirstOf(PING_EP.ops, "GET", Ping);
    FirstOf(CHAT_EP.ops, "GET", GetSupportChat);
  }

  lemma CallOperation(op: Operation)
    ensures OperationFor(EndpointOf(op).ops, Verb(op)) == Some(op)
  {
    match op {
      case GetBilling | CreateBillingCheckout | SubmitOssApplication | CreateBillingPortal => BillingOperations();
      case GetLinearSettings | CreateLinearSettings | TestLinearTemplate | DeleteLinearSettings
         | UpdateLinearSettings | ListLinearWebhooks => LinearOperations();
      case SyncSettings | ListSlackMembers | GetIntegrationStatus | DisconnectIntegration => IntegrationsOperations();
      case ListInvitations | CreateInvitation | RevokeInvitation | GetMe | ListMembers | UpdateMemberRole =>
        MembersOperations();
      case Ping | GetSupportChat => OtherOperations();
      case _ => OrganizationOperations();
    }
  }

  lemma ParamPatterns()
    ensures "/integrations/linear/settings/" + ("{" + "settingId" + "}" + "")
         == "/integrations/linear/settings/{settingId}"
    ensures "/integrations/" + ("{" + "provider" + "}" + "/disconnect") == "/integrations/{provider}/disconnect"
    ensures "/invitations/" + ("{" + "invitationId" + "}" + "") == "/invitations/{invitationId}"
    ensures "/members/" + ("{" + "membershipId" + "}" + "/role") == "/members/{membershipId}/role"
  {
  }

  lemma CallPattern(op: Operation)
    ensures EndpointOf(op).pathPattern == SentPattern(op)
  {
    if Param(op).Some? { ParamPatterns(); }
  }

  lemma CutBase(base: string, path: string)
    ensures CutPrefix(base, base + path) == Some(path)
  {
    if base == "" { assert base + path == path; } else { assert (base + path)[|base|..] == path; }
  }

  /** Every call of the client reaches its operation with the argument it was made with, and is found under the
      pattern with the parameter's name. */
  lemma CallReaches(op: Operation, arg: string, base: string, escaped: bool,
                    normalize: string -> Option<string>, unescape: string -> Option<string>)
    requires Routable(op, arg)
    ensures var path, args := base + SentPath(op, arg), SentArgs(op, arg);
      && Prescribed(base, path, escaped, Verb(op)) == Handle(op, args, escaped)
      && FoundPath(base, normalize, unescape, Verb(op), URL(path, "")) == Some(Found(op, SentPattern(op), args))
  {
    CutBase(base, SentPath(op, arg));
    CallFound(op, arg);
    CallOperation(op);
    CallPattern(op);
  }

  // ---------------------------------------------------------------- and nothing else does

  lemma OpsSentMeaning(ops: List<(string, Operation)>, p: Pattern, verb: string, op: Operation)
    requires OpsSent(ops, p) && OperationFor(ops, verb) == Some(op)
    ensures Verb(op) == verb && PatternOf(op) == p
  {
  }

  lemma {:induction false} RowSent(routes: List<Route<Endpoint>>, r: Route<Endpoint>)
    requires RowsSent(routes) && Member(r, routes)
    ensures OpsSent(r.endpoint.ops, r.pattern)
  {
    if r == routes.head {
    } else {
      RowSent(routes.tail, r);
    }
  }

  /** A path that fits the pattern of a call is that of a call. */
  lemma PathSent(op: Operation, args: seq<string>, path: string) returns (arg: string)
    requires Fits(PatternOf(op), args) && path == Fill(PatternOf(op), args)
    ensures args == SentArgs(op, arg) && path == SentPath(op, arg) && '/' !in arg
    ensures (Param(op).None? ==> arg == "") && (OfSetting(op) ==> arg != "")
  {
    if Param(op).None? {
      assert Fits(End, args) && Fill(PatternOf(op), args) == Before(op) + "";
      arg := "";
    } else if After(op) == "" {
      LastHole(Before(op), !OfSetting(op), args, path);
      arg := args[0];
      assert arg + "" == arg;
    } else {
      InnerHole(Before(op), After(op), args, path);
      arg := args[0];
    }
  }

  /** The test's call cannot be taken for one with the setting id "test". */
  lemma TestIsNoSetting(op: Operation, arg: string)
    requires OfSetting(op)
    requires '/' !in arg && arg != ""
    requires var found := FirstMatch(TABLE, SentPath(op, arg));
      found.Some? && OperationFor(found.value.0.ops, Verb(op)) == Some(op)
    ensures arg != "test"
  {
    assert arg + "" == arg;
    SettingRoute(arg);
  }

  /** What reaches an operation is a call of it: the router finds each operation under its own method and path,
      with the argument in its own place, and under nothing else. */
  lemma OnlyItsCall(op: Operation, args: seq<string>, base: string, path: string, escaped: bool, verb: string)
      returns (arg: string)
    requires Prescribed(base, path, escaped, verb) == Handle(op, args, escaped)
    ensures verb == Verb(op) && path == base + SentPath(op, arg) && args == SentArgs(op, arg) && Routable(op, arg)
  {
    var elem := CutPrefix(base, path).value;
    assert path == base + elem;
    var (e, found) := FirstMatch(TABLE, elem).value;
    MethodNotAllowed.TableDelimited();
    FirstMatchMeaning(TABLE, elem);
    var r :| Member(r, TABLE) && r.endpoint == e && Denotes(r, found, elem);
    TableSent();
    RowSent(TABLE, r);
    OpsSentMeaning(e.ops, r.pattern, verb, op);
    arg := PathSent(op, args, elem);
    if OfSetting(op) { TestIsNoSetting(op, arg); }
  }

  /** No two operations have the same call. */
  lemma CallsDiffer(op: Operation, op': Operation, arg: string, arg': string)
    requires Routable(op, arg) && Routable(op', arg')
    requires Verb(op) == Verb(op') && SentPath(op, arg) == SentPath(op', arg')
    ensures op == op' && arg == arg'
  {
    CallReaches(op, arg, "", false, s => None, s => None);
    CallReaches(op', arg', "", false, s => None, s => None);
    assert "" + SentPath(op, arg) == "" + SentPath(op', arg');
  }
}
