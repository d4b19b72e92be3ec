/** The API's endpoints: the trie that the generated router unrolls, and the flat table of the 23 path
    patterns that it stands for. */
module RouteTable {
  import opened Wrappers
  import opened RouteTrie

  datatype Operation =
    | GetBilling | CreateBillingCheckout | SubmitOssApplication | CreateBillingPortal
    | GetLinearSettings | CreateLinearSettings | TestLinearTemplate | DeleteLinearSettings
    | UpdateLinearSettings | ListLinearWebhooks | SyncSettings | ListSlackMembers
    | GetIntegrationStatus | DisconnectIntegration | ListInvitations | CreateInvitation
    | RevokeInvitation | GetMe | ListMembers | UpdateMemberRole | DeleteOrganizationAvatar
    | UploadOrganizationAvatar | RegenerateOrganizationAvatar | GetOrganizationProfile
    | UpdateOrganizationProfile | CreateOrganization | Ping | GetSupportChat

  /** One path pattern: its operations by method, and what a refused or OPTIONS request is told. */
  datatype Endpoint = Endpoint(pathPattern: string, ops: List<(string, Operation)>,
                               allowedHeaders: map<string, string>, acceptPost: string)

  function One(verb: string, op: Operation): List<(string, Operation)> { Cons((verb, op), Nil) }

  function Two(verb: string, op: Operation, verb': string, op': Operation): List<(string, Operation)> {
    Cons((verb, op), One(verb', op'))
  }

  const JSON := "application/json"
  const ON_POST: map<string, string> := map["POST" := "Content-Type"]
  const ON_PUT: map<string, string> := map["PUT" := "Content-Type"]

  const BILLING_EP := Endpoint("/billing", One("GET", GetBilling), map[], "")
  const CHECKOUT_EP := Endpoint("/billing/checkout", One("POST", CreateBillingCheckout), map[], "")
  const OSS_EP := Endpoint("/billing/oss-application", One("POST", SubmitOssApplication), ON_POST, JSON)
  const PORTAL_EP := Endpoint("/billing/portal", One("POST", CreateBillingPortal), map[], "")
  const SETTINGS_EP := Endpoint("/integrations/linear/settings",
    Two("GET", GetLinearSettings, "POST", CreateLinearSettings), ON_POST, JSON)
  const TEST_EP := Endpoint("/integrations/linear/settings/test", One("POST", TestLinearTemplate), ON_POST, JSON)
  const SETTING_EP := Endpoint("/integrations/linear/settings/{settingId}",
    Two("DELETE", DeleteLinearSettings, "PUT", UpdateLinearSettings), ON_PUT, "")
  const WEBHOOKS_EP := Endpoint("/integrations/linear/webhooks", One("GET", ListLinearWebhooks), map[], "")
  const SYNC_EP := Endpoint("/integrations/settings/sync", One("POST", SyncSettings), map[], "")
  const SLACK_EP := Endpoint("/integrations/slack/members", One("GET", ListSlackMembers), map[], "")
  const STATUS_EP := Endpoint("/integrations/status", One("GET", GetIntegrationStatus), map[], "")
  const DISCONNECT_EP := Endpoint("/integrations/{provider}/disconnect", One("POST", DisconnectIntegration), map[], "")
  const INVITATIONS_EP := Endpoint("/invitations", Two("GET", ListInvitations, "POST", CreateInvitation), ON_POST, JSON)
  const INVITATION_EP := Endpoint("/invitations/{invitationId}", One("DELETE", RevokeInvitation), map[], "")
  const ME_EP := Endpoint("/me", One("GET", GetMe), map[], "")
  const MEMBERS_EP := Endpoint("/members", One("GET", ListMembers), map[], "")
  const ROLE_EP := Endpoint("/members/{membershipId}/role", One("PUT", UpdateMemberRole), ON_PUT, "")
  const AVATAR_EP := Endpoint("/organization/avatar",
    Two("DELETE", DeleteOrganizationAvatar, "PUT", UploadOrganizationAvatar), ON_PUT, "")
  const REGENERATE_EP := Endpoint("/organization/avatar/regenerate",
    One("POST", RegenerateOrganizationAvatar), map[], "")
  const PROFILE_EP := Endpoint("/organization/profile",
    Two("GET", GetOrganizationProfile, "PUT", UpdateOrganizationProfile), ON_PUT, "")
  const ORGANIZATIONS_EP := Endpoint("/organizations", One("POST", CreateOrganization), ON_POST, JSON)
  const PING_EP := Endpoint("/ping", One("GET", Ping), map[], "")
  const CHAT_EP := Endpoint("/support/chat", One("GET", GetSupportChat), map[], "")

  type Trie = Node<Endpoint>
  type Tries = List<Trie>

  function Leaf(prefix: string, e: Endpoint): Trie { Node(prefix, Some(e), Nil, NoParam, false) }

  const BILLING: Trie := Node("billing", Some(BILLING_EP), Cons(BILLING_SLASH, Nil), NoParam, false)
  const BILLING_SLASH: Trie := Node("/", None,
    Cons(Leaf("checkout", CHECKOUT_EP), Cons(Leaf("oss-application", OSS_EP), Cons(Leaf("portal", PORTAL_EP), Nil))),
    NoParam, false)
  const TEST: Trie := Node("test", Some(TEST_EP), Nil, NoParam, true)
  const SETTINGS_SLASH: Trie := Node("/", None, Cons(TEST, Nil), Rest(SETTING_EP), false)
  const SETTINGS: Trie := Node("settings", Some(SETTINGS_EP), Cons(SETTINGS_SLASH, Nil), NoParam, false)
  const LINEAR: Trie := Node("linear/", None, Cons(SETTINGS, Cons(Leaf("webhooks", WEBHOOKS_EP), Nil)), NoParam, true)
  const S: Trie := Node("s", None,
    Cons(Leaf("ettings/sync", SYNC_EP), Cons(Leaf("lack/members", SLACK_EP), Cons(Leaf("tatus", STATUS_EP), Nil))),
    NoParam, true)
  const PROVIDER: Param<Endpoint> := Segment(Cons(Leaf("/disconnect", DISCONNECT_EP), Nil))
  const INTEGRATIONS: Trie := Node("tegrations/", None, Cons(LINEAR, Cons(S, Nil)), PROVIDER, false)
  const INVITATIONS_SLASH: Trie := Node("/", None, Nil, Rest(INVITATION_EP), false)
  const INVITATIONS: Trie := Node("vitations", Some(INVITATIONS_EP), Cons(INVITATIONS_SLASH, Nil), NoParam, false)
  const IN: Trie := Node("in", None, Cons(INTEGRATIONS, Cons(INVITATIONS, Nil)), NoParam, false)
  const MEMBERS_SLASH: Trie := Node("/", None, Nil, Segment(Cons(Leaf("/role", ROLE_EP), Nil)), false)
  const MEMBERS: Trie := Node("mbers", Some(MEMBERS_EP), Cons(MEMBERS_SLASH, Nil), NoParam, false)
  const ME: Trie := Node("me", Some(ME_EP), Cons(MEMBERS, Nil), NoParam, false)
  const AVATAR: Trie := Node("avatar", Some(AVATAR_EP), Cons(Leaf("/regenerate", REGENERATE_EP), Nil), NoParam, false)
  const ORGANIZATION_SLASH: Trie := Node("/", None,
    Cons(AVATAR, Cons(Leaf("profile", PROFILE_EP), Nil)), NoParam, false)
  const ORGANIZATION: Trie := Node("organization", None,
    Cons(ORGANIZATION_SLASH, Cons(Leaf("s", ORGANIZATIONS_EP), Nil)), NoParam, false)
  const PING: Trie := Leaf("ping", PING_EP)
  const CHAT: Trie := Leaf("support/chat", CHAT_EP)
  const ROOT: Trie := Node("/", None,
    Cons(BILLING, Cons(IN, Cons(ME, Cons(ORGANIZATION, Cons(PING, Cons(CHAT, Nil)))))), NoParam, false)

  function Static(path: string, e: Endpoint): Route<Endpoint> { Route(Lit(path, End), e) }

  const LATE_TABLE: List<Route<Endpoint>> :=
    Cons(Static("/me", ME_EP),
    Cons(Static("/members", MEMBERS_EP),
    Cons(Route(Lit("/members/", Hole(true, Lit("/role", End))), ROLE_EP),
    Cons(Static("/organization/avatar", AVATAR_EP),
    Cons(Static("/organization/avatar/regenerate", REGENERATE_EP),
    Cons(Static("/organization/profile", PROFILE_EP),
    Cons(Static("/organizations", ORGANIZATIONS_EP),
    Cons(Static("/ping", PING_EP),
    Cons(Static("/support/chat", CHAT_EP),
    Nil)))))))))

  const MID_TABLE: List<Route<Endpoint>> :=
    Cons(Static("/integrations/slack/members", SLACK_EP),
    Cons(Static("/integrations/status", STATUS_EP),
    Cons(Route(Lit("/integrations/", Hole(true, Lit("/disconnect", End))), DISCONNECT_EP),
    Cons(Static("/invitations", INVITATIONS_EP),
    Cons(Route(Lit("/invitations/", Hole(true, End)), INVITATION_EP),
    LATE_TABLE)))))

  const IN_TABLE: List<Route<Endpoint>> :=
    Cons(Static("/integrations/linear/settings", SETTINGS_EP),
    Cons(Static("/integrations/linear/settings/test", TEST_EP),
    Cons(Route(Lit("/integrations/linear/settings/", Hole(false, End)), SETTING_EP),
    Cons(Static("/integrations/linear/webhooks", WEBHOOKS_EP),
    Cons(Static("/integrations/settings/sync", SYNC_EP),
    MID_TABLE)))))

  /** Every path pattern of the API; only `/test` and `{settingId}` overlap, and `/test` comes first. */
  const TABLE: List<Route<Endpoint>> :=
    Cons(Static("/billing", BILLING_EP),
    Cons(Static("/billing/checkout", CHECKOUT_EP),
    Cons(Static("/billing/oss-application", OSS_EP),
    Cons(Static("/billing/portal", PORTAL_EP),
    IN_TABLE))))
}
