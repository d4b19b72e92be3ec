/** The trie of the API is well formed and flattens to the table, so the router's search answers like
    the table. */
module FlatTable {
  import opened Wrappers
  import opened RouteTrie
  import opened RouteTable

  // ---------------------------------------------------------------- the trie is well formed

  lemma SimpleNodesWellFormed()
    ensures WellFormed(BILLING) && WellFormed(INVITATIONS) && WellFormed(ME) && WellFormed(ORGANIZATION)
  {
  }

  lemma IntegrationKidsWellFormed()
    ensures WellFormed(LINEAR) && WellFormed(S)
  {
  }

  /** On the two cursors that the children of `tegrations/` fail to put back, and on an empty one,
      `{provider}/disconnect` could not have matched. */
  lemma ProviderMisses()
    ensures WalkParam(PROVIDER, "").Fell? && WalkParam(PROVIDER, "linear/").Fell? && WalkParam(PROVIDER, "s").Fell?
  {
    SlashIndexOf("linear", "/");
    assert "linear" + "/" == "linear/";
    assert "linear/"[6..] == "/";
    SlashIndexOf("s", "");
    assert "s" + "" == "s";
  }

  lemma IntegrationsWellFormed()
    ensures WellFormed(INTEGRATIONS)
  {
    IntegrationKidsWellFormed();
    ProviderMisses();
    assert KidsReturnCursor(INTEGRATIONS.kids, PROVIDER);
    assert WellFormedKids(INTEGRATIONS.kids) && WellFormedParam(PROVIDER);
  }

  lemma InWellFormed()
    ensures WellFormed(IN)
  {
    IntegrationsWellFormed();
    SimpleNodesWellFormed();
  }

  lemma LateKidsWellFormed()
    ensures WellFormedKids(ROOT.kids.tail.tail)
  {
    SimpleNodesWellFormed();
  }

  lemma MidKidsWellFormed()
    ensures WellFormedKids(ROOT.kids.tail)
  {
    LateKidsWellFormed();
    InWellFormed();
  }

  lemma RootKidsWellFormed()
    ensures WellFormedKids(ROOT.kids)
  {
    SimpleNodesWellFormed();
    MidKidsWellFormed();
  }

  lemma RootWellFormed()
    ensures WellFormed(ROOT)
  {
    RootKidsWellFormed();
  }

  // ---------------------------------------------------------------- the trie flattens to the table

  lemma BillingTexts()
    ensures "/" + "billing" == "/billing"
    ensures "/billing" + "/" == "/billing/"
    ensures "/billing/" + "checkout" == "/billing/checkout"
    ensures "/billing/" + "oss-application" == "/billing/oss-application"
    ensures "/billing/" + "portal" == "/billing/portal"
  {
  }

  lemma BillingRows()
    ensures Routes("/", BILLING) ==
      Cons(Static("/billing", BILLING_EP),
      Cons(Static("/billing/checkout", CHECKOUT_EP),
      Cons(Static("/billing/oss-application", OSS_EP),
      Cons(Static("/billing/portal", PORTAL_EP),
      Nil))))
  {
    BillingTexts();
  }

  lemma LinearRows()
    ensures Routes("/integrations/", LINEAR) ==
      Cons(Static("/integrations/linear/settings", SETTINGS_EP),
      Cons(Static("/integrations/linear/settings/test", TEST_EP),
      Cons(Route(Lit("/integrations/linear/settings/", Hole(false, End)), SETTING_EP),
      Cons(Static("/integrations/linear/webhooks", WEBHOOKS_EP),
      Nil))))
  {
    assert "/integrations/" + "linear/" == "/integrations/linear/";
    assert "/integrations/linear/" + "settings" == "/integrations/linear/settings";
    assert "/integrations/linear/settings" + "/" == "/integrations/linear/settings/";
    assert "/integrations/linear/settings/" + "test" == "/integrations/linear/settings/test";
    assert "/integrations/linear/" + "webhooks" == "/integrations/linear/webhooks";
  }

  lemma STexts()
    ensures "/integrations/" + "s" == "/integrations/s"
    ensures "/integrations/s" + "ettings/sync" == "/integrations/settings/sync"
    ensures "/integrations/s" + "lack/members" == "/integrations/slack/members"
    ensures "/integrations/s" + "tatus" == "/integrations/status"
  {
  }

  lemma SRows()
    ensures Routes("/integrations/", S) ==
      Cons(Static("/integrations/settings/sync", SYNC_EP),
      Cons(Static("/integrations/slack/members", SLACK_EP),
      Cons(Static("/integrations/status", STATUS_EP),
      Nil)))
  {
    STexts();
  }

  lemma ProviderRows()
    ensures ParamRoutes("/integrations/", PROVIDER, false) ==
      Cons(Route(Lit("/integrations/", Hole(true, Lit("/disconnect", End))), DISCONNECT_EP),
      Nil)
  {
    assert "" + "/disconnect" == "/disconnect";
  }

  lemma InvitationsRows()
    ensures Routes("/in", INVITATIONS) ==
      Cons(Static("/invitations", INVITATIONS_EP),
      Cons(Route(Lit("/invitations/", Hole(true, End)), INVITATION_EP),
      Nil))
  {
    assert "/in" + "vitations" == "/invitations";
    assert "/invitations" + "/" == "/invitations/";
  }

  lemma MeRows()
    ensures Routes("/", ME) ==
      Cons(Static("/me", ME_EP),
      Cons(Static("/members", MEMBERS_EP),
      Cons(Route(Lit("/members/", Hole(true, Lit("/role", End))), ROLE_EP),
      Nil)))
  {
    assert "/" + "me" == "/me";
    assert "/me" + "mbers" == "/members";
    assert "/members" + "/" == "/members/";
    assert "" + "/role" == "/role";
  }

  lemma OrganizationTexts()
    ensures "/" + "organization" == "/organization"
    ensures "/organization" + "/" == "/organization/"
    ensures "/organization/" + "avatar" == "/organization/avatar"
    ensures "/organization/avatar" + "/regenerate" == "/organization/avatar/regenerate"
    ensures "/organization/" + "profile" == "/organization/profile"
    ensures "/organization" + "s" == "/organizations"
  {
  }

  lemma OrganizationRows()
    ensures Routes("/", ORGANIZATION) ==
      Cons(Static("/organization/avatar", AVATAR_EP),
      Cons(Static("/organization/avatar/regenerate", REGENERATE_EP),
      Cons(Static("/organization/profile", PROFILE_EP),
      Cons(Static("/organizations", ORGANIZATIONS_EP),
      Nil))))
  {
    OrganizationTexts();
    assert Routes("/organization/", AVATAR) ==
      Cons(Static("/organization/avatar", AVATAR_EP),
      Cons(Static("/organization/avatar/regenerate", REGENERATE_EP),
      Nil));
  }

  lemma PingRows()
    ensures Routes("/", PING) ==
      Cons(Static("/ping", PING_EP),
      Nil)
  {
    assert "/" + "ping" == "/ping";
  }

  lemma ChatRows()
    ensures Routes("/", CHAT) ==
      Cons(Static("/support/chat", CHAT_EP),
      Nil)
  {
    assert "/" + "support/chat" == "/support/chat";
  }

  lemma AppendNil<T>(a: List<T>)
    ensures Append(a, Nil) == a
  {
  }

  lemma AppendAssoc<T>(a: List<T>, b: List<T>, c: List<T>)
    ensures Append(Append(a, b), c) == Append(a, Append(b, c))
  {
  }

  lemma IntegrationsRows()
    ensures Routes("/in", INTEGRATIONS) ==
      Append(Routes("/integrations/", LINEAR),
        Append(Routes("/integrations/", S), ParamRoutes("/integrations/", PROVIDER, false)))
  {
    assert "/in" + "tegrations/" == "/integrations/";
    var l, s := Routes("/integrations/", LINEAR), Routes("/integrations/", S);
    var p := ParamRoutes("/integrations/", PROVIDER, false);
    AppendNil(s);
    AppendAssoc(l, s, p);
  }

  lemma InRows()
    ensures Routes("/", IN) ==
      Append(Routes("/integrations/", LINEAR), Append(Routes("/integrations/", S),
      Append(ParamRoutes("/integrations/", PROVIDER, false), Routes("/in", INVITATIONS))))
  {
    assert "/" + "in" == "/in";
    var l, s, p, v := Routes("/integrations/", LINEAR), Routes("/integrations/", S),
      ParamRoutes("/integrations/", PROVIDER, false), Routes("/in", INVITATIONS);
    IntegrationsRows();
    AppendNil(v);
    AppendNil(KidRoutes("/in", IN.kids));
    AppendAssoc(l, Append(s, p), v);
    AppendAssoc(s, p, v);
  }

  lemma LateRows()
    ensures KidRoutes("/", ROOT.kids.tail.tail) == LATE_TABLE
  {
    AppendNil(Routes("/", CHAT));
    MeRows();
    OrganizationRows();
    PingRows();
    ChatRows();
  }

  lemma InTable()
    ensures KidRoutes("/", ROOT.kids.tail) == IN_TABLE
  {
    LateRows();
    InRows();
    var l, s, p, v := Routes("/integrations/", LINEAR), Routes("/integrations/", S),
      ParamRoutes("/integrations/", PROVIDER, false), Routes("/in", INVITATIONS);
    AppendAssoc(l, Append(s, Append(p, v)), LATE_TABLE);
    AppendAssoc(s, Append(p, v), LATE_TABLE);
    AppendAssoc(p, v, LATE_TABLE);
    LinearRows();
    SRows();
    ProviderRows();
    InvitationsRows();
  }

  /** The flat routes of the whole trie are the table. */
  lemma RootRows()
    ensures Routes("", ROOT) == TABLE
  {
    assert "" + "/" == "/";
    AppendNil(KidRoutes("/", ROOT.kids));
    BillingRows();
    InTable();
  }

  /** The router's search over the trie answers like the first matching row of the table. */
  lemma SearchIsTable(elem: string)
    ensures Answers(WalkKids(Cons(ROOT, Nil), elem), FirstMatch(TABLE, elem))
  {
    RootWellFormed();
    RootRows();
    WalkIsFirstMatch("", ROOT, elem);
    assert "" + elem == elem;
    if elem == "" || elem[0] != '/' {
      assert "" + ROOT.prefix == "/" && "/"[0] == '/';
      NodeMisses("", ROOT, elem);
    }
  }

  // ---------------------------------------------------------------- the root's switch

  lemma SwitchCons(k: Trie, others: Tries, elem: string, c: char)
    requires StartsWith(k.prefix, c)
    ensures WalkKids(Cons(k, others), elem) ==
      if elem != "" && elem[0] == c then Walk(k, elem) else WalkKids(others, elem)
  {
  }

  /** The six arms under the leading slash. */
  lemma RootSwitch(elem: string)
    requires elem != ""
    ensures WalkKids(ROOT.kids, elem) ==
      match elem[0]
      case 'b' => Walk(BILLING, elem)
      case 'i' => Walk(IN, elem)
      case 'm' => Walk(ME, elem)
      case 'o' => Walk(ORGANIZATION, elem)
      case 'p' => Walk(PING, elem)
      case 's' => Walk(CHAT, elem)
      case _ => Fell(elem)
  {
    var s: Tries := Cons(CHAT, Nil);
    var o := Cons(ORGANIZATION, Cons(PING, s));
    SwitchCons(CHAT, Nil, elem, 's');
    SwitchCons(PING, s, elem, 'p');
    SwitchCons(ORGANIZATION, Cons(PING, s), elem, 'o');
    SwitchCons(ME, o, elem, 'm');
    SwitchCons(IN, Cons(ME, o), elem, 'i');
    SwitchCons(BILLING, Cons(IN, Cons(ME, o)), elem, 'b');
  }
}
