/** The five client calls with a path parameter, and the table row each of their paths reaches. */
module ClientCalls {
  import opened Wrappers
  import opened RouteTrie
  import opened RouteTable
  import opened FlatTable

  /** An operation with one path parameter: the path is `before + parameter + after`. */
  datatype Call = Call(op: Operation, verb: string, before: string, after: string, endpoint: Endpoint)

  const UPDATE_SETTING: Call :=
    Call(UpdateLinearSettings, "PUT", "/integrations/linear/settings/", "", SETTING_EP)
  const DELETE_SETTING: Call :=
    Call(DeleteLinearSettings, "DELETE", "/integrations/linear/settings/", "", SETTING_EP)
  const DISCONNECT: Call := Call(DisconnectIntegration, "POST", "/integrations/", "/disconnect", DISCONNECT_EP)
  const REVOKE: Call := Call(RevokeInvitation, "DELETE", "/invitations/", "", INVITATION_EP)
  const UPDATE_ROLE: Call := Call(UpdateMemberRole, "PUT", "/members/", "/role", ROLE_EP)

  const CALLS: seq<Call> := [UPDATE_SETTING, DELETE_SETTING, DISCONNECT, REVOKE, UPDATE_ROLE]

  /** A node whose text is at the cursor passes the rest on to its children, or to its parameter. */
  lemma Step(n: Trie, rest: string)
    requires rest != ""
    ensures var below := WalkKids(n.kids, rest);
      (below.Hit? ==> Walk(n, n.prefix + rest) == below) &&
      (below == Fell(rest) && WalkParam(n.param, rest).Hit? ==> Walk(n, n.prefix + rest) == WalkParam(n.param, rest))
  {
    assert (n.prefix + rest)[|n.prefix|..] == rest;
  }

  lemma Regroup(a: string, b: string, c: string, d: string, x: string)
    ensures a + b + c + d + x == a + (b + (c + (d + x)))
  {
  }

  /** A search that succeeds below the leading slash is the table's answer. */
  lemma FromRoot(elem: string)
    requires elem != "" && WalkKids(ROOT.kids, elem).Hit?
    ensures var w := WalkKids(ROOT.kids, elem); FirstMatch(TABLE, "/" + elem) == Some((w.endpoint, w.args))
  {
    Step(ROOT, elem);
    SearchIsTable("/" + elem);
    assert ("/" + elem)[0] == '/';
    assert WalkKids(Cons(ROOT, Nil), "/" + elem) == Walk(ROOT, "/" + elem);
  }

  lemma FromIn(rest: string)
    requires Walk(IN, "in" + rest).Hit?
    ensures var w := Walk(IN, "in" + rest); FirstMatch(TABLE, "/" + ("in" + rest)) == Some((w.endpoint, w.args))
  {
    assert ("in" + rest)[0] == 'i';
    RootSwitch("in" + rest);
    FromRoot("in" + rest);
  }

  lemma FromMe(rest: string)
    requires Walk(ME, "me" + rest).Hit?
    ensures var w := Walk(ME, "me" + rest); FirstMatch(TABLE, "/" + ("me" + rest)) == Some((w.endpoint, w.args))
  {
    assert ("me" + rest)[0] == 'm';
    RootSwitch("me" + rest);
    FromRoot("me" + rest);
  }

  lemma MembersText(tail: string)
    ensures "/" + ("me" + ("mbers" + ("/" + tail))) == "/members/" + tail
  {
    Regroup("/", "me", "mbers", "/", tail);
    assert "/" + "me" + "mbers" + "/" == "/members/";
  }

  lemma InvitationsText(id: string)
    ensures "/" + ("in" + ("vitations" + ("/" + id))) == "/invitations/" + id
  {
    Regroup("/", "in", "vitations", "/", id);
    assert "/" + "in" + "vitations" + "/" == "/invitations/";
  }

  lemma RoleRoute(id: string)
    requires '/' !in id
    ensures FirstMatch(TABLE, "/members/" + (id + "/role")) == Some((ROLE_EP, [id]))
  {
    var tail := id + "/role";
    MeWalk(id, tail);
    FromMe("mbers" + ("/" + tail));
    MembersText(tail);
  }

  lemma MeWalk(id: string, tail: string)
    requires '/' !in id && tail == id + "/role"
    ensures Walk(ME, "me" + ("mbers" + ("/" + tail))) == Hit(ROLE_EP, [id])
  {
    RoleWalk(id, tail);
    Step(MEMBERS, "/" + tail);
    Step(ME, "mbers" + ("/" + tail));
  }

  lemma RoleWalk(id: string, tail: string)
    requires '/' !in id && tail == id + "/role"
    ensures Walk(MEMBERS_SLASH, "/" + tail) == Hit(ROLE_EP, [id])
  {
    SlashIndexOf(id, "/role");
    assert tail[..|id|] == id && tail[|id|..] == "/role";
    assert [id] + [] == [id];
    assert WalkParam(MEMBERS_SLASH.param, tail) == Hit(ROLE_EP, [id]);
    Step(MEMBERS_SLASH, tail);
  }

  lemma InvitationRoute(id: string)
    requires '/' !in id
    ensures FirstMatch(TABLE, "/invitations/" + id) == Some((INVITATION_EP, [id]))
  {
    InWalk(id);
    FromIn("vitations" + ("/" + id));
    InvitationsText(id);
  }

  lemma InWalk(id: string)
    requires '/' !in id
    ensures Walk(IN, "in" + ("vitations" + ("/" + id))) == Hit(INVITATION_EP, [id])
  {
    Step(INVITATIONS, "/" + id);
    Step(IN, "vitations" + ("/" + id));
  }

  // ---------------------------------------------------------------- below /integrations/

  lemma FromIntegrations(rest: string)
    requires Walk(INTEGRATIONS, "tegrations/" + rest).Hit?
    ensures var w := Walk(INTEGRATIONS, "tegrations/" + rest);
      FirstMatch(TABLE, "/integrations/" + rest) == Some((w.endpoint, w.args))
  {
    FromIn("tegrations/" + rest);
    IntegrationsText(rest);
  }

  lemma IntegrationsText(rest: string)
    ensures "/" + ("in" + ("tegrations/" + rest)) == "/integrations/" + rest
  {
    Regroup("/", "in", "tegrations/", "", rest);
    assert "/" + "in" + "tegrations/" + "" == "/integrations/";
    assert "" + rest == rest;
  }

  /** The setting routes: the static `test` comes before `{settingId}`. */
  lemma SettingRoute(id: string)
    requires '/' !in id && id != ""
    ensures FirstMatch(TABLE, "/integrations/linear/settings/" + id)
         == if id == "test" then Some((TEST_EP, [])) else Some((SETTING_EP, [id]))
  {
    SettingArm(id);
    FromIntegrations("linear/" + ("settings" + ("/" + id)));
    SettingText(id);
  }

  lemma SettingText(id: string)
    ensures "/integrations/" + ("linear/" + ("settings" + ("/" + id))) == "/integrations/linear/settings/" + id
  {
    Regroup("/integrations/", "linear/", "settings", "/", id);
    assert "/integrations/" + "linear/" + "settings" + "/" == "/integrations/linear/settings/";
  }

  lemma SettingArm(id: string)
    requires '/' !in id && id != ""
    ensures Walk(INTEGRATIONS, "tegrations/" + ("linear/" + ("settings" + ("/" + id))))
         == if id == "test" then Hit(TEST_EP, []) else Hit(SETTING_EP, [id])
  {
    SettingWalk(id);
    Step(INTEGRATIONS, "linear/" + ("settings" + ("/" + id)));
  }

  lemma SettingWalk(id: string)
    requires '/' !in id && id != ""
    ensures Walk(LINEAR, "linear/" + ("settings" + ("/" + id)))
         == if id == "test" then Hit(TEST_EP, []) else Hit(SETTING_EP, [id])
  {
    SettingsSlashWalk(id);
    SettingsWalk(id);
    Step(LINEAR, "settings" + ("/" + id));
  }

  lemma SettingsSlashWalk(id: string)
    requires '/' !in id && id != ""
    ensures Walk(SETTINGS_SLASH, "/" + id) == if id == "test" then Hit(TEST_EP, []) else Hit(SETTING_EP, [id])
  {
    assert ("/" + id)[1..] == id;
  }

  lemma SettingsWalk(id: string)
    requires Walk(SETTINGS_SLASH, "/" + id).Hit?
    ensures Walk(SETTINGS, "settings" + ("/" + id)) == Walk(SETTINGS_SLASH, "/" + id)
  {
    assert WalkKids(SETTINGS.kids, "/" + id) == Walk(SETTINGS_SLASH, "/" + id);
    Step(SETTINGS, "/" + id);
  }

  lemma DisconnectRoute(id: string)
    requires '/' !in id
    ensures FirstMatch(TABLE, "/integrations/" + (id + "/disconnect")) == Some((DISCONNECT_EP, [id]))
  {
    DisconnectArm(id, id + "/disconnect");
    FromIntegrations(id + "/disconnect");
  }

  lemma DisconnectArm(id: string, rest: string)
    requires '/' !in id && rest == id + "/disconnect"
    ensures Walk(INTEGRATIONS, "tegrations/" + rest) == Hit(DISCONNECT_EP, [id])
  {
    ProviderWalk(id, rest);
    LinearLeavesProvider(id, rest);
    SLeavesProvider(id, rest);
    Step(INTEGRATIONS, rest);
  }

  lemma ProviderWalk(id: string, rest: string)
    requires '/' !in id && rest == id + "/disconnect"
    ensures WalkParam(PROVIDER, rest) == Hit(DISCONNECT_EP, [id])
  {
    SlashIndexOf(id, "/disconnect");
    assert rest[..|id|] == id && rest[|id|..] == "/disconnect";
    assert [id] + [] == [id];
  }

  lemma LinearLeavesProvider(id: string, rest: string)
    requires '/' !in id && rest == id + "/disconnect"
    ensures Walk(LINEAR, rest) == Fell(rest)
  {
    if "linear/" <= rest {
      FirstSlash(id, "/disconnect", "linear", "/");
      assert rest[7..] == "disconnect";
    }
  }

  lemma SLeavesProvider(id: string, rest: string)
    requires '/' !in id && rest == id + "/disconnect"
    ensures Walk(S, rest) == Fell(rest)
  {
    if "s" <= rest {
      assert rest[0] == 's' && (id == "" ==> rest == "/disconnect");
      assert rest[1..] == id[1..] + "/disconnect";
      SKidsMiss(id[1..], rest[1..]);
      assert rest[1..] != "";
    }
  }

  lemma SKidsMiss(id: string, rest: string)
    requires '/' !in id && rest == id + "/disconnect"
    ensures WalkKids(S.kids, rest).Fell?
  {
    if "ettings/sync" <= rest {
      assert "ettings" + "/sync" == "ettings/sync";
      FirstSlash(id, "/disconnect", "ettings", "/sync");
    }
    if "lack/members" <= rest {
      assert "lack" + "/members" == "lack/members";
      FirstSlash(id, "/disconnect", "lack", "/members");
    }
    assert rest != "tatus" by { assert rest[|id|] == '/'; }
  }

  /** Two texts with the same beginning and a first slash each have it in the same place. */
  lemma FirstSlash(id: string, tail: string, name: string, lit: string)
    requires '/' !in id && '/' !in name
    requires tail != "" && tail[0] == '/' && lit != "" && lit[0] == '/'
    requires name + lit <= id + tail
    ensures id == name && lit <= tail
  {
    var s := id + tail;
    var more := s[|name + lit|..];
    assert s == name + (lit + more);
    SlashIndexOf(id, tail);
    SlashIndexOf(name, lit + more);
    assert s[..|id|] == id && s[..|name|] == name;
    assert tail == s[|id|..] == lit + more;
  }
}
