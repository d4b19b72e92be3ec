/** `FindPath`: the second unrolled copy of the search. It refuses on a method mismatch where
    `ServeHTTP` answers "not allowed", and unescapes the arguments on the way out. */
module FindPath {
  import opened Wrappers
  import opened RouteTrie
  import opened RouteTable
  import opened RouteReply
  import opened FlatTable

  /** `done` is set when the search returned, with or without a route. */
  ghost predicate Settles(done: bool, out: Option<Found>, elem: string, w: Walked<Endpoint>, verb: string) {
    match w
    case Hit(e, args) => done && out == Lookup(e, args, verb)
    case Fell(left) => !done && out == None && elem == left
  }

  method FindBillingSlash(cursor: string, verb: string) returns (done: bool, out: Option<Found>, elem: string)
    ensures Settles(done, out, elem, Walk(BILLING_SLASH, cursor), verb)
  {
    done, out, elem := false, None, cursor;
    if "/" <= elem {
      elem := elem[1..];
      if elem != "" {
        if elem[0] == 'c' { // checkout
          if "checkout" <= elem {
            elem := elem[8..];
            if elem == "" {
              LookupOne(CHECKOUT_EP, [], verb);
              out := if verb == "POST" then Some(Found(CreateBillingCheckout, "/billing/checkout", []))
                     else None;
              return true, out, elem;
            }
          }
        } else if elem[0] == 'o' { // oss-application
          if "oss-application" <= elem {
            elem := elem[15..];
            if elem == "" {
              LookupOne(OSS_EP, [], verb);
              out := if verb == "POST" then Some(Found(SubmitOssApplication, "/billing/oss-application", []))
                     else None;
              return true, out, elem;
            }
          }
        } else if elem[0] == 'p' { // portal
          if "portal" <= elem {
            elem := elem[6..];
            if elem == "" {
              LookupOne(PORTAL_EP, [], verb);
              out := if verb == "POST" then Some(Found(CreateBillingPortal, "/billing/portal", []))
                     else None;
              return true, out, elem;
            }
          }
        }
      }
    }
  }

  method FindBilling(cursor: string, verb: string) returns (done: bool, out: Option<Found>, elem: string)
    ensures Settles(done, out, elem, Walk(BILLING, cursor), verb)
  {
    done, out, elem := false, None, cursor;
    if "billing" <= elem {
      elem := elem[7..];
      if elem == "" {
        LookupOne(BILLING_EP, [], verb);
        out := if verb == "GET" then Some(Found(GetBilling, "/billing", []))
               else None;
        return true, out, elem;
      }
      if elem[0] == '/' { // /
        done, out, elem := FindBillingSlash(elem, verb);
        if done { return; }
      }
    }
  }

  method FindSettingsSlash(cursor: string, verb: string) returns (done: bool, out: Option<Found>, elem: string)
    ensures Settles(done, out, elem, Walk(SETTINGS_SLASH, cursor), verb)
  {
    done, out, elem := false, None, cursor;
    if "/" <= elem {
      elem := elem[1..];
      if elem != "" {
        if elem[0] == 't' { // test
          var origElem := elem;
          if "test" <= elem {
            elem := elem[4..];
            if elem == "" {
              LookupOne(TEST_EP, [], verb);
              out := if verb == "POST" then Some(Found(TestLinearTemplate, "/integrations/linear/settings/test", []))
                     else None;
              return true, out, elem;
            }
            elem := origElem;
          }
        }
        if '/' !in elem {
          var arg := elem;
          elem := "";
          LookupTwo(SETTING_EP, [arg], verb);
          var pattern := "/integrations/linear/settings/{settingId}";
          out := if verb == "DELETE" then Some(Found(DeleteLinearSettings, pattern, [arg]))
                 else if verb == "PUT" then Some(Found(UpdateLinearSettings, pattern, [arg]))
                 else None;
          return true, out, elem;
        }
      }
    }
  }

  method FindSettings(cursor: string, verb: string) returns (done: bool, out: Option<Found>, elem: string)
    ensures Settles(done, out, elem, Walk(SETTINGS, cursor), verb)
  {
    done, out, elem := false, None, cursor;
    if "settings" <= elem {
      elem := elem[8..];
      if elem == "" {
        LookupTwo(SETTINGS_EP, [], verb);
        out := if verb == "GET" then Some(Found(GetLinearSettings, "/integrations/linear/settings", []))
               else if verb == "POST" then Some(Found(CreateLinearSettings, "/integrations/linear/settings", []))
               else None;
        return true, out, elem;
      }
      if elem[0] == '/' { // /
        done, out, elem := FindSettingsSlash(elem, verb);
        if done { return; }
      }
    }
  }

  method FindLinear(cursor: string, verb: string) returns (done: bool, out: Option<Found>, elem: string)
    ensures Settles(done, out, elem, Walk(LINEAR, cursor), verb)
  {
    done, out, elem := false, None, cursor;
    var origElem := elem;
    if "linear/" <= elem {
      elem := elem[7..];
      if elem != "" {
        if elem[0] == 's' { // settings
          done, out, elem := FindSettings(elem, verb);
          if done { return; }
        } else if elem[0] == 'w' { // webhooks
          if "webhooks" <= elem {
            elem := elem[8..];
            if elem == "" {
              LookupOne(WEBHOOKS_EP, [], verb);
              out := if verb == "GET" then Some(Found(ListLinearWebhooks, "/integrations/linear/webhooks", []))
                     else None;
              return true, out, elem;
            }
          }
        }
        elem := origElem;
      }
    }
  }

  method FindS(cursor: string, verb: string) returns (done: bool, out: Option<Found>, elem: string)
    ensures Settles(done, out, elem, Walk(S, cursor), verb)
  {
    done, out, elem := false, None, cursor;
    var origElem := elem;
    if "s" <= elem {
      elem := elem[1..];
      if elem != "" {
        if elem[0] == 'e' { // ettings/sync
          if "ettings/sync" <= elem {
            elem := elem[12..];
            if elem == "" {
              LookupOne(SYNC_EP, [], verb);
              out := if verb == "POST" then Some(Found(SyncSettings, "/integrations/settings/sync", []))
                     else None;
              return true, out, elem;
            }
          }
        } else if elem[0] == 'l' { // lack/members
          if "lack/members" <= elem {
            elem := elem[12..];
            if elem == "" {
              LookupOne(SLACK_EP, [], verb);
              out := if verb == "GET" then Some(Found(ListSlackMembers, "/integrations/slack/members", []))
                     else None;
              return true, out, elem;
            }
          }
        } else if elem[0] == 't' { // tatus
          if "tatus" <= elem {
            elem := elem[5..];
            if elem == "" {
              LookupOne(STATUS_EP, [], verb);
              out := if verb == "GET" then Some(Found(GetIntegrationStatus, "/integrations/status", []))
                     else None;
              return true, out, elem;
            }
          }
        }
        elem := origElem;
      }
    }
  }

  method FindProvider(cursor: string, verb: string) returns (done: bool, out: Option<Found>, elem: string)
    ensures Settles(done, out, elem, WalkParam(PROVIDER, cursor), verb)
  {
    done, out, elem := false, None, cursor;
    var idx := SlashIndex(elem);
    var arg := elem[..idx];
    elem := elem[idx..];
    if elem != "" {
      assert [arg] + [] == [arg];
      if elem[0] == '/' { // /disconnect
        if "/disconnect" <= elem {
          elem := elem[11..];
          if elem == "" {
            LookupOne(DISCONNECT_EP, [arg], verb);
            out := if verb == "POST"
                   then Some(Found(DisconnectIntegration, "/integrations/{provider}/disconnect", [arg]))
                   else None;
            return true, out, elem;
          }
        }
      }
    }
  }

  method FindIntegrations(cursor: string, verb: string) returns (done: bool, out: Option<Found>, elem: string)
    ensures Settles(done, out, elem, Walk(INTEGRATIONS, cursor), verb)
  {
    done, out, elem := false, None, cursor;
    if "tegrations/" <= elem {
      elem := elem[11..];
      if elem != "" {
        if elem[0] == 'l' { // linear/
          done, out, elem := FindLinear(elem, verb);
          if done { return; }
        } else if elem[0] == 's' { // s
          done, out, elem := FindS(elem, verb);
          if done { return; }
        }
        done, out, elem := FindProvider(elem, verb);
      }
    }
  }

  method FindInvitations(cursor: string, verb: string) returns (done: bool, out: Option<Found>, elem: string)
    ensures Settles(done, out, elem, Walk(INVITATIONS, cursor), verb)
  {
    done, out, elem := false, None, cursor;
    if "vitations" <= elem {
      elem := elem[9..];
      if elem == "" {
        LookupTwo(INVITATIONS_EP, [], verb);
        out := if verb == "GET" then Some(Found(ListInvitations, "/invitations", []))
               else if verb == "POST" then Some(Found(CreateInvitation, "/invitations", []))
               else None;
        return true, out, elem;
      }
      if elem[0] == '/' { // /
        if "/" <= elem {
          elem := elem[1..];
          if '/' !in elem {
            var arg := elem;
            elem := "";
            LookupOne(INVITATION_EP, [arg], verb);
            out := if verb == "DELETE" then Some(Found(RevokeInvitation, "/invitations/{invitationId}", [arg]))
                   else None;
            return true, out, elem;
          }
        }
      }
    }
  }

  method FindIn(cursor: string, verb: string) returns (done: bool, out: Option<Found>, elem: string)
    ensures Settles(done, out, elem, Walk(IN, cursor), verb)
  {
    done, out, elem := false, None, cursor;
    if "in" <= elem {
      elem := elem[2..];
      if elem != "" {
        if elem[0] == 't' { // tegrations/
          done, out, elem := FindIntegrations(elem, verb);
          if done { return; }
        } else if elem[0] == 'v' { // vitations
          done, out, elem := FindInvitations(elem, verb);
          if done { return; }
        }
      }
    }
  }

  method FindMembersSlash(cursor: string, verb: string) returns (done: bool, out: Option<Found>, elem: string)
    ensures Settles(done, out, elem, Walk(MEMBERS_SLASH, cursor), verb)
  {
    done, out, elem := false, None, cursor;
    if "/" <= elem {
      elem := elem[1..];
      var idx := SlashIndex(elem);
      var arg := elem[..idx];
      elem := elem[idx..];
      if elem != "" {
        assert [arg] + [] == [arg];
        if elem[0] == '/' { // /role
          if "/role" <= elem {
            elem := elem[5..];
            if elem == "" {
              LookupOne(ROLE_EP, [arg], verb);
              out := if verb == "PUT" then Some(Found(UpdateMemberRole, "/members/{membershipId}/role", [arg]))
                     else None;
              return true, out, elem;
            }
          }
        }
      }
    }
  }

  method FindMembers(cursor: string, verb: string) returns (done: bool, out: Option<Found>, elem: string)
    ensures Settles(done, out, elem, Walk(MEMBERS, cursor), verb)
  {
    done, out, elem := false, None, cursor;
    if "mbers" <= elem {
      elem := elem[5..];
      if elem == "" {
        LookupOne(MEMBERS_EP, [], verb);
        out := if verb == "GET" then Some(Found(ListMembers, "/members", []))
               else None;
        return true, out, elem;
      }
      if elem[0] == '/' { // /
        done, out, elem := FindMembersSlash(elem, verb);
        if done { return; }
      }
    }
  }

  method FindMe(cursor: string, verb: string) returns (done: bool, out: Option<Found>, elem: string)
    ensures Settles(done, out, elem, Walk(ME, cursor), verb)
  {
    done, out, elem := false, None, cursor;
    if "me" <= elem {
      elem := elem[2..];
      if elem == "" {
        LookupOne(ME_EP, [], verb);
        out := if verb == "GET" then Some(Found(GetMe, "/me", []))
               else None;
        return true, out, elem;
      }
      if elem[0] == 'm' { // mbers
        done, out, elem := FindMembers(elem, verb);
        if done { return; }
      }
    }
  }

  method FindOrganizationSlash(cursor: string, verb: string) returns (done: bool, out: Option<Found>, elem: string)
    ensures Settles(done, out, elem, Walk(ORGANIZATION_SLASH, cursor), verb)
  {
    done, out, elem := false, None, cursor;
    if "/" <= elem {
      elem := elem[1..];
      if elem != "" {
        if elem[0] == 'a' { // avatar
          if "avatar" <= elem {
            elem := elem[6..];
            if elem == "" {
              LookupTwo(AVATAR_EP, [], verb);
              out := if verb == "DELETE" then Some(Found(DeleteOrganizationAvatar, "/organization/avatar", []))
                     else if verb == "PUT" then Some(Found(UploadOrganizationAvatar, "/organization/avatar", []))
                     else None;
              return true, out, elem;
            }
            if elem[0] == '/' { // /regenerate
              if "/regenerate" <= elem {
                elem := elem[11..];
                if elem == "" {
                  LookupOne(REGENERATE_EP, [], verb);
                  out := if verb == "POST"
                         then Some(Found(RegenerateOrganizationAvatar, "/organization/avatar/regenerate", []))
                         else None;
                  return true, out, elem;
                }
              }
            }
          }
        } else if elem[0] == 'p' { // profile
          if "profile" <= elem {
            elem := elem[7..];
            if elem == "" {
              LookupTwo(PROFILE_EP, [], verb);
              out := if verb == "GET" then Some(Found(GetOrganizationProfile, "/organization/profile", []))
                     else if verb == "PUT" then Some(Found(UpdateOrganizationProfile, "/organization/profile", []))
                     else None;
              return true, out, elem;
            }
          }
        }
      }
    }
  }

  method FindOrganization(cursor: string, verb: string) returns (done: bool, out: Option<Found>, elem: string)
    ensures Settles(done, out, elem, Walk(ORGANIZATION, cursor), verb)
  {
    done, out, elem := false, None, cursor;
    if "organization" <= elem {
      elem := elem[12..];
      if elem != "" {
        if elem[0] == '/' { // /
          done, out, elem := FindOrganizationSlash(elem, verb);
          if done { return; }
        } else if elem[0] == 's' { // s
          if "s" <= elem {
            elem := elem[1..];
            if elem == "" {
              LookupOne(ORGANIZATIONS_EP, [], verb);
              out := if verb == "POST" then Some(Found(CreateOrganization, "/organizations", []))
                     else None;
              return true, out, elem;
            }
          }
        }
      }
    }
  }

  method FindPing(cursor: string, verb: string) returns (done: bool, out: Option<Found>, elem: string)
    ensures Settles(done, out, elem, Walk(PING, cursor), verb)
  {
    done, out, elem := false, None, cursor;
    if "ping" <= elem {
      elem := elem[4..];
      if elem == "" {
        LookupOne(PING_EP, [], verb);
        out := if verb == "GET" then Some(Found(Ping, "/ping", []))
               else None;
        return true, out, elem;
      }
    }
  }

  method FindChat(cursor: string, verb: string) returns (done: bool, out: Option<Found>, elem: string)
    ensures Settles(done, out, elem, Walk(CHAT, cursor), verb)
  {
    done, out, elem := false, None, cursor;
    if "support/chat" <= elem {
      elem := elem[12..];
      if elem == "" {
        LookupOne(CHAT_EP, [], verb);
        out := if verb == "GET" then Some(Found(GetSupportChat, "/support/chat", []))
               else None;
        return true, out, elem;
      }
    }
  }

  method FindRoot(cursor: string, verb: string) returns (done: bool, out: Option<Found>, elem: string)
    ensures Settles(done, out, elem, Walk(ROOT, cursor), verb)
  {
    done, out, elem := false, None, cursor;
    if "/" <= elem {
      elem := elem[1..];
      if elem != "" {
        RootSwitch(elem);
        if elem[0] == 'b' { // billing
          done, out, elem := FindBilling(elem, verb);
          if done { return; }
        } else if elem[0] == 'i' { // in
          done, out, elem := FindIn(elem, verb);
          if done { return; }
        } else if elem[0] == 'm' { // me
          done, out, elem := FindMe(elem, verb);
          if done { return; }
        } else if elem[0] == 'o' { // organization
          done, out, elem := FindOrganization(elem, verb);
          if done { return; }
        } else if elem[0] == 'p' { // ping
          done, out, elem := FindPing(elem, verb);
          if done { return; }
        } else if elem[0] == 's' { // support/chat
          done, out, elem := FindChat(elem, verb);
          if done { return; }
        }
      }
    }
  }

  /** The deferred loop that replaces each argument that unescapes. */
  method UnescapeArgs(unescape: string -> Option<string>, args: seq<string>) returns (out: seq<string>)
    ensures out == Unescaped(unescape, args)
  {
    out := args;
    for i := 0 to |args|
      invariant |out| == |args|
      invariant forall j :: 0 <= j < i ==> out[j] == UnescapeOr(unescape, args[j])
      invariant forall j :: i <= j < |args| ==> out[j] == args[j]
    {
      var unescaped := unescape(out[i]);
      if unescaped.Some? {
        out := out[i := unescaped.value];
      }
    }
  }

  /** Every lookup finds the route that the flat table gives for the searched path. */
  method FindPath(prefix: string, normalize: string -> Option<string>, unescape: string -> Option<string>,
                  verb: string, u: URL) returns (r: Option<Found>)
    ensures r == FoundPath(prefix, normalize, unescape, verb, u)
  {
    var elem := u.path;
    if u.rawPath != "" {
      var normalized := normalize(u.rawPath);
      if normalized.Some? {
        elem := normalized.value;
      }
    }
    var cut := CutPrefix(prefix, elem);
    if cut == None {
      return None;
    }
    elem := cut.value;
    SearchIsTable(elem);
    if elem != "" && elem[0] == '/' {
      var done;
      done, r, elem := FindRoot(elem, verb);
      if done && r.Some? && u.rawPath != "" {
        var args := UnescapeArgs(unescape, r.value.args);
        r := Some(r.value.(args := args));
      }
      return r;
    }
    return None;
  }
}
