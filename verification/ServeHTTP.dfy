/** `ServeHTTP`: the unrolled search, one method for each of its nested switches. `elem` is the cursor
    that the search moves and, in some arms only, puts back. */
module ServeHTTP {
  import opened Wrappers
  import opened RouteTrie
  import opened RouteTable
  import opened RouteReply
  import opened FlatTable

  ghost predicate Settles(out: Option<Reply>, elem: string, w: Walked<Endpoint>, verb: string, escaped: bool) {
    match w
    case Hit(e, args) => out == Some(Respond(e, args, verb, escaped))
    case Fell(left) => out == None && elem == left
  }

  method ServeBillingSlash(cursor: string, verb: string, escaped: bool) returns (out: Option<Reply>, elem: string)
    ensures Settles(out, elem, Walk(BILLING_SLASH, cursor), verb, escaped)
  {
    out, elem := None, cursor;
    if "/" <= elem {
      elem := elem[1..];
      if elem != "" {
        if elem[0] == 'c' { // checkout
          if "checkout" <= elem {
            elem := elem[8..];
            if elem == "" {
              RespondOne(CHECKOUT_EP, [], verb, escaped);
              return Some(if verb == "POST" then Handle(CreateBillingCheckout, [], escaped)
                          else NotAllowed("POST", map[], "")), elem;
            }
          }
        } else if elem[0] == 'o' { // oss-application
          if "oss-application" <= elem {
            elem := elem[15..];
            if elem == "" {
              RespondOne(OSS_EP, [], verb, escaped);
              return Some(if verb == "POST" then Handle(SubmitOssApplication, [], escaped)
                          else NotAllowed("POST", ON_POST, JSON)), elem;
            }
          }
        } else if elem[0] == 'p' { // portal
          if "portal" <= elem {
            elem := elem[6..];
            if elem == "" {
              RespondOne(PORTAL_EP, [], verb, escaped);
              return Some(if verb == "POST" then Handle(CreateBillingPortal, [], escaped)
                          else NotAllowed("POST", map[], "")), elem;
            }
          }
        }
      }
    }
  }

  method ServeBilling(cursor: string, verb: string, escaped: bool) returns (out: Option<Reply>, elem: string)
    ensures Settles(out, elem, Walk(BILLING, cursor), verb, escaped)
  {
    out, elem := None, cursor;
    if "billing" <= elem {
      elem := elem[7..];
      if elem == "" {
        RespondOne(BILLING_EP, [], verb, escaped);
        return Some(if verb == "GET" then Handle(GetBilling, [], escaped)
                    else NotAllowed("GET", map[], "")), elem;
      }
      if elem[0] == '/' { // /
        out, elem := ServeBillingSlash(elem, verb, escaped);
        if out.Some? { return; }
      }
    }
  }

  method ServeSettingsSlash(cursor: string, verb: string, escaped: bool) returns (out: Option<Reply>, elem: string)
    ensures Settles(out, elem, Walk(SETTINGS_SLASH, cursor), verb, escaped)
  {
    out, elem := None, cursor;
    AllowTexts();
    if "/" <= elem {
      elem := elem[1..];
      if elem != "" {
        if elem[0] == 't' { // test
          var origElem := elem;
          if "test" <= elem {
            elem := elem[4..];
            if elem == "" {
              RespondOne(TEST_EP, [], verb, escaped);
              return Some(if verb == "POST" then Handle(TestLinearTemplate, [], escaped)
                          else NotAllowed("POST", ON_POST, JSON)), elem;
            }
            elem := origElem;
          }
        }
        if '/' !in elem {
          var arg := elem;
          elem := "";
          RespondTwo(SETTING_EP, [arg], verb, escaped);
          return Some(if verb == "DELETE" then Handle(DeleteLinearSettings, [arg], escaped)
                      else if verb == "PUT" then Handle(UpdateLinearSettings, [arg], escaped)
                      else NotAllowed("DELETE,PUT", ON_PUT, "")), elem;
        }
      }
    }
  }

  method ServeSettings(cursor: string, verb: string, escaped: bool) returns (out: Option<Reply>, elem: string)
    ensures Settles(out, elem, Walk(SETTINGS, cursor), verb, escaped)
  {
    out, elem := None, cursor;
    AllowTexts();
    if "settings" <= elem {
      elem := elem[8..];
      if elem == "" {
        RespondTwo(SETTINGS_EP, [], verb, escaped);
        return Some(if verb == "GET" then Handle(GetLinearSettings, [], escaped)
                    else if verb == "POST" then Handle(CreateLinearSettings, [], escaped)
                    else NotAllowed("GET,POST", ON_POST, JSON)), elem;
      }
      if elem[0] == '/' { // /
        out, elem := ServeSettingsSlash(elem, verb, escaped);
        if out.Some? { return; }
      }
    }
  }

  method ServeLinear(cursor: string, verb: string, escaped: bool) returns (out: Option<Reply>, elem: string)
    ensures Settles(out, elem, Walk(LINEAR, cursor), verb, escaped)
  {
    out, elem := None, cursor;
    var origElem := elem;
    if "linear/" <= elem {
      elem := elem[7..];
      if elem != "" {
        if elem[0] == 's' { // settings
          out, elem := ServeSettings(elem, verb, escaped);
          if out.Some? { return; }
        } else if elem[0] == 'w' { // webhooks
          if "webhooks" <= elem {
            elem := elem[8..];
            if elem == "" {
              RespondOne(WEBHOOKS_EP, [], verb, escaped);
              return Some(if verb == "GET" then Handle(ListLinearWebhooks, [], escaped)
                          else NotAllowed("GET", map[], "")), elem;
            }
          }
        }
        elem := origElem;
      }
    }
  }

  method ServeS(cursor: string, verb: string, escaped: bool) returns (out: Option<Reply>, elem: string)
    ensures Settles(out, elem, Walk(S, cursor), verb, escaped)
  {
    out, elem := None, cursor;
    var origElem := elem;
    if "s" <= elem {
      elem := elem[1..];
      if elem != "" {
        if elem[0] == 'e' { // ettings/sync
          if "ettings/sync" <= elem {
            elem := elem[12..];
            if elem == "" {
              RespondOne(SYNC_EP, [], verb, escaped);
              return Some(if verb == "POST" then Handle(SyncSettings, [], escaped)
                          else NotAllowed("POST", map[], "")), elem;
            }
          }
        } else if elem[0] == 'l' { // lack/members
          if "lack/members" <= elem {
            elem := elem[12..];
            if elem == "" {
              RespondOne(SLACK_EP, [], verb, escaped);
              return Some(if verb == "GET" then Handle(ListSlackMembers, [], escaped)
                          else NotAllowed("GET", map[], "")), elem;
            }
          }
        } else if elem[0] == 't' { // tatus
          if "tatus" <= elem {
            elem := elem[5..];
            if elem == "" {
              RespondOne(STATUS_EP, [], verb, escaped);
              return Some(if verb == "GET" then Handle(GetIntegrationStatus, [], escaped)
                          else NotAllowed("GET", map[], "")), elem;
            }
          }
        }
        elem := origElem;
      }
    }
  }

  method ServeProvider(cursor: string, verb: string, escaped: bool) returns (out: Option<Reply>, elem: string)
    ensures Settles(out, elem, WalkParam(PROVIDER, cursor), verb, escaped)
  {
    out, elem := None, cursor;
    var idx := SlashIndex(elem);
    var arg := elem[..idx];
    elem := elem[idx..];
    if elem != "" {
      assert [arg] + [] == [arg];
      if elem[0] == '/' { // /disconnect
        if "/disconnect" <= elem {
          elem := elem[11..];
          if elem == "" {
            RespondOne(DISCONNECT_EP, [arg], verb, escaped);
            return Some(if verb == "POST" then Handle(DisconnectIntegration, [arg], escaped)
                        else NotAllowed("POST", map[], "")), elem;
          }
        }
      }
    }
  }

  method ServeIntegrations(cursor: string, verb: string, escaped: bool) returns (out: Option<Reply>, elem: string)
    ensures Settles(out, elem, Walk(INTEGRATIONS, cursor), verb, escaped)
  {
    out, elem := None, cursor;
    if "tegrations/" <= elem {
      elem := elem[11..];
      if elem != "" {
        if elem[0] == 'l' { // linear/
          out, elem := ServeLinear(elem, verb, escaped);
          if out.Some? { return; }
        } else if elem[0] == 's' { // s
          out, elem := ServeS(elem, verb, escaped);
          if out.Some? { return; }
        }
        out, elem := ServeProvider(elem, verb, escaped);
      }
    }
  }

  method ServeInvitations(cursor: string, verb: string, escaped: bool) returns (out: Option<Reply>, elem: string)
    ensures Settles(out, elem, Walk(INVITATIONS, cursor), verb, escaped)
  {
    out, elem := None, cursor;
    AllowTexts();
    if "vitations" <= elem {
      elem := elem[9..];
      if elem == "" {
        RespondTwo(INVITATIONS_EP, [], verb, escaped);
        return Some(if verb == "GET" then Handle(ListInvitations, [], escaped)
                    else if verb == "POST" then Handle(CreateInvitation, [], escaped)
                    else NotAllowed("GET,POST", ON_POST, JSON)), elem;
      }
      if elem[0] == '/' { // /
        if "/" <= elem {
          elem := elem[1..];
          if '/' !in elem {
            var arg := elem;
            elem := "";
            RespondOne(INVITATION_EP, [arg], verb, escaped);
            return Some(if verb == "DELETE" then Handle(RevokeInvitation, [arg], escaped)
                        else NotAllowed("DELETE", map[], "")), elem;
          }
        }
      }
    }
  }

  method ServeIn(cursor: string, verb: string, escaped: bool) returns (out: Option<Reply>, elem: string)
    ensures Settles(out, elem, Walk(IN, cursor), verb, escaped)
  {
    out, elem := None, cursor;
    if "in" <= elem {
      elem := elem[2..];
      if elem != "" {
        if elem[0] == 't' { // tegrations/
          out, elem := ServeIntegrations(elem, verb, escaped);
          if out.Some? { return; }
        } else if elem[0] == 'v' { // vitations
          out, elem := ServeInvitations(elem, verb, escaped);
          if out.Some? { return; }
        }
      }
    }
  }

  method ServeMembersSlash(cursor: string, verb: string, escaped: bool) returns (out: Option<Reply>, elem: string)
    ensures Settles(out, elem, Walk(MEMBERS_SLASH, cursor), verb, escaped)
  {
    out, elem := None, cursor;
    if "/" <= elem {
      elem := elem[1..];
      var idx := SlashIndex(elem);
      var arg := elem[..idx];
      elem := elem[idx..];
      if elem != "" {
        assert [arg] + [] == [arg];
        if elem[0] == '/' { // /role
          if "/role" <= elem {
            elem := elem[5..];
            if elem == "" {
              RespondOne(ROLE_EP, [arg], verb, escaped);
              return Some(if verb == "PUT" then Handle(UpdateMemberRole, [arg], escaped)
                          else NotAllowed("PUT", ON_PUT, "")), elem;
            }
          }
        }
      }
    }
  }

  method ServeMembers(cursor: string, verb: string, escaped: bool) returns (out: Option<Reply>, elem: string)
    ensures Settles(out, elem, Walk(MEMBERS, cursor), verb, escaped)
  {
    out, elem := None, cursor;
    if "mbers" <= elem {
      elem := elem[5..];
      if elem == "" {
        RespondOne(MEMBERS_EP, [], verb, escaped);
        return Some(if verb == "GET" then Handle(ListMembers, [], escaped)
                    else NotAllowed("GET", map[], "")), elem;
      }
      if elem[0] == '/' { // /
        out, elem := ServeMembersSlash(elem, verb, escaped);
        if out.Some? { return; }
      }
    }
  }

  method ServeMe(cursor: string, verb: string, escaped: bool) returns (out: Option<Reply>, elem: string)
    ensures Settles(out, elem, Walk(ME, cursor), verb, escaped)
  {
    out, elem := None, cursor;
    if "me" <= elem {
      elem := elem[2..];
      if elem == "" {
        RespondOne(ME_EP, [], verb, escaped);
        return Some(if verb == "GET" then Handle(GetMe, [], escaped)
                    else NotAllowed("GET", map[], "")), elem;
      }
      if elem[0] == 'm' { // mbers
        out, elem := ServeMembers(elem, verb, escaped);
        if out.Some? { return; }
      }
    }
  }

  method ServeOrganizationSlash(cursor: string, verb: string, escaped: bool) returns (out: Option<Reply>, elem: string)
    ensures Settles(out, elem, Walk(ORGANIZATION_SLASH, cursor), verb, escaped)
  {
    out, elem := None, cursor;
    AllowTexts();
    if "/" <= elem {
      elem := elem[1..];
      if elem != "" {
        if elem[0] == 'a' { // avatar
          if "avatar" <= elem {
            elem := elem[6..];
            if elem == "" {
              RespondTwo(AVATAR_EP, [], verb, escaped);
              return Some(if verb == "DELETE" then Handle(DeleteOrganizationAvatar, [], escaped)
                          else if verb == "PUT" then Handle(UploadOrganizationAvatar, [], escaped)
                          else NotAllowed("DELETE,PUT", ON_PUT, "")), elem;
            }
            if elem[0] == '/' { // /regenerate
              if "/regenerate" <= elem {
                elem := elem[11..];
                if elem == "" {
                  RespondOne(REGENERATE_EP, [], verb, escaped);
                  return Some(if verb == "POST" then Handle(RegenerateOrganizationAvatar, [], escaped)
                              else NotAllowed("POST", map[], "")), elem;
                }
              }
            }
          }
        } else if elem[0] == 'p' { // profile
          if "profile" <= elem {
            elem := elem[7..];
            if elem == "" {
              RespondTwo(PROFILE_EP, [], verb, escaped);
              return Some(if verb == "GET" then Handle(GetOrganizationProfile, [], escaped)
                          else if verb == "PUT" then Handle(UpdateOrganizationProfile, [], escaped)
                          else NotAllowed("GET,PUT", ON_PUT, "")), elem;
            }
          }
        }
      }
    }
  }

  method ServeOrganization(cursor: string, verb: string, escaped: bool) returns (out: Option<Reply>, elem: string)
    ensures Settles(out, elem, Walk(ORGANIZATION, cursor), verb, escaped)
  {
    out, elem := None, cursor;
    if "organization" <= elem {
      elem := elem[12..];
      if elem != "" {
        if elem[0] == '/' { // /
          out, elem := ServeOrganizationSlash(elem, verb, escaped);
          if out.Some? { return; }
        } else if elem[0] == 's' { // s
          if "s" <= elem {
            elem := elem[1..];
            if elem == "" {
              RespondOne(ORGANIZATIONS_EP, [], verb, escaped);
              return Some(if verb == "POST" then Handle(CreateOrganization, [], escaped)
                          else NotAllowed("POST", ON_POST, JSON)), elem;
            }
          }
        }
      }
    }
  }

  method ServePing(cursor: string, verb: string, escaped: bool) returns (out: Option<Reply>, elem: string)
    ensures Settles(out, elem, Walk(PING, cursor), verb, escaped)
  {
    out, elem := None, cursor;
    if "ping" <= elem {
      elem := elem[4..];
      if elem == "" {
        RespondOne(PING_EP, [], verb, escaped);
        return Some(if verb == "GET" then Handle(Ping, [], escaped)
                    else NotAllowed("GET", map[], "")), elem;
      }
    }
  }

  method ServeChat(cursor: string, verb: string, escaped: bool) returns (out: Option<Reply>, elem: string)
    ensures Settles(out, elem, Walk(CHAT, cursor), verb, escaped)
  {
    out, elem := None, cursor;
    if "support/chat" <= elem {
      elem := elem[12..];
      if elem == "" {
        RespondOne(CHAT_EP, [], verb, escaped);
        return Some(if verb == "GET" then Handle(GetSupportChat, [], escaped)
                    else NotAllowed("GET", map[], "")), elem;
      }
    }
  }

  method ServeRoot(cursor: string, verb: string, escaped: bool) returns (out: Option<Reply>, elem: string)
    ensures Settles(out, elem, Walk(ROOT, cursor), verb, escaped)
  {
    out, elem := None, cursor;
    if "/" <= elem {
      elem := elem[1..];
      if elem != "" {
        RootSwitch(elem);
        if elem[0] == 'b' { // billing
          out, elem := ServeBilling(elem, verb, escaped);
          if out.Some? { return; }
        } else if elem[0] == 'i' { // in
          out, elem := ServeIn(elem, verb, escaped);
          if out.Some? { return; }
        } else if elem[0] == 'm' { // me
          out, elem := ServeMe(elem, verb, escaped);
          if out.Some? { return; }
        } else if elem[0] == 'o' { // organization
          out, elem := ServeOrganization(elem, verb, escaped);
          if out.Some? { return; }
        } else if elem[0] == 'p' { // ping
          out, elem := ServePing(elem, verb, escaped);
          if out.Some? { return; }
        } else if elem[0] == 's' { // support/chat
          out, elem := ServeChat(elem, verb, escaped);
          if out.Some? { return; }
        }
      }
    }
  }

  /** Every request gets the reply that the flat table prescribes for the searched path. */
  method ServeHTTP(prefix: string, normalize: string -> Option<string>, u: URL, verb: string) returns (reply: Reply)
    ensures reply == Prescribed(prefix, SearchedPath(normalize, u), SearchedIsEscaped(normalize, u), verb)
  {
    var elem, elemIsEscaped := u.path, false;
    if u.rawPath != "" {
      var normalized := normalize(u.rawPath);
      if normalized.Some? {
        elem := normalized.value;
        elemIsEscaped := '%' in elem;
      }
    }
    var cut := CutPrefix(prefix, elem);
    if cut == None {
      return NotFound;
    }
    elem := cut.value;
    SearchIsTable(elem);
    if |elem| == 0 {
      return NotFound;
    }
    if elem[0] == '/' {
      var out;
      out, elem := ServeRoot(elem, verb, elemIsEscaped);
      if out.Some? {
        return out.value;
      }
    }
    return NotFound;
  }
}
