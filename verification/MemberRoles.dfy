/** Role changes in an organization: the scan and the checks of one update, and over any interleaving of
    updates that some administrator always remains. */
module MemberRoles {
  import opened Wrappers

  /** A membership as authd keeps it. */
  datatype Membership = Membership(id: string, userId: string, email: string, name: string, image: string, role: string)

  datatype UpdateError = MembershipNotFound | OwnRole | Refused

  type Members = seq<Membership>

  predicate Administers(role: string) {
    role == "admin" || role == "owner"
  }

  /** One membership per user, and membership ids are unique. */
  predicate Proper(ms: Members) {
    forall i, j :: 0 <= i < j < |ms| ==> ms[i].id != ms[j].id && ms[i].userId != ms[j].userId
  }

  predicate AdministeredBy(ms: Members, userId: string) {
    exists i :: 0 <= i < |ms| && ms[i].userId == userId && Administers(ms[i].role)
  }

  predicate HasAdministrator(ms: Members) {
    exists i :: 0 <= i < |ms| && Administers(ms[i].role)
  }

  predicate TargetOf(ms: Members, id: string, userId: string) {
    exists i :: 0 <= i < |ms| && ms[i].id == id && ms[i].userId == userId
  }

  /** The members with the role of one membership changed. */
  function WithRole(ms: Members, id: string, role: string): (r: Members)
    ensures |r| == |ms|
    ensures forall i :: 0 <= i < |ms| ==> r[i] == if ms[i].id == id then ms[i].(role := role) else ms[i]
  {
    if ms == [] then []
    else [if ms[0].id == id then ms[0].(role := role) else ms[0]] + WithRole(ms[1..], id, role)
  }

  /** The first membership with this id. */
  function Found(ms: Members, id: string): Option<Membership> {
    if ms == [] then None else if ms[0].id == id then Some(ms[0]) else Found(ms[1..], id)
  }

  // ---------------------------------------------------------------- authd

  /** The part of authd that an update talks to. It lists any organization, and changes a role only if the
      calling user administers the organization at that moment and the membership belongs to it. */
  class Authd {
    var orgs: map<string, Members>

    constructor (orgs: map<string, Members>)
      ensures this.orgs == orgs
    {
      this.orgs := orgs;
    }

    /** `get-full-organization`; `reachable` says whether the call goes through. */
    method FullOrganization(orgId: string, reachable: bool) returns (members: Option<Members>)
      ensures members == if reachable && orgId in orgs then Some(orgs[orgId]) else None
    {
      if reachable && orgId in orgs {
        return Some(orgs[orgId]);
      }
      return None;
    }

    /** `update-member-role` on behalf of a user. */
    method UpdateMemberRole(caller: string, orgId: string, membershipId: string, role: string, reachable: bool)
      returns (ok: bool)
      modifies this
      ensures ok <==> (reachable && orgId in old(orgs) && AdministeredBy(old(orgs)[orgId], caller) &&
                       exists m :: m in old(orgs)[orgId] && m.id == membershipId)
      ensures orgs == if ok then old(orgs)[orgId := WithRole(old(orgs)[orgId], membershipId, role)] else old(orgs)
    {
      ok := reachable && orgId in orgs && AdministeredBy(orgs[orgId], caller) &&
        exists m :: m in orgs[orgId] && m.id == membershipId;
      if ok {
        orgs := orgs[orgId := WithRole(orgs[orgId], membershipId, role)];
      }
    }
  }

  // ---------------------------------------------------------------- one update

  /** The answer to an update, in the order of the checks. */
  function Outcome(orgs: map<string, Members>, orgId: string, caller: string, membershipId: string, role: string,
                   listed: bool, reachable: bool): (r: Result<Membership, UpdateError>)
    ensures r.Ok? ==> orgId in orgs
  {
    if !listed || orgId !in orgs then Err(MembershipNotFound)
    else match Found(orgs[orgId], membershipId)
      case None => Err(MembershipNotFound)
      case Some(m) =>
        if m.userId == caller then Err(OwnRole)
        else if reachable && AdministeredBy(orgs[orgId], caller) then Ok(m.(role := role))
        else Err(Refused)
  }

  /** What an accepted update means: the caller administers the organization, the membership belongs to it
      and is another user's, and it alone has changed, to the role asked for. */
  lemma AcceptedMeaning(orgs: map<string, Members>, orgId: string, caller: string, membershipId: string, role: string,
                        listed: bool, reachable: bool)
    requires Outcome(orgs, orgId, caller, membershipId, role, listed, reachable).Ok?
    requires Proper(orgs[orgId])
    ensures var m := Outcome(orgs, orgId, caller, membershipId, role, listed, reachable).value;
      var before, after := orgs[orgId], WithRole(orgs[orgId], membershipId, role);
      && AdministeredBy(before, caller) && m.id == membershipId && m.userId != caller && m.role == role
      && exists i :: 0 <= i < |before| && m == before[i].(role := role) && after == before[i := m]
  {
    var before := orgs[orgId];
    var i := FoundAt(before, membershipId);
    assert WithRole(before, membershipId, role) == before[i := before[i].(role := role)];
  }

  /** Exactly when an update is answered how. Nothing is found in an organization that cannot be listed; the
      caller's own membership is refused before authd is asked; and authd accepts it from its administrators and
      owners. */
  lemma OutcomeMeaning(orgs: map<string, Members>, orgId: string, caller: string, membershipId: string, role: string,
                       listed: bool, reachable: bool)
    requires orgId in orgs ==> Proper(orgs[orgId])
    ensures var r := Outcome(orgs, orgId, caller, membershipId, role, listed, reachable);
      var ms := if listed && orgId in orgs then orgs[orgId] else [];
      && (r == Err(MembershipNotFound) <==> forall m :: m in ms ==> m.id != membershipId)
      && (r == Err(OwnRole) <==> exists m :: m in ms && m.id == membershipId && m.userId == caller)
      && (r.Ok? <==>
            && reachable && (exists m :: m in ms && m.userId == caller && (m.role == "admin" || m.role == "owner"))
            && (exists m :: m in ms && m.id == membershipId && m.userId != caller))
  {
    if listed && orgId in orgs {
      var ms := orgs[orgId];
      FoundIff(ms, membershipId);
      if Found(ms, membershipId).Some? { var i := FoundAt(ms, membershipId); }
      assert AdministeredBy(ms, caller) <==>
        exists m :: m in ms && m.userId == caller && (m.role == "admin" || m.role == "owner");
    }
  }

  lemma {:induction false} FoundIff(ms: Members, id: string)
    ensures Found(ms, id).None? <==> forall m :: m in ms ==> m.id != id
  {
    if ms == [] {
    } else {
      FoundIff(ms[1..], id);
      assert forall m :: m in ms <==> m == ms[0] || m in ms[1..];
    }
  }

  lemma {:induction false} FoundAt(ms: Members, id: string) returns (i: nat)
    requires Found(ms, id).Some?
    ensures i < |ms| && ms[i] == Found(ms, id).value && ms[i].id == id
  {
    if ms[0].id == id {
      i := 0;
    } else {
      i := FoundAt(ms[1..], id);
      i := i + 1;
    }
  }

  /** `UpdateOrganizationMemberRole`: the membership is looked up in the organization, the caller's own is
      refused, and authd has the last word. */
  method UpdateOrganizationMemberRole(authd: Authd, orgId: string, caller: string, membershipId: string, role: string,
                                      listed: bool, reachable: bool)
    returns (result: Result<Membership, UpdateError>)
    modifies authd
    ensures result == Outcome(old(authd.orgs), orgId, caller, membershipId, role, listed, reachable)
    ensures authd.orgs ==
      if result.Ok? then old(authd.orgs)[orgId := WithRole(old(authd.orgs)[orgId], membershipId, role)]
      else old(authd.orgs)
  {
    var members := authd.FullOrganization(orgId, listed);
    if members == None {
      return Err(MembershipNotFound);
    }
    var target: Option<Membership> := None;
    var ms := members.value;
    assert ms[0..] == ms;
    for i := 0 to |ms|
      invariant target == None && Found(ms[i..], membershipId) == Found(ms, membershipId)
    {
      if ms[i].id == membershipId {
        target := Some(ms[i]);
        break;
      }
    }
    if target == None {
      return Err(MembershipNotFound);
    }
    if target.value.userId == caller {
      return Err(OwnRole);
    }
    var ok := authd.UpdateMemberRole(caller, orgId, membershipId, role, reachable);
    if !ok {
      return Err(Refused);
    }
    return Ok(target.value.(role := role));
  }

  // ---------------------------------------------------------------- any interleaving of updates

  /** An update that has found its target, not the caller's own, and has not reached authd yet. */
  datatype Pending = Pending(orgId: string, caller: string, membershipId: string, role: string)

  datatype State = State(orgs: map<string, Members>, pending: map<nat, Pending>)

  datatype Step =
    | Check(id: nat, orgId: string, caller: string, membershipId: string, role: string)
    | Commit(id: nat)

  lemma FoundIsTarget(ms: Members, id: string)
    ensures Found(ms, id).Some? ==> TargetOf(ms, id, Found(ms, id).value.userId)
  {
    if Found(ms, id).Some? { var i := FoundAt(ms, id); }
  }

  /** One step of a service that refuses the caller's own membership, as the code does, or of one that does
      not (`ownCheck` is false). */
  function ApplyIf(ownCheck: bool, s: State, step: Step): State {
    match step
    case Check(id, orgId, caller, membershipId, role) =>
      if id in s.pending || orgId !in s.orgs then s
      else
        var target := Found(s.orgs[orgId], membershipId);
        if target.Some? && (ownCheck ==> target.value.userId != caller) then
          s.(pending := s.pending[id := Pending(orgId, caller, membershipId, role)])
        else s
    case Commit(id) =>
      if id !in s.pending then s
      else
        var p := s.pending[id];
        if p.orgId in s.orgs && AdministeredBy(s.orgs[p.orgId], p.caller) then
          State(s.orgs[p.orgId := WithRole(s.orgs[p.orgId], p.membershipId, p.role)], s.pending - {id})
        else s.(pending := s.pending - {id})
  }

  function Apply(s: State, step: Step): State { ApplyIf(true, s, step) }

  function Run(s: State, steps: seq<Step>): State
    decreases |steps|
  {
    if steps == [] then s else Run(Apply(s, steps[0]), steps[1..])
  }

  /** One update that nothing interrupts is its check and its commit: what `Outcome` says of it is what the two
      steps do. */
  lemma UpdateIsTwoSteps(s: State, id: nat, orgId: string, caller: string, membershipId: string, role: string)
    requires id !in s.pending
    ensures var s' := Run(s, [Check(id, orgId, caller, membershipId, role)] + ([Commit(id)] + []));
      var result := Outcome(s.orgs, orgId, caller, membershipId, role, true, true);
      && s'.pending == s.pending
      && s'.orgs == if result.Ok? then s.orgs[orgId := WithRole(s.orgs[orgId], membershipId, role)] else s.orgs
  {
    var check, commit := Check(id, orgId, caller, membershipId, role), Commit(id);
    var s1 := Apply(s, check);
    assert ([check] + ([commit] + []))[1..] == [commit] + [] && ([commit] + [])[1..] == [];
    assert Run(s, [check] + ([commit] + [])) == Run(Apply(s1, commit), []);
    if id in s1.pending { assert s1.pending - {id} == s.pending; }
  }

  /** Every pending update still targets a membership of somebody else. */
  predicate Inv(s: State) {
    && (forall o :: o in s.orgs ==> Proper(s.orgs[o]))
    && (forall id :: id in s.pending ==>
          s.pending[id].orgId in s.orgs && Elsewhere(s.orgs[s.pending[id].orgId], s.pending[id]))
  }

  predicate Elsewhere(ms: Members, p: Pending) {
    && (exists i :: 0 <= i < |ms| && ms[i].id == p.membershipId)
    && (forall i :: 0 <= i < |ms| && ms[i].id == p.membershipId ==> ms[i].userId != p.caller)
  }

  lemma RoleKeepsMembers(ms: Members, id: string, role: string)
    ensures Proper(ms) ==> Proper(WithRole(ms, id, role))
    ensures forall p :: Elsewhere(ms, p) ==> Elsewhere(WithRole(ms, id, role), p)
  {
    var r := WithRole(ms, id, role);
    forall p | Elsewhere(ms, p) ensures Elsewhere(r, p) {
      var i :| 0 <= i < |ms| && ms[i].id == p.membershipId;
      assert r[i].id == p.membershipId;
    }
  }

  /** An accepted update leaves the caller's own membership, an administrator's, as it was. */
  lemma CallerRemains(ms: Members, p: Pending)
    requires Elsewhere(ms, p) && AdministeredBy(ms, p.caller)
    ensures HasAdministrator(WithRole(ms, p.membershipId, p.role))
  {
    var i :| 0 <= i < |ms| && ms[i].userId == p.caller && Administers(ms[i].role);
    assert WithRole(ms, p.membershipId, p.role)[i] == ms[i];
  }

  lemma StepInv(s: State, step: Step)
    requires Inv(s)
    ensures Inv(Apply(s, step))
    ensures Apply(s, step).orgs.Keys == s.orgs.Keys
    ensures forall o :: o in s.orgs && HasAdministrator(s.orgs[o]) ==> HasAdministrator(Apply(s, step).orgs[o])
  {
    match step
    case Check(id, orgId, caller, membershipId, role) =>
      if orgId in s.orgs {
        FoundIsTarget(s.orgs[orgId], membershipId);
      }
    case Commit(id) =>
      if id in s.pending {
        var p := s.pending[id];
        RoleKeepsMembers(s.orgs[p.orgId], p.membershipId, p.role);
        if AdministeredBy(s.orgs[p.orgId], p.caller) { CallerRemains(s.orgs[p.orgId], p); }
      }
  }

  /** In every run an organization that starts with an administrator has one, although updates check their
      target before, and apart from, authd's check of the caller. */
  lemma {:induction false} AnAdministratorRemains(s: State, steps: seq<Step>)
    requires Inv(s)
    ensures Inv(Run(s, steps)) && Run(s, steps).orgs.Keys == s.orgs.Keys
    ensures forall o :: o in s.orgs && HasAdministrator(s.orgs[o]) ==> HasAdministrator(Run(s, steps).orgs[o])
    decreases |steps|
  {
    if steps == [] {
    } else {
      StepInv(s, steps[0]);
      AnAdministratorRemains(Apply(s, steps[0]), steps[1..]);
    }
  }

  /** So it is in every run from a moment when no update is under way. */
  lemma EveryRunKeepsAdministrators(orgs: map<string, Members>, steps: seq<Step>, orgId: string)
    requires forall o :: o in orgs ==> Proper(orgs[o])
    requires orgId in orgs && HasAdministrator(orgs[orgId])
    ensures var s := Run(State(orgs, map[]), steps); orgId in s.orgs && HasAdministrator(s.orgs[orgId])
  {
    AnAdministratorRemains(State(orgs, map[]), steps);
  }

  /** The own-role check is what this rests on: in a service without it the update of one administrator's own
      role can leave an organization with none. */
  lemma OwnRoleCheckNeeded(orgId: string)
    ensures var s := State(map[orgId := [ALONE]], map[]);
      var s' := ApplyIf(false, ApplyIf(false, s, Check(0, orgId, ALONE.userId, ALONE.id, "member")), Commit(0));
      Inv(s) && HasAdministrator(s.orgs[orgId]) && orgId in s'.orgs && !HasAdministrator(s'.orgs[orgId])
  {
    var ms := [ALONE];
    assert ms[0].userId == ALONE.userId && Administers(ms[0].role);
    assert Found(ms, ALONE.id) == Some(ALONE) && WithRole(ms, ALONE.id, "member") == [ALONE.(role := "member")];
  }

  const ALONE := Membership("m", "u", "", "", "", "admin")
}
