/** What `Validate` adds to `Decode`: after a successful decode it can only fail on an illegal enumeration
    value, so that the request pipeline accepts exactly the complete, well-typed objects with legal ones. */
module Validation {
  import opened Wrappers
  import opened Json
  import opened Schema
  import opened Records

  datatype Place = Name(field: string) | At(index: nat)

  datatype Cause = NilList | BadEnum(value: string) | Nested(failures: seq<Failure>)

  datatype Failure = Failure(place: Place, cause: Cause)

  /** The legal values of both `creationMode` and `archiveMode`. */
  predicate LegalMode(mode: string) {
    mode == "status" || mode == "manual" || mode == "condition"
  }

  /** Both modes of a record are legal. */
  predicate LegalModes(s: LinearSettings) {
    && s.creationMode in ["status", "manual", "condition"]
    && (s.archiveMode.Some? ==> s.archiveMode.value in ["status", "manual", "condition"])
  }

  // ---------------------------------------------------------------- the validators

  function When(bad: bool, name: string, cause: Cause): seq<Failure> {
    if bad then [Failure(Name(name), cause)] else []
  }

  /** What is wrong with a settings record, in the order of the fields. */
  function SettingsFailures(s: LinearSettings): seq<Failure> {
    When(!LegalMode(s.creationMode), "creationMode", BadEnum(s.creationMode)) +
    (if s.archiveMode.Some?
     then When(!LegalMode(s.archiveMode.value), "archiveMode", BadEnum(s.archiveMode.value)) else []) +
    When(s.autoAddMembers.None?, "autoAddMembers", NilList)
  }

  function TeamFailures(s: LinearTeamState): seq<Failure> {
    When(s.states.None?, "states", NilList)
  }

  /** The failing elements from index `i` on, each with its own failures. */
  function ElementFailures<R>(failures: R -> seq<Failure>, rs: seq<R>, i: nat): seq<Failure>
    requires i <= |rs|
    decreases |rs| - i
  {
    if i == |rs| then []
    else Blamed(failures(rs[i]), i) + ElementFailures(failures, rs, i + 1)
  }

  function Blamed(bad: seq<Failure>, i: nat): seq<Failure> {
    if bad != [] then [Failure(At(i), Nested(bad))] else []
  }

  function ListFailures<R>(failures: R -> seq<Failure>, name: string, list: Option<seq<R>>): seq<Failure> {
    match list
    case None => [Failure(Name(name), NilList)]
    case Some(rs) =>
      var bad := ElementFailures(failures, rs, 0);
      When(bad != [], name, Nested(bad))
  }

  function ResponseFailures(s: LinearSettingsResponse): seq<Failure> {
    ListFailures(SettingsFailures, "configs", s.configs) +
    ListFailures(TeamFailures, "teams", s.teams) +
    When(s.slackMembers.None?, "slackMembers", NilList) +
    When(s.sampleEvents.None?, "sampleEvents", NilList)
  }

  method ValidateMode(mode: string) returns (err: Option<Cause>)
    ensures err == if LegalMode(mode) then None else Some(BadEnum(mode))
  {
    if mode == "status" {
      return None;
    } else if mode == "manual" {
      return None;
    } else if mode == "condition" {
      return None;
    }
    return Some(BadEnum(mode));
  }

  method ValidateLinearSettings(s: LinearSettings) returns (failures: seq<Failure>)
    ensures failures == SettingsFailures(s)
  {
    failures := [];
    var err := ValidateMode(s.creationMode);
    if err != None {
      failures := failures + [Failure(Name("creationMode"), err.value)];
    }
    if s.archiveMode.Some? {
      err := ValidateMode(s.archiveMode.value);
      if err != None {
        failures := failures + [Failure(Name("archiveMode"), err.value)];
      }
    }
    if s.autoAddMembers == None {
      failures := failures + [Failure(Name("autoAddMembers"), NilList)];
    }
  }

  method ValidateLinearTeamState(s: LinearTeamState) returns (failures: seq<Failure>)
    ensures failures == TeamFailures(s)
  {
    failures := [];
    if s.states == None {
      failures := failures + [Failure(Name("states"), NilList)];
    }
  }

  /** One turn of the loop over a list. */
  lemma NextElement<R>(found: seq<Failure>, failures: R -> seq<Failure>, rs: seq<R>, i: nat)
    requires i < |rs|
    ensures found + ElementFailures(failures, rs, i) ==
      found + Blamed(failures(rs[i]), i) + ElementFailures(failures, rs, i + 1)
    ensures failures(rs[i]) == [] ==> found + Blamed(failures(rs[i]), i) == found
  {
    var first, later := Blamed(failures(rs[i]), i), ElementFailures(failures, rs, i + 1);
    assert ElementFailures(failures, rs, i) == first + later;
    ConcatAssoc(found, first, later);
    ConcatNil(found);
  }

  method ValidateConfigs(list: Option<seq<LinearSettings>>) returns (err: Option<Cause>)
    ensures ListFailures(SettingsFailures, "configs", list) ==
      match err case None => [] case Some(cause) => [Failure(Name("configs"), cause)]
  {
    if list == None {
      return Some(NilList);
    }
    var failures: seq<Failure> := [];
    var elems := list.value;
    assert [] + ElementFailures(SettingsFailures, elems, 0) == ElementFailures(SettingsFailures, elems, 0);
    for i := 0 to |elems|
      invariant ElementFailures(SettingsFailures, elems, 0) == failures + ElementFailures(SettingsFailures, elems, i)
    {
      var bad := ValidateLinearSettings(elems[i]);
      NextElement(failures, SettingsFailures, elems, i);
      if |bad| > 0 {
        failures := failures + [Failure(At(i), Nested(bad))];
      }
    }
    assert failures + [] == failures;
    err := if |failures| > 0 then Some(Nested(failures)) else None;
  }

  method ValidateTeams(list: Option<seq<LinearTeamState>>) returns (err: Option<Cause>)
    ensures ListFailures(TeamFailures, "teams", list) ==
      match err case None => [] case Some(cause) => [Failure(Name("teams"), cause)]
  {
    if list == None {
      return Some(NilList);
    }
    var failures: seq<Failure> := [];
    var elems := list.value;
    assert [] + ElementFailures(TeamFailures, elems, 0) == ElementFailures(TeamFailures, elems, 0);
    for i := 0 to |elems|
      invariant ElementFailures(TeamFailures, elems, 0) == failures + ElementFailures(TeamFailures, elems, i)
    {
      var bad := ValidateLinearTeamState(elems[i]);
      NextElement(failures, TeamFailures, elems, i);
      if |bad| > 0 {
        failures := failures + [Failure(At(i), Nested(bad))];
      }
    }
    assert failures + [] == failures;
    err := if |failures| > 0 then Some(Nested(failures)) else None;
  }

  method ValidateLinearSettingsResponse(s: LinearSettingsResponse) returns (failures: seq<Failure>)
    ensures failures == ResponseFailures(s)
  {
    failures := [];
    var err := ValidateConfigs(s.configs);
    if err != None {
      failures := failures + [Failure(Name("configs"), err.value)];
    }
    err := ValidateTeams(s.teams);
    if err != None {
      failures := failures + [Failure(Name("teams"), err.value)];
    }
    if s.slackMembers == None {
      failures := failures + [Failure(Name("slackMembers"), NilList)];
    }
    if s.sampleEvents == None {
      failures := failures + [Failure(Name("sampleEvents"), NilList)];
    }
  }

  // ---------------------------------------------------------------- what the failures say

  lemma SettingsClean(s: LinearSettings)
    ensures SettingsFailures(s) == [] <==> LegalModes(s) && s.autoAddMembers.Some?
  {
  }

  /** A record is blamed for exactly its illegal modes and its missing list, each under its own name. */
  lemma SettingsBlamed(s: LinearSettings, f: Failure)
    ensures f in SettingsFailures(s) <==>
      || (f == Failure(Name("creationMode"), BadEnum(s.creationMode)) &&
          s.creationMode !in ["status", "manual", "condition"])
      || (s.archiveMode.Some? && f == Failure(Name("archiveMode"), BadEnum(s.archiveMode.value)) &&
          s.archiveMode.value !in ["status", "manual", "condition"])
      || (f == Failure(Name("autoAddMembers"), NilList) && s.autoAddMembers == None)
  {
  }

  /** A response is blamed for exactly its missing lists and the failing elements of the two lists that are
      looked into, each under its own name. */
  lemma ResponseBlamed(s: LinearSettingsResponse, f: Failure)
    ensures f in ResponseFailures(s) <==>
      || (f == Failure(Name("configs"), NilList) && s.configs == None)
      || (f == Failure(Name("teams"), NilList) && s.teams == None)
      || (f == Failure(Name("slackMembers"), NilList) && s.slackMembers == None)
      || (f == Failure(Name("sampleEvents"), NilList) && s.sampleEvents == None)
      || (s.configs.Some? && ElementFailures(SettingsFailures, s.configs.value, 0) != [] &&
          f == Failure(Name("configs"), Nested(ElementFailures(SettingsFailures, s.configs.value, 0))))
      || (s.teams.Some? && ElementFailures(TeamFailures, s.teams.value, 0) != [] &&
          f == Failure(Name("teams"), Nested(ElementFailures(TeamFailures, s.teams.value, 0))))
  {
    var configs := ListFailures(SettingsFailures, "configs", s.configs);
    var teams := ListFailures(TeamFailures, "teams", s.teams);
    InOrder(f, configs, teams, When(s.slackMembers.None?, "slackMembers", NilList),
      When(s.sampleEvents.None?, "sampleEvents", NilList));
  }

  lemma InOrder<T>(x: T, a: seq<T>, b: seq<T>, c: seq<T>, d: seq<T>)
    ensures x in a + b + c + d <==> x in a || x in b || x in c || x in d
  {
  }

  lemma TeamBlamed(s: LinearTeamState, f: Failure)
    ensures f in TeamFailures(s) <==> f == Failure(Name("states"), NilList) && s.states == None
  {
  }

  // ---------------------------------------------------------------- what decoding guarantees

  /** An object without a field leaves that field as it was: assigning it before or after is the same. */
  lemma {:induction false} FoldCommutes<R(!new)>(sc: Schema<R>, fs: Fields, r: R, i: nat, v: Value)
    requires Lawful(sc) && i < |sc.names| && !HasKey(fs, sc.names[i])
    ensures Fold(sc, fs, sc.assign(r, i, v)) == sc.assign(Fold(sc, fs, r), i, v)
  {
    match fs
    case NoField =>
    case Field(k, w, more) =>
      var j := IndexIn(sc.names, k);
      if j < |sc.names| {
        assert sc.assign(sc.assign(r, i, v), j, w) == sc.assign(sc.assign(r, j, w), i, v);
      }
      FoldCommutes(sc, more, sc.Assign(r, k, w), i, v);
  }

  /** The record with everything assigned but the last value of one field. */
  function FoldRest<R>(sc: Schema<R>, fs: Fields, r: R, i: nat): R
    requires i < |sc.names|
  {
    match fs
    case NoField => r
    case Field(k, v, more) =>
      if HasKey(more, sc.names[i]) then FoldRest(sc, more, sc.Assign(r, k, v), i) else Fold(sc, more, r)
  }

  /** The last value of a field can be assigned after everything else. */
  lemma {:induction false} FoldLast<R(!new)>(sc: Schema<R>, fs: Fields, r: R, i: nat)
    requires Lawful(sc) && i < |sc.names| && HasKey(fs, sc.names[i]) && FirstBad(sc, fs).None?
    ensures Last(fs, sc.names[i]).Some? && sc.typed(i, Last(fs, sc.names[i]).value)
    ensures Fold(sc, fs, r) == sc.assign(FoldRest(sc, fs, r, i), i, Last(fs, sc.names[i]).value)
  {
    match fs
    case Field(k, v, more) =>
      IndexOfName(sc.names, i);
      LastTyped(sc, more, sc.names[i]);
      if HasKey(more, sc.names[i]) {
        FoldLast(sc, more, sc.Assign(r, k, v), i);
      } else {
        FoldCommutes(sc, more, r, i, v);
      }
  }

  /** A decoded object is well typed, has its required fields, and their last values count. */
  lemma DecodedLast<R(!new)>(sc: Schema<R>, fs: Fields, zero: R, i: nat)
    requires Lawful(sc) && i in sc.required && DecodeFields(sc, fs, zero).Ok?
    requires forall j :: 0 <= j < |sc.required| ==> sc.required[j] < |sc.names|
    ensures Last(fs, sc.names[i]).Some? && sc.typed(i, Last(fs, sc.names[i]).value)
    ensures DecodeFields(sc, fs, zero) == Ok(sc.assign(FoldRest(sc, fs, zero, i), i, Last(fs, sc.names[i]).value))
  {
    DecodesIff(sc, fs, zero);
    FoldLast(sc, fs, zero, i);
  }

  /** What every decoded record has, every record of a decoded array has. */
  lemma {:induction false} RecordsHave<R(!new)>(sc: Schema<R>, es: Elems, zero: R, holds: R -> bool)
    requires forall v, r :: Decode(sc, v, zero) == Ok(r) ==> holds(r)
    ensures RecordsIn(sc, es, zero).Some? ==> forall r :: r in RecordsIn(sc, es, zero).value ==> holds(r)
  {
    match es
    case NoElem =>
    case Elem(v, more) => RecordsHave(sc, more, zero, holds);
  }

  lemma SettingsRequires(i: nat)
    ensures i in SETTINGS.required <==> i == 1 || i == 9 || i == 10
    ensures forall j :: 0 <= j < |SETTINGS.required| ==> SETTINGS.required[j] < |SETTINGS.names|
  {
  }

  /** The last value of a required field of a settings record. */
  lemma SettingsLast(fs: Fields, i: nat) returns (rest: LinearSettings, v: Value)
    requires DecodeFields(SETTINGS, fs, NO_SETTINGS).Ok? && (i == 1 || i == 9 || i == 10)
    ensures Last(fs, SETTINGS_NAMES[i]) == Some(v) && SettingsTyped(i, v)
    ensures DecodeFields(SETTINGS, fs, NO_SETTINGS) == Ok(SettingsAssign(rest, i, v))
  {
    SettingsRequires(i);
    SettingsLawful();
    DecodedLast(SETTINGS, fs, NO_SETTINGS, i);
    rest, v := FoldRest(SETTINGS, fs, NO_SETTINGS, i), Last(fs, SETTINGS_NAMES[i]).value;
  }

  lemma MembersAssigned(rest: LinearSettings, v: Value)
    ensures SettingsAssign(rest, 9, v).autoAddMembers.Some?
  {
  }

  lemma SettingsDecoded(v: Value, r: LinearSettings)
    requires Decode(SETTINGS, v, NO_SETTINGS) == Ok(r)
    ensures r.autoAddMembers.Some?
  {
    var rest, w := SettingsLast(v.fields, 9);
    MembersAssigned(rest, w);
  }

  lemma TeamDecoded(v: Value, r: LinearTeamState)
    requires Decode(TEAM, v, NO_TEAM) == Ok(r)
    ensures r.states.Some?
  {
    TeamLawful();
    DecodedLast(TEAM, v.fields, NO_TEAM, 3);
  }

  predicate ConfigsThere(s: LinearSettingsResponse) {
    s.configs.Some? && forall c :: c in s.configs.value ==> c.autoAddMembers.Some?
  }

  predicate TeamsThere(s: LinearSettingsResponse) {
    s.teams.Some? && forall t :: t in s.teams.value ==> t.states.Some?
  }

  /** No required list is nil, at any depth. */
  predicate NoNil(s: LinearSettingsResponse) {
    ConfigsThere(s) && TeamsThere(s) && s.slackMembers.Some? && s.sampleEvents.Some?
  }

  lemma ConfigsAssigned(r: LinearSettingsResponse, v: Value)
    requires ResponseTyped(1, v)
    ensures ConfigsThere(ResponseAssign(r, 1, v))
  {
    forall w, s | Decode(SETTINGS, w, NO_SETTINGS) == Ok(s) ensures s.autoAddMembers.Some? { SettingsDecoded(w, s); }
    RecordsHave(SETTINGS, v.elems, NO_SETTINGS, (s: LinearSettings) => s.autoAddMembers.Some?);
  }

  lemma TeamsAssigned(r: LinearSettingsResponse, v: Value)
    requires ResponseTyped(2, v)
    ensures TeamsThere(ResponseAssign(r, 2, v))
  {
    forall w, s | Decode(TEAM, w, NO_TEAM) == Ok(s) ensures s.states.Some? { TeamDecoded(w, s); }
    RecordsHave(TEAM, v.elems, NO_TEAM, (s: LinearTeamState) => s.states.Some?);
  }

  lemma ResponseRequires(i: nat)
    ensures i in RESPONSE.required <==> i < 5
    ensures forall j :: 0 <= j < |RESPONSE.required| ==> RESPONSE.required[j] < |RESPONSE.names|
  {
  }

  /** The last value of a required field of a response. */
  lemma ResponseLast(fs: Fields, i: nat) returns (rest: LinearSettingsResponse, v: Value)
    requires DecodeFields(RESPONSE, fs, NO_RESPONSE).Ok? && i < 5
    ensures ResponseTyped(i, v) && DecodeFields(RESPONSE, fs, NO_RESPONSE) == Ok(ResponseAssign(rest, i, v))
  {
    ResponseRequires(i);
    ResponseLawful();
    DecodedLast(RESPONSE, fs, NO_RESPONSE, i);
    rest, v := FoldRest(RESPONSE, fs, NO_RESPONSE, i), Last(fs, RESPONSE_NAMES[i]).value;
  }

  /** A decoded response has no nil list in it, nor in the records in its lists. */
  lemma DecodedHasNoNil(v: Value, r: LinearSettingsResponse)
    requires Decode(RESPONSE, v, NO_RESPONSE) == Ok(r)
    ensures NoNil(r)
  {
    var rest, w := ResponseLast(v.fields, 1);
    ConfigsAssigned(rest, w);
    rest, w := ResponseLast(v.fields, 2);
    TeamsAssigned(rest, w);
    rest, w := ResponseLast(v.fields, 3);
    rest, w := ResponseLast(v.fields, 4);
  }

  lemma ElementFailuresNone<R>(failures: R -> seq<Failure>, rs: seq<R>, i: nat)
    requires i < |rs|
    ensures ElementFailures(failures, rs, i) == [] <==>
      failures(rs[i]) == [] && ElementFailures(failures, rs, i + 1) == []
  {
    var first, later := Blamed(failures(rs[i]), i), ElementFailures(failures, rs, i + 1);
    assert |ElementFailures(failures, rs, i)| == |first| + |later|;
  }

  predicate Clean<R>(failures: R -> seq<Failure>, rs: seq<R>, i: nat) {
    forall j :: i <= j < |rs| ==> failures(rs[j]) == []
  }

  lemma {:induction false} NoElementFails<R>(failures: R -> seq<Failure>, rs: seq<R>, i: nat)
    requires i <= |rs|
    ensures ElementFailures(failures, rs, i) == [] <==> Clean(failures, rs, i)
    decreases |rs| - i
  {
    if i == |rs| {
    } else {
      ElementFailuresNone(failures, rs, i);
      NoElementFails(failures, rs, i + 1);
      assert Clean(failures, rs, i) <==> failures(rs[i]) == [] && Clean(failures, rs, i + 1);
    }
  }

  lemma ConfigsClean(cs: seq<LinearSettings>)
    requires forall c :: c in cs ==> c.autoAddMembers.Some?
    ensures ElementFailures(SettingsFailures, cs, 0) == [] <==> forall c :: c in cs ==> LegalModes(c)
  {
    NoElementFails(SettingsFailures, cs, 0);
    forall j | 0 <= j < |cs| ensures SettingsFailures(cs[j]) == [] <==> LegalModes(cs[j]) {
      assert cs[j] in cs;
      SettingsClean(cs[j]);
    }
  }

  lemma TeamsClean(ts: seq<LinearTeamState>)
    requires forall t :: t in ts ==> t.states.Some?
    ensures ElementFailures(TeamFailures, ts, 0) == []
  {
    NoElementFails(TeamFailures, ts, 0);
    assert forall j :: 0 <= j < |ts| ==> ts[j] in ts;
  }

  /** With nothing nil, only the configurations can fail. */
  lemma OnlyConfigs(r: LinearSettingsResponse)
    requires NoNil(r)
    ensures var bad := ElementFailures(SettingsFailures, r.configs.value, 0);
      ResponseFailures(r) == When(bad != [], "configs", Nested(bad))
  {
    TeamsClean(r.teams.value);
    var bad := ElementFailures(SettingsFailures, r.configs.value, 0);
    assert ListFailures(TeamFailures, "teams", r.teams) == [];
    var first := When(bad != [], "configs", Nested(bad));
    assert first + [] + [] + [] == first;
  }

  /** On a decoded response `Validate` fails exactly when some configuration has an illegal mode. */
  lemma OnlyModesFail(v: Value, r: LinearSettingsResponse)
    requires Decode(RESPONSE, v, NO_RESPONSE) == Ok(r)
    ensures r.configs.Some?
    ensures ResponseFailures(r) == [] <==> forall c :: c in r.configs.value ==> LegalModes(c)
  {
    DecodedHasNoNil(v, r);
    OnlyConfigs(r);
    ConfigsClean(r.configs.value);
  }

  /** What the failures of a list say about the element with this index. */
  function CauseAt(failures: seq<Failure>, j: nat): Option<Cause> {
    if failures == [] then None
    else if failures[0].place == At(j) then Some(failures[0].cause)
    else CauseAt(failures[1..], j)
  }

  lemma {:induction false} ElementsBlamed<R>(failures: R -> seq<Failure>, rs: seq<R>, i: nat, j: nat)
    requires i <= |rs| && j < |rs|
    ensures CauseAt(ElementFailures(failures, rs, i), j) ==
      if i <= j && failures(rs[j]) != [] then Some(Nested(failures(rs[j]))) else None
    decreases |rs| - i
  {
    if i == |rs| {
    } else {
      ElementsBlamed(failures, rs, i + 1, j);
      FirstBlamed(failures(rs[i]), i, ElementFailures(failures, rs, i + 1), j);
    }
  }

  lemma FirstBlamed(bad: seq<Failure>, i: nat, later: seq<Failure>, j: nat)
    ensures CauseAt(Blamed(bad, i) + later, j) == if bad != [] && i == j then Some(Nested(bad)) else CauseAt(later, j)
  {
    if bad == [] {
      assert [] + later == later;
    } else {
      assert ([Failure(At(i), Nested(bad))] + later)[1..] == later;
    }
  }

  /** The one failure of a decoded response names exactly the configurations with an illegal mode. */
  lemma ConfigsBlamed(v: Value, r: LinearSettingsResponse, j: nat)
    requires Decode(RESPONSE, v, NO_RESPONSE) == Ok(r) && r.configs.Some? && j < |r.configs.value|
    ensures var bad := ElementFailures(SettingsFailures, r.configs.value, 0);
      && ResponseFailures(r) == When(bad != [], "configs", Nested(bad))
      && CauseAt(bad, j) ==
           if LegalModes(r.configs.value[j]) then None else Some(Nested(SettingsFailures(r.configs.value[j])))
  {
    DecodedHasNoNil(v, r);
    OnlyConfigs(r);
    ElementsBlamed(SettingsFailures, r.configs.value, 0, j);
    assert r.configs.value[j] in r.configs.value;
    SettingsClean(r.configs.value[j]);
  }

  /** Does the cause, at any depth, blame a nil list? */
  predicate BlamesNil(cause: Cause) {
    match cause
    case NilList => true
    case BadEnum(_) => false
    case Nested(failures) => exists f :: f in failures && BlamesNil(f.cause)
  }

  lemma NoNilInOne(c: LinearSettings, i: nat)
    requires c.autoAddMembers.Some?
    ensures forall f :: f in Blamed(SettingsFailures(c), i) ==> !BlamesNil(f.cause)
  {
    var bad := SettingsFailures(c);
    assert forall f :: f in bad ==> !BlamesNil(f.cause);
    assert !BlamesNil(Nested(bad));
  }

  lemma {:induction false} NoNilInElements(rs: seq<LinearSettings>, i: nat)
    requires i <= |rs| && forall c :: c in rs ==> c.autoAddMembers.Some?
    ensures forall f :: f in ElementFailures(SettingsFailures, rs, i) ==> !BlamesNil(f.cause)
    decreases |rs| - i
  {
    if i == |rs| {
    } else {
      NoNilInElements(rs, i + 1);
      assert rs[i] in rs;
      NoNilInOne(rs[i], i);
      var first, later := Blamed(SettingsFailures(rs[i]), i), ElementFailures(SettingsFailures, rs, i + 1);
      assert ElementFailures(SettingsFailures, rs, i) == first + later;
    }
  }

  /** After a successful decode no failure of `Validate`, at any depth, is about a nil list. */
  lemma NeverBlamesNil(v: Value, r: LinearSettingsResponse)
    requires Decode(RESPONSE, v, NO_RESPONSE) == Ok(r)
    ensures forall f :: f in ResponseFailures(r) ==> !BlamesNil(f.cause)
  {
    DecodedHasNoNil(v, r);
    NoNilInElements(r.configs.value, 0);
    OnlyConfigs(r);
  }
}
