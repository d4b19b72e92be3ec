/** The records of the Linear settings API: what their fields are, how they are written, and that
    reading gives back what was written. A `None` list is Go's nil slice. */
module Records {
  import opened Wrappers
  import opened Json
  import opened Schema
  import opened Digits

  function StrIn(v: Value): string { if v.VStr? then v.s else "" }
  function BoolIn(v: Value): bool { if v.VBool? then v.b else false }

  /** The records of an array, if each of its elements decodes into a fresh record. */
  function RecordsIn<R>(sc: Schema<R>, es: Elems, zero: R): Option<seq<R>> {
    match es
    case NoElem => Some([])
    case Elem(v, more) =>
      match (Decode(sc, v, zero), RecordsIn(sc, more, zero))
      case (Ok(r), Some(rs)) => Some([r] + rs)
      case _ => None
  }

  function ArrayIn<R>(sc: Schema<R>, v: Value, zero: R): Option<seq<R>> {
    if v.VArr? then RecordsIn(sc, v.elems, zero) else None
  }

  /** The array of the written records. */
  function RecordElems<R>(write: R -> Fields, rs: seq<R>): Elems {
    if rs == [] then NoElem else Elem(VObj(write(rs[0])), RecordElems(write, rs[1..]))
  }

  function Mapped<R>(f: R -> R, rs: seq<R>): seq<R> {
    if rs == [] then [] else [f(rs[0])] + Mapped(f, rs[1..])
  }

  /** If every record reads back up to `norm`, so does every array of them. */
  lemma {:induction false} RecordsRoundTrip<R(!new)>(sc: Schema<R>, write: R -> Fields, norm: R -> R,
                                                     rs: seq<R>, zero: R)
    requires forall r :: DecodeFields(sc, write(r), zero) == Ok(norm(r))
    ensures RecordsIn(sc, RecordElems(write, rs), zero) == Some(Mapped(norm, rs))
  {
    if rs == [] {
    } else {
      RecordsRoundTrip(sc, write, norm, rs[1..], zero);
    }
  }

  lemma MappedSame<R>(f: R -> R, rs: seq<R>)
    requires forall r :: r in rs ==> f(r) == r
    ensures Mapped(f, rs) == rs
  {
    if rs == [] {
    } else {
      assert rs == [rs[0]] + rs[1..];
    }
  }

  function StringsIn(es: Elems): Option<seq<string>> {
    match es
    case NoElem => Some([])
    case Elem(v, more) => if v.VStr? && StringsIn(more).Some? then Some([v.s] + StringsIn(more).value) else None
  }

  function OrEmpty<T>(o: Option<seq<T>>): seq<T> { if o.Some? then o.value else [] }

  function OptStr(o: Option<string>): Option<Value> {
    match o case None => None case Some(s) => Some(VStr(s))
  }

  function StringElems(ss: seq<string>): Elems {
    if ss == [] then NoElem else Elem(VStr(ss[0]), StringElems(ss[1..]))
  }

  lemma StringsRoundTrip(ss: seq<string>)
    ensures StringsIn(StringElems(ss)) == Some(ss)
  {
    if ss == [] {
    } else {
      assert ss == [ss[0]] + ss[1..];
    }
  }

  // ---------------------------------------------------------------- LinearWorkflowState

  datatype LinearWorkflowState = LinearWorkflowState(id: string, name: string, kind: string,
    color: Option<string>)

  const NO_WORKFLOW := LinearWorkflowState("", "", "", None)

  const WORKFLOW_NAMES := ["id", "name", "type", "color"]

  predicate WorkflowTyped(i: nat, v: Value) {
    match i
    case _ => v.VStr?
  }

  function WorkflowAssign(r: LinearWorkflowState, i: nat, v: Value): LinearWorkflowState {
    match i
    case 0 => r.(id := StrIn(v))
    case 1 => r.(name := StrIn(v))
    case 2 => r.(kind := StrIn(v))
    case 3 => r.(color := Some(StrIn(v)))
    case _ => r
  }

  const WORKFLOW: Schema<LinearWorkflowState> := Schema(WORKFLOW_NAMES, WorkflowTyped, WorkflowAssign, [0, 1, 2])

  lemma WorkflowLawful()
    ensures Lawful(WORKFLOW)
  {
    assert Distinct(WORKFLOW_NAMES);
    forall r, i: nat, v, j: nat, w | i != j
      ensures WorkflowAssign(WorkflowAssign(r, i, v), j, w) == WorkflowAssign(WorkflowAssign(r, j, w), i, v)
    {
    }
  }

  function WorkflowVals(s: LinearWorkflowState): seq<Option<Value>> {
    [Some(VStr(s.id)), Some(VStr(s.name)), Some(VStr(s.kind)), OptStr(s.color)]
  }

  function WorkflowFields(s: LinearWorkflowState): Fields { Emit(WORKFLOW_NAMES, WorkflowVals(s), 0) }

  function WorkflowState(s: LinearWorkflowState, i: nat): LinearWorkflowState {
    LinearWorkflowState(if i > 0 then s.id else "", if i > 1 then s.name else "", if i > 2 then s.kind else "",
      if i > 3 then s.color else None)
  }

  lemma WorkflowRoundTrip(s: LinearWorkflowState)
    ensures DecodeFields(WORKFLOW, WorkflowFields(s), NO_WORKFLOW) == Ok(s)
  {
    forall j | 0 <= j < 4
      ensures WorkflowVals(s)[j].Some? ==> WorkflowTyped(j, WorkflowVals(s)[j].value)
      ensures WorkflowState(s, j + 1) == Step(WORKFLOW, j, WorkflowVals(s)[j], WorkflowState(s, j))
    {
    }
    EmitDecodes(WORKFLOW, WorkflowVals(s), (i: nat) => WorkflowState(s, i));
  }

  lemma WorkflowArray(rs: seq<LinearWorkflowState>)
    ensures RecordsIn(WORKFLOW, RecordElems(WorkflowFields, rs), NO_WORKFLOW) == Some(rs)
  {
    forall r ensures DecodeFields(WORKFLOW, WorkflowFields(r), NO_WORKFLOW) == Ok(r) { WorkflowRoundTrip(r); }
    RecordsRoundTrip(WORKFLOW, WorkflowFields, r => r, rs, NO_WORKFLOW);
    MappedSame((r: LinearWorkflowState) => r, rs);
  }

  // ---------------------------------------------------------------- LinearTeamState

  datatype LinearTeamState = LinearTeamState(teamId: string, teamKey: Option<string>, teamName: string,
    states: Option<seq<LinearWorkflowState>>)

  const NO_TEAM := LinearTeamState("", None, "", None)

  const TEAM_NAMES := ["teamId", "teamKey", "teamName", "states"]

  predicate TeamTyped(i: nat, v: Value) {
    match i
    case 3 => ArrayIn(WORKFLOW, v, NO_WORKFLOW).Some?
    case _ => v.VStr?
  }

  function TeamAssign(r: LinearTeamState, i: nat, v: Value): LinearTeamState {
    match i
    case 0 => r.(teamId := StrIn(v))
    case 1 => r.(teamKey := Some(StrIn(v)))
    case 2 => r.(teamName := StrIn(v))
    case 3 => r.(states := Some(OrEmpty(ArrayIn(WORKFLOW, v, NO_WORKFLOW))))
    case _ => r
  }

  const TEAM: Schema<LinearTeamState> := Schema(TEAM_NAMES, TeamTyped, TeamAssign, [0, 2, 3])

  lemma TeamLawful()
    ensures Lawful(TEAM)
  {
    assert Distinct(TEAM_NAMES);
    forall r, i: nat, v, j: nat, w | i != j
      ensures TeamAssign(TeamAssign(r, i, v), j, w) == TeamAssign(TeamAssign(r, j, w), i, v)
    {
    }
  }

  function TeamVals(s: LinearTeamState): seq<Option<Value>> {
    [Some(VStr(s.teamId)), OptStr(s.teamKey), Some(VStr(s.teamName)),
     Some(VArr(RecordElems(WorkflowFields, OrEmpty(s.states))))]
  }

  function TeamFields(s: LinearTeamState): Fields { Emit(TEAM_NAMES, TeamVals(s), 0) }

  /** What reading a written record gives: nil lists have become empty. */
  function TeamRead(s: LinearTeamState): LinearTeamState {
    s.(states := Some(OrEmpty(s.states)))
  }

  function TeamState(s: LinearTeamState, i: nat): LinearTeamState {
    LinearTeamState(if i > 0 then s.teamId else "", if i > 1 then s.teamKey else None,
      if i > 2 then s.teamName else "", if i > 3 then s.states else None)
  }

  lemma TeamPlainStep(s: LinearTeamState, j: nat)
    requires j < 3
    ensures TeamVals(s)[j].Some? ==> TeamVals(s)[j].value.VStr?
    ensures TeamState(TeamRead(s), j + 1) == Step(TEAM, j, TeamVals(s)[j], TeamState(TeamRead(s), j))
  {
  }

  lemma TeamStatesStep(s: LinearTeamState)
    ensures TeamTyped(3, TeamVals(s)[3].value)
    ensures TeamState(TeamRead(s), 4) == Step(TEAM, 3, TeamVals(s)[3], TeamState(TeamRead(s), 3))
  {
    WorkflowArray(OrEmpty(s.states));
  }

  lemma TeamRoundTrip(s: LinearTeamState)
    ensures DecodeFields(TEAM, TeamFields(s), NO_TEAM) == Ok(TeamRead(s))
  {
    TeamLawful();
    forall j | 0 <= j < 4
      ensures TeamVals(s)[j].Some? ==> TeamTyped(j, TeamVals(s)[j].value)
      ensures TeamState(TeamRead(s), j + 1) == Step(TEAM, j, TeamVals(s)[j], TeamState(TeamRead(s), j))
    {
      if j == 3 {
        TeamStatesStep(s);
      } else {
        TeamPlainStep(s, j);
      }
    }
    EmitDecodes(TEAM, TeamVals(s), (i: nat) => TeamState(TeamRead(s), i));
  }

  lemma TeamArray(rs: seq<LinearTeamState>)
    ensures RecordsIn(TEAM, RecordElems(TeamFields, rs), NO_TEAM) == Some(Mapped(TeamRead, rs))
  {
    forall r ensures DecodeFields(TEAM, TeamFields(r), NO_TEAM) == Ok(TeamRead(r)) { TeamRoundTrip(r); }
    RecordsRoundTrip(TEAM, TeamFields, TeamRead, rs, NO_TEAM);
  }

  // ---------------------------------------------------------------- SlackMember

  datatype SlackMember = SlackMember(memberId: string, name: string, email: Option<string>,
    iconUrl: Option<string>, isBot: bool)

  const NO_SLACK := SlackMember("", "", None, None, false)

  const SLACK_NAMES := ["memberId", "name", "email", "iconUrl", "isBot"]

  predicate SlackTyped(i: nat, v: Value) {
    match i
    case 4 => v.VBool?
    case _ => v.VStr?
  }

  function SlackAssign(r: SlackMember, i: nat, v: Value): SlackMember {
    match i
    case 0 => r.(memberId := StrIn(v))
    case 1 => r.(name := StrIn(v))
    case 2 => r.(email := Some(StrIn(v)))
    case 3 => r.(iconUrl := Some(StrIn(v)))
    case 4 => r.(isBot := BoolIn(v))
    case _ => r
  }

  const SLACK: Schema<SlackMember> := Schema(SLACK_NAMES, SlackTyped, SlackAssign, [0, 1, 4])

  lemma SlackLawful()
    ensures Lawful(SLACK)
  {
    assert Distinct(SLACK_NAMES);
    forall r, i: nat, v, j: nat, w | i != j
      ensures SlackAssign(SlackAssign(r, i, v), j, w) == SlackAssign(SlackAssign(r, j, w), i, v)
    {
    }
  }

  function SlackVals(s: SlackMember): seq<Option<Value>> {
    [Some(VStr(s.memberId)), Some(VStr(s.name)), OptStr(s.email), OptStr(s.iconUrl), Some(VBool(s.isBot))]
  }

  function SlackFields(s: SlackMember): Fields { Emit(SLACK_NAMES, SlackVals(s), 0) }

  function SlackState(s: SlackMember, i: nat): SlackMember {
    SlackMember(if i > 0 then s.memberId else "", if i > 1 then s.name else "", if i > 2 then s.email else None,
      if i > 3 then s.iconUrl else None, if i > 4 then s.isBot else false)
  }

  lemma SlackRoundTrip(s: SlackMember)
    ensures DecodeFields(SLACK, SlackFields(s), NO_SLACK) == Ok(s)
  {
    forall j | 0 <= j < 5
      ensures SlackVals(s)[j].Some? ==> SlackTyped(j, SlackVals(s)[j].value)
      ensures SlackState(s, j + 1) == Step(SLACK, j, SlackVals(s)[j], SlackState(s, j))
    {
    }
    EmitDecodes(SLACK, SlackVals(s), (i: nat) => SlackState(s, i));
  }

  lemma SlackArray(rs: seq<SlackMember>)
    ensures RecordsIn(SLACK, RecordElems(SlackFields, rs), NO_SLACK) == Some(rs)
  {
    forall r ensures DecodeFields(SLACK, SlackFields(r), NO_SLACK) == Ok(r) { SlackRoundTrip(r); }
    RecordsRoundTrip(SLACK, SlackFields, r => r, rs, NO_SLACK);
    MappedSame((r: SlackMember) => r, rs);
  }

  // ---------------------------------------------------------------- SampleEvent

  datatype SampleEvent = SampleEvent(id: string, caption: string, raw: string)

  const NO_SAMPLE := SampleEvent("", "", "")

  const SAMPLE_NAMES := ["id", "label", "raw"]

  predicate SampleTyped(i: nat, v: Value) {
    match i
    case _ => v.VStr?
  }

  function SampleAssign(r: SampleEvent, i: nat, v: Value): SampleEvent {
    match i
    case 0 => r.(id := StrIn(v))
    case 1 => r.(caption := StrIn(v))
    case 2 => r.(raw := StrIn(v))
    case _ => r
  }

  const SAMPLE: Schema<SampleEvent> := Schema(SAMPLE_NAMES, SampleTyped, SampleAssign, [0, 1, 2])

  lemma SampleLawful()
    ensures Lawful(SAMPLE)
  {
    assert Distinct(SAMPLE_NAMES);
    forall r, i: nat, v, j: nat, w | i != j
      ensures SampleAssign(SampleAssign(r, i, v), j, w) == SampleAssign(SampleAssign(r, j, w), i, v)
    {
    }
  }

  function SampleVals(s: SampleEvent): seq<Option<Value>> {
    [Some(VStr(s.id)), Some(VStr(s.caption)), Some(VStr(s.raw))]
  }

  function SampleFields(s: SampleEvent): Fields { Emit(SAMPLE_NAMES, SampleVals(s), 0) }

  function SampleState(s: SampleEvent, i: nat): SampleEvent {
    SampleEvent(if i > 0 then s.id else "", if i > 1 then s.caption else "", if i > 2 then s.raw else "")
  }

  lemma SampleRoundTrip(s: SampleEvent)
    ensures DecodeFields(SAMPLE, SampleFields(s), NO_SAMPLE) == Ok(s)
  {
    forall j | 0 <= j < 3
      ensures SampleVals(s)[j].Some? ==> SampleTyped(j, SampleVals(s)[j].value)
      ensures SampleState(s, j + 1) == Step(SAMPLE, j, SampleVals(s)[j], SampleState(s, j))
    {
    }
    EmitDecodes(SAMPLE, SampleVals(s), (i: nat) => SampleState(s, i));
  }

  lemma SampleArray(rs: seq<SampleEvent>)
    ensures RecordsIn(SAMPLE, RecordElems(SampleFields, rs), NO_SAMPLE) == Some(rs)
  {
    forall r ensures DecodeFields(SAMPLE, SampleFields(r), NO_SAMPLE) == Ok(r) { SampleRoundTrip(r); }
    RecordsRoundTrip(SAMPLE, SampleFields, r => r, rs, NO_SAMPLE);
    MappedSame((r: SampleEvent) => r, rs);
  }

  // ---------------------------------------------------------------- LinearSettings

  datatype LinearSettings = LinearSettings(settingId: Option<string>, creationMode: string,
    triggerStatus: Option<string>, nameTemplate: Option<string>, topicTemplate: Option<string>,
    conditionExpr: Option<string>, archiveMode: Option<string>, archiveStatus: Option<string>,
    archiveConditionExpr: Option<string>, autoAddMembers: Option<seq<string>>, teamId: string)

  const NO_SETTINGS := LinearSettings(None, "", None, None, None, None, None, None, None, None, "")

  const SETTINGS_NAMES := ["settingId", "creationMode", "triggerStatus", "nameTemplate", "topicTemplate",
    "conditionExpr", "archiveMode", "archiveStatus", "archiveConditionExpr", "autoAddMembers", "teamId"]

  predicate SettingsTyped(i: nat, v: Value) {
    match i
    case 9 => v.VArr? && StringsIn(v.elems).Some?
    case _ => v.VStr?
  }

  function SettingsAssign(r: LinearSettings, i: nat, v: Value): LinearSettings {
    match i
    case 0 => r.(settingId := Some(StrIn(v)))
    case 1 => r.(creationMode := StrIn(v))
    case 2 => r.(triggerStatus := Some(StrIn(v)))
    case 3 => r.(nameTemplate := Some(StrIn(v)))
    case 4 => r.(topicTemplate := Some(StrIn(v)))
    case 5 => r.(conditionExpr := Some(StrIn(v)))
    case 6 => r.(archiveMode := Some(StrIn(v)))
    case 7 => r.(archiveStatus := Some(StrIn(v)))
    case 8 => r.(archiveConditionExpr := Some(StrIn(v)))
    case 9 => r.(autoAddMembers := Some(if v.VArr? then OrEmpty(StringsIn(v.elems)) else []))
    case 10 => r.(teamId := StrIn(v))
    case _ => r
  }

  const SETTINGS: Schema<LinearSettings> := Schema(SETTINGS_NAMES, SettingsTyped, SettingsAssign, [1, 9, 10])

  /** The same assignment, field by field. */
  lemma SettingsAssigned(r: LinearSettings, i: nat, v: Value)
    ensures SettingsAssign(r, i, v) == LinearSettings(
      if i == 0 then Some(StrIn(v)) else r.settingId,
      if i == 1 then StrIn(v) else r.creationMode,
      if i == 2 then Some(StrIn(v)) else r.triggerStatus,
      if i == 3 then Some(StrIn(v)) else r.nameTemplate,
      if i == 4 then Some(StrIn(v)) else r.topicTemplate,
      if i == 5 then Some(StrIn(v)) else r.conditionExpr,
      if i == 6 then Some(StrIn(v)) else r.archiveMode,
      if i == 7 then Some(StrIn(v)) else r.archiveStatus,
      if i == 8 then Some(StrIn(v)) else r.archiveConditionExpr,
      if i == 9 then Some(if v.VArr? then OrEmpty(StringsIn(v.elems)) else []) else r.autoAddMembers,
      if i == 10 then StrIn(v) else r.teamId)
  {
  }

  lemma SettingsLawful()
    ensures Lawful(SETTINGS)
  {
    assert Distinct(SETTINGS_NAMES);
    forall r, i: nat, v, j: nat, w | i != j
      ensures SettingsAssign(SettingsAssign(r, i, v), j, w) == SettingsAssign(SettingsAssign(r, j, w), i, v)
    {
    }
  }

  function SettingsVals(s: LinearSettings): seq<Option<Value>> {
    [OptStr(s.settingId), Some(VStr(s.creationMode)), OptStr(s.triggerStatus), OptStr(s.nameTemplate),
     OptStr(s.topicTemplate), OptStr(s.conditionExpr), OptStr(s.archiveMode), OptStr(s.archiveStatus),
     OptStr(s.archiveConditionExpr), Some(VArr(StringElems(OrEmpty(s.autoAddMembers)))), Some(VStr(s.teamId))]
  }

  function SettingsFields(s: LinearSettings): Fields { Emit(SETTINGS_NAMES, SettingsVals(s), 0) }

  /** What reading a written record gives: nil lists have become empty. */
  function SettingsRead(s: LinearSettings): LinearSettings {
    s.(autoAddMembers := Some(OrEmpty(s.autoAddMembers)))
  }

  function SettingsState(s: LinearSettings, i: nat): LinearSettings {
    LinearSettings(if i > 0 then s.settingId else None, if i > 1 then s.creationMode else "",
      if i > 2 then s.triggerStatus else None, if i > 3 then s.nameTemplate else None,
      if i > 4 then s.topicTemplate else None, if i > 5 then s.conditionExpr else None,
      if i > 6 then s.archiveMode else None, if i > 7 then s.archiveStatus else None,
      if i > 8 then s.archiveConditionExpr else None, if i > 9 then s.autoAddMembers else None,
      if i > 10 then s.teamId else "")
  }

  lemma SettingsWellTyped(s: LinearSettings, j: nat)
    requires j < 11
    ensures SettingsVals(s)[j].Some? ==> SettingsTyped(j, SettingsVals(s)[j].value)
  {
    StringsRoundTrip(OrEmpty(s.autoAddMembers));
  }

  lemma SettingsStep(s: LinearSettings, j: nat)
    requires j < 11
    ensures SettingsState(SettingsRead(s), j + 1) ==
      Step(SETTINGS, j, SettingsVals(s)[j], SettingsState(SettingsRead(s), j))
  {
    StringsRoundTrip(OrEmpty(s.autoAddMembers));
    if SettingsVals(s)[j].Some? { SettingsAssigned(SettingsState(SettingsRead(s), j), j, SettingsVals(s)[j].value); }
  }

  lemma SettingsRoundTrip(s: LinearSettings)
    ensures DecodeFields(SETTINGS, SettingsFields(s), NO_SETTINGS) == Ok(SettingsRead(s))
  {
    SettingsLawful();
    forall j | 0 <= j < 11
      ensures SettingsVals(s)[j].Some? ==> SettingsTyped(j, SettingsVals(s)[j].value)
      ensures SettingsState(SettingsRead(s), j + 1) ==
        Step(SETTINGS, j, SettingsVals(s)[j], SettingsState(SettingsRead(s), j))
    {
      SettingsWellTyped(s, j);
      SettingsStep(s, j);
    }
    EmitDecodes(SETTINGS, SettingsVals(s), (i: nat) => SettingsState(SettingsRead(s), i));
  }

  lemma SettingsArray(rs: seq<LinearSettings>)
    ensures RecordsIn(SETTINGS, RecordElems(SettingsFields, rs), NO_SETTINGS) == Some(Mapped(SettingsRead, rs))
  {
    forall r ensures DecodeFields(SETTINGS, SettingsFields(r), NO_SETTINGS) == Ok(SettingsRead(r)) {
      SettingsRoundTrip(r);
    }
    RecordsRoundTrip(SETTINGS, SettingsFields, SettingsRead, rs, NO_SETTINGS);
  }

  // ---------------------------------------------------------------- LinearSettingsResponse

  datatype LinearSettingsResponse = LinearSettingsResponse(connected: bool,
    configs: Option<seq<LinearSettings>>, teams: Option<seq<LinearTeamState>>,
    slackMembers: Option<seq<SlackMember>>, sampleEvents: Option<seq<SampleEvent>>)

  const NO_RESPONSE := LinearSettingsResponse(false, None, None, None, None)

  const RESPONSE_NAMES := ["connected", "configs", "teams", "slackMembers", "sampleEvents"]

  predicate ResponseTyped(i: nat, v: Value) {
    match i
    case 0 => v.VBool?
    case 1 => ArrayIn(SETTINGS, v, NO_SETTINGS).Some?
    case 2 => ArrayIn(TEAM, v, NO_TEAM).Some?
    case 3 => ArrayIn(SLACK, v, NO_SLACK).Some?
    case 4 => ArrayIn(SAMPLE, v, NO_SAMPLE).Some?
    case _ => v.VStr?
  }

  function ResponseAssign(r: LinearSettingsResponse, i: nat, v: Value): LinearSettingsResponse {
    match i
    case 0 => r.(connected := BoolIn(v))
    case 1 => r.(configs := Some(OrEmpty(ArrayIn(SETTINGS, v, NO_SETTINGS))))
    case 2 => r.(teams := Some(OrEmpty(ArrayIn(TEAM, v, NO_TEAM))))
    case 3 => r.(slackMembers := Some(OrEmpty(ArrayIn(SLACK, v, NO_SLACK))))
    case 4 => r.(sampleEvents := Some(OrEmpty(ArrayIn(SAMPLE, v, NO_SAMPLE))))
    case _ => r
  }

  const RESPONSE: Schema<LinearSettingsResponse> :=
    Schema(RESPONSE_NAMES, ResponseTyped, ResponseAssign, [0, 1, 2, 3, 4])

  lemma ResponseLawful()
    ensures Lawful(RESPONSE)
  {
    assert Distinct(RESPONSE_NAMES);
    forall r, i: nat, v, j: nat, w | i != j
      ensures ResponseAssign(ResponseAssign(r, i, v), j, w) == ResponseAssign(ResponseAssign(r, j, w), i, v)
    {
    }
  }

  function ResponseVals(s: LinearSettingsResponse): seq<Option<Value>> {
    [Some(VBool(s.connected)), Some(VArr(RecordElems(SettingsFields, OrEmpty(s.configs)))),
     Some(VArr(RecordElems(TeamFields, OrEmpty(s.teams)))),
     Some(VArr(RecordElems(SlackFields, OrEmpty(s.slackMembers)))),
     Some(VArr(RecordElems(SampleFields, OrEmpty(s.sampleEvents))))]
  }

  function ResponseFields(s: LinearSettingsResponse): Fields { Emit(RESPONSE_NAMES, ResponseVals(s), 0) }

  /** What reading a written record gives: nil lists have become empty. */
  function ResponseRead(s: LinearSettingsResponse): LinearSettingsResponse {
    s.(configs := Some(Mapped(SettingsRead, OrEmpty(s.configs))),
       teams := Some(Mapped(TeamRead, OrEmpty(s.teams))), slackMembers := Some(OrEmpty(s.slackMembers)),
       sampleEvents := Some(OrEmpty(s.sampleEvents)))
  }

  function ResponseState(s: LinearSettingsResponse, i: nat): LinearSettingsResponse {
    LinearSettingsResponse(if i > 0 then s.connected else false,
      if i > 1 then s.configs else None, if i > 2 then s.teams else None,
      if i > 3 then s.slackMembers else None, if i > 4 then s.sampleEvents else None)
  }

  lemma ResponseStep(s: LinearSettingsResponse, j: nat)
    requires j < 5
    ensures ResponseVals(s)[j].Some? ==> ResponseTyped(j, ResponseVals(s)[j].value)
    ensures ResponseState(ResponseRead(s), j + 1) ==
      Step(RESPONSE, j, ResponseVals(s)[j], ResponseState(ResponseRead(s), j))
  {
    SettingsArray(OrEmpty(s.configs));
    TeamArray(OrEmpty(s.teams));
    SlackArray(OrEmpty(s.slackMembers));
    SampleArray(OrEmpty(s.sampleEvents));
  }

  lemma ResponseRoundTrip(s: LinearSettingsResponse)
    ensures DecodeFields(RESPONSE, ResponseFields(s), NO_RESPONSE) == Ok(ResponseRead(s))
  {
    ResponseLawful();
    forall j | 0 <= j < 5
      ensures ResponseVals(s)[j].Some? ==> ResponseTyped(j, ResponseVals(s)[j].value)
      ensures ResponseState(ResponseRead(s), j + 1) ==
        Step(RESPONSE, j, ResponseVals(s)[j], ResponseState(ResponseRead(s), j))
    {
      ResponseStep(s, j);
    }
    EmitDecodes(RESPONSE, ResponseVals(s), (i: nat) => ResponseState(ResponseRead(s), i));
  }

  /** Written as tokens, with anything after them, a whole response reads back, through the records in its
      lists and the lists in those, and the reader ends where the response does. */
  lemma ResponseReadsBack(s: LinearSettingsResponse, rest: seq<Token>)
    ensures var read := ParseValue(Tokens(VObj(ResponseFields(s))) + rest);
      read.Some? && read.value.1 == rest && Decode(RESPONSE, read.value.0, NO_RESPONSE) == Ok(ResponseRead(s))
  {
    ParseTokens(VObj(ResponseFields(s)), rest);
    ResponseRoundTrip(s);
  }

  // ---------------------------------------------------------------- Organization

  datatype Organization = Organization(id: string, name: string, role: Option<string>)

  const NO_ORG := Organization("", "", None)

  const ORG_NAMES := ["id", "name", "role"]

  predicate OrgTyped(i: nat, v: Value) {
    match i
    case _ => v.VStr?
  }

  function OrgAssign(r: Organization, i: nat, v: Value): Organization {
    match i
    case 0 => r.(id := StrIn(v))
    case 1 => r.(name := StrIn(v))
    case 2 => r.(role := Some(StrIn(v)))
    case _ => r
  }

  const ORG: Schema<Organization> := Schema(ORG_NAMES, OrgTyped, OrgAssign, [0, 1])

  lemma OrgLawful()
    ensures Lawful(ORG)
  {
    assert Distinct(ORG_NAMES);
    forall r, i: nat, v, j: nat, w | i != j
      ensures OrgAssign(OrgAssign(r, i, v), j, w) == OrgAssign(OrgAssign(r, j, w), i, v)
    {
    }
  }

  function OrgVals(s: Organization): seq<Option<Value>> {
    [Some(VStr(s.id)), Some(VStr(s.name)), OptStr(s.role)]
  }

  function OrgFields(s: Organization): Fields { Emit(ORG_NAMES, OrgVals(s), 0) }

  function OrgState(s: Organization, i: nat): Organization {
    Organization(if i > 0 then s.id else "", if i > 1 then s.name else "", if i > 2 then s.role else None)
  }

  lemma OrgRoundTrip(s: Organization)
    ensures DecodeFields(ORG, OrgFields(s), NO_ORG) == Ok(s)
  {
    forall j | 0 <= j < 3
      ensures OrgVals(s)[j].Some? ==> OrgTyped(j, OrgVals(s)[j].value)
      ensures OrgState(s, j + 1) == Step(ORG, j, OrgVals(s)[j], OrgState(s, j))
    {
    }
    EmitDecodes(ORG, OrgVals(s), (i: nat) => OrgState(s, i));
  }

  lemma OrgArray(rs: seq<Organization>)
    ensures RecordsIn(ORG, RecordElems(OrgFields, rs), NO_ORG) == Some(rs)
  {
    forall r ensures DecodeFields(ORG, OrgFields(r), NO_ORG) == Ok(r) { OrgRoundTrip(r); }
    RecordsRoundTrip(ORG, OrgFields, r => r, rs, NO_ORG);
    MappedSame((r: Organization) => r, rs);
  }

  // ---------------------------------------------------------------- BillingSummary and UserResponse

  /** How instants are written and read (`json.EncodeDateTime`, `json.DecodeDateTime`), in nanoseconds. */
  datatype Clock = Clock(format: int -> string, parse: string -> Option<int>)
  {
    /** What an instant is read back as, if it is. */
    function ReadBack(t: int): Option<int> { parse(format(t)) }
  }

  datatype BillingSummary = BillingSummary(plan: string, locked: bool, trialEndsAt: int)

  const NO_BILLING := BillingSummary("", false, 0)

  predicate BillingTyped(c: Clock, i: nat, v: Value) {
    match i
    case 1 => v.VBool?
    case 2 => v.VStr? && c.parse(v.s).Some?
    case _ => v.VStr?
  }

  function BillingAssign(c: Clock, r: BillingSummary, i: nat, v: Value): BillingSummary {
    match i
    case 0 => r.(plan := StrIn(v))
    case 1 => r.(locked := BoolIn(v))
    case 2 => r.(trialEndsAt := if c.parse(StrIn(v)).Some? then c.parse(StrIn(v)).value else 0)
    case _ => r
  }

  const BILLING_NAMES := ["plan", "locked", "trialEndsAt"]

  function Billing(c: Clock): Schema<BillingSummary> {
    Schema(BILLING_NAMES, (i: nat, v: Value) => BillingTyped(c, i, v),
      (r: BillingSummary, i: nat, v: Value) => BillingAssign(c, r, i, v), [0, 1, 2])
  }

  function BillingVals(c: Clock, s: BillingSummary): seq<Option<Value>> {
    [Some(VStr(s.plan)), Some(VBool(s.locked)), Some(VStr(c.format(s.trialEndsAt)))]
  }

  function BillingFields(c: Clock, s: BillingSummary): Fields { Emit(BILLING_NAMES, BillingVals(c, s), 0) }

  lemma BillingLawful(c: Clock)
    ensures Lawful(Billing(c))
  {
    assert Distinct(BILLING_NAMES);
  }

  function BillingState(s: BillingSummary, i: nat): BillingSummary {
    BillingSummary(if i > 0 then s.plan else "", i > 1 && s.locked, if i > 2 then s.trialEndsAt else 0)
  }

  /** What reading a written summary gives: the instant is what the clock makes of it, or nothing. */
  function BillingRead(c: Clock, s: BillingSummary): Result<BillingSummary, DecodeError> {
    match c.ReadBack(s.trialEndsAt)
    case None => Err(BadField("trialEndsAt"))
    case Some(t) => Ok(s.(trialEndsAt := t))
  }

  lemma BillingDecodes(c: Clock, s: BillingSummary, t: int)
    requires c.ReadBack(s.trialEndsAt) == Some(t)
    ensures DecodeFields(Billing(c), BillingFields(c, s), NO_BILLING) == Ok(s.(trialEndsAt := t))
  {
    var r := s.(trialEndsAt := t);
    forall j | 0 <= j < 3
      ensures BillingTyped(c, j, BillingVals(c, s)[j].value)
      ensures BillingState(r, j + 1) == Step(Billing(c), j, BillingVals(c, s)[j], BillingState(r, j))
    {
    }
    EmitDecodes(Billing(c), BillingVals(c, s), (i: nat) => BillingState(r, i));
  }

  /** For every clock and summary; so it comes back unchanged exactly if its one instant does. */
  lemma BillingRoundTrip(c: Clock, s: BillingSummary)
    ensures DecodeFields(Billing(c), BillingFields(c, s), NO_BILLING) == BillingRead(c, s)
    ensures DecodeFields(Billing(c), BillingFields(c, s), NO_BILLING) == Ok(s) <==>
      c.ReadBack(s.trialEndsAt) == Some(s.trialEndsAt)
  {
    match c.ReadBack(s.trialEndsAt)
    case Some(t) => BillingDecodes(c, s, t);
    case None =>
      assert Distinct(BILLING_NAMES);
      EmitFails(Billing(c), BillingVals(c, s), 2, NO_BILLING);
  }

  const SECOND := 1_000_000_000

  /** A clock whose text has no fractions of a second, and only instants from its epoch on. */
  const WHOLE_SECONDS := Clock(
    t => if t < 0 then "" else Itoa(t / SECOND),
    s => match Atoi(s) case None => None case Some(n) => Some(n * SECOND))

  lemma SecondsReadBack(t: int)
    requires t >= 0
    ensures WHOLE_SECONDS.ReadBack(t) == Some(t - t % SECOND)
  {
    ItoaReads(t / SECOND);
    assert t / SECOND * SECOND == t - t % SECOND;
  }

  /** With such a clock the fraction is lost: only an instant on a full second comes back. */
  lemma BillingFractionLost(s: BillingSummary)
    requires s.trialEndsAt >= 0
    ensures var t := s.trialEndsAt;
      var read := DecodeFields(Billing(WHOLE_SECONDS), BillingFields(WHOLE_SECONDS, s), NO_BILLING);
      read == Ok(s.(trialEndsAt := t - t % SECOND)) && (read == Ok(s) <==> t % SECOND == 0)
  {
    SecondsReadBack(s.trialEndsAt);
    BillingRoundTrip(WHOLE_SECONDS, s);
  }

  datatype UserResponse = UserResponse(
    id: string, email: string, firstName: Option<string>, lastName: Option<string>,
    profilePictureUrl: Option<string>, organizationId: Option<string>, role: Option<string>,
    organizations: Option<seq<Organization>>, billing: Option<BillingSummary>)

  const NO_USER := UserResponse("", "", None, None, None, None, None, None, None)

  const USER_NAMES := ["id", "email", "firstName", "lastName", "profilePictureUrl", "organizationId", "role",
    "organizations", "billing"]

  predicate UserTyped(c: Clock, i: nat, v: Value) {
    match i
    case 7 => ArrayIn(ORG, v, NO_ORG).Some?
    case 8 => Decode(Billing(c), v, NO_BILLING).Ok?
    case _ => v.VStr?
  }

  function BillingIn(c: Clock, v: Value): BillingSummary {
    match Decode(Billing(c), v, NO_BILLING) case Ok(b) => b case Err(_) => NO_BILLING
  }

  function UserAssign(c: Clock, r: UserResponse, i: nat, v: Value): UserResponse {
    match i
    case 0 => r.(id := StrIn(v))
    case 1 => r.(email := StrIn(v))
    case 2 => r.(firstName := Some(StrIn(v)))
    case 3 => r.(lastName := Some(StrIn(v)))
    case 4 => r.(profilePictureUrl := Some(StrIn(v)))
    case 5 => r.(organizationId := Some(StrIn(v)))
    case 6 => r.(role := Some(StrIn(v)))
    case 7 => r.(organizations := Some(OrEmpty(ArrayIn(ORG, v, NO_ORG))))
    case 8 => r.(billing := Some(BillingIn(c, v)))
    case _ => r
  }

  function User(c: Clock): Schema<UserResponse> {
    Schema(USER_NAMES, (i: nat, v: Value) => UserTyped(c, i, v),
      (r: UserResponse, i: nat, v: Value) => UserAssign(c, r, i, v), [0, 1])
  }

  /** The same assignment, field by field. */
  lemma UserAssigned(c: Clock, r: UserResponse, i: nat, v: Value)
    ensures UserAssign(c, r, i, v) == UserResponse(
      if i == 0 then StrIn(v) else r.id,
      if i == 1 then StrIn(v) else r.email,
      if i == 2 then Some(StrIn(v)) else r.firstName,
      if i == 3 then Some(StrIn(v)) else r.lastName,
      if i == 4 then Some(StrIn(v)) else r.profilePictureUrl,
      if i == 5 then Some(StrIn(v)) else r.organizationId,
      if i == 6 then Some(StrIn(v)) else r.role,
      if i == 7 then Some(OrEmpty(ArrayIn(ORG, v, NO_ORG))) else r.organizations,
      if i == 8 then Some(BillingIn(c, v)) else r.billing)
  {
  }

  lemma UserCommute(c: Clock, r: UserResponse, i: nat, v: Value, j: nat, w: Value)
    requires i != j
    ensures UserAssign(c, UserAssign(c, r, i, v), j, w) == UserAssign(c, UserAssign(c, r, j, w), i, v)
  {
    UserAssigned(c, r, i, v);
    UserAssigned(c, UserAssign(c, r, i, v), j, w);
    UserAssigned(c, r, j, w);
    UserAssigned(c, UserAssign(c, r, j, w), i, v);
  }

  lemma UserLawful(c: Clock)
    ensures Lawful(User(c))
  {
    assert Distinct(USER_NAMES);
    forall r, i: nat, v, j: nat, w | i != j
      ensures UserAssign(c, UserAssign(c, r, i, v), j, w) == UserAssign(c, UserAssign(c, r, j, w), i, v)
    {
      UserCommute(c, r, i, v, j, w);
    }
  }

  function OrgsVal(o: Option<seq<Organization>>): Option<Value> {
    match o case None => None case Some(rs) => Some(VArr(RecordElems(OrgFields, rs)))
  }

  function BillingVal(c: Clock, o: Option<BillingSummary>): Option<Value> {
    match o case None => None case Some(b) => Some(VObj(BillingFields(c, b)))
  }

  function UserVals(c: Clock, s: UserResponse): seq<Option<Value>> {
    [Some(VStr(s.id)), Some(VStr(s.email)), OptStr(s.firstName), OptStr(s.lastName), OptStr(s.profilePictureUrl),
     OptStr(s.organizationId), OptStr(s.role), OrgsVal(s.organizations), BillingVal(c, s.billing)]
  }

  function UserFields(c: Clock, s: UserResponse): Fields { Emit(USER_NAMES, UserVals(c, s), 0) }

  function UserState(s: UserResponse, i: nat): UserResponse {
    UserResponse(if i > 0 then s.id else "", if i > 1 then s.email else "", if i > 2 then s.firstName else None,
      if i > 3 then s.lastName else None, if i > 4 then s.profilePictureUrl else None,
      if i > 5 then s.organizationId else None, if i > 6 then s.role else None,
      if i > 7 then s.organizations else None, if i > 8 then s.billing else None)
  }

  lemma UserPlainStep(c: Clock, s: UserResponse, j: nat)
    requires j < 7
    ensures UserVals(c, s)[j].Some? ==> UserVals(c, s)[j].value.VStr?
    ensures UserState(s, j + 1) == Step(User(c), j, UserVals(c, s)[j], UserState(s, j))
  {
  }

  lemma UserOrganizationsStep(c: Clock, s: UserResponse)
    ensures OrgsVal(s.organizations).Some? ==> UserTyped(c, 7, OrgsVal(s.organizations).value)
    ensures UserState(s, 8) == Step(User(c), 7, OrgsVal(s.organizations), UserState(s, 7))
  {
    if s.organizations.Some? { OrgArray(s.organizations.value); }
  }

  /** The last field, if it decodes: `r` is the user with the summary that was read. */
  lemma UserBillingStep(c: Clock, s: UserResponse, r: UserResponse)
    requires UserRead(c, s) == Ok(r)
    ensures BillingVal(c, s.billing).Some? ==> UserTyped(c, 8, BillingVal(c, s.billing).value)
    ensures UserState(r, 9) == Step(User(c), 8, BillingVal(c, s.billing), UserState(r, 8))
  {
    if s.billing.Some? { BillingRoundTrip(c, s.billing.value); }
  }

  /** What reading a written user gives: everything as it was but the summary, which is what reading it gives. */
  function UserRead(c: Clock, s: UserResponse): Result<UserResponse, DecodeError> {
    match s.billing
    case None => Ok(s)
    case Some(b) =>
      match BillingRead(c, b)
      case Err(_) => Err(BadField("billing"))
      case Ok(read) => Ok(s.(billing := Some(read)))
  }

  /** Up to the last field the summary does not matter. */
  lemma UserEarlierStep(c: Clock, s: UserResponse, r: UserResponse, j: nat)
    requires j < 8 && r == s.(billing := r.billing)
    ensures UserVals(c, s)[j].Some? ==> UserTyped(c, j, UserVals(c, s)[j].value)
    ensures UserState(r, j + 1) == Step(User(c), j, UserVals(c, s)[j], UserState(r, j))
  {
    assert UserVals(c, s)[j] == UserVals(c, r)[j];
    if j == 7 {
      UserOrganizationsStep(c, r);
    } else {
      UserPlainStep(c, r, j);
    }
  }

  lemma UserDecodes(c: Clock, s: UserResponse, r: UserResponse)
    requires UserRead(c, s) == Ok(r)
    ensures DecodeFields(User(c), UserFields(c, s), NO_USER) == Ok(r)
  {
    forall j | 0 <= j < 9
      ensures UserVals(c, s)[j].Some? ==> UserTyped(c, j, UserVals(c, s)[j].value)
      ensures UserState(r, j + 1) == Step(User(c), j, UserVals(c, s)[j], UserState(r, j))
    {
      if j == 8 {
        UserBillingStep(c, s, r);
      } else {
        UserEarlierStep(c, s, r, j);
      }
    }
    EmitDecodes(User(c), UserVals(c, s), (i: nat) => UserState(r, i));
  }

  /** The summary's instant cannot be read: it is the first field that cannot. */
  lemma UserFails(c: Clock, s: UserResponse)
    requires UserRead(c, s).Err?
    ensures DecodeFields(User(c), UserFields(c, s), NO_USER) == Err(BadField("billing"))
  {
    BillingRoundTrip(c, s.billing.value);
    assert Distinct(USER_NAMES);
    forall j | 0 <= j < 8 ensures UserVals(c, s)[j].Some? ==> UserTyped(c, j, UserVals(c, s)[j].value) {
      UserEarlierStep(c, s, s, j);
    }
    EmitFails(User(c), UserVals(c, s), 8, NO_USER);
  }

  /** The user has no summary, or one whose instant its text keeps. */
  predicate InstantKept(c: Clock, s: UserResponse) {
    s.billing.Some? ==> c.ReadBack(s.billing.value.trialEndsAt) == Some(s.billing.value.trialEndsAt)
  }

  /** For every clock and user. The optional organization list keeps nil and empty apart, and unset optionals
      stay unset; so the user comes back unchanged exactly if the one instant in it, if any, does. */
  lemma UserRoundTrip(c: Clock, s: UserResponse)
    ensures DecodeFields(User(c), UserFields(c, s), NO_USER) == UserRead(c, s)
    ensures UserRead(c, s) == Ok(s) <==> InstantKept(c, s)
  {
    match UserRead(c, s)
    case Ok(r) => UserDecodes(c, s, r);
    case Err(_) => UserFails(c, s);
  }

  /** The same for a user written as tokens, with anything after them. */
  lemma UserReadsBack(c: Clock, s: UserResponse, rest: seq<Token>)
    ensures var read := ParseValue(Tokens(VObj(UserFields(c, s))) + rest);
      && read.Some? && read.value.1 == rest
      && Decode(User(c), read.value.0, NO_USER) == UserRead(c, s)
      && (Decode(User(c), read.value.0, NO_USER) == Ok(s) <==> InstantKept(c, s))
  {
    ParseTokens(VObj(UserFields(c, s)), rest);
    UserRoundTrip(c, s);
  }

  // ---------------------------------------------------------------- all records

  /** In every record fields do not interfere and are reset before they are decoded: what follows from the
      laws, that order, earlier duplicates and unknown fields do not matter, holds for each of them. */
  lemma AllLawful(c: Clock)
    ensures Lawful(WORKFLOW) && Lawful(SLACK) && Lawful(SAMPLE) && Lawful(ORG) && Lawful(Billing(c))
    ensures Lawful(TEAM) && Lawful(SETTINGS) && Lawful(RESPONSE) && Lawful(User(c))
  {
    WorkflowLawful();
    SlackLawful();
    SampleLawful();
    OrgLawful();
    BillingLawful(c);
    TeamLawful();
    SettingsLawful();
    ResponseLawful();
    UserLawful(c);
  }
}
