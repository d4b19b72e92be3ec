/** The keys of every record on the wire, written out: which key holds which property, in both directions, and
    what an object must have to be read. */
module RecordKeys {
  import opened Wrappers
  import opened Json
  import opened Schema
  import opened Records

  // ---------------------------------------------------------------- what a key says

  /** The text under a key, the last one if there are several; empty if there is none. */
  function TextAt(fs: Fields, k: string): string {
    match Last(fs, k) case None => "" case Some(v) => StrIn(v)
  }

  function OptTextAt(fs: Fields, k: string): Option<string> {
    match Last(fs, k) case None => None case Some(v) => Some(StrIn(v))
  }

  function FlagAt(fs: Fields, k: string): bool {
    match Last(fs, k) case None => false case Some(v) => BoolIn(v)
  }

  function TextsIn(v: Value): seq<string> {
    if v.VArr? then OrEmpty(StringsIn(v.elems)) else []
  }

  function TextsAt(fs: Fields, k: string): Option<seq<string>> {
    match Last(fs, k) case None => None case Some(v) => Some(TextsIn(v))
  }

  /** The records of the array under a key. */
  function ArrayAt<R>(sc: Schema<R>, fs: Fields, k: string, zero: R): Option<seq<R>> {
    match Last(fs, k) case None => None case Some(v) => Some(OrEmpty(ArrayIn(sc, v, zero)))
  }

  function InstantIn(c: Clock, v: Value): int {
    if c.parse(StrIn(v)).Some? then c.parse(StrIn(v)).value else 0
  }

  function InstantAt(c: Clock, fs: Fields, k: string): int {
    match Last(fs, k) case None => 0 case Some(v) => InstantIn(c, v)
  }

  function SummaryAt(c: Clock, fs: Fields, k: string): Option<BillingSummary> {
    match Last(fs, k) case None => None case Some(v) => Some(BillingIn(c, v))
  }

  // ---------------------------------------------------------------- what must be under a key

  predicate IsText(v: Value) { v.VStr? }
  predicate IsFlag(v: Value) { v.VBool? }
  predicate IsTexts(v: Value) { v.VArr? && StringsIn(v.elems).Some? }
  predicate IsInstant(c: Clock, v: Value) { v.VStr? && c.parse(v.s).Some? }

  /** Every key of the list is there. */
  predicate HasAll(fs: Fields, keys: seq<string>) {
    forall i :: 0 <= i < |keys| ==> HasKey(fs, keys[i])
  }

  /** All values under a key are of this kind. */
  ghost predicate AllAre(fs: Fields, k: string, kind: Value -> bool) {
    forall v :: Has(fs, k, v) ==> kind(v)
  }

  ghost predicate AllOf(fs: Fields, kinds: seq<(string, Value -> bool)>) {
    forall i :: 0 <= i < |kinds| ==> AllAre(fs, kinds[i].0, kinds[i].1)
  }

  /** If this is what the schema says, spelled out, then an object is read exactly if it has the keys and its
      values are of their kinds. */
  lemma Reads<R(!new)>(sc: Schema<R>, fs: Fields, receiver: R, keys: seq<string>, kinds: seq<(string, Value -> bool)>)
    requires Distinct(sc.names) && |kinds| == |sc.names| && |keys| == |sc.required|
    requires forall i :: 0 <= i < |kinds| ==> kinds[i].0 == sc.names[i]
    requires forall i, v :: 0 <= i < |kinds| ==> (sc.typed(i, v) <==> kinds[i].1(v))
    requires forall j :: 0 <= j < |keys| ==> sc.required[j] < |sc.names| && sc.names[sc.required[j]] == keys[j]
    ensures DecodeFields(sc, fs, receiver).Ok? <==> HasAll(fs, keys) && AllOf(fs, kinds)
  {
    DecodesIff(sc, fs, receiver);
    TypedByIndex(sc, fs);
    forall i | 0 <= i < |kinds| ensures ValuesTyped(sc, fs, i) <==> AllAre(fs, kinds[i].0, kinds[i].1) {
    }
    if HasAll(fs, keys) {
      forall i | i in sc.required ensures HasKey(fs, sc.names[i]) {
        var j :| 0 <= j < |keys| && sc.required[j] == i;
        assert HasKey(fs, keys[j]);
      }
    } else {
      var j :| 0 <= j < |keys| && !HasKey(fs, keys[j]);
      assert sc.required[j] in sc.required;
    }
  }

  // ---------------------------------------------------------------- LinearWorkflowState

  /** Which key holds which property of a written record. */
  lemma WorkflowKeys(s: LinearWorkflowState)
    ensures var fs := WorkflowFields(s);
      && Last(fs, "id") == Some(VStr(s.id))
      && Last(fs, "name") == Some(VStr(s.name))
      && Last(fs, "type") == Some(VStr(s.kind))
      && Last(fs, "color") == OptStr(s.color)
  {
    WorkflowLawful();
    forall j | 0 <= j < 4 ensures Last(WorkflowFields(s), WORKFLOW_NAMES[j]) == WorkflowVals(s)[j] {
      EmitLast(WORKFLOW_NAMES, WorkflowVals(s), 0, j);
    }
    assert WORKFLOW_NAMES[0] == "id";
    assert WORKFLOW_NAMES[1] == "name";
    assert WORKFLOW_NAMES[2] == "type";
    assert WORKFLOW_NAMES[3] == "color";
  }

  ghost function WorkflowKinds(): seq<(string, Value -> bool)> {
    [("id", IsText), ("name", IsText), ("type", IsText), ("color", IsText)]
  }

  /** An object is read as a `LinearWorkflowState` exactly if it has the required keys and all
      values are of their keys' kinds. */
  lemma WorkflowIsRead(fs: Fields)
    ensures DecodeFields(WORKFLOW, fs, NO_WORKFLOW).Ok? <==>
      HasAll(fs, ["id", "name", "type"]) && AllOf(fs, WorkflowKinds())
  {
    WorkflowLawful();
    forall i, v | 0 <= i < 4
      ensures WorkflowKinds()[i].0 == WORKFLOW_NAMES[i] && (WORKFLOW.typed(i, v) <==> WorkflowKinds()[i].1(v))
    {
    }
    var keys := ["id", "name", "type"];
    Reads(WORKFLOW, fs, NO_WORKFLOW, keys, WorkflowKinds());
  }

  /** What the keys of an object say. */
  function WorkflowAt(fs: Fields): LinearWorkflowState {
    LinearWorkflowState(TextAt(fs, "id"), TextAt(fs, "name"), TextAt(fs, "type"), OptTextAt(fs, "color"))
  }

  lemma WorkflowSaysStep(fs: Fields, j: nat)
    requires j < 4
    ensures var r := WorkflowAt(fs);
      WorkflowState(r, j + 1) == Step(WORKFLOW, j, Last(fs, WORKFLOW_NAMES[j]), WorkflowState(r, j))
  {
  }

  /** An object that is read is what its keys say. */
  lemma WorkflowSays(fs: Fields)
    requires DecodeFields(WORKFLOW, fs, NO_WORKFLOW).Ok?
    ensures DecodeFields(WORKFLOW, fs, NO_WORKFLOW) == Ok(WorkflowAt(fs))
  {
    WorkflowLawful();
    var r := WorkflowAt(fs);
    forall j | 0 <= j < 4
      ensures WorkflowState(r, j + 1) == Step(WORKFLOW, j, Last(fs, WORKFLOW_NAMES[j]), WorkflowState(r, j))
    {
      WorkflowSaysStep(fs, j);
    }
    LastsFold(WORKFLOW, fs, (i: nat) => WorkflowState(r, i));
  }

  // ---------------------------------------------------------------- LinearTeamState

  /** Which key holds which property of a written record. */
  lemma TeamKeys(s: LinearTeamState)
    ensures var fs := TeamFields(s);
      && Last(fs, "teamId") == Some(VStr(s.teamId))
      && Last(fs, "teamKey") == OptStr(s.teamKey)
      && Last(fs, "teamName") == Some(VStr(s.teamName))
      && Last(fs, "states") == Some(VArr(RecordElems(WorkflowFields, OrEmpty(s.states))))
  {
    TeamLawful();
    forall j | 0 <= j < 4 ensures Last(TeamFields(s), TEAM_NAMES[j]) == TeamVals(s)[j] {
      EmitLast(TEAM_NAMES, TeamVals(s), 0, j);
    }
    assert TEAM_NAMES[0] == "teamId";
    assert TEAM_NAMES[1] == "teamKey";
    assert TEAM_NAMES[2] == "teamName";
    assert TEAM_NAMES[3] == "states";
  }

  ghost function TeamKinds(): seq<(string, Value -> bool)> {
    [("teamId", IsText), ("teamKey", IsText), ("teamName", IsText),
     ("states", v => ArrayIn(WORKFLOW, v, NO_WORKFLOW).Some?)]
  }

  /** An object is read as a `LinearTeamState` exactly if it has the required keys and all
      values are of their keys' kinds. */
  lemma TeamIsRead(fs: Fields)
    ensures DecodeFields(TEAM, fs, NO_TEAM).Ok? <==>
      HasAll(fs, ["teamId", "teamName", "states"]) && AllOf(fs, TeamKinds())
  {
    TeamLawful();
    forall i, v | 0 <= i < 4
      ensures TeamKinds()[i].0 == TEAM_NAMES[i] && (TEAM.typed(i, v) <==> TeamKinds()[i].1(v))
    {
    }
    var keys := ["teamId", "teamName", "states"];
    Reads(TEAM, fs, NO_TEAM, keys, TeamKinds());
  }

  /** What the keys of an object say. */
  function TeamAt(fs: Fields): LinearTeamState {
    LinearTeamState(TextAt(fs, "teamId"), OptTextAt(fs, "teamKey"), TextAt(fs, "teamName"),
      ArrayAt(WORKFLOW, fs, "states", NO_WORKFLOW))
  }

  lemma TeamSaysStep(fs: Fields, j: nat)
    requires j < 4
    ensures var r := TeamAt(fs);
      TeamState(r, j + 1) == Step(TEAM, j, Last(fs, TEAM_NAMES[j]), TeamState(r, j))
  {
  }

  /** An object that is read is what its keys say. */
  lemma TeamSays(fs: Fields)
    requires DecodeFields(TEAM, fs, NO_TEAM).Ok?
    ensures DecodeFields(TEAM, fs, NO_TEAM) == Ok(TeamAt(fs))
  {
    TeamLawful();
    var r := TeamAt(fs);
    forall j | 0 <= j < 4
      ensures TeamState(r, j + 1) == Step(TEAM, j, Last(fs, TEAM_NAMES[j]), TeamState(r, j))
    {
      TeamSaysStep(fs, j);
    }
    LastsFold(TEAM, fs, (i: nat) => TeamState(r, i));
  }

  // ---------------------------------------------------------------- SlackMember

  /** Which key holds which property of a written record. */
  lemma SlackKeys(s: SlackMember)
    ensures var fs := SlackFields(s);
      && Last(fs, "memberId") == Some(VStr(s.memberId))
      && Last(fs, "name") == Some(VStr(s.name))
      && Last(fs, "email") == OptStr(s.email)
      && Last(fs, "iconUrl") == OptStr(s.iconUrl)
      && Last(fs, "isBot") == Some(VBool(s.isBot))
  {
    SlackLawful();
    forall j | 0 <= j < 5 ensures Last(SlackFields(s), SLACK_NAMES[j]) == SlackVals(s)[j] {
      EmitLast(SLACK_NAMES, SlackVals(s), 0, j);
    }
    assert SLACK_NAMES[0] == "memberId";
    assert SLACK_NAMES[1] == "name";
    assert SLACK_NAMES[2] == "email";
    assert SLACK_NAMES[3] == "iconUrl";
    assert SLACK_NAMES[4] == "isBot";
  }

  ghost function SlackKinds(): seq<(string, Value -> bool)> {
    [("memberId", IsText), ("name", IsText), ("email", IsText), ("iconUrl", IsText), ("isBot", IsFlag)]
  }

  /** An object is read as a `SlackMember` exactly if it has the required keys and all
      values are of their keys' kinds. */
  lemma SlackIsRead(fs: Fields)
    ensures DecodeFields(SLACK, fs, NO_SLACK).Ok? <==>
      HasAll(fs, ["memberId", "name", "isBot"]) && AllOf(fs, SlackKinds())
  {
    SlackLawful();
    forall i, v | 0 <= i < 5
      ensures SlackKinds()[i].0 == SLACK_NAMES[i] && (SLACK.typed(i, v) <==> SlackKinds()[i].1(v))
    {
    }
    var keys := ["memberId", "name", "isBot"];
    Reads(SLACK, fs, NO_SLACK, keys, SlackKinds());
  }

  /** What the keys of an object say. */
  function SlackAt(fs: Fields): SlackMember {
    SlackMember(TextAt(fs, "memberId"), TextAt(fs, "name"), OptTextAt(fs, "email"), OptTextAt(fs, "iconUrl"),
      FlagAt(fs, "isBot"))
  }

  lemma SlackSaysStep(fs: Fields, j: nat)
    requires j < 5
    ensures var r := SlackAt(fs);
      SlackState(r, j + 1) == Step(SLACK, j, Last(fs, SLACK_NAMES[j]), SlackState(r, j))
  {
  }

  /** An object that is read is what its keys say. */
  lemma SlackSays(fs: Fields)
    requires DecodeFields(SLACK, fs, NO_SLACK).Ok?
    ensures DecodeFields(SLACK, fs, NO_SLACK) == Ok(SlackAt(fs))
  {
    SlackLawful();
    var r := SlackAt(fs);
    forall j | 0 <= j < 5
      ensures SlackState(r, j + 1) == Step(SLACK, j, Last(fs, SLACK_NAMES[j]), SlackState(r, j))
    {
      SlackSaysStep(fs, j);
    }
    LastsFold(SLACK, fs, (i: nat) => SlackState(r, i));
  }

  // ---------------------------------------------------------------- SampleEvent

  /** Which key holds which property of a written record. */
  lemma SampleKeys(s: SampleEvent)
    ensures var fs := SampleFields(s);
      && Last(fs, "id") == Some(VStr(s.id))
      && Last(fs, "label") == Some(VStr(s.caption))
      && Last(fs, "raw") == Some(VStr(s.raw))
  {
    SampleLawful();
    forall j | 0 <= j < 3 ensures Last(SampleFields(s), SAMPLE_NAMES[j]) == SampleVals(s)[j] {
      EmitLast(SAMPLE_NAMES, SampleVals(s), 0, j);
    }
    assert SAMPLE_NAMES[0] == "id";
    assert SAMPLE_NAMES[1] == "label";
    assert SAMPLE_NAMES[2] == "raw";
  }

  ghost function SampleKinds(): seq<(string, Value -> bool)> {
    [("id", IsText), ("label", IsText), ("raw", IsText)]
  }

  /** An object is read as a `SampleEvent` exactly if it has the required keys and all
      values are of their keys' kinds. */
  lemma SampleIsRead(fs: Fields)
    ensures DecodeFields(SAMPLE, fs, NO_SAMPLE).Ok? <==>
      HasAll(fs, ["id", "label", "raw"]) && AllOf(fs, SampleKinds())
  {
    SampleLawful();
    forall i, v | 0 <= i < 3
      ensures SampleKinds()[i].0 == SAMPLE_NAMES[i] && (SAMPLE.typed(i, v) <==> SampleKinds()[i].1(v))
    {
    }
    var keys := ["id", "label", "raw"];
    Reads(SAMPLE, fs, NO_SAMPLE, keys, SampleKinds());
  }

  /** What the keys of an object say. */
  function SampleAt(fs: Fields): SampleEvent {
    SampleEvent(TextAt(fs, "id"), TextAt(fs, "label"), TextAt(fs, "raw"))
  }

  lemma SampleSaysStep(fs: Fields, j: nat)
    requires j < 3
    ensures var r := SampleAt(fs);
      SampleState(r, j + 1) == Step(SAMPLE, j, Last(fs, SAMPLE_NAMES[j]), SampleState(r, j))
  {
  }

  /** An object that is read is what its keys say. */
  lemma SampleSays(fs: Fields)
    requires DecodeFields(SAMPLE, fs, NO_SAMPLE).Ok?
    ensures DecodeFields(SAMPLE, fs, NO_SAMPLE) == Ok(SampleAt(fs))
  {
    SampleLawful();
    var r := SampleAt(fs);
    forall j | 0 <= j < 3
      ensures SampleState(r, j + 1) == Step(SAMPLE, j, Last(fs, SAMPLE_NAMES[j]), SampleState(r, j))
    {
      SampleSaysStep(fs, j);
    }
    LastsFold(SAMPLE, fs, (i: nat) => SampleState(r, i));
  }

  // ---------------------------------------------------------------- LinearSettings

  /** Which key holds which property of a written record. */
  lemma SettingsKeys(s: LinearSettings)
    ensures var fs := SettingsFields(s);
      && Last(fs, "settingId") == OptStr(s.settingId)
      && Last(fs, "creationMode") == Some(VStr(s.creationMode))
      && Last(fs, "triggerStatus") == OptStr(s.triggerStatus)
      && Last(fs, "nameTemplate") == OptStr(s.nameTemplate)
      && Last(fs, "topicTemplate") == OptStr(s.topicTemplate)
      && Last(fs, "conditionExpr") == OptStr(s.conditionExpr)
      && Last(fs, "archiveMode") == OptStr(s.archiveMode)
      && Last(fs, "archiveStatus") == OptStr(s.archiveStatus)
      && Last(fs, "archiveConditionExpr") == OptStr(s.archiveConditionExpr)
      && Last(fs, "autoAddMembers") == Some(VArr(StringElems(OrEmpty(s.autoAddMembers))))
      && Last(fs, "teamId") == Some(VStr(s.teamId))
  {
    SettingsLawful();
    forall j | 0 <= j < 11 ensures Last(SettingsFields(s), SETTINGS_NAMES[j]) == SettingsVals(s)[j] {
      EmitLast(SETTINGS_NAMES, SettingsVals(s), 0, j);
    }
    assert SETTINGS_NAMES[0] == "settingId";
    assert SETTINGS_NAMES[1] == "creationMode";
    assert SETTINGS_NAMES[2] == "triggerStatus";
    assert SETTINGS_NAMES[3] == "nameTemplate";
    assert SETTINGS_NAMES[4] == "topicTemplate";
    assert SETTINGS_NAMES[5] == "conditionExpr";
    assert SETTINGS_NAMES[6] == "archiveMode";
    assert SETTINGS_NAMES[7] == "archiveStatus";
    assert SETTINGS_NAMES[8] == "archiveConditionExpr";
    assert SETTINGS_NAMES[9] == "autoAddMembers";
    assert SETTINGS_NAMES[10] == "teamId";
  }

  ghost function SettingsKinds(): seq<(string, Value -> bool)> {
    [("settingId", IsText), ("creationMode", IsText), ("triggerStatus", IsText), ("nameTemplate", IsText),
     ("topicTemplate", IsText), ("conditionExpr", IsText), ("archiveMode", IsText), ("archiveStatus", IsText),
     ("archiveConditionExpr", IsText), ("autoAddMembers", IsTexts), ("teamId", IsText)]
  }

  /** An object is read as a `LinearSettings` exactly if it has the required keys and all
      values are of their keys' kinds. */
  lemma SettingsIsRead(fs: Fields)
    ensures DecodeFields(SETTINGS, fs, NO_SETTINGS).Ok? <==>
      HasAll(fs, ["creationMode", "autoAddMembers", "teamId"]) && AllOf(fs, SettingsKinds())
  {
    SettingsLawful();
    forall i, v | 0 <= i < 11
      ensures SettingsKinds()[i].0 == SETTINGS_NAMES[i] && (SETTINGS.typed(i, v) <==> SettingsKinds()[i].1(v))
    {
    }
    var keys := ["creationMode", "autoAddMembers", "teamId"];
    Reads(SETTINGS, fs, NO_SETTINGS, keys, SettingsKinds());
  }

  /** What the keys of an object say. */
  function SettingsAt(fs: Fields): LinearSettings {
    LinearSettings(OptTextAt(fs, "settingId"), TextAt(fs, "creationMode"), OptTextAt(fs, "triggerStatus"),
      OptTextAt(fs, "nameTemplate"), OptTextAt(fs, "topicTemplate"), OptTextAt(fs, "conditionExpr"),
      OptTextAt(fs, "archiveMode"), OptTextAt(fs, "archiveStatus"), OptTextAt(fs, "archiveConditionExpr"),
      TextsAt(fs, "autoAddMembers"), TextAt(fs, "teamId"))
  }

  lemma SettingsSaysStep(fs: Fields, j: nat)
    requires j < 11
    ensures var r := SettingsAt(fs);
      SettingsState(r, j + 1) == Step(SETTINGS, j, Last(fs, SETTINGS_NAMES[j]), SettingsState(r, j))
  {
    if Last(fs, SETTINGS_NAMES[j]).Some? {
      SettingsAssigned(SettingsState(SettingsAt(fs), j), j, Last(fs, SETTINGS_NAMES[j]).value);
    }
  }

  /** An object that is read is what its keys say. */
  lemma SettingsSays(fs: Fields)
    requires DecodeFields(SETTINGS, fs, NO_SETTINGS).Ok?
    ensures DecodeFields(SETTINGS, fs, NO_SETTINGS) == Ok(SettingsAt(fs))
  {
    SettingsLawful();
    var r := SettingsAt(fs);
    forall j | 0 <= j < 11
      ensures SettingsState(r, j + 1) == Step(SETTINGS, j, Last(fs, SETTINGS_NAMES[j]), SettingsState(r, j))
    {
      SettingsSaysStep(fs, j);
    }
    LastsFold(SETTINGS, fs, (i: nat) => SettingsState(r, i));
  }

  // ---------------------------------------------------------------- LinearSettingsResponse

  /** Which key holds which property of a written record. */
  lemma ResponseKeys(s: LinearSettingsResponse)
    ensures var fs := ResponseFields(s);
      && Last(fs, "connected") == Some(VBool(s.connected))
      && Last(fs, "configs") == Some(VArr(RecordElems(SettingsFields, OrEmpty(s.configs))))
      && Last(fs, "teams") == Some(VArr(RecordElems(TeamFields, OrEmpty(s.teams))))
      && Last(fs, "slackMembers") == Some(VArr(RecordElems(SlackFields, OrEmpty(s.slackMembers))))
      && Last(fs, "sampleEvents") == Some(VArr(RecordElems(SampleFields, OrEmpty(s.sampleEvents))))
  {
    ResponseLawful();
    forall j | 0 <= j < 5 ensures Last(ResponseFields(s), RESPONSE_NAMES[j]) == ResponseVals(s)[j] {
      EmitLast(RESPONSE_NAMES, ResponseVals(s), 0, j);
    }
    assert RESPONSE_NAMES[0] == "connected";
    assert RESPONSE_NAMES[1] == "configs";
    assert RESPONSE_NAMES[2] == "teams";
    assert RESPONSE_NAMES[3] == "slackMembers";
    assert RESPONSE_NAMES[4] == "sampleEvents";
  }

  ghost function ResponseKinds(): seq<(string, Value -> bool)> {
    [("connected", IsFlag), ("configs", v => ArrayIn(SETTINGS, v, NO_SETTINGS).Some?),
     ("teams", v => ArrayIn(TEAM, v, NO_TEAM).Some?), ("slackMembers", v => ArrayIn(SLACK, v, NO_SLACK).Some?),
     ("sampleEvents", v => ArrayIn(SAMPLE, v, NO_SAMPLE).Some?)]
  }

  /** An object is read as a `LinearSettingsResponse` exactly if it has the required keys and all
      values are of their keys' kinds. */
  lemma ResponseIsRead(fs: Fields)
    ensures DecodeFields(RESPONSE, fs, NO_RESPONSE).Ok? <==>
      HasAll(fs, ["connected", "configs", "teams", "slackMembers", "sampleEvents"]) && AllOf(fs, ResponseKinds())
  {
    ResponseLawful();
    forall i, v | 0 <= i < 5
      ensures ResponseKinds()[i].0 == RESPONSE_NAMES[i] && (RESPONSE.typed(i, v) <==> ResponseKinds()[i].1(v))
    {
    }
    var keys := ["connected", "configs", "teams", "slackMembers", "sampleEvents"];
    Reads(RESPONSE, fs, NO_RESPONSE, keys, ResponseKinds());
  }

  /** What the keys of an object say. */
  function ResponseAt(fs: Fields): LinearSettingsResponse {
    LinearSettingsResponse(FlagAt(fs, "connected"), ArrayAt(SETTINGS, fs, "configs", NO_SETTINGS),
      ArrayAt(TEAM, fs, "teams", NO_TEAM), ArrayAt(SLACK, fs, "slackMembers", NO_SLACK),
      ArrayAt(SAMPLE, fs, "sampleEvents", NO_SAMPLE))
  }

  lemma ResponseSaysStep(fs: Fields, j: nat)
    requires j < 5
    ensures var r := ResponseAt(fs);
      ResponseState(r, j + 1) == Step(RESPONSE, j, Last(fs, RESPONSE_NAMES[j]), ResponseState(r, j))
  {
  }

  /** An object that is read is what its keys say. */
  lemma ResponseSays(fs: Fields)
    requires DecodeFields(RESPONSE, fs, NO_RESPONSE).Ok?
    ensures DecodeFields(RESPONSE, fs, NO_RESPONSE) == Ok(ResponseAt(fs))
  {
    ResponseLawful();
    var r := ResponseAt(fs);
    forall j | 0 <= j < 5
      ensures ResponseState(r, j + 1) == Step(RESPONSE, j, Last(fs, RESPONSE_NAMES[j]), ResponseState(r, j))
    {
      ResponseSaysStep(fs, j);
    }
    LastsFold(RESPONSE, fs, (i: nat) => ResponseState(r, i));
  }

  // ---------------------------------------------------------------- Organization

  /** Which key holds which property of a written record. */
  lemma OrgKeys(s: Organization)
    ensures var fs := OrgFields(s);
      && Last(fs, "id") == Some(VStr(s.id))
      && Last(fs, "name") == Some(VStr(s.name))
      && Last(fs, "role") == OptStr(s.role)
  {
    OrgLawful();
    forall j | 0 <= j < 3 ensures Last(OrgFields(s), ORG_NAMES[j]) == OrgVals(s)[j] {
      EmitLast(ORG_NAMES, OrgVals(s), 0, j);
    }
    assert ORG_NAMES[0] == "id";
    assert ORG_NAMES[1] == "name";
    assert ORG_NAMES[2] == "role";
  }

  ghost function OrgKinds(): seq<(string, Value -> bool)> {
    [("id", IsText), ("name", IsText), ("role", IsText)]
  }

  /** An object is read as an `Organization` exactly if it has the required keys and all
      values are of their keys' kinds. */
  lemma OrgIsRead(fs: Fields)
    ensures DecodeFields(ORG, fs, NO_ORG).Ok? <==>
      HasAll(fs, ["id", "name"]) && AllOf(fs, OrgKinds())
  {
    OrgLawful();
    forall i, v | 0 <= i < 3
      ensures OrgKinds()[i].0 == ORG_NAMES[i] && (ORG.typed(i, v) <==> OrgKinds()[i].1(v))
    {
    }
    var keys := ["id", "name"];
    Reads(ORG, fs, NO_ORG, keys, OrgKinds());
  }

  /** What the keys of an object say. */
  function OrgAt(fs: Fields): Organization {
    Organization(TextAt(fs, "id"), TextAt(fs, "name"), OptTextAt(fs, "role"))
  }

  lemma OrgSaysStep(fs: Fields, j: nat)
    requires j < 3
    ensures var r := OrgAt(fs);
      OrgState(r, j + 1) == Step(ORG, j, Last(fs, ORG_NAMES[j]), OrgState(r, j))
  {
  }

  /** An object that is read is what its keys say. */
  lemma OrgSays(fs: Fields)
    requires DecodeFields(ORG, fs, NO_ORG).Ok?
    ensures DecodeFields(ORG, fs, NO_ORG) == Ok(OrgAt(fs))
  {
    OrgLawful();
    var r := OrgAt(fs);
    forall j | 0 <= j < 3
      ensures OrgState(r, j + 1) == Step(ORG, j, Last(fs, ORG_NAMES[j]), OrgState(r, j))
    {
      OrgSaysStep(fs, j);
    }
    LastsFold(ORG, fs, (i: nat) => OrgState(r, i));
  }

  // ---------------------------------------------------------------- BillingSummary

  /** Which key holds which property of a written record. */
  lemma BillingKeys(c: Clock, s: BillingSummary)
    ensures var fs := BillingFields(c, s);
      && Last(fs, "plan") == Some(VStr(s.plan))
      && Last(fs, "locked") == Some(VBool(s.locked))
      && Last(fs, "trialEndsAt") == Some(VStr(c.format(s.trialEndsAt)))
  {
    BillingLawful(c);
    forall j | 0 <= j < 3 ensures Last(BillingFields(c, s), BILLING_NAMES[j]) == BillingVals(c, s)[j] {
      EmitLast(BILLING_NAMES, BillingVals(c, s), 0, j);
    }
    assert BILLING_NAMES[0] == "plan";
    assert BILLING_NAMES[1] == "locked";
    assert BILLING_NAMES[2] == "trialEndsAt";
  }

  ghost function BillingKinds(c: Clock): seq<(string, Value -> bool)> {
    [("plan", IsText), ("locked", IsFlag), ("trialEndsAt", v => IsInstant(c, v))]
  }

  /** An object is read as a `BillingSummary` exactly if it has the required keys and all
      values are of their keys' kinds. */
  lemma BillingIsRead(c: Clock, fs: Fields)
    ensures DecodeFields(Billing(c), fs, NO_BILLING).Ok? <==>
      HasAll(fs, ["plan", "locked", "trialEndsAt"]) && AllOf(fs, BillingKinds(c))
  {
    BillingLawful(c);
    forall i, v | 0 <= i < 3
      ensures BillingKinds(c)[i].0 == BILLING_NAMES[i] && (Billing(c).typed(i, v) <==> BillingKinds(c)[i].1(v))
    {
    }
    var keys := ["plan", "locked", "trialEndsAt"];
    Reads(Billing(c), fs, NO_BILLING, keys, BillingKinds(c));
  }

  /** What the keys of an object say. */
  function BillingAt(c: Clock, fs: Fields): BillingSummary {
    BillingSummary(TextAt(fs, "plan"), FlagAt(fs, "locked"), InstantAt(c, fs, "trialEndsAt"))
  }

  lemma BillingSaysStep(c: Clock, fs: Fields, j: nat)
    requires j < 3
    ensures var r := BillingAt(c, fs);
      BillingState(r, j + 1) == Step(Billing(c), j, Last(fs, BILLING_NAMES[j]), BillingState(r, j))
  {
  }

  /** An object that is read is what its keys say. */
  lemma BillingSays(c: Clock, fs: Fields)
    requires DecodeFields(Billing(c), fs, NO_BILLING).Ok?
    ensures DecodeFields(Billing(c), fs, NO_BILLING) == Ok(BillingAt(c, fs))
  {
    BillingLawful(c);
    var r := BillingAt(c, fs);
    forall j | 0 <= j < 3
      ensures BillingState(r, j + 1) == Step(Billing(c), j, Last(fs, BILLING_NAMES[j]), BillingState(r, j))
    {
      BillingSaysStep(c, fs, j);
    }
    LastsFold(Billing(c), fs, (i: nat) => BillingState(r, i));
  }

  // ---------------------------------------------------------------- UserResponse

  /** Which key holds which property of a written record. */
  lemma UserKeys(c: Clock, s: UserResponse)
    ensures var fs := UserFields(c, s);
      && Last(fs, "id") == Some(VStr(s.id))
      && Last(fs, "email") == Some(VStr(s.email))
      && Last(fs, "firstName") == OptStr(s.firstName)
      && Last(fs, "lastName") == OptStr(s.lastName)
      && Last(fs, "profilePictureUrl") == OptStr(s.profilePictureUrl)
      && Last(fs, "organizationId") == OptStr(s.organizationId)
      && Last(fs, "role") == OptStr(s.role)
      && Last(fs, "organizations") == OrgsVal(s.organizations)
      && Last(fs, "billing") == BillingVal(c, s.billing)
  {
    UserLawful(c);
    forall j | 0 <= j < 9 ensures Last(UserFields(c, s), USER_NAMES[j]) == UserVals(c, s)[j] {
      EmitLast(USER_NAMES, UserVals(c, s), 0, j);
    }
    assert USER_NAMES[0] == "id";
    assert USER_NAMES[1] == "email";
    assert USER_NAMES[2] == "firstName";
    assert USER_NAMES[3] == "lastName";
    assert USER_NAMES[4] == "profilePictureUrl";
    assert USER_NAMES[5] == "organizationId";
    assert USER_NAMES[6] == "role";
    assert USER_NAMES[7] == "organizations";
    assert USER_NAMES[8] == "billing";
  }

  ghost function UserKinds(c: Clock): seq<(string, Value -> bool)> {
    [("id", IsText), ("email", IsText), ("firstName", IsText), ("lastName", IsText),
     ("profilePictureUrl", IsText), ("organizationId", IsText), ("role", IsText),
     ("organizations", v => ArrayIn(ORG, v, NO_ORG).Some?),
     ("billing", v => Decode(Billing(c), v, NO_BILLING).Ok?)]
  }

  /** An object is read as a `UserResponse` exactly if it has the required keys and all
      values are of their keys' kinds. */
  lemma UserIsRead(c: Clock, fs: Fields)
    ensures DecodeFields(User(c), fs, NO_USER).Ok? <==>
      HasAll(fs, ["id", "email"]) && AllOf(fs, UserKinds(c))
  {
    UserLawful(c);
    forall i, v | 0 <= i < 9
      ensures UserKinds(c)[i].0 == USER_NAMES[i] && (User(c).typed(i, v) <==> UserKinds(c)[i].1(v))
    {
    }
    var keys := ["id", "email"];
    Reads(User(c), fs, NO_USER, keys, UserKinds(c));
  }

  /** What the keys of an object say. */
  function UserAt(c: Clock, fs: Fields): UserResponse {
    UserResponse(TextAt(fs, "id"), TextAt(fs, "email"), OptTextAt(fs, "firstName"), OptTextAt(fs, "lastName"),
      OptTextAt(fs, "profilePictureUrl"), OptTextAt(fs, "organizationId"), OptTextAt(fs, "role"),
      ArrayAt(ORG, fs, "organizations", NO_ORG), SummaryAt(c, fs, "billing"))
  }

  lemma UserSaysStep(c: Clock, fs: Fields, j: nat)
    requires j < 9
    ensures var r := UserAt(c, fs);
      UserState(r, j + 1) == Step(User(c), j, Last(fs, USER_NAMES[j]), UserState(r, j))
  {
    if Last(fs, USER_NAMES[j]).Some? {
      UserAssigned(c, UserState(UserAt(c, fs), j), j, Last(fs, USER_NAMES[j]).value);
    }
  }

  /** An object that is read is what its keys say. */
  lemma UserSays(c: Clock, fs: Fields)
    requires DecodeFields(User(c), fs, NO_USER).Ok?
    ensures DecodeFields(User(c), fs, NO_USER) == Ok(UserAt(c, fs))
  {
    UserLawful(c);
    var r := UserAt(c, fs);
    forall j | 0 <= j < 9
      ensures UserState(r, j + 1) == Step(User(c), j, Last(fs, USER_NAMES[j]), UserState(r, j))
    {
      UserSaysStep(c, fs, j);
    }
    LastsFold(User(c), fs, (i: nat) => UserState(r, i));
  }
}
