/** The generated encoders: they append tokens to the writer's buffer field by field, and what they
    append is exactly the record's object, so that it decodes again. */
module RecordEncoder {
  import opened Wrappers
  import opened Json
  import opened Schema
  import opened Records
  import opened RecordCodec

  function Entry(name: string, val: Option<Value>): seq<Token> {
    match val case None => [] case Some(v) => [Key(name)] + Tokens(v)
  }

  /** The buffer after the fields below `j`. */
  function Written(start: seq<Token>, names: seq<string>, vals: seq<Option<Value>>, j: nat): seq<Token>
    requires j <= |names| == |vals|
    decreases j
  {
    if j == 0 then start else Written(start, names, vals, j - 1) + Entry(names[j - 1], vals[j - 1])
  }

  lemma {:induction false} WrittenSoFar(start: seq<Token>, names: seq<string>, vals: seq<Option<Value>>, j: nat)
    requires j <= |names| == |vals|
    ensures Written(start, names, vals, j) + FieldTokens(Emit(names, vals, j)) ==
      start + FieldTokens(Emit(names, vals, 0))
  {
    if j == 0 {
    } else {
      WrittenSoFar(start, names, vals, j - 1);
      var before, entry := Written(start, names, vals, j - 1), Entry(names[j - 1], vals[j - 1]);
      var later := FieldTokens(Emit(names, vals, j));
      ConcatAssoc(before, entry, later);
      assert FieldTokens(Emit(names, vals, j - 1)) == entry + later by {
        if vals[j - 1] == None { assert [] + later == later; }
      }
    }
  }

  lemma WrapAssoc(start: seq<Token>, fields: seq<Token>, w: seq<Token>)
    requires w + [] == start + [ObjStart] + fields
    ensures w + [ObjEnd] == start + ([ObjStart] + fields + [ObjEnd])
  {
    assert w + [] == w;
  }

  /** Field by field, with the braces, is the whole object. */
  lemma WrittenObject(start: seq<Token>, names: seq<string>, vals: seq<Option<Value>>)
    requires |names| == |vals|
    ensures Written(start + [ObjStart], names, vals, |names|) + [ObjEnd] ==
      start + Tokens(VObj(Emit(names, vals, 0)))
  {
    var open := start + [ObjStart];
    var fields := Emit(names, vals, 0);
    assert Tokens(VObj(fields)) == [ObjStart] + FieldTokens(fields) + [ObjEnd];
    WrittenSoFar(open, names, vals, |names|);
    assert FieldTokens(Emit(names, vals, |names|)) == [];
    WrapAssoc(start, FieldTokens(fields), Written(open, names, vals, |names|));
    assert Written(start + [ObjStart], names, vals, |names|) + [ObjEnd] ==
      start + ([ObjStart] + FieldTokens(fields) + [ObjEnd]);
    assert start + Tokens(VObj(fields)) == start + ([ObjStart] + FieldTokens(fields) + [ObjEnd]);
  }

  method WriteStr(e: Encoder, name: string, s: string)
    modifies e
    ensures e.buf == old(e.buf) + Entry(name, Some(VStr(s)))
  {
    e.Write(Key(name));
    e.Write(Str(s));
  }

  /** `if s.F.Set { e.FieldStart(name); s.F.Encode(e) }` */
  method WriteOptStr(e: Encoder, name: string, o: Option<string>)
    modifies e
    ensures e.buf == old(e.buf) + Entry(name, OptStr(o))
  {
    if o.Some? {
      WriteStr(e, name, o.value);
    } else {
      assert e.buf + [] == e.buf;
    }
  }

  lemma ArrayWritten(start: seq<Token>, name: string, elems: Elems)
    ensures start + [Key(name)] + [ArrStart] + ElemTokens(elems) + [ArrEnd] == start + Entry(name, Some(VArr(elems)))
  {
    var ts := ElemTokens(elems);
    assert Entry(name, Some(VArr(elems))) == [Key(name)] + ([ArrStart] + ts + [ArrEnd]);
  }

  /** `for _, elem := range list { e.Str(elem) }` between brackets; a nil list has no element. */
  method WriteStrings(e: Encoder, name: string, list: Option<seq<string>>)
    modifies e
    ensures e.buf == old(e.buf) + Entry(name, Some(VArr(StringElems(OrEmpty(list)))))
  {
    ArrayWritten(e.buf, name, StringElems(OrEmpty(list)));
    e.Write(Key(name));
    e.Write(ArrStart);
    ghost var start := e.buf;
    var elems := OrEmpty(list);
    for i := 0 to |elems|
      invariant start + ElemTokens(StringElems(elems)) == e.buf + ElemTokens(StringElems(elems[i..]))
    {
      ghost var buf := e.buf;
      e.Write(Str(elems[i]));
      assert elems[i..][1..] == elems[i + 1..];
      ConcatAssoc(buf, [Str(elems[i])], ElemTokens(StringElems(elems[i + 1..])));
    }
    assert elems[|elems|..] == [] && e.buf + [] == e.buf;
    e.Write(ArrEnd);
  }

  lemma WorkflowWritten(start: seq<Token>, s: LinearWorkflowState)
    ensures start + Tokens(VObj(WorkflowFields(s))) ==
      start + [ObjStart] +
      Entry("id", Some(VStr(s.id))) +
      Entry("name", Some(VStr(s.name))) +
      Entry("type", Some(VStr(s.kind))) +
      Entry("color", OptStr(s.color)) +
      [ObjEnd]
  {
    WrittenObject(start, WORKFLOW_NAMES, WorkflowVals(s));
  }

  method EncodeLinearWorkflowState(e: Encoder, s: LinearWorkflowState)
    modifies e
    ensures e.buf == old(e.buf) + Tokens(VObj(WorkflowFields(s)))
  {
    ghost var start := e.buf;
    e.Write(ObjStart);
    WriteStr(e, "id", s.id);
    WriteStr(e, "name", s.name);
    WriteStr(e, "type", s.kind);
    WriteOptStr(e, "color", s.color);
    e.Write(ObjEnd);
    WorkflowWritten(start, s);
  }

  lemma StatesStep(buf: seq<Token>, elems: seq<LinearWorkflowState>, i: nat)
    requires i < |elems|
    ensures buf + ElemTokens(RecordElems(WorkflowFields, elems[i..])) ==
      buf + Tokens(VObj(WorkflowFields(elems[i]))) + ElemTokens(RecordElems(WorkflowFields, elems[i + 1..]))
  {
    assert elems[i..][1..] == elems[i + 1..];
    ConcatAssoc(buf, Tokens(VObj(WorkflowFields(elems[i]))), ElemTokens(RecordElems(WorkflowFields, elems[i + 1..])));
  }

  method WriteStates(e: Encoder, name: string, list: Option<seq<LinearWorkflowState>>)
    modifies e
    ensures e.buf == old(e.buf) + Entry(name, Some(VArr(RecordElems(WorkflowFields, OrEmpty(list)))))
  {
    ArrayWritten(e.buf, name, RecordElems(WorkflowFields, OrEmpty(list)));
    e.Write(Key(name));
    e.Write(ArrStart);
    ghost var start := e.buf;
    var elems := OrEmpty(list);
    for i := 0 to |elems|
      invariant start + ElemTokens(RecordElems(WorkflowFields, elems)) ==
        e.buf + ElemTokens(RecordElems(WorkflowFields, elems[i..]))
    {
      ghost var buf := e.buf;
      EncodeLinearWorkflowState(e, elems[i]);
      StatesStep(buf, elems, i);
    }
    assert elems[|elems|..] == [] && e.buf + [] == e.buf;
    e.Write(ArrEnd);
  }

  lemma TeamWritten(start: seq<Token>, s: LinearTeamState)
    ensures start + Tokens(VObj(TeamFields(s))) ==
      start + [ObjStart] +
      Entry("teamId", Some(VStr(s.teamId))) +
      Entry("teamKey", OptStr(s.teamKey)) +
      Entry("teamName", Some(VStr(s.teamName))) +
      Entry("states", Some(VArr(RecordElems(WorkflowFields, OrEmpty(s.states))))) +
      [ObjEnd]
  {
    WrittenObject(start, TEAM_NAMES, TeamVals(s));
  }

  method EncodeLinearTeamState(e: Encoder, s: LinearTeamState)
    modifies e
    ensures e.buf == old(e.buf) + Tokens(VObj(TeamFields(s)))
  {
    ghost var start := e.buf;
    e.Write(ObjStart);
    WriteStr(e, "teamId", s.teamId);
    WriteOptStr(e, "teamKey", s.teamKey);
    WriteStr(e, "teamName", s.teamName);
    WriteStates(e, "states", s.states);
    e.Write(ObjEnd);
    TeamWritten(start, s);
  }

  lemma SettingsWritten(start: seq<Token>, s: LinearSettings)
    ensures start + Tokens(VObj(SettingsFields(s))) ==
      start + [ObjStart] +
      Entry("settingId", OptStr(s.settingId)) +
      Entry("creationMode", Some(VStr(s.creationMode))) +
      Entry("triggerStatus", OptStr(s.triggerStatus)) +
      Entry("nameTemplate", OptStr(s.nameTemplate)) +
      Entry("topicTemplate", OptStr(s.topicTemplate)) +
      Entry("conditionExpr", OptStr(s.conditionExpr)) +
      Entry("archiveMode", OptStr(s.archiveMode)) +
      Entry("archiveStatus", OptStr(s.archiveStatus)) +
      Entry("archiveConditionExpr", OptStr(s.archiveConditionExpr)) +
      Entry("autoAddMembers", Some(VArr(StringElems(OrEmpty(s.autoAddMembers))))) +
      Entry("teamId", Some(VStr(s.teamId))) +
      [ObjEnd]
  {
    WrittenObject(start, SETTINGS_NAMES, SettingsVals(s));
    assert |SETTINGS_NAMES| == 11;
    assert Written(start + [ObjStart], SETTINGS_NAMES, SettingsVals(s), 4) ==
      start + [ObjStart] +
      Entry("settingId", OptStr(s.settingId)) +
      Entry("creationMode", Some(VStr(s.creationMode))) +
      Entry("triggerStatus", OptStr(s.triggerStatus)) +
      Entry("nameTemplate", OptStr(s.nameTemplate));
  }

  method EncodeLinearSettings(e: Encoder, s: LinearSettings)
    modifies e
    ensures e.buf == old(e.buf) + Tokens(VObj(SettingsFields(s)))
  {
    ghost var start := e.buf;
    e.Write(ObjStart);
    WriteOptStr(e, "settingId", s.settingId);
    WriteStr(e, "creationMode", s.creationMode);
    WriteOptStr(e, "triggerStatus", s.triggerStatus);
    WriteOptStr(e, "nameTemplate", s.nameTemplate);
    WriteOptStr(e, "topicTemplate", s.topicTemplate);
    WriteOptStr(e, "conditionExpr", s.conditionExpr);
    WriteOptStr(e, "archiveMode", s.archiveMode);
    WriteOptStr(e, "archiveStatus", s.archiveStatus);
    WriteOptStr(e, "archiveConditionExpr", s.archiveConditionExpr);
    WriteStrings(e, "autoAddMembers", s.autoAddMembers);
    WriteStr(e, "teamId", s.teamId);
    e.Write(ObjEnd);
    SettingsWritten(start, s);
  }

  // ---------------------------------------------------------------- there and back

  /** Encoding a settings record and decoding the result into a fresh one: everything comes back, a nil
      list as an empty one, and the reader ends where the writer did. */
  method SettingsThereAndBack(s: LinearSettings, itoa: nat -> string)
    returns (r: LinearSettings, err: Option<DecodeError>)
    ensures err == None && r == SettingsRead(s)
  {
    var e := new Encoder();
    EncodeLinearSettings(e, s);
    var d := new Decoder(e.buf);
    SettingsRoundTrip(s);
    ParseTokens(VObj(SettingsFields(s)), []);
    assert e.buf == Tokens(VObj(SettingsFields(s))) + [];
    r, err := DecodeLinearSettings(d, NO_SETTINGS, itoa);
  }

  /** The same for a team, whose states are records too. */
  method TeamThereAndBack(s: LinearTeamState, itoa: nat -> string)
    returns (r: LinearTeamState, err: Option<DecodeError>)
    ensures err == None && r == TeamRead(s)
  {
    var e := new Encoder();
    EncodeLinearTeamState(e, s);
    var d := new Decoder(e.buf);
    TeamRoundTrip(s);
    ParseTokens(VObj(TeamFields(s)), []);
    assert e.buf == Tokens(VObj(TeamFields(s))) + [];
    r, err := DecodeLinearTeamState(d, NO_TEAM, itoa);
  }
}
