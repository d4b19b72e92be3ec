/** The generated encoders and decoders themselves: loops over the token reader and writer, a receiver
    filled field by field, and a bit set of the required fields seen. */
module RecordCodec {
  import opened Wrappers
  import opened Json
  import opened Schema
  import opened RequiredBits
  import opened Records

  // ---------------------------------------------------------------- the loop of every Decode

  /** In the middle of an object: what is still to come, assigned to the record so far, gives what the
      whole object assigned to the receiver gives. */
  ghost predicate Progress<R>(sc: Schema<R>, masks: seq<Word>, start: seq<Token>, receiver: R,
                              rest: seq<Token>, s: R, bits: seq<Word>) {
    var whole, left := ParseFields(start), ParseFields(rest);
    && |bits| == |masks|
    && SameEnd(whole, left)
    && (whole.Some? ==>
          && Fold(sc, whole.value.0, receiver) == Fold(sc, left.value.0, s)
          && FirstBad(sc, whole.value.0) == FirstBad(sc, left.value.0)
          && forall j :: 0 <= j < |sc.names| && Required(masks, j) ==>
               (HasKey(whole.value.0, sc.names[j]) <==> BitAt(bits, j) || HasKey(left.value.0, sc.names[j])))
  }

  predicate Required(masks: seq<Word>, j: nat) {
    j < |masks| * 8 && BitAt(masks, j)
  }

  /** `requiredBitSet[i/8] |= 1 << (i%8)` */
  function Mark(bits: seq<Word>, i: nat): seq<Word>
    requires i < |bits| * 8
  {
    bits[i / 8 := OrBit(bits[i / 8], i % 8)]
  }

  lemma MarkSets(bits: seq<Word>, i: nat, j: nat)
    requires i < |bits| * 8 && j < |bits| * 8
    ensures BitAt(Mark(bits, i), j) <==> j == i || BitAt(bits, j)
  {
    BitsUpdate(bits, i / 8, i % 8);
  }

  /** `var requiredBitSet [n]uint8` */
  function NoBits(n: nat): (bits: seq<Word>)
    ensures |bits| == n
    ensures forall j :: 0 <= j < n ==> bits[j] == ZERO
  {
    if n == 0 then [] else NoBits(n - 1) + [ZERO]
  }

  /** At the opening brace nothing is assigned and no bit is set. */
  lemma Begin<R>(sc: Schema<R>, masks: seq<Word>, start: seq<Token>, receiver: R, bits: seq<Word>)
    requires |bits| == |masks| && forall j :: 0 <= j < |bits| ==> bits[j] == ZERO
    ensures Progress(sc, masks, start, receiver, start, receiver, bits)
  {
    NoBitSet(bits);
  }

  /** What the callback for the field with index `i` has done: it read the value, assigned it and marked the
      field, or it failed on a value that is malformed or ill typed. Past the declared fields the value is only
      skipped. */
  ghost predicate FieldReadAt<R>(sc: Schema<R>, masks: seq<Word>, i: nat, k: string,
                                 before: seq<Token>, after: seq<Token>,
                                 s0: R, s: R, bits0: seq<Word>, bits: seq<Word>, err: Option<DecodeError>)
  {
    var p := ParseValue(before);
    match err
    case None =>
      && p.Some? && after == p.value.1
      && (i < |sc.names| ==> sc.typed(i, p.value.0))
      && s == (if i < |sc.names| then sc.assign(s0, i, p.value.0) else s0)
      && (i < |sc.names| && Required(masks, i) ==> i < |bits0| * 8 && bits == Mark(bits0, i))
      && (!(i < |sc.names| && Required(masks, i)) ==> bits == bits0)
    case Some(e) => p.None? || (i < |sc.names| && !sc.typed(i, p.value.0) && e == BadField(k))
  }

  ghost predicate FieldRead<R>(sc: Schema<R>, masks: seq<Word>, k: string, before: seq<Token>, after: seq<Token>,
                               s0: R, s: R, bits0: seq<Word>, bits: seq<Word>, err: Option<DecodeError>)
  {
    FieldReadAt(sc, masks, IndexIn(sc.names, k), k, before, after, s0, s, bits0, bits, err)
  }

  /** The callback's default: an unknown key's value is skipped. */
  lemma Skipped<R>(sc: Schema<R>, masks: seq<Word>, i: nat, k: string, before: seq<Token>, after: seq<Token>,
                   s: R, bits: seq<Word>)
    requires i >= |sc.names|
    ensures ParseValue(before).Some? && after == ParseValue(before).value.1 ==>
      FieldReadAt(sc, masks, i, k, before, after, s, s, bits, bits, None)
    ensures ParseValue(before).None? ==> FieldReadAt(sc, masks, i, k, before, after, s, s, bits, bits, Some(Malformed))
  {
  }

  /** One field read well. */
  lemma Advance<R>(sc: Schema<R>, masks: seq<Word>, start: seq<Token>, receiver: R,
                   rest: seq<Token>, s: R, bits: seq<Word>, rest': seq<Token>, s': R, bits': seq<Word>)
    requires Progress(sc, masks, start, receiver, rest, s, bits) && Distinct(sc.names)
    requires rest != [] && rest[0].Key?
    requires FieldRead(sc, masks, rest[0].name, rest[1..], rest', s, s', bits, bits', None)
    ensures Progress(sc, masks, start, receiver, rest', s', bits')
  {
    var whole, i := ParseFields(start), IndexIn(sc.names, rest[0].name);
    if whole.Some? {
      var left' := ParseFields(rest').value.0;
      forall j | 0 <= j < |sc.names| && Required(masks, j)
        ensures HasKey(whole.value.0, sc.names[j]) <==> BitAt(bits', j) || HasKey(left', sc.names[j])
      {
        if i < |sc.names| && Required(masks, i) { MarkSets(bits, i, j); }
      }
    }
  }

  /** What a record method has done: it read one value that decodes, or it reports what is wrong. */
  ghost predicate Read<R>(sc: Schema<R>, before: seq<Token>, receiver: R, after: seq<Token>, s: R,
                          err: Option<DecodeError>)
  {
    match ParseValue(before)
    case None => err.Some?
    case Some((v, rest)) =>
      match Decode(sc, v, receiver)
      case Ok(r) => err == None && s == r && after == rest
      case Err(e) => err == Some(e)
  }

  /** What the object loop has done: it read a whole object with well-typed fields, assigned and marked
      them all, or it failed where `Read` fails before the required-field check. */
  ghost predicate ObjectRead<R>(sc: Schema<R>, masks: seq<Word>, before: seq<Token>, receiver: R, after: seq<Token>,
                                s: R, bits: seq<Word>, err: Option<DecodeError>) {
    match err
    case None =>
      var p := ParseValue(before);
      && p.Some? && p.value.0.VObj? && after == p.value.1
      && FirstBad(sc, p.value.0.fields) == None
      && s == Fold(sc, p.value.0.fields, receiver)
      && Marks(bits, masks, sc.names, p.value.0.fields)
    case Some(_) => Read(sc, before, receiver, after, s, err)
  }

  /** One field read badly: its value is malformed, or it is the first one that is ill typed. */
  lemma Fail<R>(sc: Schema<R>, masks: seq<Word>, before: seq<Token>, receiver: R,
                rest: seq<Token>, s: R, bits: seq<Word>,
                after: seq<Token>, s': R, bits': seq<Word>, err: Option<DecodeError>)
    requires before != [] && before[0] == ObjStart && Progress(sc, masks, before[1..], receiver, rest, s, bits)
    requires rest != [] && rest[0].Key? && err.Some?
    requires FieldRead(sc, masks, rest[0].name, rest[1..], after, s, s', bits, bits', err)
    ensures ObjectRead(sc, masks, before, receiver, after, s', bits', err)
  {
  }

  /** No opening brace. */
  lemma NoObject<R>(sc: Schema<R>, masks: seq<Word>, before: seq<Token>, receiver: R,
                    after: seq<Token>, s: R, bits: seq<Word>)
    requires before == [] || before[0] != ObjStart
    ensures ObjectRead(sc, masks, before, receiver, after, s, bits, Some(NotAnObject))
  {
  }

  /** Neither another field nor the closing brace. */
  lemma Unclosed<R>(sc: Schema<R>, masks: seq<Word>, before: seq<Token>, receiver: R,
                    rest: seq<Token>, after: seq<Token>,
                    s: R, bits: seq<Word>)
    requires before != [] && before[0] == ObjStart && Progress(sc, masks, before[1..], receiver, rest, s, bits)
    requires rest != [] ==> !rest[0].Key? && rest[0] != ObjEnd
    ensures ObjectRead(sc, masks, before, receiver, after, s, bits, Some(Malformed))
  {
  }

  /** The closing brace. */
  lemma Close<R>(sc: Schema<R>, masks: seq<Word>, before: seq<Token>, receiver: R,
                 rest: seq<Token>, s: R, bits: seq<Word>)
    requires before != [] && before[0] == ObjStart && Progress(sc, masks, before[1..], receiver, rest, s, bits)
    requires rest != [] && rest[0] == ObjEnd
    requires forall j :: 0 <= j < |masks| * 8 && BitAt(masks, j) ==> j < |sc.names|
    ensures ObjectRead(sc, masks, before, receiver, rest[1..], s, bits, None)
  {
  }

  /** The required-field check after the object. */
  lemma Finish<R>(sc: Schema<R>, masks: seq<Word>, before: seq<Token>, receiver: R, after: seq<Token>, s: R,
                  bits: seq<Word>, itoa: nat -> string)
    requires ObjectRead(sc, masks, before, receiver, after, s, bits, None)
    requires sc.required == SetIndices(masks)
    requires forall j :: 0 <= j < |masks| * 8 && BitAt(masks, j) ==> j < |sc.names|
    ensures var failures := MissedNames(bits, masks, sc.names, itoa, 0);
      Read(sc, before, receiver, after, s, if |failures| > 0 then Some(Missing(failures)) else None)
  {
    MissedNamesAreIndices(bits, masks, sc.names, itoa);
    MissedAreMissing(sc, bits, masks, ParseValue(before).value.0.fields);
  }

  // ---------------------------------------------------------------- reading

  const WORKFLOW_MASKS: seq<Word> := [[true, true, true, false, false, false, false, false]]

  lemma WorkflowMasks()
    ensures forall j :: 0 <= j < 8 ==> (BitAt(WORKFLOW_MASKS, j) <==> j in WORKFLOW.required)
    ensures forall j :: 0 <= j < 8 && BitAt(WORKFLOW_MASKS, j) ==> j < |WORKFLOW_NAMES|
    ensures SetIndices(WORKFLOW_MASKS) == WORKFLOW.required
  {
    assert forall j :: j in WORKFLOW.required <==> SetAt(Bits(WORKFLOW_MASKS), 0, j);
    SetIndicesAre(WORKFLOW_MASKS, WORKFLOW.required);
  }

  /** The bit the callback sets for the field with index `i`, if that is required. */
  function WorkflowMark(bits: seq<Word>, i: nat): seq<Word>
    requires |bits| == 1
  {
    match i
    case 0 => bits[0 := OrBit(bits[0], 0)]
    case 1 => bits[0 := OrBit(bits[0], 1)]
    case 2 => bits[0 := OrBit(bits[0], 2)]
    case _ => bits
  }

  lemma WorkflowMarks(bits: seq<Word>, i: nat)
    requires i < 4 && |bits| == 1
    ensures WorkflowMark(bits, i) == if Required(WORKFLOW_MASKS, i) then Mark(bits, i) else bits
  {
    WorkflowMasks();
  }

  lemma WorkflowOk(k: string, i: nat, before: seq<Token>, after: seq<Token>,
                   s0: LinearWorkflowState, s: LinearWorkflowState, bits0: seq<Word>, bits: seq<Word>)
    requires i < 4 && k == WORKFLOW_NAMES[i] && |bits0| == 1
    requires ParseValue(before).Some? && after == ParseValue(before).value.1
    requires WorkflowTyped(i, ParseValue(before).value.0)
    requires s == WorkflowAssign(s0, i, ParseValue(before).value.0)
    requires bits == WorkflowMark(bits0, i)
    ensures FieldRead(WORKFLOW, WORKFLOW_MASKS, k, before, after, s0, s, bits0, bits, None)
  {
    IndexOfName(WORKFLOW_NAMES, i);
    WorkflowMarks(bits0, i);
  }

  lemma WorkflowBad(k: string, i: nat, before: seq<Token>, after: seq<Token>,
                    s0: LinearWorkflowState, s: LinearWorkflowState, bits0: seq<Word>, bits: seq<Word>)
    requires i < 4 && k == WORKFLOW_NAMES[i]
    requires ParseValue(before).None? || !WorkflowTyped(i, ParseValue(before).value.0)
    ensures FieldRead(WORKFLOW, WORKFLOW_MASKS, k, before, after, s0, s, bits0, bits, Some(BadField(k)))
  {
    IndexOfName(WORKFLOW_NAMES, i);
  }

  /** The callback that decodes one field. */
  method WorkflowField(d: Decoder, k: string, s0: LinearWorkflowState, bits0: seq<Word>)
    returns (s: LinearWorkflowState, requiredBitSet: seq<Word>, err: Option<DecodeError>)
    requires |bits0| == 1
    modifies d
    ensures FieldRead(WORKFLOW, WORKFLOW_MASKS, k, old(d.rest), d.rest, s0, s, bits0, requiredBitSet, err)
  {
    ghost var before := d.rest;
    s, requiredBitSet, err := s0, bits0, None;
    var i := IndexIn(WORKFLOW_NAMES, k);
    if i == 0 {
      requiredBitSet := requiredBitSet[0 := OrBit(requiredBitSet[0], 0)];
      var v := d.ReadStr();
      if v == None {
        err := Some(BadField(k));
      } else {
        s := s.(id := v.value);
      }
    } else if i == 1 {
      requiredBitSet := requiredBitSet[0 := OrBit(requiredBitSet[0], 1)];
      var v := d.ReadStr();
      if v == None {
        err := Some(BadField(k));
      } else {
        s := s.(name := v.value);
      }
    } else if i == 2 {
      requiredBitSet := requiredBitSet[0 := OrBit(requiredBitSet[0], 2)];
      var v := d.ReadStr();
      if v == None {
        err := Some(BadField(k));
      } else {
        s := s.(kind := v.value);
      }
    } else if i == 3 {
      s := s.(color := None);
      var v := d.ReadStr();
      if v == None {
        err := Some(BadField(k));
      } else {
        s := s.(color := v);
      }
    } else {
      var ok, _ := d.Skip();
      Skipped(WORKFLOW, WORKFLOW_MASKS, i, k, before, d.rest, s, requiredBitSet);
      if !ok {
        return s, requiredBitSet, Some(Malformed);
      }
      return;
    }
    if err == None {
      WorkflowOk(k, i, before, d.rest, s0, s, bits0, requiredBitSet);
    } else {
      WorkflowBad(k, i, before, d.rest, s0, s, bits0, requiredBitSet);
    }
  }

  /** `d.ObjBytes` with that callback. */
  method WorkflowObject(d: Decoder, receiver: LinearWorkflowState)
    returns (s: LinearWorkflowState, requiredBitSet: seq<Word>, err: Option<DecodeError>)
    modifies d
    ensures ObjectRead(WORKFLOW, WORKFLOW_MASKS, old(d.rest), receiver, d.rest, s, requiredBitSet, err)
  {
    ghost var before := d.rest;
    s, requiredBitSet, err := receiver, NoBits(1), None;
    var open := d.Next();
    if open != Some(ObjStart) {
      NoObject(WORKFLOW, WORKFLOW_MASKS, before, receiver, d.rest, s, requiredBitSet);
      return s, requiredBitSet, Some(NotAnObject);
    }
    Begin(WORKFLOW, WORKFLOW_MASKS, before[1..], receiver, requiredBitSet);
    while d.rest != [] && d.rest[0].Key?
      invariant Progress(WORKFLOW, WORKFLOW_MASKS, before[1..], receiver, d.rest, s, requiredBitSet) && err == None
      decreases |d.rest|
    {
      ghost var rest, s0, bits0 := d.rest, s, requiredBitSet;
      var key := d.Next();
      s, requiredBitSet, err := WorkflowField(d, key.value.name, s, requiredBitSet);
      if err != None {
        Fail(WORKFLOW, WORKFLOW_MASKS, before, receiver, rest, s0, bits0, d.rest, s, requiredBitSet, err);
        return;
      }
      Advance(WORKFLOW, WORKFLOW_MASKS, before[1..], receiver, rest, s0, bits0, d.rest, s, requiredBitSet);
    }
    ghost var last := d.rest;
    var end := d.Next();
    if end != Some(ObjEnd) {
      Unclosed(WORKFLOW, WORKFLOW_MASKS, before, receiver, last, d.rest, s, requiredBitSet);
      return s, requiredBitSet, Some(Malformed);
    }
    WorkflowMasks();
    Close(WORKFLOW, WORKFLOW_MASKS, before, receiver, last, s, requiredBitSet);
  }

  method DecodeLinearWorkflowState(d: Decoder, receiver: LinearWorkflowState, itoa: nat -> string)
    returns (s: LinearWorkflowState, err: Option<DecodeError>)
    modifies d
    ensures Read(WORKFLOW, old(d.rest), receiver, d.rest, s, err)
  {
    ghost var before := d.rest;
    var requiredBitSet;
    s, requiredBitSet, err := WorkflowObject(d, receiver);
    if err != None {
      return;
    }
    WorkflowMasks();
    Finish(WORKFLOW, WORKFLOW_MASKS, before, receiver, d.rest, s, requiredBitSet, itoa);
    var failures := MissedFields(requiredBitSet, WORKFLOW_MASKS, WORKFLOW_NAMES, itoa);
    if |failures| > 0 {
      err := Some(Missing(failures));
    }
  }

  const TEAM_MASKS: seq<Word> := [[true, false, true, true, false, false, false, false]]

  lemma TeamMasks()
    ensures forall j :: 0 <= j < 8 ==> (BitAt(TEAM_MASKS, j) <==> j in TEAM.required)
    ensures forall j :: 0 <= j < 8 && BitAt(TEAM_MASKS, j) ==> j < |TEAM_NAMES|
    ensures SetIndices(TEAM_MASKS) == TEAM.required
  {
    assert forall j :: j in TEAM.required <==> SetAt(Bits(TEAM_MASKS), 0, j);
    SetIndicesAre(TEAM_MASKS, TEAM.required);
  }

  /** `d.Arr` with one `Decode` for each element; fails on the first element that does. */
  method ReadStates(d: Decoder, itoa: nat -> string) returns (states: Option<seq<LinearWorkflowState>>)
    modifies d
    ensures states ==
      match ParseValue(old(d.rest)) case Some((v, _)) => ArrayIn(WORKFLOW, v, NO_WORKFLOW) case None => None
    ensures states.Some? ==> d.rest == ParseValue(old(d.rest)).value.1
  {
    var open := d.Next();
    if open != Some(ArrStart) {
      return None;
    }
    ghost var start := d.rest;
    var acc: seq<LinearWorkflowState> := [];
    FirstRecord(start);
    while d.rest != [] && d.rest[0] != ArrEnd
      invariant SameEnd(ParseElems(start), ParseElems(d.rest))
      invariant ParseElems(start).Some? ==> RecordsSoFar(start, acc, d.rest)
      decreases |d.rest|
    {
      ghost var rest := d.rest;
      var elem, err := DecodeLinearWorkflowState(d, NO_WORKFLOW, itoa);
      if err != None {
        return None;
      }
      NextRecord(start, acc, rest, elem);
      acc := acc + [elem];
    }
    assert acc + [] == acc;
    var end := d.Next();
    states := if end == Some(ArrEnd) then Some(acc) else None;
  }

  /** The records read so far, and those still in the array, are the array's. */
  ghost predicate RecordsSoFar(start: seq<Token>, acc: seq<LinearWorkflowState>, rest: seq<Token>)
    requires ParseElems(start).Some?
  {
    ParseElems(rest).Some? &&
    RecordsIn(WORKFLOW, ParseElems(start).value.0, NO_WORKFLOW) ==
      Prepended(acc, RecordsIn(WORKFLOW, ParseElems(rest).value.0, NO_WORKFLOW))
  }

  lemma FirstRecord(start: seq<Token>)
    ensures ParseElems(start).Some? ==> RecordsSoFar(start, [], start)
  {
    assert forall rs: seq<LinearWorkflowState> :: [] + rs == rs;
  }

  lemma NextRecord(start: seq<Token>, acc: seq<LinearWorkflowState>, rest: seq<Token>, elem: LinearWorkflowState)
    requires ParseElems(start).Some? ==> RecordsSoFar(start, acc, rest)
    requires rest != [] && rest[0] != ArrEnd && ParseValue(rest).Some?
    requires Decode(WORKFLOW, ParseValue(rest).value.0, NO_WORKFLOW) == Ok(elem)
    ensures ParseElems(start).Some? ==> RecordsSoFar(start, acc + [elem], ParseValue(rest).value.1)
  {
    if ParseElems(start).Some? {
      var left := RecordsIn(WORKFLOW, ParseElems(ParseValue(rest).value.1).value.0, NO_WORKFLOW);
      if left.Some? { ConcatAssoc(acc, [elem], left.value); }
    }
  }

  function Prepended<T>(a: seq<T>, o: Option<seq<T>>): Option<seq<T>> {
    match o case None => None case Some(b) => Some(a + b)
  }

  /** The bit the callback sets for the field with index `i`, if that is required. */
  function TeamMark(bits: seq<Word>, i: nat): seq<Word>
    requires |bits| == 1
  {
    match i
    case 0 => bits[0 := OrBit(bits[0], 0)]
    case 2 => bits[0 := OrBit(bits[0], 2)]
    case 3 => bits[0 := OrBit(bits[0], 3)]
    case _ => bits
  }

  lemma TeamMarks(bits: seq<Word>, i: nat)
    requires i < 4 && |bits| == 1
    ensures TeamMark(bits, i) == if Required(TEAM_MASKS, i) then Mark(bits, i) else bits
  {
    TeamMasks();
  }

  lemma TeamNamesDiffer()
    ensures Distinct(TEAM_NAMES)
  {
  }

  lemma TeamOk(k: string, i: nat, before: seq<Token>, after: seq<Token>, s0: LinearTeamState, s: LinearTeamState,
                bits0: seq<Word>, bits: seq<Word>)
    requires i < 4 && k == TEAM_NAMES[i] && |bits0| == 1
    requires ParseValue(before).Some? && after == ParseValue(before).value.1
    requires TeamTyped(i, ParseValue(before).value.0)
    requires s == TeamAssign(s0, i, ParseValue(before).value.0)
    requires bits == TeamMark(bits0, i)
    ensures FieldRead(TEAM, TEAM_MASKS, k, before, after, s0, s, bits0, bits, None)
  {
    TeamNamesDiffer();
    IndexOfName(TEAM_NAMES, i);
    TeamMarks(bits0, i);
  }

  /** The callback that decodes one field. */
  method TeamField(d: Decoder, k: string, s0: LinearTeamState, bits0: seq<Word>, itoa: nat -> string)
    returns (s: LinearTeamState, requiredBitSet: seq<Word>, err: Option<DecodeError>)
    requires |bits0| == 1
    modifies d
    ensures FieldRead(TEAM, TEAM_MASKS, k, old(d.rest), d.rest, s0, s, bits0, requiredBitSet, err)
  {
    ghost var before := d.rest;
    s, requiredBitSet, err := s0, bits0, None;
    var i := IndexIn(TEAM_NAMES, k);
    if i == 0 {
      requiredBitSet := requiredBitSet[0 := OrBit(requiredBitSet[0], 0)];
      var v := d.ReadStr();
      if v == None {
        err := Some(BadField(k));
      } else {
        s := s.(teamId := v.value);
      }
    } else if i == 1 {
      s := s.(teamKey := None);
      var v := d.ReadStr();
      if v == None {
        err := Some(BadField(k));
      } else {
        s := s.(teamKey := v);
      }
    } else if i == 2 {
      requiredBitSet := requiredBitSet[0 := OrBit(requiredBitSet[0], 2)];
      var v := d.ReadStr();
      if v == None {
        err := Some(BadField(k));
      } else {
        s := s.(teamName := v.value);
      }
    } else if i == 3 {
      requiredBitSet := requiredBitSet[0 := OrBit(requiredBitSet[0], 3)];
      s := s.(states := Some([]));
      var v := ReadStates(d, itoa);
      if v == None {
        err := Some(BadField(k));
      } else {
        s := s.(states := v);
      }
    } else {
      var ok, _ := d.Skip();
      Skipped(TEAM, TEAM_MASKS, i, k, before, d.rest, s, requiredBitSet);
      if !ok {
        return s, requiredBitSet, Some(Malformed);
      }
      return;
    }
    if err == None {
      TeamOk(k, i, before, d.rest, s0, s, bits0, requiredBitSet);
    }
  }

  /** `d.ObjBytes` with that callback. */
  method TeamObject(d: Decoder, receiver: LinearTeamState, itoa: nat -> string)
    returns (s: LinearTeamState, requiredBitSet: seq<Word>, err: Option<DecodeError>)
    modifies d
    ensures ObjectRead(TEAM, TEAM_MASKS, old(d.rest), receiver, d.rest, s, requiredBitSet, err)
  {
    ghost var before := d.rest;
    s, requiredBitSet, err := receiver, NoBits(1), None;
    var open := d.Next();
    if open != Some(ObjStart) {
      NoObject(TEAM, TEAM_MASKS, before, receiver, d.rest, s, requiredBitSet);
      return s, requiredBitSet, Some(NotAnObject);
    }
    Begin(TEAM, TEAM_MASKS, before[1..], receiver, requiredBitSet);
    TeamLawful();
    while d.rest != [] && d.rest[0].Key?
      invariant Progress(TEAM, TEAM_MASKS, before[1..], receiver, d.rest, s, requiredBitSet) && err == None
      decreases |d.rest|
    {
      ghost var rest, s0, bits0 := d.rest, s, requiredBitSet;
      var key := d.Next();
      s, requiredBitSet, err := TeamField(d, key.value.name, s, requiredBitSet, itoa);
      if err != None {
        Fail(TEAM, TEAM_MASKS, before, receiver, rest, s0, bits0, d.rest, s, requiredBitSet, err);
        return;
      }
      Advance(TEAM, TEAM_MASKS, before[1..], receiver, rest, s0, bits0, d.rest, s, requiredBitSet);
    }
    ghost var last := d.rest;
    var end := d.Next();
    if end != Some(ObjEnd) {
      Unclosed(TEAM, TEAM_MASKS, before, receiver, last, d.rest, s, requiredBitSet);
      return s, requiredBitSet, Some(Malformed);
    }
    TeamMasks();
    Close(TEAM, TEAM_MASKS, before, receiver, last, s, requiredBitSet);
  }

  method DecodeLinearTeamState(d: Decoder, receiver: LinearTeamState, itoa: nat -> string)
    returns (s: LinearTeamState, err: Option<DecodeError>)
    modifies d
    ensures Read(TEAM, old(d.rest), receiver, d.rest, s, err)
  {
    ghost var before := d.rest;
    var requiredBitSet;
    s, requiredBitSet, err := TeamObject(d, receiver, itoa);
    if err != None {
      return;
    }
    TeamMasks();
    Finish(TEAM, TEAM_MASKS, before, receiver, d.rest, s, requiredBitSet, itoa);
    var failures := MissedFields(requiredBitSet, TEAM_MASKS, TEAM_NAMES, itoa);
    if |failures| > 0 {
      err := Some(Missing(failures));
    }
  }

  const SETTINGS_MASKS: seq<Word> := [[false, true, false, false, false, false, false, false],
    [false, true, true, false, false, false, false, false]]

  lemma SettingsMasks()
    ensures forall j :: 0 <= j < 16 ==> (BitAt(SETTINGS_MASKS, j) <==> j in SETTINGS.required)
    ensures forall j :: 0 <= j < 16 && BitAt(SETTINGS_MASKS, j) ==> j < |SETTINGS_NAMES|
    ensures SetIndices(SETTINGS_MASKS) == SETTINGS.required
  {
    assert forall j :: j in SETTINGS.required <==> SetAt(Bits(SETTINGS_MASKS), 0, j);
    SetIndicesAre(SETTINGS_MASKS, SETTINGS.required);
  }

  function StringsOf(p: Option<(Value, seq<Token>)>): Option<seq<string>> {
    if p.Some? && p.value.0.VArr? then StringsIn(p.value.0.elems) else None
  }

  /** `d.Arr` over strings. */
  method ReadStrings(d: Decoder) returns (strings: Option<seq<string>>)
    modifies d
    ensures strings == StringsOf(ParseValue(old(d.rest)))
    ensures strings.Some? ==> d.rest == ParseValue(old(d.rest)).value.1
  {
    var open := d.Next();
    if open != Some(ArrStart) {
      return None;
    }
    ghost var start := d.rest;
    var acc: seq<string> := [];
    assert forall ss: seq<string> :: [] + ss == ss;
    while d.rest != [] && d.rest[0] != ArrEnd
      invariant SameEnd(ParseElems(start), ParseElems(d.rest))
      invariant ParseElems(start).Some? ==>
        StringsIn(ParseElems(start).value.0) == Prepended(acc, StringsIn(ParseElems(d.rest).value.0))
      decreases |d.rest|
    {
      var v := d.ReadStr();
      if v == None {
        return None;
      }
      if ParseElems(start).Some? {
        var left := StringsIn(ParseElems(d.rest).value.0);
        if left.Some? { ConcatAssoc(acc, [v.value], left.value); }
      }
      acc := acc + [v.value];
    }
    assert acc + [] == acc;
    var end := d.Next();
    strings := if end == Some(ArrEnd) then Some(acc) else None;
  }

  /** The bit the callback sets for the field with index `i`, if that is required. */
  function SettingsMark(bits: seq<Word>, i: nat): seq<Word>
    requires |bits| == 2
  {
    match i
    case 1 => bits[0 := OrBit(bits[0], 1)]
    case 9 => bits[1 := OrBit(bits[1], 1)]
    case 10 => bits[1 := OrBit(bits[1], 2)]
    case _ => bits
  }

  lemma SettingsMarks(bits: seq<Word>, i: nat)
    requires i < 11 && |bits| == 2
    ensures SettingsMark(bits, i) == if Required(SETTINGS_MASKS, i) then Mark(bits, i) else bits
  {
    SettingsMasks();
  }

  lemma SettingsOk(k: string, i: nat, before: seq<Token>, after: seq<Token>, s0: LinearSettings, s: LinearSettings,
                   bits0: seq<Word>, bits: seq<Word>)
    requires i < 11 && |bits0| == 2
    requires ParseValue(before).Some? && after == ParseValue(before).value.1
    requires SettingsTyped(i, ParseValue(before).value.0)
    requires s == SettingsAssign(s0, i, ParseValue(before).value.0)
    requires bits == SettingsMark(bits0, i)
    ensures FieldReadAt(SETTINGS, SETTINGS_MASKS, i, k, before, after, s0, s, bits0, bits, None)
  {
    SettingsMarks(bits0, i);
  }

  lemma SettingsBad(k: string, i: nat, before: seq<Token>, after: seq<Token>, s0: LinearSettings, s: LinearSettings,
                    bits0: seq<Word>, bits: seq<Word>)
    requires i < 11
    requires ParseValue(before).None? || !SettingsTyped(i, ParseValue(before).value.0)
    ensures FieldReadAt(SETTINGS, SETTINGS_MASKS, i, k, before, after, s0, s, bits0, bits, Some(BadField(k)))
  {
  }

  /** The switch of that callback, on the index of the key. */
  method SettingsCase(d: Decoder, k: string, i: nat, s0: LinearSettings, bits0: seq<Word>)
    returns (s: LinearSettings, requiredBitSet: seq<Word>, err: Option<DecodeError>)
    requires i <= 11 && |bits0| == 2
    modifies d
    ensures FieldReadAt(SETTINGS, SETTINGS_MASKS, i, k, old(d.rest), d.rest, s0, s, bits0, requiredBitSet, err)
  {
    ghost var before := d.rest;
    s, requiredBitSet, err := s0, bits0, None;
    if i == 0 {
      s := s.(settingId := None);
      var v := d.ReadStr();
      if v == None {
        err := Some(BadField(k));
      } else {
        s := s.(settingId := v);
      }
    } else if i == 1 {
      requiredBitSet := requiredBitSet[0 := OrBit(requiredBitSet[0], 1)];
      var v := d.ReadStr();
      if v == None {
        err := Some(BadField(k));
      } else {
        s := s.(creationMode := v.value);
      }
    } else if i == 2 {
      s := s.(triggerStatus := None);
      var v := d.ReadStr();
      if v == None {
        err := Some(BadField(k));
      } else {
        s := s.(triggerStatus := v);
      }
    } else if i == 3 {
      s := s.(nameTemplate := None);
      var v := d.ReadStr();
      if v == None {
        err := Some(BadField(k));
      } else {
        s := s.(nameTemplate := v);
      }
    } else if i == 4 {
      s := s.(topicTemplate := None);
      var v := d.ReadStr();
      if v == None {
        err := Some(BadField(k));
      } else {
        s := s.(topicTemplate := v);
      }
    } else if i == 5 {
      s := s.(conditionExpr := None);
      var v := d.ReadStr();
      if v == None {
        err := Some(BadField(k));
      } else {
        s := s.(conditionExpr := v);
      }
    } else if i == 6 {
      s := s.(archiveMode := None);
      var v := d.ReadStr();
      if v == None {
        err := Some(BadField(k));
      } else {
        s := s.(archiveMode := v);
      }
    } else if i == 7 {
      s := s.(archiveStatus := None);
      var v := d.ReadStr();
      if v == None {
        err := Some(BadField(k));
      } else {
        s := s.(archiveStatus := v);
      }
    } else if i == 8 {
      s := s.(archiveConditionExpr := None);
      var v := d.ReadStr();
      if v == None {
        err := Some(BadField(k));
      } else {
        s := s.(archiveConditionExpr := v);
      }
    } else if i == 9 {
      requiredBitSet := requiredBitSet[1 := OrBit(requiredBitSet[1], 1)];
      s := s.(autoAddMembers := Some([]));
      var v := ReadStrings(d);
      if v == None {
        err := Some(BadField(k));
      } else {
        s := s.(autoAddMembers := v);
      }
    } else if i == 10 {
      requiredBitSet := requiredBitSet[1 := OrBit(requiredBitSet[1], 2)];
      var v := d.ReadStr();
      if v == None {
        err := Some(BadField(k));
      } else {
        s := s.(teamId := v.value);
      }
    } else {
      var ok, _ := d.Skip();
      Skipped(SETTINGS, SETTINGS_MASKS, i, k, before, d.rest, s, requiredBitSet);
      if !ok {
        return s, requiredBitSet, Some(Malformed);
      }
      return;
    }
    if err == None {
      SettingsOk(k, i, before, d.rest, s0, s, bits0, requiredBitSet);
    } else {
      SettingsBad(k, i, before, d.rest, s0, s, bits0, requiredBitSet);
    }
  }

  /** The callback that decodes one field. */
  method SettingsField(d: Decoder, k: string, s0: LinearSettings, bits0: seq<Word>)
    returns (s: LinearSettings, requiredBitSet: seq<Word>, err: Option<DecodeError>)
    requires |bits0| == 2
    modifies d
    ensures FieldRead(SETTINGS, SETTINGS_MASKS, k, old(d.rest), d.rest, s0, s, bits0, requiredBitSet, err)
  {
    s, requiredBitSet, err := SettingsCase(d, k, IndexIn(SETTINGS_NAMES, k), s0, bits0);
  }

  /** `d.ObjBytes` with that callback. */
  method SettingsObject(d: Decoder, receiver: LinearSettings)
    returns (s: LinearSettings, requiredBitSet: seq<Word>, err: Option<DecodeError>)
    modifies d
    ensures ObjectRead(SETTINGS, SETTINGS_MASKS, old(d.rest), receiver, d.rest, s, requiredBitSet, err)
  {
    ghost var before := d.rest;
    s, requiredBitSet, err := receiver, NoBits(2), None;
    var open := d.Next();
    if open != Some(ObjStart) {
      NoObject(SETTINGS, SETTINGS_MASKS, before, receiver, d.rest, s, requiredBitSet);
      return s, requiredBitSet, Some(NotAnObject);
    }
    Begin(SETTINGS, SETTINGS_MASKS, before[1..], receiver, requiredBitSet);
    SettingsLawful();
    while d.rest != [] && d.rest[0].Key?
      invariant Progress(SETTINGS, SETTINGS_MASKS, before[1..], receiver, d.rest, s, requiredBitSet) && err == None
      decreases |d.rest|
    {
      ghost var rest, s0, bits0 := d.rest, s, requiredBitSet;
      var key := d.Next();
      s, requiredBitSet, err := SettingsField(d, key.value.name, s, requiredBitSet);
      if err != None {
        Fail(SETTINGS, SETTINGS_MASKS, before, receiver, rest, s0, bits0, d.rest, s, requiredBitSet, err);
        return;
      }
      Advance(SETTINGS, SETTINGS_MASKS, before[1..], receiver, rest, s0, bits0, d.rest, s, requiredBitSet);
    }
    ghost var last := d.rest;
    var end := d.Next();
    if end != Some(ObjEnd) {
      Unclosed(SETTINGS, SETTINGS_MASKS, before, receiver, last, d.rest, s, requiredBitSet);
      return s, requiredBitSet, Some(Malformed);
    }
    SettingsMasks();
    Close(SETTINGS, SETTINGS_MASKS, before, receiver, last, s, requiredBitSet);
  }

  method DecodeLinearSettings(d: Decoder, receiver: LinearSettings, itoa: nat -> string)
    returns (s: LinearSettings, err: Option<DecodeError>)
    modifies d
    ensures Read(SETTINGS, old(d.rest), receiver, d.rest, s, err)
  {
    ghost var before := d.rest;
    var requiredBitSet;
    s, requiredBitSet, err := SettingsObject(d, receiver);
    if err != None {
      return;
    }
    SettingsMasks();
    Finish(SETTINGS, SETTINGS_MASKS, before, receiver, d.rest, s, requiredBitSet, itoa);
    var failures := MissedFields(requiredBitSet, SETTINGS_MASKS, SETTINGS_NAMES, itoa);
    if |failures| > 0 {
      err := Some(Missing(failures));
    }
  }
}
