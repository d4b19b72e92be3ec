/** How the generated decoders fill a record from an object: field by field, in input order, into the
    receiver, then a check for required fields. A schema is what one generated `Decode` knows. */
module Schema {
  import opened Wrappers
  import opened Json

  /** `names` are the declared fields in index order, `typed` says whether a value decodes as the field
      with that index, `assign` what decoding it does to the record; `required` are indices too. */
  datatype Schema<!R> = Schema(names: seq<string>, typed: (nat, Value) -> bool, assign: (R, nat, Value) -> R,
                               required: seq<nat>)
  {
    predicate Typed(k: string, v: Value) {
      var i := IndexIn(names, k);
      i < |names| ==> typed(i, v)
    }

    function Assign(r: R, k: string, v: Value): R {
      var i := IndexIn(names, k);
      if i < |names| then assign(r, i, v) else r
    }
  }

  /** `switch string(k)`: the index of a key, or the length for an unknown one. */
  function IndexIn(names: seq<string>, k: string): (i: nat)
    ensures i <= |names|
    ensures i < |names| ==> names[i] == k
    ensures i == |names| <==> k !in names
  {
    if names == [] || names[0] == k then 0 else 1 + IndexIn(names[1..], k)
  }

  lemma IndexOfName(names: seq<string>, i: nat)
    requires i < |names| && Distinct(names)
    ensures IndexIn(names, names[i]) == i
  {
    assert names[i] in names;
  }

  predicate Distinct(names: seq<string>) {
    forall i, j :: 0 <= i < j < |names| ==> names[i] != names[j]
  }

  datatype DecodeError = Malformed | NotAnObject | BadField(name: string) | Missing(names: seq<string>)

  function FirstBad<R>(sc: Schema<R>, fs: Fields): Option<string> {
    match fs
    case NoField => None
    case Field(k, v, more) => if sc.Typed(k, v) then FirstBad(sc, more) else Some(k)
  }

  function Fold<R>(sc: Schema<R>, fs: Fields, r: R): R {
    match fs
    case NoField => r
    case Field(k, v, more) => Fold(sc, more, sc.Assign(r, k, v))
  }

  predicate HasKey(fs: Fields, k: string) {
    match fs
    case NoField => false
    case Field(k', _, more) => k == k' || HasKey(more, k)
  }

  /** The required fields that are absent, in index order. */
  function MissingFrom<R>(sc: Schema<R>, required: seq<nat>, fs: Fields): seq<string> {
    if required == [] then []
    else
      var i := required[0];
      (if i < |sc.names| && !HasKey(fs, sc.names[i]) then [sc.names[i]] else []) + MissingFrom(sc, required[1..], fs)
  }

  function DecodeFields<R>(sc: Schema<R>, fs: Fields, receiver: R): Result<R, DecodeError> {
    match FirstBad(sc, fs)
    case Some(k) => Err(BadField(k))
    case None =>
      var missing := MissingFrom(sc, sc.required, fs);
      if missing != [] then Err(Missing(missing)) else Ok(Fold(sc, fs, receiver))
  }

  function Decode<R>(sc: Schema<R>, v: Value, receiver: R): Result<R, DecodeError> {
    match v
    case VObj(fs) => DecodeFields(sc, fs, receiver)
    case _ => Err(NotAnObject)
  }

  // ---------------------------------------------------------------- laws and what follows from them

  /** Different fields do not interfere, and a field is reset before it is decoded, so that nothing of an
      earlier value stays. */
  ghost predicate Lawful<R(!new)>(sc: Schema<R>) {
    && Distinct(sc.names)
    && (forall r, i: nat, v, j: nat, w :: i != j ==>
          sc.assign(sc.assign(r, i, v), j, w) == sc.assign(sc.assign(r, j, w), i, v))
    && (forall r, i: nat, v, w :: sc.assign(sc.assign(r, i, v), i, w) == sc.assign(r, i, w))
  }

  /** The value of the last field with this key. */
  function Last(fs: Fields, k: string): Option<Value> {
    match fs
    case NoField => None
    case Field(k', v, more) =>
      if Last(more, k).Some? then Last(more, k) else if k == k' then Some(v) else None
  }

  /** Assigns only the last value of each declared field, in declaration order. */
  function Canonical<R>(sc: Schema<R>, names: seq<string>, fs: Fields, r: R): R {
    if names == [] then r
    else Canonical(sc, names[1..], fs,
      if Last(fs, names[0]).Some? then sc.Assign(r, names[0], Last(fs, names[0]).value) else r)
  }

  lemma LastTyped<R>(sc: Schema<R>, fs: Fields, k: string)
    requires FirstBad(sc, fs).None?
    ensures Last(fs, k).Some? ==> sc.Typed(k, Last(fs, k).value)
    ensures Last(fs, k).Some? <==> HasKey(fs, k)
  {
  }

  /** A field in front of others, seen from the canonical assignment. */
  lemma {:induction false} CanonicalField<R(!new)>(sc: Schema<R>, names: seq<string>,
                                                   k: string, v: Value, more: Fields, r: R)
    requires Lawful(sc) && FirstBad(sc, Field(k, v, more)).None?
    requires Distinct(names)
    ensures k in names ==> Canonical(sc, names, Field(k, v, more), r) == Canonical(sc, names, more, sc.Assign(r, k, v))
    ensures k !in names ==> Canonical(sc, names, Field(k, v, more), r) == Canonical(sc, names, more, r)
  {
    if names == [] {
    } else {
      var n, fs := names[0], Field(k, v, more);
      LastTyped(sc, more, n);
      assert names == [n] + names[1..];
      if n == k {
        var w := Last(fs, k).value;
        assert sc.Assign(sc.Assign(r, k, v), k, w) == sc.Assign(r, k, w);
        CanonicalField(sc, names[1..], k, v, more, sc.Assign(r, k, w));
      } else if Last(more, n).Some? {
        var u := Last(more, n).value;
        assert sc.Assign(sc.Assign(r, n, u), k, v) == sc.Assign(sc.Assign(r, k, v), n, u);
        CanonicalField(sc, names[1..], k, v, more, sc.Assign(r, n, u));
      } else {
        CanonicalField(sc, names[1..], k, v, more, r);
      }
    }
  }

  lemma {:induction false} FoldIsCanonical<R(!new)>(sc: Schema<R>, fs: Fields, r: R)
    requires Lawful(sc) && FirstBad(sc, fs).None?
    ensures Fold(sc, fs, r) == Canonical(sc, sc.names, fs, r)
  {
    match fs
    case NoField => CanonicalOfNothing(sc, sc.names, r);
    case Field(k, v, more) =>
      FoldIsCanonical(sc, more, sc.Assign(r, k, v));
      CanonicalField(sc, sc.names, k, v, more, r);
  }

  lemma CanonicalOfNothing<R>(sc: Schema<R>, names: seq<string>, r: R)
    ensures Canonical(sc, names, NoField, r) == r
  {
  }

  lemma {:induction false} CanonicalDependsOnLast<R>(sc: Schema<R>, names: seq<string>, fs: Fields, gs: Fields, r: R)
    requires forall k :: k in names ==> Last(fs, k) == Last(gs, k)
    ensures Canonical(sc, names, fs, r) == Canonical(sc, names, gs, r)
  {
    if names == [] {
    } else {
      CanonicalDependsOnLast(sc, names[1..], fs, gs,
        if Last(fs, names[0]).Some? then sc.Assign(r, names[0], Last(fs, names[0]).value) else r);
    }
  }

  lemma {:induction false} MissingDependsOnLast<R>(sc: Schema<R>, required: seq<nat>, fs: Fields, gs: Fields)
    requires FirstBad(sc, fs).None? && FirstBad(sc, gs).None?
    requires forall k :: k in sc.names ==> Last(fs, k) == Last(gs, k)
    ensures MissingFrom(sc, required, fs) == MissingFrom(sc, required, gs)
  {
    if required == [] {
    } else {
      if required[0] < |sc.names| {
        LastTyped(sc, fs, sc.names[required[0]]);
        LastTyped(sc, gs, sc.names[required[0]]);
      }
      MissingDependsOnLast(sc, required[1..], fs, gs);
    }
  }

  /** Decoding is independent of the order of the fields and of unknown fields, and with repeated keys
      the last value wins: two objects with the same last values of the declared fields decode alike, also
      in which required fields they miss, if both are well typed or neither is. In the latter case only
      which of the ill-typed fields is named may differ. */
  lemma LastValuesDecide<R(!new)>(sc: Schema<R>, fs: Fields, gs: Fields, receiver: R)
    requires Lawful(sc) && (FirstBad(sc, fs).None? <==> FirstBad(sc, gs).None?)
    requires forall k :: k in sc.names ==> Last(fs, k) == Last(gs, k)
    ensures FirstBad(sc, fs).None? ==> DecodeFields(sc, fs, receiver) == DecodeFields(sc, gs, receiver)
    ensures FirstBad(sc, fs).Some? ==>
      && DecodeFields(sc, fs, receiver) == Err(BadField(FirstBad(sc, fs).value))
      && DecodeFields(sc, gs, receiver) == Err(BadField(FirstBad(sc, gs).value))
  {
    if FirstBad(sc, fs).None? {
      FoldIsCanonical(sc, fs, receiver);
      FoldIsCanonical(sc, gs, receiver);
      CanonicalDependsOnLast(sc, sc.names, fs, gs, receiver);
      MissingDependsOnLast(sc, sc.required, fs, gs);
    }
  }

  predicate Has(fs: Fields, k: string, v: Value) {
    match fs
    case NoField => false
    case Field(k', v', more) => (k == k' && v == v') || Has(more, k, v)
  }

  /** Well-typedness does not depend on the order of the fields either. */
  lemma {:induction false} TypedEverywhere<R>(sc: Schema<R>, fs: Fields)
    ensures FirstBad(sc, fs).None? <==> forall k, v :: k in sc.names && Has(fs, k, v) ==> sc.Typed(k, v)
  {
    match fs
    case NoField =>
    case Field(k, v, more) =>
      TypedEverywhere(sc, more);
      assert Has(fs, k, v);
      assert forall l, w :: Has(more, l, w) ==> Has(fs, l, w);
  }

  /** Every value under the key of this field is of its kind. */
  ghost predicate ValuesTyped<R>(sc: Schema<R>, fs: Fields, i: nat)
    requires i < |sc.names|
  {
    forall v :: Has(fs, sc.names[i], v) ==> sc.typed(i, v)
  }

  lemma TypedByIndex<R>(sc: Schema<R>, fs: Fields)
    requires Distinct(sc.names)
    ensures FirstBad(sc, fs).None? <==> forall i :: 0 <= i < |sc.names| ==> ValuesTyped(sc, fs, i)
  {
    TypedEverywhere(sc, fs);
    forall i | 0 <= i < |sc.names| ensures forall v :: sc.Typed(sc.names[i], v) <==> sc.typed(i, v) {
      IndexOfName(sc.names, i);
    }
    forall k, v | k in sc.names && Has(fs, k, v) && !sc.Typed(k, v) ensures !ValuesTyped(sc, fs, IndexIn(sc.names, k)) {
      assert Has(fs, sc.names[IndexIn(sc.names, k)], v);
    }
  }

  /** So for any two objects with the same declared fields, whatever their order and whatever other fields they
      have: one decodes exactly if the other does, and to the same record. */
  lemma SameFieldsDecide<R(!new)>(sc: Schema<R>, fs: Fields, gs: Fields, receiver: R)
    requires Lawful(sc)
    requires forall k, v :: k in sc.names ==> (Has(fs, k, v) <==> Has(gs, k, v))
    requires forall k :: k in sc.names ==> Last(fs, k) == Last(gs, k)
    ensures var a, b := DecodeFields(sc, fs, receiver), DecodeFields(sc, gs, receiver);
      (a.Ok? <==> b.Ok?) && (a.Ok? ==> a == b)
  {
    TypedEverywhere(sc, fs);
    TypedEverywhere(sc, gs);
    LastValuesDecide(sc, fs, gs, receiver);
  }

  /** An object decodes exactly when every declared field in it is well typed and every required field is
      there. */
  lemma DecodesIff<R(!new)>(sc: Schema<R>, fs: Fields, receiver: R)
    requires forall j :: 0 <= j < |sc.required| ==> sc.required[j] < |sc.names|
    ensures DecodeFields(sc, fs, receiver).Ok? <==>
      && FirstBad(sc, fs).None?
      && (forall i :: i in sc.required ==> HasKey(fs, sc.names[i]))
  {
    MissingNoneIff(sc, sc.required, fs);
  }

  lemma {:induction false} MissingNoneIff<R>(sc: Schema<R>, required: seq<nat>, fs: Fields)
    requires forall j :: 0 <= j < |required| ==> required[j] < |sc.names|
    ensures MissingFrom(sc, required, fs) == [] <==> forall i :: i in required ==> HasKey(fs, sc.names[i])
  {
    if required == [] {
    } else {
      assert required == [required[0]] + required[1..];
      MissingNoneIff(sc, required[1..], fs);
    }
  }

  // ---------------------------------------------------------------- writing a record

  /** `encodeFields`: the set fields from index `i` on, in index order. */
  function Emit(names: seq<string>, vals: seq<Option<Value>>, i: nat): Fields
    requires i <= |names| == |vals|
    decreases |names| - i
  {
    if i == |names| then NoField
    else match vals[i]
      case None => Emit(names, vals, i + 1)
      case Some(v) => Field(names[i], v, Emit(names, vals, i + 1))
  }

  /** A key of a written record holds the value of its property, if that is set. */
  lemma {:induction false} EmitLast(names: seq<string>, vals: seq<Option<Value>>, i: nat, j: nat)
    requires i <= |names| == |vals| && Distinct(names) && j < |names|
    ensures Last(Emit(names, vals, i), names[j]) == if i <= j then vals[j] else None
    decreases |names| - i
  {
    if i == |names| {
    } else {
      EmitLast(names, vals, i + 1, j);
    }
  }

  function Step<R>(sc: Schema<R>, i: nat, val: Option<Value>, r: R): R {
    match val case None => r case Some(v) => sc.assign(r, i, v)
  }

  /** Assigns the set fields from index `i` on. */
  function AssignAll<R>(sc: Schema<R>, vals: seq<Option<Value>>, i: nat, r: R): R
    requires i <= |vals|
    decreases |vals| - i
  {
    if i == |vals| then r
    else AssignAll(sc, vals, i + 1, Step(sc, i, vals[i], r))
  }

  lemma {:induction false} AssignChain<R>(sc: Schema<R>, vals: seq<Option<Value>>, i: nat, state: nat -> R)
    requires i <= |vals|
    requires forall j :: i <= j < |vals| ==> state(j + 1) == Step(sc, j, vals[j], state(j))
    ensures AssignAll(sc, vals, i, state(i)) == state(|vals|)
    decreases |vals| - i
  {
    if i == |vals| {
    } else {
      AssignChain(sc, vals, i + 1, state);
    }
  }

  /** The last values under the given keys. */
  function Lasts(fs: Fields, names: seq<string>): (vals: seq<Option<Value>>)
    ensures |vals| == |names|
    ensures forall j :: 0 <= j < |names| ==> vals[j] == Last(fs, names[j])
  {
    if names == [] then [] else [Last(fs, names[0])] + Lasts(fs, names[1..])
  }

  lemma {:induction false} CanonicalIsAssignAll<R>(sc: Schema<R>, fs: Fields, i: nat, r: R)
    requires i <= |sc.names| && Distinct(sc.names)
    ensures Canonical(sc, sc.names[i..], fs, r) == AssignAll(sc, Lasts(fs, sc.names), i, r)
    decreases |sc.names| - i
  {
    if i == |sc.names| {
    } else {
      IndexOfName(sc.names, i);
      assert sc.names[i..][1..] == sc.names[i + 1..];
      CanonicalIsAssignAll(sc, fs, i + 1, Step(sc, i, Last(fs, sc.names[i]), r));
    }
  }

  /** Reading a well-typed object assigns the last value under each key, in the order of declaration. */
  lemma LastsFold<R(!new)>(sc: Schema<R>, fs: Fields, state: nat -> R)
    requires Lawful(sc) && FirstBad(sc, fs).None?
    requires forall j :: 0 <= j < |sc.names| ==> state(j + 1) == Step(sc, j, Last(fs, sc.names[j]), state(j))
    ensures Fold(sc, fs, state(0)) == state(|sc.names|)
  {
    FoldIsCanonical(sc, fs, state(0));
    assert sc.names[0..] == sc.names;
    CanonicalIsAssignAll(sc, fs, 0, state(0));
    AssignChain(sc, Lasts(fs, sc.names), 0, state);
  }

  lemma {:induction false} EmitFolds<R>(sc: Schema<R>, vals: seq<Option<Value>>, i: nat, r: R)
    requires i <= |sc.names| == |vals| && Distinct(sc.names)
    requires forall j :: i <= j < |vals| && vals[j].Some? ==> sc.typed(j, vals[j].value)
    ensures FirstBad(sc, Emit(sc.names, vals, i)).None?
    ensures Fold(sc, Emit(sc.names, vals, i), r) == AssignAll(sc, vals, i, r)
    ensures forall j :: i <= j < |vals| && vals[j].Some? ==> HasKey(Emit(sc.names, vals, i), sc.names[j])
    decreases |vals| - i
  {
    if i == |vals| {
    } else {
      IndexOfName(sc.names, i);
      EmitFolds(sc, vals, i + 1, Step(sc, i, vals[i], r));
    }
  }

  /** Of a written record the first field whose value does not decode is the one that is reported. */
  lemma {:induction false} EmitFirstBad<R>(sc: Schema<R>, vals: seq<Option<Value>>, i: nat, j: nat)
    requires i <= j < |sc.names| == |vals| && Distinct(sc.names)
    requires forall k :: i <= k < j && vals[k].Some? ==> sc.typed(k, vals[k].value)
    requires vals[j].Some? && !sc.typed(j, vals[j].value)
    ensures FirstBad(sc, Emit(sc.names, vals, i)) == Some(sc.names[j])
    decreases j - i
  {
    IndexOfName(sc.names, i);
    if i == j {
    } else {
      EmitFirstBad(sc, vals, i + 1, j);
    }
  }

  lemma EmitFails<R>(sc: Schema<R>, vals: seq<Option<Value>>, j: nat, receiver: R)
    requires j < |sc.names| == |vals| && Distinct(sc.names)
    requires forall k :: 0 <= k < j && vals[k].Some? ==> sc.typed(k, vals[k].value)
    requires vals[j].Some? && !sc.typed(j, vals[j].value)
    ensures DecodeFields(sc, Emit(sc.names, vals, 0), receiver) == Err(BadField(sc.names[j]))
  {
    EmitFirstBad(sc, vals, 0, j);
  }

  /** A written record decodes to the last of the states that assigning its set fields goes through. */
  lemma EmitDecodes<R(!new)>(sc: Schema<R>, vals: seq<Option<Value>>, state: nat -> R)
    requires |sc.names| == |vals| && Distinct(sc.names)
    requires forall j :: 0 <= j < |vals| && vals[j].Some? ==> sc.typed(j, vals[j].value)
    requires forall j :: 0 <= j < |sc.required| ==> sc.required[j] < |vals| && vals[sc.required[j]].Some?
    requires forall j :: 0 <= j < |vals| ==> state(j + 1) == Step(sc, j, vals[j], state(j))
    ensures DecodeFields(sc, Emit(sc.names, vals, 0), state(0)) == Ok(state(|vals|))
  {
    EmitFolds(sc, vals, 0, state(0));
    MissingNoneIff(sc, sc.required, Emit(sc.names, vals, 0));
    AssignChain(sc, vals, 0, state);
  }
}
