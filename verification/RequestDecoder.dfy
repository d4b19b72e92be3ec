/** The request pipeline of the operation that stores a Linear configuration: media type, body, decoding,
    no trailing data, validation. */
module RequestDecoder {
  import opened Wrappers
  import opened Json
  import opened Schema
  import opened Records
  import opened RecordKeys
  import opened RecordCodec
  import opened Validation

  datatype RequestError =
    | BadMediaType | WrongContentType(contentType: string) | BodyRequired | ReadFailed
    | DecodeBody(cause: DecodeError) | TrailingData | Invalid(failures: seq<Failure>)

  /** `http.Request`: `mediaType` is what `mime.ParseMediaType` makes of the header, `body` what is still to
      be read, unless reading fails. */
  class Request {
    const mediaType: Option<string>
    const contentLength: int
    const readable: bool
    var body: string

    constructor (mediaType: Option<string>, contentLength: int, readable: bool, body: string)
      ensures this.mediaType == mediaType && this.contentLength == contentLength
      ensures this.readable == readable && this.body == body
    {
      this.mediaType := mediaType;
      this.contentLength := contentLength;
      this.readable := readable;
      this.body := body;
    }

    /** `io.ReadAll(r.Body)` */
    method ReadAll() returns (buf: Option<string>)
      modifies this
      ensures readable ==> buf == Some(old(body)) && body == ""
      ensures !readable ==> buf == None
    {
      if readable {
        buf := Some(body);
        body := "";
      } else {
        buf := None;
      }
    }
  }

  // ---------------------------------------------------------------- what is accepted

  /** The last value of a field, if there is one, is a legal mode. */
  predicate LegalIn(fs: Fields, k: string) {
    match Last(fs, k)
    case None => true
    case Some(v) => v == VStr("status") || v == VStr("manual") || v == VStr("condition")
  }

  /** An object with the three required keys, with values of their keys' kinds, and with legal modes. */
  ghost predicate Acceptable(fs: Fields) {
    && HasAll(fs, ["creationMode", "autoAddMembers", "teamId"])
    && AllOf(fs, SettingsKinds())
    && LegalIn(fs, "creationMode") && LegalIn(fs, "archiveMode")
  }

  /** The whole input is one acceptable object, and the record is what its keys say. */
  ghost predicate Accepted(tokens: seq<Token>, s: LinearSettings) {
    exists fs :: tokens == Tokens(VObj(fs)) && Acceptable(fs) && s == SettingsAt(fs)
  }

  /** The last value under a key is one of its values. */
  lemma {:induction false} LastIsThere(fs: Fields, k: string)
    ensures HasKey(fs, k) <==> Last(fs, k).Some?
    ensures Last(fs, k).Some? ==> Has(fs, k, Last(fs, k).value)
  {
    match fs
    case NoField =>
    case Field(k', v, more) => LastIsThere(more, k);
  }

  /** If all values under a key are texts, the last one is what is read. */
  lemma LastText(fs: Fields, k: string)
    requires AllAre(fs, k, IsText)
    ensures Last(fs, k) == match OptTextAt(fs, k) case None => None case Some(m) => Some(VStr(m))
    ensures HasKey(fs, k) ==> Last(fs, k) == Some(VStr(TextAt(fs, k)))
  {
    LastIsThere(fs, k);
  }

  lemma ModesAreTexts(fs: Fields)
    requires HasAll(fs, ["creationMode", "autoAddMembers", "teamId"]) && AllOf(fs, SettingsKinds())
    ensures HasKey(fs, "creationMode") && AllAre(fs, "creationMode", IsText) && AllAre(fs, "archiveMode", IsText)
  {
    assert HasKey(fs, ["creationMode", "autoAddMembers", "teamId"][0]);
    assert AllAre(fs, SettingsKinds()[1].0, SettingsKinds()[1].1);
    assert AllAre(fs, SettingsKinds()[6].0, SettingsKinds()[6].1);
  }

  /** A decoded object has texts under the keys of both modes, and the modes are these texts. */
  lemma DecodedModes(fs: Fields, s: LinearSettings)
    requires DecodeFields(SETTINGS, fs, NO_SETTINGS) == Ok(s)
    ensures Last(fs, "creationMode") == Some(VStr(s.creationMode))
    ensures Last(fs, "archiveMode") == match s.archiveMode case None => None case Some(m) => Some(VStr(m))
  {
    SettingsIsRead(fs);
    ModesAreTexts(fs);
    LastText(fs, "creationMode");
    LastText(fs, "archiveMode");
    SettingsSays(fs);
  }

  /** The failure that names a field blames its last value. */
  ghost predicate ModeBlamed(fs: Fields, k: string, f: Failure) {
    exists mode :: f == Failure(Name(k), BadEnum(mode)) && Last(fs, k) == Some(VStr(mode)) &&
                   mode != "status" && mode != "manual" && mode != "condition"
  }

  lemma ModeBlamedIs(fs: Fields, k: string, mode: string, f: Failure)
    requires Last(fs, k) == Some(VStr(mode))
    ensures ModeBlamed(fs, k, f) <==>
      f == Failure(Name(k), BadEnum(mode)) && mode !in ["status", "manual", "condition"]
  {
  }

  /** On a decoded object validation fails with exactly the keys whose last values are no legal modes. */
  lemma ModesBlamed(fs: Fields, s: LinearSettings, f: Failure)
    requires DecodeFields(SETTINGS, fs, NO_SETTINGS) == Ok(s)
    ensures f in SettingsFailures(s) <==> ModeBlamed(fs, "creationMode", f) || ModeBlamed(fs, "archiveMode", f)
  {
    DecodedModes(fs, s);
    SettingsDecoded(VObj(fs), s);
    SettingsBlamed(s, f);
    ModeBlamedIs(fs, "creationMode", s.creationMode, f);
    if s.archiveMode.Some? { ModeBlamedIs(fs, "archiveMode", s.archiveMode.value, f); }
  }

  lemma LegalIs(fs: Fields, k: string, mode: Option<string>)
    requires Last(fs, k) == match mode case None => None case Some(m) => Some(VStr(m))
    ensures LegalIn(fs, k) <==> (mode.Some? ==> mode.value in ["status", "manual", "condition"])
  {
  }

  /** On a decoded object validation looks at the last values of the two modes. */
  lemma ModesDecide(fs: Fields, s: LinearSettings)
    requires DecodeFields(SETTINGS, fs, NO_SETTINGS) == Ok(s)
    ensures SettingsFailures(s) == [] <==> LegalIn(fs, "creationMode") && LegalIn(fs, "archiveMode")
  {
    DecodedModes(fs, s);
    SettingsDecoded(VObj(fs), s);
    SettingsClean(s);
    LegalIs(fs, "creationMode", Some(s.creationMode));
    LegalIs(fs, "archiveMode", s.archiveMode);
  }

  /** Decoding and validating an object succeed together exactly when it is acceptable. */
  lemma FieldsAccepted(fs: Fields)
    ensures Acceptable(fs) <==>
      var r := DecodeFields(SETTINGS, fs, NO_SETTINGS); r.Ok? && SettingsFailures(r.value) == []
    ensures DecodeFields(SETTINGS, fs, NO_SETTINGS).Ok? ==>
      DecodeFields(SETTINGS, fs, NO_SETTINGS) == Ok(SettingsAt(fs))
  {
    SettingsIsRead(fs);
    var r := DecodeFields(SETTINGS, fs, NO_SETTINGS);
    if r.Ok? {
      SettingsSays(fs);
      ModesDecide(fs, r.value);
    }
  }

  /** The pipeline's three tests of the input. */
  predicate Passes(tokens: seq<Token>, s: LinearSettings) {
    var p := ParseValue(tokens);
    p.Some? && p.value.1 == [] && Decode(SETTINGS, p.value.0, NO_SETTINGS) == Ok(s) && SettingsFailures(s) == []
  }

  lemma AcceptablePasses(fs: Fields)
    ensures Acceptable(fs) ==> Passes(Tokens(VObj(fs)), SettingsAt(fs))
  {
    ParseTokens(VObj(fs), []);
    assert Tokens(VObj(fs)) + [] == Tokens(VObj(fs));
    FieldsAccepted(fs);
  }

  lemma PassesAccepted(tokens: seq<Token>, s: LinearSettings)
    requires Passes(tokens, s)
    ensures Accepted(tokens, s)
  {
    var v := ParseValue(tokens).value.0;
    ParsedTokens(tokens);
    assert Tokens(v) + [] == Tokens(v);
    FieldsAccepted(v.fields);
  }

  /** The tests, against what is accepted. */
  lemma AcceptedIff(tokens: seq<Token>, s: LinearSettings)
    ensures Accepted(tokens, s) <==> Passes(tokens, s)
  {
    if Accepted(tokens, s) {
      var fs :| tokens == Tokens(VObj(fs)) && Acceptable(fs) && s == SettingsAt(fs);
      AcceptablePasses(fs);
    }
    if Passes(tokens, s) { PassesAccepted(tokens, s); }
  }

  /** The first of decoding, the end-of-input test and validation that fails determines the error. */
  ghost predicate Answered(tokens: seq<Token>, req: Option<LinearSettings>, err: Option<RequestError>) {
    match ParseValue(tokens)
    case None => err.Some? && err.value.DecodeBody?
    case Some((v, rest)) =>
      match Decode(SETTINGS, v, NO_SETTINGS)
      case Err(e) => err == Some(DecodeBody(e))
      case Ok(s) =>
        if rest != [] then err == Some(TrailingData)
        else if SettingsFailures(s) != [] then err == Some(Invalid(SettingsFailures(s)))
        else err == None && req == Some(s)
  }

  /** What is answered without an error is what is accepted. */
  lemma AnsweredAccepted(tokens: seq<Token>, req: Option<LinearSettings>, err: Option<RequestError>)
    ensures Answered(tokens, req, err) && (err == None <==> req.Some?) ==>
      forall s :: req == Some(s) <==> Accepted(tokens, s)
  {
    forall s ensures Accepted(tokens, s) <==> Passes(tokens, s) { AcceptedIff(tokens, s); }
  }

  // ---------------------------------------------------------------- the pipeline

  /** Decodes one record, nothing after it, and validates it. */
  method DecodeBuffer(tokens: seq<Token>, itoa: nat -> string)
    returns (req: Option<LinearSettings>, err: Option<RequestError>)
    ensures err == None <==> req.Some?
    ensures Answered(tokens, req, err)
  {
    var d := new Decoder(tokens);
    var request, e := DecodeLinearSettings(d, NO_SETTINGS, itoa);
    if e != None {
      return None, Some(DecodeBody(e.value));
    }
    var _, eof := d.Skip();
    if !eof {
      return None, Some(TrailingData);
    }
    var failures := ValidateLinearSettings(request);
    if |failures| > 0 {
      return None, Some(Invalid(failures));
    }
    return Some(request), None;
  }

  /** `lex` is how the decoder splits a buffer into tokens, `itoa` the fallback name of an undeclared
      required field. */
  method DecodeCreateLinearSettingsRequest(r: Request, lex: string -> seq<Token>, itoa: nat -> string)
    returns (req: Option<LinearSettings>, rawBody: string, err: Option<RequestError>)
    modifies r
    ensures err == None <==> req.Some?
    ensures r.mediaType == None ==> err == Some(BadMediaType)
    ensures r.mediaType.Some? && r.mediaType.value != "application/json" ==>
      err == Some(WrongContentType(r.mediaType.value))
    ensures r.mediaType == Some("application/json") && r.contentLength == 0 ==> err == Some(BodyRequired)
    ensures r.mediaType == Some("application/json") && r.contentLength != 0 && !r.readable ==> err == Some(ReadFailed)
    ensures r.mediaType == Some("application/json") && r.contentLength != 0 && r.readable ==>
      && r.body == old(r.body)
      && (r.body == "" ==> err == Some(BodyRequired))
      && (r.body != "" ==> rawBody == r.body && Answered(lex(r.body), req, err) &&
                           forall s :: req == Some(s) <==> Accepted(lex(r.body), s))
  {
    req, rawBody := None, "";
    if r.mediaType == None {
      return None, rawBody, Some(BadMediaType);
    }
    var ct := r.mediaType.value;
    if ct != "application/json" {
      return None, rawBody, Some(WrongContentType(ct));
    }
    if r.contentLength == 0 {
      return None, rawBody, Some(BodyRequired);
    }
    var buf := r.ReadAll();
    if buf == None {
      return None, rawBody, Some(ReadFailed);
    }
    r.body := buf.value;
    if |buf.value| == 0 {
      return None, rawBody, Some(BodyRequired);
    }
    rawBody := rawBody + buf.value;
    req, err := DecodeBuffer(lex(buf.value), itoa);
    AnsweredAccepted(lex(buf.value), req, err);
  }
}
