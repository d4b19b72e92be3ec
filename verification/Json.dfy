/** JSON at the level of tokens (sections 4 and 5 of RFC 8259), with a reader and a writer that keep a
    cursor and a buffer. */
module Json {
  import opened Wrappers

  /** `Bad` stands for input that does not lex. */
  datatype Token =
    | ObjStart | ObjEnd | ArrStart | ArrEnd
    | Key(name: string) | Str(s: string) | Bool(b: bool) | Num(text: string) | Null | Bad

  datatype Value =
    | VStr(s: string) | VBool(b: bool) | VNum(text: string) | VNull
    | VArr(elems: Elems) | VObj(fields: Fields)

  datatype Elems = NoElem | Elem(value: Value, more: Elems)

  datatype Fields = NoField | Field(key: string, value: Value, more: Fields)

  function Tokens(v: Value): seq<Token> {
    match v
    case VStr(s) => [Str(s)]
    case VBool(b) => [Bool(b)]
    case VNum(text) => [Num(text)]
    case VNull => [Null]
    case VArr(elems) => [ArrStart] + ElemTokens(elems) + [ArrEnd]
    case VObj(fields) => [ObjStart] + FieldTokens(fields) + [ObjEnd]
  }

  function ElemTokens(es: Elems): seq<Token> {
    match es
    case NoElem => []
    case Elem(v, more) => Tokens(v) + ElemTokens(more)
  }

  function FieldTokens(fs: Fields): seq<Token> {
    match fs
    case NoField => []
    case Field(k, v, more) => [Key(k)] + Tokens(v) + FieldTokens(more)
  }

  /** One value from the front of the input, and the input after it. */
  function ParseValue(ts: seq<Token>): (r: Option<(Value, seq<Token>)>)
    ensures r.Some? ==> |r.value.1| < |ts|
    decreases |ts|, 0
  {
    if ts == [] then None
    else match ts[0]
      case Str(s) => Some((VStr(s), ts[1..]))
      case Bool(b) => Some((VBool(b), ts[1..]))
      case Num(text) => Some((VNum(text), ts[1..]))
      case Null => Some((VNull, ts[1..]))
      case ArrStart =>
        (match ParseElems(ts[1..])
         case Some((es, rest)) => Some((VArr(es), rest))
         case None => None)
      case ObjStart =>
        (match ParseFields(ts[1..])
         case Some((fs, rest)) => Some((VObj(fs), rest))
         case None => None)
      case _ => None
  }

  /** The rest of an array after its opening bracket. */
  function ParseElems(ts: seq<Token>): (r: Option<(Elems, seq<Token>)>)
    ensures r.Some? ==> |r.value.1| < |ts|
    decreases |ts|, 1
  {
    if ts == [] then None
    else if ts[0] == ArrEnd then Some((NoElem, ts[1..]))
    else match ParseValue(ts)
      case None => None
      case Some((v, rest)) =>
        match ParseElems(rest)
        case None => None
        case Some((es, rest')) => Some((Elem(v, es), rest'))
  }

  /** The rest of an object after its opening brace. */
  function ParseFields(ts: seq<Token>): (r: Option<(Fields, seq<Token>)>)
    ensures r.Some? ==> |r.value.1| < |ts|
    decreases |ts|, 1
  {
    if ts == [] then None
    else match ts[0]
      case ObjEnd => Some((NoField, ts[1..]))
      case Key(k) =>
        (match ParseValue(ts[1..])
         case None => None
         case Some((v, rest)) =>
           match ParseFields(rest)
           case None => None
           case Some((fs, rest')) => Some((Field(k, v, fs), rest')))
      case _ => None
  }

  // ---------------------------------------------------------------- writing and parsing are inverse

  /** What follows an opening bracket. */
  lemma Opened(open: Token, inner: seq<Token>, close: Token, rest: seq<Token>)
    ensures var ts := [open] + inner + [close] + rest; ts[0] == open && ts[1..] == inner + [close] + rest
  {
  }

  /** What follows a key. */
  lemma Keyed(k: string, v: seq<Token>, more: seq<Token>, rest: seq<Token>)
    ensures var ts := [Key(k)] + v + more + [ObjEnd] + rest;
      ts[0] == Key(k) && ts[1..] == v + (more + [ObjEnd] + rest)
  {
  }

  lemma {:induction false} ParseTokens(v: Value, rest: seq<Token>)
    ensures ParseValue(Tokens(v) + rest) == Some((v, rest))
    decreases v
  {
    var ts := Tokens(v) + rest;
    match v
    case VArr(elems) =>
      ParseElemTokens(elems, rest);
      Opened(ArrStart, ElemTokens(elems), ArrEnd, rest);
    case VObj(fields) =>
      ParseFieldTokens(fields, rest);
      Opened(ObjStart, FieldTokens(fields), ObjEnd, rest);
    case _ =>
      assert ts[1..] == rest;
  }

  lemma {:induction false} ParseElemTokens(es: Elems, rest: seq<Token>)
    ensures ParseElems(ElemTokens(es) + [ArrEnd] + rest) == Some((es, rest))
    decreases es
  {
    var ts := ElemTokens(es) + [ArrEnd] + rest;
    match es
    case NoElem =>
      assert ts[1..] == rest;
    case Elem(v, more) =>
      var after := ElemTokens(more) + [ArrEnd] + rest;
      assert ts == Tokens(v) + after;
      ParseTokens(v, after);
      ParseElemTokens(more, rest);
  }

  lemma {:induction false} ParseFieldTokens(fs: Fields, rest: seq<Token>)
    ensures ParseFields(FieldTokens(fs) + [ObjEnd] + rest) == Some((fs, rest))
    decreases fs
  {
    var ts := FieldTokens(fs) + [ObjEnd] + rest;
    match fs
    case NoField =>
      assert ts[1..] == rest;
    case Field(k, v, more) =>
      var after := FieldTokens(more) + [ObjEnd] + rest;
      Keyed(k, Tokens(v), FieldTokens(more), rest);
      ParseTokens(v, after);
      ParseFieldTokens(more, rest);
  }

  /** Whatever parses is the writing of what it parses to. */
  lemma {:induction false} ParsedTokens(ts: seq<Token>)
    ensures ParseValue(ts).Some? ==> ts == Tokens(ParseValue(ts).value.0) + ParseValue(ts).value.1
    decreases |ts|, 0
  {
    if ParseValue(ts).Some? {
      assert ts == [ts[0]] + ts[1..];
      if ts[0] == ArrStart {
        ParsedElemTokens(ts[1..]);
      } else if ts[0] == ObjStart {
        ParsedFieldTokens(ts[1..]);
      }
    }
  }

  lemma {:induction false} ParsedElemTokens(ts: seq<Token>)
    ensures ParseElems(ts).Some? ==>
      ts == ElemTokens(ParseElems(ts).value.0) + [ArrEnd] + ParseElems(ts).value.1
    decreases |ts|, 1
  {
    if ParseElems(ts).None? {
    } else {
      if ts[0] != ArrEnd {
        ParsedTokens(ts);
        ParsedElemTokens(ParseValue(ts).value.1);
      }
    }
  }

  lemma {:induction false} ParsedFieldTokens(ts: seq<Token>)
    ensures ParseFields(ts).Some? ==>
      ts == FieldTokens(ParseFields(ts).value.0) + [ObjEnd] + ParseFields(ts).value.1
    decreases |ts|, 1
  {
    if ParseFields(ts).None? {
    } else {
      if ts[0].Key? {
        var (v, rest) := ParseValue(ts[1..]).value;
        ParsedTokens(ts[1..]);
        ParsedFieldTokens(rest);
        var (fs, end) := ParseFields(rest).value;
        FieldAssoc(ts, Tokens(v), FieldTokens(fs), end);
      } else {
        assert ts == [ObjEnd] + ts[1..] && [] + [ObjEnd] == [ObjEnd];
      }
    }
  }

  lemma FieldAssoc(ts: seq<Token>, v: seq<Token>, fs: seq<Token>, end: seq<Token>)
    requires ts != [] && ts[1..] == v + (fs + [ObjEnd] + end)
    ensures ts == [ts[0]] + v + fs + [ObjEnd] + end
  {
    assert ts == [ts[0]] + ts[1..];
  }

  // ---------------------------------------------------------------- the reader

  /** What is left of an array or object is the same parse, seen later. */
  ghost predicate SameEnd<T, U>(a: Option<(T, seq<Token>)>, b: Option<(U, seq<Token>)>) {
    (a.Some? <==> b.Some?) && (a.Some? ==> a.value.1 == b.value.1)
  }

  /** `jx.Decoder`: `rest` is the input from the cursor on. */
  class Decoder {
    var rest: seq<Token>

    constructor (tokens: seq<Token>)
      ensures rest == tokens
    {
      rest := tokens;
    }

    method Next() returns (t: Option<Token>)
      modifies this
      ensures old(rest) == [] ==> t == None && rest == []
      ensures old(rest) != [] ==> t == Some(old(rest)[0]) && rest == old(rest)[1..]
    {
      if rest == [] {
        return None;
      }
      t := Some(rest[0]);
      rest := rest[1..];
    }

    /** Reads a string value. */
    method ReadStr() returns (s: Option<string>)
      modifies this
      ensures s == StrOf(ParseValue(old(rest)))
      ensures s.Some? ==> rest == ParseValue(old(rest)).value.1
    {
      var t := Next();
      s := match t case Some(Str(x)) => Some(x) case _ => None;
    }

    /** Skips one value of any shape and depth; `eof` is `io.EOF`, which is only returned if there was
        nothing to skip. */
    method Skip() returns (ok: bool, eof: bool)
      modifies this
      ensures ok <==> ParseValue(old(rest)).Some?
      ensures eof <==> old(rest) == []
      ensures ok ==> rest == ParseValue(old(rest)).value.1
      ensures |rest| <= |old(rest)|
      decreases |rest|
    {
      ghost var start := rest;
      var t := Next();
      if t == None {
        return false, true;
      }
      eof := false;
      match t.value {
        case Str(_) => ok := true;
        case Bool(_) => ok := true;
        case Num(_) => ok := true;
        case Null => ok := true;
        case ArrStart =>
          while rest != [] && rest[0] != ArrEnd
            invariant |rest| < |start|
            invariant SameEnd(ParseElems(start[1..]), ParseElems(rest))
            decreases |rest|
          {
            var ended;
            ok, ended := Skip();
            if !ok {
              return;
            }
          }
          var end := Next();
          ok := end == Some(ArrEnd);
        case ObjStart =>
          while rest != [] && rest[0].Key?
            invariant |rest| < |start|
            invariant SameEnd(ParseFields(start[1..]), ParseFields(rest))
            decreases |rest|
          {
            var key := Next();
            var ended;
            ok, ended := Skip();
            if !ok {
              return;
            }
          }
          var end := Next();
          ok := end == Some(ObjEnd);
        case _ => ok := false;
      }
    }
  }

  function StrOf(p: Option<(Value, seq<Token>)>): Option<string> {
    if p.Some? && p.value.0.VStr? then Some(p.value.0.s) else None
  }

  // ---------------------------------------------------------------- the writer

  /** `jx.Encoder`: appends to its buffer. */
  class Encoder {
    var buf: seq<Token>

    constructor ()
      ensures buf == []
    {
      buf := [];
    }

    method Write(t: Token)
      modifies this
      ensures buf == old(buf) + [t]
    {
      buf := buf + [t];
    }
  }
}
