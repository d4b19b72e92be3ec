/** The keep-alive loop of the fake APIs' proxy: requests are read off one connection, every response is
    framed by its length, and the two streams stay aligned. */
module Framing {
  import opened Wrappers
  import opened Digits
  import opened Text

  // ---------------------------------------------------------------- lines

  const CRLF := "\r\n"

  /** The text before the first line end, and the text after it. */
  function ReadLine(s: string): (r: Option<(string, string)>)
    ensures r.Some? ==> |r.value.1| + |r.value.0| + 2 == |s|
  {
    if |s| < 2 then None
    else if s[0] == '\r' && s[1] == '\n' then Some(("", s[2..]))
    else match ReadLine(s[1..])
      case None => None
      case Some((line, rest)) => Some(([s[0]] + line, rest))
  }

  /** The lines up to the first empty one, and the text after it. */
  function ReadLines(s: string): (r: Option<(seq<string>, string)>)
    ensures r.Some? ==> |r.value.1| < |s|
    decreases |s|
  {
    match ReadLine(s)
    case None => None
    case Some((line, rest)) =>
      if line == "" then Some(([], rest))
      else match ReadLines(rest)
        case None => None
        case Some((more, after)) => Some(([line] + more, after))
  }

  function WriteLines(lines: seq<string>): string {
    if lines == [] then CRLF else lines[0] + CRLF + WriteLines(lines[1..])
  }

  /** A line that a reader of lines gets back: not empty, and without carriage return. */
  predicate IsLine(line: string) {
    line != "" && '\r' !in line
  }

  predicate AreLines(lines: seq<string>) {
    forall i :: 0 <= i < |lines| ==> IsLine(lines[i])
  }

  lemma {:induction false} LineReads(line: string, rest: string)
    requires '\r' !in line
    ensures ReadLine(line + CRLF + rest) == Some((line, rest))
  {
    var s := line + CRLF + rest;
    if line == "" {
      assert s[0] == '\r' && s[1] == '\n' && s[2..] == rest;
    } else {
      assert s[0] == line[0] && s[1..] == line[1..] + CRLF + rest;
      LineReads(line[1..], rest);
      assert line == [line[0]] + line[1..];
    }
  }

  lemma {:induction false} LinesRead(lines: seq<string>, rest: string)
    requires AreLines(lines)
    ensures ReadLines(WriteLines(lines) + rest) == Some((lines, rest))
  {
    if lines == [] {
      assert CRLF + rest == "" + CRLF + rest;
      LineReads("", rest);
    } else {
      var more := WriteLines(lines[1..]);
      assert WriteLines(lines) + rest == lines[0] + CRLF + (more + rest);
      assert IsLine(lines[0]);
      LineReads(lines[0], more + rest);
      LinesRead(lines[1..], rest);
      assert lines == [lines[0]] + lines[1..];
    }
  }

  // ---------------------------------------------------------------- requests

  /** How the end of a request's body is found (section 6.3 of RFC 9112): a length, or a chunked coding,
      which shows its own end. */
  datatype Extent = Length(n: nat) | Chunked

  /** What the loop and the framing need to know of a request's head. */
  datatype Head = Head(verb: string, extent: Extent, close: bool)

  /** The body is as it is on the wire. */
  datatype Request = Request(head: Head, body: string)

  /** What a handler does: how much of the body it reads, and what it records as the response. */
  datatype Answer = Answer(read: nat, status: string, headers: seq<(string, string)>, body: string)

  datatype Exchange = Exchange(request: Request, answer: Answer)

  /** The environment: how a head is understood (`None` if it cannot be), how far a chunked body at the front
      of the input extends, what the handlers answer to the n-th request, and which status lines exclude a
      body. */
  datatype Peer = Peer(parse: seq<string> -> Option<Head>, chunked: string -> nat,
                       handle: (nat, Request) -> Answer, bodyless: string -> bool)

  function Min(a: nat, b: nat): nat { if a <= b then a else b }

  /** `http.ReadRequest`: the head, and the input after it. */
  function ReadHead(p: Peer, input: string): (r: Option<(Head, string)>)
    ensures r.Some? ==> |r.value.1| < |input|
  {
    match ReadLines(input)
    case None => None
    case Some((lines, rest)) =>
      match p.parse(lines)
      case None => None
      case Some(head) => Some((head, rest))
  }

  /** How much of the input after a head is the body: at most what there is. */
  function BodyLength(p: Peer, head: Head, rest: string): (n: nat)
    ensures n <= |rest|
  {
    match head.extent
    case Length(n) => Min(n, |rest|)
    case Chunked => Min(p.chunked(rest), |rest|)
  }

  /** The requests on the input and their answers: each body extends as its head says, or over what there is,
      and the next request starts right after it, however much the handler read. */
  function Exchanges(p: Peer, input: string, i: nat): seq<Exchange>
    decreases |input|
  {
    match ReadHead(p, input)
    case None => []
    case Some((head, rest)) =>
      var n := BodyLength(p, head, rest);
      var request := Request(head, rest[..n]);
      [Exchange(request, p.handle(i, request))] + if head.close then [] else Exchanges(p, rest[n..], i + 1)
  }

  // ---------------------------------------------------------------- responses

  /** Line ends in a header value are replaced by spaces, and nothing else is. */
  function OneLine(value: string): (r: string)
    ensures |r| == |value|
    ensures '\r' !in r && '\n' !in r
    ensures forall i :: 0 <= i < |value| ==>
      r[i] == if value[i] == '\r' || value[i] == '\n' then ' ' else value[i]
  {
    if value == "" then ""
    else [if value[0] == '\r' || value[0] == '\n' then ' ' else value[0]] + OneLine(value[1..])
  }

  predicate ValidName(name: string) {
    name != "" && ':' !in name && '\r' !in name && '\n' !in name
  }

  const LENGTH := "Content-Length"

  /** The headers that are written as recorded: valid ones, and not those that frame the message. */
  predicate Written(h: (string, string)) {
    ValidName(h.0) && h.0 != LENGTH && h.0 != "Transfer-Encoding" && h.0 != "Trailer"
  }

  function HeaderLines(headers: seq<(string, string)>): seq<string> {
    if headers == [] then []
    else (if Written(headers[0]) then [headers[0].0 + ": " + OneLine(headers[0].1)] else []) + HeaderLines(headers[1..])
  }

  /** A length of zero is left out where the status excludes a body anyway, except in answer to a POST, a PUT
      or a PATCH. */
  predicate LengthWritten(p: Peer, x: Exchange) {
    |x.answer.body| > 0 || !p.bodyless(x.answer.status) || x.request.head.verb in ["POST", "PUT", "PATCH"]
  }

  /** The head of a response. */
  function ResponseLines(p: Peer, x: Exchange): seq<string> {
    [x.answer.status] +
    (if LengthWritten(p, x) then [LENGTH + ": " + Itoa(|x.answer.body|)] else []) +
    HeaderLines(x.answer.headers)
  }

  /** `resp.Write`: nothing but the head answers a HEAD request. */
  function ResponseText(p: Peer, x: Exchange): string {
    WriteLines(ResponseLines(p, x)) + if x.request.head.verb == "HEAD" then "" else x.answer.body
  }

  function Output(p: Peer, xs: seq<Exchange>): string {
    if xs == [] then "" else ResponseText(p, xs[0]) + Output(p, xs[1..])
  }

  // ---------------------------------------------------------------- the loop

  /** Both directions of a connection. */
  class Conn {
    var input: string
    var output: string

    constructor (input: string)
      ensures this.input == input && output == ""
    {
      this.input := input;
      output := "";
    }

    /** Reads up to `k` bytes. */
    method Read(k: nat) returns (data: string)
      modifies this`input
      ensures data == old(input)[..Min(k, |old(input)|)] && input == old(input)[Min(k, |old(input)|)..]
    {
      var n := Min(k, |input|);
      data, input := input[..n], input[n..];
    }
  }

  /** `io.Copy(io.Discard, req.Body)`: reads what is left of the body, a buffer at a time. */
  method Drain(conn: Conn, remaining0: nat)
    modifies conn`input
    ensures conn.input == old(conn.input)[Min(remaining0, |old(conn.input)|)..]
  {
    var remaining: nat := remaining0;
    while remaining > 0 && conn.input != ""
      invariant remaining <= remaining0
      invariant Min(remaining0, |old(conn.input)|) - Min(remaining, |conn.input|) == |old(conn.input)| - |conn.input|
      invariant |conn.input| <= |old(conn.input)| && conn.input == old(conn.input)[|old(conn.input)| - |conn.input|..]
      decreases remaining
    {
      var data := conn.Read(Min(remaining, 32768));
      remaining := remaining - |data|;
    }
  }

  method WriteResponse(conn: Conn, p: Peer, x: Exchange)
    requires |x.answer.body| < 0x8000_0000_0000_0000
    modifies conn`output
    ensures conn.output == old(conn.output) + ResponseText(p, x)
  {
    var length := ItoaInBuffer(|x.answer.body|);
    var lines := [x.answer.status];
    if LengthWritten(p, x) {
      lines := lines + [LENGTH + ": " + length];
    }
    lines := lines + HeaderLines(x.answer.headers);
    assert lines == ResponseLines(p, x);
    conn.output := conn.output + (WriteLines(lines) + if x.request.head.verb == "HEAD" then "" else x.answer.body);
  }

  /** What the output becomes in one turn of the loop. */
  lemma OneTurn(p: Peer, input: string, i: nat, output: string)
    requires ReadHead(p, input).Some?
    ensures var (head, rest) := ReadHead(p, input).value;
      var n := BodyLength(p, head, rest);
      var request := Request(head, rest[..n]);
      var written := output + ResponseText(p, Exchange(request, p.handle(i, request)));
      output + Output(p, Exchanges(p, input, i)) ==
        if head.close then written else written + Output(p, Exchanges(p, rest[n..], i + 1))
  {
    var (head, rest) := ReadHead(p, input).value;
    var n := BodyLength(p, head, rest);
    var request := Request(head, rest[..n]);
    var x := Exchange(request, p.handle(i, request));
    var later := if head.close then [] else Exchanges(p, rest[n..], i + 1);
    assert ([x] + later)[1..] == later;
    ConcatAssoc(output, ResponseText(p, x), Output(p, later));
    ConcatNil(output + ResponseText(p, x));
  }

  /** However much of the body the handler saw, draining the others leaves what follows the body. */
  lemma Drained(rest: string, n: nat, seen: nat)
    requires seen <= n <= |rest|
    ensures rest[seen..][Min(n - seen, |rest| - seen)..] == rest[n..]
  {
  }

  /** `serveConn` */
  method ServeConn(conn: Conn, p: Peer)
    requires forall i, r :: |p.handle(i, r).body| < 0x8000_0000_0000_0000
    modifies conn
    ensures conn.output == old(conn.output) + Output(p, Exchanges(p, old(conn.input), 0))
  {
    var i := 0;
    while true
      invariant old(conn.output) + Output(p, Exchanges(p, old(conn.input), 0)) ==
        conn.output + Output(p, Exchanges(p, conn.input, i))
      decreases |conn.input|
    {
      ghost var input, output := conn.input, conn.output;
      var read := ReadHead(p, conn.input);
      if read == None {
        ConcatNil(conn.output);
        return;
      }
      var head, rest := read.value.0, read.value.1;
      conn.input := rest;
      var n := BodyLength(p, head, rest);
      var request := Request(head, rest[..n]);
      var answer := p.handle(i, request);
      var seen := conn.Read(Min(answer.read, n));
      Drain(conn, n - |seen|);
      Drained(rest, n, |seen|);
      var x := Exchange(request, answer);
      WriteResponse(conn, p, x);
      OneTurn(p, input, i, output);
      if head.close {
        return;
      }
      i := i + 1;
    }
  }

  // ---------------------------------------------------------------- the reader on the other side

  /** The value of the length line, if some line is one. */
  function FindLength(lines: seq<string>): Option<nat> {
    if lines == [] then None
    else if LENGTH + ": " <= lines[0] then Atoi(lines[0][|LENGTH| + 2..])
    else FindLength(lines[1..])
  }

  datatype Received = Received(lines: seq<string>, body: string)

  /** One response to a request with this method, and the input after it. */
  function ReadResponse(p: Peer, verb: string, s: string): Option<(Received, string)> {
    match ReadLines(s)
    case None => None
    case Some((lines, rest)) =>
      if lines == [] then None
      else if verb == "HEAD" || p.bodyless(lines[0]) then Some((Received(lines, ""), rest))
      else match FindLength(lines[1..])
        case None => None
        case Some(n) => if n <= |rest| then Some((Received(lines, rest[..n]), rest[n..])) else None
  }

  /** One response for each request, and nothing more. */
  function ReadResponses(p: Peer, methods: seq<string>, s: string): Option<seq<Received>> {
    if methods == [] then if s == "" then Some([]) else None
    else match ReadResponse(p, methods[0], s)
      case None => None
      case Some((r, rest)) =>
        match ReadResponses(p, methods[1..], rest)
        case None => None
        case Some(more) => Some([r] + more)
  }

  lemma {:induction false} HeaderLinesAreLines(headers: seq<(string, string)>)
    ensures AreLines(HeaderLines(headers))
    ensures forall k :: 0 <= k < |HeaderLines(headers)| ==> !(LENGTH + ": " <= HeaderLines(headers)[k])
  {
    if headers == [] {
    } else {
      HeaderLinesAreLines(headers[1..]);
      if Written(headers[0]) {
        var line := headers[0].0 + ": " + OneLine(headers[0].1);
        assert IsLine(line);
        OtherName(headers[0].0, OneLine(headers[0].1));
      }
    }
  }

  /** A response has a length line exactly if there is a body to announce, or if its status or the request's
      method would otherwise leave the reader without one. */
  lemma LengthKept(p: Peer, x: Exchange)
    ensures (exists i :: 0 < i < |ResponseLines(p, x)| && "Content-Length: " <= ResponseLines(p, x)[i]) <==>
      || x.answer.body != "" || !p.bodyless(x.answer.status)
      || x.request.head.verb == "POST" || x.request.head.verb == "PUT" || x.request.head.verb == "PATCH"
  {
    var lines, kept := ResponseLines(p, x), HeaderLines(x.answer.headers);
    HeaderLinesAreLines(x.answer.headers);
    assert LENGTH + ": " == "Content-Length: ";
    if LengthWritten(p, x) {
      assert "Content-Length: " <= lines[1];
    } else {
      assert forall i :: 0 < i < |lines| ==> lines[i] == kept[i - 1];
    }
  }

  /** Every recorded header goes out as one line, unless its name is none or one of the three that frame the
      message. */
  lemma {:induction false} HeaderKept(headers: seq<(string, string)>, k: nat) returns (at: nat)
    requires k < |headers| && headers[k].0 != "" && forall c :: c in headers[k].0 ==> c !in ":\r\n"
    requires headers[k].0 !in ["Content-Length", "Transfer-Encoding", "Trailer"]
    ensures at <= k && at < |HeaderLines(headers)|
    ensures HeaderLines(headers)[at] == headers[k].0 + ": " + OneLine(headers[k].1)
    ensures |HeaderLines(headers)| <= |headers|
  {
    HeaderLinesFew(headers[1..]);
    if k == 0 {
      at := 0;
    } else {
      at := HeaderKept(headers[1..], k - 1);
      if Written(headers[0]) { at := at + 1; }
    }
  }

  /** And nothing else goes out: every line is that of a recorded header with such a name. */
  lemma {:induction false} LineRecorded(headers: seq<(string, string)>, at: nat) returns (k: nat)
    requires at < |HeaderLines(headers)|
    ensures at <= k < |headers|
    ensures headers[k].0 != "" && forall c :: c in headers[k].0 ==> c !in ":\r\n"
    ensures headers[k].0 !in ["Content-Length", "Transfer-Encoding", "Trailer"]
    ensures HeaderLines(headers)[at] == headers[k].0 + ": " + OneLine(headers[k].1)
  {
    if !Written(headers[0]) {
      k := LineRecorded(headers[1..], at);
      k := k + 1;
    } else if at == 0 {
      k := 0;
    } else {
      k := LineRecorded(headers[1..], at - 1);
      k := k + 1;
    }
  }

  lemma HeaderLinesFew(headers: seq<(string, string)>)
    ensures |HeaderLines(headers)| <= |headers|
  {
  }

  /** A line that starts like the length line has its name. */
  lemma OtherName(name: string, value: string)
    requires ':' !in name && name != LENGTH
    ensures !(LENGTH + ": " <= name + ": " + value)
  {
    var line := name + ": " + value;
    if LENGTH + ": " <= line {
      var after := line[16..];
      assert line == LENGTH + [':'] + (" " + after);
      assert line == name + [':'] + (" " + value);
      CutAtFirst(LENGTH, ':', " " + after);
      CutAtFirst(name, ':', " " + value);
      assert false;
    }
  }

  lemma LengthName()
    ensures '\r' !in LENGTH + ": " && |LENGTH + ": "| == |LENGTH| + 2
  {
  }

  lemma LengthLine(n: nat)
    ensures var line := LENGTH + ": " + Itoa(n);
      IsLine(line) && LENGTH + ": " <= line && Atoi(line[|LENGTH| + 2..]) == Some(n)
  {
    ItoaReads(n);
    var name, digits := LENGTH + ": ", Itoa(n);
    LengthName();
    assert (name + digits)[|name|..] == digits;
  }

  lemma {:induction false} NoLengthLine(lines: seq<string>)
    requires forall k :: 0 <= k < |lines| ==> !(LENGTH + ": " <= lines[k])
    ensures FindLength(lines) == None
  {
    if lines == [] {
    } else {
      NoLengthLine(lines[1..]);
    }
  }

  lemma ResponseLinesAreLines(p: Peer, x: Exchange)
    requires IsLine(x.answer.status)
    ensures AreLines(ResponseLines(p, x)) && ResponseLines(p, x)[0] == x.answer.status
    ensures !p.bodyless(x.answer.status) ==> FindLength(ResponseLines(p, x)[1..]) == Some(|x.answer.body|)
  {
    var a := x.answer;
    HeaderLinesAreLines(a.headers);
    LengthLine(|a.body|);
    if !p.bodyless(a.status) {
      assert ResponseLines(p, x)[1..] == [LENGTH + ": " + Itoa(|a.body|)] + HeaderLines(a.headers);
    }
  }

  /** What a reader should see of an exchange. */
  function Seen(p: Peer, x: Exchange): Received {
    Received(ResponseLines(p, x), if x.request.head.verb == "HEAD" then "" else x.answer.body)
  }

  /** The handler recorded a body where the status excludes one. */
  predicate BodyUnderBodyless(p: Peer, x: Exchange) {
    p.bodyless(x.answer.status) && x.request.head.verb != "HEAD" && x.answer.body != ""
  }

  /** Where the status excludes the body, the response is taken to end before it: what the reader goes on
      with is that body, and then the rest. */
  lemma Misread(p: Peer, x: Exchange, rest: string)
    requires IsLine(x.answer.status) && BodyUnderBodyless(p, x)
    ensures ReadResponse(p, x.request.head.verb, ResponseText(p, x) + rest) ==
      Some((Received(ResponseLines(p, x), ""), x.answer.body + rest))
  {
    ResponseLinesAreLines(p, x);
    var lines := ResponseLines(p, x);
    var after := x.answer.body + rest;
    assert ResponseText(p, x) + rest == WriteLines(lines) + after;
    LinesRead(lines, after);
  }

  lemma TakenApart(body: string, rest: string)
    ensures |body| <= |body + rest| && (body + rest)[..|body|] == body && (body + rest)[|body|..] == rest
  {
  }

  /** Otherwise it reads back, and what the reader goes on with is the rest. */
  lemma ProperReads(p: Peer, x: Exchange, rest: string)
    requires IsLine(x.answer.status) && !BodyUnderBodyless(p, x)
    ensures ReadResponse(p, x.request.head.verb, ResponseText(p, x) + rest) == Some((Seen(p, x), rest))
  {
    ResponseLinesAreLines(p, x);
    var lines, body := ResponseLines(p, x), if x.request.head.verb == "HEAD" then "" else x.answer.body;
    ConcatAssoc(WriteLines(lines), body, rest);
    LinesRead(lines, body + rest);
    TakenApart(body, rest);
    if body == "" { NilConcat(rest); }
  }

  /** A response reads back, and the input goes on right after it, exactly if the handler did not record a
      body where the status excludes one (nothing at all of it is written to a HEAD request). */
  lemma ResponseReadsBack(p: Peer, x: Exchange, rest: string)
    requires IsLine(x.answer.status)
    ensures ReadResponse(p, x.request.head.verb, ResponseText(p, x) + rest) == Some((Seen(p, x), rest)) <==>
      !BodyUnderBodyless(p, x)
  {
    if BodyUnderBodyless(p, x) {
      Misread(p, x, rest);
    } else {
      ProperReads(p, x, rest);
    }
  }

  predicate AllProper(p: Peer, xs: seq<Exchange>) {
    forall k :: 0 <= k < |xs| ==> !BodyUnderBodyless(p, xs[k])
  }

  predicate StatusLines(xs: seq<Exchange>) {
    forall k :: 0 <= k < |xs| ==> IsLine(xs[k].answer.status)
  }

  function Methods(xs: seq<Exchange>): seq<string> {
    if xs == [] then [] else [xs[0].request.head.verb] + Methods(xs[1..])
  }

  function AllSeen(p: Peer, xs: seq<Exchange>): seq<Received> {
    if xs == [] then [] else [Seen(p, xs[0])] + AllSeen(p, xs[1..])
  }

  /** Reading several responses is reading the first and then the others. */
  lemma ReadFirst(p: Peer, verb: string, methods: seq<string>, s: string)
    ensures var first := ReadResponse(p, verb, s);
      ReadResponses(p, [verb] + methods, s) ==
        if first.None? then None else Prepended(first.value.0, ReadResponses(p, methods, first.value.1))
  {
    assert ([verb] + methods)[1..] == methods;
  }

  function Prepended<T>(first: T, others: Option<seq<T>>): Option<seq<T>> {
    match others case None => None case Some(more) => Some([first] + more)
  }

  lemma PrependedSame<T>(first: T, others: Option<seq<T>>, more: seq<T>)
    ensures Prepended(first, others) == Some([first] + more) <==> others == Some(more)
  {
    assert ([first] + more)[1..] == more;
    if others.Some? { assert ([first] + others.value)[1..] == others.value; }
  }

  lemma AllProperFirst(p: Peer, xs: seq<Exchange>)
    requires xs != []
    ensures AllProper(p, xs) <==> !BodyUnderBodyless(p, xs[0]) && AllProper(p, xs[1..])
  {
    assert xs == [xs[0]] + xs[1..];
  }

  /** The first response and the others read back independently. */
  lemma FirstReadsBack(p: Peer, x: Exchange, methods: seq<string>, text: string, seen: seq<Received>)
    requires IsLine(x.answer.status)
    ensures
      ReadResponses(p, [x.request.head.verb] + methods, ResponseText(p, x) + text) == Some([Seen(p, x)] + seen) <==>
      !BodyUnderBodyless(p, x) && ReadResponses(p, methods, text) == Some(seen)
  {
    ReadFirst(p, x.request.head.verb, methods, ResponseText(p, x) + text);
    if BodyUnderBodyless(p, x) {
      Misread(p, x, text);
      var misread := Received(ResponseLines(p, x), "");
      OtherFirst(misread, ReadResponses(p, methods, x.answer.body + text), Seen(p, x), seen);
    } else {
      ResponseReadsBack(p, x, text);
      PrependedSame(Seen(p, x), ReadResponses(p, methods, text), seen);
    }
  }

  lemma OtherFirst<T>(first: T, others: Option<seq<T>>, first': T, more: seq<T>)
    requires first != first'
    ensures Prepended(first, others) != Some([first'] + more)
  {
    if others.Some? { assert ([first] + others.value)[0] != ([first'] + more)[0]; }
  }

  /** A sequence of responses reads back as it should exactly if none of them has a body where its status
      excludes one. */
  lemma {:induction false} OutputReadsBack(p: Peer, xs: seq<Exchange>)
    requires StatusLines(xs)
    ensures ReadResponses(p, Methods(xs), Output(p, xs)) == Some(AllSeen(p, xs)) <==> AllProper(p, xs)
  {
    if xs == [] {
    } else {
      OutputReadsBack(p, xs[1..]);
      FirstReadsBack(p, xs[0], Methods(xs[1..]), Output(p, xs[1..]), AllSeen(p, xs[1..]));
      AllProperFirst(p, xs);
    }
  }

  /** What the loop writes reads back as one response for each request it processed, in order, with their
      bodies, exactly if no handler recorded a body where the status excludes one. */
  lemma OneResponseEach(p: Peer, input: string)
    requires StatusLines(Exchanges(p, input, 0))
    ensures var xs := Exchanges(p, input, 0);
      ReadResponses(p, Methods(xs), Output(p, xs)) == Some(AllSeen(p, xs)) <==> AllProper(p, xs)
  {
    OutputReadsBack(p, Exchanges(p, input, 0));
  }

  const NO_CONTENT := "HTTP/1.1 204 No Content"

  /** An answer to a GET that breaks the framing: a body recorded under 204. */
  const MISFRAMED := Exchange(Request(Head("GET", Length(0), false), ""), Answer(0, NO_CONTENT, [], "x"))

  lemma OneByte()
    ensures LENGTH + ": " + Itoa(1) == "Content-Length: 1"
  {
    assert Itoa(1) == "1";
  }

  lemma NoContentIsLine()
    ensures IsLine(NO_CONTENT)
  {
  }

  lemma Misframed(p: Peer)
    requires p.bodyless(NO_CONTENT)
    ensures IsLine(MISFRAMED.answer.status) && BodyUnderBodyless(p, MISFRAMED)
    ensures ResponseLines(p, MISFRAMED) == [NO_CONTENT, "Content-Length: 1"]
  {
    NoContentIsLine();
    OneByte();
  }

  lemma MisframedFirst(p: Peer, x: Exchange, later: seq<Exchange>)
    requires IsLine(x.answer.status) && BodyUnderBodyless(p, x) && StatusLines(later)
    ensures var xs := [x] + later;
      && ReadResponses(p, Methods(xs), Output(p, xs)) != Some(AllSeen(p, xs))
      && ReadResponse(p, x.request.head.verb, Output(p, xs)) ==
           Some((Received(ResponseLines(p, x), ""), x.answer.body + Output(p, later)))
  {
    var xs := [x] + later;
    assert xs[0] == x && xs[1..] == later;
    OutputReadsBack(p, xs);
    Misread(p, x, Output(p, later));
  }

  /** The reader then takes the response to have no body, and what follows starts with the body. */
  lemma BodyUnderNoContent(p: Peer, later: seq<Exchange>)
    requires p.bodyless(NO_CONTENT) && StatusLines(later)
    ensures var xs := [MISFRAMED] + later;
      && ReadResponses(p, Methods(xs), Output(p, xs)) != Some(AllSeen(p, xs))
      && ReadResponse(p, "GET", Output(p, xs)) ==
           Some((Received([NO_CONTENT, "Content-Length: 1"], ""), "x" + Output(p, later)))
  {
    Misframed(p);
    MisframedFirst(p, MISFRAMED, later);
  }

  // ---------------------------------------------------------------- alignment

  /** A request as it is sent. */
  datatype Message = Message(lines: seq<string>, body: string)

  /** It is well formed, and its body ends where its head, or its own coding, says, whatever follows. */
  ghost predicate Announced(p: Peer, m: Message) {
    && AreLines(m.lines) && p.parse(m.lines).Some?
    && match p.parse(m.lines).value.extent
       case Length(n) => n == |m.body|
       case Chunked => forall after :: p.chunked(m.body + after) == |m.body|
  }

  function Stream(ms: seq<Message>): string {
    if ms == [] then "" else WriteLines(ms[0].lines) + ms[0].body + Stream(ms[1..])
  }

  /** The exchanges that a sequence of messages should lead to: all of them, up to the first that closes. */
  ghost function Expected(p: Peer, ms: seq<Message>, i: nat): seq<Exchange>
    requires forall k :: 0 <= k < |ms| ==> Announced(p, ms[k])
  {
    if ms == [] then []
    else
      assert Announced(p, ms[0]);
      var head := p.parse(ms[0].lines).value;
      var request := Request(head, ms[0].body);
      [Exchange(request, p.handle(i, request))] + if head.close then [] else Expected(p, ms[1..], i + 1)
  }

  /** Whatever the handlers read of the bodies, every message sent is seen as it was sent. */
  lemma {:induction false} Aligned(p: Peer, ms: seq<Message>, i: nat)
    requires forall k :: 0 <= k < |ms| ==> Announced(p, ms[k])
    ensures Exchanges(p, Stream(ms), i) == Expected(p, ms, i)
    decreases |ms|
  {
    if ms == [] {
      assert ReadLine("") == None;
    } else {
      assert Announced(p, ms[0]);
      var after := ms[0].body + Stream(ms[1..]);
      assert Stream(ms) == WriteLines(ms[0].lines) + after;
      LinesRead(ms[0].lines, after);
      var head := p.parse(ms[0].lines).value;
      assert BodyLength(p, head, after) == |ms[0].body|;
      assert after[..|ms[0].body|] == ms[0].body && after[|ms[0].body|..] == Stream(ms[1..]);
      Aligned(p, ms[1..], i + 1);
    }
  }
}
