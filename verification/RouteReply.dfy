/** What the router answers for an endpoint, a method and a URL, said over the flat table. */
module RouteReply {
  import opened Wrappers
  import opened RouteTrie
  import opened RouteTable

  /** The part of a `url.URL` that routing looks at. */
  datatype URL = URL(path: string, rawPath: string)

  /** `args` are still percent-encoded when `escaped` is set. */
  datatype Reply =
    | NotFound
    | Handle(op: Operation, args: seq<string>, escaped: bool)
    | NotAllowed(allowedMethods: string, allowedHeaders: map<string, string>, acceptPost: string)

  function OperationFor(ops: List<(string, Operation)>, verb: string): Option<Operation> {
    match ops
    case Nil => None
    case Cons((v, op), others) => if v == verb then Some(op) else OperationFor(others, verb)
  }

  /** The methods of an endpoint, as the `Allow` header lists them. */
  function AllowList(ops: List<(string, Operation)>): string {
    match ops
    case Nil => ""
    case Cons((v, _), Nil) => v
    case Cons((v, _), others) => v + "," + AllowList(others)
  }

  function Respond(e: Endpoint, args: seq<string>, verb: string, escaped: bool): Reply {
    match OperationFor(e.ops, verb)
    case Some(op) => Handle(op, args, escaped)
    case None => NotAllowed(AllowList(e.ops), e.allowedHeaders, e.acceptPost)
  }

  /** The path that is searched: the normalised raw path if there is one, else the decoded path. */
  function SearchedPath(normalize: string -> Option<string>, u: URL): string {
    if u.rawPath != "" && normalize(u.rawPath).Some? then normalize(u.rawPath).value else u.path
  }

  function SearchedIsEscaped(normalize: string -> Option<string>, u: URL): bool {
    u.rawPath != "" && normalize(u.rawPath).Some? && '%' in normalize(u.rawPath).value
  }

  function CutPrefix(prefix: string, path: string): Option<string> {
    if prefix == "" then Some(path)
    else if prefix <= path then Some(path[|prefix|..]) else None
  }

  /** The reply that the flat table prescribes. */
  function Prescribed(prefix: string, path: string, escaped: bool, verb: string): Reply {
    match CutPrefix(prefix, path)
    case None => NotFound
    case Some(elem) =>
      match FirstMatch(TABLE, elem)
      case None => NotFound
      case Some((e, args)) => Respond(e, args, verb, escaped)
  }

  /** What `FindPath` returns for a found route. */
  datatype Found = Found(op: Operation, pathPattern: string, args: seq<string>)

  function Lookup(e: Endpoint, args: seq<string>, verb: string): Option<Found> {
    match OperationFor(e.ops, verb)
    case Some(op) => Some(Found(op, e.pathPattern, args))
    case None => None
  }

  function UnescapeOr(unescape: string -> Option<string>, arg: string): string {
    match unescape(arg)
    case Some(s) => s
    case None => arg
  }

  function Unescaped(unescape: string -> Option<string>, args: seq<string>): seq<string> {
    seq(|args|, i requires 0 <= i < |args| => UnescapeOr(unescape, args[i]))
  }

  /** The route that the flat table prescribes, with its arguments unescaped if there was a raw path. */
  function FoundPath(prefix: string, normalize: string -> Option<string>, unescape: string -> Option<string>,
                     verb: string, u: URL): Option<Found>
  {
    match CutPrefix(prefix, SearchedPath(normalize, u))
    case None => None
    case Some(elem) =>
      match FirstMatch(TABLE, elem)
      case None => None
      case Some((e, args)) => Lookup(e, if u.rawPath == "" then args else Unescaped(unescape, args), verb)
  }

  lemma RespondOne(e: Endpoint, args: seq<string>, verb: string, escaped: bool)
    requires e.ops.Cons? && e.ops.tail.Nil?
    ensures Respond(e, args, verb, escaped) ==
      if verb == e.ops.head.0 then Handle(e.ops.head.1, args, escaped)
      else NotAllowed(e.ops.head.0, e.allowedHeaders, e.acceptPost)
  {
    assert OperationFor(e.ops.tail, verb) == None;
  }

  lemma RespondTwo(e: Endpoint, args: seq<string>, verb: string, escaped: bool)
    requires e.ops.Cons? && e.ops.tail.Cons? && e.ops.tail.tail.Nil?
    ensures var first, second := e.ops.head, e.ops.tail.head;
      Respond(e, args, verb, escaped) ==
        if verb == first.0 then Handle(first.1, args, escaped)
        else if verb == second.0 then Handle(second.1, args, escaped)
        else NotAllowed(first.0 + "," + second.0, e.allowedHeaders, e.acceptPost)
  {
    var second := e.ops.tail.head;
    assert e.ops.tail == Cons(second, Nil);
    assert OperationFor(e.ops.tail, verb) == if verb == second.0 then Some(second.1) else None;
    assert AllowList(e.ops.tail) == second.0;
  }

  lemma AllowTexts()
    ensures "GET" + "," + "POST" == "GET,POST"
    ensures "DELETE" + "," + "PUT" == "DELETE,PUT"
    ensures "GET" + "," + "PUT" == "GET,PUT"
  {
  }

  lemma LookupOne(e: Endpoint, args: seq<string>, verb: string)
    requires e.ops.Cons? && e.ops.tail.Nil?
    ensures Lookup(e, args, verb) ==
      if verb == e.ops.head.0 then Some(Found(e.ops.head.1, e.pathPattern, args)) else None
  {
    assert OperationFor(e.ops.tail, verb) == None;
  }

  lemma LookupTwo(e: Endpoint, args: seq<string>, verb: string)
    requires e.ops.Cons? && e.ops.tail.Cons? && e.ops.tail.tail.Nil?
    ensures var first, second := e.ops.head, e.ops.tail.head;
      Lookup(e, args, verb) ==
        if verb == first.0 then Some(Found(first.1, e.pathPattern, args))
        else if verb == second.0 then Some(Found(second.1, e.pathPattern, args))
        else None
  {
    var second := e.ops.tail.head;
    assert e.ops.tail == Cons(second, Nil);
    assert OperationFor(e.ops.tail, verb) == if verb == second.0 then Some(second.1) else None;
  }
}
