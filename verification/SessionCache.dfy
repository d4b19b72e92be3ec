/** The session cache of the auth service: its key, its locked sections, and what one fetch makes of the
    two answers of authd. */
module SessionCache {
  import opened Wrappers
  import opened Text

  datatype Credentials = Credentials(cookie: string, bearer: string)
  {
    predicate Empty() { cookie == "" && bearer == "" }
  }

  /** `get-session`, as far as it is read. */
  datatype Session = Session(userId: string, email: string, name: string, image: string, orgId: string)

  datatype SessionUser = SessionUser(
    id: string, email: string, firstName: string, lastName: string, picture: string, orgId: string, role: string)

  // ---------------------------------------------------------------- the key

  const NUL := '\0'

  /** What is hashed: the two headers joined by a NUL byte. */
  function Preimage(c: Credentials): string {
    c.cookie + [NUL] + c.bearer
  }

  function CacheKey(hash: string -> string, c: Credentials): string {
    hash(Preimage(c))
  }

  ghost predicate Injective(hash: string -> string) {
    forall x, y :: hash(x) == hash(y) ==> x == y
  }

  /** Without NUL in the cookies different credentials have different keys. */
  lemma KeysDiffer(hash: string -> string, c: Credentials, d: Credentials)
    requires Injective(hash) && NUL !in c.cookie && NUL !in d.cookie
    ensures CacheKey(hash, c) == CacheKey(hash, d) <==> c == d
  {
    if CacheKey(hash, c) == CacheKey(hash, d) {
      assert Preimage(c) == Preimage(d);
      CutAtFirst(c.cookie, NUL, c.bearer);
      CutAtFirst(d.cookie, NUL, d.bearer);
    }
  }

  /** Exactly the credentials without NUL in either header share their key with no others. */
  lemma KeyAlone(hash: string -> string, c: Credentials)
    requires Injective(hash)
    ensures (forall d :: CacheKey(hash, d) == CacheKey(hash, c) ==> d == c) <==> NUL !in c.cookie && NUL !in c.bearer
  {
    if NUL in c.cookie || NUL in c.bearer {
      var d := SharedPreimage(c);
      assert CacheKey(hash, d) == CacheKey(hash, c) && d != c;
    } else {
      forall d | CacheKey(hash, d) == CacheKey(hash, c) ensures d == c { NoOtherPreimage(c, d); }
    }
  }

  /** Another place to split at. */
  lemma SharedPreimage(c: Credentials) returns (d: Credentials)
    requires NUL in c.cookie || NUL in c.bearer
    ensures d != c && Preimage(d) == Preimage(c)
  {
    if NUL in c.cookie {
      var cut := CutAt(c.cookie, NUL);
      d := Credentials(cut.0, cut.1.value + [NUL] + c.bearer);
      assert |d.cookie| < |c.cookie|;
    } else {
      var cut := CutAt(c.bearer, NUL);
      d := Credentials(c.cookie + [NUL] + cut.0, cut.1.value);
      assert |d.cookie| > |c.cookie|;
    }
  }

  lemma NoOtherPreimage(c: Credentials, d: Credentials)
    requires NUL !in c.cookie && NUL !in c.bearer && Preimage(d) == Preimage(c)
    ensures d == c
  {
    CutAtFirst(c.cookie, NUL, c.bearer);
    if NUL in d.cookie { CutPreimage(d); } else { CutAtFirst(d.cookie, NUL, d.bearer); }
  }

  /** After a NUL in the cookie another one follows, the one that joins the headers. */
  lemma CutPreimage(d: Credentials)
    requires NUL in d.cookie
    ensures CutAt(Preimage(d), NUL).1.Some? && NUL in CutAt(Preimage(d), NUL).1.value
  {
    var (first, more) := (CutAt(d.cookie, NUL).0, CutAt(d.cookie, NUL).1.value);
    var after := more + [NUL] + d.bearer;
    assert Preimage(d) == first + [NUL] + after;
    CutAtFirst(first, NUL, after);
    assert after[|more|] == NUL;
  }

  /** With NUL in a cookie they need not. */
  lemma KeysCollide(hash: string -> string)
    ensures exists c, d :: c != d && CacheKey(hash, c) == CacheKey(hash, d)
  {
    var c, d := Credentials([NUL], ""), Credentials("", [NUL]);
    assert Preimage(c) == [NUL, NUL] == Preimage(d);
    assert c.cookie != d.cookie;
    assert c != d && CacheKey(hash, c) == CacheKey(hash, d);
  }

  // ---------------------------------------------------------------- one fetch

  function NormalizeRole(role: string): string {
    if role == "owner" then "admin" else role
  }

  function TrimLeft(s: string, space: char -> bool): string {
    if s != "" && space(s[0]) then TrimLeft(s[1..], space) else s
  }

  function TrimRight(s: string, space: char -> bool): string {
    if s != "" && space(s[|s| - 1]) then TrimRight(s[..|s| - 1], space) else s
  }

  /** `strings.TrimSpace` */
  function Trimmed(name: string, space: char -> bool): string {
    TrimRight(TrimLeft(name, space), space)
  }

  /** First and last name, split at the first space. */
  function SplitName(name: string, space: char -> bool): (string, string) {
    var cut := CutAt(Trimmed(name, space), ' ');
    (cut.0, if cut.1.Some? then cut.1.value else "")
  }

  /** The two names are the trimmed name cut at its first space. */
  lemma NamesJoin(name: string, space: char -> bool)
    ensures var (first, last) := SplitName(name, space);
      var trimmed := Trimmed(name, space);
      ' ' !in first && if ' ' in trimmed then trimmed == first + [' '] + last else trimmed == first && last == ""
  {
    var cut := CutAt(Trimmed(name, space), ' ');
    if cut.1.Some? {
      assert (cut.0 + [' '] + cut.1.value)[|cut.0|] == ' ';
    }
  }

  lemma {:induction false} TrimmedLeft(s: string, space: char -> bool) returns (front: string)
    ensures s == front + TrimLeft(s, space) && forall i :: 0 <= i < |front| ==> space(front[i])
    ensures TrimLeft(s, space) != "" ==> !space(TrimLeft(s, space)[0])
  {
    if s == "" || !space(s[0]) {
      front := "";
    } else {
      front := TrimmedLeft(s[1..], space);
      front := [s[0]] + front;
    }
  }

  lemma {:induction false} TrimmedRight(s: string, space: char -> bool) returns (end: string)
    ensures s == TrimRight(s, space) + end && forall i :: 0 <= i < |end| ==> space(end[i])
    ensures var t := TrimRight(s, space); t != "" ==> t[0] == s[0] && !space(t[|t| - 1])
  {
    if s == "" || !space(s[|s| - 1]) {
      end := "";
    } else {
      end := TrimmedRight(s[..|s| - 1], space);
      end := end + [s[|s| - 1]];
    }
  }

  /** What is cut off at both ends is white space, and what is left does not start or end with any. */
  lemma TrimmedIs(name: string, space: char -> bool) returns (front: string, end: string)
    ensures name == front + Trimmed(name, space) + end
    ensures (forall i :: 0 <= i < |front| ==> space(front[i])) && forall i :: 0 <= i < |end| ==> space(end[i])
    ensures var t := Trimmed(name, space); t != "" ==> !space(t[0]) && !space(t[|t| - 1])
  {
    front := TrimmedLeft(name, space);
    end := TrimmedRight(TrimLeft(name, space), space);
  }

  /** What `fetchUser` returns: `session` is the first answer, `role` the second; `None` is a failed call,
      and the second call is only made for a user with an active organization. */
  function UserOf(session: Option<Session>, role: Option<string>, space: char -> bool): Option<SessionUser> {
    if session.None? || session.value.userId == "" then None
    else
      var s := session.value;
      var (first, last) := SplitName(s.name, space);
      Some(SessionUser(s.userId, s.email, first, last, s.image, s.orgId,
        if s.orgId != "" && role.Some? then NormalizeRole(role.value) else ""))
  }

  /** What a user says of a session and of the answer about the role. */
  predicate UserFits(u: SessionUser, s: Session, role: Option<string>, space: char -> bool) {
    var trimmed := Trimmed(s.name, space);
    && u.id == s.userId && u.email == s.email && u.picture == s.image && u.orgId == s.orgId
    && ' ' !in u.firstName
    && (trimmed == u.firstName + " " + u.lastName || (trimmed == u.firstName && u.lastName == ""))
    && (u.role == "admin" <==> s.orgId != "" && role in [Some("admin"), Some("owner")])
    && (u.role != "admin" ==> u.role == if s.orgId != "" && role.Some? then role.value else "")
  }

  /** Somebody is signed in exactly if the session names a user, who then is what the session says: an owner
      counts as an administrator, and without an organization or an answer there is no role. */
  lemma UserMeaning(session: Option<Session>, role: Option<string>, space: char -> bool)
    ensures var user := UserOf(session, role, space);
      && (user.Some? <==> session.Some? && session.value.userId != "")
      && (user.Some? ==> UserFits(user.value, session.value, role, space))
  {
    if session.Some? && session.value.userId != "" {
      NamesJoin(session.value.name, space);
      assert [' '] == " ";
    }
  }

  // ---------------------------------------------------------------- the locked sections

  datatype CachedUser = CachedUser(user: Option<SessionUser>, exp: int)

  /** 60 s, in nanoseconds. */
  const TTL := 60_000_000_000

  const LIMIT := 4096

  type Cache = map<string, CachedUser>

  /** `Some(user)` for a hit; the user may still be none. */
  function Cached(cache: Cache, key: string, now: int): Option<Option<SessionUser>> {
    if key in cache && now < cache[key].exp then Some(cache[key].user) else None
  }

  function Stored(cache: Cache, key: string, user: Option<SessionUser>, now: int): Cache {
    (if |cache| > LIMIT then map[] else cache)[key := CachedUser(user, now + TTL)]
  }

  function Invalidated(cache: Cache, key: string): Cache {
    cache - {key}
  }

  /** An entry is used for a minute, and other entries stay unless there were more than 4096. */
  lemma StoredMeaning(cache: Cache, key: string, user: Option<SessionUser>, now: int, wait: nat, other: string)
    ensures Cached(Stored(cache, key, user, now), key, now + wait) == if wait < 60_000_000_000 then Some(user) else None
    ensures other != key && other in cache ==>
      (other in Stored(cache, key, user, now) <==> |cache| <= 4096) &&
      (|cache| <= 4096 ==> Stored(cache, key, user, now)[other] == cache[other])
  {
  }

  /** Only the entry that is invalidated goes. */
  lemma InvalidatedMeaning(cache: Cache, key: string, other: string, now: int)
    ensures Cached(Invalidated(cache, key), other, now) == if other == key then None else Cached(cache, other, now)
  {
  }

  /** `Service`, with what a request does while it holds the lock. */
  class Service {
    const hash: string -> string
    var cache: Cache

    constructor (hash: string -> string)
      ensures this.hash == hash && cache == map[]
    {
      this.hash := hash;
      cache := map[];
    }

    /** The cached view, unless the request asks to skip it. */
    method Lookup(creds: Credentials, noCache: bool, now: int) returns (hit: Option<Option<SessionUser>>)
      ensures hit == if noCache then None else Cached(cache, CacheKey(hash, creds), now)
    {
      var key := CacheKey(hash, creds);
      if !noCache {
        if key in cache && now < cache[key].exp {
          return Some(cache[key].user);
        }
      }
      return None;
    }

    /** Stores a fetched user, after dropping everything once the map has grown past its limit. */
    method Store(creds: Credentials, user: Option<SessionUser>, now: int)
      requires |cache| <= LIMIT + 1
      modifies this
      ensures cache == Stored(old(cache), CacheKey(hash, creds), user, now)
      ensures |cache| <= LIMIT + 1
    {
      if |cache| > LIMIT {
        cache := map[];
      }
      cache := cache[CacheKey(hash, creds) := CachedUser(user, now + TTL)];
    }

    /** One request that nothing interrupts: `fetched` is what `fetchUser` returns if it is called, `later`
        the time by then. */
    method ResolveUser(creds: Credentials, noCache: bool, now: int, fetched: Option<SessionUser>, later: int)
      returns (user: Option<SessionUser>)
      requires |cache| <= LIMIT + 1
      modifies this
      ensures |cache| <= LIMIT + 1
      ensures creds.Empty() ==> user == None && cache == old(cache)
      ensures !creds.Empty() ==>
        var key := CacheKey(hash, creds);
        var hit := if noCache then None else Cached(old(cache), key, now);
        if hit.Some? then user == hit.value && cache == old(cache)
        else
          && user == fetched && cache == Stored(old(cache), key, fetched, later)
          && Cached(cache, key, later) == Some(fetched)
    {
      if creds.Empty() {
        return None;
      }
      var hit := Lookup(creds, noCache, now);
      if hit.Some? {
        return hit.value;
      }
      user := fetched;
      Store(creds, user, later);
    }

    method Invalidate(creds: Credentials)
      requires |cache| <= LIMIT + 1
      modifies this
      ensures cache == Invalidated(old(cache), CacheKey(hash, creds))
      ensures |cache| <= LIMIT + 1
    {
      cache := cache - {CacheKey(hash, creds)};
    }
  }
}
