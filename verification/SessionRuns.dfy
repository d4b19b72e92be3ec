/** Requests, fetches, stores and invalidations interleaved in any order with changes in authd and the
    passing of time: whose session is served, how old it is, and how much is kept. */
module SessionRuns {
  import opened Wrappers
  import opened SessionCache

  /** What authd would answer: the session of some credentials, and the role of their active member, which
      may be refused. */
  datatype Authd = Authd(session: Credentials -> Session, role: Credentials -> Option<string>)

  /** One `fetchUser`. It begins at a time and at a version of authd, and each answer is that of a version. */
  datatype Fetch = Fetch(creds: Credentials, begin: nat, beginVersion: nat,
    session: Option<Session>, sessionVersion: nat, role: Option<string>, roleVersion: nat, stored: nat)

  datatype Phase =
    | Arrived               // before the lookup, if there is one
    | Missed                // the cached view was not used
    | CallingSession(fetch: Fetch)
    | CallingRole(fetch: Fetch)
    | Storing(fetch: Fetch)

  datatype Request = Request(creds: Credentials, noCache: bool, arrived: nat, arrivedVersion: nat, phase: Phase)

  /** A user handed to a request; `source` is the number of the fetch that it comes from. */
  datatype Served = Served(request: Request, user: Option<SessionUser>, at: nat, source: Option<nat>)

  /** The setting: the hash of the key, and what counts as white space in names. */
  datatype Setting = Setting(hash: string -> string, space: char -> bool)
  {
    function Key(c: Credentials): string { CacheKey(hash, c) }
    function User(f: Fetch): Option<SessionUser> { UserOf(f.session, f.role, space) }
  }

  /** `authd` holds all its versions, the last one current. `fetches`, `origin` and `served` only record
      what happened: the stored fetches, which of them each cache entry is from, and what was served. */
  datatype State = State(now: nat, authd: seq<Authd>, cache: Cache, requests: map<nat, Request>,
    fetches: seq<Fetch>, origin: map<string, nat>, served: seq<Served>)

  datatype Step =
    | Tick(delay: nat)
    | AuthdChanges(authd: Authd)
    | Arrive(id: nat, creds: Credentials, noCache: bool)
    | Lookup(id: nat)
    | Begin(id: nat)
    | SessionAnswers(id: nat, reachable: bool)
    | RoleAnswers(id: nat, reachable: bool)
    | Store(id: nat)
    | Invalidate(creds: Credentials)

  function Initial(authd: Authd): State {
    State(0, [authd], map[], map[], [], map[], [])
  }

  // ---------------------------------------------------------------- the steps

  /** A header value holds no NUL: such a request never reaches the service. */
  predicate Transmissible(c: Credentials) {
    NUL !in c.cookie && NUL !in c.bearer
  }

  function ApplyArrive(s: State, id: nat, creds: Credentials, noCache: bool): State
    requires |s.authd| > 0
  {
    if id in s.requests || !Transmissible(creds) then s
    else
      var r := Request(creds, noCache, s.now, |s.authd| - 1, Arrived);
      if creds.Empty() then s.(served := s.served + [Served(r, None, s.now, None)])
      else s.(requests := s.requests[id := r])
  }

  /** A hit serves the request; every entry has an origin, so that the second test never fails in a run. */
  function ApplyLookup(e: Setting, s: State, id: nat): State {
    if id !in s.requests || s.requests[id].phase != Arrived then s
    else
      var r := s.requests[id];
      var key := e.Key(r.creds);
      var hit := if r.noCache then None else Cached(s.cache, key, s.now);
      if hit.Some? && key in s.origin then
        s.(requests := s.requests - {id}, served := s.served + [Served(r, hit.value, s.now, Some(s.origin[key]))])
      else s.(requests := s.requests[id := r.(phase := Missed)])
  }

  function ApplyBegin(s: State, id: nat): State
    requires |s.authd| > 0
  {
    if id !in s.requests || s.requests[id].phase != Missed then s
    else
      var r, v := s.requests[id], |s.authd| - 1;
      s.(requests := s.requests[id := r.(phase := CallingSession(Fetch(r.creds, s.now, v, None, v, None, v, s.now)))])
  }

  function ApplySession(e: Setting, s: State, id: nat, reachable: bool): State
    requires |s.authd| > 0
  {
    if id !in s.requests || !s.requests[id].phase.CallingSession? then s
    else
      var r, v := s.requests[id], |s.authd| - 1;
      var answer := if reachable then Some(s.authd[v].session(r.creds)) else None;
      var f := r.phase.fetch.(session := answer, sessionVersion := v, role := None, roleVersion := v);
      var again := answer.Some? && answer.value.userId != "" && answer.value.orgId != "";
      s.(requests := s.requests[id := r.(phase := if again then CallingRole(f) else Storing(f))])
  }

  function ApplyRole(s: State, id: nat, reachable: bool): State
    requires |s.authd| > 0
  {
    if id !in s.requests || !s.requests[id].phase.CallingRole? then s
    else
      var r, v := s.requests[id], |s.authd| - 1;
      var f := r.phase.fetch.(role := if reachable then s.authd[v].role(r.creds) else None, roleVersion := v);
      s.(requests := s.requests[id := r.(phase := Storing(f))])
  }

  /** The fetch is recorded, and its entry stored. */
  function Recorded(e: Setting, s: State, f: Fetch): State {
    var key, n := e.Key(f.creds), |s.fetches|;
    s.(cache := Stored(s.cache, key, e.User(f), s.now),
       origin := (if |s.cache| > LIMIT then map[] else s.origin)[key := n],
       fetches := s.fetches + [f])
  }

  function ApplyStore(e: Setting, s: State, id: nat): State {
    if id !in s.requests || !s.requests[id].phase.Storing? then s
    else
      var r := s.requests[id];
      var f := r.phase.fetch.(stored := s.now);
      var v := Served(r, e.User(f), s.now, Some(|s.fetches|));
      Recorded(e, s, f).(requests := s.requests - {id}, served := s.served + [v])
  }

  function ApplyInvalidate(e: Setting, s: State, creds: Credentials): State {
    s.(cache := Invalidated(s.cache, e.Key(creds)), origin := s.origin - {e.Key(creds)})
  }

  function Apply(e: Setting, s: State, step: Step): (r: State)
    requires |s.authd| > 0
    ensures |r.authd| > 0
  {
    match step
    case Tick(delay) => s.(now := s.now + delay)
    case AuthdChanges(authd) => s.(authd := s.authd + [authd])
    case Arrive(id, creds, noCache) => ApplyArrive(s, id, creds, noCache)
    case Lookup(id) => ApplyLookup(e, s, id)
    case Begin(id) => ApplyBegin(s, id)
    case SessionAnswers(id, reachable) => ApplySession(e, s, id, reachable)
    case RoleAnswers(id, reachable) => ApplyRole(s, id, reachable)
    case Store(id) => ApplyStore(e, s, id)
    case Invalidate(creds) => ApplyInvalidate(e, s, creds)
  }

  function Run(e: Setting, s: State, steps: seq<Step>): (r: State)
    requires |s.authd| > 0
    ensures |r.authd| > 0
    decreases |steps|
  {
    if steps == [] then s
    else
      var s' := Apply(e, s, steps[0]);
      Run(e, s', steps[1..])
  }

  // ---------------------------------------------------------------- the invariant

  /** The two answers are those that versions of authd between the beginning and now give to the very
      credentials of the fetch. */
  predicate FetchOk(authd: seq<Authd>, now: nat, f: Fetch) {
    && f.begin <= now
    && f.beginVersion <= f.sessionVersion <= f.roleVersion < |authd|
    && (f.session.Some? ==> f.session.value == authd[f.sessionVersion].session(f.creds))
    && (f.role.Some? ==> f.role == authd[f.roleVersion].role(f.creds))
  }

  predicate RequestOk(authd: seq<Authd>, now: nat, r: Request) {
    && Transmissible(r.creds) && !r.creds.Empty() && r.arrived <= now && r.arrivedVersion < |authd|
    && (!r.phase.Arrived? && !r.phase.Missed? ==>
          var f := r.phase.fetch;
          FetchOk(authd, now, f) && f.creds == r.creds && r.arrived <= f.begin && r.arrivedVersion <= f.beginVersion)
    && (r.phase.CallingSession? ==> r.phase.fetch.session == None)
  }

  predicate StoredOk(authd: seq<Authd>, now: nat, f: Fetch) {
    FetchOk(authd, now, f) && Transmissible(f.creds) && f.begin <= f.stored <= now
  }

  /** The entry is what one of the fetches for these credentials stored. */
  predicate EntryOk(e: Setting, fetches: seq<Fetch>, origin: map<string, nat>, key: string, entry: CachedUser) {
    && key in origin && origin[key] < |fetches|
    && var f := fetches[origin[key]];
       key == e.Key(f.creds) && entry == CachedUser(e.User(f), f.stored + TTL)
  }

  /** What every serving satisfies. The user is what a fetch for the same credentials made of authd's
      answers; that fetch began less than the time to live, plus its own duration, before; and a request
      that asks not to use the cache is served by a fetch that began after the request arrived. */
  predicate ServedOk(e: Setting, fetches: seq<Fetch>, v: Served) {
    match v.source
    case None => v.request.creds.Empty() && v.user == None
    case Some(n) =>
      && n < |fetches|
      && var f := fetches[n];
         && f.creds == v.request.creds && v.user == e.User(f)
         && f.stored <= v.at && v.at - f.begin < TTL + (f.stored - f.begin)
         && (v.request.noCache ==> v.request.arrived <= f.begin && v.request.arrivedVersion <= f.beginVersion)
  }

  predicate RequestsOk(authd: seq<Authd>, now: nat, requests: map<nat, Request>) {
    forall id :: id in requests ==> RequestOk(authd, now, requests[id])
  }

  predicate FetchesOk(authd: seq<Authd>, now: nat, fetches: seq<Fetch>) {
    forall n :: 0 <= n < |fetches| ==> StoredOk(authd, now, fetches[n])
  }

  predicate CacheOk(e: Setting, fetches: seq<Fetch>, origin: map<string, nat>, cache: Cache) {
    forall key :: key in cache ==> EntryOk(e, fetches, origin, key, cache[key])
  }

  predicate AllServedOk(e: Setting, fetches: seq<Fetch>, served: seq<Served>) {
    forall k :: 0 <= k < |served| ==> ServedOk(e, fetches, served[k])
  }

  predicate Inv(e: Setting, s: State) {
    && |s.authd| > 0 && |s.cache| <= LIMIT + 1
    && RequestsOk(s.authd, s.now, s.requests)
    && FetchesOk(s.authd, s.now, s.fetches)
    && CacheOk(e, s.fetches, s.origin, s.cache)
    && AllServedOk(e, s.fetches, s.served)
  }

  // ---------------------------------------------------------------- every step keeps it

  /** Time and new versions of authd do not undo anything. */
  lemma LaterInv(e: Setting, s: State, now: nat, authd: seq<Authd>)
    requires Inv(e, s) && s.now <= now && s.authd <= authd
    ensures Inv(e, s.(now := now, authd := authd))
  {
    forall id | id in s.requests ensures RequestOk(authd, now, s.requests[id]) {
      var r := s.requests[id];
      assert RequestOk(s.authd, s.now, r);
    }
    forall n | 0 <= n < |s.fetches| ensures StoredOk(authd, now, s.fetches[n]) {
      assert StoredOk(s.authd, s.now, s.fetches[n]);
    }
  }

  /** One more or one changed request. */
  lemma RequestInv(e: Setting, s: State, id: nat, r: Request)
    requires Inv(e, s) && RequestOk(s.authd, s.now, r)
    ensures Inv(e, s.(requests := s.requests[id := r]))
  {
  }

  /** One more user served. */
  lemma ServedInv(e: Setting, s: State, v: Served)
    requires Inv(e, s) && ServedOk(e, s.fetches, v)
    ensures Inv(e, s.(served := s.served + [v]))
  {
  }

  /** One request less, and one user served. */
  lemma ServeInv(e: Setting, s: State, id: nat, v: Served)
    requires Inv(e, s) && ServedOk(e, s.fetches, v)
    ensures Inv(e, s.(requests := s.requests - {id}, served := s.served + [v]))
  {
    ServedInv(e, s, v);
  }

  /** A hit comes from a fetch for the same credentials that was stored less than the time to live ago. */
  lemma HitOk(e: Setting, s: State, r: Request)
    requires Injective(e.hash) && Inv(e, s) && RequestOk(s.authd, s.now, r) && !r.noCache
    requires Cached(s.cache, e.Key(r.creds), s.now).Some?
    ensures e.Key(r.creds) in s.origin
    ensures var n := s.origin[e.Key(r.creds)];
      ServedOk(e, s.fetches, Served(r, Cached(s.cache, e.Key(r.creds), s.now).value, s.now, Some(n)))
  {
    var key := e.Key(r.creds);
    assert EntryOk(e, s.fetches, s.origin, key, s.cache[key]);
    var f := s.fetches[s.origin[key]];
    assert StoredOk(s.authd, s.now, f);
    KeysDiffer(e.hash, r.creds, f.creds);
  }

  lemma LookupInv(e: Setting, s: State, id: nat)
    requires Injective(e.hash) && Inv(e, s)
    ensures Inv(e, Apply(e, s, Lookup(id)))
  {
    if id in s.requests && s.requests[id].phase == Arrived {
      var r := s.requests[id];
      if !r.noCache && Cached(s.cache, e.Key(r.creds), s.now).Some? {
        HitOk(e, s, r);
        var n := s.origin[e.Key(r.creds)];
        ServeInv(e, s, id, Served(r, Cached(s.cache, e.Key(r.creds), s.now).value, s.now, Some(n)));
      } else {
        RequestInv(e, s, id, r.(phase := Missed));
      }
    }
  }

  lemma TickInv(e: Setting, s: State, delay: nat)
    requires Inv(e, s)
    ensures Inv(e, Apply(e, s, Tick(delay)))
  {
    LaterInv(e, s, s.now + delay, s.authd);
  }

  lemma AuthdInv(e: Setting, s: State, authd: Authd)
    requires Inv(e, s)
    ensures Inv(e, Apply(e, s, AuthdChanges(authd)))
  {
    LaterInv(e, s, s.now, s.authd + [authd]);
  }

  lemma ArriveInv(e: Setting, s: State, id: nat, creds: Credentials, noCache: bool)
    requires Inv(e, s)
    ensures Inv(e, Apply(e, s, Arrive(id, creds, noCache)))
  {
    var r := Request(creds, noCache, s.now, |s.authd| - 1, Arrived);
    if id !in s.requests && Transmissible(creds) {
      if creds.Empty() {
        ServedInv(e, s, Served(r, None, s.now, None));
      } else {
        RequestInv(e, s, id, r);
      }
    }
  }

  /** The two calls of a fetch: its beginning and the two answers. */
  lemma BeginInv(e: Setting, s: State, id: nat)
    requires Inv(e, s)
    ensures Inv(e, Apply(e, s, Begin(id)))
  {
    if id in s.requests && s.requests[id].phase == Missed {
      assert RequestOk(s.authd, s.now, s.requests[id]);
      RequestInv(e, s, id, ApplyBegin(s, id).requests[id]);
    }
  }

  lemma SessionInv(e: Setting, s: State, id: nat, reachable: bool)
    requires Inv(e, s)
    ensures Inv(e, Apply(e, s, SessionAnswers(id, reachable)))
  {
    if id in s.requests && s.requests[id].phase.CallingSession? {
      assert RequestOk(s.authd, s.now, s.requests[id]);
      RequestInv(e, s, id, ApplySession(e, s, id, reachable).requests[id]);
    }
  }

  lemma RoleInv(e: Setting, s: State, id: nat, reachable: bool)
    requires Inv(e, s)
    ensures Inv(e, Apply(e, s, RoleAnswers(id, reachable)))
  {
    if id in s.requests && s.requests[id].phase.CallingRole? {
      assert RequestOk(s.authd, s.now, s.requests[id]);
      RequestInv(e, s, id, ApplyRole(s, id, reachable).requests[id]);
    }
  }

  /** One more fetch changes nothing for what the others are the source of. */
  lemma OneMoreFetch(e: Setting, s: State, f: Fetch)
    requires Inv(e, s) && StoredOk(s.authd, s.now, f)
    ensures Inv(e, s.(fetches := s.fetches + [f]))
  {
    var fetches := s.fetches + [f];
    forall key | key in s.cache ensures EntryOk(e, fetches, s.origin, key, s.cache[key]) {
      assert EntryOk(e, s.fetches, s.origin, key, s.cache[key]);
    }
    forall k | 0 <= k < |s.served| ensures ServedOk(e, fetches, s.served[k]) {
      assert ServedOk(e, s.fetches, s.served[k]);
    }
  }

  /** The entry of a fetch is stored. */
  lemma EntryInv(e: Setting, s: State, n: nat)
    requires Inv(e, s) && n < |s.fetches| && s.fetches[n].stored == s.now
    ensures var f := s.fetches[n];
      Inv(e, s.(cache := Stored(s.cache, e.Key(f.creds), e.User(f), s.now),
                origin := (if |s.cache| > LIMIT then map[] else s.origin)[e.Key(f.creds) := n]))
  {
    var f := s.fetches[n];
    var key := e.Key(f.creds);
    var cache := Stored(s.cache, key, e.User(f), s.now);
    var origin := (if |s.cache| > LIMIT then map[] else s.origin)[key := n];
    forall k | k in cache ensures EntryOk(e, s.fetches, origin, k, cache[k]) {
      if k != key { assert EntryOk(e, s.fetches, s.origin, k, s.cache[k]); }
    }
  }

  lemma RecordInv(e: Setting, s: State, f: Fetch)
    requires Inv(e, s) && StoredOk(s.authd, s.now, f) && f.stored == s.now
    ensures Inv(e, Recorded(e, s, f))
  {
    OneMoreFetch(e, s, f);
    EntryInv(e, s.(fetches := s.fetches + [f]), |s.fetches|);
  }

  lemma FetchStores(authd: seq<Authd>, now: nat, r: Request)
    requires RequestOk(authd, now, r) && r.phase.Storing?
    ensures StoredOk(authd, now, r.phase.fetch.(stored := now)) && r.phase.fetch.creds == r.creds
  {
  }

  /** A request may be served by the fetch that it made itself. */
  lemma OwnFetchServes(e: Setting, authd: seq<Authd>, r: Request, now: nat, fetches: seq<Fetch>, n: nat)
    requires RequestOk(authd, now, r) && r.phase.Storing?
    requires n < |fetches| && fetches[n] == r.phase.fetch.(stored := now)
    ensures ServedOk(e, fetches, Served(r, e.User(fetches[n]), now, Some(n)))
  {
  }

  lemma StoreInv(e: Setting, s: State, id: nat)
    requires Inv(e, s)
    ensures Inv(e, Apply(e, s, Store(id)))
  {
    if id in s.requests && s.requests[id].phase.Storing? {
      var r := s.requests[id];
      FetchStores(s.authd, s.now, r);
      var f := r.phase.fetch.(stored := s.now);
      RecordInv(e, s, f);
      var s1, n := Recorded(e, s, f), |s.fetches|;
      OwnFetchServes(e, s.authd, r, s.now, s1.fetches, n);
      ServeInv(e, s1, id, Served(r, e.User(f), s.now, Some(n)));
    }
  }

  lemma InvalidatedSmaller(cache: Cache, key: string)
    ensures |Invalidated(cache, key)| <= |cache|
  {
    assert Invalidated(cache, key).Keys == cache.Keys - {key};
  }

  lemma InvalidateInv(e: Setting, s: State, creds: Credentials)
    requires Inv(e, s)
    ensures Inv(e, Apply(e, s, Invalidate(creds)))
  {
    var key := e.Key(creds);
    var cache, origin := Invalidated(s.cache, key), s.origin - {key};
    InvalidatedSmaller(s.cache, key);
    forall k | k in cache ensures EntryOk(e, s.fetches, origin, k, cache[k]) {
      assert EntryOk(e, s.fetches, s.origin, k, s.cache[k]);
    }
    assert CacheOk(e, s.fetches, origin, cache);
  }

  lemma StepInv(e: Setting, s: State, step: Step)
    requires Injective(e.hash) && Inv(e, s)
    ensures Inv(e, Apply(e, s, step))
  {
    match step
    case Tick(delay) => TickInv(e, s, delay);
    case AuthdChanges(authd) => AuthdInv(e, s, authd);
    case Arrive(id, creds, noCache) => ArriveInv(e, s, id, creds, noCache);
    case Lookup(id) => LookupInv(e, s, id);
    case Begin(id) => BeginInv(e, s, id);
    case SessionAnswers(id, reachable) => SessionInv(e, s, id, reachable);
    case RoleAnswers(id, reachable) => RoleInv(e, s, id, reachable);
    case Store(id) => StoreInv(e, s, id);
    case Invalidate(creds) => InvalidateInv(e, s, creds);
  }

  lemma {:induction false} RunInv(e: Setting, s: State, steps: seq<Step>)
    requires Injective(e.hash) && Inv(e, s)
    ensures Inv(e, Run(e, s, steps))
    decreases |steps|
  {
    if steps == [] {
    } else {
      StepInv(e, s, steps[0]);
      RunInv(e, Apply(e, s, steps[0]), steps[1..]);
    }
  }

  /** What is said of a serving in the end, `s` being the state of the service then. Nobody is served without
      credentials. Otherwise the user was fetched with the same credentials: the session is one that authd gave
      for them, whoever is served as an administrator was one, or an owner, when authd was asked, and the fetch
      began less than a minute plus its own duration before. */
  predicate ServedMeaning(e: Setting, s: State, v: Served) {
    match v.source
    case None => v.request.creds.cookie == "" && v.request.creds.bearer == "" && v.user == None
    case Some(n) =>
      && n < |s.fetches|
      && var f, c := s.fetches[n], v.request.creds;
         && f.creds == c && f.stored <= v.at && v.at - f.begin < 60_000_000_000 + (f.stored - f.begin)
         && (v.request.noCache ==> v.request.arrived <= f.begin && v.request.arrivedVersion <= f.beginVersion)
         && f.beginVersion <= f.sessionVersion <= f.roleVersion < |s.authd|
         && (v.user.Some? ==>
               && UserFits(v.user.value, s.authd[f.sessionVersion].session(c), f.role, e.space)
               && v.user.value.id != ""
               && (v.user.value.role == "admin" ==>
                     s.authd[f.roleVersion].role(c) in [Some("admin"), Some("owner")]))
  }

  lemma ServedIsMeant(e: Setting, s: State, v: Served)
    requires ServedOk(e, s.fetches, v) && FetchesOk(s.authd, s.now, s.fetches)
    ensures ServedMeaning(e, s, v)
  {
    if v.source.Some? {
      var f := s.fetches[v.source.value];
      assert StoredOk(s.authd, s.now, f);
      UserMeaning(f.session, f.role, e.space);
    }
  }

  /** In every run every serving is within bounds and comes from a fetch that really took place, and the
      cache stays small. */
  lemma EveryRun(e: Setting, authd: Authd, steps: seq<Step>)
    requires Injective(e.hash)
    ensures var s := Run(e, Initial(authd), steps);
      && |s.cache| <= 4097
      && (forall k :: 0 <= k < |s.served| ==> ServedOk(e, s.fetches, s.served[k]) && ServedMeaning(e, s, s.served[k]))
      && (forall n :: 0 <= n < |s.fetches| ==> StoredOk(s.authd, s.now, s.fetches[n]))
  {
    RunInv(e, Initial(authd), steps);
    var s := Run(e, Initial(authd), steps);
    forall k | 0 <= k < |s.served| ensures ServedMeaning(e, s, s.served[k]) { ServedIsMeant(e, s, s.served[k]); }
  }

  // ---------------------------------------------------------------- after an invalidation

  predicate Fetching(r: Request) {
    !r.phase.Arrived? && !r.phase.Missed?
  }

  /** A moment: a time and a version of authd. */
  datatype Moment = Moment(time: nat, version: nat)

  function Now(s: State): Moment
    requires |s.authd| > 0
  {
    Moment(s.now, |s.authd| - 1)
  }

  /** A fetch can be judged by when it began, or by the version of authd that its session comes from. */
  datatype View = ByBeginning | BySession

  /** The fetch began at this moment or later; or else, it holds no session from before it. */
  predicate Since(view: View, f: Fetch, m: Moment) {
    match view
    case ByBeginning => m.time <= f.begin && m.version <= f.beginVersion
    case BySession => f.session.Some? ==> m.version <= f.sessionVersion
  }

  /** An older fetch for these credentials has not been stored yet. */
  predicate OldInFlight(view: View, s: State, c: Credentials)
    requires |s.authd| > 0
  {
    exists id :: id in s.requests && s.requests[id].creds == c && Fetching(s.requests[id]) &&
      !Since(view, s.requests[id].phase.fetch, Now(s))
  }

  predicate RequestsSince(view: View, requests: map<nat, Request>, c: Credentials, m: Moment) {
    forall id :: id in requests && requests[id].creds == c && Fetching(requests[id]) ==>
      Since(view, requests[id].phase.fetch, m)
  }

  predicate FetchesSince(view: View, fetches: seq<Fetch>, first: nat, c: Credentials, m: Moment) {
    forall n :: first <= n < |fetches| && fetches[n].creds == c ==> Since(view, fetches[n], m)
  }

  /** The serving came from some fetch, for these credentials. */
  predicate FetchedFor(v: Served, c: Credentials) {
    v.request.creds == c && v.source.Some?
  }

  predicate ServedSince(served: seq<Served>, firstServed: nat, first: nat, c: Credentials) {
    forall k :: firstServed <= k < |served| && FetchedFor(served[k], c) ==>
      served[k].source.value >= first
  }

  /** The moment of an invalidation of `c`, and how many fetches and servings there were then. */
  datatype Mark = Mark(view: View, c: Credentials, m: Moment, first: nat, firstServed: nat)

  /** What holds from the invalidation on: everything for these credentials is new. */
  predicate New(e: Setting, s: State, k: Mark) {
    && |s.authd| > 0 && k.m.time <= s.now && k.m.version <= |s.authd| - 1
    && k.first <= |s.fetches| && k.firstServed <= |s.served|
    && (e.Key(k.c) in s.cache && e.Key(k.c) in s.origin ==> s.origin[e.Key(k.c)] >= k.first)
    && RequestsSince(k.view, s.requests, k.c, k.m)
    && FetchesSince(k.view, s.fetches, k.first, k.c, k.m)
    && ServedSince(s.served, k.firstServed, k.first, k.c)
  }

  lemma LookupNew(e: Setting, s: State, id: nat, k: Mark)
    requires New(e, s, k)
    ensures New(e, Apply(e, s, Lookup(id)), k)
  {
  }

  /** One more or one changed request, which is not fetching or has a new fetch. */
  lemma RequestNew(e: Setting, s: State, id: nat, r: Request, k: Mark)
    requires New(e, s, k)
    requires r.creds == k.c && Fetching(r) ==> Since(k.view, r.phase.fetch, k.m)
    ensures New(e, s.(requests := s.requests[id := r]), k)
  {
  }

  lemma ArriveNew(e: Setting, s: State, id: nat, creds: Credentials, noCache: bool, k: Mark)
    requires New(e, s, k)
    ensures New(e, Apply(e, s, Arrive(id, creds, noCache)), k)
  {
  }

  lemma BeginNew(e: Setting, s: State, id: nat, k: Mark)
    requires New(e, s, k)
    ensures New(e, Apply(e, s, Begin(id)), k)
  {
    if id in s.requests && s.requests[id].phase == Missed {
      RequestNew(e, s, id, ApplyBegin(s, id).requests[id], k);
    }
  }

  lemma SessionNew(e: Setting, s: State, id: nat, reachable: bool, k: Mark)
    requires New(e, s, k)
    ensures New(e, Apply(e, s, SessionAnswers(id, reachable)), k)
  {
    if id in s.requests && s.requests[id].phase.CallingSession? {
      RequestNew(e, s, id, ApplySession(e, s, id, reachable).requests[id], k);
    }
  }

  lemma RoleNew(e: Setting, s: State, id: nat, reachable: bool, k: Mark)
    requires New(e, s, k)
    ensures New(e, Apply(e, s, RoleAnswers(id, reachable)), k)
  {
    if id in s.requests && s.requests[id].phase.CallingRole? {
      RequestNew(e, s, id, ApplyRole(s, id, reachable).requests[id], k);
    }
  }

  lemma StoreNew(e: Setting, s: State, id: nat, k: Mark)
    requires Injective(e.hash) && Inv(e, s) && New(e, s, k) && Transmissible(k.c)
    ensures New(e, Apply(e, s, Store(id)), k)
  {
    if id in s.requests && s.requests[id].phase.Storing? {
      var r := s.requests[id];
      assert RequestOk(s.authd, s.now, r);
      KeysDiffer(e.hash, r.creds, k.c);
      var fetches := s.fetches + [r.phase.fetch.(stored := s.now)];
      forall n | k.first <= n < |fetches| && fetches[n].creds == k.c ensures Since(k.view, fetches[n], k.m) {
      }
    }
  }

  lemma InvalidateNew(e: Setting, s: State, creds: Credentials, k: Mark)
    requires New(e, s, k)
    ensures New(e, Apply(e, s, Invalidate(creds)), k)
  {
  }

  lemma StepNew(e: Setting, s: State, step: Step, k: Mark)
    requires Injective(e.hash) && Inv(e, s) && New(e, s, k) && Transmissible(k.c)
    ensures New(e, Apply(e, s, step), k)
  {
    match step
    case Tick(_) =>
    case AuthdChanges(_) =>
    case Arrive(id, creds, noCache) => ArriveNew(e, s, id, creds, noCache, k);
    case Lookup(id) => LookupNew(e, s, id, k);
    case Begin(id) => BeginNew(e, s, id, k);
    case SessionAnswers(id, reachable) => SessionNew(e, s, id, reachable, k);
    case RoleAnswers(id, reachable) => RoleNew(e, s, id, reachable, k);
    case Store(id) => StoreNew(e, s, id, k);
    case Invalidate(creds) => InvalidateNew(e, s, creds, k);
  }

  lemma {:induction false} RunNew(e: Setting, s: State, steps: seq<Step>, k: Mark)
    requires Injective(e.hash) && Inv(e, s) && New(e, s, k) && Transmissible(k.c)
    ensures New(e, Run(e, s, steps), k) && Inv(e, Run(e, s, steps))
    decreases |steps|
  {
    if steps == [] {
    } else {
      StepNew(e, s, steps[0], k);
      StepInv(e, s, steps[0]);
      RunNew(e, Apply(e, s, steps[0]), steps[1..], k);
    }
  }

  /** Between `s` and `later` nobody with the credentials `c` was served from an older fetch. */
  predicate OnlyFresh(view: View, s: State, later: State, c: Credentials)
    requires |s.authd| > 0
  {
    forall k :: |s.served| <= k < |later.served| && FetchedFor(later.served[k], c) ==>
      var n := later.served[k].source.value;
      n < |later.fetches| && Since(view, later.fetches[n], Now(s))
  }

  /** If no older fetch for `c` is in flight when `c` is invalidated, everything served to `c` later is fresh,
      whichever of the two a fetch is judged by. */
  lemma FreshAfterInvalidate(view: View, e: Setting, s: State, c: Credentials, steps: seq<Step>)
    requires Injective(e.hash) && Inv(e, s) && Transmissible(c) && !OldInFlight(view, s, c)
    ensures OnlyFresh(view, s, Run(e, Apply(e, s, Invalidate(c)), steps), c)
  {
    var s', mark := Apply(e, s, Invalidate(c)), Mark(view, c, Now(s), |s.fetches|, |s.served|);
    InvalidateInv(e, s, c);
    assert New(e, s', mark);
    RunNew(e, s', steps, mark);
    var later := Run(e, s', steps);
    forall k | |s.served| <= k < |later.served| && FetchedFor(later.served[k], c)
      ensures var n := later.served[k].source.value; n < |later.fetches| && Since(view, later.fetches[n], Now(s))
    {
      assert ServedOk(e, later.fetches, later.served[k]);
    }
  }

  lemma RunFirst(e: Setting, s: State, step: Step, steps: seq<Step>)
    requires |s.authd| > 0
    ensures Run(e, s, [step] + steps) == Run(e, Apply(e, s, step), steps)
  {
    assert ([step] + steps)[1..] == steps;
  }

  /** The last one served is a request with the credentials `c` that arrived at the moment `m`, and it got
      what this fetch made of its answers. */
  predicate ServedFrom(e: Setting, later: State, c: Credentials, m: Moment, f: Fetch) {
    && |later.served| > 0
    && var v := later.served[|later.served| - 1];
       && v.request == Request(c, false, m.time, m.version, Arrived) && v.user == e.User(f)
       && v.source.Some? && v.source.value < |later.fetches| && later.fetches[v.source.value] == f
  }

  /** A fetch is stored, and a new request with the same credentials looks them up. */
  function StoreAndServe(id: nat, c: Credentials): seq<Step> {
    [Store(id)] + ([Arrive(id, c, false)] + ([Lookup(id)] + []))
  }

  /** Storing a fetch, and then a new request with the same credentials: it is served by that fetch. */
  lemma StoredThenServed(e: Setting, s: State, id: nat, c: Credentials)
    requires Inv(e, s) && id in s.requests && s.requests[id].phase.Storing? && s.requests[id].creds == c
    ensures var later := Run(e, s, StoreAndServe(id, c));
      |later.served| == |s.served| + 2 && ServedFrom(e, later, c, Now(s), s.requests[id].phase.fetch.(stored := s.now))
  {
    assert RequestOk(s.authd, s.now, s.requests[id]);
    RunFirst(e, s, Store(id), [Arrive(id, c, false)] + ([Lookup(id)] + []));
    var s1 := ApplyStore(e, s, id);
    RunFirst(e, s1, Arrive(id, c, false), [Lookup(id)] + []);
    var s2 := ApplyArrive(s1, id, c, false);
    assert id !in s1.requests && id in s2.requests;
    RunFirst(e, s2, Lookup(id), []);
  }

  /** The step after which a fetch that has its session is stored: the call for the role, if it is under way,
      fails. */
  function Finishing(id: nat, phase: Phase): seq<Step> {
    if phase.CallingRole? then [RoleAnswers(id, false)] + [] else []
  }

  lemma {:induction false} RunBoth(e: Setting, s: State, a: seq<Step>, b: seq<Step>)
    requires |s.authd| > 0
    ensures |Run(e, s, a).authd| > 0 && Run(e, s, a + b) == Run(e, Run(e, s, a), b)
    decreases |a|
  {
    if a == [] {
      assert a + b == b;
    } else {
      assert (a + b)[1..] == a[1..] + b;
      RunBoth(e, Apply(e, s, a[0]), a[1..], b);
    }
  }

  lemma FinishingStores(e: Setting, s: State, id: nat)
    requires Inv(e, s) && id in s.requests && (s.requests[id].phase.CallingRole? || s.requests[id].phase.Storing?)
    ensures var r, s' := s.requests[id], Run(e, s, Finishing(id, s.requests[id].phase));
      && Inv(e, s') && id in s'.requests && s'.requests[id].phase.Storing? && s'.requests[id].creds == r.creds
      && s'.requests[id].phase.fetch.session == r.phase.fetch.session
      && s'.requests[id].phase.fetch.sessionVersion == r.phase.fetch.sessionVersion
      && s'.now == s.now && s'.authd == s.authd && s'.served == s.served
  {
    if s.requests[id].phase.CallingRole? {
      RunFirst(e, s, RoleAnswers(id, false), []);
      RoleInv(e, s, id, false);
    }
  }

  /** If a fetch in flight holds an older session, the invalidation does not keep a request that arrives after
      it from being served that session. */
  lemma OldFetchServesNewRequest(e: Setting, s: State, c: Credentials, id: nat) returns (steps: seq<Step>, f: Fetch)
    requires Inv(e, s) && id in s.requests && s.requests[id].creds == c && Fetching(s.requests[id])
    requires !Since(BySession, s.requests[id].phase.fetch, Now(s))
    ensures f.session.Some? && f.session == s.requests[id].phase.fetch.session && !Since(BySession, f, Now(s))
    ensures var later := Run(e, Apply(e, s, Invalidate(c)), steps);
      |later.served| == |s.served| + 2 && ServedFrom(e, later, c, Now(s), f)
  {
    assert RequestOk(s.authd, s.now, s.requests[id]);
    InvalidateInv(e, s, c);
    var s0, finish := Apply(e, s, Invalidate(c)), Finishing(id, s.requests[id].phase);
    FinishingStores(e, s0, id);
    var s1 := Run(e, s0, finish);
    f := s1.requests[id].phase.fetch.(stored := s1.now);
    StoredThenServed(e, s1, id, c);
    steps := finish + StoreAndServe(id, c);
    RunBoth(e, s0, finish, StoreAndServe(id, c));
  }

  /** Exactly when no fetch for `c` in flight holds an older session does invalidating `c` keep every older
      session from being served to `c` afterwards. */
  lemma InvalidateExact(e: Setting, s: State, c: Credentials)
    requires Injective(e.hash) && Inv(e, s) && Transmissible(c)
    ensures !OldInFlight(BySession, s, c) <==>
      forall steps :: OnlyFresh(BySession, s, Run(e, Apply(e, s, Invalidate(c)), steps), c)
  {
    if OldInFlight(BySession, s, c) {
      var id :| id in s.requests && s.requests[id].creds == c && Fetching(s.requests[id]) &&
        !Since(BySession, s.requests[id].phase.fetch, Now(s));
      var steps, f := OldFetchServesNewRequest(e, s, c, id);
      assert !OnlyFresh(BySession, s, Run(e, Apply(e, s, Invalidate(c)), steps), c);
    } else {
      forall steps ensures OnlyFresh(BySession, s, Run(e, Apply(e, s, Invalidate(c)), steps), c) {
        FreshAfterInvalidate(BySession, e, s, c, steps);
      }
    }
  }

  // ---------------------------------------------------------------- one request that nothing interrupts

  /** All the steps of a request that is not answered from the cache, with authd reachable. */
  function WholeRequest(id: nat, c: Credentials, noCache: bool): seq<Step> {
    [Arrive(id, c, noCache)] + ([Lookup(id)] + ([Begin(id)] +
      ([SessionAnswers(id, true)] + ([RoleAnswers(id, true)] + ([Store(id)] + [])))))
  }

  /** The request when both answers are there. */
  function Answered(s: State, c: Credentials, noCache: bool): Request
    requires |s.authd| > 0
  {
    var v := |s.authd| - 1;
    var session := s.authd[v].session(c);
    var asked := session.userId != "" && session.orgId != "";
    Request(c, noCache, s.now, v,
      Storing(Fetch(c, s.now, v, Some(session), v, if asked then s.authd[v].role(c) else None, v, s.now)))
  }

  lemma RunThree(e: Setting, s: State, step: Step, step': Step, step'': Step, steps: seq<Step>)
    requires |s.authd| > 0
    ensures Run(e, s, [step] + ([step'] + ([step''] + steps))) ==
      Run(e, Apply(e, Apply(e, Apply(e, s, step), step'), step''), steps)
  {
    var s1 := Apply(e, s, step);
    var s2 := Apply(e, s1, step');
    RunFirst(e, s, step, [step'] + ([step''] + steps));
    RunFirst(e, s1, step', [step''] + steps);
    RunFirst(e, s2, step'', steps);
  }

  lemma RunToAnswered(e: Setting, s: State, id: nat, c: Credentials, noCache: bool)
    requires |s.authd| > 0 && id !in s.requests && Transmissible(c) && (c.cookie != "" || c.bearer != "")
    requires noCache || Cached(s.cache, e.Key(c), s.now) == None
    ensures Run(e, s, WholeRequest(id, c, noCache)) ==
      ApplyStore(e, s.(requests := s.requests[id := Answered(s, c, noCache)]), id)
  {
    var answers := [SessionAnswers(id, true)] + ([RoleAnswers(id, true)] + ([Store(id)] + []));
    RunThree(e, s, Arrive(id, c, noCache), Lookup(id), Begin(id), answers);
    Begun(e, s, id, c, noCache);
    var s3 := Apply(e, Apply(e, Apply(e, s, Arrive(id, c, noCache)), Lookup(id)), Begin(id));
    RunThree(e, s3, SessionAnswers(id, true), RoleAnswers(id, true), Store(id), []);
    BothAnswered(e, s, s3, id, c, noCache);
    var s5 := s.(requests := s.requests[id := Answered(s, c, noCache)]);
    assert Run(e, s, WholeRequest(id, c, noCache)) == Run(e, Apply(e, s5, Store(id)), []);
  }

  lemma NotCached(e: Setting, s: State, id: nat, c: Credentials, noCache: bool)
    requires |s.authd| > 0 && id !in s.requests && Transmissible(c) && (c.cookie != "" || c.bearer != "")
    requires noCache || Cached(s.cache, e.Key(c), s.now) == None
    ensures Apply(e, Apply(e, s, Arrive(id, c, noCache)), Lookup(id)) ==
      s.(requests := s.requests[id := Request(c, noCache, s.now, |s.authd| - 1, Missed)])
  {
    var s1 := ApplyArrive(s, id, c, noCache);
    assert s1 == s.(requests := s.requests[id := Request(c, noCache, s.now, |s.authd| - 1, Arrived)]);
    var s2 := ApplyLookup(e, s1, id);
    assert s2.requests == s.requests[id := Request(c, noCache, s.now, |s.authd| - 1, Missed)];
  }

  lemma Begun(e: Setting, s: State, id: nat, c: Credentials, noCache: bool)
    requires |s.authd| > 0 && id !in s.requests && Transmissible(c) && (c.cookie != "" || c.bearer != "")
    requires noCache || Cached(s.cache, e.Key(c), s.now) == None
    ensures var v := |s.authd| - 1;
      var r := Request(c, noCache, s.now, v, CallingSession(Fetch(c, s.now, v, None, v, None, v, s.now)));
      Apply(e, Apply(e, Apply(e, s, Arrive(id, c, noCache)), Lookup(id)), Begin(id)) ==
        s.(requests := s.requests[id := r])
  {
    NotCached(e, s, id, c, noCache);
    var s2 := s.(requests := s.requests[id := Request(c, noCache, s.now, |s.authd| - 1, Missed)]);
    var s3 := ApplyBegin(s2, id);
    assert s3.requests == s.requests[id := s3.requests[id]];
  }

  lemma BothAnswered(e: Setting, s: State, s3: State, id: nat, c: Credentials, noCache: bool)
    requires |s.authd| > 0
    requires var v := |s.authd| - 1;
      var r := Request(c, noCache, s.now, v, CallingSession(Fetch(c, s.now, v, None, v, None, v, s.now)));
      s3 == s.(requests := s.requests[id := r])
    ensures Apply(e, Apply(e, s3, SessionAnswers(id, true)), RoleAnswers(id, true)) ==
      s.(requests := s.requests[id := Answered(s, c, noCache)])
  {
    var s4 := Apply(e, s3, SessionAnswers(id, true));
    var s5 := Apply(e, s4, RoleAnswers(id, true));
    assert s5.requests == s.requests[id := Answered(s, c, noCache)];
  }

  /** It is served what authd says at that moment: nobody if authd knows nobody with these credentials, and
      otherwise that user, with the role that authd gives for the active organization. */
  lemma ServedWhatAuthdSays(e: Setting, s: State, id: nat, c: Credentials, noCache: bool)
    requires |s.authd| > 0 && id !in s.requests && Transmissible(c) && (c.cookie != "" || c.bearer != "")
    requires noCache || Cached(s.cache, e.Key(c), s.now) == None
    ensures var later, authd := Run(e, s, WholeRequest(id, c, noCache)), s.authd[|s.authd| - 1];
      && |later.served| == |s.served| + 1
      && var v := later.served[|s.served|];
         && v.request.creds == c && (v.user == None <==> authd.session(c).userId == "")
         && (v.user.Some? ==> UserFits(v.user.value, authd.session(c), authd.role(c), e.space))
  {
    RunToAnswered(e, s, id, c, noCache);
    var f := Answered(s, c, noCache).phase.fetch;
    UserMeaning(f.session, f.role, e.space);
  }

  // ---------------------------------------------------------------- one run in which it happens

  const ALICE := Session("alice", "", "", "", "")
  const NOBODY := Session("", "", "", "", "")

  const SIGNED_IN := Authd(c => ALICE, c => None)
  const SIGNED_OUT := Authd(c => NOBODY, c => None)

  /** A request has asked authd for its session, and then authd signs the user out. */
  function SignedOutMeanwhile(c: Credentials): seq<Step> {
    [Arrive(0, c, false)] + ([Lookup(0)] + ([Begin(0)] +
      ([SessionAnswers(0, true)] + ([AuthdChanges(SIGNED_OUT)] + []))))
  }

  /** The first request, on its way to being stored. */
  function Unstored(c: Credentials): State {
    var r := Request(c, false, 0, 0, Storing(Fetch(c, 0, 0, Some(ALICE), 0, None, 0, 0)));
    State(0, [SIGNED_IN, SIGNED_OUT], map[], map[0 := r], [], map[], [])
  }

  lemma RunToUnstored(e: Setting, c: Credentials)
    requires Transmissible(c) && !c.Empty()
    ensures Run(e, Initial(SIGNED_IN), SignedOutMeanwhile(c)) == Unstored(c)
  {
    var change: seq<Step> := [AuthdChanges(SIGNED_OUT)] + [];
    var answer := [SessionAnswers(0, true)] + change;
    var s0 := Initial(SIGNED_IN);
    var s1 := Apply(e, s0, Arrive(0, c, false));
    var s2 := Apply(e, s1, Lookup(0));
    var s3 := Apply(e, s2, Begin(0));
    var s4 := Apply(e, s3, SessionAnswers(0, true));
    RunFirst(e, s0, Arrive(0, c, false), [Lookup(0)] + ([Begin(0)] + answer));
    RunFirst(e, s1, Lookup(0), [Begin(0)] + answer);
    RunFirst(e, s2, Begin(0), answer);
    RunFirst(e, s3, SessionAnswers(0, true), change);
    RunFirst(e, s4, AuthdChanges(SIGNED_OUT), []);
    assert s4.authd + [SIGNED_OUT] == [SIGNED_IN, SIGNED_OUT];
    assert s3.requests[0] == Request(c, false, 0, 0, CallingSession(Fetch(c, 0, 0, None, 0, None, 0, 0)));
  }

  /** After the user is signed out the credentials are invalidated; the request that arrives then is still
      served as the user. */
  lemma UnstoredServed(e: Setting, c: Credentials)
    requires Inv(e, Unstored(c))
    ensures var later := Run(e, Apply(e, Unstored(c), Invalidate(c)), StoreAndServe(0, c));
      ServedFrom(e, later, c, Moment(0, 1), Fetch(c, 0, 0, Some(ALICE), 0, None, 0, 0))
  {
    InvalidateInv(e, Unstored(c), c);
    StoredThenServed(e, Apply(e, Unstored(c), Invalidate(c)), 0, c);
  }

  /** This happens in a run of the service from its start. */
  lemma SignedOutUserServed(e: Setting, c: Credentials)
    requires Injective(e.hash) && Transmissible(c) && !c.Empty()
    ensures var s := Run(e, Initial(SIGNED_IN), SignedOutMeanwhile(c));
      && s.authd == [SIGNED_IN, SIGNED_OUT] && OldInFlight(BySession, s, c)
      && var later := Run(e, Apply(e, s, Invalidate(c)), StoreAndServe(0, c));
         && |later.served| > 0
         && var v := later.served[|later.served| - 1];
            && v.request.creds == c && v.request.arrivedVersion == 1
            && v.user == UserOf(Some(ALICE), None, e.space) != None
  {
    RunInv(e, Initial(SIGNED_IN), SignedOutMeanwhile(c));
    RunToUnstored(e, c);
    UnstoredServed(e, c);
    var s := Unstored(c);
    assert 0 in s.requests && !Since(BySession, s.requests[0].phase.fetch, Now(s));
  }
}
