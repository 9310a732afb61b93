/**
 * tracking/middleware.py: the per-request tracking pipeline
 * (`VisitorTrackingMiddleware`), the stale-row sweeper
 * (`VisitorCleanUpMiddleware`) and the banned-address check
 * (`BannedIPMiddleware`).
 *
 * Everything Django or `tracking.utils` would answer during one request
 * (the session key a save creates, whether the store raises, `u_clean`) is
 * an input, and so is the time `now`, in whole seconds.
 */
module Middleware {
  import opened Wrappers
  import opened Text
  import opened Models
  import opened Storage

  // ---------------------------------------------------------------- requests

  /** `request.user`: anonymous, or a logged-in user's id. */
  datatype User = Anonymous | Authenticated(id: nat)

  /** `request.session`. `key` is `""` while the session has none. */
  class Session {
    var key: string
    var data: map<string, Option<nat>>
    /** `get_expiry_age()`, in seconds. */
    const expiryAge: int

    constructor(key: string, data: map<string, Option<nat>>, expiryAge: int)
      ensures this.key == key && this.data == data && this.expiryAge == expiryAge
    {
      this.key := key;
      this.data := data;
      this.expiryAge := expiryAge;
    }

    /** `session.save()`: a session without a key is given `freshKey`. */
    method Save(freshKey: string)
      modifies this`key
      ensures key == (if old(key) == "" then freshKey else old(key))
    {
      if key == "" {
        key := freshKey;
      }
    }

    /** `session[name] = value`. */
    method Set(name: string, value: Option<nat>)
      modifies this`data
      ensures data == old(data)[name := value]
    {
      data := data[name := value];
    }
  }

  /** The parts of a Django `HttpRequest` the middleware reads or writes. */
  class Request {
    const path: string
    const isAjax: bool
    const cookies: map<string, string>
    /** `request.GET`, one (the last) value per name. */
    const get: map<string, string>
    const meta: map<string, string>
    const user: User
    /** `utils.get_ip(request)`. */
    const ip: string
    /** `null` when no session middleware gave the request a `session` attribute. */
    const session: Session?
    /** `request.visitor`, once tracking has attached one. */
    var visitor: Option<Visitor>

    constructor(path: string, isAjax: bool, cookies: map<string, string>, get: map<string, string>,
                meta: map<string, string>, user: User, ip: string, session: Session?)
      ensures this.path == path && this.isAjax == isAjax && this.cookies == cookies
      ensures this.get == get && this.meta == meta && this.user == user && this.ip == ip
      ensures this.session == session && visitor == None
    {
      this.path := path;
      this.isAjax := isAjax;
      this.cookies := cookies;
      this.get := get;
      this.meta := meta;
      this.user := user;
      this.ip := ip;
      this.session := session;
      visitor := None;
    }
  }

  /** A cookie as `response.set_cookie` records it; `expires` in seconds. */
  datatype Cookie = Cookie(value: string, maxAge: int, expires: int, domain: Option<string>,
                           path: string, secure: bool, httpOnly: bool)

  class Response {
    var cookies: map<string, Cookie>

    constructor(cookies: map<string, Cookie>)
      ensures this.cookies == cookies
    {
      this.cookies := cookies;
    }
  }

  /** The Django settings and URLconf facts the middleware reads. */
  class Settings {
    /** `NO_TRACKING_PREFIXES` (`[]` when unset). */
    var noTrackingPrefixes: seq<string>
    /** `_FREEZE_TRACKING_PREFIXES`. */
    var frozen: bool
    const mediaUrl: string
    /** `reverse('tracking-refresh-active-users')`; `None` for `NoReverseMatch`. */
    const refreshUrl: Option<string>
    const sessionCookieDomain: Option<string>
    const sessionCookiePath: string

    constructor(noTrackingPrefixes: seq<string>, frozen: bool, mediaUrl: string, refreshUrl: Option<string>,
                sessionCookieDomain: Option<string>, sessionCookiePath: string)
      ensures this.noTrackingPrefixes == noTrackingPrefixes && this.frozen == frozen
      ensures this.mediaUrl == mediaUrl && this.refreshUrl == refreshUrl
      ensures this.sessionCookieDomain == sessionCookieDomain && this.sessionCookiePath == sessionCookiePath
    {
      this.noTrackingPrefixes := noTrackingPrefixes;
      this.frozen := frozen;
      this.mediaUrl := mediaUrl;
      this.refreshUrl := refreshUrl;
      this.sessionCookieDomain := sessionCookieDomain;
      this.sessionCookiePath := sessionCookiePath;
    }
  }

  /**
   * What the unmodelled collaborators answer during one request: the key
   * `session.save()` creates, whether `Visitor.objects.get` raises something
   * other than `DoesNotExist`, whether `visitor.save()` raises
   * `DatabaseError`, and `utils.u_clean`.
   */
  datatype Env = Env(freshSessionKey: string, lookupFails: bool, saveFails: bool, clean: string -> string)

  /** A dict used as keyword arguments; a heap object, so two names can share it. */
  class Attrs {
    var entries: map<string, string>

    constructor(entries: map<string, string>)
      ensures this.entries == entries
    {
      this.entries := entries;
    }

    method Set(name: string, value: string)
      modifies this
      ensures entries == old(entries)[name := value]
    {
      entries := entries[name := value];
    }
  }

  // ------------------------------------------------------- request features

  const VisitorIdName := "visitor_id"
  const UntrackedAgentsKey := "_tracking_untracked_uas"
  const BannedIpsKey := "_tracking_banned_ips"
  /** Seconds a reloaded exclusion snapshot is served from the cache. */
  const CacheTimeout: int := 3600

  /** `request.META.get('HTTP_USER_AGENT', '')[:255]`. */
  function AgentOf(meta: map<string, string>): string
  {
    Truncate(GetOr(meta, "HTTP_USER_AGENT", ""), 255)
  }

  /** `utils.u_clean(request.META.get('HTTP_REFERER', 'unknown')[:255])`. */
  function RefererOf(meta: map<string, string>, clean: string -> string): string
  {
    clean(Truncate(GetOr(meta, "HTTP_REFERER", "unknown"), 255))
  }

  /** `None` for an anonymous user. */
  function UserOf(user: User): Option<nat>
  {
    if user.Anonymous? then None else Some(user.id)
  }

  /** `request.COOKIES.get('visitor_id')`, with `""` for a missing cookie (both are falsy). */
  function CookieId(cookies: map<string, string>): string
  {
    GetOr(cookies, VisitorIdName, "")
  }

  /** `request.GET.get('tid') or request.GET.get('fb_source')`, `""` when neither is set. */
  function TidParam(get: map<string, string>): string
  {
    var tid := GetOr(get, "tid", "");
    if tid != "" then tid else GetOr(get, "fb_source", "")
  }

  /** The lookup `process_request` makes: by the cookie's id when one is set, else by the pair. */
  function LookupCriteria(cookies: map<string, string>, sessionKey: string, ip: string): Criteria
  {
    if CookieId(cookies) != "" then ById(CookieId(cookies)) else ByPair(sessionKey, ip)
  }

  /**
   * The `tid` a new visitor receives. `attrs['tid'] = tid` reaches `new_attrs`
   * only when both names hold the same dict, that is, when no cookie was sent.
   */
  function TidStored(cookies: map<string, string>, get: map<string, string>): (r: string)
    ensures r != "" ==> CookieId(cookies) == "" && r == TidParam(get)
    ensures CookieId(cookies) == "" ==> r == TidParam(get)
  {
    if CookieId(cookies) == "" then TidParam(get) else ""
  }

  /** `Visitor(**new_attrs)`. */
  function FromAttrs(attrs: map<string, string>): Visitor
  {
    NewVisitor(GetOr(attrs, "session_key", ""), GetOr(attrs, "ip_address", ""), GetOr(attrs, "tid", ""))
  }

  /** The visitor the activity update starts from: the row found, or a new one. */
  function Base(lookup: Lookup, sessionKey: string, ip: string, tid: string): Visitor
  {
    if lookup.Found? then lookup.visitor else NewVisitor(sessionKey, ip, tid)
  }

  // ------------------------------------------------------- exclusion checks

  /** Some keyword is a substring of the user agent. */
  ghost predicate ContainsKeyword(agent: string, keywords: seq<string>)
  {
    exists j :: 0 <= j < |keywords| && Occurs(agent, keywords[j])
  }

  /** The loop over `untracked`: is any keyword found in the user agent? */
  method MatchesKeyword(agent: string, keywords: seq<string>) returns (found: bool)
    ensures found == ContainsKeyword(agent, keywords)
  {
    for j := 0 to |keywords|
      invariant forall k :: 0 <= k < j ==> !Occurs(agent, keywords[k])
    {
      if Find(agent, keywords[j]) != -1 {
        return true;
      }
    }
    return false;
  }

  /** The path starts with some prefix. */
  ghost predicate IgnoredPath(path: string, prefixes: seq<string>)
  {
    exists j :: 0 <= j < |prefixes| && prefixes[j] <= path
  }

  /** The loop over `self.prefixes`: does the path start with any of them? */
  method StartsWithAny(path: string, prefixes: seq<string>) returns (found: bool)
    ensures found == IgnoredPath(path, prefixes)
  {
    for j := 0 to |prefixes|
      invariant forall k :: 0 <= k < j ==> !(prefixes[k] <= path)
    {
      if prefixes[j] <= path {
        return true;
      }
    }
    return false;
  }

  /**
   * The prefix list `prefixes` yields: the middleware's own copy once it has
   * one; else the configured list, as it stands once frozen, or extended by
   * `MEDIA_URL` (unless empty or `'/'`) and the refresh URL (when it resolves).
   */
  function PrefixList(cached: Option<seq<string>>, configured: seq<string>, frozen: bool,
                      mediaUrl: string, refreshUrl: Option<string>): seq<string>
  {
    if cached.Some? then cached.value
    else if frozen then configured
    else
      configured
      + (if mediaUrl != "" && mediaUrl != "/" then [mediaUrl] else [])
      + (if refreshUrl.Some? then [refreshUrl.value] else [])
  }

  /**
   * Once built and frozen, the list no longer grows: the instance that built
   * it and any later instance both get the same list back.
   */
  lemma PrefixesFrozen(configured: seq<string>, mediaUrl: string, refreshUrl: Option<string>)
    ensures var built := PrefixList(None, configured, false, mediaUrl, refreshUrl);
      && configured <= built
      && PrefixList(Some(built), built, true, mediaUrl, refreshUrl) == built
      && PrefixList(None, built, true, mediaUrl, refreshUrl) == built
      && (mediaUrl != "" && mediaUrl != "/" ==> forall path :: mediaUrl <= path ==> IgnoredPath(path, built))
      && (refreshUrl.Some? ==> forall path :: refreshUrl.value <= path ==> IgnoredPath(path, built))
  {
    var built := PrefixList(None, configured, false, mediaUrl, refreshUrl);
    if mediaUrl != "" && mediaUrl != "/" {
      assert built[|configured|] == mediaUrl;
    }
    if refreshUrl.Some? {
      assert built[|built| - 1] == refreshUrl.value;
    }
  }

  // ------------------------------------------------------- exclusion caches

  /** The rows a check uses: the cached snapshot on a hit, the table's rows on a miss. */
  function RowsFor(entries: map<string, Snapshot>, key: string, now: int, rows: seq<string>): seq<string>
  {
    match Cached(entries, key, now)
    case Some(cached) => cached
    case None => rows
  }

  /** The cache after a check: unchanged on a hit, refilled for `CacheTimeout` seconds on a miss. */
  function Refilled(entries: map<string, Snapshot>, key: string, now: int, rows: seq<string>)
    : map<string, Snapshot>
  {
    if Cached(entries, key, now).Some? then entries
    else entries[key := Snapshot(rows, now + CacheTimeout)]
  }

  /** How many times a check reads the table: never on a hit, once on a miss. */
  function Reloads(entries: map<string, Snapshot>, key: string, now: int): nat
  {
    if Cached(entries, key, now).Some? then 0 else 1
  }

  /** On a hit, the table's rows play no part: the snapshot is used and kept. */
  lemma HitReadsNoRows(entries: map<string, Snapshot>, key: string, now: int, rows: seq<string>, other: seq<string>)
    requires Cached(entries, key, now).Some?
    ensures RowsFor(entries, key, now, rows) == RowsFor(entries, key, now, other) == entries[key].rows
    ensures Refilled(entries, key, now, rows) == entries && Reloads(entries, key, now) == 0
  {
  }

  /**
   * A reload serves the rows it read for the next `CacheTimeout` seconds,
   * whatever the table holds meanwhile, and the other snapshot is untouched;
   * with the table unchanged, every later check sees the same rows.
   */
  lemma RefillServesForTimeout(entries: map<string, Snapshot>, key: string, now: int, rows: seq<string>,
                               later: int, other: string)
    requires Cached(entries, key, now).None? && now <= later
    ensures later < now + CacheTimeout ==>
      forall current :: RowsFor(Refilled(entries, key, now, rows), key, later, current) == rows
    ensures RowsFor(Refilled(entries, key, now, rows), key, later, rows) == rows
    ensures other != key ==> Cached(Refilled(entries, key, now, rows), other, later) == Cached(entries, other, later)
  {
  }

  /** The untracked-keyword snapshot (`cache.get(ua_key)`, reloaded on a miss). */
  method UntrackedKeywords(cache: Cache, store: Store, now: int) returns (keywords: seq<string>)
    modifies cache, store`listQueries
    ensures keywords == RowsFor(old(cache.entries), UntrackedAgentsKey, now, store.untrackedKeywords)
    ensures cache.entries == Refilled(old(cache.entries), UntrackedAgentsKey, now, store.untrackedKeywords)
    ensures store.listQueries == old(store.listQueries) + Reloads(old(cache.entries), UntrackedAgentsKey, now)
  {
    var cached := Cached(cache.entries, UntrackedAgentsKey, now);
    if cached.None? {
      keywords := store.AllUntrackedKeywords();
      cache.Set(UntrackedAgentsKey, keywords, CacheTimeout, now);
    } else {
      keywords := cached.value;
    }
  }

  /** The banned-address snapshot (`cache.get(key)`, reloaded on a miss). */
  method BannedIps(cache: Cache, store: Store, now: int) returns (ips: seq<string>)
    modifies cache, store`listQueries
    ensures ips == RowsFor(old(cache.entries), BannedIpsKey, now, store.bannedIps)
    ensures cache.entries == Refilled(old(cache.entries), BannedIpsKey, now, store.bannedIps)
    ensures store.listQueries == old(store.listQueries) + Reloads(old(cache.entries), BannedIpsKey, now)
  {
    var cached := Cached(cache.entries, BannedIpsKey, now);
    if cached.None? {
      ips := store.AllBannedIps();
      cache.Set(BannedIpsKey, ips, CacheTimeout, now);
    } else {
      ips := cached.value;
    }
  }

  // ------------------------------------------------------ activity update

  /**
   * The activity update of lines 137-150: user, user agent, URL and time are
   * always set and one page view is counted; a visitor never seen before
   * (no `last_update`) starts its session here, with the referrer.
   */
  function Visit(v: Visitor, user: Option<nat>, agent: string, referrer: string, path: string, now: int)
    : (r: Visitor)
    ensures r.user == user && r.userAgent == agent && r.url == path && r.lastUpdate == Some(now)
    ensures r.pk == v.pk && r.sessionKey == v.sessionKey && r.ipAddress == v.ipAddress && r.tid == v.tid
    ensures v.lastUpdate.None? ==>
      r.pageViews == 1 && r.sessionStart == Some(now) && r.referrer == referrer
    ensures v.lastUpdate.Some? ==>
      r.pageViews == v.pageViews + 1 && r.sessionStart == v.sessionStart && r.referrer == v.referrer
  {
    var first := v.lastUpdate.None?;
    v.(user := user, userAgent := agent, url := path, lastUpdate := Some(now),
       referrer := if first then referrer else v.referrer,
       sessionStart := if first then Some(now) else v.sessionStart,
       pageViews := (if first then 0 else v.pageViews) + 1)
  }

  /** One tracked request against a visitor, as `Visit` sees it. */
  datatype Hit = Hit(user: Option<nat>, agent: string, referrer: string, path: string, now: int)

  /** A run of tracked requests against the same visitor. */
  function Replay(v: Visitor, hits: seq<Hit>): Visitor
    decreases |hits|
  {
    if hits == [] then v
    else Replay(Visit(v, hits[0].user, hits[0].agent, hits[0].referrer, hits[0].path, hits[0].now), hits[1..])
  }

  /**
   * Over a run of requests the visitor counts exactly one page view each, its
   * session start and referrer are fixed by the first request of a new
   * visitor and never change afterwards, and its identity is untouched.
   */
  lemma {:induction false} ReplayCountsPages(v: Visitor, hits: seq<Hit>)
    requires hits != []
    ensures var r := Replay(v, hits);
      && r.pageViews == (if v.lastUpdate.None? then 0 else v.pageViews) + |hits|
      && r.sessionStart == (if v.lastUpdate.None? then Some(hits[0].now) else v.sessionStart)
      && r.referrer == (if v.lastUpdate.None? then hits[0].referrer else v.referrer)
      && r.lastUpdate == Some(hits[|hits| - 1].now) && r.url == hits[|hits| - 1].path
      && r.pk == v.pk && r.sessionKey == v.sessionKey && r.ipAddress == v.ipAddress && r.tid == v.tid
    decreases |hits|
  {
    var h := hits[0];
    var w := Visit(v, h.user, h.agent, h.referrer, h.path, h.now);
    if |hits| > 1 {
      ReplayCountsPages(w, hits[1..]);
      assert hits[1..][|hits[1..]| - 1] == hits[|hits| - 1];
    }
  }

  /** The session started no later than the last activity. */
  predicate Chronological(v: Visitor)
  {
    v.sessionStart.Some? && v.lastUpdate.Some? && v.sessionStart.value <= v.lastUpdate.value
  }

  /** Request times never go backwards. */
  predicate NonDecreasing(hits: seq<Hit>)
  {
    forall i, j :: 0 <= i < j < |hits| ==> hits[i].now <= hits[j].now
  }

  /** With a clock that never goes backwards, `last_update >= session_start` holds after every request. */
  lemma {:induction false} ReplayKeepsChronology(v: Visitor, hits: seq<Hit>)
    requires hits != [] && NonDecreasing(hits)
    requires v.lastUpdate.Some? ==> Chronological(v) && v.lastUpdate.value <= hits[0].now
    ensures Chronological(Replay(v, hits))
    decreases |hits|
  {
    var h := hits[0];
    var w := Visit(v, h.user, h.agent, h.referrer, h.path, h.now);
    if |hits| > 1 {
      assert hits[1..][0] == hits[1];
      ReplayKeepsChronology(w, hits[1..]);
    }
  }

  // ------------------------------------------------- VisitorTrackingMiddleware

  datatype SkipReason = AjaxRequest | UntrackedAgent | IgnoredPrefix

  /**
   * How `process_request` ends: skipped, aborted by a failed lookup, tracked,
   * or raising `AttributeError` at `request.session` when the request has no
   * session (after the visitor was saved and attached).
   */
  datatype Outcome = Skipped(reason: SkipReason) | LookupAborted | Tracked | SessionMissing

  /** How far a request got: past the AJAX check (1), the agent check (2), the prefix check (3), the lookup (4). */
  function Progress(o: Outcome): nat
  {
    match o
    case Skipped(AjaxRequest) => 0
    case Skipped(UntrackedAgent) => 1
    case Skipped(IgnoredPrefix) => 2
    case LookupAborted => 3
    case Tracked => 4
    case SessionMissing => 4
  }

  /** The intermediate values of one `process_request`, for the specification. */
  datatype Trace = Trace(keywords: seq<string>, sessionKey: string, prefixes: seq<string>,
                         lookup: Lookup, visitor: Visitor)

  /** What `process_response` does: return the response, or raise at `request.session`. */
  datatype ResponseOutcome = Returned | ResponseAttributeError

  /** The id `process_response` binds: the session's entry first, else the attached visitor's. */
  function ResponseVisitorId(data: map<string, Option<nat>>, visitor: Option<Visitor>): Option<nat>
  {
    if VisitorIdName in data then data[VisitorIdName]
    else if visitor.Some? then visitor.value.pk
    else None
  }

  /** Python truthiness of an id that may be `None`. */
  predicate Truthy(id: Option<nat>)
  {
    id.Some? && id.value != 0
  }

  /** The `visitor_id` cookie: session lifetime, session cookie domain and path, neither secure nor HTTP-only. */
  function VisitorCookie(id: nat, expiryAge: int, now: int, domain: Option<string>, path: string): (c: Cookie)
    ensures DecimalValue(c.value) == Some(id)
    ensures c.maxAge == expiryAge && c.expires == now + expiryAge
    ensures c.domain == domain && c.path == path && !c.secure && !c.httpOnly
  {
    DecimalRoundTrip(id);
    Cookie(Decimal(id), expiryAge, now + expiryAge, domain, path, false, false)
  }

  /**
   * The cookie binds the visitor: a later request carrying it is looked up
   * by id alone and finds the same row, whatever its session key or address.
   */
  lemma CookieFindsVisitor(vs: map<nat, Visitor>, id: nat, expiryAge: int, now: int, domain: Option<string>,
                           path: string, cookies: map<string, string>, sessionKey: string, ip: string)
    requires id in vs
    requires VisitorIdName in cookies && cookies[VisitorIdName] == VisitorCookie(id, expiryAge, now, domain, path).value
    ensures Resolve(vs, LookupCriteria(cookies, sessionKey, ip), false) == Found(vs[id])
  {
    DecimalRoundTrip(id);
  }

  /**
   * The session key of lines 82-89: the session's own (saved first when it
   * has none), or `ip:agent` when the request has no session.
   */
  method SessionKey(req: Request, freshKey: string) returns (key: string)
    modifies req.session
    ensures req.session == null ==> key == req.ip + ":" + AgentOf(req.meta)
    ensures req.session != null ==>
      && req.session.key == (if old(req.session.key) == "" then freshKey else old(req.session.key))
      && req.session.data == old(req.session.data)
      && key == req.session.key
  {
    if req.session != null {
      if req.session.key == "" {
        req.session.Save(freshKey);
      }
      key := req.session.key;
    } else {
      key := req.ip + ":" + AgentOf(req.meta);
    }
  }

  /**
   * The lookup of lines 101-129: by the cookie's id when one is sent, else by
   * session key and address; a missing visitor is built from `new_attrs`.
   */
  method FindVisitor(req: Request, store: Store, sessionKey: string, fails: bool)
    returns (lookup: Lookup, visitor: Visitor)
    ensures lookup == Resolve(store.visitors, LookupCriteria(req.cookies, sessionKey, req.ip), fails)
    ensures !lookup.Failed? ==> visitor == Base(lookup, sessionKey, req.ip, TidStored(req.cookies, req.get))
  {
    // `attrs` is `new_attrs` itself when no cookie was sent.
    var newAttrs := new Attrs(map["session_key" := sessionKey, "ip_address" := req.ip]);
    var visitorId := CookieId(req.cookies);
    var attrs := newAttrs;
    if visitorId != "" {
      attrs := new Attrs(map["id" := visitorId]);
    }
    lookup := store.Get(attrs.entries, fails);
    visitor := NewVisitor("", "", "");
    match lookup {
      case Failed =>
      case Found(v) =>
        visitor := v;
      case Missing =>
        var tid := TidParam(req.get);
        if tid != "" {
          // `request.GET` is replaced by a copy of itself: its contents do not change.
          attrs.Set("tid", tid);
        }
        visitor := FromAttrs(newAttrs.entries);
    }
  }

  /**
   * Without a cookie, a valid table answers the pair lookup with at most one
   * row, so tracking is aborted only when the store itself raises.
   */
  lemma NoCookieAbortsOnlyOnError(vs: map<nat, Visitor>, nextId: nat, cookies: map<string, string>,
                                  sessionKey: string, ip: string)
    requires ValidTable(vs, nextId) && CookieId(cookies) == ""
    ensures Resolve(vs, LookupCriteria(cookies, sessionKey, ip), false) != Failed
  {
    PairLookupNeverAmbiguous(vs, sessionKey, ip);
  }

  /**
   * On a miss the visitor is created from the session key and address, never
   * from the cookie's id: its first save gives it the next fresh id, adds
   * exactly that row, and counts one page view from `now`. Its `tid` is the
   * request's only when no cookie was sent.
   */
  lemma MissCreatesRowFromPair(vs: map<nat, Visitor>, nextId: nat, cookies: map<string, string>,
                               get: map<string, string>, sessionKey: string, ip: string, user: Option<nat>,
                               agent: string, referrer: string, path: string, now: int)
    requires ValidTable(vs, nextId)
    ensures var v := Visit(Base(Missing, sessionKey, ip, TidStored(cookies, get)), user, agent, referrer, path, now);
      && v.pk == None && v.sessionKey == sessionKey && v.ipAddress == ip
      && v.tid == (if CookieId(cookies) == "" then TidParam(get) else "")
      && v.pageViews == 1 && v.sessionStart == Some(now) && v.lastUpdate == Some(now)
      && var s := SaveRow(vs, nextId, v, false);
         s.ok ==> s.visitor.pk == Some(nextId) && nextId !in vs && s.visitors.Keys == vs.Keys + {nextId}
  {
    var v := Visit(Base(Missing, sessionKey, ip, TidStored(cookies, get)), user, agent, referrer, path, now);
    if SaveRow(vs, nextId, v, false).ok {
      SaveNewAddsOneRow(vs, nextId, v, false);
    }
  }

  /** The field-by-field activity update of lines 137-150. */
  method UpdateActivity(v: Visitor, req: Request, now: int, clean: string -> string) returns (r: Visitor)
    ensures r == Visit(v, UserOf(req.user), AgentOf(req.meta), RefererOf(req.meta, clean), req.path, now)
  {
    r := v.(user := UserOf(req.user));
    r := r.(userAgent := AgentOf(req.meta));
    if r.lastUpdate.None? {
      r := r.(referrer := RefererOf(req.meta, clean));
      r := r.(pageViews := 0);
      r := r.(sessionStart := Some(now));
    }
    r := r.(url := req.path);
    r := r.(pageViews := r.pageViews + 1);
    r := r.(lastUpdate := Some(now));
  }

  /**
   * Lines 152-157: save the visitor (a `DatabaseError` is swallowed), attach
   * it to the request, and record its id in the session, which raises when
   * the request has none.
   */
  method Record(req: Request, store: Store, visitor: Visitor, fails: bool) returns (outcome: Outcome)
    requires store.Valid()
    modifies req`visitor, req.session, store`visitors, store`nextId
    ensures store.Valid()
    ensures outcome == (if req.session == null then SessionMissing else Tracked)
    ensures var s := SaveRow(old(store.visitors), old(store.nextId), visitor, fails);
      && store.visitors == s.visitors && store.nextId == s.nextId
      && req.visitor == Some(s.visitor)
      && (req.session != null ==>
            req.session.data == old(req.session.data)[VisitorIdName := s.visitor.pk]
            && req.session.key == old(req.session.key))
  {
    SavePreservesValid(store.visitors, store.nextId, visitor, fails);
    var saved, ok := store.Save(visitor, fails);
    req.visitor := Some(saved);
    if req.session == null {
      return SessionMissing;
    }
    req.session.Set(VisitorIdName, saved.pk);
    outcome := Tracked;
  }

  /**
   * Lines 97-157, once the request is known to be tracked: look the visitor
   * up, abort on a failed lookup, otherwise update its activity and record it.
   */
  method Track(req: Request, store: Store, sessionKey: string, now: int, env: Env)
    returns (outcome: Outcome, ghost lookup: Lookup, ghost visitor: Visitor)
    requires store.Valid()
    modifies req`visitor, req.session, store`visitors, store`nextId
    ensures store.Valid()
    ensures lookup == Resolve(old(store.visitors), LookupCriteria(req.cookies, sessionKey, req.ip), env.lookupFails)
    ensures outcome == LookupAborted <==> lookup.Failed?
    ensures outcome != LookupAborted ==> outcome == (if req.session == null then SessionMissing else Tracked)
    ensures lookup.Failed? ==>
      && store.visitors == old(store.visitors) && store.nextId == old(store.nextId)
      && req.visitor == old(req.visitor)
      && (req.session != null ==> req.session.data == old(req.session.data) && req.session.key == old(req.session.key))
    ensures !lookup.Failed? ==>
      && visitor == Visit(Base(lookup, sessionKey, req.ip, TidStored(req.cookies, req.get)),
                          UserOf(req.user), AgentOf(req.meta), RefererOf(req.meta, env.clean), req.path, now)
      && var s := SaveRow(old(store.visitors), old(store.nextId), visitor, env.saveFails);
      && store.visitors == s.visitors && store.nextId == s.nextId
      && req.visitor == Some(s.visitor)
      && (req.session != null ==>
            req.session.data == old(req.session.data)[VisitorIdName := s.visitor.pk]
            && req.session.key == old(req.session.key))
  {
    var found, v := FindVisitor(req, store, sessionKey, env.lookupFails);
    lookup := found;
    visitor := v;
    if found.Failed? {
      return LookupAborted, lookup, visitor;
    }
    v := UpdateActivity(v, req, now, env.clean);
    visitor := v;
    outcome := Record(req, store, v, env.saveFails);
  }

  class VisitorTrackingMiddleware {
    /** `self._prefixes`, unset until first used. */
    var prefixes: Option<seq<string>>

    constructor()
      ensures prefixes == None
    {
      prefixes := None;
    }

    /** The `prefixes` property: built once, shared with and frozen in the settings. */
    method Prefixes(settings: Settings) returns (p: seq<string>)
      modifies this, settings
      ensures p == PrefixList(old(prefixes), old(settings.noTrackingPrefixes), old(settings.frozen),
                              settings.mediaUrl, settings.refreshUrl)
      ensures prefixes == Some(p)
      ensures if old(prefixes).None? && !old(settings.frozen)
              then settings.noTrackingPrefixes == p && settings.frozen
              else unchanged(settings)
    {
      if prefixes.None? {
        var list := settings.noTrackingPrefixes;
        if !settings.frozen {
          var url := settings.mediaUrl;
          if url != "" && url != "/" {
            list := list + [url];
          }
          if settings.refreshUrl.Some? {
            list := list + [settings.refreshUrl.value];
          }
          settings.noTrackingPrefixes := list;
          settings.frozen := true;
        }
        prefixes := Some(list);
      }
      p := prefixes.value;
    }

    /** `process_request`. */
    method ProcessRequest(req: Request, store: Store, cache: Cache, settings: Settings, now: int, env: Env)
      returns (outcome: Outcome, ghost t: Trace)
      requires store.Valid()
      modifies this, req, req.session, store, cache, settings
      ensures store.Valid()
      ensures store.untrackedKeywords == old(store.untrackedKeywords) && store.bannedIps == old(store.bannedIps)
      // What decides the outcome, check by check.
      ensures outcome == Skipped(AjaxRequest) <==> req.isAjax
      ensures Progress(outcome) >= 1 ==>
        && t.keywords == RowsFor(old(cache.entries), UntrackedAgentsKey, now, store.untrackedKeywords)
        && (outcome == Skipped(UntrackedAgent) <==> ContainsKeyword(AgentOf(req.meta), t.keywords))
      ensures Progress(outcome) >= 2 ==>
        && t.sessionKey == (if req.session == null then req.ip + ":" + AgentOf(req.meta) else req.session.key)
        && t.prefixes == PrefixList(old(prefixes), old(settings.noTrackingPrefixes), old(settings.frozen),
                                    settings.mediaUrl, settings.refreshUrl)
        && (outcome == Skipped(IgnoredPrefix) <==> IgnoredPath(req.path, t.prefixes))
      ensures Progress(outcome) >= 3 ==>
        && t.lookup == Resolve(old(store.visitors), LookupCriteria(req.cookies, t.sessionKey, req.ip), env.lookupFails)
        && (outcome == LookupAborted <==> t.lookup.Failed?)
      ensures Progress(outcome) == 4 ==>
        && t.visitor == Visit(Base(t.lookup, t.sessionKey, req.ip, TidStored(req.cookies, req.get)),
                              UserOf(req.user), AgentOf(req.meta), RefererOf(req.meta, env.clean), req.path, now)
        && (outcome == SessionMissing <==> req.session == null)
      // The exclusion cache: consulted by every request past the AJAX check.
      ensures Progress(outcome) == 0 ==> cache.entries == old(cache.entries) && store.listQueries == old(store.listQueries)
      ensures Progress(outcome) >= 1 ==>
        && cache.entries == Refilled(old(cache.entries), UntrackedAgentsKey, now, store.untrackedKeywords)
        && store.listQueries == old(store.listQueries) + Reloads(old(cache.entries), UntrackedAgentsKey, now)
      // The session key and the prefix list: settled by every request past the agent check.
      ensures Progress(outcome) < 2 ==>
        prefixes == old(prefixes) && unchanged(settings) && (req.session != null ==> unchanged(req.session))
      ensures Progress(outcome) >= 2 ==>
        && prefixes == Some(t.prefixes)
        && settings.noTrackingPrefixes
           == (if old(prefixes).None? && !old(settings.frozen) then t.prefixes else old(settings.noTrackingPrefixes))
        && settings.frozen == (old(settings.frozen) || old(prefixes).None?)
        && (req.session != null ==> req.session.key == (if old(req.session.key) == "" then env.freshSessionKey
                                                         else old(req.session.key)))
      // The visitor row, `request.visitor` and `session['visitor_id']`: written only once the lookup succeeded.
      ensures Progress(outcome) < 4 ==>
        && store.visitors == old(store.visitors) && store.nextId == old(store.nextId)
        && req.visitor == old(req.visitor)
        && (req.session != null ==> req.session.data == old(req.session.data))
      ensures Progress(outcome) == 4 ==>
        var s := SaveRow(old(store.visitors), old(store.nextId), t.visitor, env.saveFails);
        && store.visitors == s.visitors && store.nextId == s.nextId
        && req.visitor == Some(s.visitor)
        && (req.session != null ==> req.session.data == old(req.session.data)[VisitorIdName := s.visitor.pk])
    {
      t := Trace([], "", [], Missing, NewVisitor("", "", ""));
      if req.isAjax {
        return Skipped(AjaxRequest), t;
      }
      var userAgent := AgentOf(req.meta);

      var untracked := UntrackedKeywords(cache, store, now);
      t := t.(keywords := untracked);
      var excluded := MatchesKeyword(userAgent, untracked);
      if excluded {
        return Skipped(UntrackedAgent), t;
      }

      var sessionKey := SessionKey(req, env.freshSessionKey);
      var prefixList := Prefixes(settings);
      t := t.(sessionKey := sessionKey, prefixes := prefixList);
      var ignored := StartsWithAny(req.path, prefixList);
      if ignored {
        return Skipped(IgnoredPrefix), t;
      }

      ghost var lookup, visitor;
      outcome, lookup, visitor := Track(req, store, sessionKey, now, env);
      t := t.(lookup := lookup, visitor := visitor);
    }

    /** `process_response`. */
    method ProcessResponse(req: Request, response: Response, settings: Settings, now: int)
      returns (outcome: ResponseOutcome)
      modifies response
      ensures outcome == ResponseAttributeError <==> req.session == null
      ensures req.session == null ==> response.cookies == old(response.cookies)
      ensures req.session != null ==>
        var id := ResponseVisitorId(req.session.data, req.visitor);
        response.cookies
        == if Truthy(id)
           then old(response.cookies)[VisitorIdName := VisitorCookie(id.value, req.session.expiryAge, now,
                                                                     settings.sessionCookieDomain,
                                                                     settings.sessionCookiePath)]
           else old(response.cookies)
    {
      if req.session == null {
        return ResponseAttributeError;
      }
      var visitorId: Option<nat>;
      if VisitorIdName in req.session.data {
        visitorId := req.session.data[VisitorIdName];
      } else if req.visitor.Some? {
        visitorId := req.visitor.value.pk;
      } else {
        visitorId := None;
      }
      if visitorId.Some? && visitorId.value != 0 {
        var maxAge := req.session.expiryAge;
        response.cookies := response.cookies[VisitorIdName := Cookie(Decimal(visitorId.value), maxAge, now + maxAge,
                                                                     settings.sessionCookieDomain,
                                                                     settings.sessionCookiePath, false, false)];
      }
      outcome := Returned;
    }
  }

  // -------------------------------------------------- VisitorCleanUpMiddleware

  /** The cutoff of a sweep: `timeout` hours before `now`. */
  function CleanUpCutoff(hours: nat, now: int): int
  {
    now - hours * 3600
  }

  /**
   * `VisitorCleanUpMiddleware.process_request` as intended: when
   * `str(timeout)` is all digits, delete every visitor last seen at or
   * before `timeout` hours ago. (As written, line 193 raises first; see
   * `CleanUpAsWritten`.)
   */
  method CleanUp(store: Store, timeout: string, now: int)
    requires store.Valid()
    modifies store`visitors
    ensures store.Valid()
    ensures store.visitors
            == if IsDigitString(timeout) then Survivors(old(store.visitors), CleanUpCutoff(DigitsValue(timeout), now))
               else old(store.visitors)
  {
    if IsDigitString(timeout) {
      var cutoff := CleanUpCutoff(DigitsValue(timeout), now);
      SurvivorsValid(store.visitors, store.nextId, cutoff);
      store.DeleteSeenBy(cutoff);
    }
  }

  /** What the sweep as written does. */
  datatype CleanUpOutcome = Completed | CleanUpAttributeError

  /**
   * The sweep as written: line 193 calls `timedelta` as an attribute of the
   * `datetime` class, which has none, so a configured timeout raises
   * `AttributeError` before anything is deleted.
   */
  function CleanUpAsWritten(timeout: string): CleanUpOutcome
  {
    if IsDigitString(timeout) then CleanUpAttributeError else Completed
  }

  /**
   * With a five-hour timeout, a visitor seen ten hours ago is deleted and one
   * seen an hour ago is kept, while the sweep as written raises instead.
   */
  lemma CleanUpFiveHours(old10: Visitor, recent: Visitor, now: int)
    requires old10.lastUpdate == Some(now - 36000) && recent.lastUpdate == Some(now - 3600)
    ensures Survivors(map[1 := old10, 2 := recent], CleanUpCutoff(DigitsValue("5"), now)) == map[2 := recent]
    ensures IsDigitString("5") && CleanUpAsWritten("5") == CleanUpAttributeError
  {
    assert DigitsValue("5") == 5 by {
      assert "5"[..0] == [];
    }
    var r := Survivors(map[1 := old10, 2 := recent], CleanUpCutoff(5, now));
    assert r.Keys == {2};
  }

  /**
   * A visitor that `active` lists survives a sweep whose timeout is longer
   * than the activity window.
   */
  lemma ActiveSurvivesCleanUp(vs: map<nat, Visitor>, timeout: Option<int>, defaultTimeout: int, hours: nat, now: int)
    requires EffectiveTimeout(timeout, defaultTimeout) * 60 < hours * 3600
    ensures forall id :: id in Active(vs, timeout, defaultTimeout, now) ==>
      id in Survivors(vs, CleanUpCutoff(hours, now)) && Survivors(vs, CleanUpCutoff(hours, now))[id] == vs[id]
  {
  }

  // ------------------------------------------------------- BannedIPMiddleware

  /** What `BannedIPMiddleware.process_request` does: let the request through, or raise `Http404`. */
  datatype BanOutcome = Allowed | Http404

  /** `BannedIPMiddleware.process_request`. */
  method CheckBannedIp(req: Request, store: Store, cache: Cache, now: int) returns (outcome: BanOutcome)
    modifies cache, store`listQueries
    ensures outcome == Http404 <==> req.ip in RowsFor(old(cache.entries), BannedIpsKey, now, store.bannedIps)
    ensures cache.entries == Refilled(old(cache.entries), BannedIpsKey, now, store.bannedIps)
    ensures store.listQueries == old(store.listQueries) + Reloads(old(cache.entries), BannedIpsKey, now)
  {
    var ips := BannedIps(cache, store, now);
    if req.ip in ips {
      return Http404;
    }
    return Allowed;
  }
}
