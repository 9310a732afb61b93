# django-tracking, modelled in Dafny

This project models the per-request visitor tracking of django-tracking and
proves properties of the model. It covers the three middlewares in
`tracking/middleware.py`, the behaviour in `tracking/models.py` and the
event-name registry in `tracking/signals.py`.

- **Tracking.** `VisitorTrackingMiddleware` decides whether a request is
  tracked:
  - AJAX requests are skipped;
  - so are untracked user agents, checked against a cached keyword snapshot;
  - so are ignored URL prefixes.

  For a tracked request it:
  - derives a session key;
  - finds the visitor, by the `visitor_id` cookie or else by
    `(session_key, ip_address)`, and builds a new one on a miss;
  - updates the visitor's activity and saves it, swallowing database errors;
  - binds the visitor to the browser with a cookie.
- **Clean-up.** `VisitorCleanUpMiddleware` deletes stale visitors.
- **Bans.** `BannedIPMiddleware` rejects banned addresses, checked against a
  cached snapshot.

Modules:

- `Wrappers` (wrappers.dfy): `Option` and a dict `get` with a default.
- `Text` (text.dfy): the Python string operations the code relies on:
  - slicing `[:n]`;
  - `str.find`;
  - `isdigit`;
  - `int()` and `str()` on non-negative integers;
  - `%02i`.
- `Models` (models.dfy):
  - the `Visitor` record, its column limits and `unique_together`;
  - `_time_on_site`, with Python 2 floor division and `timedelta.seconds`;
  - `VisitorManager.active`;
  - `EVENT_CHOICES`.
- `Storage` (storage.dfy): the database and the cache, modelled abstractly.
  - The visitor table is a map from id to `Visitor` and is a strict store. A
    save that breaks a column limit, a NOT NULL column or `unique_together`
    fails as a `DatabaseError` would.
  - `Store.Valid()` keeps these constraints.
  - The exclusion tables are row lists.
  - The cache keeps one snapshot per key, each with an expiry time.
- `Signals` (signals.dfy): the `_Events` registry, as a class with its
  invariant that every registered name maps to itself.
- `Middleware` (middleware.dfy): the three middlewares.
  - The Django request, session, response and settings are classes, because
    the code updates them in place.
  - `process_request` is an imperative method. It has a stage-by-stage
    contract: for each way a request can end, the contract states what
    decided that ending and what was written.
  - The `attrs`/`new_attrs` aliasing is modelled with a small heap object. As
    a result, a `tid` reaches a new visitor only when no cookie was sent.

Time is whole seconds, passed in as `now`. Some answers of the unmodelled
collaborators, fixed for one request, are inputs of the `Env` datatype:
- the key a session save creates;
- whether the store raises on lookup or on save;
- `utils.u_clean`.

The other unmodelled collaborators become fields or parameters:
- `utils.get_ip` is the request's `ip` field;
- `utils.get_timeout()` is a parameter;
- `str(utils.get_cleanup_timeout())` is a parameter.

Where the code does something other than what its names and comments
suggest, the model follows the code:

- **No session support.** When the request has no `session` attribute,
  `process_request` falls back to the `ip:agent` key (lines 87-89), which
  suggests tracking works without sessions. But line 157 then writes to
  `request.session` and raises `AttributeError`. This happens after the
  visitor was saved and attached. `process_response` raises at line 160
  too. The model has the outcomes `SessionMissing` and
  `ResponseAttributeError`.
- **Save failures.** A failed save does not skip tracking:
  - `request.visitor` is still set;
  - `session['visitor_id']` is still set, to `None` for a visitor never
    stored.
- **Clean-up cutoff.** The clean-up filter is `last_update__lte`, so a
  visitor seen exactly at the cutoff is deleted, although the class
  docstring speaks of "old" records.

## Model

| member | source | states |
|---|---|---|
| Text.Truncate | tracking/middleware.py:65 | `s[:n]` is a prefix of `s` whose length is `n` or the length of `s`, whichever is smaller |
| Text.FindFrom | tracking/middleware.py:78 | the search from `start` returns an occurrence at or after `start` with none before it, or -1 when there is none from `start` |
| Text.Find | tracking/middleware.py:78 | `find` is -1 exactly when `sub` is not a substring; otherwise it is the first index where `sub` occurs |
| Text.DecimalValue | tracking/middleware.py:110-117 | `int()` of the cookie value succeeds exactly on non-empty digit strings |
| Text.Decimal | tracking/middleware.py:172-174 | the id written into the cookie is a digit string without leading zeros; it starts with `0` exactly for 0 |
| Text.DecimalRoundTrip | tracking/middleware.py:172-174 | reading back the written id gives the same id |
| Text.CanonicalDecimal | tracking/models.py:65 | a digit string without leading zeros is exactly `%i` of its value |
| Text.TwoDigits | tracking/models.py:65 | any two digits are exactly `%02i` of their value |
| Text.Pad2 | tracking/models.py:65 | `%02i` is two digits that denote the number |
| Models.DaySeconds | tracking/models.py:58 | `timedelta.seconds` is below 86400 and differs from the duration by whole days, also for negative durations |
| Models.Split | tracking/models.py:58-63 | hours < 24, minutes < 60 and seconds < 60, and they recombine to `delta.seconds` |
| Models.ParseFormatRoundTrip | tracking/models.py:65 | `%i:%02i:%02i` loses nothing: parsing the text gives back hours, minutes and seconds |
| Models.HmsTextIsFormatted | tracking/models.py:65 | a text that reads back as in-range hours, minutes and seconds with unpadded hours is exactly `%i:%02i:%02i` of them |
| Models.TimeOnSite | tracking/models.py:52-67 | "unknown" without a session start; `TypeError` without a last update; otherwise an `h:mm:ss` text with unpadded hours, whose components are in range and recombine to `(last_update - session_start).seconds` |
| Models.Active | tracking/models.py:25-36 | exactly the visitors with `last_update >= now - timeout minutes`, inclusive, where `None` or `0` falls back to the default timeout; rows are unchanged |
| Storage.Resolve | tracking/middleware.py:116-129 | a store fault always fails; an id lookup fails exactly when `int()` cannot read the id; a pair lookup fails exactly when more than one row has the pair; otherwise `DoesNotExist` exactly when no row answers the criteria, and a found row answers them |
| Storage.AtMostOneMatch | tracking/models.py:113 | under `unique_together` at most one row has a given pair |
| Storage.PairLookupNeverAmbiguous | tracking/models.py:113 | a pair lookup in a consistent table never fails unless the store does |
| Storage.SaveRow | tracking/models.py:39-48 | a save succeeds exactly when the store works, the row fits the columns and its pair is free; on success the row is stored under its own or the next id; on failure nothing changes |
| Storage.SavePreservesValid | tracking/models.py:113 | saving, successful or not, keeps every column limit and `unique_together` |
| Storage.SaveNewAddsOneRow | tracking/middleware.py:152 | the first save of a new visitor adds exactly one row, under a fresh id |
| Storage.Survivors | tracking/middleware.py:194 | exactly the rows not seen at or before the cutoff remain, unchanged |
| Storage.SurvivorsValid | tracking/middleware.py:194 | the bulk delete keeps the table consistent |
| Storage.Store.Get | tracking/middleware.py:117 | `Visitor.objects.get(**attrs)` answers as `Resolve` on the criteria read from `attrs` |
| Storage.Store.Save | tracking/middleware.py:151-154 | the table, the id counter and the caller's visitor become those of `SaveRow` |
| Storage.Store.DeleteSeenBy | tracking/middleware.py:194 | the table becomes `Survivors` of the old table |
| Storage.Store.AllUntrackedKeywords | tracking/middleware.py:72 | returns every keyword row and counts one full read |
| Storage.Store.AllBannedIps | tracking/middleware.py:211 | returns every banned-address row and counts one full read |
| Storage.Cache.Set | tracking/middleware.py:73 | the key now holds the rows until `now + timeout` |
| Signals.SixEventCodes | tracking/models.py:147-154 | the event codes are exactly click, hover, scroll, focus, submit and change |
| Signals.Events.constructor | tracking/signals.py:6-11 | one signal with arguments `data` and `user` per event code, and nothing registered |
| Signals.Events.Get | tracking/signals.py:13-14 | `get` is non-`None` exactly for the six event codes |
| Signals.Events.NewName | tracking/signals.py:16-17 | `new_name` returns the name, registers it as itself, changes no other entry and keeps the invariant |
| Signals.Events.RegisteredName | tracking/signals.py:19-20 | the name itself exactly when it was passed to `new_name`, `None` exactly when it never was |
| Signals.NewNameTwice | tracking/signals.py:16-20 | registering twice answers the name both times and leaves the registry as after the first call |
| Middleware.Session.Save | tracking/middleware.py:83-84 | a session without a key gets the fresh key; one with a key keeps it |
| Middleware.Session.Set | tracking/middleware.py:157 | the session entry is set and no other entry changes |
| Middleware.TidStored | tracking/middleware.py:119-126 | a new visitor's `tid` is the request's `tid` or `fb_source` when no cookie was sent, and empty otherwise |
| Middleware.MatchesKeyword | tracking/middleware.py:76-80 | the agent is excluded exactly when some keyword is a substring of it |
| Middleware.StartsWithAny | tracking/middleware.py:92-95 | the path is ignored exactly when it starts with some prefix |
| Middleware.PrefixesFrozen | tracking/middleware.py:37-57 | the built list extends the configured one; a frozen or already built list is returned as it is; media URLs (unless empty or `/`) and the refresh URL are ignored |
| Middleware.HitReadsNoRows | tracking/middleware.py:67-73 | on a cache hit the rows in the table play no part and the cache is unchanged |
| Middleware.RefillServesForTimeout | tracking/middleware.py:70-73 | in a cache that evicts nothing early, a reload is served for 3600 seconds whatever the table holds; the other snapshot is untouched; with an unchanged table every later check sees the same rows |
| Middleware.UntrackedKeywords | tracking/middleware.py:67-73 | the keyword snapshot is the cached one on a hit; on a miss all rows are read once and cached for 3600 seconds |
| Middleware.BannedIps | tracking/middleware.py:206-212 | the ban snapshot is the cached one on a hit; on a miss all rows are read once and cached for 3600 seconds |
| Middleware.Visit | tracking/middleware.py:131-150 | a visitor never seen before gets one page view, a session start at `now` and the referrer; a known one gets one more page view with session start and referrer kept; both get `url`, user, agent and `last_update = now` |
| Middleware.ReplayCountsPages | tracking/middleware.py:140-150 | over n tracked requests page views grow by exactly n; session start and referrer are fixed by the first request; identity is never changed |
| Middleware.ReplayKeepsChronology | tracking/middleware.py:146-150 | with a clock that never goes back, `session_start <= last_update` after every request |
| Middleware.VisitorCookie | tracking/middleware.py:167-181 | the cookie value reads back as the id; its max age is the session expiry; it uses the session cookie domain and path; it is neither secure nor HTTP-only |
| Middleware.CookieFindsVisitor | tracking/middleware.py:107-117 | a request carrying the cookie is looked up by id alone and finds the same row, whatever its session key or address |
| Middleware.SessionKey | tracking/middleware.py:82-89 | the session's key, saved once first when empty; `ip:agent` without a session |
| Middleware.FindVisitor | tracking/middleware.py:101-129 | the lookup is by cookie id when one is sent, else by pair; on a miss the visitor is new with the pair and the `tid` that aliasing lets through |
| Middleware.NoCookieAbortsOnlyOnError | tracking/middleware.py:113-129 | without a cookie, tracking aborts only when the store raises |
| Middleware.MissCreatesRowFromPair | tracking/middleware.py:118-127 | a visitor created on a miss carries the pair, never the cookie id, and starts with one page view; its save adds exactly one row under a fresh id |
| Middleware.UpdateActivity | tracking/middleware.py:131-150 | the step-by-step update yields `Visit` |
| Middleware.Record | tracking/middleware.py:151-157 | the table becomes that of `SaveRow`, the failure included; `request.visitor` and `session['visitor_id']` are set either way; without a session it raises; the table stays consistent |
| Middleware.Track | tracking/middleware.py:97-157 | a failed lookup aborts with nothing written; otherwise `Visit` of the found or new visitor is saved as `SaveRow` says and recorded on the request and session; the table stays consistent |
| Middleware.VisitorTrackingMiddleware.Prefixes | tracking/middleware.py:33-57 | the list is built once and shared with the settings, which are frozen; an already built or frozen list is returned unchanged |
| Middleware.VisitorTrackingMiddleware.ProcessRequest | tracking/middleware.py:59-157 | the ending is set by the AJAX, agent, prefix and lookup checks in order; earlier endings write nothing later; the session key is settled even for an ignored path; a tracked request saves `Visit` of the found or new visitor and records it; the table stays consistent |
| Middleware.VisitorTrackingMiddleware.ProcessResponse | tracking/middleware.py:159-183 | the cookie is set exactly when the id is truthy, with the session's entry taken before `request.visitor.pk`; otherwise the response is unchanged; without a session it raises |
| Middleware.CleanUp | tracking/middleware.py:188-194 | with an all-digit timeout exactly the visitors seen at or before `now - timeout hours` are deleted; otherwise nothing is; the table stays consistent |
| Middleware.CleanUpFiveHours | tracking/middleware.py:191-194 | with timeout 5, a visitor seen 10 hours ago is deleted and one seen an hour ago is kept, while the code as written raises |
| Middleware.ActiveSurvivesCleanUp | tracking/middleware.py:194 | a visitor listed as active survives a sweep whose timeout exceeds the activity window |
| Middleware.CheckBannedIp | tracking/middleware.py:205-216 | `Http404` exactly when the client address is in the ban snapshot; the cache and read count follow the snapshot rule |

## Left out

- Django's ORM, cache, session and cookie machinery is modelled only as maps
  and records: `Visitor.objects`, `cache.get/set`, `set_cookie`, `cookie_date`
  and `reverse`. Each URL that `reverse` could produce is an input.
- `utils.get_ip`, `utils.u_clean`, `utils.get_timeout` and
  `utils.get_cleanup_timeout` are inputs or fields. `tracking/utils.py` is
  not part of this model.
- `unicode(user_agent, errors='ignore')` is not modelled. The user agent is
  taken as already decoded text.
- The wall clock (`datetime.now`, `time.time`) is the parameter `now`, in whole
  seconds. Microseconds and the `cookie_date` text of `expires` are not
  modelled.
- The following are not modelled:
  - logging and `traceback`;
  - GeoIP lookups and the thread-local `geo`;
  - `tracking/admin.py`.
- Concurrency is not modelled. This includes two requests racing to create
  the same pair, and concurrent cache refills.
- Query parameters keep one value per name. The copy of `request.GET` at line
  122 leaves its contents as they were, so it is not modelled.
- `Signal` objects are opaque values. Only their declared arguments are kept.
- Cache eviction before the timeout is not modelled. A cache backend may drop
  a snapshot early, or never store it, as the dummy backend does. Either
  causes an extra reload.
- `ugettext` translation of "unknown" is not modelled.
- `Text.DecimalValue`: `int()` also accepts a sign and surrounding whitespace;
  the model treats such cookie values as failing lookups.
- `Models.TimeOnSite`: the seconds component drops the microseconds of the
  timestamps.
- `page_views` is an unbounded natural. The model ignores
  the 32-bit limit of a `PositiveIntegerField`.
- `request.user` is an anonymous marker or a user id,
  not the `User` object.
- The following are pure schema without behaviour and are not modelled:
  - `PageVisit`;
  - the `TrackingEvent` fields;
  - `title_re`;
  - the `Meta` orderings.

## Findings

| source | as written | input that shows it | evidently intended | confidence | as-written member | corrected member |
|---|---|---|---|---|---|---|
| tracking/middleware.py:193 | `datetime.timedelta(hours=...)` where `datetime` is the class imported at line 1, which has no `timedelta` attribute, so every sweep with a configured timeout raises `AttributeError` and deletes nothing | `get_cleanup_timeout()` returning 5 with a visitor last seen 10 hours ago (`Middleware.CleanUpFiveHours`) | delete every visitor with `last_update <= now - 5 hours` | not executed | Middleware.CleanUpAsWritten | Middleware.CleanUp |
