/**
 * The Django ORM tables and the cache the middleware talks to, reduced to
 * the operations it uses: `Visitor.objects.get`, `visitor.save()`, a bulk
 * delete, `objects.all()` on the two exclusion tables, and `cache.get/set`.
 */
module Storage {
  import opened Wrappers
  import opened Text
  import opened Models

  /** The keyword arguments of `Visitor.objects.get(**attrs)`. */
  datatype Criteria = ById(id: string) | ByPair(sessionKey: string, ipAddress: string)

  /** Reads the criteria out of an `attrs` dict: an `id` entry wins over the pair. */
  function CriteriaOf(attrs: map<string, string>): Criteria
  {
    if "id" in attrs then ById(attrs["id"])
    else ByPair(GetOr(attrs, "session_key", ""), GetOr(attrs, "ip_address", ""))
  }

  /** Row `id` answers the criteria (`id=...` is read with `int()`). */
  predicate Selects(c: Criteria, id: nat, v: Visitor)
  {
    match c
    case ById(text) => DecimalValue(text) == Some(id)
    case ByPair(sk, ip) => v.sessionKey == sk && v.ipAddress == ip
  }

  /** What `Visitor.objects.get` gives: a row, `DoesNotExist`, or any other exception. */
  datatype Lookup = Found(visitor: Visitor) | Missing | Failed

  ghost function Matching(vs: map<nat, Visitor>, sk: string, ip: string): set<nat>
  {
    set id | id in vs && vs[id].sessionKey == sk && vs[id].ipAddress == ip
  }

  /**
   * `Visitor.objects.get(**attrs)`. `fails` stands for a store that raises
   * (unreachable, timed out). An id `int()` cannot read raises `ValueError`;
   * two rows with the same pair raise `MultipleObjectsReturned`.
   */
  ghost function Resolve(vs: map<nat, Visitor>, c: Criteria, fails: bool): (r: Lookup)
    ensures r.Found? ==> exists id :: id in vs && vs[id] == r.visitor && Selects(c, id, vs[id])
    ensures r.Missing? ==> !fails && forall id :: id in vs ==> !Selects(c, id, vs[id])
    ensures fails ==> r == Failed
    ensures !fails && c.ById? ==> (r.Failed? <==> DecimalValue(c.id).None?)
    ensures !fails && c.ByPair? ==> (r.Failed? <==> |Matching(vs, c.sessionKey, c.ipAddress)| > 1)
    ensures !fails && !r.Failed? ==> (r.Missing? <==> forall id :: id in vs ==> !Selects(c, id, vs[id]))
  {
    if fails then Failed
    else match c
      case ById(text) =>
        (match DecimalValue(text)
         case None => Failed
         case Some(id) => if id in vs then Found(vs[id]) else Missing)
      case ByPair(sk, ip) =>
        var m := Matching(vs, sk, ip);
        if |m| == 0 then
          assert forall id :: id in vs ==> (id in m <==> Selects(c, id, vs[id]));
          Missing
        else if |m| == 1 then
          var id :| id in m;
          Found(vs[id])
        else Failed
  }

  /** A set with one element holds nothing else. */
  lemma OnlyMember(s: set<nat>, a: nat)
    requires |s| == 1 && a in s
    ensures s == {a}
  {
    var rest := s - {a};
    assert |rest| == 0;
  }

  /** Under `unique_together`, at most one row has a given pair. */
  lemma AtMostOneMatch(vs: map<nat, Visitor>, sk: string, ip: string)
    requires UniqueTogether(vs)
    ensures |Matching(vs, sk, ip)| <= 1
  {
    var m := Matching(vs, sk, ip);
    if m != {} {
      var a :| a in m;
      assert m == {a};
    }
  }

  /** Looking up by the pair in a consistent table never raises `MultipleObjectsReturned`. */
  lemma PairLookupNeverAmbiguous(vs: map<nat, Visitor>, sk: string, ip: string)
    requires UniqueTogether(vs)
    ensures Resolve(vs, ByPair(sk, ip), false) != Failed
  {
    AtMostOneMatch(vs, sk, ip);
  }

  /** The stored table: rows keyed by their own id, within the schema, ids below the counter, pairs unique. */
  ghost predicate ValidTable(vs: map<nat, Visitor>, nextId: nat)
  {
    && (forall id :: id in vs ==> vs[id].pk == Some(id) && FitsSchema(vs[id]) && id < nextId)
    && UniqueTogether(vs)
  }

  /** Another row than `id` already holds `v`'s (session_key, ip_address) pair. */
  predicate PairTaken(vs: map<nat, Visitor>, id: nat, v: Visitor)
  {
    exists other :: other in vs && other != id && vs[other].sessionKey == v.sessionKey
      && vs[other].ipAddress == v.ipAddress
  }

  /** The table after a `save()`, and the visitor object as the caller holds it afterwards. */
  datatype Saved = Saved(ok: bool, visitors: map<nat, Visitor>, nextId: nat, visitor: Visitor)

  /** The id a save writes to: the visitor's own, or the next free one for a new row. */
  function RowId(v: Visitor, nextId: nat): nat
  {
    if v.pk.Some? then v.pk.value else nextId
  }

  /**
   * `visitor.save()`: UPDATE row `pk`, or INSERT under the next id when `pk` is
   * unset. A `DatabaseError` (`fails`, a column too long or NULL, a
   * unique_together clash) leaves the table as it was and the object unsaved.
   */
  function SaveRow(vs: map<nat, Visitor>, nextId: nat, v: Visitor, fails: bool): (r: Saved)
    ensures r.ok <==> !fails && FitsSchema(v) && !PairTaken(vs, RowId(v, nextId), v)
    ensures r.ok ==>
      && r.visitor == v.(pk := Some(RowId(v, nextId)))
      && r.visitors == vs[RowId(v, nextId) := r.visitor]
      && r.nextId > RowId(v, nextId) && r.nextId >= nextId
    ensures !r.ok ==> r == Saved(false, vs, nextId, v)
  {
    var id := RowId(v, nextId);
    var row := v.(pk := Some(id));
    if fails || !FitsSchema(row) || PairTaken(vs, id, row) then Saved(false, vs, nextId, v)
    else Saved(true, vs[id := row], if id < nextId then nextId else id + 1, row)
  }

  /** Saving keeps the table consistent, whatever the outcome. */
  lemma SavePreservesValid(vs: map<nat, Visitor>, nextId: nat, v: Visitor, fails: bool)
    requires ValidTable(vs, nextId)
    ensures var r := SaveRow(vs, nextId, v, fails); ValidTable(r.visitors, r.nextId)
  {
    var r := SaveRow(vs, nextId, v, fails);
    if r.ok {
      var id := RowId(v, nextId);
      assert forall o :: o in r.visitors && o != id ==>
        r.visitors[o] == vs[o] && (vs[o].sessionKey != v.sessionKey || vs[o].ipAddress != v.ipAddress);
    }
  }

  /** Saving a new visitor adds exactly one row, under a fresh id. */
  lemma SaveNewAddsOneRow(vs: map<nat, Visitor>, nextId: nat, v: Visitor, fails: bool)
    requires ValidTable(vs, nextId) && v.pk.None?
    requires SaveRow(vs, nextId, v, fails).ok
    ensures var r := SaveRow(vs, nextId, v, fails);
      nextId !in vs && r.visitors.Keys == vs.Keys + {nextId} && |r.visitors| == |vs| + 1
  {
    var r := SaveRow(vs, nextId, v, fails);
    assert nextId !in vs;
    assert r.visitors.Keys == vs.Keys + {nextId};
  }

  /** Seen at or before `cutoff` (`last_update__lte`; a NULL `last_update` never matches). */
  predicate SeenBy(v: Visitor, cutoff: int)
  {
    v.lastUpdate.Some? && v.lastUpdate.value <= cutoff
  }

  /** The table once `filter(last_update__lte=cutoff).delete()` has run. */
  function Survivors(vs: map<nat, Visitor>, cutoff: int): (r: map<nat, Visitor>)
    ensures forall id :: id in r <==> id in vs && !SeenBy(vs[id], cutoff)
    ensures forall id :: id in r ==> r[id] == vs[id]
  {
    map id | id in vs && !SeenBy(vs[id], cutoff) :: vs[id]
  }

  /** Deleting rows keeps the table consistent. */
  lemma SurvivorsValid(vs: map<nat, Visitor>, nextId: nat, cutoff: int)
    requires ValidTable(vs, nextId)
    ensures ValidTable(Survivors(vs, cutoff), nextId)
  {
  }

  /** The visitor table and the two exclusion tables. */
  class Store {
    var visitors: map<nat, Visitor>
    var nextId: nat
    /** `UntrackedUserAgent.keyword` of every row. */
    var untrackedKeywords: seq<string>
    /** `BannedIP.ip_address` of every row. */
    var bannedIps: seq<string>
    /** How many times all rows of an exclusion table were read. */
    var listQueries: nat

    ghost predicate Valid()
      reads this
    {
      ValidTable(visitors, nextId)
    }

    constructor(untrackedKeywords: seq<string>, bannedIps: seq<string>)
      ensures Valid() && visitors == map[] && listQueries == 0
      ensures this.untrackedKeywords == untrackedKeywords && this.bannedIps == bannedIps
    {
      visitors := map[];
      nextId := 1;
      this.untrackedKeywords := untrackedKeywords;
      this.bannedIps := bannedIps;
      listQueries := 0;
    }

    /** `Visitor.objects.get(**attrs)`; `fails` says whether the store raises this time. */
    method Get(attrs: map<string, string>, fails: bool) returns (r: Lookup)
      ensures r == Resolve(visitors, CriteriaOf(attrs), fails)
    {
      if fails {
        return Failed;
      }
      match CriteriaOf(attrs)
      case ById(text) =>
        var id := DecimalValue(text);
        if id.None? {
          r := Failed;
        } else if id.value in visitors {
          r := Found(visitors[id.value]);
        } else {
          r := Missing;
        }
      case ByPair(sk, ip) =>
        var m := set id | id in visitors && visitors[id].sessionKey == sk && visitors[id].ipAddress == ip;
        assert m == Matching(visitors, sk, ip);
        if |m| == 0 {
          r := Missing;
        } else if |m| == 1 {
          var id :| id in m;
          OnlyMember(m, id);
          r := Found(visitors[id]);
        } else {
          r := Failed;
        }
    }

    /** `visitor.save()`; `fails` says whether the store raises `DatabaseError` this time. */
    method Save(v: Visitor, fails: bool) returns (saved: Visitor, ok: bool)
      modifies this`visitors, this`nextId
      ensures var s := SaveRow(old(visitors), old(nextId), v, fails);
        ok == s.ok && saved == s.visitor && visitors == s.visitors && nextId == s.nextId
    {
      var id := if v.pk.Some? then v.pk.value else nextId;
      var row := v.(pk := Some(id));
      ok := !fails && FitsSchema(row) && !PairTaken(visitors, id, row);
      if ok {
        visitors := visitors[id := row];
        if id >= nextId {
          nextId := id + 1;
        }
        saved := row;
      } else {
        saved := v;
      }
    }

    /** `Visitor.objects.filter(last_update__lte=cutoff).delete()`. */
    method DeleteSeenBy(cutoff: int)
      modifies this`visitors
      ensures visitors == Survivors(old(visitors), cutoff)
    {
      visitors := map id | id in visitors && !SeenBy(visitors[id], cutoff) :: visitors[id];
    }

    /** `[ua.keyword for ua in UntrackedUserAgent.objects.all()]`. */
    method AllUntrackedKeywords() returns (rows: seq<string>)
      modifies this`listQueries
      ensures rows == untrackedKeywords && listQueries == old(listQueries) + 1
    {
      rows := untrackedKeywords;
      listQueries := listQueries + 1;
    }

    /** `[b.ip_address for b in BannedIP.objects.all()]`. */
    method AllBannedIps() returns (rows: seq<string>)
      modifies this`listQueries
      ensures rows == bannedIps && listQueries == old(listQueries) + 1
    {
      rows := bannedIps;
      listQueries := listQueries + 1;
    }
  }

  /** A cached list and the time it stops being served. */
  datatype Snapshot = Snapshot(rows: seq<string>, expires: int)

  /** `cache.get(key)` at time `now`: `None` when absent or expired. */
  function Cached(entries: map<string, Snapshot>, key: string, now: int): Option<seq<string>>
  {
    if key in entries && now < entries[key].expires then Some(entries[key].rows) else None
  }

  /** The process-wide cache, one snapshot per key. */
  class Cache {
    var entries: map<string, Snapshot>

    constructor()
      ensures entries == map[]
    {
      entries := map[];
    }

    /** `cache.set(key, rows, timeout)` at time `now`. */
    method Set(key: string, rows: seq<string>, timeout: int, now: int)
      modifies this
      ensures entries == old(entries)[key := Snapshot(rows, now + timeout)]
    {
      entries := entries[key := Snapshot(rows, now + timeout)];
    }
  }
}
