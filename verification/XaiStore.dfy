/**
 The xAI account store as the object it is.  The locked sections run here without a pause; each method
 is proved against the operation it performs on the table.  A failing database call is `dbOk`.
 */
module XaiStore {
  import opened Prelude
  import opened Decimals
  import opened XaiQuota
  import opened XaiTypes
  import opened XaiMachine
  import opened XaiRows

  /** The table after the update `u` of account `id`, and whether the caller is told it went well. */
  predicate Succeeds(db: map<Id, Record>, id: Id, u: Update, now: int, dbOk: bool) {
    id in db && (Effect(u, db[id], now).Write? ==> dbOk)
  }

  /** The identity rules over the fields, for every account at once. */
  lemma AnyMatch(m: map<Id, Record>, imported: Record)
    ensures forall id :: id in m ==> (SameAccount(imported, m[id]) <==> SamePerson(imported, m[id]))
    ensures NoMatchIn(m, imported) <==> forall id :: id in m ==> !SamePerson(imported, m[id])
  {
    hide SameAccount, SamePerson;
    forall id | id in m ensures SameAccount(imported, m[id]) <==> SamePerson(imported, m[id]) {
      MatchesOverFields(imported, m[id]);
    }
  }

  // ---------- names of new accounts ----------

  const NAMES := 10_000

  /** The n-th name tried: the bare name, then the suffixes from 2 on. */
  function Candidate(part: string, n: nat): string {
    if n == 0 then "xai-" + part else "xai-" + part + "-" + Decimal(n + 1)
  }

  /** The names are `xai-part` and then `xai-part-k`, with k = n + 1 in digits. */
  lemma NamesOfTheSeries(part: string, n: nat) returns (digits: string)
    ensures n == 0 ==> Candidate(part, n) == "xai-" + part
    ensures n > 0 ==> Candidate(part, n) == "xai-" + part + "-" + digits
    ensures Read(digits) == n + 1 && digits != "" && digits[0] != '0'
    ensures forall i :: 0 <= i < |digits| ==> '0' <= digits[i] <= '9'
  {
    digits := Decimal(n + 1);
    DecimalReads(n + 1);
  }

  lemma CandidatesDiffer(part: string, a: nat, b: nat)
    requires Candidate(part, a) == Candidate(part, b)
    ensures a == b
  {
    var stem := "xai-" + part;
    var x, y := Candidate(part, a), Candidate(part, b);
    assert |x| == |stem| + (if a == 0 then 0 else 1 + |Decimal(a + 1)|);
    assert |y| == |stem| + (if b == 0 then 0 else 1 + |Decimal(b + 1)|);
    if a != 0 && b != 0 {
      assert x[|stem| + 1..] == Decimal(a + 1);
      assert y[|stem| + 1..] == Decimal(b + 1);
      DecimalsDiffer(a + 1, b + 1);
    }
  }

  lemma NamesDiffer(part: string)
    ensures forall a: nat, b: nat :: Candidate(part, a) == Candidate(part, b) ==> a == b
  {
    forall a: nat, b: nat | Candidate(part, a) == Candidate(part, b) ensures a == b {
      CandidatesDiffer(part, a, b);
    }
  }

  /** The record with the response merged in, field by field. */
  method Merged(latest: Record, resp: Response, claims: Option<Claims>, now: int) returns (record: Record)
    ensures record == MergeResponse(latest, resp, claims, now)
  {
    hide Blank, Trim;
    record := latest.(access := resp.access);
    if !Blank(resp.refresh) {
      record := record.(refresh := resp.refresh);
    }
    if !Blank(resp.idToken) {
      record := record.(idToken := resp.idToken);
    }
    if !Blank(resp.tokenType) {
      record := record.(tokenType := resp.tokenType);
    }
    record := record.(expiresAt := Stamp.At(now + if resp.expiresIn <= 0 then 3600 else resp.expiresIn),
                      lastRefresh := Some(now), status := Active);
    assert record == latest.(
      access := resp.access,
      refresh := if Blank(resp.refresh) then latest.refresh else resp.refresh,
      idToken := if Blank(resp.idToken) then latest.idToken else resp.idToken,
      tokenType := if Blank(resp.tokenType) then latest.tokenType else resp.tokenType,
      expiresAt := record.expiresAt, lastRefresh := Some(now), status := Active);
    if claims.Some? {
      if claims.value.email.Some? && !Blank(claims.value.email.value) {
        record := record.(email := Some(Trim(claims.value.email.value)));
      }
      if claims.value.subject.Some? && !Blank(claims.value.subject.value) {
        record := record.(subject := Some(Trim(claims.value.subject.value)));
      }
    }
  }

  class XaiAccountStore {
    var db: map<Id, Record>
    var cache: map<Id, Record>
    var tokenRefreshing: set<Id>

    ghost predicate Coherent()
      reads this
    {
      SubMap(cache, db)
    }

    constructor (rows: map<Id, Record>)
      ensures db == rows && cache == map[] && tokenRefreshing == {}
    {
      db, cache, tokenRefreshing := rows, map[], {};
    }

    /** Drops the cached entry, writes the row, and only then shows it again. */
    method SaveRecordLocked(id: Id, record: Record, dbOk: bool) returns (ok: bool)
      requires Coherent()
      modifies this`db, this`cache
      ensures Coherent() && ok == dbOk
      ensures db == if ok then old(db)[id := record] else old(db)
      ensures cache == if ok then old(cache)[id := record] else old(cache) - {id}
    {
      cache := cache - {id};
      if !dbOk {
        return false;
      }
      db := db[id := record];
      cache := cache[id := record];
      return true;
    }

    method DeleteAccount(id: Id, dbOk: bool) returns (ok: bool)
      requires Coherent()
      modifies this`db, this`cache
      ensures Coherent() && ok == (dbOk && id in old(db))
      ensures db == if ok then old(db) - {id} else old(db)
      ensures cache == old(cache) - {id}
    {
      cache := cache - {id};
      if !dbOk || id !in db {
        return false;
      }
      db := db - {id};
      return true;
    }

    method RefreshCache(dbOk: bool) returns (ok: bool)
      requires Coherent()
      modifies this`cache
      ensures Coherent() && ok == dbOk && cache == if ok then db else old(cache)
    {
      if dbOk {
        cache := db;
      }
      return dbOk;
    }

    /** The account as the table has it; a miss reloads the whole cache once. */
    method LoadAccount(id: Id, dbOk: bool) returns (r: Option<Record>)
      requires Coherent()
      modifies this`cache
      ensures Coherent()
      ensures r.Some? ==> Get(db, id) == r
      ensures r.None? <==> id !in db || (id !in old(cache) && !dbOk)
      ensures cache == if id in old(cache) || !dbOk then old(cache) else db
    {
      if id in cache {
        return Some(cache[id]);
      }
      var ok := RefreshCache(dbOk);
      if !ok {
        return None;
      }
      return Get(cache, id);
    }

    /** A refresh result is merged onto the record as it is now, or discarded. */
    method PersistTokenResponse(id: Id, attempted: Record, resp: Response, claims: Option<Claims>, now: int, dbOk: bool)
      returns (ok: bool)
      requires Coherent()
      modifies this`db, this`cache
      ensures Coherent()
      ensures ok ==> Succeeds(old(db), id, Token(attempted, resp, claims), now, dbOk)
      ensures dbOk && id in old(db) ==> ok
      ensures db == if ok then Perform(old(db), Updated(id, Token(attempted, resp, claims), now)) else old(db)
      ensures ok && attempted.access == old(db)[id].access && attempted.refresh == old(db)[id].refresh
              && attempted.endpoint == old(db)[id].endpoint
              ==> Shows(db[id], old(db)[id], resp, claims, now)
    {
      var latest := LoadAccount(id, dbOk);
      if latest.None? {
        return false;
      }
      var record := latest.value;
      if attempted.access != record.access || attempted.refresh != record.refresh
         || attempted.endpoint != record.endpoint {
        return true;
      }
      hide MergeResponse, Shows;
      MergedShowsTheResponse(record, resp, claims, now);
      record := Merged(record, resp, claims, now);
      ok := SaveRecordLocked(id, record, dbOk);
    }

    method MarkInvalidIfCredentialsMatch(id: Id, attempted: Record, now: int, dbOk: bool) returns (ok: bool)
      requires Coherent()
      modifies this`db, this`cache
      ensures Coherent()
      ensures ok ==> Succeeds(old(db), id, InvalidGrant(attempted), now, dbOk)
      ensures dbOk && id in old(db) ==> ok
      ensures db == if ok then Perform(old(db), Updated(id, InvalidGrant(attempted), now)) else old(db)
    {
      var latest := LoadAccount(id, dbOk);
      if latest.None? {
        return false;
      }
      var record := latest.value;
      if attempted.access != record.access || attempted.refresh != record.refresh
         || attempted.endpoint != record.endpoint {
        return true;
      }
      ok := SaveRecordLocked(id, record.(status := Invalid), dbOk);
    }

    method SetAutoRefresh(id: Id, enabled: bool, now: int, dbOk: bool) returns (ok: bool)
      requires Coherent()
      modifies this`db, this`cache
      ensures Coherent() && ok == (dbOk && id in old(db))
      ensures db == if ok then Perform(old(db), Updated(id, SetAuto(enabled), now)) else old(db)
    {
      var latest := LoadAccount(id, dbOk);
      if latest.None? {
        return false;
      }
      ok := SaveRecordLocked(id, latest.value.(autoRefresh := enabled), dbOk);
    }

    method PersistQuotaCache(id: Id, quota: QuotaCache, now: int, dbOk: bool) returns (ok: bool)
      requires Coherent()
      modifies this`db, this`cache
      ensures Coherent() && ok == (dbOk && id in old(db))
      ensures db == if ok then Perform(old(db), Updated(id, MergeQuota(quota), now)) else old(db)
    {
      var latest := LoadAccount(id, dbOk);
      if latest.None? {
        return false;
      }
      var merged := MergeQuotaCache(latest.value.quota, quota);
      ok := SaveRecordLocked(id, latest.value.(quota := merged), dbOk);
    }

    /** The part of `record_quota_headers` under the locks. */
    method RecordQuotaHeaders(id: Id, headers: Headers, expected: string, now: int, dbOk: bool) returns (ok: bool)
      requires Coherent()
      modifies this`db, this`cache
      ensures Coherent()
      ensures ok ==> Succeeds(old(db), id, QuotaHeaders(headers, expected), now, dbOk)
      ensures dbOk && id in old(db) ==> ok
      ensures db == if ok then Perform(old(db), Updated(id, QuotaHeaders(headers, expected), now)) else old(db)
    {
      var latest := LoadAccount(id, dbOk);
      if latest.None? {
        return false;
      }
      if latest.value.access != expected {
        return true;
      }
      if !QuotaDue(latest.value.quota.checkedAt, now) {
        return true;
      }
      var next := ObserveQuotaHeaders(latest.value.quota, headers, now);
      if next.None? {
        return true;
      }
      ok := SaveRecordLocked(id, latest.value.(quota := next.value), dbOk);
    }

    method StartTokenRefresh(id: Id) returns (granted: bool)
      modifies this`tokenRefreshing
      ensures granted == (id !in old(tokenRefreshing)) && tokenRefreshing == old(tokenRefreshing) + {id}
    {
      if id in tokenRefreshing {
        return false;
      }
      tokenRefreshing := tokenRefreshing + {id};
      return true;
    }

    method FindExistingAccount(imported: Record) returns (found: Option<Id>)
      ensures found.Some? ==> found.value in cache && SameAccount(imported, cache[found.value])
      ensures found.None? ==> NoMatchIn(cache, imported)
      ensures found.Some? ==> SamePerson(imported, cache[found.value])
      ensures found.None? <==> forall id :: id in cache ==> !SamePerson(imported, cache[id])
    {
      AnyMatch(cache, imported);
      var todo := cache.Keys;
      while todo != {}
        invariant todo <= cache.Keys
        invariant forall id :: id in cache && id !in todo ==> !SameAccount(imported, cache[id])
      {
        var id :| id in todo;
        if SameAccount(imported, cache[id]) {
          return Some(id);
        }
        todo := todo - {id};
      }
      return None;
    }

    /** The first free name among `xai-part`, `xai-part-2`, …, `xai-part-10000`, if there is one. */
    method UniqueAccountId(part: string) returns (id: Option<Id>)
      ensures id.Some? ==> id.value !in cache
                           && exists n: nat :: n < NAMES && id.value == Candidate(part, n)
                                && forall k: nat :: k < n ==> Candidate(part, k) in cache
      ensures id.None? <==> forall k: nat :: k < NAMES ==> Candidate(part, k) in cache
      ensures |cache| < NAMES ==> id.Some?
    {
      if Candidate(part, 0) !in cache {
        return Some(Candidate(part, 0));
      }
      for suffix := 2 to 10_001
        invariant forall k: nat :: k < suffix - 1 ==> Candidate(part, k) in cache
      {
        if Candidate(part, suffix - 1) !in cache {
          return Some(Candidate(part, suffix - 1));
        }
      }
      NamesDiffer(part);
      TakenNamesAreFew((k: nat) => Candidate(part, k), NAMES, cache.Keys);
      return None;
    }

    /** An import or login: reuse the account of the same subject or e-mail, or create one. */
    method SaveNewAccount(imported: Record, part: string, dbOk: bool) returns (id: Id, ok: bool)
      requires Coherent()
      modifies this`db, this`cache
      ensures Coherent()
      ensures ok ==> dbOk && if id in old(db) then SamePerson(imported, old(db)[id])
                             else forall other :: other in old(db) ==> !SamePerson(imported, old(db)[other])
      ensures dbOk && |old(db)| < NAMES ==> ok
      ensures cache == if dbOk then db else old(cache)
      ensures db == if ok then Perform(old(db), Imported(id, imported)) else old(db)
    {
      id := "";
      var listed := RefreshCache(dbOk);
      if !listed {
        return id, false;
      }
      var found := FindExistingAccount(imported);
      if found.Some? {
        id := found.value;
        var existing := LoadAccount(id, dbOk);
        var record := imported.(autoRefresh := existing.value.autoRefresh, status := Active,
                                quota := existing.value.quota);
        ok := SaveRecordLocked(id, record, dbOk);
      } else {
        var name := UniqueAccountId(part);
        if name.None? {
          return id, false;
        }
        id := name.value;
        ok := SaveRecordLocked(id, imported, dbOk);
      }
    }

    method RestoreAccountRecord(id: Id, record: Option<Record>, dbOk: bool) returns (ok: bool)
      requires Coherent()
      modifies this`db, this`cache
      ensures Coherent() && ok == dbOk
      ensures db == if ok then Install(old(db), One(id, record)) else old(db)
      ensures ok ==> Get(cache, id) == record
    {
      if !dbOk {
        return false;
      }
      if record.Some? {
        db := db[id := record.value];
        cache := cache[id := record.value];
      } else {
        db := db - {id};
        cache := cache - {id};
      }
      return true;
    }

    method RestoreAllRecords(snapshot: map<Id, Record>, dbOk: bool) returns (ok: bool)
      requires Coherent()
      modifies this`db, this`cache
      ensures Coherent() && ok == dbOk
      ensures if ok then db == snapshot && cache == snapshot else db == old(db) && cache == old(cache)
    {
      if !dbOk {
        return false;
      }
      db, cache := snapshot, snapshot;
      return true;
    }
  }

  // ---------- waiting for another task's refresh ----------

  datatype WaitEnd = Refreshed | NotUpdated | TimedOut

  /**
   `wait_for_token_refresh`.  At the k-th look, at `clock(k)` milliseconds, `busy(k)` tells whether the
   permit is taken and `moved(k)` whether the account loaded then differs; 50 ms of sleep precede each look.
   */
  method WaitForTokenRefresh(started: int, busy: nat -> bool, moved: nat -> bool, clock: nat -> int)
    returns (end: WaitEnd, looks: nat)
    requires clock(0) >= started + 50 && forall k: nat :: clock(k + 1) >= clock(k) + 50
    ensures 1 <= looks <= 700
    ensures forall k: nat :: k < looks - 1 ==> busy(k) && !moved(k) && clock(k) < started + 35_000
    ensures end.Refreshed? <==> moved(looks - 1)
    ensures end.NotUpdated? <==> !moved(looks - 1) && !busy(looks - 1)
    ensures end.TimedOut? ==> clock(looks - 1) >= started + 35_000
  {
    var deadline := started + 35_000;
    looks := 0;
    while true
      invariant clock(looks) >= started + 50 * (looks + 1)
      invariant looks < 700
      invariant forall k: nat :: k < looks ==> busy(k) && !moved(k) && clock(k) < deadline
      decreases 700 - looks
    {
      if moved(looks) {
        return Refreshed, looks + 1;
      }
      if !busy(looks) {
        return NotUpdated, looks + 1;
      }
      if clock(looks) >= deadline {
        return TimedOut, looks + 1;
      }
      looks := looks + 1;
    }
  }
}
