/**
 The Kiro account store as the object it is.  The gated sections run here without a pause; each method is
 proved against the operation it performs on the table.  A failing database call is `dbOk`.
 */
module KiroStore {
  import opened Prelude
  import opened KiroContents
  import opened KiroMachine

  class KiroAccountStore {
    var db: map<Id, Record>
    var cache: map<Id, Record>
    var tokenRefreshing: set<Id>

    ghost predicate Coherent()
      reads this
    {
      SubMap(cache, db)
    }

    constructor (rows: map<Id, Record>)
      ensures db == rows && cache == map[] && tokenRefreshing == {}
    {
      db, cache, tokenRefreshing := rows, map[], {};
    }

    method SaveRecordUnlocked(id: Id, record: Record, dbOk: bool) returns (ok: bool)
      modifies this`db, this`cache
      ensures ok == dbOk
      ensures db == if ok then old(db)[id := record] else old(db)
      ensures cache == if ok then old(cache)[id := record] else old(cache)
    {
      if !dbOk {
        return false;
      }
      db := db[id := record];
      cache := cache[id := record];
      return true;
    }

    method ReloadCacheUnlocked(dbOk: bool) returns (ok: bool)
      modifies this`cache
      ensures ok == dbOk && cache == if ok then db else old(cache)
    {
      if dbOk {
        cache := db;
      }
      return dbOk;
    }

    method DeleteAccount(id: Id, dbOk: bool) returns (ok: bool)
      requires Coherent()
      modifies this`db, this`cache
      ensures Coherent() && ok == (dbOk && id in old(db))
      ensures db == if ok then Perform(old(db), Deleted(id)) else old(db)
      ensures cache == if ok then old(cache) - {id} else old(cache)
    {
      if !dbOk || id !in db {
        return false;
      }
      db := db - {id};
      cache := cache - {id};
      return true;
    }

    method RestoreAllRecords(snapshot: map<Id, Record>, dbOk: bool) returns (ok: bool)
      modifies this`db, this`cache
      ensures ok == dbOk
      ensures if ok then db == Perform(old(db), Restored(snapshot)) && cache == db
              else db == old(db) && cache == old(cache)
    {
      if !dbOk {
        return false;
      }
      db, cache := snapshot, snapshot;
      return true;
    }

    method StartTokenRefresh(id: Id) returns (granted: bool)
      modifies this`tokenRefreshing
      ensures granted == (id !in old(tokenRefreshing)) && tokenRefreshing == old(tokenRefreshing) + {id}
    {
      if id in tokenRefreshing {
        return false;
      }
      tokenRefreshing := tokenRefreshing + {id};
      return true;
    }

    /** The end of `refresh_record_with`, under the gate: `sent` went out, `result` came back or failed. */
    method CommitRefresh(id: Id, sent: Record, result: Option<Record>, now: int, dbOk: bool) returns (r: Option<Record>)
      requires Coherent()
      modifies this`db, this`cache
      ensures Coherent()
      ensures id !in old(cache) ==> r.None? && db == old(db)
      ensures id in old(cache) && old(cache)[id].cred != sent.cred ==> r == Some(old(cache)[id]) && db == old(db)
      ensures result.None? || !dbOk ==> db == old(db)
      ensures id in old(cache) && old(cache)[id].cred == sent.cred && result.Some? && dbOk
              ==> db == Perform(old(db), Refreshed(id, sent, result.value))
                  && (r.Some? <==> !IsExpired(result.value, now)) && (r.Some? ==> Get(db, id) == r)
                  && ShowsResult(db[id], old(db)[id], result.value)
    {
      if id !in cache {
        return None;
      }
      var latest := cache[id];
      if sent.cred != latest.cred {
        return Some(latest);
      }
      if result.None? {
        return None;
      }
      var refreshed := result.value;
      refreshed := refreshed.(email := latest.email.OrElse(refreshed.email));
      refreshed := refreshed.(quota := latest.quota);
      var saved := SaveRecordUnlocked(id, refreshed, dbOk);
      if !saved || IsExpired(refreshed, now) {
        return None;
      }
      return Some(refreshed);
    }
  }

  /**
   The wait of a follower: at the k-th look, at `clock(k)` milliseconds, `busy(k)` tells whether the
   permit is still taken; 20 ms of sleep lie between two looks.
   */
  method WaitForPermit(busy: nat -> bool, clock: nat -> int) returns (released: bool, looks: nat)
    requires forall k: nat :: clock(k + 1) >= clock(k) + 20
    ensures 1 <= looks <= 1751
    ensures forall k: nat :: k < looks - 1 ==> busy(k) && clock(k) < clock(0) + 35_000
    ensures released <==> !busy(looks - 1)
    ensures !released ==> clock(looks - 1) >= clock(0) + 35_000
  {
    var deadline := clock(0) + 35_000;
    looks := 0;
    while busy(looks)
      invariant clock(looks) >= clock(0) + 20 * looks
      invariant looks <= 1750
      invariant forall k: nat :: k < looks ==> busy(k) && clock(k) < deadline
      decreases 1750 - looks
    {
      if clock(looks) >= deadline {
        return false, looks + 1;
      }
      looks := looks + 1;
    }
    return true, looks + 1;
  }
}
