/**
 The Codex account store as the object it is: its fields, and the sections of code that change them.
 The gated sections run from one await to the next while `provider_mutation` is held, so nothing else
 writes table or cache in between; each method is proved against the function the machine steps use.
 A failing database call is the parameter `dbOk`.
 */
module CodexStore {
  import opened Prelude
  import opened CodexIdentity
  import opened CodexTypes
  import opened CodexMachine
  import opened Decimals

  /** A gated read-modify-write from start to end. */
  function Section(st: Store, id: Id, m: Mutation, dbOk: bool): Store {
    if id in st.cache && Effect(m, st.cache[id]).Write? && dbOk
    then SaveToCache(st.(db := st.db[id := Effect(m, st.cache[id]).record]), id, Effect(m, st.cache[id]).record)
    else st
  }

  ghost predicate Coherent(st: Store) {
    SubMap(st.cache, st.db)
  }

  /** A section performs one sequential operation, on the table and on the cached copy alike. */
  lemma SectionIsPerform(st: Store, id: Id, m: Mutation)
    requires Coherent(st) && id in st.cache
    ensures Section(st, id, m, true).db == Perform(st.db, Mutated(id, m))
    ensures Section(st, id, m, true).cache == Perform(st.cache, Mutated(id, m))
    ensures Coherent(Section(st, id, m, true))
  {
  }

  // One machine step each.
  lemma ReadRuns(s: State, s': State, t: Tid, id: Id, m: Mutation, w: AfterWrite)
    requires t in s.tasks && s.tasks[t] == MutRead(id, m, w) && Next(s, Task(t, Run), s')
    ensures s' == StepMutRead(s, t, id, m, w)
  {
    hide Effect, AfterMutation, Perform;
  }

  lemma ReadStep(s: State, s': State, t: Tid, id: Id, m: Mutation, w: AfterWrite)
    requires t in s.tasks && s.tasks[t] == MutRead(id, m, w) && Next(s, Task(t, Run), s')
    ensures t in s'.tasks && s'.store == s.store
    ensures if id in s.store.cache && Effect(m, s.store.cache[id]).Write?
            then s'.tasks[t] == MutDb(id, m, w, Effect(m, s.store.cache[id]).record)
            else !s'.tasks[t].MutDb? && s'.gate.None?
  {
    hide Effect, Perform, Next;
    ReadRuns(s, s', t, id, m, w);
  }

  lemma DbStep(s: State, s': State, t: Tid, id: Id, m: Mutation, w: AfterWrite, next: Record)
    requires t in s.tasks && s.tasks[t] == MutDb(id, m, w, next) && Next(s, Task(t, Run), s')
    ensures s' == StepMutDb(s, t, id, m, w, next)
  {
    hide Effect, AfterMutation, Perform;
  }

  lemma CacheStep(s: State, s': State, t: Tid, id: Id, m: Mutation, w: AfterWrite, next: Record)
    requires t in s.tasks && s.tasks[t] == MutCache(id, m, w, next) && Next(s, Task(t, Run), s')
    ensures s'.store == SaveToCache(s.store, id, next) && s'.gate.None?
  {
    hide Effect, AfterMutation, Perform, SaveToCache;
  }

  /** Running the machine's gated steps without a pause changes the store as the section does. */
  lemma StepsRunTheSection(s: State, s1: State, s2: State, s3: State, t: Tid, id: Id, m: Mutation, w: AfterWrite)
    requires t in s.tasks && s.tasks[t] == MutRead(id, m, w)
    requires Next(s, Task(t, Run), s1)
    requires t in s1.tasks && s1.tasks[t].MutDb?
             ==> Next(s1, Task(t, Run), s2) && Next(s2, Task(t, Run), s3)
    ensures t in s1.tasks
    ensures (if s1.tasks[t].MutDb? then s3 else s1).store == Section(s.store, id, m, true)
    ensures (if s1.tasks[t].MutDb? then s3 else s1).gate.None?
  {
    hide Effect, Next, SaveToCache;
    ReadStep(s, s1, t, id, m, w);
    if s1.tasks[t].MutDb? {
      var next := s1.tasks[t].next;
      DbStep(s1, s2, t, id, m, w, next);
      CacheStep(s2, s3, t, id, m, w, next);
    }
  }

  /** The identity rules over the fields, for every account at once. */
  lemma AnyTarget(m: map<Id, Record>, imported: Record)
    ensures forall id :: id in m && IsTarget(m, imported, id) ==> LandsRight(m, imported, id)
    ensures NoTarget(m, imported) <==>
            forall id :: id in m ==> !SameUser(imported, m[id]) && !SameAddress(imported, m[id])
  {
    hide IsTarget, NoTarget, LandsRight, SameUser, SameAddress;
    forall id | id in m && IsTarget(m, imported, id) ensures LandsRight(m, imported, id) {
      TargetsOverFields(m, imported, id);
    }
    TargetsOverFields(m, imported, "");
  }

  // ---------- names of new accounts ----------

  function Candidate(part: string, suffix: nat): string {
    if suffix == 0 then "codex-" + part + ".json" else "codex-" + part + "-" + Decimal(suffix) + ".json"
  }

  /** The names are `codex-part.json` and then `codex-part-n.json`, with n in digits. */
  lemma NamesOfTheSeries(part: string, n: nat) returns (digits: string)
    ensures n == 0 ==> Candidate(part, n) == "codex-" + part + ".json"
    ensures n > 0 ==> Candidate(part, n) == "codex-" + part + "-" + digits + ".json"
    ensures Read(digits) == n && digits != "" && (n > 0 ==> digits[0] != '0')
    ensures forall i :: 0 <= i < |digits| ==> '0' <= digits[i] <= '9'
  {
    digits := Decimal(n);
    DecimalReads(n);
  }

  /** The series never repeats a name, so it outruns any finite cache. */
  lemma CandidatesDiffer(part: string, a: nat, b: nat)
    requires Candidate(part, a) == Candidate(part, b)
    ensures a == b
  {
    var stem := "codex-" + part;
    var x, y := Candidate(part, a), Candidate(part, b);
    assert |x| == |stem| + (if a == 0 then 5 else 6 + |Decimal(a)|);
    assert |y| == |stem| + (if b == 0 then 5 else 6 + |Decimal(b)|);
    if a != 0 && b != 0 {
      assert x[|stem| + 1..|x| - 5] == Decimal(a);
      assert y[|stem| + 1..|y| - 5] == Decimal(b);
      DecimalsDiffer(a, b);
    }
  }

  lemma NamesDiffer(part: string)
    ensures forall a: nat, b: nat :: Candidate(part, a) == Candidate(part, b) ==> a == b
  {
    forall a: nat, b: nat | Candidate(part, a) == Candidate(part, b) ensures a == b {
      CandidatesDiffer(part, a, b);
    }
  }

  class CodexAccountStore {
    var db: map<Id, Record>
    var cache: map<Id, Record>
    var rejectedAccessTokens: map<Id, string>
    var rejectedRefreshTokens: map<Id, string>
    var tokenRefreshing: set<Id>
    var tokenRefreshCooldowns: map<Id, Cooldown>

    function Value(): Store
      reads this
    {
      Store(db, cache, rejectedAccessTokens, rejectedRefreshTokens, tokenRefreshing, tokenRefreshCooldowns)
    }

    constructor (rows: map<Id, Record>)
      ensures Value() == Store(rows, map[], map[], map[], {}, map[])
      ensures Coherent(Value())
    {
      db := rows;
      cache := map[];
      rejectedAccessTokens := map[];
      rejectedRefreshTokens := map[];
      tokenRefreshing := {};
      tokenRefreshCooldowns := map[];
    }

    method SaveRecordUnlocked(id: Id, record: Record, dbOk: bool) returns (ok: bool)
      modifies this
      ensures ok == dbOk
      ensures Value() == if dbOk then SaveToCache(old(Value()).(db := old(db)[id := record]), id, record)
                         else old(Value())
    {
      if !dbOk {
        return false;
      }
      db := db[id := record];
      if id in rejectedAccessTokens && OtherAccess(record, rejectedAccessTokens[id]) {
        rejectedAccessTokens := rejectedAccessTokens - {id};
      }
      if id in rejectedRefreshTokens && OtherRefresh(record, rejectedRefreshTokens[id]) {
        rejectedRefreshTokens := rejectedRefreshTokens - {id};
      }
      cache := cache[id := record];
      return true;
    }

    method SetAutoRefresh(id: Id, enabled: bool, dbOk: bool) returns (ok: bool)
      modifies this
      ensures Value() == Section(old(Value()), id, SetAuto(enabled), dbOk)
      ensures ok == (id in old(cache) && old(cache)[id].credential.Oauth? && dbOk)
    {
      if id !in cache {
        return false;
      }
      var record := cache[id];
      if !record.credential.Oauth? {
        return false;
      }
      record := record.(credential := Oauth(record.credential.oauth.(autoRefresh := enabled)));
      ok := SaveRecordUnlocked(id, record, dbOk);
    }

    /** A threshold outside 0 to 100 is refused before anything is read. */
    method SetQuotaThreshold(id: Id, percent: Option<real>, dbOk: bool) returns (ok: bool)
      modifies this
      ensures ok == ((percent.Some? ==> 0.0 <= percent.value <= 100.0) && id in old(cache) && dbOk)
      ensures Value() == if ok then Section(old(Value()), id, SetThreshold(percent), true) else old(Value())
    {
      if percent.Some? && !(0.0 <= percent.value <= 100.0) {
        return false;
      }
      if id !in cache {
        return false;
      }
      ok := SaveRecordUnlocked(id, cache[id].(threshold := percent), dbOk);
    }

    method MarkInvalidIfCredentialMatches(id: Id, failed: Record, dbOk: bool) returns (ok: bool)
      modifies this
      ensures Value() == Section(old(Value()), id, MarkInvalid(failed), dbOk)
      ensures ok == (id in old(cache) && (WasRefreshed(failed, old(cache)[id]) || dbOk))
    {
      if id !in cache {
        return false;
      }
      var current := cache[id];
      if WasRefreshed(failed, current) {
        return true;
      }
      ok := SaveRecordUnlocked(id, current.(status := Invalid), dbOk);
    }

    method PersistQuotaCache(id: Id, quota: Quota, dbOk: bool) returns (ok: bool)
      modifies this
      ensures Value() == Section(old(Value()), id, CommitQuota(quota), dbOk)
      ensures ok == (id in old(cache) && dbOk)
    {
      if id !in cache {
        return false;
      }
      ok := SaveRecordUnlocked(id, cache[id].(quota := quota), dbOk);
    }

    /** The gated tail of `refresh_record`: merge onto the record as it is now, or discard. */
    method CommitRefreshed(id: Id, sent: Record, refreshed: Record, now: int, dbOk: bool) returns (ok: bool)
      requires refreshed.credential.Oauth?
      modifies this
      ensures Value() == Section(old(Value()), id, CommitRefresh(sent, refreshed), dbOk)
      ensures ok <==> id in old(cache)
                      && (WasRefreshed(sent, old(cache)[id])
                          || (dbOk && id in cache && EffectiveStatus(cache[id], now) != Expired))
    {
      if id !in cache {
        return false;
      }
      var current := cache[id];
      if WasRefreshed(sent, current) {
        return true;
      }
      var credential := refreshed.credential;
      if current.credential.Oauth? {
        credential := Oauth(credential.oauth.(
          autoRefresh := current.credential.oauth.autoRefresh,
          deviceId := current.credential.oauth.deviceId));
      }
      var status := if current.status == Invalid then Invalid else Active;
      current := current.(credential := credential, status := status, accountId := refreshed.accountId,
                          userId := refreshed.userId, email := refreshed.email);
      ok := SaveRecordUnlocked(id, current, dbOk);
      // a token that has already run out is stored, and still an error for the caller
      if ok && EffectiveStatus(current, now) == Expired {
        return false;
      }
    }

    /** What a late 401 does under the gate; `go` tells whether a refresh follows. */
    method RejectAccessToken(id: Id, token: string) returns (go: bool)
      modifies this`rejectedAccessTokens
      ensures var hit := id in cache && cache[id].status != Invalid && cache[id].credential.Oauth?
                         && cache[id].credential.oauth.access == token;
              && rejectedAccessTokens == (if hit then old(rejectedAccessTokens)[id := token]
                                          else old(rejectedAccessTokens))
              && go == (hit && CanAutoRefresh(cache[id]))
    {
      if id !in cache {
        return false;
      }
      var record := cache[id];
      if record.status == Invalid || !record.credential.Oauth? {
        return false;
      }
      if record.credential.oauth.access != token {
        return false;
      }
      rejectedAccessTokens := rejectedAccessTokens[id := token];
      return CanAutoRefresh(record);
    }

    method DeleteAccount(id: Id, dbOk: bool) returns (ok: bool)
      modifies this
      ensures ok == (dbOk && id in old(db))
      ensures Value() == if ok then DropFromCache(old(Value()).(db := Without(old(db), id)), id) else old(Value())
    {
      if !dbOk || id !in db {
        return false;
      }
      db := db - {id};
      cache := cache - {id};
      rejectedAccessTokens := rejectedAccessTokens - {id};
      rejectedRefreshTokens := rejectedRefreshTokens - {id};
      return true;
    }

    /** A restore replaces table and cache; marks and cooldowns stay as they are. */
    method RestoreAllRecords(snapshot: map<Id, Record>, dbOk: bool) returns (ok: bool)
      modifies this`db, this`cache
      ensures ok == dbOk
      ensures if ok then db == snapshot && cache == snapshot else db == old(db) && cache == old(cache)
    {
      if !dbOk {
        return false;
      }
      db := snapshot;
      cache := snapshot;
      return true;
    }

    method ReloadCacheUnlocked(dbOk: bool) returns (ok: bool)
      modifies this`cache
      ensures ok == dbOk && cache == if ok then db else old(cache)
    {
      if dbOk {
        cache := db;
      }
      return dbOk;
    }

    /** At most one caller gets the permit of an account until it is dropped. */
    method StartTokenRefresh(id: Id) returns (granted: bool)
      modifies this`tokenRefreshing
      ensures granted == (id !in old(tokenRefreshing))
      ensures tokenRefreshing == old(tokenRefreshing) + {id}
    {
      if id in tokenRefreshing {
        return false;
      }
      tokenRefreshing := tokenRefreshing + {id};
      return true;
    }

    method DropPermit(id: Id)
      modifies this`tokenRefreshing
      ensures tokenRefreshing == old(tokenRefreshing) - {id}
    {
      tokenRefreshing := tokenRefreshing - {id};
    }

    /** The cooldown left by a finished refresh round. */
    method NoteOutcome(id: Id, outcome: Outcome, now: int)
      modifies this`tokenRefreshCooldowns
      ensures tokenRefreshCooldowns ==
              match outcome
              case Got(_) => old(tokenRefreshCooldowns)[id := Cooldown(now + 30, false)]
              case Transient => old(tokenRefreshCooldowns)[id := Cooldown(now + 300, true)]
              case Relogin => old(tokenRefreshCooldowns)
    {
      if outcome.Got? {
        tokenRefreshCooldowns := tokenRefreshCooldowns[id := Cooldown(now + 30, false)];
      } else if outcome.Transient? {
        tokenRefreshCooldowns := tokenRefreshCooldowns[id := Cooldown(now + 300, true)];
      }
    }

    /** Scans the cache for the account an import lands on: by user first, then by e-mail. */
    method FindExistingImportTarget(imported: Record) returns (target: Option<Id>)
      ensures target.Some? ==> IsTarget(cache, imported, target.value)
      ensures target.None? ==> NoTarget(cache, imported)
      ensures target.Some? ==> target.value in cache && LandsRight(cache, imported, target.value)
      ensures target.None? <==>
              forall id :: id in cache ==> !SameUser(imported, cache[id]) && !SameAddress(imported, cache[id])
    {
      AnyTarget(cache, imported);
      var todo := cache.Keys;
      while todo != {}
        invariant todo <= cache.Keys
        invariant forall id :: id in cache && id !in todo ==> !UserMatch(imported, cache[id])
      {
        var id :| id in todo;
        if UserMatch(imported, cache[id]) {
          return Some(id);
        }
        todo := todo - {id};
      }
      todo := cache.Keys;
      while todo != {}
        invariant todo <= cache.Keys
        invariant forall id :: id in cache && id !in todo ==> !EmailMatch(imported, cache[id])
      {
        var id :| id in todo;
        if EmailMatch(imported, cache[id]) {
          return Some(id);
        }
        todo := todo - {id};
      }
      return None;
    }

    /** The first free name in the series `codex-part.json`, `codex-part-1.json`, … */
    method UniqueAccountId(part: string) returns (id: Id)
      ensures id !in cache
      ensures exists n: nat :: n <= |cache| && id == Candidate(part, n)
                && forall k: nat :: k < n ==> Candidate(part, k) in cache
    {
      var suffix: nat := 0;
      while Candidate(part, suffix) in cache
        invariant forall k: nat :: k < suffix ==> Candidate(part, k) in cache
        invariant suffix <= |cache|
        decreases |cache| - suffix
      {
        NamesDiffer(part);
        TakenNamesAreFew((k: nat) => Candidate(part, k), suffix + 1, cache.Keys);
        suffix := suffix + 1;
      }
      id := Candidate(part, suffix);
    }

    /** An import from start to end: find the target or name a new account, merge, save, clear the cooldown. */
    method SaveNewAccount(imported: Record, part: string, dbOk: bool) returns (id: Id, ok: bool)
      requires Coherent(Value())
      modifies this
      ensures ok == dbOk && Coherent(Value())
      ensures LandsRight(old(db), imported, id)
      ensures db == if ok then Perform(old(db), Imported(id, imported)) else old(db)
      ensures cache == db
      ensures tokenRefreshCooldowns ==
              if ok && id in old(db) && NewTokens(old(db)[id], imported)
              then Without(old(tokenRefreshCooldowns), id) else old(tokenRefreshCooldowns)
    {
      var loaded := ReloadCacheUnlocked(true);
      var target := FindExistingImportTarget(imported);
      if target.Some? {
        id := target.value;
        var existing := cache[id];
        ok := SaveRecordUnlocked(id, MergeImport(existing, imported), dbOk);
        if ok && NewTokens(existing, imported) {
          tokenRefreshCooldowns := tokenRefreshCooldowns - {id};
        }
      } else {
        id := UniqueAccountId(part);
        ok := SaveRecordUnlocked(id, imported, dbOk);
      }
    }
  }

  // ---------- waiting for another task's refresh ----------

  /**
   `wait_for_token_refresh` up to the reload: `clock(k)` is the time in milliseconds of the k-th look and
   `busy(k)` whether the permit is still taken then; the sleep between two looks lasts at least 50 ms.
   */
  method WaitForTokenRefresh(busy: nat -> bool, clock: nat -> int) returns (released: bool, looks: nat)
    requires forall k: nat :: clock(k + 1) >= clock(k) + 50
    ensures 1 <= looks <= 701
    ensures forall k: nat :: k < looks - 1 ==> busy(k) && clock(k) < clock(0) + 35_000
    ensures released <==> !busy(looks - 1)
    ensures !released ==> clock(looks - 1) >= clock(0) + 35_000
  {
    var deadline := clock(0) + 35_000;
    looks := 0;
    while true
      invariant clock(looks) >= clock(0) + 50 * looks
      invariant forall k: nat :: k < looks ==> busy(k) && clock(k) < deadline
      invariant looks > 0 ==> clock(0) + 50 * (looks - 1) <= clock(looks - 1)
      decreases deadline - clock(looks)
    {
      if !busy(looks) {
        return true, looks + 1;
      }
      if clock(looks) >= deadline {
        return false, looks + 1;
      }
      looks := looks + 1;
    }
  }
}
