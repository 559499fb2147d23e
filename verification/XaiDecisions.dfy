/**
 What an xAI task decides at each of its turning points, said once more over the fields of the record and the
 store: who refreshes and who does not, what followers and header snapshots do, and what callers are told.
 Each lemma is about one step of the machine and covers every case of it.
 */
module XaiDecisions {
  import opened Prelude
  import opened XaiMachine
  import opened XaiQuota
  import opened XaiRows
  import opened XaiTypes

  /** The token has run out, runs out within five minutes, or nobody can tell. */
  predicate DueSoon(r: Record, now: int) {
    r.expiresAt.Unreadable? || r.expiresAt.seconds <= now + 300
  }

  /** The credentials or their times differ from those of `prev`. */
  predicate Renewed(prev: Record, now: Record) {
    !(prev.access == now.access && prev.refresh == now.refresh && prev.expiresAt == now.expiresAt
      && prev.lastRefresh == now.lastRefresh)
  }

  /** The step runs on from a load of `id` for `p`, which found what the cache holds. */
  predicate Loads(s: State, t: Tid, s': State, id: Id, p: Purpose) {
    Next(s, Task(t, Run), s') && t in s.tasks
    && ((s.tasks[t] == Load(id, p) && id in s.cache) || s.tasks[t] == LoadAgain(id, p))
  }

  predicate GoesTo(s: State, t: Tid, s': State, pc: Pc) {
    s' == s.(tasks := s.tasks[t := pc])
  }

  lemma LoadResumes(s: State, t: Tid, s': State, id: Id, p: Purpose)
    requires Loads(s, t, s', id, p)
    ensures s' == Resume(s, t, id, p, Get(s.cache, id))
  {
    hide Resume, Held;
  }

  /** What a task has answered is its last word: a task that is done takes no further step. */
  lemma DoneIsDone(s: State, t: Tid, e: Event, s': State)
    requires Step(s, t, e, s')
    ensures t in s.tasks ==> !s.tasks[t].Done?
  {
    hide Advance, AfterDbFail, Free;
  }

  // ---------- refreshes ----------

  /**
   A request for the record refreshes it exactly when the account is not invalid, its token is due, the user lets
   the store refresh it and there is a refresh token; otherwise it gets the record as it is, expired or not.
   A user's refresh needs a refresh token and nothing else.  The due loop also wants the account active.
   */
  lemma RefreshDecides(s: State, t: Tid, s': State, id: Id, how: How)
    requires Loads(s, t, s', id, ForRefresh(how))
    ensures id !in s.cache ==> GoesTo(s, t, s', Done(Failed))
    ensures id in s.cache ==>
              var r := s.cache[id];
              GoesTo(s, t, s',
                match how
                case GetRecord =>
                  if r.status != Invalid && DueSoon(r, s.now) && r.autoRefresh && !Blank(r.refresh)
                  then Start(id, r, GetRecord) else Done(Served(id, r))
                case Manual => if !Blank(r.refresh) then Start(id, r, Manual) else Done(Failed)
                case Due =>
                  if r.status == Active && DueSoon(r, s.now) && r.autoRefresh && !Blank(r.refresh)
                  then Start(id, r, Due) else Done(Nothing))
  {
    hide Blank, Held, Next;
    LoadResumes(s, t, s', id, ForRefresh(how));
  }

  /** One task gets the permit of an account and sends at once; the others follow it for at most 35 seconds. */
  lemma PermitDecides(s: State, t: Tid, s': State, id: Id, r: Record, how: How)
    requires Next(s, Task(t, Run), s') && t in s.tasks && s.tasks[t] == Start(id, r, how)
    ensures id in s.refreshing ==> GoesTo(s, t, s', Follow(id, r, s.now + 35, how))
    ensures id !in s.refreshing ==>
              s' == s.(refreshing := s.refreshing + {id}, permit := s.permit[id := t],
                       tasks := s.tasks[t := Exchange(id, r, how)])
  {
    hide Held;
  }

  predicate Answers(pc: Pc, how: How, id: Id, r: Record) {
    pc == Done(if how == GetRecord then Served(id, r) else Nothing)
  }

  /** A follower gets the record once it was renewed, and gives up when the permit is free or its time is up. */
  lemma FollowDecides(s: State, t: Tid, s': State, id: Id, prev: Record, deadline: int, busy: bool, how: How)
    requires Loads(s, t, s', id, ForFollow(prev, deadline, busy, how))
    ensures t in s'.tasks && GoesTo(s, t, s', s'.tasks[t])
    ensures if id in s.cache && Renewed(prev, s.cache[id]) then Answers(s'.tasks[t], how, id, s.cache[id])
            else if id in s.cache && busy && s.now < deadline then s'.tasks[t] == Follow(id, prev, deadline, how)
            else s'.tasks[t] == Done(Failed)
  {
    hide Held, Next;
    LoadResumes(s, t, s', id, ForFollow(prev, deadline, busy, how));
  }

  lemma LookDecides(s: State, t: Tid, s': State, id: Id, prev: Record, deadline: int, how: How)
    requires Next(s, Task(t, Run), s') && t in s.tasks && s.tasks[t] == Follow(id, prev, deadline, how)
    ensures GoesTo(s, t, s', Load(id, ForFollow(prev, deadline, id in s.refreshing, how)))
  {
    hide Held;
  }

  // ---------- header snapshots ----------

  /** The last snapshot is none, has no readable time, or is 30 seconds old. */
  predicate SnapshotDue(c: QuotaCache, now: int) {
    c.checkedAt.None? || c.checkedAt.value.Unreadable? || c.checkedAt.value.seconds + 30 <= now
  }

  /** The snapshot is worth the locks: it is for the token in place, it is due, and it says anything. */
  predicate Worth(r: Record, h: Headers, expected: string, now: int) {
    r.access == expected && SnapshotDue(r.quota, now) && (h.requests.Some? || h.tokens.Some? || h.plan.Some?)
  }

  lemma HeadersDecide(s: State, t: Tid, s': State, id: Id, h: Headers, expected: string)
    requires Loads(s, t, s', id, ForHeaders(h, expected))
    ensures GoesTo(s, t, s',
                   if id !in s.cache then Done(Failed)
                   else if Worth(s.cache[id], h, expected, s.now)
                   then UpdProvider(id, QuotaHeaders(h, expected), Direct)
                   else Done(Nothing))
  {
    hide Held, Next, MergeItems;
    LoadResumes(s, t, s', id, ForHeaders(h, expected));
  }

  // ---------- updates under the locks ----------

  /** The credentials the answer is about are still in place. */
  predicate Current(attempted: Record, r: Record) {
    attempted.access == r.access && attempted.refresh == r.refresh && attempted.endpoint == r.endpoint
  }

  /** With the row in hand the update still applies. */
  predicate Applies(u: Update, r: Record, now: int) {
    match u
    case Token(attempted, _, _) => Current(attempted, r)
    case InvalidGrant(attempted) => Current(attempted, r)
    case QuotaHeaders(h, expected) => Worth(r, h, expected, now)
    case _ => true
  }

  /** The update ends: a permit it carried drops, and the caller is told what it got. */
  predicate Ends(s: State, t: Tid, s': State, id: Id, u: Update, via: By, got: Option<Record>) {
    && t in s'.tasks && s'.tasks == s.tasks[t := s'.tasks[t]]
    && (via.Direct? ==> s'.tasks[t] == Done(if got.Some? then Nothing else Failed)
                        && s'.refreshing == s.refreshing && s'.permit == s.permit)
    && (via.Refreshing? ==>
          s'.refreshing == s.refreshing - {id} && s'.permit == s.permit - {id}
          && (if got.Some? && u.Token? then Answers(s'.tasks[t], via.how, id, got.value)
              else s'.tasks[t] == Done(Failed)))
  }

  /** Under the locks an update is written exactly when it still applies to the row as it is. */
  lemma UpdateDecides(s: State, t: Tid, s': State, id: Id, u: Update, via: By)
    requires Loads(s, t, s', id, ForUpdate(u, via))
    ensures t in s'.tasks && s'.db == s.db && s'.cache == s.cache && s'.log == s.log
    ensures if id in s.cache && Applies(u, s.cache[id], s.now) then
              s'.tasks[t].SaveWait? && s'.tasks[t].save.id == id
              && s'.tasks[t].save.why == BecauseUpdate(u, s.now, via)
              && GoesTo(s, t, s', s'.tasks[t])
            else Ends(s, t, s', id, u, via, Get(s.cache, id))
  {
    hide Held, Next, Effect, Applies, EndUpdate, Ends;
    LoadResumes(s, t, s', id, ForUpdate(u, via));
    EndingTells(s, t, id, u, via, Get(s.cache, id));
    if id in s.cache {
      AppliesIff(u, s.cache[id], s.now);
    }
  }

  lemma AppliesIff(u: Update, r: Record, now: int)
    ensures Effect(u, r, now).Write? <==> Applies(u, r, now)
  {
    hide MergeItems, MergeResponse;
  }

  lemma EndingTells(s: State, t: Tid, id: Id, u: Update, via: By, got: Option<Record>)
    ensures var s' := EndUpdate(s, t, id, u, via, got);
            Ends(s, t, s', id, u, via, got) && s'.db == s.db && s'.cache == s.cache && s'.log == s.log
  {
  }

  /** Once the row is written the entry shows it, and the caller gets it; a failed write is told as a failure. */
  lemma SaveDecides(s: State, t: Tid, s': State, save: Save, ok: bool)
    requires Next(s, Task(t, if ok then Run else DbFail), s') && t in s.tasks && save.why.BecauseUpdate?
    requires s.tasks[t] == if ok then SaveInsert(save) else SaveDb(save)
    ensures t in s'.tasks && s'.db == s.db && s'.log == s.log
    ensures s'.cache == if ok then s.cache[save.id := save.record] else s.cache
    ensures Ends(s, t, s', save.id, save.why.u, save.why.via, if ok then Some(save.record) else None)
  {
    hide Held, Resume, EndUpdate;
    var shown := if ok then s.(cache := s.cache[save.id := save.record]) else s;
    EndingTells(shown, t, save.id, save.why.u, save.why.via, if ok then Some(save.record) else None);
  }

  /** A refusal invalidates only as an invalid grant; any other ends the refresh and changes nothing. */
  lemma RefusalDecides(s: State, t: Tid, s': State, invalidGrant: bool)
    requires Next(s, Task(t, Rejected(invalidGrant)), s')
    ensures t in s.tasks && s.tasks[t].Exchange?
    ensures var pc := s.tasks[t];
            if invalidGrant then GoesTo(s, t, s', UpdProvider(pc.id, InvalidGrant(pc.rec), Refreshing(pc.how)))
            else s' == s.(refreshing := s.refreshing - {pc.id}, permit := s.permit - {pc.id},
                          tasks := s.tasks[t := Done(Failed)])
  {
    hide Held, Advance, AfterDbFail;
  }

  // ---------- imports and deletes ----------

  /** An import alone answers; in a session it goes back to it. */
  predicate EndsImportAt(s: State, t: Tid, s': State, ses: Session, ok: bool) {
    && (ses.Alone? ==> s'.tasks == s.tasks[t := Done(if ok then Nothing else Failed)])
    && (ses.Inside? ==> s'.tasks == s.tasks[t := SesOpen(ses.base, ses.mark)])
  }

  /** The account an import takes over is read once more, and what is saved takes it over as it is now. */
  lemma ImportLoadDecides(s: State, t: Tid, s': State, id: Id, imported: Record, ses: Session)
    requires Loads(s, t, s', id, ForImport(imported, ses))
    ensures id !in s.cache ==> EndsImportAt(s, t, s', ses, false)
    ensures id in s.cache ==>
              t in s'.tasks && GoesTo(s, t, s', s'.tasks[t]) && s'.tasks[t].SaveWait?
              && s'.tasks[t].save.id == id && s'.tasks[t].save.why == BecauseImport(imported, ses)
              && TakesOver(s'.tasks[t].save.record, imported, s.cache[id])
  {
    hide Held, Next;
    LoadResumes(s, t, s', id, ForImport(imported, ses));
  }

  /** A table that cannot be read fails the import, and so does having no name left for a new account. */
  lemma ImportFails(s: State, t: Tid, e: Event, s': State)
    requires Step(s, t, e, s') && t in s.tasks
    requires (e.DbFail? && s.tasks[t].ReloadList? && (s.tasks[t].job.JobFind? || s.tasks[t].job.JobAllot?))
             || e.NoName?
    ensures EndsImportAt(s, t, s', if s.tasks[t].ReloadList? then s.tasks[t].job.ses else s.tasks[t].ses, false)
    ensures s'.db == s.db && s'.cache == s.cache
  {
    hide Held, Resume, Advance;
  }

  lemma ImportDecides(s: State, t: Tid, s': State, save: Save, ok: bool)
    requires Next(s, Task(t, if ok then Run else DbFail), s') && t in s.tasks && save.why.BecauseImport?
    requires s.tasks[t] == if ok then SaveInsert(save) else SaveDb(save)
    ensures s'.db == s.db && s'.log == s.log
    ensures s'.cache == if ok then s.cache[save.id := save.record] else s.cache
    ensures EndsImportAt(s, t, s', save.why.ses, ok)
  {
    hide Held, Resume;
  }

  /** A delete succeeds exactly when the account has a row and the call does not fail. */
  lemma DeleteDecides(s: State, t: Tid, s': State, id: Id, ok: bool)
    requires Next(s, Task(t, if ok then Run else DbFail), s') && t in s.tasks && s.tasks[t] == DelDb(id)
    ensures var done := ok && id in s.db;
            && s'.tasks == s.tasks[t := Done(if done then Nothing else Failed)]
            && s'.db == (if done then s.db - {id} else s.db) && s'.cache == s.cache
  {
    hide Held, Resume;
  }

  /** A restore that has reached the cache is over. */
  lemma RestoreEnds(s: State, t: Tid, s': State, target: Target, ses: Session)
    requires Next(s, Task(t, Run), s') && t in s.tasks && s.tasks[t] == RestCache(target, ses)
    ensures s'.tasks == s.tasks[t := Done(Nothing)] && s'.db == s.db && s'.refreshing == s.refreshing
    ensures target.All? ==> s'.cache == target.rows
    ensures target.One? ==>
              Get(s'.cache, target.id) == target.record
              && forall other :: other != target.id ==> Get(s'.cache, other) == Get(s.cache, other)
  {
    hide Held;
  }

  /** Listing the accounts succeeds exactly when the table can be read, and then the cache shows it. */
  lemma ListDecides(s: State, t: Tid, s': State, e: Event)
    requires Step(s, t, e, s') && t in s.tasks
    ensures e.Run? && s.tasks[t].ReloadFill? && s.tasks[t].job.JobList? ==>
              s'.tasks == s.tasks[t := Done(Nothing)] && s'.cache == s.tasks[t].rows
    ensures e.DbFail? && s.tasks[t].ReloadList? && s.tasks[t].job.JobList? ==>
              s' == s.(tasks := s.tasks[t := Done(Failed)])
  {
    hide Held, Resume, EndImport, AfterSave;
  }
}
