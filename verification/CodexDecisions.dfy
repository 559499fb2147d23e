/**
 What a Codex task decides at each of its turning points, said once more over the fields of the record and
 the store: when a resolve refreshes, what lets a refresh be sent, what a failure leaves behind, and what
 the caller is told.  Each lemma is about one step of the machine and covers every case of it.
 */
module CodexDecisions {
  import opened Prelude
  import opened CodexIdentity
  import opened CodexTypes
  import opened CodexMachine

  // ---------- the vocabulary, over fields ----------

  /** Not invalid, and with an expiry, when there is one, that can be read and lies ahead. */
  predicate Healthy(r: Record, now: int) {
    r.status != Invalid && Unexpired(r, now)
  }

  predicate Unexpired(r: Record, now: int) {
    r.credential.Oauth? ==> r.credential.oauth.expiresAt.At? && now < r.credential.oauth.expiresAt.seconds
  }

  /** No threshold is set, or no window that still counts has used that much. */
  predicate BelowThreshold(r: Record, now: int) {
    r.threshold.None? || r.threshold.value <= 0.0
    || forall i :: 0 <= i < |r.quota.items| ==>
         var w := r.quota.items[i];
         w.used.None? || w.used.value < r.threshold.value || (w.resetAt.Some? && w.resetAt.value <= now)
  }

  predicate AccessMarked(st: Store, id: Id, r: Record) {
    r.credential.Oauth? && id in st.rejAccess && st.rejAccess[id] == r.credential.oauth.access
  }

  predicate RefreshMarked(st: Store, id: Id, r: Record) {
    r.credential.Oauth? && id in st.rejRefresh && st.rejRefresh[id] == r.credential.oauth.refresh
  }

  /** The account can be handed out as it is. */
  predicate Servable(st: Store, id: Id, r: Record, now: int) {
    Healthy(r, now) && !AccessMarked(st, id, r) && BelowThreshold(r, now)
  }

  /** The user lets the store refresh the account, and there is a token to do it with. */
  predicate Renewable(r: Record) {
    r.credential.Oauth? && r.status != Invalid && r.credential.oauth.autoRefresh && !Blank(r.credential.oauth.refresh)
  }

  /** The token has run out, runs out within a day, or nobody can tell. */
  predicate DueSoon(r: Record, now: int) {
    r.credential.Oauth?
    && (r.credential.oauth.expiresAt.Unreadable? || r.credential.oauth.expiresAt.seconds <= now + 24 * 3600)
  }

  /** Both are OAuth records, and the refresh of one has already been replaced in the other. */
  predicate Replaced(sent: Record, now: Record) {
    sent.credential.Oauth? && now.credential.Oauth?
    && var o, n := sent.credential.oauth, now.credential.oauth;
       !(o.access == n.access && o.refresh == n.refresh && o.idToken == n.idToken && o.clientId == n.clientId
         && o.lastRefresh == n.lastRefresh && o.expiresAt == n.expiresAt)
  }

  predicate Cools(st: Store, id: Id, now: int) {
    id in st.cooldowns && now < st.cooldowns[id].retryAt
  }

  /** The step runs on from a load of `id` for `k`, which found what the cache holds. */
  predicate Loads(s: State, t: Tid, s': State, id: Id, k: AfterLoad) {
    Next(s, Task(t, Run), s') && t in s.tasks
    && ((s.tasks[t] == LoadRead(id, k) && id in s.store.cache) || s.tasks[t] == LoadAgain(id, k))
  }

  predicate GoesTo(s: State, t: Tid, s': State, pc: Pc) {
    s' == s.(tasks := s.tasks[t := pc])
  }

  /** What a task has answered is its last word: a task that is done takes no further step. */
  lemma DoneIsDone(s: State, t: Tid, e: Event, s': State)
    requires Step(s, t, e, s')
    ensures t in s.tasks ==> !s.tasks[t].Done?
  {
    hide Advance, AfterDbFail, Cancelled;
  }

  // ---------- resolve ----------

  /**
   A resolve goes on to refresh exactly when the account is renewable and either its access token carries a
   mark or it is due; otherwise it answers at once, with the record if and only if that can be handed out.
   */
  lemma ResolveDecides(s: State, t: Tid, s': State, id: Id)
    requires Loads(s, t, s', id, ThenServe)
    ensures id !in s.store.cache ==> GoesTo(s, t, s', Done(Failed))
    ensures id in s.store.cache ==>
              var r := s.store.cache[id];
              GoesTo(s, t, s',
                     if Renewable(r) && (AccessMarked(s.store, id, r) || DueSoon(r, s.now)) then Start(id, r, Resolve)
                     else if Servable(s.store, id, r, s.now) then Done(Served(id, r))
                     else Done(Failed))
  {
    if id in s.store.cache {
      ThresholdOverFields(s.store.cache[id], s.now);
    }
  }

  lemma ThresholdOverFields(r: Record, now: int)
    ensures ThresholdReached(r, now) <==> !BelowThreshold(r, now)
  {
    if r.threshold.Some? && !BelowThreshold(r, now) {
      var i :| 0 <= i < |r.quota.items|
               && r.quota.items[i].used.Some? && r.quota.items[i].used.value >= r.threshold.value
               && (r.quota.items[i].resetAt.None? || r.quota.items[i].resetAt.value > now);
      assert WindowOpen(r.quota.items[i], now);
    }
  }

  /** What a failed refresh leaves a resolve with: the record of now, when that can still be handed out. */
  lemma FallbackDecides(s: State, t: Tid, s': State, id: Id)
    requires Loads(s, t, s', id, ThenFallback)
    ensures GoesTo(s, t, s',
                   if id in s.store.cache && Servable(s.store, id, s.store.cache[id], s.now)
                   then Done(Served(id, s.store.cache[id])) else Done(Failed))
  {
    if id in s.store.cache {
      ThresholdOverFields(s.store.cache[id], s.now);
    }
  }

  /** An authorization header is built from any unmarked access token that is not blank. */
  lemma HeaderDecides(s: State, t: Tid, s': State, id: Id)
    requires Loads(s, t, s', id, ThenHeader)
    ensures GoesTo(s, t, s',
                   if id in s.store.cache && s.store.cache[id].credential.Oauth?
                      && !AccessMarked(s.store, id, s.store.cache[id])
                      && !Blank(s.store.cache[id].credential.oauth.access)
                   then Done(Header(id, s.store.cache[id].credential.oauth.access)) else Done(Failed))
  {
    hide Blank;
  }

  // ---------- who starts a refresh ----------

  /** A user's refresh starts for every OAuth account that has a refresh token, an invalid one included. */
  lemma ManualDecides(s: State, t: Tid, s': State, id: Id)
    requires Loads(s, t, s', id, ThenManual)
    ensures GoesTo(s, t, s',
                   if id in s.store.cache && s.store.cache[id].credential.Oauth?
                      && !Blank(s.store.cache[id].credential.oauth.refresh)
                   then Start(id, s.store.cache[id], Manual) else Done(Failed))
  {
    hide Blank;
  }

  /** The due loop refreshes what is renewable, due and not refused before, unless a cooldown runs. */
  lemma DueDecides(s: State, t: Tid, s': State, id: Id)
    requires Loads(s, t, s', id, ThenDue)
    ensures id !in s.store.cache ==> GoesTo(s, t, s', Done(Failed))
    ensures id in s.store.cache ==>
              var r := s.store.cache[id];
              GoesTo(s, t, s',
                     if Renewable(r) && DueSoon(r, s.now) && !RefreshMarked(s.store, id, r) then DueCooldown(id, r)
                     else Done(Nothing))
  {
    hide Blank;
  }

  lemma DueCooldownDecides(s: State, t: Tid, s': State, id: Id, r: Record)
    requires Next(s, Task(t, Run), s') && t in s.tasks && s.tasks[t] == DueCooldown(id, r)
    ensures GoesTo(s, t, s', if Cools(s.store, id, s.now) then Done(Nothing) else Start(id, r, Automatic))
  {
  }

  /** A late 401 marks the token exactly when it is the account's own, and then tries to renew it. */
  lemma LateDecides(s: State, t: Tid, s': State, id: Id, token: string)
    requires Next(s, Task(t, Run), s') && t in s.tasks && s.tasks[t] == LateRead(id, token)
    ensures var own := id in s.store.cache && s.store.cache[id].credential.Oauth?
                       && s.store.cache[id].status != Invalid;
            var hit := own && s.store.cache[id].credential.oauth.access == token;
            && s'.store == s.store.(rejAccess := if hit then s.store.rejAccess[id := token] else s.store.rejAccess)
            && s' == s.(store := s'.store, gate := None, tasks := s.tasks[t :=
                       if hit && Renewable(s.store.cache[id]) then Start(id, s.store.cache[id], Automatic)
                       else if own && !hit then Done(Nothing)
                       else Done(Failed)])
  {
    hide Blank;
  }

  // ---------- permit, cooldown and exchange ----------

  /** One task gets the permit of an account; the others follow it for at most 35 seconds. */
  lemma PermitDecides(s: State, t: Tid, s': State, id: Id, prev: Record, mode: Mode)
    requires Next(s, Task(t, Run), s') && t in s.tasks && s.tasks[t] == Start(id, prev, mode)
    ensures id in s.store.refreshing ==> GoesTo(s, t, s', Follow(id, prev, mode, s.now + 35))
    ensures id !in s.store.refreshing ==>
              s' == s.(store := s.store.(refreshing := s.store.refreshing + {id}), permit := s.permit[id := t],
                       tasks := s.tasks[t := LoadRead(id, ThenRefresh(prev, mode))])
  {
  }

  /** The permit drops, and the task goes on as its caller does when told `outcome`. */
  predicate Leaves(s: State, t: Tid, s': State, id: Id, mode: Mode, outcome: Outcome) {
    && s'.store == s.store.(refreshing := s.store.refreshing - {id})
    && s' == s.(store := s'.store, permit := s.permit - {id}, tasks := s'.tasks)
    && Told(s, t, s', id, mode, outcome)
  }

  /**
   What a caller makes of the outcome.  A user is told that the token did not run out again; the due loop
   whether there is a result; a resolve gets the record when it can be handed out, and looks again otherwise.
   */
  predicate Told(s: State, t: Tid, s': State, id: Id, mode: Mode, outcome: Outcome) {
    s'.tasks == s.tasks[t :=
      if outcome.Got? then
        match mode
        case Manual =>
          if outcome.record.status == Invalid || Unexpired(outcome.record, s.now) then Done(Nothing) else Done(Failed)
        case Automatic => Done(Nothing)
        case Resolve =>
          if Servable(s.store, id, outcome.record, s.now) then Done(Served(id, outcome.record)) else Done(Failed)
      else if mode == Resolve then LoadRead(id, ThenFallback)
      else Done(Failed)]
  }

  lemma FinishTells(s: State, s': State, t: Tid, id: Id, mode: Mode, outcome: Outcome)
    requires t in s.tasks && s'.tasks == s.tasks[t := Finish(s, id, mode, outcome)]
    ensures Told(s, t, s', id, mode, outcome)
  {
    hide BelowThreshold, ThresholdReached;
    if outcome.Got? {
      ThresholdOverFields(outcome.record, s.now);
    }
  }

  lemma LeavingTells(s: State, t: Tid, id: Id, mode: Mode, outcome: Outcome)
    requires t in s.tasks
    ensures Leaves(s, t, LeaveRefresh(s, t, id, mode, outcome), id, mode, outcome)
  {
    hide Finish, Told;
    SameFinish(DropPermit(s, id), s, id, mode, outcome);
    FinishTells(s, LeaveRefresh(s, t, id, mode, outcome), t, id, mode, outcome);
  }

  lemma SameFinish(s: State, s0: State, id: Id, mode: Mode, outcome: Outcome)
    requires s.now == s0.now && s.store.rejAccess == s0.store.rejAccess
    ensures Finish(s, id, mode, outcome) == Finish(s0, id, mode, outcome)
  {
    hide IsUsable, ThresholdReached;
  }

  /**
   With the permit held and the account loaded again, the refresh goes on exactly when the credentials are
   still those it was started for, the account is not invalid and its refresh token was not refused.
   */
  lemma ReloadDecides(s: State, t: Tid, s': State, id: Id, prev: Record, mode: Mode)
    requires Loads(s, t, s', id, ThenRefresh(prev, mode))
    ensures id !in s.store.cache ==> Leaves(s, t, s', id, mode, Transient)
    ensures id in s.store.cache ==>
              var cur := s.store.cache[id];
              if Replaced(prev, cur) then Leaves(s, t, s', id, mode, Got(cur))
              else if cur.status == Invalid || RefreshMarked(s.store, id, cur) then Leaves(s, t, s', id, mode, Relogin)
              else GoesTo(s, t, s', Cooling(id, cur, mode))
  {
    hide Leaves, LeaveRefresh;
    LeavingTells(s, t, id, mode, Transient);
    LeavingTells(s, t, id, mode, Relogin);
    if id in s.store.cache {
      LeavingTells(s, t, id, mode, Got(s.store.cache[id]));
    }
  }

  /** The client a refresh token was issued to, when the store knows how to refresh for it. */
  predicate KnownClient(o: OAuth) {
    o.clientId.Some? ==>
      Trim(o.clientId.value) in {"app_EMoamEEZ73f0CkXaXp7hrann", "app_LlGpXReQgckcGGUo2JrYvtJK"}
  }

  /**
   An exchange is sent exactly when no failure is cooling off, a success that cools off does not stand in the
   way (it never does for a user, nor when the access token is marked), the store may renew the account
   (a user may always), and the account is an OAuth account of a known client.
   */
  lemma CoolingDecides(s: State, t: Tid, s': State, id: Id, cur: Record, mode: Mode)
    requires Next(s, Task(t, Run), s') && t in s.tasks && s.tasks[t] == Cooling(id, cur, mode)
    ensures var cools := Cools(s.store, id, s.now);
            if cools && s.store.cooldowns[id].failed then Leaves(s, t, s', id, mode, Transient)
            else if cools && mode != Manual && !AccessMarked(s.store, id, cur) then Leaves(s, t, s', id, mode, Got(cur))
            else if mode != Manual && !Renewable(cur) then Leaves(s, t, s', id, mode, Transient)
            else GoesTo(s, t, s', if cur.credential.Oauth? && KnownClient(cur.credential.oauth)
                                  then Sending(id, cur, mode) else Note(id, mode, Transient))
  {
    hide Leaves, LeaveRefresh, Blank, Trim;
    LeavingTells(s, t, id, mode, Transient);
    LeavingTells(s, t, id, mode, Got(cur));
  }

  // ---------- after the exchange ----------

  /**
   A refused or failed exchange does no harm when the credentials were replaced meanwhile.  If they were not and
   the endpoint refused them for good, the refresh token is marked, and an account that cannot be used without
   it any more is invalidated; any other failure marks nothing.
   */
  lemma FailureDecides(s: State, t: Tid, s': State, id: Id, sent: Record, mode: Mode, relogin: bool)
    requires Loads(s, t, s', id, ThenFailure(sent, mode, relogin)) && sent.credential.Oauth?
    ensures id !in s.store.cache ==> GoesTo(s, t, s', Note(id, mode, Transient))
    ensures id in s.store.cache ==>
              var cur := s.store.cache[id];
              if Replaced(sent, cur) then GoesTo(s, t, s', Note(id, mode, Got(cur)))
              else if !relogin then GoesTo(s, t, s', Note(id, mode, Transient))
              else
                s' == s.(store := s.store.(rejRefresh := s.store.rejRefresh[id := sent.credential.oauth.refresh]),
                         tasks := s.tasks[t := if Healthy(cur, s.now) && !AccessMarked(s.store, id, cur)
                                               then Note(id, mode, Relogin)
                                               else MutGate(id, MarkInvalid(sent), ToNoteInvalid(mode))])
  {
    hide Step;
    LoadedFailure(s, t, s', id, sent, mode, relogin);
  }

  lemma LoadedFailure(s: State, t: Tid, s': State, id: Id, sent: Record, mode: Mode, relogin: bool)
    requires Loads(s, t, s', id, ThenFailure(sent, mode, relogin))
    ensures s' == AfterFailure(s, t, id, sent, mode, relogin, Get(s.store.cache, id))
  {
    hide AfterFailure;
  }

  /** The end of a refresh: a success cools off for 30 seconds, a failure that may pass for 300. */
  lemma NoteDecides(s: State, t: Tid, s': State, id: Id, mode: Mode, outcome: Outcome)
    requires Next(s, Task(t, Run), s') && t in s.tasks && s.tasks[t] == Note(id, mode, outcome)
    ensures s'.store.cooldowns
            == (if outcome.Got? then s.store.cooldowns[id := Cooldown(s.now + 30, false)]
                else if outcome.Transient? then s.store.cooldowns[id := Cooldown(s.now + 300, true)]
                else s.store.cooldowns)
    ensures Leaves(s.(store := s.store.(cooldowns := s'.store.cooldowns)), t, s', id, mode, outcome)
  {
    hide Told, FinishNow, Finish;
    LeavingTells(NoteOutcome(s, id, outcome), t, id, mode, outcome);
    assert s'.store == DropPermit(NoteOutcome(s, id, outcome), id).store;
  }

  // ---------- followers ----------

  /** A follower looks again while the permit is taken and its 35 seconds last; after that it gives up. */
  lemma FollowDecides(s: State, t: Tid, s': State, id: Id, prev: Record, mode: Mode, deadline: int)
    requires Next(s, Task(t, Run), s') && t in s.tasks && s.tasks[t] == Follow(id, prev, mode, deadline)
    ensures if id !in s.store.refreshing then GoesTo(s, t, s', LoadRead(id, ThenFollow(prev, mode)))
            else if s.now < deadline then s' == s
            else s' == s.(tasks := s'.tasks) && Told(s, t, s', id, mode, Transient)
  {
    hide Told;
    if id in s.store.refreshing && s.now >= deadline {
      FinishTells(s, s', t, id, mode, Transient);
    }
  }

  /** It takes over what its leader got; without a result it asks whether the leader succeeded a moment ago. */
  lemma FollowedDecides(s: State, t: Tid, s': State, id: Id, prev: Record, mode: Mode)
    requires Loads(s, t, s', id, ThenFollow(prev, mode))
    ensures s' == s.(tasks := s'.tasks)
    ensures if id !in s.store.cache || AccessMarked(s.store, id, s.store.cache[id])
            then Told(s, t, s', id, mode, Transient)
            else if Replaced(prev, s.store.cache[id]) then Told(s, t, s', id, mode, Got(s.store.cache[id]))
            else GoesTo(s, t, s', FollowCooldown(id, s.store.cache[id], mode))
  {
    hide Told, Finish, Step;
    LoadedFollow(s, t, s', id, prev, mode);
    if id !in s.store.cache || AccessMarked(s.store, id, s.store.cache[id]) {
      FinishTells(s, s', t, id, mode, Transient);
    } else if Replaced(prev, s.store.cache[id]) {
      FinishTells(s, s', t, id, mode, Got(s.store.cache[id]));
    }
  }

  lemma LoadedFollow(s: State, t: Tid, s': State, id: Id, prev: Record, mode: Mode)
    requires Loads(s, t, s', id, ThenFollow(prev, mode))
    ensures s' == Move(s, t, AfterWait(s, id, prev, mode, Get(s.store.cache, id)))
  {
    hide AfterWait;
  }

  lemma FollowCooldownDecides(s: State, t: Tid, s': State, id: Id, r: Record, mode: Mode)
    requires Next(s, Task(t, Run), s') && t in s.tasks && s.tasks[t] == FollowCooldown(id, r, mode)
    ensures s' == s.(tasks := s'.tasks)
    ensures Told(s, t, s', id, mode,
                 if Cools(s.store, id, s.now) && !s.store.cooldowns[id].failed then Got(r) else Transient)
  {
    hide Told, Finish;
    FinishTells(s, s', t, id, mode,
                if Cools(s.store, id, s.now) && !s.store.cooldowns[id].failed then Got(r) else Transient);
  }

  // ---------- quota ----------

  /** Quota is asked for with every healthy account, and a token that is marked or blank stops it. */
  lemma QuotaDecides(s: State, t: Tid, s': State, id: Id)
    requires Loads(s, t, s', id, ThenQuota)
    ensures GoesTo(s, t, s',
                   if id in s.store.cache && Healthy(s.store.cache[id], s.now)
                   then LoadRead(id, ThenQuotaHeader(s.store.cache[id], s.now)) else Done(Failed))
  {
  }

  lemma QuotaHeaderDecides(s: State, t: Tid, s': State, id: Id, resolved: Record, at: int)
    requires Loads(s, t, s', id, ThenQuotaHeader(resolved, at))
    ensures var barred := id !in s.store.cache
                          || (s.store.cache[id].credential.Oauth?
                              && (AccessMarked(s.store, id, s.store.cache[id])
                                  || Blank(s.store.cache[id].credential.oauth.access)));
            GoesTo(s, t, s', if barred then LoadRead(id, ThenQuotaError(resolved, "authorization unavailable", at))
                             else QuotaRequest(id, resolved, at))
  {
    hide Blank;
  }

  // ---------- settings and restores ----------

  /** A setting goes on to the gate exactly when the account is there. */
  lemma SettingDecides(s: State, t: Tid, s': State, id: Id, m: Mutation)
    requires Loads(s, t, s', id, ThenMutate(m))
    ensures GoesTo(s, t, s', if id in s.store.cache then MutGate(id, m, ToDone) else Done(Failed))
  {
  }

  /** A restore that has reached the cache is over, and has touched neither marks nor cooldowns. */
  lemma RestoreEnds(s: State, t: Tid, s': State, target: Target, ses: Session)
    requires Next(s, Task(t, Run), s') && t in s.tasks && s.tasks[t] == RestCache(target, ses)
    ensures s'.gate.None? && s'.tasks == s.tasks[t := Done(Nothing)]
    ensures s'.store == s.store.(cache := s'.store.cache)
    ensures target.All? ==> s'.store.cache == target.rows
    ensures target.One? ==>
              Get(s'.store.cache, target.id) == target.record
              && forall other :: other != target.id ==> Get(s'.store.cache, other) == Get(s.store.cache, other)
  {
    hide Perform;
  }

  // ---------- gated updates ----------

  /** The update has nothing to do: it was decided on credentials that are gone. */
  predicate Overtaken(m: Mutation, cur: Record) {
    (m.MarkInvalid? && Replaced(m.failed, cur)) || (m.CommitRefresh? && Replaced(m.sent, cur))
  }

  /** The update can only be made to an OAuth account. */
  predicate Inapplicable(m: Mutation, cur: Record) {
    m.SetAuto? && !cur.credential.Oauth?
  }

  /** Whom the result of a gated update goes to, and what it is there. */
  predicate Reports(pc: Pc, id: Id, w: AfterWrite, outcome: Outcome) {
    && (w.ToDone? ==> pc == Done(if outcome.Got? then Nothing else Failed))
    && (w.ToNote? ==> pc == Note(id, w.mode, outcome))
    && (w.ToNoteInvalid? ==> pc == Note(id, w.mode, Relogin))
    && (w.ToQuotaError? ==> pc == LoadRead(id, ThenQuotaError(w.resolved, w.error, w.at)))
  }

  /** The step gives the gate back and reports `outcome`. */
  predicate EndsUpdate(s: State, t: Tid, s': State, id: Id, w: AfterWrite, outcome: Outcome) {
    t in s'.tasks && s' == s.(gate := None, tasks := s.tasks[t := s'.tasks[t]]) && Reports(s'.tasks[t], id, w, outcome)
  }

  /** Under the gate an update is written, or found to be overtaken, or refused. */
  lemma UpdateDecides(s: State, t: Tid, s': State, id: Id, m: Mutation, w: AfterWrite)
    requires Next(s, Task(t, Run), s') && t in s.tasks && s.tasks[t] == MutRead(id, m, w)
    ensures if id !in s.store.cache || Inapplicable(m, s.store.cache[id]) then
              EndsUpdate(s, t, s', id, w, Transient)
            else if Overtaken(m, s.store.cache[id]) then
              EndsUpdate(s, t, s', id, w, Got(s.store.cache[id]))
            else
              exists next :: GoesTo(s, t, s', MutDb(id, m, w, next))
  {
    hide MergeRefresh;
    if id in s.store.cache && Effect(m, s.store.cache[id]).Write? {
      assert GoesTo(s, t, s', MutDb(id, m, w, Effect(m, s.store.cache[id]).record));
    }
  }

  /** A written update succeeds, except that a refresh which brought a token already run out has failed. */
  lemma WrittenReports(s: State, t: Tid, s': State, id: Id, m: Mutation, w: AfterWrite, next: Record)
    requires Next(s, Task(t, Run), s') && t in s.tasks && s.tasks[t] == MutCache(id, m, w, next)
    ensures t in s'.tasks && s'.tasks == s.tasks[t := s'.tasks[t]] && s'.gate.None?
    ensures Reports(s'.tasks[t], id, w,
                    if w.ToNote? && next.status != Invalid && !Unexpired(next, s.now) then Transient else Got(next))
  {
    hide Perform, SaveToCache, Effect;
  }

  /** A database call that fails ends the update as a failure that may pass. */
  lemma FailedWriteReports(s: State, t: Tid, s': State, id: Id, m: Mutation, w: AfterWrite, next: Record)
    requires Next(s, Task(t, DbFail), s') && t in s.tasks && s.tasks[t] == MutDb(id, m, w, next)
    ensures EndsUpdate(s, t, s', id, w, Transient)
  {
  }

  // ---------- imports ----------

  /** What an import reports: alone it answers and gives the gate back, in a session it hands the gate on. */
  predicate EndsImportAt(s: State, t: Tid, s': State, ses: Session, ok: bool) {
    && (ses.Alone? ==> s'.gate.None? && s'.tasks == s.tasks[t := Done(if ok then Nothing else Failed)])
    && (ses.Inside? ==> s'.gate == s.gate && s'.tasks == s.tasks[t := SesOpen(ses.base, ses.mark)])
  }

  /** An import that brings new tokens to an account ends its cooldown, and no other import does. */
  lemma ImportDecides(s: State, t: Tid, s': State, id: Id, r: Record, ses: Session)
    requires Next(s, Task(t, Run), s') && t in s.tasks && s.tasks[t] == ImpDb(id, r, ses)
    ensures t in s'.tasks && s'.tasks[t].ImpCache? && id in s'.store.db && s'.tasks[t].next == s'.store.db[id]
    ensures s'.tasks[t].clear <==> id in s.store.cache && BringsTokens(s.store.cache[id], r)
  {
    hide MergeImport;
  }

  lemma ImportEnds(s: State, t: Tid, s': State, id: Id, r: Record, ses: Session, next: Record, clear: bool)
    requires Next(s, Task(t, Run), s') && t in s.tasks && s.tasks[t] == ImpCache(id, r, ses, next, clear)
    ensures s'.store.cooldowns == s.store.cooldowns
    ensures clear ==> s'.gate == s.gate && s'.tasks == s.tasks[t := ImpClear(id, ses)]
    ensures !clear ==> EndsImportAt(s, t, s', ses, true)
  {
    hide Perform;
  }

  lemma ClearingEnds(s: State, t: Tid, s': State, id: Id, ses: Session)
    requires Next(s, Task(t, Run), s') && t in s.tasks && s.tasks[t] == ImpClear(id, ses)
    ensures id !in s'.store.cooldowns
    ensures forall other :: other != id ==> Get(s'.store.cooldowns, other) == Get(s.store.cooldowns, other)
    ensures EndsImportAt(s, t, s', ses, true)
  {
  }

  /** A failing read or write ends an import as a failure, and changes no data. */
  lemma ImportFails(s: State, t: Tid, s': State)
    requires Next(s, Task(t, DbFail), s') && t in s.tasks
    requires var pc := s.tasks[t]; pc.ImpDb? || (pc.Listing? && (pc.job.JobFind? || pc.job.JobAllot?))
    ensures s'.store == s.store
    ensures EndsImportAt(s, t, s', if s.tasks[t].ImpDb? then s.tasks[t].ses else s.tasks[t].job.ses, false)
  {
    hide Resume, AfterMutation, Advance;
  }

  // ---------- deletes ----------

  /** A delete succeeds exactly when the account has a row and the call does not fail. */
  lemma DeleteDecides(s: State, t: Tid, s': State, id: Id, ok: bool)
    requires Next(s, Task(t, if ok then Run else DbFail), s') && t in s.tasks && s.tasks[t] == DelDb(id)
    ensures if ok && id in s.store.db then t in s'.tasks && s'.tasks[t] == DelCache(id) && id !in s'.store.db
            else s' == s.(gate := None, tasks := s.tasks[t := Done(Failed)])
  {
  }

  lemma DeleteEnds(s: State, t: Tid, s': State, id: Id)
    requires Next(s, Task(t, Run), s') && t in s.tasks && s.tasks[t] == DelCache(id)
    ensures s'.gate.None? && s'.tasks == s.tasks[t := Done(Nothing)]
    ensures id !in s'.store.cache && id !in s'.store.rejAccess && id !in s'.store.rejRefresh
    ensures s'.store.cooldowns == s.store.cooldowns && s'.store.db == s.store.db
  {
    hide Perform;
  }
}
