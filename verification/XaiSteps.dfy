/** Every step of every task keeps the invariant of the xAI store. */
module XaiSteps {
  import opened Prelude
  import opened XaiTypes
  import opened XaiMachine
  import opened XaiInvariant

  /** What has to be shown of one step of task `t`. */
  ghost predicate Good(s: State, t: Tid, s': State) {
    Frame(s, t, s') && OwnOk(s', t) && DataOk(s')
  }

  /** Whoever holds the gate or the cache lock is not in a half-done restore of another task. */
  lemma HolderSeesTable(s: State, t: Tid)
    requires Inv(s) && t in s.tasks && !s.tasks[t].RestCache?
    requires Provider in Held(s.tasks[t]) || Sync in Held(s.tasks[t])
    ensures !Restoring(s) && s.shown == s.db && SubMap(s.cache, s.db)
  {
    hide PcOk, Replay, PermitOk;
    forall u | u in s.tasks ensures !s.tasks[u].RestCache? {
      if u != t {
        assert Held(s.tasks[u]) !! Held(s.tasks[t]);
      }
    }
  }

  /** A step that leaves table, cache and history alone. */
  lemma QuietKeepsData(s: State, t: Tid, s': State)
    requires DataOk(s)
    requires s'.db == s.db && s'.cache == s.cache && s'.shown == s.shown
    requires s'.origin == s.origin && s'.log == s.log
    requires t in s'.tasks && s'.tasks == s.tasks[t := s'.tasks[t]]
    requires t in s.tasks ==> !s.tasks[t].RestCache?
    ensures DataOk(s')
  {
    hide Replay;
    if Restoring(s) {
      var u :| u in s.tasks && s.tasks[u].RestCache?;
      assert s'.tasks[u].RestCache?;
    }
  }

  // ---------- permits ----------

  /** Moving on with the same permit, or with none left. */
  lemma PermitStays(s: State, t: Tid, pc: Pc)
    requires Inv(s) && t in s.tasks && PermitOf(pc) == PermitOf(s.tasks[t])
    ensures PermitOf(pc).Some? ==> Get(s.permit, PermitOf(pc).value) == Some(t)
    ensures forall id :: Get(s.permit, id) == Some(t) ==> PermitOf(pc) == Some(id)
  {
    hide PcOk, DataOk, Exclusive, SessionOk, SessionOf;
  }

  lemma PermitKeys(s: State)
    requires PermitOk(s)
    ensures s.permit.Keys == s.refreshing
  {
  }

  /** A step that leaves the history alone keeps the session, or ends it. */
  lemma SessionStays(s: State, t: Tid, s': State, ses: Session)
    requires Inv(s) && t in s.tasks && s'.log == s.log && s'.origin == s.origin
    requires ses == SessionOf(s.tasks[t]) || ses.Alone?
    ensures SessionOk(s', t, ses)
  {
    hide Replay, SessionOf, PcOk, DataOk, Exclusive, PermitOk;
    assert SessionOk(s, t, SessionOf(s.tasks[t]));
  }

  lemma PermitDrops(s: State, t: Tid, s': State)
    requires Inv(s) && t in s.tasks
    requires s' == DropPermit(s, PermitOf(s.tasks[t]))
    ensures s'.permit.Keys == s'.refreshing
    ensures forall id :: Get(s'.permit, id) != Some(t)
    ensures forall id :: Get(s'.permit, id) == Get(s.permit, id) || (Get(s.permit, id) == Some(t) && id !in s'.permit)
  {
    hide PcOk, DataOk, Exclusive, PermitOf, SessionOk, SessionOf;
    assert PermitOk(s);
    forall id | Get(s.permit, id) == Some(t) ensures PermitOf(s.tasks[t]) == Some(id) {
    }
  }

  /** Neither a refresh nor an update begins where a delete, an import, a session or a restore goes on. */
  lemma PlainBegins(s: State, t: Tid, pc: Pc)
    requires pc.Done? || pc.DelAccount? || pc.DelWait? || pc.DelEvict? || pc.ImpIndex? || pc.ImpAccount? || pc.SesOpen?
             || pc.RestOrder? || pc.RestWait? || pc.RestDb? || pc.RestCache? || (pc.ReloadWait? && !pc.job.JobLoad?)
    ensures Begins(s, t, pc)
  {
  }

  // ---------- steps that only move the program counter ----------

  /** Moving on with the same permit and no lock but the one waited for. */
  lemma MoveIsGood(s: State, t: Tid, pc: Pc)
    requires Inv(s) && t in s.tasks && !s.tasks[t].RestCache?
    requires PermitOf(pc) == PermitOf(s.tasks[t]) && PcOk(Move(s, t, pc), pc)
    requires SessionOf(pc) == SessionOf(s.tasks[t]) || SessionOf(pc).Alone?
    requires forall l :: l in Held(pc) ==> l in Held(s.tasks[t]) || Free(s, l)
    requires WaitOk(s, t, pc) && Begins(s, t, pc)
    ensures Good(s, t, Move(s, t, pc))
  {
    hide Held, PermitOf, Replay, PcOk, WaitOk, Begins, SessionOf, SessionOk, Exclusive, PermitOk, DataOk, Free;
    PermitStays(s, t, pc);
    SessionStays(s, t, Move(s, t, pc), SessionOf(pc));
    PermitKeys(s);
    QuietKeepsData(s, t, Move(s, t, pc));
  }

  lemma EndIsGood(s: State, t: Tid, reply: Reply)
    requires Inv(s) && t in s.tasks && !s.tasks[t].RestCache?
    ensures Good(s, t, Move(DropPermit(s, PermitOf(s.tasks[t])), t, Done(reply)))
  {
    hide Held, PermitOf, Replay, PcOk, WaitOk, Exclusive, DataOk, PermitOk, SessionOf;
    DoneHoldsNothing(s, t, reply);
    var s' := Move(DropPermit(s, PermitOf(s.tasks[t])), t, Done(reply));
    PermitDrops(s, t, DropPermit(s, PermitOf(s.tasks[t])));
    QuietKeepsData(s, t, s');
  }

  lemma DoneHoldsNothing(s: State, t: Tid, reply: Reply)
    ensures PermitOf(Done(reply)) == None && Held(Done(reply)) == {} && WaitOk(s, t, Done(reply))
    ensures SessionOf(Done(reply)) == Alone
    ensures forall s' :: PcOk(s', Done(reply))
  {
  }

  // ---------- load_account ----------

  predicate Loading(pc: Pc, id: Id, p: Purpose) {
    pc == Load(id, p) || pc == LoadAgain(id, p) || pc == ReloadList(JobLoad(id, p))
  }

  lemma LoadingShape(pc: Pc, id: Id, p: Purpose)
    requires Loading(pc, id, p)
    ensures Held(pc) >= PurposeHolds(id, p) && PermitOf(pc) == PurposePermit(id, p)
    ensures WaitUntil(pc) == PurposeWait(p) && SessionOf(pc) == PurposeSession(p) && !pc.RestCache?
    ensures Updating(pc) == PurposeUpdate(id, p)
  {
  }

  lemma TakePermitIsGood(s: State, t: Tid, id: Id, pc: Pc, s': State)
    requires Inv(s) && t in s.tasks && !s.tasks[t].RestCache? && id !in s.refreshing
    requires Held(pc) == {} && PermitOf(pc) == Some(id) && PermitOf(s.tasks[t]) == None && SessionOf(pc).Alone?
    requires s' == Move(s.(refreshing := s.refreshing + {id}, permit := s.permit[id := t]), t, pc)
    requires PcOk(s', pc) && WaitUntil(pc).None? && Begins(s, t, pc)
    ensures Good(s, t, s')
  {
    hide Replay, Exclusive, Held, PermitOf, PcOk, SessionOf, DataOk, Begins;
    assert PermitOk(s);
    PermitStays(s, t, s.tasks[t]);
    QuietKeepsData(s, t, s');
  }

  lemma FollowIsGood(s: State, t: Tid, id: Id, r: Record, how: How)
    requires Inv(s) && t in s.tasks && s.tasks[t] == Start(id, r, how)
    ensures Good(s, t, Move(s, t, Follow(id, r, s.now + WAIT_LIMIT, how)))
  {
    hide Replay, Good, Inv;
    MoveIsGood(s, t, Follow(id, r, s.now + WAIT_LIMIT, how));
  }

  lemma StartIsGood(s: State, t: Tid, id: Id, r: Record, how: How)
    requires Inv(s) && t in s.tasks && s.tasks[t] == Start(id, r, how)
    ensures Good(s, t, StepStart(s, t, id, r, how))
  {
    hide Replay, Good, Inv;
    if id in s.refreshing {
      FollowIsGood(s, t, id, r, how);
    } else {
      TakePermitIsGood(s, t, id, Exchange(id, r, how), StepStart(s, t, id, r, how));
    }
  }

  lemma RefreshResumes(s: State, t: Tid, id: Id, how: How, got: Option<Record>)
    requires Inv(s) && t in s.tasks && Loading(s.tasks[t], id, ForRefresh(how))
    requires got.Some? ==> !s.tasks[t].ReloadList? && Get(s.cache, id) == got
    ensures Good(s, t, Resume(s, t, id, ForRefresh(how), got))
  {
    hide Replay, Good, Inv, WithoutRefresh;
    LoadingShape(s.tasks[t], id, ForRefresh(how));
    MoveIsGood(s, t, Resume(s, t, id, ForRefresh(how), got).tasks[t]);
  }

  /** A follower, or a header snapshot before it takes its locks. */
  lemma LookResumes(s: State, t: Tid, id: Id, p: Purpose, got: Option<Record>)
    requires Inv(s) && t in s.tasks && Loading(s.tasks[t], id, p) && (p.ForFollow? || p.ForHeaders?)
    requires got.Some? ==> !s.tasks[t].ReloadList?
    ensures Good(s, t, Resume(s, t, id, p, got))
  {
    hide Replay, Good, Inv, WasRefreshed, Effect;
    LoadingShape(s.tasks[t], id, p);
    MoveIsGood(s, t, Resume(s, t, id, p, got).tasks[t]);
  }

  lemma UpdateResumes(s: State, t: Tid, id: Id, u: Update, via: By, got: Option<Record>)
    requires Inv(s) && t in s.tasks && Loading(s.tasks[t], id, ForUpdate(u, via)) && UpdateOk(u, via)
    requires got.Some? ==> Get(s.db, id) == got
    ensures Good(s, t, Resume(s, t, id, ForUpdate(u, via), got))
  {
    hide Replay, Good, Inv, Effect, Loading;
    LoadingShape(s.tasks[t], id, ForUpdate(u, via));
    if got.None? || Effect(u, got.value, s.now).Keep? {
      EndIsGood(s, t, Resume(s, t, id, ForUpdate(u, via), got).tasks[t].reply);
    } else {
      MoveIsGood(s, t, SaveWait(Save(id, Effect(u, got.value, s.now).record, BecauseUpdate(u, s.now, via))));
    }
  }

  lemma ImportResumes(s: State, t: Tid, id: Id, imported: Record, ses: Session, got: Option<Record>)
    requires Inv(s) && t in s.tasks && Loading(s.tasks[t], id, ForImport(imported, ses))
    requires PurposeOk(s, id, ForImport(imported, ses))
    requires got.Some? ==> Get(s.db, id) == got
    ensures Good(s, t, Resume(s, t, id, ForImport(imported, ses), got))
  {
    hide Replay, Good, Inv, MergeImport, Loading, SameAccount, NoMatchIn;
    LoadingShape(s.tasks[t], id, ForImport(imported, ses));
    MoveIsGood(s, t, Resume(s, t, id, ForImport(imported, ses), got).tasks[t]);
  }

  lemma ResumeIsGood(s: State, t: Tid, id: Id, p: Purpose, got: Option<Record>)
    requires Inv(s) && t in s.tasks && Loading(s.tasks[t], id, p) && PurposeOk(s, id, p)
    requires got.Some? ==> !s.tasks[t].ReloadList? && Get(s.cache, id) == got && (Gated(p) ==> Get(s.db, id) == got)
    ensures Good(s, t, Resume(s, t, id, p, got))
  {
    hide Inv, Good, Resume, Loading;
    match p
    case ForRefresh(how) => RefreshResumes(s, t, id, how, got);
    case ForFollow(_, _, _, _) => LookResumes(s, t, id, p, got);
    case ForHeaders(_, _) => LookResumes(s, t, id, p, got);
    case ForUpdate(u, via) => UpdateResumes(s, t, id, u, via, got);
    case ForImport(imported, ses) => ImportResumes(s, t, id, imported, ses, got);
  }

  lemma GateHeld(id: Id, p: Purpose)
    requires Gated(p)
    ensures Provider in Held(Load(id, p))
  {
  }

  lemma LoadIsGood(s: State, t: Tid, id: Id, p: Purpose)
    requires Inv(s) && t in s.tasks && s.tasks[t] == Load(id, p)
    ensures Good(s, t, StepLoad(s, t, id, p))
  {
    hide Replay, Resume, Good, Exclusive, PermitOk, Restoring, DataOk, SessionOk, Free, Gated;
    assert PcOk(s, s.tasks[t]);
    if id in s.cache {
      if Gated(p) {
        GateHeld(id, p);
        HolderSeesTable(s, t);
      }
      ResumeIsGood(s, t, id, p, Some(s.cache[id]));
    } else {
      MoveIsGood(s, t, ReloadWait(JobLoad(id, p)));
    }
  }

  lemma LoadAgainIsGood(s: State, t: Tid, id: Id, p: Purpose)
    requires Inv(s) && t in s.tasks && s.tasks[t] == LoadAgain(id, p)
    ensures Good(s, t, Resume(s, t, id, p, Get(s.cache, id)))
  {
    hide Replay, Resume, Good, Exclusive, PermitOk, Restoring, DataOk, SessionOk;
    assert PcOk(s, s.tasks[t]);
    ResumeIsGood(s, t, id, p, Get(s.cache, id));
  }

  lemma FillShape(s: State, t: Tid, job: Job, rows: map<Id, Record>, s': State)
    requires t in s.tasks && s.tasks[t] == ReloadFill(job, rows) && PcOk(s, s.tasks[t])
    requires s' == StepFill(s, t, job, rows)
    ensures var pc, pc' := s.tasks[t], s'.tasks[t];
            && Sync in Held(pc) && Held(pc') <= Held(pc) && PermitOf(pc') == PermitOf(pc)
            && WaitOk(s, t, pc') && Begins(s, t, pc')
            && SessionOf(pc') == SessionOf(pc) && !pc'.RestCache? && !pc'.Exchange? && !pc'.Start? && PcOk(s', pc')
            && rows == s.db
  {
    hide Replay, Effect, MergeImport, Install;
  }

  lemma FillIsGood(s: State, t: Tid, job: Job, rows: map<Id, Record>)
    requires Inv(s) && t in s.tasks && s.tasks[t] == ReloadFill(job, rows)
    ensures Good(s, t, StepFill(s, t, job, rows))
  {
    hide Replay, Exclusive, PcOk, SessionOk, PermitOf, SessionOf, WaitOk, Held;
    assert PcOk(s, s.tasks[t]);
    var s' := StepFill(s, t, job, rows);
    FillShape(s, t, job, rows, s');
    HolderSeesTable(s, t);
    PermitStays(s, t, s'.tasks[t]);
    SessionStays(s, t, s', SessionOf(s'.tasks[t]));
    assert !Restoring(s');
  }

  // ---------- saves and deletes ----------

  lemma EvictIsGood(s: State, t: Tid, pc: Pc, id: Id)
    requires Inv(s) && t in s.tasks && !s.tasks[t].RestCache?
    requires {Provider, Sync} <= Held(s.tasks[t]) && Held(pc) == Held(s.tasks[t])
    requires PermitOf(pc) == PermitOf(s.tasks[t]) && SessionOf(pc) == SessionOf(s.tasks[t])
    requires !pc.RestCache? && WaitUntil(pc).None? && Begins(s, t, pc)
    requires PcOk(Move(s.(cache := s.cache - {id}), t, pc), pc)
    ensures Good(s, t, Move(s.(cache := s.cache - {id}), t, pc))
  {
    hide Held, PermitOf, Replay, PcOk, Exclusive, SessionOf, SessionOk, Begins;
    HolderSeesTable(s, t);
    PermitStays(s, t, pc);
    var s' := Move(s.(cache := s.cache - {id}), t, pc);
    SessionStays(s, t, s', SessionOf(pc));
    assert !Restoring(s');
  }

  /** The holder of the gate and the cache lock writes the table, and the cache may show it at once. */
  lemma WriteIsGood(s: State, t: Tid, pc: Pc, item: Item, s': State)
    requires Inv(s) && t in s.tasks && {Provider, Sync} <= Held(s.tasks[t]) && !s.tasks[t].RestCache?
    requires Held(pc) <= Held(s.tasks[t]) && PermitOf(pc) == PermitOf(s.tasks[t])
    requires SessionOf(pc) == SessionOf(s.tasks[t]) && WaitUntil(pc).None?
    requires !pc.RestCache? && Begins(s, t, pc)
    requires s'.db == Perform(s.db, item.entry) && item.actor == t && SubMap(s.cache, s'.db)
    requires s' == Move(s.(db := s'.db, shown := s'.db, log := s.log + [item]), t, pc)
    requires Commits(s, t, s') && PcOk(s', pc)
    ensures Good(s, t, s')
  {
    hide Held, PermitOf, Replay, PcOk, Exclusive, SessionOf, SessionOk, Perform, Commits, Begins;
    HolderSeesTable(s, t);
    PermitStays(s, t, pc);
    ReplayAppend(s.origin, s.log, item);
    assert SessionOk(s, t, SessionOf(s.tasks[t]));
    SessionGrows(s, t, s', item, SessionOf(pc));
    assert !Restoring(s');
  }

  lemma SaveCommits(s: State, t: Tid, save: Save)
    requires Inv(s) && t in s.tasks && s.tasks[t] == SaveDb(save)
    ensures Commits(s, t, StepSaveDb(s, t, save))
    ensures s.db[save.id := save.record] == Perform(s.db, EntryOf(save))
  {
    hide Replay, Exclusive, Effect, MergeImport, DataOk, SessionOk, SessionOf;
    assert PcOk(s, s.tasks[t]) && PermitOk(s);
  }

  lemma SaveDbIsGood(s: State, t: Tid, save: Save)
    requires Inv(s) && t in s.tasks && s.tasks[t] == SaveDb(save)
    ensures Good(s, t, StepSaveDb(s, t, save))
  {
    hide Replay, Exclusive, Effect, MergeImport, Perform, Commits, Good, SessionOk, PermitOk, SaveOk, EntryOf;
    HolderSeesTable(s, t);
    assert PcOk(s, s.tasks[t]);
    SaveCommits(s, t, save);
    WriteIsGood(s, t, SaveInsert(save), Item(t, EntryOf(save)), StepSaveDb(s, t, save));
  }

  lemma SavesHoldBoth(save: Save)
    ensures {Provider, Sync} <= Held(SaveInsert(save))
  {
  }

  /** The row is committed; only the cached copy and the reply remain. */
  lemma SaveInsertIsGood(s: State, t: Tid, save: Save, s': State)
    requires Inv(s) && t in s.tasks && s.tasks[t] == SaveInsert(save)
    requires s' == AfterSave(s.(cache := s.cache[save.id := save.record]), t, save, true)
    ensures Good(s, t, s')
  {
    hide Replay, Exclusive, AfterSave, PermitOf, PermitOk, SessionOf, SessionOk, Held, Begins;
    SavesHoldBoth(save);
    HolderSeesTable(s, t);
    assert PcOk(s, s.tasks[t]);
    if save.why.BecauseUpdate? {
      UpdateEnds(s, t, save, s');
    } else {
      ImportEnds(s, t, save, s');
    }
    SessionStays(s, t, s', SessionOf(s'.tasks[t]));
    PlainBegins(s, t, s'.tasks[t]);
    assert !Restoring(s');
  }

  ghost predicate SaveEnded(s: State, t: Tid, save: Save, s': State)
    requires t in s.tasks
  {
    && t in s'.tasks && s'.tasks == s.tasks[t := s'.tasks[t]] && (s'.tasks[t].Done? || s'.tasks[t].SesOpen?)
    && s'.db == s.db && s'.shown == s.shown && s'.origin == s.origin && s'.now == s.now && s'.log == s.log
    && s'.cache == s.cache[save.id := save.record] && s'.permit.Keys == s'.refreshing
    && Held(s'.tasks[t]) <= Held(s.tasks[t])
    && (SessionOf(s'.tasks[t]) == SessionOf(s.tasks[t]) || SessionOf(s'.tasks[t]).Alone?)
    && PermitOf(s'.tasks[t]) == None && (forall id :: Get(s'.permit, id) != Some(t))
    && forall id :: Get(s'.permit, id) == Get(s.permit, id) || (Get(s.permit, id) == Some(t) && id !in s'.permit)
  }

  lemma UpdateEnds(s: State, t: Tid, save: Save, s': State)
    requires Inv(s) && t in s.tasks && s.tasks[t] == SaveInsert(save) && save.why.BecauseUpdate?
    requires s' == AfterSave(s.(cache := s.cache[save.id := save.record]), t, save, true)
    ensures SaveEnded(s, t, save, s')
  {
    hide Replay, Exclusive, PcOk, DataOk, PermitOk, SessionOk, DropPermit, Inv;
    var permit := ByPermit(save.id, save.why.via);
    assert PermitOf(s.tasks[t]) == permit;
    PermitDrops(s, t, DropPermit(s, permit));
    DropsOnlyPermits(s, s.(cache := s.cache[save.id := save.record]), permit);
  }

  lemma DropsOnlyPermits(s: State, c: State, permit: Option<Id>)
    requires c == s.(cache := c.cache)
    ensures DropPermit(c, permit) == DropPermit(s, permit).(cache := c.cache)
    ensures DropPermit(s, permit) == s.(refreshing := DropPermit(s, permit).refreshing,
                                        permit := DropPermit(s, permit).permit)
  {
  }

  lemma ImportEnds(s: State, t: Tid, save: Save, s': State)
    requires Inv(s) && t in s.tasks && s.tasks[t] == SaveInsert(save) && save.why.BecauseImport?
    requires s' == AfterSave(s.(cache := s.cache[save.id := save.record]), t, save, true)
    ensures SaveEnded(s, t, save, s')
  {
    hide Replay, Exclusive, PcOk, DataOk, EndUpdate, SessionOk;
    PermitStays(s, t, s'.tasks[t]);
    assert PermitOk(s);
  }

  lemma SaveFailIsGood(s: State, t: Tid, save: Save)
    requires Inv(s) && t in s.tasks && s.tasks[t] == SaveDb(save)
    ensures Good(s, t, AfterSave(s, t, save, false))
  {
    hide Replay, Inv, Good, Free;
    match save.why
    case BecauseUpdate(u, at, via) => EndIsGood(s, t, Failed);
    case BecauseImport(imported, ses) => ImportFails(s, t, ses);
  }

  lemma DelDbIsGood(s: State, t: Tid, id: Id)
    requires Inv(s) && t in s.tasks && s.tasks[t] == DelDb(id)
    ensures Good(s, t, StepDelDb(s, t, id))
  {
    hide Replay, Exclusive, Good, SessionOk, PermitOk;
    HolderSeesTable(s, t);
    assert PcOk(s, s.tasks[t]);
    if id in s.db {
      WriteIsGood(s, t, Done(Nothing), Item(t, Deleted(id)), StepDelDb(s, t, id));
    } else {
      EndIsGood(s, t, Failed);
    }
  }

  // ---------- restores ----------

  lemma RestoreShape(s: State, t: Tid, target: Target, ses: Session)
    ensures var pc, pc' := RestDb(target, ses), RestCache(target, ses);
            && {Provider, Sync} <= Held(pc) && Held(pc') == Held(pc) && PermitOf(pc).None? && PermitOf(pc').None?
            && SessionOf(pc) == ses && SessionOf(pc') == ses && WaitOk(s, t, pc') && Begins(s, t, pc')
  {
  }

  lemma RestDbIsGood(s: State, t: Tid, target: Target, ses: Session)
    requires Inv(s) && t in s.tasks && s.tasks[t] == RestDb(target, ses)
    ensures Good(s, t, StepRestDb(s, t, target, ses))
  {
    hide Replay, Exclusive, Install, SessionOk, PermitOk, Held, PermitOf, SessionOf, WaitOk, Perform, Begins;
    RestoreShape(s, t, target, ses);
    HolderSeesTable(s, t);
    var s' := StepRestDb(s, t, target, ses);
    var item := Item(t, Restored(target));
    PermitStays(s, t, RestCache(target, ses));
    ReplayAppend(s.origin, s.log, item);
    assert Perform(s.db, item.entry) == Install(s.db, target) by { RestorePerforms(s.db, target); }
    PermitKeys(s);
    assert SessionOk(s, t, ses) && PcOk(s, s.tasks[t]);
    SessionGrows(s, t, s', item, ses);
    assert s'.log[..|s'.log| - 1] == s.log;
    assert s'.tasks[t].RestCache?;
    assert Restoring(s');
  }

  lemma RestorePerforms(m: map<Id, Record>, target: Target)
    ensures Perform(m, Restored(target)) == Install(m, target)
  {
  }

  lemma RestCacheIsGood(s: State, t: Tid, target: Target, ses: Session)
    requires Inv(s) && t in s.tasks && s.tasks[t] == RestCache(target, ses)
    ensures Good(s, t, StepRestCache(s, t, target))
  {
    hide Replay, Install, SessionOk, SessionOf, PermitOk, PermitOf, Held, WaitOk;
    assert PcOk(s, s.tasks[t]);
    var s' := StepRestCache(s, t, target);
    RestoreShape(s, t, target, ses);
    DoneHoldsNothing(s, t, Nothing);
    PermitKeys(s);
    SessionStays(s, t, s', Alone);
    PermitStays(s, t, s'.tasks[t]);
    InstallKeepsSubMap(s.cache, s.shown, target);
    assert SessionOf(s'.tasks[t]).Alone?;
    assert !Restoring(s') by {
      hide Frame, OwnOk, PcOk, PermitOf;
      forall u | u in s.tasks && u != t ensures !s.tasks[u].RestCache? {
        assert Held(s.tasks[u]) !! Held(s.tasks[t]);
        if s.tasks[u].RestCache? {
          RestoreShape(s, u, s.tasks[u].target, s.tasks[u].ses);
        }
      }
    }
  }

  lemma InstallKeepsSubMap(m: map<Id, Record>, n: map<Id, Record>, target: Target)
    requires SubMap(m, n)
    ensures SubMap(Install(m, target), Install(n, target))
  {
  }

  // ---------- every step ----------

  /** Waiting for the table, for a save, a delete or an import to begin. */
  lemma WorkMovesAreGood(s: State, t: Tid)
    requires Inv(s) && Ready(s, t)
    requires var pc := s.tasks[t];
             pc.ReloadWait? || pc.ReloadList? || pc.UpdProvider? || pc.UpdAccount?
    ensures Good(s, t, Advance(s, t))
  {
    hide Replay, Good, Exclusive, PermitOk, DataOk, Effect, MergeImport, Free, SessionOk;
    assert PcOk(s, s.tasks[t]);
    match s.tasks[t]
    case ReloadWait(job) => MoveIsGood(s, t, ReloadList(job));
    case ReloadList(job) => MoveIsGood(s, t, ReloadFill(job, s.db));
    case UpdProvider(id, u, via) => MoveIsGood(s, t, UpdAccount(id, u, via));
    case UpdAccount(id, u, via) => MoveIsGood(s, t, Load(id, ForUpdate(u, via)));
    case _ =>
  }

  lemma SaveWaitIsGood(s: State, t: Tid, save: Save)
    requires Inv(s) && Ready(s, t) && s.tasks[t] == SaveWait(save)
    ensures Good(s, t, Move(s, t, SaveEvict(save)))
  {
    hide Replay, Good, Exclusive, PermitOk, DataOk, Effect, MergeImport, SessionOk, Free, SaveOk;
    assert PcOk(s, s.tasks[t]);
    SaveOkMoves(s, t, save, SaveEvict(save));
    MoveIsGood(s, t, SaveEvict(save));
  }

  lemma SaveOkMoves(s: State, t: Tid, save: Save, pc: Pc)
    requires SaveOk(s, save)
    ensures SaveOk(Move(s, t, pc), save)
  {
    hide Effect, MergeImport;
  }

  lemma FollowMoves(s: State, t: Tid)
    requires Inv(s) && t in s.tasks && s.tasks[t].Follow?
    ensures Good(s, t, Advance(s, t))
  {
    hide Replay, Good, Inv;
    var pc := s.tasks[t];
    MoveIsGood(s, t, Load(pc.id, ForFollow(pc.prev, pc.deadline, pc.id in s.refreshing, pc.how)));
  }

  lemma DeleteMovesAreGood(s: State, t: Tid)
    requires Inv(s) && Ready(s, t)
    requires var pc := s.tasks[t];
             pc.DelProvider? || pc.DelAccount? || pc.DelWait? || pc.SesProvider? || pc.ImpProvider?
    ensures Good(s, t, Advance(s, t))
  {
    hide Replay, Good, Inv, Free, Begins;
    PlainBegins(s, t, Advance(s, t).tasks[t]);
    match s.tasks[t]
    case DelProvider(id) => MoveIsGood(s, t, DelAccount(id));
    case DelAccount(id) => MoveIsGood(s, t, DelWait(id));
    case DelWait(id) => MoveIsGood(s, t, DelEvict(id));
    case ImpProvider(r) => MoveIsGood(s, t, ImpIndex(r, Alone));
    case SesProvider => MoveIsGood(s, t, ReloadWait(JobSnapshot));
    case _ =>
  }

  lemma ImportMovesAreGood(s: State, t: Tid)
    requires Inv(s) && Ready(s, t)
    requires s.tasks[t].ImpIndex? || s.tasks[t].ImpAccount?
    ensures Good(s, t, Advance(s, t))
  {
    hide Replay, Good, Exclusive, PermitOk, DataOk, MergeImport, Free, SessionOk, NoMatchIn, SameAccount;
    assert PcOk(s, s.tasks[t]);
    match s.tasks[t]
    case ImpIndex(r, ses) => MoveIsGood(s, t, ReloadWait(JobFind(r, ses)));
    case ImpAccount(id, r, ses, known) => MoveIsGood(s, t, StepImpAccount(s, t, id, r, ses, known).tasks[t]);
    case _ =>
  }

  lemma RestoreMovesOn(s: State, t: Tid, pc: Pc)
    requires Inv(s) && Ready(s, t)
    requires (s.tasks[t].RestProvider? && pc == RestOrder(s.tasks[t].target, Alone))
             || (s.tasks[t].RestOrder? && pc == RestWait(s.tasks[t].target, s.tasks[t].ses))
    ensures Good(s, t, Move(s, t, pc))
  {
    hide Replay, Good, Free, Exclusive, PermitOk, DataOk, SessionOk, Install, Begins;
    assert PcOk(s, s.tasks[t]);
    PlainBegins(s, t, pc);
    MoveIsGood(s, t, pc);
  }

  lemma RestoreWaitIsGood(s: State, t: Tid, target: Target, ses: Session)
    requires Inv(s) && Ready(s, t) && s.tasks[t] == RestWait(target, ses)
    ensures Good(s, t, Move(s, t, RestDb(target, ses)))
  {
    hide Replay, Good, Free, Exclusive, PermitOk, DataOk, SessionOk, Install;
    assert PcOk(s, s.tasks[t]);
    MoveIsGood(s, t, RestDb(target, ses));
  }

  /** The session opens on the rows it has just read. */
  lemma OpenIsGood(s: State, t: Tid)
    requires Inv(s) && t in s.tasks && s.tasks[t] == SesRead
    ensures Good(s, t, Move(s, t, SesOpen(s.cache, |s.log|)))
  {
    hide Replay, Exclusive, DataOk, SessionOk, PermitOk;
    assert PcOk(s, s.tasks[t]);
    PermitKeys(s);
    var s' := Move(s, t, SesOpen(s.cache, |s.log|));
    PermitStays(s, t, s'.tasks[t]);
    QuietKeepsData(s, t, s');
    SessionOpens(s, t, s');
  }

  lemma SessionOpens(s: State, t: Tid, s': State)
    requires DataOk(s) && s.cache == s.db && s'.log == s.log && s'.origin == s.origin
    ensures SessionOk(s', t, Inside(s.cache, |s.log|))
  {
    hide Replay;
    assert s.log[..|s.log|] == s.log;
  }

  lemma RunIsGood(s: State, t: Tid)
    requires Inv(s) && Ready(s, t)
    ensures Good(s, t, Advance(s, t))
  {
    hide Replay, Good, Inv, Resume, StepLoad, StepFill, StepSaveDb, AfterSave, StepDelDb, StepRestDb, StepRestCache,
      StepStart;
    match s.tasks[t]
    case Load(id, p) => LoadIsGood(s, t, id, p);
    case LoadAgain(id, p) => LoadAgainIsGood(s, t, id, p);
    case ReloadFill(job, rows) => FillIsGood(s, t, job, rows);
    case SaveEvict(save) => SaveEvictIsGood(s, t, save);
    case SaveDb(save) => SaveDbIsGood(s, t, save);
    case SaveInsert(save) => SaveInsertIsGood(s, t, save, Advance(s, t));
    case DelEvict(id) => EvictIsGood(s, t, DelDb(id), id);
    case DelDb(id) => DelDbIsGood(s, t, id);
    case RestDb(target, ses) => RestDbIsGood(s, t, target, ses);
    case RestCache(target, ses) => RestCacheIsGood(s, t, target, ses);
    case ReloadWait(_) => WorkMovesAreGood(s, t);
    case ReloadList(_) => WorkMovesAreGood(s, t);
    case UpdProvider(_, _, _) => WorkMovesAreGood(s, t);
    case UpdAccount(_, _, _) => WorkMovesAreGood(s, t);
    case SaveWait(save) => SaveWaitIsGood(s, t, save);
    case Start(id, r, how) => StartIsGood(s, t, id, r, how);
    case Follow(_, _, _, _) => FollowMoves(s, t);
    case ImpIndex(_, _) => ImportMovesAreGood(s, t);
    case ImpAccount(_, _, _, _) => ImportMovesAreGood(s, t);
    case SesRead => OpenIsGood(s, t);
    case RestProvider(target) => RestoreMovesOn(s, t, RestOrder(target, Alone));
    case RestOrder(target, ses) => RestoreMovesOn(s, t, RestWait(target, ses));
    case RestWait(target, ses) => RestoreWaitIsGood(s, t, target, ses);
    case _ => DeleteMovesAreGood(s, t);
  }

  lemma SaveEvictIsGood(s: State, t: Tid, save: Save)
    requires Inv(s) && t in s.tasks && s.tasks[t] == SaveEvict(save)
    ensures Good(s, t, Move(s.(cache := s.cache - {save.id}), t, SaveDb(save)))
  {
    hide Replay, Good, Exclusive, PermitOk, DataOk, Effect, MergeImport, SessionOk;
    assert PcOk(s, s.tasks[t]);
    EvictIsGood(s, t, SaveDb(save), save.id);
  }

  /** A failed import ends, or leaves its session open. */
  lemma ImportFails(s: State, t: Tid, ses: Session)
    requires Inv(s) && t in s.tasks && !s.tasks[t].RestCache? && PermitOf(s.tasks[t]).None?
    requires SessionOf(s.tasks[t]) == ses && (ses.Inside? ==> Provider in Held(s.tasks[t]))
    ensures Good(s, t, EndImport(s, t, ses, false))
  {
    hide Replay, Good, Inv, Free, Held, PermitOf, SessionOf;
    match ses
    case Alone =>
      DoneHoldsNothing(s, t, Failed);
      MoveIsGood(s, t, Done(Failed));
    case Inside(base, mark) =>
      OpenHolds(s, t, base, mark);
      MoveIsGood(s, t, SesOpen(base, mark));
  }

  lemma OpenHolds(s: State, t: Tid, base: map<Id, Record>, mark: nat)
    ensures var pc := SesOpen(base, mark);
            Held(pc) == {Provider} && PermitOf(pc).None? && SessionOf(pc) == Inside(base, mark) && WaitOk(s, t, pc)
  {
  }

  lemma ListFailIsGood(s: State, t: Tid)
    requires Inv(s) && t in s.tasks && s.tasks[t].ReloadList? && !s.tasks[t].job.JobLoad?
    ensures Good(s, t, AfterDbFail(s, t))
  {
    hide Replay, Good, Inv, Resume, AfterSave, Free, EndImport;
    match s.tasks[t].job
    case JobFind(_, ses) => ImportFails(s, t, ses);
    case JobAllot(_, ses) => ImportFails(s, t, ses);
    case _ => EndIsGood(s, t, Failed);
  }

  lemma LoadFailIsGood(s: State, t: Tid, id: Id, p: Purpose)
    requires Inv(s) && t in s.tasks && s.tasks[t] == ReloadList(JobLoad(id, p))
    ensures Good(s, t, Resume(s, t, id, p, None))
  {
    hide Replay, Good, Exclusive, PermitOk, DataOk, SessionOk, Resume;
    assert PcOk(s, s.tasks[t]);
    ResumeIsGood(s, t, id, p, None);
  }

  lemma DbFailIsGood(s: State, t: Tid)
    requires Inv(s) && t in s.tasks && DbCall(s.tasks[t])
    ensures Good(s, t, AfterDbFail(s, t))
  {
    hide Replay, Good, Inv, Resume, AfterSave, EndImport, Held;
    match s.tasks[t]
    case ReloadList(JobLoad(id, p)) => LoadFailIsGood(s, t, id, p);
    case ReloadList(_) => ListFailIsGood(s, t);
    case SaveDb(save) => SaveFailIsGood(s, t, save);
    case _ => EndIsGood(s, t, Failed);
  }

  lemma InitialShape(s: State, t: Tid, pc: Pc)
    requires Initial(pc)
    ensures Held(pc) == {} && PermitOf(pc).None? && SessionOf(pc).Alone? && WaitOk(s, t, pc) && PcOk(s, pc)
    ensures !pc.RestCache? && (t !in s.tasks ==> Begins(s, t, pc))
  {
    hide Replay;
  }

  lemma SpawnIsGood(s: State, t: Tid, pc: Pc)
    requires Inv(s) && t !in s.tasks && Initial(pc)
    ensures Good(s, t, Move(s, t, pc))
  {
    hide Replay, Exclusive, DataOk, Held, PermitOf, SessionOf, WaitOk, PcOk, Initial, Begins;
    InitialShape(s, t, pc);
    InitialShape(Move(s, t, pc), t, pc);
    assert PermitOk(s);
    assert forall id :: Get(s.permit, id) != Some(t);
    QuietKeepsData(s, t, Move(s, t, pc));
  }

  lemma AnswerIsGood(s: State, t: Tid, e: Event, s': State)
    requires Inv(s) && Step(s, t, e, s')
    requires e.Tokens? || e.Rejected?
    ensures Good(s, t, s')
  {
    hide Replay, Good, Inv, Free;
    var pc := s.tasks[t];
    match e
    case Tokens(resp, claims) =>
      MoveIsGood(s, t, UpdProvider(pc.id, Token(pc.rec, resp, claims), Refreshing(pc.how)));
    case Rejected(invalidGrant) =>
      if invalidGrant {
        MoveIsGood(s, t, UpdProvider(pc.id, InvalidGrant(pc.rec), Refreshing(pc.how)));
      } else {
        EndIsGood(s, t, Failed);
      }
    case _ =>
  }

  lemma ImportChoiceIsGood(s: State, t: Tid, e: Event, s': State)
    requires Inv(s) && Step(s, t, e, s') && (e.Match? || e.NoMatch? || e.Allot?)
    ensures Good(s, t, s')
  {
    hide Inv, Good, Advance, AfterDbFail, SameAccount, NoMatchIn;
    var pc := s.tasks[t];
    match e
    case Match(id) => PickIsGood(s, t, id, pc.imported, pc.ses, true);
    case NoMatch => NoMatchIsGood(s, t, pc.imported, pc.ses);
    case Allot(id) => PickIsGood(s, t, id, pc.imported, pc.ses, false);
    case _ =>
  }

  lemma PickIsGood(s: State, t: Tid, id: Id, imported: Record, ses: Session, known: bool)
    requires Inv(s) && t in s.tasks
    requires if known then s.tasks[t] == ImpFind(imported, ses) && id in s.cache && SameAccount(imported, s.cache[id])
             else s.tasks[t] == ImpAllot(imported, ses) && id !in s.cache
    ensures Good(s, t, Move(s, t, ImpAccount(id, imported, ses, known)))
  {
    hide Replay, Good, Exclusive, PermitOk, DataOk, SameAccount, NoMatchIn, Free, SessionOk, Begins;
    assert PcOk(s, s.tasks[t]);
    PlainBegins(s, t, ImpAccount(id, imported, ses, known));
    MoveIsGood(s, t, ImpAccount(id, imported, ses, known));
  }

  lemma NoMatchIsGood(s: State, t: Tid, imported: Record, ses: Session)
    requires Inv(s) && t in s.tasks && s.tasks[t] == ImpFind(imported, ses) && NoMatchIn(s.cache, imported)
    ensures Good(s, t, Move(s, t, ReloadWait(JobAllot(imported, ses))))
  {
    hide Replay, Good, Exclusive, PermitOk, DataOk, NoMatchIn, Free, SessionOk, Begins;
    assert PcOk(s, s.tasks[t]);
    PlainBegins(s, t, ReloadWait(JobAllot(imported, ses)));
    MoveIsGood(s, t, ReloadWait(JobAllot(imported, ses)));
  }

  lemma NoNameIsGood(s: State, t: Tid)
    requires Inv(s) && t in s.tasks && s.tasks[t].ImpAllot?
    ensures Good(s, t, EndImport(s, t, s.tasks[t].ses, false))
  {
    hide Replay, Good, Inv, Free, EndImport;
    ImportFails(s, t, s.tasks[t].ses);
  }

  lemma SessionChoiceIsGood(s: State, t: Tid, e: Event, s': State)
    requires Inv(s) && Step(s, t, e, s') && (e.SessionImport? || e.SessionCommit? || e.SessionRollback?)
    ensures Good(s, t, s')
  {
    hide Replay, Good, Inv, SameAccount, Free;
    var pc := s.tasks[t];
    match e
    case SessionImport(r) => MoveIsGood(s, t, ImpIndex(r, Inside(pc.base, pc.mark)));
    case SessionCommit => MoveIsGood(s, t, Done(Nothing));
    case SessionRollback => MoveIsGood(s, t, RestOrder(All(pc.base), Inside(pc.base, pc.mark)));
    case _ =>
  }

  lemma StepIsGood(s: State, t: Tid, e: Event, s': State)
    requires Inv(s) && Step(s, t, e, s')
    ensures Good(s, t, s')
  {
    hide Replay, Good, Inv, Advance, AfterDbFail;
    match e
    case Run => RunIsGood(s, t);
    case DbFail => DbFailIsGood(s, t);
    case Cancel => EndIsGood(s, t, Failed);
    case Spawn(pc) => SpawnIsGood(s, t, pc);
    case Tokens(_, _) => AnswerIsGood(s, t, e, s');
    case Rejected(_) => AnswerIsGood(s, t, e, s');
    case SessionImport(_) => SessionChoiceIsGood(s, t, e, s');
    case SessionCommit => SessionChoiceIsGood(s, t, e, s');
    case SessionRollback => SessionChoiceIsGood(s, t, e, s');
    case NoName => NoNameIsGood(s, t);
    case _ => ImportChoiceIsGood(s, t, e, s');
  }

  lemma TickKeepsInv(s: State, seconds: nat)
    requires Inv(s)
    ensures Inv(s.(now := s.now + seconds))
  {
    hide Replay, Effect, MergeImport, Held, PermitOf, SessionOf;
    var s' := s.(now := s.now + seconds);
    forall t | t in s'.tasks ensures PcOk(s', s'.tasks[t]) && SessionOk(s', t, SessionOf(s'.tasks[t])) {
      assert PcOk(s, s.tasks[t]) && SessionOk(s, t, SessionOf(s.tasks[t]));
    }
    assert Restoring(s') ==> Restoring(s) by {
      if Restoring(s') {
        var t :| t in s'.tasks && s'.tasks[t].RestCache?;
        assert t in s.tasks && s.tasks[t].RestCache?;
      }
    }
    assert Restoring(s) ==> Restoring(s') by {
      if Restoring(s) {
        var t :| t in s.tasks && s.tasks[t].RestCache?;
        assert t in s'.tasks && s'.tasks[t].RestCache?;
      }
    }
  }

  lemma NextKeepsInv(s: State, l: Label, s': State)
    requires Inv(s) && Next(s, l, s')
    ensures Inv(s')
  {
    hide Replay, Inv, Step;
    match l
    case Task(t, e) =>
      StepIsGood(s, t, e, s');
      FrameKeepsInv(s, t, s');
    case Tick(seconds) => TickKeepsInv(s, seconds);
  }

  /** Every reachable state satisfies the invariant. */
  lemma {:induction false} RunKeepsInv(states: seq<State>, labels: seq<Label>, i: nat)
    requires IsRun(states, labels) && i < |states|
    ensures Inv(states[i])
  {
    hide Step, PcOk, Held, PermitOf, SessionOf, SessionOk;
    if i == 0 {
      assert states[0].log == [];
    } else {
      RunKeepsInv(states, labels, i - 1);
      assert Next(states[i - 1], labels[i - 1], states[i - 1 + 1]);
      NextKeepsInv(states[i - 1], labels[i - 1], states[i]);
    }
  }
}
