/** Every step of the Codex store keeps the invariant and stays inside its frame. */
module CodexSteps {
  import opened Prelude
  import opened CodexTypes
  import opened CodexMachine
  import opened CodexInvariant
  import opened CodexRules

  /** The step from `s` to `s'` moved task `t`, touched only what `t` may touch, and is accounted for. */
  ghost predicate Good(s: State, t: Tid, s': State) {
    Frame(s, t, s') && OwnOk(s', t) && DataOk(s')
  }

  /** What the invariant says about one task. */
  lemma TaskFacts(s: State, t: Tid)
    requires Inv(s) && t in s.tasks
    ensures PcOk(s, s.tasks[t])
    ensures HoldsGate(s.tasks[t]) <==> s.gate == Some(t)
    ensures PermitOf(s.tasks[t]).Some? ==> Get(s.permit, PermitOf(s.tasks[t]).value) == Some(t)
    ensures s.gate == Some(t) ==>
              s.store.db == if Pending(s.tasks[t]).Some? then Perform(s.spec, Pending(s.tasks[t]).value) else s.spec
    ensures s.spec == Replay(s.origin, s.log)
    ensures SubMap(s.store.cache, s.spec)
    ensures forall id :: id in s.permit <==> id in s.store.refreshing
    ensures SessionOk(s, t, SessionOf(s.tasks[t])) && (!HoldsGate(s.tasks[t]) ==> SessionOf(s.tasks[t]).Alone?)
  {
    hide Perform, Replay;
    SessionsHoldTheGate(s.tasks[t]);
  }

  /** A step that ends neither in an answer with credentials nor on the way to a refresh. */
  lemma QuietRules(s: State, t: Tid, pc: Pc)
    requires PermitOf(pc).None? && !pc.Follow? && (pc.Done? ==> pc.reply.Nothing? || pc.reply.Failed?)
    requires Updating(pc).Some? ==> t in s.tasks && MayDecide(s.tasks[t])
    ensures PcRules(s, t, pc)
  {
    hide ReplyOk;
    assert ReplyOk(s, pc) by { QuietReply(s, pc); }
  }

  lemma QuietReply(s: State, pc: Pc)
    requires pc.Done? ==> pc.reply.Nothing? || pc.reply.Failed?
    ensures ReplyOk(s, pc)
  {
  }

  /** The task neither takes nor drops a guard, and nothing of it is half done. */
  lemma MoveGood(s: State, t: Tid, pc: Pc)
    requires Inv(s) && t in s.tasks && PcOk(s, pc)
    requires HoldsGate(pc) == HoldsGate(s.tasks[t]) && PermitOf(pc) == PermitOf(s.tasks[t])
    requires Pending(pc) == None && Pending(s.tasks[t]) == None
    requires PcRules(s, t, pc) && (SessionOf(pc) == SessionOf(s.tasks[t]) || SessionOf(pc).Alone?)
    ensures Good(s, t, Move(s, t, pc))
  {
    hide PcRules, HoldsGate, PermitOf, SessionOf, PcOk, Pending, Replay, Perform;
    var s' := Move(s, t, pc);
    PcOkSame(s, s', pc);
    assert SessionOk(s, t, SessionOf(s.tasks[t]));
    assert PendingOf(s') == PendingOf(s);
  }

  /** The task takes the free gate. */
  lemma AcquireGood(s: State, t: Tid, pc: Pc)
    requires Inv(s) && t in s.tasks && s.gate.None? && PcOk(s, pc)
    requires HoldsGate(pc) && PermitOf(pc) == PermitOf(s.tasks[t]) && Pending(pc) == None
    requires PcRules(s, t, pc) && SessionOf(pc).Alone?
    ensures Good(s, t, Acquire(s, t, pc))
  {
    hide PcRules, HoldsGate, PermitOf, SessionOf, PcOk, Pending, Replay, Perform;
    PcOkSame(s, Acquire(s, t, pc), pc);
    PendingHoldsTheGate(s.tasks[t]);
    assert SessionOk(s, t, SessionOf(s.tasks[t]));
  }

  /** The task lets go of the gate with nothing half done. */
  lemma ReleaseGood(s: State, t: Tid, pc: Pc)
    requires Inv(s) && t in s.tasks && s.gate == Some(t) && PcOk(s, pc)
    requires !HoldsGate(pc) && PermitOf(pc) == PermitOf(s.tasks[t]) && Pending(s.tasks[t]) == None
    requires PcRules(s, t, pc)
    ensures Good(s, t, Release(s, t, pc))
  {
    hide PcRules, HoldsGate, PermitOf, SessionOf, PcOk, Pending, Replay, Perform;
    SessionsHoldTheGate(pc);
    PcOkSame(s, Release(s, t, pc), pc);
    PendingHoldsTheGate(pc);
  }

  /** The gate holder changed table, cache or history, lifted marks or cooldowns, and added none. */
  lemma HolderGood(s: State, t: Tid, s': State)
    requires Inv(s) && t in s.tasks && s.gate == Some(t)
    requires t in s'.tasks && s'.tasks == s.tasks[t := s'.tasks[t]]
    requires s'.origin == s.origin && s'.now == s.now && s'.permit == s.permit
    requires s'.store.refreshing == s.store.refreshing
    requires s'.gate == s.gate || s'.gate.None?
    requires SubMap(s'.store.rejRefresh, s.store.rejRefresh) && SubMap(s'.store.cooldowns, s.store.cooldowns)
    requires PermitOf(s'.tasks[t]) == PermitOf(s.tasks[t])
    requires HoldsGate(s'.tasks[t]) <==> s'.gate == Some(t)
    requires PcOk(s', s'.tasks[t]) && DataOk(s') && SessionOk(s', t, SessionOf(s'.tasks[t]))
    requires PcRules(s, t, s'.tasks[t]) && CooldownStep(s, t, s') && MarkStep(s, t, s') && AtomicStep(s, t, s')
    ensures Good(s, t, s')
  {
    hide PcRules, CooldownStep, MarkStep, AtomicStep, SessionOk, DataOk, PcOk;
  }

  /** The gate holder writes the table; the cache write of the same operation is still to come. */
  lemma TableWriteGood(s: State, t: Tid, pc: Pc, s': State)
    requires Inv(s) && t in s.tasks && s.gate == Some(t) && Pending(s.tasks[t]).None? && Pending(pc).Some?
    requires s' == Move(s.(store := s.store.(db := Perform(s.spec, Pending(pc).value))), t, pc)
    requires PermitOf(pc) == PermitOf(s.tasks[t]) && HoldsGate(pc) && SessionOf(pc) == SessionOf(s.tasks[t])
    requires PcOk(s, pc) && PcRules(s, t, pc)
    ensures Good(s, t, s')
  {
    hide PcRules, HoldsGate, PermitOf, SessionOf, Pending, PcOk, Replay, Perform, NoTarget, ImportInto;
    assert PcOk(s', pc) by { PcOkAfterWrite(s, s', pc); }
    assert SessionOk(s, t, SessionOf(s.tasks[t]));
  }

  lemma PcOkAfterWrite(s: State, s': State, pc: Pc)
    requires PcOk(s, pc) && Pending(pc).Some? && s'.spec == s.spec
    ensures PcOk(s', pc)
  {
    hide NoTarget, ImportInto, Effect, FailureCooldown, RefreshRejected, Perform, LoadShape, WriteShape;
  }

  /** A task outside the gate changed what its permit covers, and its own place. */
  lemma FreeGood(s: State, t: Tid, s': State)
    requires Inv(s) && t in s.tasks && !HoldsGate(s.tasks[t])
    requires t in s'.tasks && s'.tasks == s.tasks[t := s'.tasks[t]] && !HoldsGate(s'.tasks[t])
    requires s'.gate == s.gate && s'.origin == s.origin && s'.now == s.now && s'.log == s.log && s'.spec == s.spec
    requires s'.store.db == s.store.db && s'.store.cache == s.store.cache
    requires forall id :: id in s'.store.rejRefresh ==>
               Get(s'.store.rejRefresh, id) == Get(s.store.rejRefresh, id) || Get(s.permit, id) == Some(t)
    requires forall id :: id in s'.store.cooldowns ==>
               Get(s'.store.cooldowns, id) == Get(s.store.cooldowns, id) || Get(s.permit, id) == Some(t)
    requires forall id :: Get(s'.permit, id) == Get(s.permit, id)
               || (Get(s.permit, id) == Some(t) && id !in s'.permit)
               || (id !in s.permit && Get(s'.permit, id) == Some(t))
    requires s'.permit.Keys == s'.store.refreshing
    requires PermitOf(s'.tasks[t]).Some? ==> Get(s'.permit, PermitOf(s'.tasks[t]).value) == Some(t)
    requires forall id :: Get(s'.permit, id) == Some(t) ==> PermitOf(s'.tasks[t]) == Some(id)
    requires PcOk(s', s'.tasks[t]) && PcRules(s, t, s'.tasks[t]) && MarkStep(s, t, s') && CooldownStep(s, t, s')
    ensures Good(s, t, s')
  {
    hide PcRules, CooldownStep, MarkStep, PermitOf, SessionOf, PcOk, Replay, Perform;
    SessionsHoldTheGate(s'.tasks[t]);
    PendingHoldsTheGate(s.tasks[t]);
    PendingHoldsTheGate(s'.tasks[t]);
    assert PendingOf(s') == PendingOf(s);
  }

  lemma PendingHoldsTheGate(pc: Pc)
    ensures !HoldsGate(pc) ==> Pending(pc).None?
  {
  }

  /** Completing an operation, or none, keeps the session the task is in. */
  lemma SessionGrows(s: State, t: Tid, s': State, ses: Session)
    requires SessionOk(s, t, ses) && AtomicStep(s, t, s') && s'.origin == s.origin
    ensures SessionOk(s', t, ses)
  {
    hide Perform, Pending;
    if ses.Inside? {
      assert s'.log[..ses.mark] == s.log[..ses.mark];
    }
  }

  /** The task drops the refresh permit. */
  lemma DropGood(s: State, t: Tid, id: Id, pc: Pc)
    requires Inv(s) && t in s.tasks && PermitOf(s.tasks[t]) == Some(id) && PcOk(s, pc)
    requires !HoldsGate(s.tasks[t]) && !HoldsGate(pc) && PermitOf(pc) == None
    requires !pc.Cooling? && !pc.Sending? && !pc.Exchange? && PcRules(s, t, pc)
    ensures Good(s, t, Move(DropPermit(s, id), t, pc))
  {
    hide PcRules, Good, PermitOf, HoldsGate, DataOk, GateOk, SessionOf, SessionOk, AccessRejected;
    var s' := Move(DropPermit(s, id), t, pc);
    PcOkAfterDrop(s, s', pc);
    FreeGood(s, t, s');
  }

  /** What a task relies on survives the loss of a permit, unless the permit itself protected it. */
  lemma PcOkAfterDrop(s: State, s': State, pc: Pc)
    requires PcOk(s, pc) && !pc.Cooling? && !pc.Sending?
    requires s'.store.cache == s.store.cache && s'.spec == s.spec
    ensures PcOk(s', pc)
  {
    hide NoTarget, ImportInto, Effect, RefreshRejected, FailureCooldown, Perform, LoadShape, WriteShape;
  }

  /** The continuation after a permit is gone holds no guard and answers by the rules. */
  lemma FinishShape(s: State, s0: State, t: Tid, id: Id, mode: Mode, outcome: Outcome)
    requires s.now == s0.now && s.store.rejAccess == s0.store.rejAccess
    ensures var pc := Finish(s, id, mode, outcome);
            (pc.Done? || (pc.LoadRead? && pc.k == ThenFallback)) && PcRules(s0, t, pc)
  {
  }

  lemma LeaveGood(s: State, t: Tid, id: Id, mode: Mode, outcome: Outcome)
    requires Inv(s) && t in s.tasks && PermitOf(s.tasks[t]) == Some(id) && !HoldsGate(s.tasks[t])
    ensures Good(s, t, LeaveRefresh(s, t, id, mode, outcome))
  {
    hide Inv, Good, Finish, PcRules;
    FinishShape(DropPermit(s, id), s, t, id, mode, outcome);
    DropGood(s, t, id, Finish(DropPermit(s, id), id, mode, outcome));
  }

  /** The task has reloaded its account after the exchange of `sent` failed. */
  predicate LoadsFor(pc: Pc, id: Id, sent: Record) {
    (pc.LoadRead? || pc.LoadAgain?) && pc.id == id && pc.k.ThenFailure? && pc.k.sent == sent
  }

  /** A permit holder marks its account's refresh token as rejected. */
  lemma MarkGood(s: State, t: Tid, id: Id, sent: Record, token: string, pc: Pc)
    requires Inv(s) && t in s.tasks && PermitOf(s.tasks[t]) == Some(id) && !HoldsGate(s.tasks[t])
    requires PermitOf(pc) == Some(id) && !HoldsGate(pc) && PcOk(s, pc) && !pc.Cooling? && !pc.Sending?
    requires LoadsFor(s.tasks[t], id, sent) && sent.credential.Oauth? && sent.credential.oauth.refresh == token
    requires id in s.store.cache && NamesRefresh(s.store.cache[id], token) && PcRules(s, t, pc)
    ensures Good(s, t, Move(s.(store := s.store.(rejRefresh := s.store.rejRefresh[id := token])), t, pc))
  {
    hide PcRules, Good, PermitOf, HoldsGate, DataOk, GateOk, SessionOf, SessionOk, NamesRefresh;
    var s' := Move(s.(store := s.store.(rejRefresh := s.store.rejRefresh[id := token])), t, pc);
    assert Get(s.permit, id) == Some(t);
    PcOkAfterDrop(s, s', pc);
    assert MarkStep(s, t, s');
    hide MarkStep, PcOk;
    FreeGood(s, t, s');
  }

  /** The failure path is the only place that marks a refresh token; it holds the permit. */
  lemma AfterFailureGood(s: State, t: Tid, id: Id, sent: Record, mode: Mode, relogin: bool, got: Option<Record>)
    requires Inv(s) && t in s.tasks && PermitOf(s.tasks[t]) == Some(id) && !HoldsGate(s.tasks[t])
    requires CanSend(sent) && LoadsFor(s.tasks[t], id, sent) && (got.Some? ==> got == Get(s.store.cache, id))
    ensures Good(s, t, AfterFailure(s, t, id, sent, mode, relogin, got))
  {
    hide Inv, Good, WasRefreshed, IsUsable, AccessRejected, RefreshClient, NamesRefresh;
    if got.Some? && !WasRefreshed(sent, got.value) {
      SameRefresh(sent, got.value);
    }
    if got.None? || (!WasRefreshed(sent, got.value) && !relogin) {
      MoveGood(s, t, Note(id, mode, Transient));
    } else if WasRefreshed(sent, got.value) {
      MoveGood(s, t, Note(id, mode, Got(got.value)));
    } else if !IsUsable(got.value, s.now) || AccessRejected(s.store, id, got.value) {
      MarkGood(s, t, id, sent, sent.credential.oauth.refresh, MutGate(id, MarkInvalid(sent), ToNoteInvalid(mode)));
    } else {
      MarkGood(s, t, id, sent, sent.credential.oauth.refresh, Note(id, mode, Relogin));
    }
  }

  lemma SameRefresh(sent: Record, current: Record)
    requires sent.credential.Oauth? && !WasRefreshed(sent, current)
    ensures NamesRefresh(current, sent.credential.oauth.refresh)
  {
  }

  lemma WithPermitGood(s: State, t: Tid, id: Id, prev: Record, mode: Mode, got: Option<Record>)
    requires Inv(s) && t in s.tasks && PermitOf(s.tasks[t]) == Some(id) && !HoldsGate(s.tasks[t])
    requires Pending(s.tasks[t]) == None && (got.Some? ==> got == Get(s.store.cache, id))
    ensures Good(s, t, WithPermit(s, t, id, prev, mode, got))
  {
    hide Inv, Good, WasRefreshed, LeaveRefresh, RefreshRejected;
    if got.None? {
      LeaveGood(s, t, id, mode, Transient);
    } else if WasRefreshed(prev, got.value) {
      LeaveGood(s, t, id, mode, Got(got.value));
    } else if got.value.status == Invalid || RefreshRejected(s.store, id, got.value) {
      LeaveGood(s, t, id, mode, Relogin);
    } else {
      MoveGood(s, t, Cooling(id, got.value, mode));
    }
  }

  /** Whoever serves credentials after a load has checked them against the marks. */
  lemma ServeShape(s: State, t: Tid, id: Id, k: AfterLoad, got: Option<Record>)
    requires k.ThenServe? || k.ThenFallback? || k.ThenHeader?
    ensures var pc := Resume(s, t, id, k, got).tasks[t];
            (pc.Done? || pc.Start?) && PcRules(s, t, pc) && Resume(s, t, id, k, got) == Move(s, t, pc)
  {
    hide NeedsRefresh, Blank, ThresholdReached, IsExpired;
  }

  lemma OtherResumeShape(s: State, t: Tid, id: Id, k: AfterLoad, got: Option<Record>)
    requires k.ThenMutate? || k.ThenManual? || k.ThenDue? || k.ThenQuota? || k.ThenQuotaHeader? || k.ThenQuotaError?
    requires LoadShape(k)
    ensures var pc := Resume(s, t, id, k, got).tasks[t];
            PcOk(s, pc) && PermitOf(pc).None? && !HoldsGate(pc) && Pending(pc).None? && !pc.Follow?
            && (pc.Done? ==> pc.reply.Nothing? || pc.reply.Failed?) && Resume(s, t, id, k, got) == Move(s, t, pc)
  {
    hide NeedsRefresh, Blank, IsUsable, CanAutoRefresh, AccessRejected, RefreshRejected;
  }

  lemma ResumeGood(s: State, t: Tid, id: Id, k: AfterLoad, got: Option<Record>)
    requires Inv(s) && t in s.tasks && !HoldsGate(s.tasks[t]) && LoadShape(k)
    requires s.tasks[t] == LoadRead(id, k) || s.tasks[t] == LoadAgain(id, k)
    requires got.Some? ==> got == Get(s.store.cache, id)
    ensures Good(s, t, Resume(s, t, id, k, got))
  {
    hide Inv, Good, PcRules;
    match k
    case ThenRefresh(prev, mode) =>
      hide WithPermit;
      WithPermitGood(s, t, id, prev, mode, got);
    case ThenFailure(sent, mode, relogin) =>
      hide AfterFailure;
      AfterFailureGood(s, t, id, sent, mode, relogin, got);
    case ThenFollow(prev, mode) =>
      hide Finish, AccessRejected, WasRefreshed;
      FinishShape(s, s, t, id, mode, Transient);
      if got.Some? {
        FinishShape(s, s, t, id, mode, Got(got.value));
        QuietRules(s, t, FollowCooldown(id, got.value, mode));
      }
      MoveGood(s, t, AfterWait(s, id, prev, mode, got));
    case _ =>
      PlainResumeGood(s, t, id, k, got);
  }

  lemma PlainResumeGood(s: State, t: Tid, id: Id, k: AfterLoad, got: Option<Record>)
    requires Inv(s) && t in s.tasks && LoadShape(k) && (s.tasks[t] == LoadRead(id, k) || s.tasks[t] == LoadAgain(id, k))
    requires !k.ThenRefresh? && !k.ThenFailure? && !k.ThenFollow?
    ensures Good(s, t, Resume(s, t, id, k, got))
  {
    hide Inv, Good, PcRules, Resume, LoadShape;
    if k.ThenServe? || k.ThenFallback? || k.ThenHeader? {
      ServeShape(s, t, id, k, got);
    } else {
      OtherResumeShape(s, t, id, k, got);
      QuietRules(s, t, Resume(s, t, id, k, got).tasks[t]);
    }
    SessionsHoldTheGate(Resume(s, t, id, k, got).tasks[t]);
    MoveGood(s, t, Resume(s, t, id, k, got).tasks[t]);
  }

  lemma FillRules(s: State, t: Tid, pc: Pc, job: Job)
    requires t in s.tasks && s.tasks[t].Filling? && s.tasks[t].job == job
    requires match job
             case JobLoad(id, k) => pc == LoadAgain(id, k)
             case _ => pc.ImpPick? || pc.ImpAllot? || pc.SesOpen?
    ensures PcRules(s, t, pc)
  {
  }

  lemma FillingData(s: State, t: Tid, job: Job, snapshot: map<Id, Record>, s': State)
    requires Inv(s) && t in s.tasks && s.tasks[t] == Filling(job, snapshot) && s' == StepFilling(s, t, job, snapshot)
    ensures MarkStep(s, t, s') && AtomicStep(s, t, s') && CooldownStep(s, t, s') && DataOk(s')
  {
    hide Inv, Replay, Perform, NoTarget;
    TaskFacts(s, t);
  }

  lemma FillingGood(s: State, t: Tid, job: Job, snapshot: map<Id, Record>)
    requires Inv(s) && t in s.tasks && s.tasks[t] == Filling(job, snapshot)
    ensures Good(s, t, StepFilling(s, t, job, snapshot))
  {
    hide Inv, Good, PcRules, NoTarget, Replay, AccessRejected,
      MarkStep, AtomicStep, CooldownStep, DataOk;
    TaskFacts(s, t);
    assert s.log[..|s.log|] == s.log;
    var s' := StepFilling(s, t, job, snapshot);
    FillRules(s, t, s'.tasks[t], job);
    FillingData(s, t, job, snapshot, s');
    HolderGood(s, t, s');
  }

  /** After a gated update the task holds the permit it held before, and no gate. */
  lemma AfterMutationShape(s: State, t: Tid, id: Id, m: Mutation, w: AfterWrite, outcome: Outcome)
    requires WriteShape(m, w) && t in s.tasks && PermitOf(s.tasks[t]) == PermitOf(MutRead(id, m, w))
    requires s.tasks[t].MutRead? || s.tasks[t].MutDb? || s.tasks[t].MutCache?
    ensures var pc := AfterMutation(s, id, w, outcome);
            !HoldsGate(pc) && Pending(pc) == None && PcOk(s, pc) && PermitOf(pc) == PermitOf(MutRead(id, m, w))
            && PcRules(s, t, pc)
  {
  }

  lemma MutReadGood(s: State, t: Tid, id: Id, m: Mutation, w: AfterWrite)
    requires Inv(s) && t in s.tasks && s.tasks[t] == MutRead(id, m, w)
    ensures Good(s, t, StepMutRead(s, t, id, m, w))
  {
    hide Inv, Good, AfterMutation;
    TaskFacts(s, t);
    if id !in s.store.cache {
      AfterMutationShape(s, t, id, m, w, Transient);
      ReleaseGood(s, t, AfterMutation(s, id, w, Transient));
    } else {
      var cur := s.store.cache[id];
      match Effect(m, cur)
      case Write(next) => MoveGood(s, t, MutDb(id, m, w, next));
      case Keep =>
        AfterMutationShape(s, t, id, m, w, Got(cur));
        ReleaseGood(s, t, AfterMutation(s, id, w, Got(cur)));
      case Refuse =>
        AfterMutationShape(s, t, id, m, w, Transient);
        ReleaseGood(s, t, AfterMutation(s, id, w, Transient));
    }
  }

  lemma MutDbGood(s: State, t: Tid, id: Id, m: Mutation, w: AfterWrite, next: Record)
    requires Inv(s) && t in s.tasks && s.tasks[t] == MutDb(id, m, w, next)
    ensures Good(s, t, StepMutDb(s, t, id, m, w, next))
  {
    hide Inv, Good, Replay;
    TaskFacts(s, t);
    TableWriteGood(s, t, MutCache(id, m, w, next), StepMutDb(s, t, id, m, w, next));
  }

  /** Once the cache entry follows the table row, nothing is half done any more. */
  lemma SavedDataOk(s: State, t: Tid, e: Entry, id: Id, next: Record, s': State)
    requires Inv(s) && t in s.tasks && s.gate == Some(t) && Pending(s.tasks[t]) == Some(e)
    requires Perform(s.spec, e) == s.spec[id := next]
    requires s'.store.db == s.store.db && s'.store.cache == s.store.cache[id := next]
    requires s'.origin == s.origin && s'.log == s.log + [Item(t, e)] && s'.spec == Perform(s.spec, e)
    requires PendingOf(s') == None
    ensures DataOk(s')
  {
    ReplayAppend(s.origin, s.log, Item(t, e));
  }

  lemma MutCacheGood(s: State, t: Tid, id: Id, m: Mutation, w: AfterWrite, next: Record)
    requires Inv(s) && t in s.tasks && s.tasks[t] == MutCache(id, m, w, next)
    ensures Good(s, t, StepMutCache(s, t, id, m, w, next))
  {
    hide Inv, Good, Replay, NoTarget, AccessRejected;
    TaskFacts(s, t);
    var s' := StepMutCache(s, t, id, m, w, next);
    ReplayAppend(s.origin, s.log, Item(t, Mutated(id, m)));
    assert s'.spec == s.spec[id := next];
    AfterMutationShape(s, t, id, m, w, WriteOutcome(s, w, next));
    hide AfterMutation, WriteOutcome, Effect;
    HolderGood(s, t, s');
  }

  lemma DelDbGood(s: State, t: Tid, id: Id)
    requires Inv(s) && t in s.tasks && s.tasks[t] == DelDb(id)
    ensures Good(s, t, StepDelDb(s, t, id))
  {
    hide Inv, Good, PcRules, Replay, NoTarget, IsTarget, AccessRejected, MergeImport, NewTokens;
    TaskFacts(s, t);
    QuietRules(s, t, StepDelDb(s, t, id).tasks[t]);
    HolderGood(s, t, StepDelDb(s, t, id));
  }

  lemma DelCacheGood(s: State, t: Tid, id: Id)
    requires Inv(s) && t in s.tasks && s.tasks[t] == DelCache(id)
    ensures Good(s, t, StepDelCache(s, t, id))
  {
    hide Inv, Good, PcRules, Replay, NoTarget, IsTarget, AccessRejected, MergeImport, NewTokens;
    TaskFacts(s, t);
    ReplayAppend(s.origin, s.log, Item(t, Deleted(id)));
    QuietRules(s, t, StepDelCache(s, t, id).tasks[t]);
    HolderGood(s, t, StepDelCache(s, t, id));
  }

  lemma ImpDbGood(s: State, t: Tid, id: Id, r: Record, ses: Session)
    requires Inv(s) && t in s.tasks && s.tasks[t] == ImpDb(id, r, ses)
    ensures Good(s, t, StepImpDb(s, t, id, r, ses))
  {
    hide Inv, Good, PcRules, Replay, NoTarget, IsTarget, AccessRejected, MergeImport, NewTokens;
    TaskFacts(s, t);
    var s' := StepImpDb(s, t, id, r, ses);
    QuietRules(s, t, s'.tasks[t]);
    TableWriteGood(s, t, s'.tasks[t], s');
  }

  lemma SaveOnlyLifts(st: Store, id: Id, r: Record)
    ensures var st' := SaveToCache(st, id, r);
            && SubMap(st'.rejRefresh, st.rejRefresh) && st'.cooldowns == st.cooldowns
            && st'.refreshing == st.refreshing && st'.db == st.db && st'.cache == st.cache[id := r]
  {
  }

  lemma ImportedRules(s: State, t: Tid, id: Id, r: Record, next: Record, s': State)
    requires t in s.tasks && s.tasks[t].ImpCache? && s.tasks[t].next == next
    requires Pending(s.tasks[t]) == Some(Imported(id, r))
    requires s' == Complete(s.(store := SaveToCache(s.store, id, next)), t, Imported(id, r)).(
                     gate := s'.gate, tasks := s'.tasks)
    ensures MarkStep(s, t, s') && AtomicStep(s, t, s')
  {
    hide Perform, SaveToCache;
  }

  /** The cache half of an import, whatever the task does next. */
  lemma ImportedGood(s: State, t: Tid, id: Id, r: Record, next: Record, s': State)
    requires Inv(s) && t in s.tasks && s.gate == Some(t) && PermitOf(s.tasks[t]) == None
    requires s.tasks[t].ImpCache? && s.tasks[t].next == next && Pending(s.tasks[t]) == Some(Imported(id, r))
    requires Perform(s.spec, Imported(id, r)) == s.spec[id := next] && SessionOk(s, t, SessionOf(s.tasks[t]))
    requires t in s'.tasks && s'.tasks == s.tasks[t := s'.tasks[t]]
    requires var pc := s'.tasks[t]; pc.ImpClear? || pc.SesOpen? || pc.Done?
    requires s'.tasks[t].Done? ==> s'.tasks[t].reply == Nothing
    requires SessionOf(s'.tasks[t]) == SessionOf(s.tasks[t]) || SessionOf(s'.tasks[t]).Alone?
    requires s'.gate == if s'.tasks[t].Done? then None else s.gate
    requires s' == Complete(s.(store := SaveToCache(s.store, id, next)), t, Imported(id, r)).(
                     gate := s'.gate, tasks := s'.tasks)
    ensures Good(s, t, s')
  {
    hide Inv, DataOk, Perform, PcRules, Good, SaveToCache, SessionOf, MarkStep, AtomicStep;
    SaveOnlyLifts(s.store, id, next);
    SavedDataOk(s, t, Imported(id, r), id, next, s');
    QuietRules(s, t, s'.tasks[t]);
    ImportedRules(s, t, id, r, next, s');
    SessionGrows(s, t, s', SessionOf(s.tasks[t]));
    HolderGood(s, t, s');
  }

  lemma ImpCacheGood(s: State, t: Tid, id: Id, r: Record, ses: Session, next: Record, clear: bool)
    requires Inv(s) && t in s.tasks && s.tasks[t] == ImpCache(id, r, ses, next, clear)
    ensures Good(s, t, StepImpCache(s, t, id, r, ses, next, clear))
  {
    hide Inv, Good, NoTarget, IsTarget, MergeImport, NewTokens, DataOk, SaveToCache;
    TaskFacts(s, t);
    var w := Complete(s.(store := SaveToCache(s.store, id, next)), t, Imported(id, r));
    if clear {
      ImportedGood(s, t, id, r, next, Move(w, t, ImpClear(id, ses)));
    } else if ses.Alone? {
      ImportedGood(s, t, id, r, next, Release(w, t, Done(Nothing)));
    } else {
      ImportedGood(s, t, id, r, next, Move(w, t, SesOpen(ses.base, ses.mark)));
    }
  }

  lemma ImpClearData(s: State, t: Tid, id: Id, ses: Session, s': State)
    requires Inv(s) && t in s.tasks && s.tasks[t] == ImpClear(id, ses) && s' == StepImpClear(s, t, id, ses)
    ensures MarkStep(s, t, s') && AtomicStep(s, t, s') && CooldownStep(s, t, s') && DataOk(s')
  {
    hide Inv, Replay, Perform, NoTarget;
    TaskFacts(s, t);
  }

  lemma ImpClearGood(s: State, t: Tid, id: Id, ses: Session)
    requires Inv(s) && t in s.tasks && s.tasks[t] == ImpClear(id, ses)
    ensures Good(s, t, StepImpClear(s, t, id, ses))
  {
    hide Inv, Good, PcRules, Replay, NoTarget, IsTarget, AccessRejected, MergeImport, NewTokens,
      MarkStep, AtomicStep, CooldownStep, DataOk;
    TaskFacts(s, t);
    var s' := StepImpClear(s, t, id, ses);
    QuietRules(s, t, s'.tasks[t]);
    ImpClearData(s, t, id, ses, s');
    HolderGood(s, t, s');
  }

  lemma RestDbGood(s: State, t: Tid, target: Target, ses: Session)
    requires Inv(s) && t in s.tasks && s.tasks[t] == RestDb(target, ses)
    ensures Good(s, t, StepRestDb(s, t, target, ses))
  {
    hide Inv, Good, PcRules, Replay, NoTarget, IsTarget, AccessRejected, MergeImport, NewTokens;
    TaskFacts(s, t);
    var s' := StepRestDb(s, t, target, ses);
    QuietRules(s, t, s'.tasks[t]);
    TableWriteGood(s, t, s'.tasks[t], s');
  }

  lemma RestCacheGood(s: State, t: Tid, target: Target, ses: Session)
    requires Inv(s) && t in s.tasks && s.tasks[t] == RestCache(target, ses)
    ensures Good(s, t, StepRestCache(s, t, target))
  {
    hide Inv, Good, PcRules, Replay, NoTarget, IsTarget, AccessRejected, MergeImport, NewTokens;
    TaskFacts(s, t);
    ReplayAppend(s.origin, s.log, Item(t, Restored(target)));
    QuietRules(s, t, StepRestCache(s, t, target).tasks[t]);
    HolderGood(s, t, StepRestCache(s, t, target));
  }

  lemma LateReadData(s: State, t: Tid, id: Id, token: string, s': State)
    requires Inv(s) && t in s.tasks && s.tasks[t] == LateRead(id, token) && s' == StepLateRead(s, t, id, token)
    ensures MarkStep(s, t, s') && AtomicStep(s, t, s') && CooldownStep(s, t, s') && DataOk(s')
  {
    hide Inv, CanAutoRefresh, Replay, Perform;
    TaskFacts(s, t);
  }

  lemma LateReadGood(s: State, t: Tid, id: Id, token: string)
    requires Inv(s) && t in s.tasks && s.tasks[t] == LateRead(id, token)
    ensures Good(s, t, StepLateRead(s, t, id, token))
  {
    hide Inv, Good, PcRules, CanAutoRefresh, Replay, NoTarget,
      MarkStep, AtomicStep, CooldownStep, DataOk;
    TaskFacts(s, t);
    var s' := StepLateRead(s, t, id, token);
    QuietRules(s, t, s'.tasks[t]);
    LateReadData(s, t, id, token, s');
    HolderGood(s, t, s');
  }

  /** The task takes the free refresh permit of `id`. */
  lemma TakePermitGood(s: State, t: Tid, id: Id, pc: Pc)
    requires Inv(s) && t in s.tasks && id !in s.store.refreshing
    requires PermitOf(s.tasks[t]) == None && !HoldsGate(s.tasks[t])
    requires PermitOf(pc) == Some(id) && !HoldsGate(pc) && PcRules(s, t, pc) && pc.LoadRead? && LoadShape(pc.k)
    ensures var refreshing := s.store.refreshing + {id};
            Good(s, t, Move(s.(store := s.store.(refreshing := refreshing), permit := s.permit[id := t]), t, pc))
  {
    hide PcRules, Good, PermitOf, HoldsGate, LoadShape, DataOk, GateOk;
    var s' := Move(s.(store := s.store.(refreshing := s.store.refreshing + {id}), permit := s.permit[id := t]), t, pc);
    assert forall i :: Get(s.permit, i) != Some(t);
    FreeGood(s, t, s');
  }

  lemma StartGood(s: State, t: Tid, id: Id, prev: Record, mode: Mode)
    requires Inv(s) && t in s.tasks && s.tasks[t] == Start(id, prev, mode)
    ensures Good(s, t, StepStart(s, t, id, prev, mode))
  {
    hide Inv, Good;
    if id in s.store.refreshing {
      MoveGood(s, t, Follow(id, prev, mode, s.now + WAIT_LIMIT));
    } else {
      TakePermitGood(s, t, id, LoadRead(id, ThenRefresh(prev, mode)));
    }
  }

  /** Past the check the permit holder gets ready to send, or gives the permit back. */
  lemma CooledMoves(s: State, t: Tid, id: Id, cur: Record, mode: Mode, pc: Pc)
    requires Inv(s) && t in s.tasks && s.tasks[t] == Cooling(id, cur, mode) && !FailureCooldown(s.store, id, s.now)
    requires pc == Note(id, mode, Transient) || (pc == Sending(id, cur, mode) && CanSend(cur))
    ensures Good(s, t, Move(s, t, pc))
  {
    hide Inv, Good, FailureCooldown, RefreshRejected;
    TaskFacts(s, t);
    MoveGood(s, t, pc);
  }

  lemma CoolingGood(s: State, t: Tid, id: Id, cur: Record, mode: Mode)
    requires Inv(s) && t in s.tasks && s.tasks[t] == Cooling(id, cur, mode)
    ensures Good(s, t, StepCooling(s, t, id, cur, mode))
  {
    hide Inv, Good, LeaveRefresh, CanAutoRefresh, RefreshClient, AccessRejected, RefreshRejected;
    TaskFacts(s, t);
    var active := ActiveCooldown(s.store, id, s.now);
    if active.Some? && active.value.failed {
      LeaveGood(s, t, id, mode, Transient);
    } else if active.Some? && mode != Manual && !AccessRejected(s.store, id, cur) {
      LeaveGood(s, t, id, mode, Got(cur));
    } else if mode != Manual && !CanAutoRefresh(cur) {
      LeaveGood(s, t, id, mode, Transient);
    } else {
      CooledMoves(s, t, id, cur, mode, if CanSend(cur) then Sending(id, cur, mode) else Note(id, mode, Transient));
    }
  }

  /** The permit holder records a cooldown for its account and drops the permit. */
  lemma NoteAndDropGood(s: State, t: Tid, id: Id, cooldowns: map<Id, Cooldown>, pc: Pc)
    requires Inv(s) && t in s.tasks && PermitOf(s.tasks[t]) == Some(id) && !HoldsGate(s.tasks[t])
    requires (pc.Done? || (pc.LoadRead? && pc.k == ThenFallback)) && PcRules(s, t, pc)
    requires s.tasks[t].Note? && s.tasks[t].id == id
    requires forall i :: i != id ==> Get(cooldowns, i) == Get(s.store.cooldowns, i)
    requires cooldowns == s.store.cooldowns || cooldowns.Keys == s.store.cooldowns.Keys + {id}
    ensures Good(s, t, Move(DropPermit(s.(store := s.store.(cooldowns := cooldowns)), id), t, pc))
  {
    hide PcRules, Good, PermitOf, HoldsGate, DataOk, GateOk;
    var s' := Move(DropPermit(s.(store := s.store.(cooldowns := cooldowns)), id), t, pc);
    assert Get(s.permit, id) == Some(t);
    FinishedHoldsNothing(pc);
    FreeGood(s, t, s');
  }

  lemma FinishedHoldsNothing(pc: Pc)
    requires pc.Done? || (pc.LoadRead? && pc.k == ThenFallback)
    ensures PermitOf(pc) == None && !HoldsGate(pc)
  {
  }

  lemma NoteGood(s: State, t: Tid, id: Id, mode: Mode, outcome: Outcome)
    requires Inv(s) && t in s.tasks && s.tasks[t] == Note(id, mode, outcome)
    ensures Good(s, t, StepNote(s, t, id, mode, outcome))
  {
    hide Inv, Good, Finish, PcRules;
    FinishShape(DropPermit(NoteOutcome(s, id, outcome), id), s, t, id, mode, outcome);
    NoteAndDropGood(s, t, id, NoteOutcome(s, id, outcome).store.cooldowns,
                    Finish(DropPermit(NoteOutcome(s, id, outcome), id), id, mode, outcome));
  }

  lemma FollowGood(s: State, t: Tid, id: Id, prev: Record, mode: Mode, deadline: int)
    requires Inv(s) && t in s.tasks && s.tasks[t] == Follow(id, prev, mode, deadline)
    ensures Good(s, t, StepFollow(s, t, id, prev, mode, deadline))
  {
    hide Inv, Good, Finish;
    FinishShape(s, s, t, id, mode, Transient);
    assert s.tasks == s.tasks[t := s.tasks[t]];
    MoveGood(s, t, StepFollow(s, t, id, prev, mode, deadline).tasks[t]);
  }

  predicate AtGate(pc: Pc) {
    pc.LoadGate? || pc.MutGate? || pc.LateGate? || pc.DelGate? || pc.ImpGate? || pc.SesGate? || pc.RestGate?
  }

  /** Waiting for the gate ends by taking it. */
  lemma GateGood(s: State, t: Tid)
    requires Inv(s) && t in s.tasks && s.gate.None? && AtGate(s.tasks[t])
    ensures Good(s, t, Advance(s, t))
  {
    hide Inv, Good, Frame, OwnOk, DataOk, GateOk, PermitOk;
    match s.tasks[t]
    case LoadGate(id, k) => LoadGateGood(s, t, id, k);
    case MutGate(id, m, w) => MutGateGood(s, t, id, m, w);
    case LateGate(id, token) => AcquireGood(s, t, LateRead(id, token));
    case DelGate(id) => AcquireGood(s, t, DelDb(id));
    case ImpGate(r) => AcquireGood(s, t, Listing(JobFind(r, Alone)));
    case SesGate => AcquireGood(s, t, Listing(JobSnapshot));
    case RestGate(target) => AcquireGood(s, t, RestDb(target, Alone));
  }

  lemma LoadGateGood(s: State, t: Tid, id: Id, k: AfterLoad)
    requires Inv(s) && t in s.tasks && s.gate.None? && s.tasks[t] == LoadGate(id, k)
    ensures Good(s, t, Acquire(s, t, Listing(JobLoad(id, k))))
  {
    hide Inv, Good;
    TaskFacts(s, t);
    AcquireGood(s, t, Listing(JobLoad(id, k)));
  }

  lemma MutGateGood(s: State, t: Tid, id: Id, m: Mutation, w: AfterWrite)
    requires Inv(s) && t in s.tasks && s.gate.None? && s.tasks[t] == MutGate(id, m, w)
    ensures Good(s, t, Acquire(s, t, MutRead(id, m, w)))
  {
    hide Inv, Good;
    TaskFacts(s, t);
    AcquireGood(s, t, MutRead(id, m, w));
  }

  /** The plain moves: no guard taken or dropped, no shared data touched. */
  lemma PlainGood(s: State, t: Tid)
    requires Inv(s) && t in s.tasks
    requires var pc := s.tasks[t];
             pc.Listing? || pc.DueCooldown?
    ensures Good(s, t, Advance(s, t))
  {
    hide Inv, Good;
    TaskFacts(s, t);
    match s.tasks[t]
    case Listing(job) => MoveGood(s, t, Filling(job, s.store.db));
    case DueCooldown(_, _) => MoveGood(s, t, Advance(s, t).tasks[t]);
  }

  lemma SendGood(s: State, t: Tid, id: Id, cur: Record, mode: Mode)
    requires Inv(s) && t in s.tasks && s.tasks[t] == Sending(id, cur, mode)
    ensures Good(s, t, Move(s, t, Exchange(id, cur, mode)))
  {
    hide Inv, Good, Frame, OwnOk, DataOk, GateOk, PermitOk;
    TaskFacts(s, t);
    MoveGood(s, t, Exchange(id, cur, mode));
  }

  lemma FollowCooldownGood(s: State, t: Tid, id: Id, r: Record, mode: Mode)
    requires Inv(s) && t in s.tasks && s.tasks[t] == FollowCooldown(id, r, mode)
    ensures Good(s, t, Advance(s, t))
  {
    hide Inv, Good, Frame, OwnOk, DataOk, GateOk, PermitOk, Finish, PcRules;
    FinishShape(s, s, t, id, mode, Transient);
    FinishShape(s, s, t, id, mode, Got(r));
    MoveGood(s, t, Advance(s, t).tasks[t]);
  }

  lemma LoadGood(s: State, t: Tid)
    requires Inv(s) && t in s.tasks && (s.tasks[t].LoadRead? || s.tasks[t].LoadAgain?)
    ensures Good(s, t, Advance(s, t))
  {
    hide Inv, Good, Frame, OwnOk, DataOk, GateOk, PermitOk, Resume;
    TaskFacts(s, t);
    match s.tasks[t]
    case LoadRead(id, k) =>
      if id in s.store.cache {
        ResumeGood(s, t, id, k, Some(s.store.cache[id]));
      } else {
        MoveGood(s, t, LoadGate(id, k));
      }
    case LoadAgain(id, k) => ResumeGood(s, t, id, k, Get(s.store.cache, id));
  }

  /** Every section a task runs on its own keeps to its frame. */
  lemma AdvanceGood(s: State, t: Tid)
    requires Inv(s) && Ready(s, t)
    ensures Good(s, t, Advance(s, t))
  {
    hide Inv, Good, Resume, StepLoadRead, StepFilling, StepMutRead, StepMutDb, StepMutCache, StepDelDb, StepDelCache,
      StepImpDb, StepImpCache, StepImpClear, StepRestDb, StepRestCache, StepLateRead, StepStart, StepCooling, StepNote,
      StepFollow, Finish, FinishNow, Move, Acquire;
    match s.tasks[t]
    case Filling(job, snapshot) => FillingGood(s, t, job, snapshot);
    case MutRead(id, m, w) => MutReadGood(s, t, id, m, w);
    case MutDb(id, m, w, next) => MutDbGood(s, t, id, m, w, next);
    case MutCache(id, m, w, next) => MutCacheGood(s, t, id, m, w, next);
    case DelDb(id) => DelDbGood(s, t, id);
    case DelCache(id) => DelCacheGood(s, t, id);
    case ImpDb(id, r, ses) => ImpDbGood(s, t, id, r, ses);
    case ImpCache(id, r, ses, next, clear) => ImpCacheGood(s, t, id, r, ses, next, clear);
    case ImpClear(id, ses) => ImpClearGood(s, t, id, ses);
    case RestDb(target, ses) => RestDbGood(s, t, target, ses);
    case RestCache(target, ses) => RestCacheGood(s, t, target, ses);
    case LateRead(id, token) => LateReadGood(s, t, id, token);
    case Start(id, prev, mode) => StartGood(s, t, id, prev, mode);
    case Follow(id, prev, mode, deadline) => FollowGood(s, t, id, prev, mode, deadline);
    case Cooling(id, cur, mode) => CoolingGood(s, t, id, cur, mode);
    case Note(id, mode, outcome) => NoteGood(s, t, id, mode, outcome);
    case LoadRead(_, _) => LoadGood(s, t);
    case LoadAgain(_, _) => LoadGood(s, t);
    case Listing(_) => PlainGood(s, t);
    case DueCooldown(_, _) => PlainGood(s, t);
    case FollowCooldown(id, r, mode) => FollowCooldownGood(s, t, id, r, mode);
    case Sending(id, cur, mode) => SendGood(s, t, id, cur, mode);
    case _ => GateGood(s, t);
  }

  // ---------- steps answered by the environment ----------

  /** A failed cache reload inside `load_account`: the gate drops and the error is handed on. */
  lemma LoadFailGood(s: State, t: Tid, id: Id, k: AfterLoad)
    requires Inv(s) && t in s.tasks && s.tasks[t] == Listing(JobLoad(id, k))
    ensures Good(s, t, Resume(s.(gate := None), t, id, k, None))
  {
    var s1 := Release(s, t, LoadAgain(id, k));
    TaskFacts(s, t);
    ReleaseGood(s, t, LoadAgain(id, k));
    FrameKeepsInv(s, t, s1);
    var s2 := Resume(s1, t, id, k, None);
    ResumeGood(s1, t, id, k, None);
    assert s2 == Resume(s.(gate := None), t, id, k, None) by {
      hide *;
      SameResume(s1, s.(gate := None), t, id, k);
    }
    NothingLoaded(s1, t, id, k);
    FrameThroughRelease(s, t, s1, s2, id, k);
  }

  /** A load that fails touches no mark and no cooldown. */
  lemma NothingLoaded(s: State, t: Tid, id: Id, k: AfterLoad)
    ensures SameMarks(s, Resume(s, t, id, k, None)) && Resume(s, t, id, k, None).store.cache == s.store.cache
  {
    hide Finish, AccessRejected, IsUsable;
  }

  lemma FrameThroughRelease(s: State, t: Tid, s1: State, s2: State, id: Id, k: AfterLoad)
    requires s.gate == Some(t) && t in s.tasks && s.tasks[t] == Listing(JobLoad(id, k))
    requires s1 == Release(s, t, LoadAgain(id, k)) && Frame(s1, t, s2)
    requires SameMarks(s1, s2) && s2.store.cache == s1.store.cache
    ensures Frame(s, t, s2)
  {
    hide AccessRejected, IsUsable, ThresholdReached;
    assert s.tasks[t := s1.tasks[t]][t := s2.tasks[t]] == s.tasks[t := s2.tasks[t]];
  }

  /** The code after a failed load does not look at the program counter it came from. */
  lemma SameResume(s1: State, s0: State, t: Tid, id: Id, k: AfterLoad)
    requires s1 == s0.(tasks := s1.tasks) && t in s1.tasks && s1.tasks == s0.tasks[t := s1.tasks[t]]
    ensures Resume(s1, t, id, k, None) == Resume(s0, t, id, k, None)
  {
    var pc := Resume(s0, t, id, k, None).tasks[t];
    assert s1.tasks[t := pc] == s0.tasks[t := pc];
  }

  lemma EndImportGood(s: State, t: Tid, ses: Session, ok: bool)
    requires Inv(s) && t in s.tasks && s.gate == Some(t)
    requires PermitOf(s.tasks[t]) == None && Pending(s.tasks[t]) == None && SessionOf(s.tasks[t]) == ses
    ensures Good(s, t, EndImport(s, t, ses, ok))
  {
    hide Inv, Good, Frame, OwnOk, DataOk;
    TaskFacts(s, t);
    match ses
    case Alone => ReleaseGood(s, t, Done(if ok then Nothing else Failed));
    case Inside(base, mark) => MoveGood(s, t, SesOpen(base, mark));
  }

  lemma DbFailGood(s: State, t: Tid)
    requires Inv(s) && t in s.tasks && DbCall(s.tasks[t])
    ensures Good(s, t, AfterDbFail(s, t))
  {
    hide Inv, Good, Frame, OwnOk, DataOk, GateOk, PermitOk, Resume, EndImport, AfterMutation, Release;
    TaskFacts(s, t);
    match s.tasks[t]
    case Listing(JobLoad(id, k)) => LoadFailGood(s, t, id, k);
    case Listing(JobFind(_, ses)) => EndImportGood(s, t, ses, false);
    case Listing(JobAllot(_, ses)) => EndImportGood(s, t, ses, false);
    case Listing(JobSnapshot) => ReleaseGood(s, t, Done(Failed));
    case MutDb(id, m, w, _) =>
      AfterMutationShape(s, t, id, m, w, Transient);
      ReleaseGood(s, t, AfterMutation(s, id, w, Transient));
    case DelDb(_) => ReleaseGood(s, t, Done(Failed));
    case ImpDb(_, _, ses) => EndImportGood(s, t, ses, false);
    case RestDb(_, _) => ReleaseGood(s, t, Done(Failed));
  }

  /** Dropping a future returns its gate and its permit, and nothing else changes. */
  lemma CancelGood(s: State, t: Tid)
    requires Inv(s) && t in s.tasks && !s.tasks[t].Done? && !Uninterrupted(s.tasks[t])
    ensures Good(s, t, Cancelled(s, t))
  {
    TaskFacts(s, t);
    var pc, s' := s.tasks[t], Cancelled(s, t);
    assert Pending(pc) == None;
    if PermitOf(pc).None? && !HoldsGate(pc) {
      MoveGood(s, t, Done(Failed));
    } else if PermitOf(pc).None? {
      ReleaseGood(s, t, Done(Failed));
    } else if !HoldsGate(pc) {
      CancelPermitGood(s, t, PermitOf(pc).value);
    } else {
      CancelBothGood(s, t, PermitOf(pc).value);
    }
  }

  lemma CancelPermitGood(s: State, t: Tid, id: Id)
    requires Inv(s) && t in s.tasks && PermitOf(s.tasks[t]) == Some(id) && !HoldsGate(s.tasks[t])
    ensures Good(s, t, Move(DropPermit(s, id), t, Done(Failed)))
  {
    DropGood(s, t, id, Done(Failed));
  }

  /** The gate holder, with nothing half done, ends and returns all its guards. */
  lemma LetGoGood(s: State, t: Tid, s': State)
    requires Inv(s) && t in s.tasks && s.gate == Some(t) && Pending(s.tasks[t]) == None
    requires t in s'.tasks && s'.tasks == s.tasks[t := Done(Failed)] && s'.gate == None
    requires s'.store == s.store.(refreshing := s'.store.refreshing) && s'.permit.Keys == s'.store.refreshing
    requires s'.origin == s.origin && s'.now == s.now && s'.log == s.log && s'.spec == s.spec
    requires forall i :: Get(s'.permit, i) == Get(s.permit, i) || (Get(s.permit, i) == Some(t) && i !in s'.permit)
    requires forall i :: Get(s'.permit, i) != Some(t)
    requires PcRules(s, t, Done(Failed))
    ensures Good(s, t, s')
  {
    hide PcRules, Perform, Replay, NoTarget, ImportInto, SessionOk;
    TaskFacts(s, t);
    assert SessionOk(s', t, Alone) by { NoSession(s', t); }
  }

  lemma NoSession(s: State, t: Tid)
    ensures SessionOk(s, t, Alone)
  {
  }

  /** First the permit goes, then the gate. */
  lemma CancelBothGood(s: State, t: Tid, id: Id)
    requires Inv(s) && t in s.tasks && PermitOf(s.tasks[t]) == Some(id) && s.gate == Some(t)
    requires Pending(s.tasks[t]) == None
    ensures Good(s, t, Move(DropPermit(s, id).(gate := None), t, Done(Failed)))
  {
    hide Good, PcRules, SessionOk, DataOk, Perform, Replay, HoldsGate, PermitOf, PcOk;
    var s' := Move(DropPermit(s, id).(gate := None), t, Done(Failed));
    DoneHoldsNothing(Failed);
    QuietRules(s, t, Done(Failed));
    TaskFacts(s, t);
    LetGoGood(s, t, s');
  }

  lemma DoneHoldsNothing(reply: Reply)
    ensures PermitOf(Done(reply)) == None && !HoldsGate(Done(reply)) && SessionOf(Done(reply)).Alone?
  {
  }

  lemma SpawnGood(s: State, t: Tid, pc: Pc)
    requires Inv(s) && t !in s.tasks && Initial(pc)
    ensures Good(s, t, Move(s, t, pc))
  {
    hide Replay, Perform;
    var s' := Move(s, t, pc);
    assert Pending(pc) == None && PermitOf(pc) == None && !HoldsGate(pc) && PcOk(s', pc);
    assert PendingOf(s') == PendingOf(s);
    assert forall i :: Get(s.permit, i) != Some(t);
  }

  /** An answer of the token endpoint touches no shared data. */
  lemma TokenAnswerGood(s: State, t: Tid, e: Event, s': State)
    requires Inv(s) && Step(s, t, e, s') && (e.Tokens? || e.Rejected?)
    ensures Good(s, t, s')
  {
    hide Inv, Good, RefreshClient, NoTarget, IsTarget, Advance, Ready, AfterDbFail, Cancelled, Initial, Refreshed,
      Release;
    TaskFacts(s, t);
    var pc := s.tasks[t];
    match e
    case Tokens(resp, ic, ac) =>
      MoveGood(s, t, MutGate(pc.id, CommitRefresh(pc.cur, Refreshed(pc.cur, resp, ic, ac, s.now)), ToNote(pc.mode)));
    case Rejected(relogin) => MoveGood(s, t, LoadRead(pc.id, ThenFailure(pc.cur, pc.mode, relogin)));
  }

  /** Nor does an answer of the usage endpoint. */
  lemma UsageAnswerGood(s: State, t: Tid, e: Event, s': State)
    requires Inv(s) && Step(s, t, e, s') && (e.UsageOk? || e.UsageFail?)
    ensures Good(s, t, s')
  {
    hide Inv, Good, RefreshClient, NoTarget, IsTarget, Advance, Ready, AfterDbFail, Cancelled, Initial, Refreshed,
      Release, PcRules;
    var pc := s'.tasks[t];
    QuietRules(s, t, pc);
    MoveGood(s, t, pc);
  }

  lemma PickGood(s: State, t: Tid, id: Id, r: Record, ses: Session)
    requires Inv(s) && t in s.tasks
    requires (s.tasks[t] == ImpPick(r, ses) && IsTarget(s.store.cache, r, id))
             || (s.tasks[t] == ImpAllot(r, ses) && id !in s.store.cache)
    ensures Good(s, t, Move(s, t, ImpDb(id, r, ses)))
  {
    hide Inv, Good, PcRules, IsTarget, NoTarget;
    TaskFacts(s, t);
    QuietRules(s, t, ImpDb(id, r, ses));
    MoveGood(s, t, ImpDb(id, r, ses));
  }

  lemma NoMatchGood(s: State, t: Tid, r: Record, ses: Session)
    requires Inv(s) && t in s.tasks && s.tasks[t] == ImpPick(r, ses) && NoTarget(s.store.cache, r)
    ensures Good(s, t, Move(s, t, Listing(JobAllot(r, ses))))
  {
    hide Inv, Good, PcRules, NoTarget;
    TaskFacts(s, t);
    QuietRules(s, t, Listing(JobAllot(r, ses)));
    MoveGood(s, t, Listing(JobAllot(r, ses)));
  }

  /** Choosing an import target touches no shared data. */
  lemma ChoiceGood(s: State, t: Tid, e: Event, s': State)
    requires Inv(s) && Step(s, t, e, s') && (e.Match? || e.NoMatch? || e.Allot?)
    ensures Good(s, t, s')
  {
    hide Inv, Good, Advance, Ready, IsTarget, NoTarget, AfterDbFail, Cancelled, Initial, Refreshed, RefreshClient,
      Release, HoldsGate, PermitOf, SessionOf, Pending, PcRules, PcOk;
    var pc := s.tasks[t];
    match e
    case Match(id) => PickGood(s, t, id, pc.record, pc.ses);
    case NoMatch => NoMatchGood(s, t, pc.record, pc.ses);
    case Allot(id) => PickGood(s, t, id, pc.record, pc.ses);
  }

  lemma SessionMoves(s: State, t: Tid, pc: Pc)
    requires Inv(s) && t in s.tasks && s.tasks[t].SesOpen?
    requires var ses := Inside(s.tasks[t].base, s.tasks[t].mark);
             (pc.Listing? && pc.job.JobFind? && pc.job.ses == ses) || pc == RestDb(All(ses.base), ses)
    ensures Good(s, t, Move(s, t, pc))
  {
    hide Inv, Good, PcRules;
    QuietRules(s, t, pc);
    MoveGood(s, t, pc);
  }

  lemma SessionEnds(s: State, t: Tid)
    requires Inv(s) && t in s.tasks && s.tasks[t].SesOpen?
    ensures Good(s, t, Release(s, t, Done(Nothing)))
  {
    hide Inv, Good, PcRules;
    TaskFacts(s, t);
    QuietRules(s, t, Done(Nothing));
    ReleaseGood(s, t, Done(Nothing));
  }

  /** Nor does opening or closing a session. */
  lemma SessionGood(s: State, t: Tid, e: Event, s': State)
    requires Inv(s) && Step(s, t, e, s') && (e.SessionImport? || e.SessionCommit? || e.SessionRollback?)
    ensures Good(s, t, s')
  {
    hide Inv, Good, Advance, Ready, IsTarget, NoTarget, AfterDbFail, Cancelled, Initial, Refreshed, RefreshClient,
      PcRules, HoldsGate;
    var pc := s.tasks[t];
    match e
    case SessionImport(r) => SessionMoves(s, t, Listing(JobFind(r, Inside(pc.base, pc.mark))));
    case SessionCommit => SessionEnds(s, t);
    case SessionRollback => SessionMoves(s, t, RestDb(All(pc.base), Inside(pc.base, pc.mark)));
  }

  /** Every step of a task keeps to its frame. */
  lemma StepGood(s: State, t: Tid, e: Event, s': State)
    requires Inv(s) && Step(s, t, e, s')
    ensures Good(s, t, s')
  {
    match e
    case Spawn(pc) => hide Inv, Good; SpawnGood(s, t, pc);
    case Run => hide Inv, Good, Advance, Ready; AdvanceGood(s, t);
    case DbFail => hide Inv, Good, AfterDbFail; DbFailGood(s, t);
    case Cancel => hide Inv, Good, Cancelled; CancelGood(s, t);
    case Tokens(_, _, _) => hide *; TokenAnswerGood(s, t, e, s');
    case Rejected(_) => hide *; TokenAnswerGood(s, t, e, s');
    case UsageOk(_, _) => hide *; UsageAnswerGood(s, t, e, s');
    case UsageFail(_, _) => hide *; UsageAnswerGood(s, t, e, s');
    case SessionImport(_) => hide *; SessionGood(s, t, e, s');
    case SessionCommit => hide *; SessionGood(s, t, e, s');
    case SessionRollback => hide *; SessionGood(s, t, e, s');
    case _ => hide *; ChoiceGood(s, t, e, s');
  }

  /** Whatever task moves, whatever the environment answers, the invariant is kept. */
  lemma StepKeepsInv(s: State, t: Tid, e: Event, s': State)
    requires Inv(s) && Step(s, t, e, s')
    ensures Inv(s')
  {
    StepGood(s, t, e, s');
    FrameKeepsInv(s, t, s');
  }

  /** Time passing keeps the invariant: cooldowns only run out. */
  lemma TickKeepsInv(s: State, seconds: nat)
    requires Inv(s)
    ensures Inv(s.(now := s.now + seconds))
  {
    var s' := s.(now := s.now + seconds);
    forall t | t in s'.tasks ensures PcOk(s', s'.tasks[t]) {
      assert PcOk(s, s.tasks[t]);
    }
  }

  /** The invariant holds in every state of every run. */
  lemma {:induction false} RunKeepsInv(states: seq<State>, labels: seq<Label>, i: nat)
    requires IsRun(states, labels) && i < |states|
    ensures Inv(states[i])
  {
    hide Inv, Step;
    if i == 0 {
      InitInv(states[0]);
    } else {
      RunKeepsInv(states, labels, i - 1);
      assert Next(states[i - 1], labels[i - 1], states[i - 1 + 1]);
      match labels[i - 1]
      case Task(t, e) => StepKeepsInv(states[i - 1], t, e, states[i]);
      case Tick(seconds) => TickKeepsInv(states[i - 1], seconds);
    }
  }

  lemma InitInv(s: State)
    requires Init(s)
    ensures Inv(s)
  {
  }
}
