/**
 What every step of the Codex store keeps, whatever the interleaving: who holds the gate and the
 refresh permits, and how table and cache relate to the sequential store.
 */
module CodexInvariant {
  import opened Prelude
  import opened CodexTypes
  import opened CodexMachine
  import opened CodexRules

  function PendingOf(s: State): Option<Entry> {
    if s.gate.Some? && s.gate.value in s.tasks then Pending(s.tasks[s.gate.value]) else None
  }

  /** The table: the sequential store, plus the one operation that is half done. */
  function Current(s: State): map<Id, Record> {
    if PendingOf(s).Some? then Perform(s.spec, PendingOf(s).value) else s.spec
  }

  predicate CanSend(cur: Record) {
    cur.credential.Oauth? && RefreshClient(cur.credential.oauth).Some?
  }

  predicate OauthMutation(m: Mutation) {
    match m
    case MarkInvalid(failed) => failed.credential.Oauth?
    case CommitRefresh(sent, refreshed) => sent.credential.Oauth? && refreshed.credential.Oauth?
    case _ => true
  }

  predicate LoadShape(k: AfterLoad) {
    match k
    case ThenMutate(m) => m.SetAuto? || m.SetThreshold?
    case ThenFailure(sent, _, _) => CanSend(sent)
    case _ => true
  }

  predicate WriteShape(m: Mutation, w: AfterWrite) {
    OauthMutation(m) && (m.CommitRefresh? ==> w.ToNote?) && (w.ToNote? ==> m.CommitRefresh?)
  }

  predicate JobOk(s: State, job: Job) {
    match job
    case JobLoad(_, k) => LoadShape(k)
    case JobAllot(r, _) => NoTarget(s.spec, r)
    case _ => true
  }

  /** What a task may rely on while it waits at `pc`. */
  predicate PcOk(s: State, pc: Pc) {
    match pc
    case LoadRead(_, k) => LoadShape(k)
    case LoadGate(_, k) => LoadShape(k)
    case LoadAgain(_, k) => LoadShape(k)
    case Listing(job) => JobOk(s, job)
    case Filling(job, snapshot) => snapshot == s.spec && JobOk(s, job)
    case MutGate(_, m, w) => WriteShape(m, w)
    case MutRead(_, m, w) => WriteShape(m, w)
    case MutDb(id, m, w, next) => WriteShape(m, w) && id in s.spec && Effect(m, s.spec[id]) == Write(next)
    case MutCache(id, m, w, next) => WriteShape(m, w) && id in s.spec && Effect(m, s.spec[id]) == Write(next)
    case ImpPick(_, _) => s.store.cache == s.spec
    case ImpAllot(r, _) => s.store.cache == s.spec && NoTarget(s.spec, r)
    case ImpDb(id, r, _) => s.store.cache == s.spec && ImportInto(s.spec, r, id)
    case ImpCache(id, r, _, next, _) =>
      Perform(s.spec, Imported(id, r)) == s.spec[id := next] && ImportInto(s.spec, r, id)
    case RestDb(target, ses) => ses.Inside? ==> target == All(ses.base)
    case RestCache(target, ses) => ses.Inside? ==> target == All(ses.base)
    case Cooling(id, cur, _) => !RefreshRejected(s.store, id, cur)
    case Sending(id, cur, _) =>
      CanSend(cur) && !RefreshRejected(s.store, id, cur) && !FailureCooldown(s.store, id, s.now)
    case Exchange(_, cur, _) => CanSend(cur)
    case _ => true
  }

  predicate GateOk(s: State) {
    && (s.gate.Some? ==> s.gate.value in s.tasks)
    && forall t :: t in s.tasks ==> (HoldsGate(s.tasks[t]) <==> s.gate == Some(t))
  }

  predicate PermitOk(s: State) {
    && s.permit.Keys == s.store.refreshing
    && (forall id :: id in s.permit ==> s.permit[id] in s.tasks && PermitOf(s.tasks[s.permit[id]]) == Some(id))
    && (forall t :: t in s.tasks && PermitOf(s.tasks[t]).Some? ==>
          Get(s.permit, PermitOf(s.tasks[t]).value) == Some(t))
  }

  ghost predicate DataOk(s: State) {
    && SubMap(s.store.cache, s.spec)
    && s.store.db == Current(s)
    && s.spec == Replay(s.origin, s.log)
  }

  ghost predicate Inv(s: State) {
    && GateOk(s) && PermitOk(s) && DataOk(s)
    && forall t :: t in s.tasks ==> PcOk(s, s.tasks[t]) && SessionOk(s, t, SessionOf(s.tasks[t]))
  }

  /** What a task relies on does not depend on where the others are. */
  lemma PcOkSame(s: State, s': State, pc: Pc)
    requires PcOk(s, pc) && s'.store == s.store && s'.spec == s.spec && s'.now == s.now
    ensures PcOk(s', pc)
  {
    hide NoTarget, ImportInto, Effect, RefreshRejected, FailureCooldown, Perform, LoadShape, WriteShape;
  }

  // ---------- what a step of one task leaves alone ----------

  /** Only the gate holder touches table, cache and history; only a permit holder adds what permits guard. */
  ghost predicate Frame(s: State, t: Tid, s': State) {
    && t in s'.tasks && s'.tasks == s.tasks[t := s'.tasks[t]]
    && s'.origin == s.origin && s'.now == s.now
    && (s.gate != Some(t) ==>
          s'.store.db == s.store.db && s'.store.cache == s.store.cache && s'.log == s.log && s'.spec == s.spec)
    && (s'.gate == s.gate || (s.gate.None? && s'.gate == Some(t)) || (s.gate == Some(t) && s'.gate.None?))
    && (forall id :: id in s'.store.rejRefresh ==>
          Get(s'.store.rejRefresh, id) == Get(s.store.rejRefresh, id) || Get(s.permit, id) == Some(t))
    && (forall id :: id in s'.store.cooldowns ==>
          Get(s'.store.cooldowns, id) == Get(s.store.cooldowns, id) || Get(s.permit, id) == Some(t))
    && (forall id :: Get(s'.permit, id) == Get(s.permit, id)
          || (Get(s.permit, id) == Some(t) && id !in s'.permit)
          || (id !in s.permit && Get(s'.permit, id) == Some(t)))
    && s'.permit.Keys == s'.store.refreshing
    && PcRules(s, t, s'.tasks[t]) && CooldownStep(s, t, s') && MarkStep(s, t, s') && AtomicStep(s, t, s')
  }

  /** The task that moved holds what its new program counter says, and no more. */
  ghost predicate OwnOk(s: State, t: Tid) {
    && t in s.tasks && PcOk(s, s.tasks[t]) && SessionOk(s, t, SessionOf(s.tasks[t]))
    && (HoldsGate(s.tasks[t]) <==> s.gate == Some(t))
    && (PermitOf(s.tasks[t]).Some? ==> Get(s.permit, PermitOf(s.tasks[t]).value) == Some(t))
    && (forall id :: Get(s.permit, id) == Some(t) ==> PermitOf(s.tasks[t]) == Some(id))
  }

  lemma SessionsHoldTheGate(pc: Pc)
    ensures !HoldsGate(pc) ==> SessionOf(pc).Alone?
  {
  }

  lemma OthersKeepPcOk(s: State, t: Tid, s': State, u: Tid)
    requires Inv(s) && Frame(s, t, s') && u in s.tasks && u != t
    ensures PcOk(s', s.tasks[u])
  {
    hide PcRules, CooldownStep, MarkStep, AtomicStep, DataOk, SessionOk, SessionOf, Replay, Perform, Effect, NoTarget,
      ImportInto;
    var pc := s.tasks[u];
    if HoldsGate(pc) {
      assert s.gate != Some(t);
    }
    if pc.Cooling? || pc.Sending? {
      assert Get(s.permit, pc.id) == Some(u);
    }
  }

  lemma OthersKeepSession(s: State, t: Tid, s': State, u: Tid)
    requires Inv(s) && Frame(s, t, s') && u in s.tasks && u != t
    ensures SessionOk(s', u, SessionOf(s.tasks[u]))
  {
    hide PcRules, CooldownStep, MarkStep, AtomicStep, DataOk, PcOk, SessionOf, Replay, HoldsGate, PermitOf;
    SessionsHoldTheGate(s.tasks[u]);
    assert SessionOk(s, u, SessionOf(s.tasks[u]));
    if HoldsGate(s.tasks[u]) {
      assert s.gate != Some(t);
    }
  }

  lemma FrameKeepsInv(s: State, t: Tid, s': State)
    requires Inv(s) && Frame(s, t, s') && OwnOk(s', t) && DataOk(s')
    ensures Inv(s')
  {
    hide PcRules, CooldownStep, MarkStep, AtomicStep, DataOk, SessionOk, PcOk;
    forall u | u in s'.tasks
      ensures PcOk(s', s'.tasks[u]) && SessionOk(s', u, SessionOf(s'.tasks[u]))
      ensures HoldsGate(s'.tasks[u]) <==> s'.gate == Some(u)
      ensures PermitOf(s'.tasks[u]).Some? ==> Get(s'.permit, PermitOf(s'.tasks[u]).value) == Some(u)
    {
      if u != t {
        OthersKeepPcOk(s, t, s', u);
        OthersKeepSession(s, t, s', u);
        assert s'.tasks[u] == s.tasks[u];
      }
    }
    forall id | id in s'.permit
      ensures s'.permit[id] in s'.tasks && PermitOf(s'.tasks[s'.permit[id]]) == Some(id)
    {
      if s'.permit[id] != t {
        assert Get(s'.permit, id) == Get(s.permit, id);
      } else {
        assert Get(s'.permit, id) == Some(t);
      }
    }
  }

  /** Appending one operation to the history performs it. */
  lemma ReplayAppend(origin: map<Id, Record>, log: seq<Item>, item: Item)
    ensures Replay(origin, log + [item]) == Perform(Replay(origin, log), item.entry)
  {
    assert (log + [item])[..|log|] == log;
  }
}
