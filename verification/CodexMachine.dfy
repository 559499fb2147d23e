/**
 The Codex account store as a concurrent state machine.

 Many tasks share one store.  A task is a program counter; one step is at most one section of code without
 an `await`, so every `await` is a point where other tasks run.  The token endpoint, the usage endpoint,
 database failures and the choice among several matching accounts are answered by the environment.
 */
module CodexMachine {
  import opened Prelude
  import opened CodexTypes

  // ---------- the shared store ----------

  /** `failed` tells a cooldown left by a transient failure from one left by a success. */
  datatype Cooldown = Cooldown(retryAt: int, failed: bool)

  datatype Store = Store(
    db: map<Id, Record>,
    cache: map<Id, Record>,
    rejAccess: map<Id, string>,
    rejRefresh: map<Id, string>,
    refreshing: set<Id>,
    cooldowns: map<Id, Cooldown>)

  predicate AccessRejected(st: Store, id: Id, r: Record) {
    r.credential.Oauth? && Get(st.rejAccess, id) == Some(r.credential.oauth.access)
  }

  predicate RefreshRejected(st: Store, id: Id, r: Record) {
    r.credential.Oauth? && Get(st.rejRefresh, id) == Some(r.credential.oauth.refresh)
  }

  function ActiveCooldown(st: Store, id: Id, now: int): Option<Cooldown> {
    if id in st.cooldowns && now < st.cooldowns[id].retryAt then Some(st.cooldowns[id]) else None
  }

  predicate FailureCooldown(st: Store, id: Id, now: int) {
    ActiveCooldown(st, id, now).Some? && ActiveCooldown(st, id, now).value.failed
  }

  function Without<V>(m: map<Id, V>, id: Id): map<Id, V> {
    m - {id}
  }

  predicate OtherAccess(r: Record, token: string) {
    r.credential.Oauth? ==> r.credential.oauth.access != token
  }

  predicate OtherRefresh(r: Record, token: string) {
    r.credential.Oauth? ==> r.credential.oauth.refresh != token
  }

  /** The cache half of a save: marks naming another token are lifted with the new entry. */
  function SaveToCache(st: Store, id: Id, r: Record): Store {
    st.(cache := st.cache[id := r],
        rejAccess := if id in st.rejAccess && OtherAccess(r, st.rejAccess[id])
                     then Without(st.rejAccess, id) else st.rejAccess,
        rejRefresh := if id in st.rejRefresh && OtherRefresh(r, st.rejRefresh[id])
                      then Without(st.rejRefresh, id) else st.rejRefresh)
  }

  function DropFromCache(st: Store, id: Id): Store {
    st.(cache := Without(st.cache, id),
        rejAccess := Without(st.rejAccess, id),
        rejRefresh := Without(st.rejRefresh, id))
  }

  /** What a compensating restore installs: the whole provider, or one account. */
  datatype Target = All(rows: map<Id, Record>) | One(id: Id, record: Option<Record>)

  function Install(m: map<Id, Record>, target: Target): map<Id, Record> {
    match target
    case All(rows) => rows
    case One(id, Some(r)) => m[id := r]
    case One(id, None) => Without(m, id)
  }

  // ---------- the sequential specification ----------

  /** One atomic operation of the sequential store. */
  datatype Entry =
    | Mutated(id: Id, m: Mutation)
    | Imported(id: Id, record: Record)
    | Deleted(id: Id)
    | Restored(target: Target)

  function Perform(m: map<Id, Record>, e: Entry): map<Id, Record> {
    match e
    case Mutated(id, mutation) =>
      if id in m && Effect(mutation, m[id]).Write? then m[id := Effect(mutation, m[id]).record] else m
    case Imported(id, r) => m[id := if id in m then MergeImport(m[id], r) else r]
    case Deleted(id) => Without(m, id)
    case Restored(target) => Install(m, target)
  }

  /** The sequential store after the operations of `log`, first to last. */
  function Replay(origin: map<Id, Record>, log: seq<Item>): map<Id, Record> {
    if log == [] then origin else Perform(Replay(origin, log[..|log| - 1]), log[|log| - 1].entry)
  }

  /** A completed operation and the task that ran it. */
  datatype Item = Item(actor: Tid, entry: Entry)

  // ---------- tasks ----------

  /** Who asked for a token refresh. */
  datatype Mode = Manual | Automatic | Resolve

  datatype Outcome = Got(record: Record) | Transient | Relogin

  datatype Reply = Nothing | Failed | Served(id: Id, record: Record) | Header(id: Id, token: string)

  /** What a task does with the record `load_account` hands it (None when that fails). */
  datatype AfterLoad =
    | ThenMutate(m: Mutation)
    | ThenServe
    | ThenManual
    | ThenDue
    | ThenRefresh(prev: Record, mode: Mode)
    | ThenFailure(sent: Record, mode: Mode, relogin: bool)
    | ThenFallback
    | ThenFollow(prev: Record, mode: Mode)
    | ThenHeader
    | ThenQuota
    | ThenQuotaHeader(resolved: Record, at: int)
    | ThenQuotaError(resolved: Record, error: string, at: int)

  /** What a task does after its gated read-modify-write. */
  datatype AfterWrite =
    | ToDone
    | ToNote(mode: Mode)
    | ToNoteInvalid(mode: Mode)
    | ToQuotaError(resolved: Record, error: string, at: int)

  /** Whether an import runs alone or inside a mutation session that holds a snapshot. */
  datatype Session = Alone | Inside(base: map<Id, Record>, mark: nat)

  /** Why a task reloads the cache from the table while it holds the gate. */
  datatype Job =
    | JobLoad(id: Id, k: AfterLoad)
    | JobFind(record: Record, ses: Session)
    | JobAllot(record: Record, ses: Session)
    | JobSnapshot

  datatype Pc =
    | Done(reply: Reply)
    // load_account
    | LoadRead(id: Id, k: AfterLoad)
    | LoadGate(id: Id, k: AfterLoad)
    | LoadAgain(id: Id, k: AfterLoad)
    // reload_cache_unlocked
    | Listing(job: Job)
    | Filling(job: Job, snapshot: map<Id, Record>)
    // gated read-modify-write and save_record_unlocked
    | MutGate(id: Id, m: Mutation, w: AfterWrite)
    | MutRead(id: Id, m: Mutation, w: AfterWrite)
    | MutDb(id: Id, m: Mutation, w: AfterWrite, next: Record)
    | MutCache(id: Id, m: Mutation, w: AfterWrite, next: Record)
    // refresh_account_after_unauthorized
    | LateGate(id: Id, token: string)
    | LateRead(id: Id, token: string)
    // refresh
    | DueCooldown(id: Id, rec: Record)
    | Start(id: Id, prev: Record, mode: Mode)
    | Follow(id: Id, prev: Record, mode: Mode, deadline: int)
    | FollowCooldown(id: Id, rec: Record, mode: Mode)
    | Cooling(id: Id, cur: Record, mode: Mode)
    | Sending(id: Id, cur: Record, mode: Mode)
    | Exchange(id: Id, cur: Record, mode: Mode)
    | Note(id: Id, mode: Mode, outcome: Outcome)
    // quota
    | QuotaRequest(id: Id, resolved: Record, at: int)
    // delete_account
    | DelGate(id: Id)
    | DelDb(id: Id)
    | DelCache(id: Id)
    // imports and mutation sessions
    | ImpGate(record: Record)
    | ImpPick(record: Record, ses: Session)
    | ImpAllot(record: Record, ses: Session)
    | ImpDb(id: Id, record: Record, ses: Session)
    | ImpCache(id: Id, record: Record, ses: Session, next: Record, clear: bool)
    | ImpClear(id: Id, ses: Session)
    | SesGate
    | SesOpen(base: map<Id, Record>, mark: nat)
    | RestGate(target: Target)
    | RestDb(target: Target, ses: Session)
    | RestCache(target: Target, ses: Session)

  datatype State = State(
    store: Store,
    gate: Option<Tid>,
    permit: map<Id, Tid>,
    now: int,
    tasks: map<Tid, Pc>,
    // history: the table at the start, the completed operations, and the sequential store
    origin: map<Id, Record>,
    log: seq<Item>,
    spec: map<Id, Record>)

  predicate HoldsGate(pc: Pc) {
    match pc
    case Listing(_) => true
    case Filling(_, _) => true
    case MutRead(_, _, _) => true
    case MutDb(_, _, _, _) => true
    case MutCache(_, _, _, _) => true
    case LateRead(_, _) => true
    case DelDb(_) => true
    case DelCache(_) => true
    case ImpPick(_, _) => true
    case ImpAllot(_, _) => true
    case ImpDb(_, _, _) => true
    case ImpCache(_, _, _, _, _) => true
    case ImpClear(_, _) => true
    case SesOpen(_, _) => true
    case RestDb(_, _) => true
    case RestCache(_, _) => true
    case _ => false
  }

  predicate LoadHoldsPermit(k: AfterLoad) {
    k.ThenRefresh? || k.ThenFailure?
  }

  predicate WriteHoldsPermit(w: AfterWrite) {
    w.ToNote? || w.ToNoteInvalid?
  }

  /** The account whose refresh permit the task holds. */
  function PermitOf(pc: Pc): Option<Id> {
    match pc
    case LoadRead(id, k) => if LoadHoldsPermit(k) then Some(id) else None
    case LoadGate(id, k) => if LoadHoldsPermit(k) then Some(id) else None
    case LoadAgain(id, k) => if LoadHoldsPermit(k) then Some(id) else None
    case Listing(JobLoad(id, k)) => if LoadHoldsPermit(k) then Some(id) else None
    case Filling(JobLoad(id, k), _) => if LoadHoldsPermit(k) then Some(id) else None
    case MutGate(id, _, w) => if WriteHoldsPermit(w) then Some(id) else None
    case MutRead(id, _, w) => if WriteHoldsPermit(w) then Some(id) else None
    case MutDb(id, _, w, _) => if WriteHoldsPermit(w) then Some(id) else None
    case MutCache(id, _, w, _) => if WriteHoldsPermit(w) then Some(id) else None
    case Cooling(id, _, _) => Some(id)
    case Sending(id, _, _) => Some(id)
    case Exchange(id, _, _) => Some(id)
    case Note(id, _, _) => Some(id)
    case _ => None
  }

  /** Between the table write and the cache write a save, delete or restore is not cancelled. */
  predicate Uninterrupted(pc: Pc) {
    pc.MutCache? || pc.DelCache? || pc.ImpCache? || pc.RestCache?
  }

  // ---------- building blocks of a step ----------

  function Move(s: State, t: Tid, pc: Pc): State {
    s.(tasks := s.tasks[t := pc])
  }

  function Acquire(s: State, t: Tid, pc: Pc): State {
    s.(gate := Some(t), tasks := s.tasks[t := pc])
  }

  function Release(s: State, t: Tid, pc: Pc): State {
    s.(gate := None, tasks := s.tasks[t := pc])
  }

  function DropPermit(s: State, id: Id): State {
    s.(store := s.store.(refreshing := s.store.refreshing - {id}), permit := Without(s.permit, id))
  }

  function Complete(s: State, t: Tid, e: Entry): State {
    s.(log := s.log + [Item(t, e)], spec := Perform(s.spec, e))
  }

  /** The last checks of `resolve_pinned_account_record`. */
  function Serve(now: int, id: Id, r: Record): Pc {
    if IsUsable(r, now) && !ThresholdReached(r, now) then Done(Served(id, r)) else Done(Failed)
  }

  /** How the caller of `refresh_record_guarded` goes on once the permit is gone. */
  function Finish(s: State, id: Id, mode: Mode, outcome: Outcome): Pc {
    match mode
    case Manual =>
      Done(if outcome.Got? && EffectiveStatus(outcome.record, s.now) != Expired then Nothing else Failed)
    case Automatic => Done(if outcome.Got? then Nothing else Failed)
    case Resolve =>
      if outcome.Got? then
        if AccessRejected(s.store, id, outcome.record) then Done(Failed) else Serve(s.now, id, outcome.record)
      else LoadRead(id, ThenFallback)
  }

  function FinishNow(s: State, t: Tid, id: Id, mode: Mode, outcome: Outcome): State {
    Move(s, t, Finish(s, id, mode, outcome))
  }

  /** Leaving `refresh_record_guarded` early: the permit drops in the same section. */
  function LeaveRefresh(s: State, t: Tid, id: Id, mode: Mode, outcome: Outcome): State {
    FinishNow(DropPermit(s, id), t, id, mode, outcome)
  }

  /** `refresh_if_needed` up to its first await. */
  function ServeOrRefresh(s: State, id: Id, r: Record): Pc {
    var rejected := AccessRejected(s.store, id, r);
    if r.status == Invalid then Serve(s.now, id, r)
    else if !NeedsRefresh(r, s.now) && !rejected then Serve(s.now, id, r)
    else if !r.credential.Oauth? then Serve(s.now, id, r)
    else if !r.credential.oauth.autoRefresh || Blank(r.credential.oauth.refresh) then
      if rejected then Done(Failed) else Serve(s.now, id, r)
    else Start(id, r, Resolve)
  }

  /** After a failed exchange, with the account as it is now. */
  function AfterFailure(s: State, t: Tid, id: Id, sent: Record, mode: Mode, relogin: bool, got: Option<Record>): State {
    if got.None? then Move(s, t, Note(id, mode, Transient))
    else if WasRefreshed(sent, got.value) then Move(s, t, Note(id, mode, Got(got.value)))
    else if !relogin || !sent.credential.Oauth? then Move(s, t, Note(id, mode, Transient))
    else
      var marked := s.(store := s.store.(rejRefresh := s.store.rejRefresh[id := sent.credential.oauth.refresh]));
      if !IsUsable(got.value, s.now) || AccessRejected(s.store, id, got.value)
      then Move(marked, t, MutGate(id, MarkInvalid(sent), ToNoteInvalid(mode)))
      else Move(marked, t, Note(id, mode, Relogin))
  }

  /** With the permit held and the account reloaded. */
  function WithPermit(s: State, t: Tid, id: Id, prev: Record, mode: Mode, got: Option<Record>): State {
    if got.None? then LeaveRefresh(s, t, id, mode, Transient)
    else if WasRefreshed(prev, got.value) then LeaveRefresh(s, t, id, mode, Got(got.value))
    else if got.value.status == Invalid then LeaveRefresh(s, t, id, mode, Relogin)
    else if RefreshRejected(s.store, id, got.value) then LeaveRefresh(s, t, id, mode, Relogin)
    else Move(s, t, Cooling(id, got.value, mode))
  }

  /** A follower whose leader has released the permit. */
  function AfterWait(s: State, id: Id, prev: Record, mode: Mode, got: Option<Record>): Pc {
    if got.None? then Finish(s, id, mode, Transient)
    else if AccessRejected(s.store, id, got.value) then Finish(s, id, mode, Transient)
    else if WasRefreshed(prev, got.value) then Finish(s, id, mode, Got(got.value))
    else FollowCooldown(id, got.value, mode)
  }

  function QuotaErrorCommit(id: Id, r: Record, error: string, at: int): Pc {
    MutGate(id, CommitQuota(r.quota.(error := Some(error), checkedAt := Some(at))), ToDone)
  }

  /** The code that runs on from `load_account`. */
  function Resume(s: State, t: Tid, id: Id, k: AfterLoad, got: Option<Record>): State {
    match k
    case ThenMutate(m) => Move(s, t, if got.Some? then MutGate(id, m, ToDone) else Done(Failed))
    case ThenServe => Move(s, t, if got.Some? then ServeOrRefresh(s, id, got.value) else Done(Failed))
    case ThenManual =>
      Move(s, t,
        if got.Some? && got.value.credential.Oauth? && !Blank(got.value.credential.oauth.refresh)
        then Start(id, got.value, Manual) else Done(Failed))
    case ThenDue =>
      Move(s, t,
        if got.None? then Done(Failed)
        else if !CanAutoRefresh(got.value) || !NeedsRefresh(got.value, s.now)
                || RefreshRejected(s.store, id, got.value)
        then Done(Nothing) else DueCooldown(id, got.value))
    case ThenRefresh(prev, mode) => WithPermit(s, t, id, prev, mode, got)
    case ThenFailure(sent, mode, relogin) => AfterFailure(s, t, id, sent, mode, relogin, got)
    case ThenFallback =>
      Move(s, t,
        if got.Some? && IsUsable(got.value, s.now) && !AccessRejected(s.store, id, got.value)
        then Serve(s.now, id, got.value) else Done(Failed))
    case ThenFollow(prev, mode) => Move(s, t, AfterWait(s, id, prev, mode, got))
    case ThenHeader =>
      Move(s, t,
        if got.Some? && got.value.credential.Oauth? && !AccessRejected(s.store, id, got.value)
           && !Blank(got.value.credential.oauth.access)
        then Done(Header(id, got.value.credential.oauth.access)) else Done(Failed))
    case ThenQuota =>
      Move(s, t,
        if got.Some? && IsUsable(got.value, s.now)
        then LoadRead(id, ThenQuotaHeader(got.value, s.now)) else Done(Failed))
    case ThenQuotaHeader(resolved, at) =>
      Move(s, t,
        if got.Some? && (got.value.credential.Oauth? ==>
                           !AccessRejected(s.store, id, got.value) && !Blank(got.value.credential.oauth.access))
        then QuotaRequest(id, resolved, at)
        else LoadRead(id, ThenQuotaError(resolved, "authorization unavailable", at)))
    case ThenQuotaError(resolved, error, at) =>
      Move(s, t, QuotaErrorCommit(id, if got.Some? then got.value else resolved, error, at))
  }

  /** The code that runs on from a gated read-modify-write; the gate drops in the same section. */
  function AfterMutation(s: State, id: Id, w: AfterWrite, outcome: Outcome): Pc {
    match w
    case ToDone => Done(if outcome.Got? then Nothing else Failed)
    case ToNote(mode) => Note(id, mode, outcome)
    case ToNoteInvalid(mode) => Note(id, mode, Relogin)
    case ToQuotaError(resolved, error, at) => LoadRead(id, ThenQuotaError(resolved, error, at))
  }

  /** A refresh that commits an already expired token counts as failed. */
  function WriteOutcome(s: State, w: AfterWrite, next: Record): Outcome {
    if w.ToNote? && EffectiveStatus(next, s.now) == Expired then Transient else Got(next)
  }

  const SUCCESS_DELAY := 30
  const FAILURE_DELAY := 5 * 60
  const WAIT_LIMIT := 35

  function NoteOutcome(s: State, id: Id, outcome: Outcome): State {
    match outcome
    case Got(_) => s.(store := s.store.(cooldowns := s.store.cooldowns[id := Cooldown(s.now + SUCCESS_DELAY, false)]))
    case Transient => s.(store := s.store.(cooldowns := s.store.cooldowns[id := Cooldown(s.now + FAILURE_DELAY, true)]))
    case Relogin => s
  }

  function EndImport(s: State, t: Tid, ses: Session, ok: bool): State {
    match ses
    case Alone => Release(s, t, Done(if ok then Nothing else Failed))
    case Inside(base, mark) => Move(s, t, SesOpen(base, mark))
  }

  // ---------- one step of a task that needs no answer from outside ----------

  /** The task can run its next section now. */
  predicate Ready(s: State, t: Tid) {
    t in s.tasks &&
    match s.tasks[t]
    case Done(_) => false
    case Exchange(_, _, _) => false
    case QuotaRequest(_, _, _) => false
    case ImpPick(_, _) => false
    case ImpAllot(_, _) => false
    case SesOpen(_, _) => false
    case LoadGate(_, _) => s.gate.None?
    case MutGate(_, _, _) => s.gate.None?
    case LateGate(_, _) => s.gate.None?
    case DelGate(_) => s.gate.None?
    case ImpGate(_) => s.gate.None?
    case SesGate => s.gate.None?
    case RestGate(_) => s.gate.None?
    case _ => true
  }

  function StepLoadRead(s: State, t: Tid, id: Id, k: AfterLoad): State {
    if id in s.store.cache then Resume(s, t, id, k, Some(s.store.cache[id])) else Move(s, t, LoadGate(id, k))
  }

  function StepFilling(s: State, t: Tid, job: Job, snapshot: map<Id, Record>): State {
    var filled := s.(store := s.store.(cache := snapshot));
    match job
    case JobLoad(id, k) => Release(filled, t, LoadAgain(id, k))
    case JobFind(r, ses) => Move(filled, t, ImpPick(r, ses))
    case JobAllot(r, ses) => Move(filled, t, ImpAllot(r, ses))
    case JobSnapshot => Move(filled, t, SesOpen(snapshot, |s.log|))
  }

  function StepMutRead(s: State, t: Tid, id: Id, m: Mutation, w: AfterWrite): State {
    if id !in s.store.cache then Release(s, t, AfterMutation(s, id, w, Transient))
    else match Effect(m, s.store.cache[id])
      case Write(next) => Move(s, t, MutDb(id, m, w, next))
      case Keep => Release(s, t, AfterMutation(s, id, w, Got(s.store.cache[id])))
      case Refuse => Release(s, t, AfterMutation(s, id, w, Transient))
  }

  function StepMutDb(s: State, t: Tid, id: Id, m: Mutation, w: AfterWrite, next: Record): State {
    Move(s.(store := s.store.(db := s.store.db[id := next])), t, MutCache(id, m, w, next))
  }

  function StepMutCache(s: State, t: Tid, id: Id, m: Mutation, w: AfterWrite, next: Record): State {
    Release(Complete(s.(store := SaveToCache(s.store, id, next)), t, Mutated(id, m)), t,
            AfterMutation(s, id, w, WriteOutcome(s, w, next)))
  }

  function StepLateRead(s: State, t: Tid, id: Id, token: string): State {
    if id !in s.store.cache then Release(s, t, Done(Failed))
    else
      var r := s.store.cache[id];
      if r.status == Invalid || !r.credential.Oauth? then Release(s, t, Done(Failed))
      else if r.credential.oauth.access != token then Release(s, t, Done(Nothing))
      else
        Release(s.(store := s.store.(rejAccess := s.store.rejAccess[id := token])), t,
                if CanAutoRefresh(r) then Start(id, r, Automatic) else Done(Failed))
  }

  function StepStart(s: State, t: Tid, id: Id, prev: Record, mode: Mode): State {
    if id in s.store.refreshing then Move(s, t, Follow(id, prev, mode, s.now + WAIT_LIMIT))
    else
      Move(s.(store := s.store.(refreshing := s.store.refreshing + {id}), permit := s.permit[id := t]),
           t, LoadRead(id, ThenRefresh(prev, mode)))
  }

  function StepFollow(s: State, t: Tid, id: Id, prev: Record, mode: Mode, deadline: int): State {
    if id !in s.store.refreshing then Move(s, t, LoadRead(id, ThenFollow(prev, mode)))
    else if s.now >= deadline then FinishNow(s, t, id, mode, Transient)
    else s
  }

  function StepCooling(s: State, t: Tid, id: Id, cur: Record, mode: Mode): State {
    var active := ActiveCooldown(s.store, id, s.now);
    if active.Some? && active.value.failed then LeaveRefresh(s, t, id, mode, Transient)
    else if active.Some? && mode != Manual && !AccessRejected(s.store, id, cur) then
      LeaveRefresh(s, t, id, mode, Got(cur))
    else if mode != Manual && !CanAutoRefresh(cur) then LeaveRefresh(s, t, id, mode, Transient)
    else if !cur.credential.Oauth? || RefreshClient(cur.credential.oauth).None? then
      Move(s, t, Note(id, mode, Transient))
    else Move(s, t, Sending(id, cur, mode))
  }

  function StepImpDb(s: State, t: Tid, id: Id, r: Record, ses: Session): State {
    var found := id in s.store.cache;
    var next := if found then MergeImport(s.store.cache[id], r) else r;
    Move(s.(store := s.store.(db := s.store.db[id := next])), t,
         ImpCache(id, r, ses, next, found && NewTokens(s.store.cache[id], r)))
  }

  function StepImpCache(s: State, t: Tid, id: Id, r: Record, ses: Session, next: Record, clear: bool): State {
    var written := Complete(s.(store := SaveToCache(s.store, id, next)), t, Imported(id, r));
    if clear then Move(written, t, ImpClear(id, ses)) else EndImport(written, t, ses, true)
  }

  /** Deleting an account that has no row is an error. */
  function StepDelDb(s: State, t: Tid, id: Id): State {
    if id in s.store.db then Move(s.(store := s.store.(db := Without(s.store.db, id))), t, DelCache(id))
    else Release(s, t, Done(Failed))
  }

  function StepDelCache(s: State, t: Tid, id: Id): State {
    Release(Complete(s.(store := DropFromCache(s.store, id)), t, Deleted(id)), t, Done(Nothing))
  }

  function StepImpClear(s: State, t: Tid, id: Id, ses: Session): State {
    EndImport(s.(store := s.store.(cooldowns := Without(s.store.cooldowns, id))), t, ses, true)
  }

  function StepRestDb(s: State, t: Tid, target: Target, ses: Session): State {
    Move(s.(store := s.store.(db := Install(s.store.db, target))), t, RestCache(target, ses))
  }

  function StepRestCache(s: State, t: Tid, target: Target): State {
    Release(Complete(s.(store := s.store.(cache := Install(s.store.cache, target))), t, Restored(target)),
            t, Done(Nothing))
  }

  function StepNote(s: State, t: Tid, id: Id, mode: Mode, outcome: Outcome): State {
    LeaveRefresh(NoteOutcome(s, id, outcome), t, id, mode, outcome)
  }

  function Advance(s: State, t: Tid): State
    requires Ready(s, t)
  {
    match s.tasks[t]
    case LoadRead(id, k) => StepLoadRead(s, t, id, k)
    case LoadGate(id, k) => Acquire(s, t, Listing(JobLoad(id, k)))
    case LoadAgain(id, k) => Resume(s, t, id, k, Get(s.store.cache, id))
    case Listing(job) => Move(s, t, Filling(job, s.store.db))
    case Filling(job, snapshot) => StepFilling(s, t, job, snapshot)
    case MutGate(id, m, w) => Acquire(s, t, MutRead(id, m, w))
    case MutRead(id, m, w) => StepMutRead(s, t, id, m, w)
    case MutDb(id, m, w, next) => StepMutDb(s, t, id, m, w, next)
    case MutCache(id, m, w, next) => StepMutCache(s, t, id, m, w, next)
    case LateGate(id, token) => Acquire(s, t, LateRead(id, token))
    case LateRead(id, token) => StepLateRead(s, t, id, token)
    case DueCooldown(id, r) =>
      Move(s, t, if ActiveCooldown(s.store, id, s.now).Some? then Done(Nothing) else Start(id, r, Automatic))
    case Start(id, prev, mode) => StepStart(s, t, id, prev, mode)
    case Follow(id, prev, mode, deadline) => StepFollow(s, t, id, prev, mode, deadline)
    case FollowCooldown(id, r, mode) =>
      var active := ActiveCooldown(s.store, id, s.now);
      FinishNow(s, t, id, mode, if active.Some? && !active.value.failed then Got(r) else Transient)
    case Cooling(id, cur, mode) => StepCooling(s, t, id, cur, mode)
    case Sending(id, cur, mode) => Move(s, t, Exchange(id, cur, mode))
    case Note(id, mode, outcome) => StepNote(s, t, id, mode, outcome)
    case DelGate(id) => Acquire(s, t, DelDb(id))
    case DelDb(id) => StepDelDb(s, t, id)
    case DelCache(id) => StepDelCache(s, t, id)
    case ImpGate(r) => Acquire(s, t, Listing(JobFind(r, Alone)))
    case ImpDb(id, r, ses) => StepImpDb(s, t, id, r, ses)
    case ImpCache(id, r, ses, next, clear) => StepImpCache(s, t, id, r, ses, next, clear)
    case ImpClear(id, ses) => StepImpClear(s, t, id, ses)
    case SesGate => Acquire(s, t, Listing(JobSnapshot))
    case RestGate(target) => Acquire(s, t, RestDb(target, Alone))
    case RestDb(target, ses) => StepRestDb(s, t, target, ses)
    case RestCache(target, _) => StepRestCache(s, t, target)
    case _ => s
  }

  // ---------- steps that depend on the environment ----------

  datatype Event =
    | Run
    | DbFail
    | Cancel
    | Spawn(pc: Pc)
    | Tokens(resp: Response, idClaims: Claims, accessClaims: Claims)
    | Rejected(relogin: bool)
    | UsageOk(plan: Option<string>, items: seq<QuotaItem>)
    | UsageFail(relogin: bool, error: string)
    | Match(id: Id)
    | NoMatch
    | Allot(id: Id)
    | SessionImport(record: Record)
    | SessionCommit
    | SessionRollback

  /** The entry points of the store. */
  predicate Initial(pc: Pc) {
    match pc
    case LoadRead(_, ThenMutate(SetAuto(_))) => true
    case LoadRead(_, ThenMutate(SetThreshold(p))) => p.Some? ==> 0.0 <= p.value <= 100.0
    case LoadRead(_, k) => k.ThenServe? || k.ThenManual? || k.ThenDue? || k.ThenHeader? || k.ThenQuota?
    case LateGate(_, _) => true
    case DelGate(_) => true
    case ImpGate(_) => true
    case SesGate => true
    case RestGate(_) => true
    case _ => false
  }

  // The import identity rules are pure; they are restated over the cache a pick reads.

  predicate SameWorkspace(imported: Record, existing: Record) {
    NormalId(imported.accountId) == NormalId(existing.accountId)
  }

  predicate UserMatch(imported: Record, existing: Record) {
    NormalId(imported.userId).Some? && NormalId(existing.userId) == NormalId(imported.userId)
    && SameWorkspace(imported, existing)
  }

  /** The e-mail fallback: never across two known users, and only in the same workspace. */
  predicate EmailMatch(imported: Record, existing: Record) {
    NormalEmail(imported.email).Some? && NormalEmail(existing.email) == NormalEmail(imported.email)
    && !(NormalId(imported.userId).Some? && NormalId(existing.userId).Some?)
    && SameWorkspace(imported, existing)
  }

  predicate HasUserMatch(cache: map<Id, Record>, imported: Record) {
    exists id :: id in cache && UserMatch(imported, cache[id])
  }

  /** `id` may be chosen as the import target; a user match always goes before an e-mail match. */
  predicate IsTarget(cache: map<Id, Record>, imported: Record, id: Id) {
    id in cache &&
    (UserMatch(imported, cache[id])
     || (!HasUserMatch(cache, imported) && EmailMatch(imported, cache[id])))
  }

  predicate NoTarget(cache: map<Id, Record>, imported: Record) {
    forall id :: id in cache ==> !UserMatch(imported, cache[id]) && !EmailMatch(imported, cache[id])
  }

  /** The reply to a database call that failed. */
  function AfterDbFail(s: State, t: Tid): State
    requires t in s.tasks
  {
    match s.tasks[t]
    case Listing(JobLoad(id, k)) => Resume(s.(gate := None), t, id, k, None)
    case Listing(JobFind(_, ses)) => EndImport(s, t, ses, false)
    case Listing(JobAllot(_, ses)) => EndImport(s, t, ses, false)
    case Listing(JobSnapshot) => Release(s, t, Done(Failed))
    case MutDb(id, _, w, _) => Release(s, t, AfterMutation(s, id, w, Transient))
    case DelDb(_) => Release(s, t, Done(Failed))
    case ImpDb(_, _, ses) => EndImport(s, t, ses, false)
    case RestDb(_, _) => Release(s, t, Done(Failed))
    case _ => s
  }

  predicate DbCall(pc: Pc) {
    pc.Listing? || pc.MutDb? || pc.DelDb? || pc.ImpDb? || pc.RestDb?
  }

  /** Dropping the future: guards and permits it owns are dropped with it. */
  function Cancelled(s: State, t: Tid): State
    requires t in s.tasks
  {
    var dropped := match PermitOf(s.tasks[t]) case Some(id) => DropPermit(s, id) case None => s;
    var freed := if HoldsGate(s.tasks[t]) then dropped.(gate := None) else dropped;
    Move(freed, t, Done(Failed))
  }

  /** One step of task `t` on event `e`. */
  predicate Step(s: State, t: Tid, e: Event, s': State) {
    match e
    case Spawn(pc) => t !in s.tasks && Initial(pc) && s' == Move(s, t, pc)
    case Run => Ready(s, t) && s' == Advance(s, t)
    case DbFail => t in s.tasks && DbCall(s.tasks[t]) && s' == AfterDbFail(s, t)
    case Cancel =>
      t in s.tasks && !s.tasks[t].Done? && !Uninterrupted(s.tasks[t]) && s' == Cancelled(s, t)
    case Tokens(resp, ic, ac) =>
      t in s.tasks && s.tasks[t].Exchange?
      && (var pc := s.tasks[t];
          pc.cur.credential.Oauth? && RefreshClient(pc.cur.credential.oauth).Some?
          && s' == Move(s, t, MutGate(pc.id, CommitRefresh(pc.cur, Refreshed(pc.cur, resp, ic, ac, s.now)),
                                      ToNote(pc.mode))))
    case Rejected(relogin) =>
      t in s.tasks && s.tasks[t].Exchange?
      && (var pc := s.tasks[t]; s' == Move(s, t, LoadRead(pc.id, ThenFailure(pc.cur, pc.mode, relogin))))
    case UsageOk(plan, items) =>
      t in s.tasks && s.tasks[t].QuotaRequest?
      && (var pc := s.tasks[t];
          s' == Move(s, t, MutGate(pc.id, CommitQuota(Quota(plan, items, None, Some(pc.at))), ToDone)))
    case UsageFail(relogin, error) =>
      t in s.tasks && s.tasks[t].QuotaRequest?
      && (var pc := s.tasks[t];
          s' == Move(s, t, if relogin && pc.resolved.credential.Oauth?
                           then MutGate(pc.id, MarkInvalid(pc.resolved), ToQuotaError(pc.resolved, error, pc.at))
                           else LoadRead(pc.id, ThenQuotaError(pc.resolved, error, pc.at))))
    case Match(id) =>
      t in s.tasks && s.tasks[t].ImpPick?
      && (var pc := s.tasks[t];
          IsTarget(s.store.cache, pc.record, id) && s' == Move(s, t, ImpDb(id, pc.record, pc.ses)))
    case NoMatch =>
      t in s.tasks && s.tasks[t].ImpPick?
      && (var pc := s.tasks[t];
          NoTarget(s.store.cache, pc.record) && s' == Move(s, t, Listing(JobAllot(pc.record, pc.ses))))
    case Allot(id) =>
      t in s.tasks && s.tasks[t].ImpAllot?
      && (var pc := s.tasks[t];
          id !in s.store.cache && s' == Move(s, t, ImpDb(id, pc.record, pc.ses)))
    case SessionImport(r) =>
      t in s.tasks && s.tasks[t].SesOpen?
      && (var pc := s.tasks[t]; s' == Move(s, t, Listing(JobFind(r, Inside(pc.base, pc.mark)))))
    case SessionCommit => t in s.tasks && s.tasks[t].SesOpen? && s' == Release(s, t, Done(Nothing))
    case SessionRollback =>
      t in s.tasks && s.tasks[t].SesOpen?
      && (var pc := s.tasks[t]; s' == Move(s, t, RestDb(All(pc.base), Inside(pc.base, pc.mark))))
  }

  /** A step of the whole system: a task moves, or time passes. */
  datatype Label = Task(t: Tid, e: Event) | Tick(seconds: nat)

  predicate Next(s: State, l: Label, s': State) {
    match l
    case Task(t, e) => Step(s, t, e, s')
    case Tick(seconds) => s' == s.(now := s.now + seconds)
  }

  predicate Init(s: State) {
    && s.store == Store(s.origin, map[], map[], map[], {}, map[])
    && s.gate == None && s.permit == map[] && s.tasks == map[]
    && s.log == [] && s.spec == s.origin
  }

  /** A run: states joined by labelled steps. */
  predicate IsRun(states: seq<State>, labels: seq<Label>) {
    |states| == |labels| + 1 && Init(states[0])
    && forall i :: 0 <= i < |labels| ==> Next(states[i], labels[i], states[i + 1])
  }
}
