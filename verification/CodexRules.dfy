/**
 What one step of a Codex task may do, stated once for all steps: when it may answer, when it may go on
 to send a refresh, and how it may change marks, cooldowns and history.
 */
module CodexRules {
  import opened Prelude
  import opened CodexTypes
  import opened CodexMachine

  // ---------- answers ----------

  /** At the moment of the reply, the credentials handed out are usable and not rejected. */
  predicate ReplyOk(s: State, pc: Pc) {
    match pc
    case Done(Served(id, r)) =>
      !AccessRejected(s.store, id, r) && IsUsable(r, s.now) && !ThresholdReached(r, s.now)
    case Done(Header(id, token)) => Get(s.store.rejAccess, id) != Some(token)
    case _ => true
  }

  // ---------- on the way to a refresh ----------

  /** The account about to be refreshed, between its reload under the permit and the send. */
  function Loaded(pc: Pc): Option<Record> {
    match pc
    case Cooling(_, cur, _) => Some(cur)
    case Sending(_, cur, _) => Some(cur)
    case _ => None
  }

  /** A task gets ready to send only with the cached record in hand. */
  predicate Loads(s: State, t: Tid, pc: Pc) {
    Loaded(pc).Some? ==>
      t in s.tasks && Pending(s.tasks[t]).None?
      && (Get(s.store.cache, pc.id) == Loaded(pc) || (Loaded(s.tasks[t]) == Loaded(pc) && s.tasks[t].id == pc.id))
  }

  /** The permit holder has not yet looked at the cooldown. */
  predicate Approaching(pc: Pc) {
    match pc
    case LoadRead(_, k) => k.ThenRefresh?
    case LoadGate(_, k) => k.ThenRefresh?
    case LoadAgain(_, k) => k.ThenRefresh?
    case Listing(JobLoad(_, k)) => k.ThenRefresh?
    case Filling(JobLoad(_, k), _) => k.ThenRefresh?
    case Cooling(_, _, _) => true
    case _ => false
  }

  /** The permit holder has passed the cooldown check: it is sending, exchanging or cleaning up. */
  predicate Past(pc: Pc) {
    PermitOf(pc).Some? && !Approaching(pc)
  }

  /** How a step gets a task past the check: it was past it, or it just made the check. */
  predicate Passes(s: State, t: Tid, pc: Pc) {
    Past(pc) ==>
      t in s.tasks && PermitOf(s.tasks[t]) == PermitOf(pc)
      && (Past(s.tasks[t]) || (s.tasks[t].Cooling? && !FailureCooldown(s.store, s.tasks[t].id, s.now)))
  }

  /** A follower's wait begins with its deadline, and only a look before the deadline lets it go on. */
  predicate Waits(s: State, t: Tid, pc: Pc) {
    pc.Follow? ==>
      t in s.tasks
      && ((s.tasks[t] == pc && s.now < pc.deadline) || (s.tasks[t].Start? && pc.deadline == s.now + WAIT_LIMIT))
  }

  /** The update a task is about to make, with the account it is for. */
  function Updating(pc: Pc): Option<(Id, Mutation)> {
    match pc
    case MutGate(id, m, _) => Some((id, m))
    case MutRead(id, m, _) => Some((id, m))
    case MutDb(id, m, _, _) => Some((id, m))
    case MutCache(id, m, _, _) => Some((id, m))
    case _ => None
  }

  /** The account a task loads, and what for. */
  function Loading(pc: Pc): Option<(Id, AfterLoad)> {
    match pc
    case LoadRead(id, k) => Some((id, k))
    case LoadAgain(id, k) => Some((id, k))
    case Listing(JobLoad(id, k)) => Some((id, k))
    case _ => None
  }

  predicate MayDecide(pc: Pc) {
    pc.Exchange? || pc.QuotaRequest? || Loading(pc).Some?
  }

  /** An update is decided on after a load or an answer, and then stays what it is until it is in. */
  predicate Decides(s: State, t: Tid, pc: Pc) {
    Updating(pc).Some? ==> t in s.tasks && (Updating(s.tasks[t]) == Updating(pc) || MayDecide(s.tasks[t]))
  }

  /** What holds of the program counter a step ends at. */
  predicate PcRules(s: State, t: Tid, pc: Pc) {
    ReplyOk(s, pc) && Loads(s, t, pc) && Passes(s, t, pc) && Waits(s, t, pc) && Decides(s, t, pc)
  }

  // ---------- cooldowns ----------

  /** Only the end of a refresh sets a cooldown, and only an import with new tokens clears one. */
  predicate CooldownStep(s: State, t: Tid, s': State) {
    || s'.store.cooldowns == s.store.cooldowns
    || (t in s.tasks && s.tasks[t].Note? && t in s'.tasks && PermitOf(s'.tasks[t]).None?
        && s'.store.cooldowns.Keys == s.store.cooldowns.Keys + {s.tasks[t].id}
        && forall id :: id in s.store.cooldowns && id != s.tasks[t].id
                        ==> s'.store.cooldowns[id] == s.store.cooldowns[id])
    || (t in s.tasks && s.tasks[t].ImpClear? && s'.store.cooldowns == Without(s.store.cooldowns, s.tasks[t].id))
  }

  // ---------- marks ----------

  predicate IsAccess(r: Record, token: string) {
    r.credential.Oauth? && r.credential.oauth.access == token
  }

  predicate NamesRefresh(r: Record, token: string) {
    r.credential.Oauth? ==> r.credential.oauth.refresh == token
  }

  predicate SameMarks(s: State, s': State) {
    s'.store.rejAccess == s.store.rejAccess && s'.store.rejRefresh == s.store.rejRefresh
  }

  /** A failed exchange marks the refresh token of the account as it is cached now. */
  predicate MarksRefresh(s: State, s': State, id: Id, token: string) {
    && id in s.store.cache && NamesRefresh(s.store.cache[id], token)
    && s'.store.rejAccess == s.store.rejAccess && s'.store.rejRefresh == s.store.rejRefresh[id := token]
    && s'.store.cache == s.store.cache
  }

  /** A late 401 marks the access token of the account as it is cached now. */
  predicate MarksAccess(s: State, s': State, id: Id, token: string) {
    && id in s.store.cache && IsAccess(s.store.cache[id], token)
    && s'.store.rejRefresh == s.store.rejRefresh && s'.store.rejAccess == s.store.rejAccess[id := token]
    && s'.store.cache == s.store.cache
  }

  predicate SavesEntry(s: State, s': State, id: Id, next: Record) {
    s'.store.cache == SaveToCache(s.store, id, next).cache
    && s'.store.rejAccess == SaveToCache(s.store, id, next).rejAccess
    && s'.store.rejRefresh == SaveToCache(s.store, id, next).rejRefresh
  }

  predicate DropsEntry(s: State, s': State, id: Id) {
    s'.store.cache == DropFromCache(s.store, id).cache
    && s'.store.rejAccess == DropFromCache(s.store, id).rejAccess
    && s'.store.rejRefresh == DropFromCache(s.store, id).rejRefresh
  }

  /** A failed exchange or a late 401 sets a mark; a completed save or delete is all that lifts one. */
  ghost predicate MarkStep(s: State, t: Tid, s': State) {
    || (SameMarks(s, s') && SubMap(s.store.cache, s'.store.cache))
    || (t in s.tasks &&
        match s.tasks[t]
        case LoadRead(id, ThenFailure(sent, _, _)) =>
          sent.credential.Oauth? && MarksRefresh(s, s', id, sent.credential.oauth.refresh)
        case LoadAgain(id, ThenFailure(sent, _, _)) =>
          sent.credential.Oauth? && MarksRefresh(s, s', id, sent.credential.oauth.refresh)
        case LateRead(id, token) => MarksAccess(s, s', id, token)
        case MutCache(id, _, _, next) => SavesEntry(s, s', id, next)
        case ImpCache(id, _, _, next, _) => SavesEntry(s, s', id, next)
        case DelCache(id) => DropsEntry(s, s', id)
        case RestCache(_, _) => true
        case _ => false)
  }

  // ---------- history ----------

  /** The operation whose table write is done and whose cache write is still to come. */
  function Pending(pc: Pc): Option<Entry> {
    match pc
    case MutCache(id, m, _, _) => Some(Mutated(id, m))
    case DelCache(id) => Some(Deleted(id))
    case ImpCache(id, r, _, _, _) => Some(Imported(id, r))
    case RestCache(target, _) => Some(Restored(target))
    case _ => None
  }

  /** A step completes the operation it has pending, or none. */
  predicate AtomicStep(s: State, t: Tid, s': State) {
    if t in s.tasks && Pending(s.tasks[t]).Some? then
      s'.log == s.log + [Item(t, Pending(s.tasks[t]).value)]
      && s'.spec == Perform(s.spec, Pending(s.tasks[t]).value)
    else s'.log == s.log && s'.spec == s.spec
  }

  // ---------- mutation sessions ----------

  function JobSession(job: Job): Session {
    match job
    case JobFind(_, ses) => ses
    case JobAllot(_, ses) => ses
    case _ => Alone
  }

  /** The session a task is in, with the snapshot it took. */
  function SessionOf(pc: Pc): Session {
    match pc
    case Listing(job) => JobSession(job)
    case Filling(job, _) => JobSession(job)
    case ImpPick(_, ses) => ses
    case ImpAllot(_, ses) => ses
    case ImpDb(_, _, ses) => ses
    case ImpCache(_, _, ses, _, _) => ses
    case ImpClear(_, ses) => ses
    case SesOpen(base, mark) => Inside(base, mark)
    case RestDb(_, ses) => ses
    case RestCache(_, ses) => ses
    case _ => Alone
  }

  /** The snapshot is the sequential store at its mark, and since then only the session has written. */
  predicate SessionOk(s: State, t: Tid, ses: Session) {
    match ses
    case Alone => true
    case Inside(base, mark) =>
      mark <= |s.log| && base == Replay(s.origin, s.log[..mark])
      && forall i :: mark <= i < |s.log| ==> s.log[i].actor == t
  }

  // ---------- imports ----------

  /** The import of `r` may land on `id`: on a matching account, or on a new id when nothing matches. */
  predicate ImportInto(m: map<Id, Record>, r: Record, id: Id) {
    IsTarget(m, r, id) || (id !in m && NoTarget(m, r))
  }
}
