/** What every step of the xAI store keeps, whatever the interleaving and whichever task is cancelled. */
module XaiInvariant {
  import opened Prelude
  import opened XaiTypes
  import opened XaiMachine

  // ---------- the invariant ----------

  /** Two tasks never hold the same lock. */
  ghost predicate Exclusive(s: State) {
    forall t, u :: t in s.tasks && u in s.tasks && t != u ==> Held(s.tasks[t]) !! Held(s.tasks[u])
  }

  ghost predicate PermitOk(s: State) {
    && s.permit.Keys == s.refreshing
    && (forall id :: id in s.permit ==> s.permit[id] in s.tasks && PermitOf(s.tasks[s.permit[id]]) == Some(id))
    && (forall t :: t in s.tasks && PermitOf(s.tasks[t]).Some? ==>
          Get(s.permit, PermitOf(s.tasks[t]).value) == Some(t))
  }

  /** A restore has written the table and not yet the cache. */
  ghost predicate Restoring(s: State) {
    exists t :: t in s.tasks && s.tasks[t].RestCache?
  }

  /** A load on behalf of an operation that holds the provider gate. */
  predicate Gated(p: Purpose) {
    p.ForUpdate? || p.ForImport?
  }

  /** A token response is stored by the task that holds the permit. */
  predicate UpdateOk(u: Update, via: By) {
    u.Token? ==> via.Refreshing?
  }

  /** The import of `r` may land on `id`: on a matching account, or on a new id when nothing matches. */
  predicate ImportInto(m: map<Id, Record>, r: Record, id: Id) {
    if id in m then SameAccount(r, m[id]) else NoMatchIn(m, r)
  }

  predicate PurposeOk(s: State, id: Id, p: Purpose) {
    (p.ForImport? ==> id in s.db && ImportInto(s.db, p.imported, id)) && (p.ForUpdate? ==> UpdateOk(p.u, p.via))
  }

  predicate JobOk(s: State, job: Job) {
    match job
    case JobLoad(id, p) => PurposeOk(s, id, p)
    case JobAllot(imported, _) => NoMatchIn(s.db, imported)
    case _ => true
  }

  /** A session restores the rows it snapshot. */
  predicate RestoreOk(target: Target, ses: Session) {
    ses.Inside? ==> target == All(ses.base)
  }

  /** The table is one restore ahead of what the cache may show. */
  predicate RestoreBegun(s: State, target: Target) {
    && s.db == Install(s.shown, target)
    && s.log != [] && s.log[|s.log| - 1].entry == Restored(target)
    && s.shown == Replay(s.origin, s.log[..|s.log| - 1])
  }

  /** The record about to be stored is the logged operation applied to the row as it is. */
  predicate SaveOk(s: State, save: Save) {
    match save.why
    case BecauseUpdate(u, at, via) =>
      save.id in s.db && Effect(u, s.db[save.id], at) == Write(save.record) && UpdateOk(u, via)
    case BecauseImport(imported, _) =>
      ImportInto(s.db, imported, save.id)
      && save.record == if save.id in s.db then MergeImport(s.db[save.id], imported) else imported
  }

  /** What a task may rely on while it waits at `pc`. */
  predicate PcOk(s: State, pc: Pc) {
    match pc
    case Load(id, p) => PurposeOk(s, id, p)
    case LoadAgain(id, p) => PurposeOk(s, id, p) && (Gated(p) ==> s.cache == s.db)
    case ReloadWait(job) => JobOk(s, job)
    case ReloadList(job) => JobOk(s, job)
    case ReloadFill(job, rows) => JobOk(s, job) && rows == s.db
    case UpdProvider(_, u, via) => UpdateOk(u, via)
    case UpdAccount(_, u, via) => UpdateOk(u, via)
    case SaveWait(save) => SaveOk(s, save)
    case SaveEvict(save) => SaveOk(s, save)
    case SaveDb(save) => SaveOk(s, save) && save.id !in s.cache
    case SaveInsert(save) => Get(s.db, save.id) == Some(save.record)
    case DelDb(id) => id !in s.cache
    case ImpFind(_, _) => s.cache == s.db
    case ImpAllot(imported, _) => s.cache == s.db && NoMatchIn(s.db, imported)
    case ImpAccount(id, imported, _, known) => (id in s.db <==> known) && ImportInto(s.db, imported, id)
    case SesRead => s.cache == s.db
    case RestOrder(target, ses) => RestoreOk(target, ses)
    case RestWait(target, ses) => RestoreOk(target, ses)
    case RestDb(target, ses) => RestoreOk(target, ses)
    case RestCache(target, ses) => RestoreOk(target, ses) && RestoreBegun(s, target)
    case _ => true
  }

  ghost predicate DataOk(s: State) {
    && SubMap(s.cache, s.shown)
    && (!Restoring(s) ==> s.shown == s.db)
    && s.db == Replay(s.origin, s.log)
  }

  /** The snapshot is the table as it was, and since then only the session itself has written. */
  ghost predicate SessionOk(s: State, t: Tid, ses: Session) {
    ses.Inside? ==>
      ses.mark <= |s.log| && ses.base == Replay(s.origin, s.log[..ses.mark])
      && forall k :: ses.mark <= k < |s.log| ==> s.log[k].actor == t
  }

  ghost predicate Inv(s: State) {
    && Exclusive(s) && PermitOk(s) && DataOk(s)
    && forall t :: t in s.tasks ==> PcOk(s, s.tasks[t]) && SessionOk(s, t, SessionOf(s.tasks[t]))
  }

  // ---------- what a step of one task leaves alone ----------

  /** One step commits at most one operation, and that one applies to the table as it is. */
  predicate Commits(s: State, t: Tid, s': State) {
    s'.log == s.log
    || (|s'.log| == |s.log| + 1 && s'.log[..|s.log|] == s.log && s'.log[|s.log|].actor == t
        && match s'.log[|s.log|].entry
           case Updated(id, u, at) =>
             id in s.db && Effect(u, s.db[id], at).Write? && (u.Token? ==> Get(s.permit, id) == Some(t))
             && t in s.tasks && Updating(s.tasks[t]) == Some((id, u)) && MadeAt(s.tasks[t]) == Some(at)
           case Deleted(id) => id in s.db
           case Imported(id, r) => ImportInto(s.db, r, id)
           case _ => true)
  }

  function PurposeWait(p: Purpose): Option<int> {
    if p.ForFollow? then Some(p.deadline) else None
  }

  function JobWait(job: Job): Option<int> {
    if job.JobLoad? then PurposeWait(job.p) else None
  }

  /** The deadline of a task that waits for another task's refresh. */
  function WaitUntil(pc: Pc): Option<int> {
    match pc
    case Follow(_, _, deadline, _) => Some(deadline)
    case Load(_, p) => PurposeWait(p)
    case LoadAgain(_, p) => PurposeWait(p)
    case ReloadWait(job) => JobWait(job)
    case ReloadList(job) => JobWait(job)
    case ReloadFill(job, _) => JobWait(job)
    case _ => None
  }

  /** A wait keeps the deadline it began with, and only a look before the deadline lets it go on. */
  predicate WaitOk(s: State, t: Tid, pc: Pc) {
    WaitUntil(pc).Some? ==>
      t in s.tasks
      && (WaitUntil(s.tasks[t]) == WaitUntil(pc)
          || (pc.Follow? && s.tasks[t].Start? && pc.deadline == s.now + WAIT_LIMIT))
      && (pc.Follow? && WaitUntil(s.tasks[t]).Some? ==> s.now < pc.deadline)
  }

  /** Task `t` takes `rec` from the cache in order to refresh it. */
  predicate Takes(s: State, t: Tid, id: Id, rec: Record, how: How) {
    t in s.tasks && (s.tasks[t] == Load(id, ForRefresh(how)) || s.tasks[t] == LoadAgain(id, ForRefresh(how)))
    && Get(s.cache, id) == Some(rec)
  }

  function PurposeUpdate(id: Id, p: Purpose): Option<(Id, Update)> {
    if p.ForUpdate? then Some((id, p.u)) else None
  }

  function JobUpdate(job: Job): Option<(Id, Update)> {
    if job.JobLoad? then PurposeUpdate(job.id, job.p) else None
  }

  function SaveUpdate(save: Save): Option<(Id, Update)> {
    if save.why.BecauseUpdate? then Some((save.id, save.why.u)) else None
  }

  /** The update a task is about to make, with the account it is for. */
  function Updating(pc: Pc): Option<(Id, Update)> {
    match pc
    case UpdProvider(id, u, _) => Some((id, u))
    case UpdAccount(id, u, _) => Some((id, u))
    case Load(id, p) => PurposeUpdate(id, p)
    case LoadAgain(id, p) => PurposeUpdate(id, p)
    case ReloadWait(job) => JobUpdate(job)
    case ReloadList(job) => JobUpdate(job)
    case ReloadFill(job, _) => JobUpdate(job)
    case SaveWait(save) => SaveUpdate(save)
    case SaveEvict(save) => SaveUpdate(save)
    case SaveDb(save) => SaveUpdate(save)
    case SaveInsert(save) => SaveUpdate(save)
    case _ => None
  }

  /** The task waits for the token endpoint, to which it has sent the credentials of `rec`. */
  predicate Exchanges(s: State, t: Tid, id: Id, rec: Record) {
    t in s.tasks && s.tasks[t].Exchange? && s.tasks[t].id == id && s.tasks[t].rec == rec
  }

  /** The task runs on from a load of `id` for `p`. */
  predicate LoadsFor(s: State, t: Tid, id: Id, p: Purpose) {
    t in s.tasks && (s.tasks[t] == Load(id, p) || s.tasks[t] == LoadAgain(id, p))
  }

  /** An update stays what it was decided to be: after an exchange, after a look at the row, or by its caller. */
  predicate Decides(s: State, t: Tid, pc: Pc) {
    Updating(pc).Some? ==>
      (t in s.tasks && Updating(s.tasks[t]) == Updating(pc))
      || (var (id, u) := Updating(pc).value;
          match u
          case Token(attempted, _, _) => Exchanges(s, t, id, attempted)
          case InvalidGrant(attempted) => Exchanges(s, t, id, attempted)
          case QuotaHeaders(h, expected) => LoadsFor(s, t, id, ForHeaders(h, expected))
          case _ => t !in s.tasks)
  }

  function SaveTime(save: Save): Option<int> {
    if save.why.BecauseUpdate? then Some(save.why.at) else None
  }

  /** The time at which the record of a pending update was made. */
  function MadeAt(pc: Pc): Option<int> {
    match pc
    case SaveWait(save) => SaveTime(save)
    case SaveEvict(save) => SaveTime(save)
    case SaveDb(save) => SaveTime(save)
    case _ => None
  }

  /** The record of an update is made at the time of the step that makes it. */
  predicate Times(s: State, t: Tid, pc: Pc) {
    MadeAt(pc).Some? ==> MadeAt(pc) == Some(s.now) || (t in s.tasks && MadeAt(s.tasks[t]) == MadeAt(pc))
  }

  /** A refresh is for the record its load found, and an exchange begins by taking the free permit. */
  predicate Begins(s: State, t: Tid, pc: Pc) {
    && (pc.Start? ==> Takes(s, t, pc.id, pc.rec, pc.how))
    && (pc.Exchange? ==> t in s.tasks && s.tasks[t] == Start(pc.id, pc.rec, pc.how) && pc.id !in s.refreshing)
    && Decides(s, t, pc) && Times(s, t, pc)
  }

  ghost predicate Frame(s: State, t: Tid, s': State) {
    var held := if t in s.tasks then Held(s.tasks[t]) else {};
    && t in s'.tasks && s'.tasks == s.tasks[t := s'.tasks[t]]
    && s'.origin == s.origin && s'.now == s.now && Commits(s, t, s')
    && WaitOk(s, t, s'.tasks[t]) && Begins(s, t, s'.tasks[t])
    && (!(Provider in held && Sync in held) ==> s'.db == s.db && s'.shown == s.shown && s'.log == s.log)
    && (s'.tasks[t].RestCache? ==> s'.shown == s.shown)
    && (Sync !in held ==> s'.cache == s.cache)
    && (Provider !in held ==> s'.cache == s.cache || s'.cache == s.db)
    && (forall l :: l in Held(s'.tasks[t]) ==> l in held || Free(s, l))
    && (forall id :: Get(s'.permit, id) == Get(s.permit, id)
          || (Get(s.permit, id) == Some(t) && id !in s'.permit)
          || (id !in s.permit && Get(s'.permit, id) == Some(t)))
    && s'.permit.Keys == s'.refreshing
  }

  ghost predicate OwnOk(s: State, t: Tid) {
    && t in s.tasks && PcOk(s, s.tasks[t]) && SessionOk(s, t, SessionOf(s.tasks[t]))
    && (PermitOf(s.tasks[t]).Some? ==> Get(s.permit, PermitOf(s.tasks[t]).value) == Some(t))
    && (forall id :: Get(s.permit, id) == Some(t) ==> PermitOf(s.tasks[t]) == Some(id))
  }

  /** Facts about the table are stable for whoever holds the gate, or holds the cache lock. */
  lemma OthersKeepPcOk(s: State, t: Tid, s': State, u: Tid)
    requires Inv(s) && Frame(s, t, s') && u in s.tasks && u != t
    ensures PcOk(s', s.tasks[u])
  {
    hide Replay, Effect, PermitOf, Install, MergeImport, SessionOf, SessionOk, Commits, WaitOk, Begins, PermitOk,
      DataOk;
    var pc := s.tasks[u];
    assert PcOk(s, pc);
    if t in s.tasks {
      assert Held(s.tasks[t]) !! Held(pc);
    }
  }

  lemma GateInside(pc: Pc)
    ensures SessionOf(pc).Inside? ==> Provider in Held(pc)
  {
  }

  lemma OthersKeepSession(s: State, t: Tid, s': State, u: Tid)
    requires Inv(s) && Frame(s, t, s') && u in s.tasks && u != t
    ensures SessionOk(s', u, SessionOf(s.tasks[u]))
  {
    hide Replay, PermitOf, SessionOf, Commits, WaitOk, Begins, PermitOk, DataOk, PcOk, Held;
    GateInside(s.tasks[u]);
    assert SessionOk(s, u, SessionOf(s.tasks[u]));
    if t in s.tasks {
      assert Held(s.tasks[t]) !! Held(s.tasks[u]);
    }
  }

  lemma FrameKeepsExclusive(s: State, t: Tid, s': State)
    requires Exclusive(s) && Frame(s, t, s')
    ensures Exclusive(s')
  {
    hide Held, PermitOf, SessionOf, Commits, WaitOk, Begins;
    forall u | u in s'.tasks && u != t ensures Held(s'.tasks[t]) !! Held(s'.tasks[u]) {
      assert s'.tasks[u] == s.tasks[u];
      if t in s.tasks {
        assert Held(s.tasks[t]) !! Held(s.tasks[u]);
      }
      forall l | l in Held(s'.tasks[t]) ensures l !in Held(s.tasks[u]) {
      }
    }
    forall u, v | u in s'.tasks && v in s'.tasks && u != v ensures Held(s'.tasks[u]) !! Held(s'.tasks[v]) {
      if u != t && v != t {
        assert Held(s.tasks[u]) !! Held(s.tasks[v]);
      }
    }
  }

  lemma FrameKeepsPermits(s: State, t: Tid, s': State)
    requires PermitOk(s) && Frame(s, t, s') && OwnOk(s', t)
    ensures PermitOk(s')
  {
    hide Held, PermitOf, PcOk, SessionOf, SessionOk, Commits, WaitOk, Begins;
    forall id | id in s'.permit
      ensures s'.permit[id] in s'.tasks && PermitOf(s'.tasks[s'.permit[id]]) == Some(id)
    {
      if s'.permit[id] != t {
        assert Get(s'.permit, id) == Get(s.permit, id);
      } else {
        assert Get(s'.permit, id) == Some(t);
      }
    }
    forall u | u in s'.tasks && PermitOf(s'.tasks[u]).Some?
      ensures Get(s'.permit, PermitOf(s'.tasks[u]).value) == Some(u)
    {
      if u != t {
        assert s'.tasks[u] == s.tasks[u];
      }
    }
  }

  lemma FrameKeepsInv(s: State, t: Tid, s': State)
    requires Inv(s) && Frame(s, t, s') && OwnOk(s', t) && DataOk(s')
    ensures Inv(s')
  {
    hide Held, PermitOf, Replay, SessionOf, SessionOk, PcOk, Commits, WaitOk, Begins;
    FrameKeepsExclusive(s, t, s');
    FrameKeepsPermits(s, t, s');
    forall u | u in s'.tasks ensures PcOk(s', s'.tasks[u]) && SessionOk(s', u, SessionOf(s'.tasks[u])) {
      if u != t {
        OthersKeepPcOk(s, t, s', u);
        OthersKeepSession(s, t, s', u);
      }
    }
  }

  /** Appending one operation to the history performs it. */
  lemma ReplayAppend(origin: map<Id, Record>, log: seq<Item>, item: Item)
    ensures Replay(origin, log + [item]) == Perform(Replay(origin, log), item.entry)
  {
    assert (log + [item])[..|log|] == log;
  }

  lemma SessionGrows(s: State, t: Tid, s': State, item: Item, ses: Session)
    requires SessionOk(s, t, ses) && s'.origin == s.origin && s'.log == s.log + [item] && item.actor == t
    ensures SessionOk(s', t, ses)
  {
    hide Replay;
    if ses.Inside? {
      assert s'.log[..ses.mark] == s.log[..ses.mark];
    }
  }
}
