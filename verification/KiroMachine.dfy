/**
 Token refresh and mutation sessions of the Kiro account store, as a concurrent state machine.  One step
 is at most one section without an `await`; the provider gate is held exactly while the program counter is in the
 scope of its guard.
 */
module KiroMachine {
  import opened Prelude

  /** The fields `kiro_credentials_changed` compares. */
  datatype Credentials = Credentials(
    access: string,
    refresh: string,
    authMethod: string,
    provider: string,
    profileArn: Option<string>,
    clientId: Option<string>,
    clientSecret: Option<string>,
    region: Option<string>,
    startUrl: Option<string>)

  datatype Status = Active | Expired

  datatype Record = Record(
    cred: Credentials,
    expiresAt: Stamp,
    lastRefresh: Option<string>,
    email: Option<string>,
    status: Status,
    quota: string)

  predicate IsExpired(r: Record, now: int) {
    r.expiresAt.Unreadable? || now >= r.expiresAt.seconds
  }

  /** A refreshed record keeps the quota as it is now, and the e-mail if one is known. */
  function MergeRefresh(latest: Record, refreshed: Record): Record {
    refreshed.(email := latest.email.OrElse(refreshed.email), quota := latest.quota)
  }

  function MergeImport(existing: Record, imported: Record): Record {
    imported.(quota := existing.quota, status := Active)
  }

  /** The same provider and e-mail; an import without an e-mail goes by the provider and the profile. */
  predicate SameAccount(imported: Record, existing: Record) {
    Lower(Trim(existing.cred.provider)) == Lower(Trim(imported.cred.provider))
    && if NormalEmail(imported.email).Some? then NormalEmail(existing.email) == NormalEmail(imported.email)
       else NormalId(imported.cred.profileArn).Some?
            && NormalId(existing.cred.profileArn) == NormalId(imported.cred.profileArn)
  }

  /** The import of `r` may land on `id`: on a matching account, or on a new id when nothing matches. */
  predicate ImportInto(m: map<Id, Record>, r: Record, id: Id) {
    if id in m then SameAccount(r, m[id]) else forall other :: other in m ==> !SameAccount(r, m[other])
  }

  /** What tells a follower that the refresh it waited for went well. */
  predicate Moved(previous: Record, current: Record, now: int) {
    previous.cred != current.cred
    || (!IsExpired(current, now)
        && (current.expiresAt != previous.expiresAt || current.lastRefresh != previous.lastRefresh))
  }

  // ---------- the sequential specification ----------

  datatype Entry =
    | Refreshed(id: Id, sent: Record, result: Record)
    | Imported(id: Id, record: Record)
    | Deleted(id: Id)
    | Restored(rows: map<Id, Record>)

  datatype Item = Item(actor: Tid, entry: Entry)

  function Perform(m: map<Id, Record>, e: Entry): map<Id, Record> {
    match e
    case Refreshed(id, sent, result) =>
      if id in m && m[id].cred == sent.cred then m[id := MergeRefresh(m[id], result)] else m
    case Imported(id, r) => m[id := if id in m then MergeImport(m[id], r) else r]
    case Deleted(id) => m - {id}
    case Restored(rows) => rows
  }

  function Replay(origin: map<Id, Record>, log: seq<Item>): map<Id, Record> {
    if log == [] then origin else Perform(Replay(origin, log[..|log| - 1]), log[|log| - 1].entry)
  }

  // ---------- tasks ----------

  datatype Reply = Nothing | Failed | Served(id: Id, record: Record)

  /** What a task does with the record `load_account` hands it. */
  datatype Purpose =
    | ForGet(force: bool)
    | ForPermit(prev: Record)
    | ForFollow(prev: Record)

  /** A mutation session: the rows it snapshot, and how many operations were complete then. */
  datatype Session = Alone | Inside(base: map<Id, Record>, mark: nat)

  datatype Job = JobLoad(id: Id, p: Purpose) | JobImport(imported: Record, ses: Session) | JobSnapshot

  datatype Why = BecauseRefresh(sent: Record, result: Record) | BecauseImport(imported: Record, ses: Session)

  datatype Pc =
    | Done(reply: Reply)
    | Load(id: Id, p: Purpose)
    | LoadGate(id: Id, p: Purpose)
    | LoadAgain(id: Id, p: Purpose)
    | List(job: Job)
    | Fill(job: Job, rows: map<Id, Record>)
    // refresh_record_with
    | Start(id: Id, prev: Record)
    | Follow(id: Id, prev: Record, deadline: int)
    | Exchange(id: Id, cur: Record)
    | CommitGate(id: Id, cur: Record, result: Option<Record>)
    | Commit(id: Id, cur: Record, result: Option<Record>)
    // save_record_unlocked
    | SaveDb(id: Id, next: Record, why: Why)
    | SaveCache(id: Id, next: Record, why: Why)
    | DelGate(id: Id)
    | DelDb(id: Id)
    | DelCache(id: Id)
    // imports, sessions, restores
    | ImpGate(imported: Record)
    | ImpPick(imported: Record, ses: Session)
    | SesGate
    | SesOpen(base: map<Id, Record>, mark: nat)
    | RestGate(rows: map<Id, Record>)
    | RestDb(rows: map<Id, Record>, ses: Session)
    | RestCache(rows: map<Id, Record>, ses: Session)

  /**
   `shown` and `seen` are history: the table as the cache may show it, which lags until a write reaches
   the cache, and how many operations it reflects.
   */
  datatype State = State(
    db: map<Id, Record>,
    cache: map<Id, Record>,
    shown: map<Id, Record>,
    refreshing: set<Id>,
    permit: map<Id, Tid>,
    now: int,
    tasks: map<Tid, Pc>,
    origin: map<Id, Record>,
    log: seq<Item>,
    seen: nat)

  predicate HoldsGate(pc: Pc) {
    pc.List? || pc.Fill? || pc.Commit? || pc.SaveDb? || pc.SaveCache? || pc.DelDb? || pc.DelCache? || pc.ImpPick?
    || pc.SesOpen? || pc.RestDb? || pc.RestCache?
  }

  predicate WantsGate(pc: Pc) {
    pc.LoadGate? || pc.CommitGate? || pc.DelGate? || pc.ImpGate? || pc.SesGate? || pc.RestGate?
  }

  /** The table is written and the cache is not yet: such a task is not cancelled. */
  predicate Settling(pc: Pc) {
    pc.SaveCache? || pc.DelCache? || pc.RestCache?
  }

  predicate GateFree(s: State) {
    forall t :: t in s.tasks ==> !HoldsGate(s.tasks[t])
  }

  function PurposePermit(id: Id, p: Purpose): Option<Id> {
    if p.ForPermit? then Some(id) else None
  }

  function JobPermit(job: Job): Option<Id> {
    if job.JobLoad? then PurposePermit(job.id, job.p) else None
  }

  /** The account whose refresh permit the task holds. */
  function PermitOf(pc: Pc): Option<Id> {
    match pc
    case Load(id, p) => PurposePermit(id, p)
    case LoadGate(id, p) => PurposePermit(id, p)
    case LoadAgain(id, p) => PurposePermit(id, p)
    case List(job) => JobPermit(job)
    case Fill(job, _) => JobPermit(job)
    case Exchange(id, _) => Some(id)
    case CommitGate(id, _, _) => Some(id)
    case Commit(id, _, _) => Some(id)
    case SaveDb(id, _, why) => if why.BecauseRefresh? then Some(id) else None
    case SaveCache(id, _, why) => if why.BecauseRefresh? then Some(id) else None
    case _ => None
  }

  /** The session a task is in. */
  function SessionOf(pc: Pc): Session {
    match pc
    case List(JobImport(_, ses)) => ses
    case Fill(JobImport(_, ses), _) => ses
    case ImpPick(_, ses) => ses
    case SaveDb(_, _, BecauseImport(_, ses)) => ses
    case SaveCache(_, _, BecauseImport(_, ses)) => ses
    case SesOpen(base, mark) => Inside(base, mark)
    case RestDb(_, ses) => ses
    case RestCache(_, ses) => ses
    case _ => Alone
  }

  // ---------- steps ----------

  const WAIT_LIMIT := 35

  function Move(s: State, t: Tid, pc: Pc): State {
    s.(tasks := s.tasks[t := pc])
  }

  /** The task ends; its permit and its gate are dropped with it. */
  function Finish(s: State, t: Tid, permit: Option<Id>, reply: Reply): State {
    match permit
    case None => Move(s, t, Done(reply))
    case Some(id) => Move(s.(refreshing := s.refreshing - {id}, permit := s.permit - {id}), t, Done(reply))
  }

  function EndImport(s: State, t: Tid, ses: Session, ok: bool): State {
    match ses
    case Alone => Move(s, t, Done(if ok then Nothing else Failed))
    case Inside(base, mark) => Move(s, t, SesOpen(base, mark))
  }

  /** The code that runs on from `load_account`. */
  function Resume(s: State, t: Tid, id: Id, p: Purpose, got: Option<Record>): State {
    if got.None? then Finish(s, t, PurposePermit(id, p), Failed)
    else match p
      case ForGet(force) =>
        Move(s, t, if !force && !IsExpired(got.value, s.now) then Done(Served(id, got.value)) else Start(id, got.value))
      case ForPermit(prev) =>
        if prev.cred != got.value.cred then Finish(s, t, Some(id), Served(id, got.value))
        else Move(s, t, Exchange(id, got.value))
      case ForFollow(prev) =>
        Move(s, t, Done(if Moved(prev, got.value, s.now) then Served(id, got.value) else Failed))
  }

  predicate Ready(s: State, t: Tid) {
    t in s.tasks
    && !(s.tasks[t].Done? || s.tasks[t].Exchange? || s.tasks[t].ImpPick? || s.tasks[t].SesOpen?)
    && (WantsGate(s.tasks[t]) ==> GateFree(s))
  }

  function StepLoad(s: State, t: Tid, id: Id, p: Purpose): State {
    if id in s.cache then Resume(s, t, id, p, Some(s.cache[id])) else Move(s, t, LoadGate(id, p))
  }

  function StepFill(s: State, t: Tid, job: Job, rows: map<Id, Record>): State {
    Move(s.(cache := rows), t,
      match job
      case JobLoad(id, p) => LoadAgain(id, p)
      case JobImport(r, ses) => ImpPick(r, ses)
      case JobSnapshot => SesOpen(rows, |s.log|))
  }

  function StepStart(s: State, t: Tid, id: Id, prev: Record): State {
    if id in s.refreshing then Move(s, t, Follow(id, prev, s.now + WAIT_LIMIT))
    else Move(s.(refreshing := s.refreshing + {id}, permit := s.permit[id := t]), t, Load(id, ForPermit(prev)))
  }

  function StepFollow(s: State, t: Tid, id: Id, prev: Record, deadline: int): State {
    if id !in s.refreshing then Move(s, t, Load(id, ForFollow(prev)))
    else if s.now >= deadline then Move(s, t, Done(Failed))
    else s
  }

  /** Under the gate: the same credentials must still be there, or the result is dropped. */
  function StepCommit(s: State, t: Tid, id: Id, cur: Record, result: Option<Record>): State {
    if id !in s.cache then Finish(s, t, Some(id), Failed)
    else
      var latest := s.cache[id];
      if cur.cred != latest.cred then Finish(s, t, Some(id), Served(id, latest))
      else if result.None? then Finish(s, t, Some(id), Failed)
      else Move(s, t, SaveDb(id, MergeRefresh(latest, result.value), BecauseRefresh(cur, result.value)))
  }

  function EntryOf(id: Id, why: Why): Entry {
    match why
    case BecauseRefresh(sent, result) => Refreshed(id, sent, result)
    case BecauseImport(imported, _) => Imported(id, imported)
  }

  function StepSaveDb(s: State, t: Tid, id: Id, next: Record, why: Why): State {
    Move(s.(db := s.db[id := next], log := s.log + [Item(t, EntryOf(id, why))]), t, SaveCache(id, next, why))
  }

  function StepSaveCache(s: State, t: Tid, id: Id, next: Record, why: Why): State {
    var saved := s.(cache := s.cache[id := next], shown := s.db, seen := |s.log|);
    match why
    case BecauseRefresh(_, _) => Finish(saved, t, Some(id), if IsExpired(next, s.now) then Failed else Served(id, next))
    case BecauseImport(_, ses) => EndImport(saved, t, ses, true)
  }

  function StepDelDb(s: State, t: Tid, id: Id): State {
    if id !in s.db then Move(s, t, Done(Failed))
    else Move(s.(db := s.db - {id}, log := s.log + [Item(t, Deleted(id))]), t, DelCache(id))
  }

  function Advance(s: State, t: Tid): State
    requires t in s.tasks
  {
    match s.tasks[t]
    case Load(id, p) => StepLoad(s, t, id, p)
    case LoadGate(id, p) => Move(s, t, List(JobLoad(id, p)))
    case LoadAgain(id, p) => Resume(s, t, id, p, Get(s.cache, id))
    case List(job) => Move(s, t, Fill(job, s.db))
    case Fill(job, rows) => StepFill(s, t, job, rows)
    case Start(id, prev) => StepStart(s, t, id, prev)
    case Follow(id, prev, deadline) => StepFollow(s, t, id, prev, deadline)
    case CommitGate(id, cur, result) => Move(s, t, Pc.Commit(id, cur, result))
    case Commit(id, cur, result) => StepCommit(s, t, id, cur, result)
    case SaveDb(id, next, why) => StepSaveDb(s, t, id, next, why)
    case SaveCache(id, next, why) => StepSaveCache(s, t, id, next, why)
    case DelGate(id) => Move(s, t, DelDb(id))
    case DelDb(id) => StepDelDb(s, t, id)
    case DelCache(id) => Move(s.(cache := s.cache - {id}, shown := s.db, seen := |s.log|), t, Done(Nothing))
    case ImpGate(r) => Move(s, t, List(JobImport(r, Alone)))
    case SesGate => Move(s, t, List(JobSnapshot))
    case RestGate(rows) => Move(s, t, RestDb(rows, Alone))
    case RestDb(rows, ses) =>
      Move(s.(db := rows, log := s.log + [Item(t, Restored(rows))]), t, RestCache(rows, ses))
    case RestCache(rows, _) => Move(s.(cache := rows, shown := s.db, seen := |s.log|), t, Done(Nothing))
    case _ => s
  }

  datatype Event =
    | Run
    | DbFail
    | Cancel
    | Spawn(pc: Pc)
    | Answer(result: Option<Record>)
    | Pick(id: Id)
    | SessionImport(record: Record)
    | SessionCommit
    | SessionRollback

  predicate Initial(pc: Pc) {
    match pc
    case Load(_, p) => p.ForGet?
    case DelGate(_) => true
    case ImpGate(_) => true
    case SesGate => true
    case RestGate(_) => true
    case _ => false
  }

  predicate DbCall(pc: Pc) {
    pc.List? || pc.SaveDb? || pc.DelDb? || pc.RestDb?
  }

  function AfterDbFail(s: State, t: Tid): State
    requires t in s.tasks
  {
    match s.tasks[t]
    case List(JobLoad(id, p)) => Resume(s, t, id, p, None)
    case List(JobImport(_, ses)) => EndImport(s, t, ses, false)
    case SaveDb(id, _, BecauseRefresh(_, _)) => Finish(s, t, Some(id), Failed)
    case SaveDb(_, _, BecauseImport(_, ses)) => EndImport(s, t, ses, false)
    case _ => Move(s, t, Done(Failed))
  }

  /** What an import stores over the account it matched, or as the new account it named. */
  function ImportOver(cache: map<Id, Record>, id: Id, imported: Record): Record {
    if id in cache then MergeImport(cache[id], imported) else imported
  }

  predicate Step(s: State, t: Tid, e: Event, s': State) {
    match e
    case Spawn(pc) => t !in s.tasks && Initial(pc) && s' == Move(s, t, pc)
    case Run => Ready(s, t) && s' == Advance(s, t)
    case DbFail => t in s.tasks && DbCall(s.tasks[t]) && s' == AfterDbFail(s, t)
    case Cancel =>
      t in s.tasks && !s.tasks[t].Done? && !Settling(s.tasks[t]) && s' == Finish(s, t, PermitOf(s.tasks[t]), Failed)
    case Answer(result) =>
      t in s.tasks && s.tasks[t].Exchange? && s' == Move(s, t, CommitGate(s.tasks[t].id, s.tasks[t].cur, result))
    case Pick(id) =>
      t in s.tasks && s.tasks[t].ImpPick?
      && (var pc := s.tasks[t];
          ImportInto(s.cache, pc.imported, id)
          && s' == Move(s, t, SaveDb(id, ImportOver(s.cache, id, pc.imported), BecauseImport(pc.imported, pc.ses))))
    case SessionImport(r) =>
      t in s.tasks && s.tasks[t].SesOpen?
      && s' == Move(s, t, List(JobImport(r, Inside(s.tasks[t].base, s.tasks[t].mark))))
    case SessionCommit => t in s.tasks && s.tasks[t].SesOpen? && s' == Move(s, t, Done(Nothing))
    case SessionRollback =>
      t in s.tasks && s.tasks[t].SesOpen?
      && s' == Move(s, t, RestDb(s.tasks[t].base, Inside(s.tasks[t].base, s.tasks[t].mark)))
  }

  datatype Label = Task(t: Tid, e: Event) | Tick(seconds: nat)

  predicate Next(s: State, l: Label, s': State) {
    match l
    case Task(t, e) => Step(s, t, e, s')
    case Tick(seconds) => s' == s.(now := s.now + seconds)
  }

  predicate Init(s: State) {
    s.db == s.origin && s.shown == s.origin && s.cache == map[] && s.refreshing == {} && s.permit == map[]
    && s.tasks == map[] && s.log == [] && s.seen == 0
  }

  predicate IsRun(states: seq<State>, labels: seq<Label>) {
    |states| == |labels| + 1 && Init(states[0])
    && forall i :: 0 <= i < |labels| ==> Next(states[i], labels[i], states[i + 1])
  }
}
