/**
 The xAI account store as a concurrent state machine.

 A task is a program counter and one step is at most one section without an `await`.  Four kinds of locks
 are held across awaits; a lock is held exactly while the guard for it lives, so the locks a task holds are
 a function of its program counter, and dropping a task drops its guards.
 */
module XaiMachine {
  import opened Prelude
  import opened XaiQuota
  import opened XaiTypes

  // ---------- the sequential specification ----------

  datatype Target = All(rows: map<Id, Record>) | One(id: Id, record: Option<Record>)

  function Install(m: map<Id, Record>, target: Target): map<Id, Record> {
    match target
    case All(rows) => rows
    case One(id, Some(r)) => m[id := r]
    case One(id, None) => m - {id}
  }

  /** One committed operation on the table. */
  datatype Entry =
    | Updated(id: Id, u: Update, at: int)
    | Imported(id: Id, record: Record)
    | Deleted(id: Id)
    | Restored(target: Target)

  function Perform(m: map<Id, Record>, e: Entry): map<Id, Record> {
    match e
    case Updated(id, u, at) =>
      if id in m && Effect(u, m[id], at).Write? then m[id := Effect(u, m[id], at).record] else m
    case Imported(id, r) => m[id := if id in m then MergeImport(m[id], r) else r]
    case Deleted(id) => m - {id}
    case Restored(target) => Install(m, target)
  }

  /** A committed operation and the task that ran it. */
  datatype Item = Item(actor: Tid, entry: Entry)

  function Replay(origin: map<Id, Record>, log: seq<Item>): map<Id, Record> {
    if log == [] then origin else Perform(Replay(origin, log[..|log| - 1]), log[|log| - 1].entry)
  }

  // ---------- tasks ----------

  datatype Lock = Provider | Index | Account(id: Id) | Sync

  function Rank(l: Lock): nat {
    match l
    case Provider => 0
    case Index => 1
    case Account(_) => 2
    case Sync => 3
  }

  /** Who asked for a token refresh. */
  datatype How = GetRecord | Manual | Due

  datatype Reply = Nothing | Failed | Served(id: Id, record: Record)

  /** An update runs for its own caller, or at the end of a refresh that holds the account's permit. */
  datatype By = Direct | Refreshing(how: How)

  /** A mutation session: the rows it snapshot, and how many operations were committed then. */
  datatype Session = Alone | Inside(base: map<Id, Record>, mark: nat)

  /** What a task does with the record `load_account` hands it. */
  datatype Purpose =
    | ForRefresh(how: How)
    | ForFollow(prev: Record, deadline: int, busy: bool, how: How)
    | ForHeaders(headers: Headers, expected: string)
    | ForUpdate(u: Update, via: By)
    | ForImport(imported: Record, ses: Session)

  /** Why a task reloads the cache from the table. */
  datatype Job =
    | JobLoad(id: Id, p: Purpose)
    | JobFind(imported: Record, ses: Session)
    | JobAllot(imported: Record, ses: Session)
    | JobSnapshot
    | JobList

  datatype Why = BecauseUpdate(u: Update, at: int, via: By) | BecauseImport(imported: Record, ses: Session)

  datatype Save = Save(id: Id, record: Record, why: Why)

  datatype Pc =
    | Done(reply: Reply)
    // load_account and refresh_cache
    | Load(id: Id, p: Purpose)
    | LoadAgain(id: Id, p: Purpose)
    | ReloadWait(job: Job)
    | ReloadList(job: Job)
    | ReloadFill(job: Job, rows: map<Id, Record>)
    // a locked read-modify-write, and save_record_locked
    | UpdProvider(id: Id, u: Update, via: By)
    | UpdAccount(id: Id, u: Update, via: By)
    | SaveWait(save: Save)
    | SaveEvict(save: Save)
    | SaveDb(save: Save)
    | SaveInsert(save: Save)
    // delete_account
    | DelProvider(id: Id)
    | DelAccount(id: Id)
    | DelWait(id: Id)
    | DelEvict(id: Id)
    | DelDb(id: Id)
    // save_new_account and mutation sessions
    | ImpProvider(imported: Record)
    | ImpIndex(imported: Record, ses: Session)
    | ImpFind(imported: Record, ses: Session)
    | ImpAllot(imported: Record, ses: Session)
    | ImpAccount(id: Id, imported: Record, ses: Session, known: bool)
    | SesProvider
    | SesRead
    | SesOpen(base: map<Id, Record>, mark: nat)
    // restores
    | RestProvider(target: Target)
    | RestOrder(target: Target, ses: Session)
    | RestWait(target: Target, ses: Session)
    | RestDb(target: Target, ses: Session)
    | RestCache(target: Target, ses: Session)
    // refresh_record_guarded
    | Start(id: Id, rec: Record, how: How)
    | Follow(id: Id, prev: Record, deadline: int, how: How)
    | Exchange(id: Id, rec: Record, how: How)

  /** `shown` is history: the table as the cache may show it, which a restore moves late. */
  datatype State = State(
    db: map<Id, Record>,
    cache: map<Id, Record>,
    shown: map<Id, Record>,
    refreshing: set<Id>,
    permit: map<Id, Tid>,
    now: int,
    tasks: map<Tid, Pc>,
    origin: map<Id, Record>,
    log: seq<Item>)

  // ---------- locks ----------

  function PurposeHolds(id: Id, p: Purpose): set<Lock> {
    match p
    case ForUpdate(_, _) => {Provider, Account(id)}
    case ForImport(_, _) => {Provider, Index, Account(id)}
    case _ => {}
  }

  function JobHolds(job: Job): set<Lock> {
    match job
    case JobLoad(id, p) => PurposeHolds(id, p)
    case JobFind(_, _) => {Provider, Index}
    case JobAllot(_, _) => {Provider, Index}
    case JobSnapshot => {Provider}
    case JobList => {}
  }

  function SaveHolds(save: Save): set<Lock> {
    if save.why.BecauseUpdate? then {Provider, Account(save.id)} else {Provider, Index, Account(save.id)}
  }

  function RestoreHolds(target: Target): set<Lock> {
    match target
    case All(_) => {Provider, Index}
    case One(id, _) => {Provider, Account(id)}
  }

  /** The locks whose guards are alive at `pc`. */
  function Held(pc: Pc): set<Lock> {
    match pc
    case Load(id, p) => PurposeHolds(id, p)
    case LoadAgain(id, p) => PurposeHolds(id, p)
    case ReloadWait(job) => JobHolds(job)
    case ReloadList(job) => JobHolds(job) + {Sync}
    case ReloadFill(job, _) => JobHolds(job) + {Sync}
    case UpdAccount(_, _, _) => {Provider}
    case SaveWait(save) => SaveHolds(save)
    case SaveEvict(save) => SaveHolds(save) + {Sync}
    case SaveDb(save) => SaveHolds(save) + {Sync}
    case SaveInsert(save) => SaveHolds(save) + {Sync}
    case DelAccount(_) => {Provider}
    case DelWait(id) => {Provider, Account(id)}
    case DelEvict(id) => {Provider, Account(id), Sync}
    case DelDb(id) => {Provider, Account(id), Sync}
    case ImpIndex(_, _) => {Provider}
    case ImpFind(_, _) => {Provider, Index}
    case ImpAllot(_, _) => {Provider, Index}
    case ImpAccount(_, _, _, _) => {Provider, Index}
    case SesRead => {Provider}
    case SesOpen(_, _) => {Provider}
    case RestOrder(_, _) => {Provider}
    case RestWait(target, _) => RestoreHolds(target)
    case RestDb(target, _) => RestoreHolds(target) + {Sync}
    case RestCache(target, _) => RestoreHolds(target) + {Sync}
    case _ => {}
  }

  /** The lock the task is waiting for. */
  function Wants(pc: Pc): Option<Lock> {
    match pc
    case ReloadWait(_) => Some(Sync)
    case UpdProvider(_, _, _) => Some(Provider)
    case UpdAccount(id, _, _) => Some(Account(id))
    case SaveWait(_) => Some(Sync)
    case DelProvider(_) => Some(Provider)
    case DelAccount(id) => Some(Account(id))
    case DelWait(_) => Some(Sync)
    case ImpProvider(_) => Some(Provider)
    case ImpIndex(_, _) => Some(Index)
    case ImpAccount(id, _, _, _) => Some(Account(id))
    case SesProvider => Some(Provider)
    case RestProvider(_) => Some(Provider)
    case RestOrder(All(_), _) => Some(Index)
    case RestOrder(One(id, _), _) => Some(Account(id))
    case RestWait(_, _) => Some(Sync)
    case _ => None
  }

  predicate Free(s: State, l: Lock) {
    forall t :: t in s.tasks ==> l !in Held(s.tasks[t])
  }

  function ByPermit(id: Id, via: By): Option<Id> {
    if via.Refreshing? then Some(id) else None
  }

  function PurposePermit(id: Id, p: Purpose): Option<Id> {
    if p.ForUpdate? then ByPermit(id, p.via) else None
  }

  function JobPermit(job: Job): Option<Id> {
    if job.JobLoad? then PurposePermit(job.id, job.p) else None
  }

  function SavePermit(save: Save): Option<Id> {
    if save.why.BecauseUpdate? then ByPermit(save.id, save.why.via) else None
  }

  /** The account whose refresh permit the task holds. */
  function PermitOf(pc: Pc): Option<Id> {
    match pc
    case Load(id, p) => PurposePermit(id, p)
    case LoadAgain(id, p) => PurposePermit(id, p)
    case ReloadWait(job) => JobPermit(job)
    case ReloadList(job) => JobPermit(job)
    case ReloadFill(job, _) => JobPermit(job)
    case UpdProvider(id, _, via) => ByPermit(id, via)
    case UpdAccount(id, _, via) => ByPermit(id, via)
    case SaveWait(save) => SavePermit(save)
    case SaveEvict(save) => SavePermit(save)
    case SaveDb(save) => SavePermit(save)
    case SaveInsert(save) => SavePermit(save)
    case Exchange(id, _, _) => Some(id)
    case _ => None
  }

  function PurposeSession(p: Purpose): Session {
    if p.ForImport? then p.ses else Alone
  }

  function JobSession(job: Job): Session {
    match job
    case JobLoad(_, p) => PurposeSession(p)
    case JobFind(_, ses) => ses
    case JobAllot(_, ses) => ses
    case _ => Alone
  }

  function SaveSession(save: Save): Session {
    if save.why.BecauseImport? then save.why.ses else Alone
  }

  /** The mutation session the task works for. */
  function SessionOf(pc: Pc): Session {
    match pc
    case Load(_, p) => PurposeSession(p)
    case LoadAgain(_, p) => PurposeSession(p)
    case ReloadWait(job) => JobSession(job)
    case ReloadList(job) => JobSession(job)
    case ReloadFill(job, _) => JobSession(job)
    case SaveWait(save) => SaveSession(save)
    case SaveEvict(save) => SaveSession(save)
    case SaveDb(save) => SaveSession(save)
    case SaveInsert(save) => SaveSession(save)
    case ImpIndex(_, ses) => ses
    case ImpFind(_, ses) => ses
    case ImpAllot(_, ses) => ses
    case ImpAccount(_, _, ses, _) => ses
    case SesOpen(base, mark) => Inside(base, mark)
    case RestOrder(_, ses) => ses
    case RestWait(_, ses) => ses
    case RestDb(_, ses) => ses
    case RestCache(_, ses) => ses
    case _ => Alone
  }

  // ---------- building blocks of a step ----------

  function Move(s: State, t: Tid, pc: Pc): State {
    s.(tasks := s.tasks[t := pc])
  }

  function DropPermit(s: State, permit: Option<Id>): State {
    match permit
    case None => s
    case Some(id) => s.(refreshing := s.refreshing - {id}, permit := s.permit - {id})
  }

  function ReplyTo(how: How, id: Id, r: Record): Reply {
    if how.GetRecord? then Served(id, r) else Nothing
  }

  /** The end of an update; a permit it carried is dropped with it. */
  function EndUpdate(s: State, t: Tid, id: Id, u: Update, via: By, got: Option<Record>): State {
    Move(DropPermit(s, ByPermit(id, via)), t,
      match via
      case Direct => Done(if got.Some? then Nothing else Failed)
      case Refreshing(how) => Done(if got.Some? && u.Token? then ReplyTo(how, id, got.value) else Failed))
  }

  function EndImport(s: State, t: Tid, ses: Session, ok: bool): State {
    Move(s, t, match ses
      case Alone => Done(if ok then Nothing else Failed)
      case Inside(base, mark) => SesOpen(base, mark))
  }

  /** The reply when the loaded record calls for no refresh. */
  function WithoutRefresh(how: How, id: Id, r: Record, now: int): Option<Reply> {
    match how
    case GetRecord =>
      if r.status == Invalid || !NeedsRefresh(r, now) || !r.autoRefresh || Blank(r.refresh)
      then Some(Served(id, r)) else None
    case Manual => if Blank(r.refresh) then Some(Failed) else None
    case Due => if !CanAutoRefresh(r) || !NeedsRefresh(r, now) then Some(Nothing) else None
  }

  /** The code that runs on from `load_account`. */
  function Resume(s: State, t: Tid, id: Id, p: Purpose, got: Option<Record>): State {
    match p
    case ForRefresh(how) =>
      Move(s, t,
        if got.None? then Done(Failed)
        else if WithoutRefresh(how, id, got.value, s.now).Some?
        then Done(WithoutRefresh(how, id, got.value, s.now).value)
        else Start(id, got.value, how))
    case ForFollow(prev, deadline, busy, how) =>
      Move(s, t,
        if got.None? then Done(Failed)
        else if WasRefreshed(prev, got.value) then Done(ReplyTo(how, id, got.value))
        else if !busy || s.now >= deadline then Done(Failed)
        else Follow(id, prev, deadline, how))
    case ForHeaders(h, expected) =>
      Move(s, t,
        if got.None? then Done(Failed)
        else if Effect(QuotaHeaders(h, expected), got.value, s.now).Keep? then Done(Nothing)
        else UpdProvider(id, QuotaHeaders(h, expected), Direct))
    case ForUpdate(u, via) =>
      if got.None? then EndUpdate(s, t, id, u, via, None)
      else if Effect(u, got.value, s.now).Keep? then EndUpdate(s, t, id, u, via, got)
      else Move(s, t, SaveWait(Save(id, Effect(u, got.value, s.now).record, BecauseUpdate(u, s.now, via))))
    case ForImport(imported, ses) =>
      if got.None? then EndImport(s, t, ses, false)
      else Move(s, t, SaveWait(Save(id, MergeImport(got.value, imported), BecauseImport(imported, ses))))
  }

  // ---------- one step of a task ----------

  predicate Ready(s: State, t: Tid) {
    t in s.tasks
    && !(s.tasks[t].Done? || s.tasks[t].Exchange? || s.tasks[t].ImpFind? || s.tasks[t].ImpAllot? || s.tasks[t].SesOpen?)
    && (Wants(s.tasks[t]).Some? ==> Free(s, Wants(s.tasks[t]).value))
  }

  function StepLoad(s: State, t: Tid, id: Id, p: Purpose): State {
    if id in s.cache then Resume(s, t, id, p, Some(s.cache[id])) else Move(s, t, ReloadWait(JobLoad(id, p)))
  }

  function StepFill(s: State, t: Tid, job: Job, rows: map<Id, Record>): State {
    Move(s.(cache := rows), t,
      match job
      case JobLoad(id, p) => LoadAgain(id, p)
      case JobFind(r, ses) => ImpFind(r, ses)
      case JobAllot(r, ses) => ImpAllot(r, ses)
      case JobSnapshot => SesRead
      case JobList => Done(Nothing))
  }

  function EntryOf(save: Save): Entry {
    match save.why
    case BecauseUpdate(u, at, _) => Updated(save.id, u, at)
    case BecauseImport(imported, _) => Imported(save.id, imported)
  }

  /** The upsert itself writes the record it was given. */
  function StepSaveDb(s: State, t: Tid, save: Save): State {
    var db := s.db[save.id := save.record];
    Move(s.(db := db, shown := db, log := s.log + [Item(t, EntryOf(save))]), t, SaveInsert(save))
  }

  function AfterSave(s: State, t: Tid, save: Save, ok: bool): State {
    match save.why
    case BecauseUpdate(u, _, via) => EndUpdate(s, t, save.id, u, via, if ok then Some(save.record) else None)
    case BecauseImport(_, ses) => EndImport(s, t, ses, ok)
  }

  /** Deleting an account that has no row is an error. */
  function StepDelDb(s: State, t: Tid, id: Id): State {
    if id !in s.db then Move(s, t, Done(Failed))
    else
      var db := s.db - {id};
      Move(s.(db := db, shown := db, log := s.log + [Item(t, Deleted(id))]), t, Done(Nothing))
  }

  const WAIT_LIMIT := 35

  /**
   Taking the permit.  Nothing is awaited since the load, but other threads run on, so this is a step of
   its own; the record is not read again.
   */
  function StepStart(s: State, t: Tid, id: Id, r: Record, how: How): State {
    if id in s.refreshing then Move(s, t, Follow(id, r, s.now + WAIT_LIMIT, how))
    else Move(s.(refreshing := s.refreshing + {id}, permit := s.permit[id := t]), t, Exchange(id, r, how))
  }

  function StepImpAccount(s: State, t: Tid, id: Id, imported: Record, ses: Session, known: bool): State {
    Move(s, t, if known then Load(id, ForImport(imported, ses))
               else SaveWait(Save(id, imported, BecauseImport(imported, ses))))
  }

  function StepRestDb(s: State, t: Tid, target: Target, ses: Session): State {
    Move(s.(db := Install(s.db, target), log := s.log + [Item(t, Restored(target))]), t, RestCache(target, ses))
  }

  function StepRestCache(s: State, t: Tid, target: Target): State {
    Move(s.(cache := Install(s.cache, target), shown := s.db), t, Done(Nothing))
  }

  function Advance(s: State, t: Tid): State
    requires t in s.tasks
  {
    match s.tasks[t]
    case Load(id, p) => StepLoad(s, t, id, p)
    case LoadAgain(id, p) => Resume(s, t, id, p, Get(s.cache, id))
    case ReloadWait(job) => Move(s, t, ReloadList(job))
    case ReloadList(job) => Move(s, t, ReloadFill(job, s.db))
    case ReloadFill(job, rows) => StepFill(s, t, job, rows)
    case UpdProvider(id, u, via) => Move(s, t, UpdAccount(id, u, via))
    case UpdAccount(id, u, via) => Move(s, t, Load(id, ForUpdate(u, via)))
    case SaveWait(save) => Move(s, t, SaveEvict(save))
    case SaveEvict(save) => Move(s.(cache := s.cache - {save.id}), t, SaveDb(save))
    case SaveDb(save) => StepSaveDb(s, t, save)
    case SaveInsert(save) => AfterSave(s.(cache := s.cache[save.id := save.record]), t, save, true)
    case DelProvider(id) => Move(s, t, DelAccount(id))
    case DelAccount(id) => Move(s, t, DelWait(id))
    case DelWait(id) => Move(s, t, DelEvict(id))
    case DelEvict(id) => Move(s.(cache := s.cache - {id}), t, DelDb(id))
    case DelDb(id) => StepDelDb(s, t, id)
    case ImpProvider(r) => Move(s, t, ImpIndex(r, Alone))
    case ImpIndex(r, ses) => Move(s, t, ReloadWait(JobFind(r, ses)))
    case ImpAccount(id, r, ses, known) => StepImpAccount(s, t, id, r, ses, known)
    case SesProvider => Move(s, t, ReloadWait(JobSnapshot))
    case SesRead => Move(s, t, SesOpen(s.cache, |s.log|))
    case RestProvider(target) => Move(s, t, RestOrder(target, Alone))
    case RestOrder(target, ses) => Move(s, t, RestWait(target, ses))
    case RestWait(target, ses) => Move(s, t, RestDb(target, ses))
    case RestDb(target, ses) => StepRestDb(s, t, target, ses)
    case RestCache(target, _) => StepRestCache(s, t, target)
    case Start(id, r, how) => StepStart(s, t, id, r, how)
    case Follow(id, prev, deadline, how) => Move(s, t, Load(id, ForFollow(prev, deadline, id in s.refreshing, how)))
    case _ => s
  }

  // ---------- steps that depend on the environment ----------

  datatype Event =
    | Run
    | DbFail
    | Cancel
    | Spawn(pc: Pc)
    | Tokens(resp: Response, claims: Option<Claims>)
    | Rejected(invalidGrant: bool)
    | Match(id: Id)
    | NoMatch
    | Allot(id: Id)
    | NoName
    | SessionImport(record: Record)
    | SessionCommit
    | SessionRollback

  /** The entry points; a fetched quota arrives as any snapshot to merge. */
  predicate Initial(pc: Pc) {
    match pc
    case Load(_, p) => p.ForRefresh? || p.ForHeaders?
    case ReloadWait(job) => job.JobList?
    case UpdProvider(_, u, via) => via.Direct? && (u.SetAuto? || u.MergeQuota?)
    case DelProvider(_) => true
    case ImpProvider(_) => true
    case SesProvider => true
    case RestProvider(_) => true
    case _ => false
  }

  predicate DbCall(pc: Pc) {
    pc.ReloadList? || pc.SaveDb? || pc.DelDb? || pc.RestDb?
  }

  /** The reply to a database call that failed. */
  function AfterDbFail(s: State, t: Tid): State
    requires t in s.tasks
  {
    match s.tasks[t]
    case ReloadList(JobLoad(id, p)) => Resume(s, t, id, p, None)
    case ReloadList(JobFind(_, ses)) => EndImport(s, t, ses, false)
    case ReloadList(JobAllot(_, ses)) => EndImport(s, t, ses, false)
    case SaveDb(save) => AfterSave(s, t, save, false)
    case _ => Move(s, t, Done(Failed))
  }

  /** Dropping the future drops its guards and its permit. */
  function Cancelled(s: State, t: Tid): State
    requires t in s.tasks
  {
    Move(DropPermit(s, PermitOf(s.tasks[t])), t, Done(Failed))
  }

  predicate NoMatchIn(cache: map<Id, Record>, imported: Record) {
    forall id :: id in cache ==> !SameAccount(imported, cache[id])
  }

  /** One step of task `t` on event `e`. */
  predicate Step(s: State, t: Tid, e: Event, s': State) {
    match e
    case Spawn(pc) => t !in s.tasks && Initial(pc) && s' == Move(s, t, pc)
    case Run => Ready(s, t) && s' == Advance(s, t)
    case DbFail => t in s.tasks && DbCall(s.tasks[t]) && s' == AfterDbFail(s, t)
    case Cancel => t in s.tasks && !s.tasks[t].Done? && !s.tasks[t].RestCache? && s' == Cancelled(s, t)
    case Tokens(resp, claims) =>
      t in s.tasks && s.tasks[t].Exchange?
      && (var pc := s.tasks[t];
          s' == Move(s, t, UpdProvider(pc.id, Token(pc.rec, resp, claims), Refreshing(pc.how))))
    case Rejected(invalidGrant) =>
      t in s.tasks && s.tasks[t].Exchange?
      && (var pc := s.tasks[t];
          s' == if invalidGrant then Move(s, t, UpdProvider(pc.id, InvalidGrant(pc.rec), Refreshing(pc.how)))
                else Cancelled(s, t))
    case Match(id) =>
      t in s.tasks && s.tasks[t].ImpFind?
      && (var pc := s.tasks[t];
          id in s.cache && SameAccount(pc.imported, s.cache[id])
          && s' == Move(s, t, ImpAccount(id, pc.imported, pc.ses, true)))
    case NoMatch =>
      t in s.tasks && s.tasks[t].ImpFind?
      && (var pc := s.tasks[t];
          NoMatchIn(s.cache, pc.imported) && s' == Move(s, t, ReloadWait(JobAllot(pc.imported, pc.ses))))
    case Allot(id) =>
      t in s.tasks && s.tasks[t].ImpAllot?
      && (var pc := s.tasks[t];
          id !in s.cache && s' == Move(s, t, ImpAccount(id, pc.imported, pc.ses, false)))
    // every candidate name is taken
    case NoName => t in s.tasks && s.tasks[t].ImpAllot? && s' == EndImport(s, t, s.tasks[t].ses, false)
    case SessionImport(r) =>
      t in s.tasks && s.tasks[t].SesOpen?
      && s' == Move(s, t, ImpIndex(r, Inside(s.tasks[t].base, s.tasks[t].mark)))
    case SessionCommit => t in s.tasks && s.tasks[t].SesOpen? && s' == Move(s, t, Done(Nothing))
    case SessionRollback =>
      t in s.tasks && s.tasks[t].SesOpen?
      && s' == Move(s, t, RestOrder(All(s.tasks[t].base), Inside(s.tasks[t].base, s.tasks[t].mark)))
  }

  datatype Label = Task(t: Tid, e: Event) | Tick(seconds: nat)

  predicate Next(s: State, l: Label, s': State) {
    match l
    case Task(t, e) => Step(s, t, e, s')
    case Tick(seconds) => s' == s.(now := s.now + seconds)
  }

  predicate Init(s: State) {
    s.db == s.origin && s.shown == s.origin && s.cache == map[] && s.refreshing == {} && s.permit == map[]
    && s.tasks == map[] && s.log == []
  }

  predicate IsRun(states: seq<State>, labels: seq<Label>) {
    |states| == |labels| + 1 && Init(states[0])
    && forall i :: 0 <= i < |labels| ==> Next(states[i], labels[i], states[i + 1])
  }
}
