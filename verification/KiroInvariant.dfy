/** What every step of the Kiro store keeps. */
module KiroInvariant {
  import opened Prelude
  import opened KiroMachine

  ghost predicate Exclusive(s: State) {
    forall t, u :: t in s.tasks && u in s.tasks && HoldsGate(s.tasks[t]) && HoldsGate(s.tasks[u]) ==> t == u
  }

  ghost predicate PermitOk(s: State) {
    && s.permit.Keys == s.refreshing
    && (forall id :: id in s.permit ==> s.permit[id] in s.tasks && PermitOf(s.tasks[s.permit[id]]) == Some(id))
    && (forall t :: t in s.tasks && PermitOf(s.tasks[t]).Some? ==>
          Get(s.permit, PermitOf(s.tasks[t]).value) == Some(t))
  }

  /** The snapshot is the table as it was, and since then only the session itself has written. */
  ghost predicate SessionOk(s: State, t: Tid, ses: Session) {
    ses.Inside? ==>
      ses.mark <= |s.log| && ses.base == Replay(s.origin, s.log[..ses.mark])
      && forall k :: ses.mark <= k < |s.log| ==> s.log[k].actor == t
  }

  predicate SaveOk(s: State, id: Id, next: Record, why: Why) {
    match why
    case BecauseRefresh(sent, result) =>
      id in s.db && s.db[id].cred == sent.cred && next == MergeRefresh(s.db[id], result)
    case BecauseImport(imported, _) => ImportInto(s.db, imported, id) && next == ImportOver(s.db, id, imported)
  }

  /** The operation whose row is written and not yet shown. */
  predicate LastIs(s: State, e: Entry) {
    |s.log| == s.seen + 1 && s.log[s.seen].entry == e
  }

  predicate PcOk(s: State, pc: Pc) {
    match pc
    case Fill(_, rows) => rows == s.db
    case ImpPick(_, _) => s.cache == s.db
    case SaveDb(id, next, why) => SaveOk(s, id, next, why)
    case SaveCache(id, next, why) => s.db == s.shown[id := next] && LastIs(s, EntryOf(id, why))
    case DelCache(id) => s.db == s.shown - {id} && LastIs(s, Deleted(id))
    case RestDb(rows, ses) => ses.Inside? ==> rows == ses.base
    case RestCache(rows, ses) => s.db == rows && LastIs(s, Restored(rows)) && (ses.Inside? ==> rows == ses.base)
    case _ => true
  }

  ghost predicate Unsettled(s: State) {
    exists t :: t in s.tasks && Settling(s.tasks[t])
  }

  ghost predicate DataOk(s: State) {
    && SubMap(s.cache, s.shown)
    && (!Unsettled(s) ==> s.shown == s.db && s.seen == |s.log|)
    && s.db == Replay(s.origin, s.log)
    && s.seen <= |s.log| && s.shown == Replay(s.origin, s.log[..s.seen])
  }

  ghost predicate Inv(s: State) {
    && Exclusive(s) && PermitOk(s) && DataOk(s)
    && forall t :: t in s.tasks ==> PcOk(s, s.tasks[t]) && SessionOk(s, t, SessionOf(s.tasks[t]))
  }

  /** A refresh is committed only onto the credentials it was sent with. */
  predicate Commits(s: State, t: Tid, s': State) {
    s'.log == s.log
    || (|s'.log| == |s.log| + 1 && s'.log[..|s.log|] == s.log && s'.log[|s.log|].actor == t
        && match s'.log[|s.log|].entry
           case Refreshed(id, sent, result) =>
             id in s.db && s.db[id].cred == sent.cred && Get(s.permit, id) == Some(t)
             && t in s.tasks && Committing(s.tasks[t]) == Some((id, sent, result))
           case Deleted(id) => id in s.db
           case Imported(id, r) => ImportInto(s.db, r, id)
           case _ => true)
  }

  /** The refresh a task is about to commit: the account, what was sent, and what came back. */
  function Committing(pc: Pc): Option<(Id, Record, Record)> {
    match pc
    case CommitGate(id, cur, Some(result)) => Some((id, cur, result))
    case Commit(id, cur, Some(result)) => Some((id, cur, result))
    case SaveDb(id, _, BecauseRefresh(sent, result)) => Some((id, sent, result))
    case SaveCache(id, _, BecauseRefresh(sent, result)) => Some((id, sent, result))
    case _ => None
  }

  /** A refresh to commit comes out of an exchange, and stays what it was until it is in. */
  predicate Decides(s: State, t: Tid, pc: Pc) {
    Committing(pc).Some? ==>
      t in s.tasks
      && (Committing(s.tasks[t]) == Committing(pc)
          || s.tasks[t] == Exchange(Committing(pc).value.0, Committing(pc).value.1))
  }

  /** An exchange is for the record the cache shows to the permit holder; a wait keeps its first deadline. */
  predicate Begins(s: State, t: Tid, pc: Pc) {
    && Decides(s, t, pc)
    && (pc.Exchange? ==>
          t in s.tasks && PermitOf(s.tasks[t]) == Some(pc.id) && !Settling(s.tasks[t])
          && Get(s.cache, pc.id) == Some(pc.cur))
    && (pc.Follow? ==>
          t in s.tasks && ((s.tasks[t] == pc && s.now < pc.deadline)
                           || (s.tasks[t].Start? && pc.deadline == s.now + WAIT_LIMIT)))
  }

  ghost predicate Frame(s: State, t: Tid, s': State) {
    && t in s'.tasks && s'.tasks == s.tasks[t := s'.tasks[t]]
    && s'.origin == s.origin && s'.now == s.now && Commits(s, t, s')
    && Begins(s, t, s'.tasks[t]) && (s'.tasks[t].Exchange? ==> s'.log == s.log)
    && (!(t in s.tasks && HoldsGate(s.tasks[t])) ==>
          s'.db == s.db && s'.cache == s.cache && s'.shown == s.shown && s'.log == s.log && s'.seen == s.seen)
    && (HoldsGate(s'.tasks[t]) ==> (t in s.tasks && HoldsGate(s.tasks[t])) || GateFree(s))
    && (forall id :: Get(s'.permit, id) == Get(s.permit, id)
          || (Get(s.permit, id) == Some(t) && id !in s'.permit)
          || (id !in s.permit && Get(s'.permit, id) == Some(t)))
    && s'.permit.Keys == s'.refreshing
  }

  ghost predicate OwnOk(s: State, t: Tid) {
    && t in s.tasks && PcOk(s, s.tasks[t]) && SessionOk(s, t, SessionOf(s.tasks[t]))
    && (PermitOf(s.tasks[t]).Some? ==> Get(s.permit, PermitOf(s.tasks[t]).value) == Some(t))
    && (forall id :: Get(s.permit, id) == Some(t) ==> PermitOf(s.tasks[t]) == Some(id))
  }

  ghost predicate Good(s: State, t: Tid, s': State) {
    Frame(s, t, s') && OwnOk(s', t) && DataOk(s')
  }

  lemma OthersKeepPcOk(s: State, t: Tid, s': State, u: Tid)
    requires Inv(s) && Frame(s, t, s') && u in s.tasks && u != t
    ensures PcOk(s', s.tasks[u]) && SessionOk(s', u, SessionOf(s.tasks[u]))
  {
    hide Replay, PermitOf, MergeRefresh, ImportOver, PermitOk, DataOk, Commits;
    var pc := s.tasks[u];
    assert PcOk(s, pc) && SessionOk(s, u, SessionOf(pc));
    GateInside(pc);
  }

  lemma GateInside(pc: Pc)
    ensures SessionOf(pc).Inside? ==> HoldsGate(pc)
  {
  }

  lemma FrameKeepsInv(s: State, t: Tid, s': State)
    requires Inv(s) && Good(s, t, s')
    ensures Inv(s')
  {
    hide Replay, PermitOf, HoldsGate, PcOk, SessionOk, SessionOf, Commits;
    forall u | u in s'.tasks ensures PcOk(s', s'.tasks[u]) && SessionOk(s', u, SessionOf(s'.tasks[u])) {
      if u != t {
        OthersKeepPcOk(s, t, s', u);
      }
    }
    forall id | id in s'.permit
      ensures s'.permit[id] in s'.tasks && PermitOf(s'.tasks[s'.permit[id]]) == Some(id)
    {
      if s'.permit[id] != t {
        assert Get(s'.permit, id) == Get(s.permit, id);
      } else {
        assert Get(s'.permit, id) == Some(t);
      }
    }
    forall u | u in s'.tasks && PermitOf(s'.tasks[u]).Some?
      ensures Get(s'.permit, PermitOf(s'.tasks[u]).value) == Some(u)
    {
      if u != t {
        assert s'.tasks[u] == s.tasks[u];
      }
    }
  }

  lemma ReplayAppend(origin: map<Id, Record>, log: seq<Item>, item: Item)
    ensures Replay(origin, log + [item]) == Perform(Replay(origin, log), item.entry)
  {
    assert (log + [item])[..|log|] == log;
  }

  // ---------- steps ----------

  lemma HolderSeesTable(s: State, t: Tid)
    requires Inv(s) && t in s.tasks && HoldsGate(s.tasks[t]) && !Settling(s.tasks[t])
    ensures !Unsettled(s) && s.shown == s.db && s.seen == |s.log| && SubMap(s.cache, s.db)
  {
    hide PcOk, Replay, PermitOk, SessionOk, SessionOf;
  }

  lemma QuietKeepsData(s: State, t: Tid, s': State)
    requires DataOk(s)
    requires s'.db == s.db && s'.cache == s.cache && s'.shown == s.shown
    requires s'.origin == s.origin && s'.log == s.log && s'.seen == s.seen
    requires t in s'.tasks && s'.tasks == s.tasks[t := s'.tasks[t]]
    requires t in s.tasks ==> !Settling(s.tasks[t])
    ensures DataOk(s')
  {
    hide Replay, Settling;
    if Unsettled(s) {
      var u :| u in s.tasks && Settling(s.tasks[u]);
      assert Settling(s'.tasks[u]);
    }
  }

  lemma PermitStays(s: State, t: Tid, pc: Pc)
    requires Inv(s) && t in s.tasks && PermitOf(pc) == PermitOf(s.tasks[t])
    ensures PermitOf(pc).Some? ==> Get(s.permit, PermitOf(pc).value) == Some(t)
    ensures forall id :: Get(s.permit, id) == Some(t) ==> PermitOf(pc) == Some(id)
  {
    hide PcOk, DataOk, Exclusive, SessionOk, SessionOf;
  }

  /** Moving on with the same permit and session, perhaps with the gate waited for. */
  lemma MoveIsGood(s: State, t: Tid, pc: Pc)
    requires Inv(s) && t in s.tasks && !Settling(s.tasks[t])
    requires PermitOf(pc) == PermitOf(s.tasks[t]) && PcOk(Move(s, t, pc), pc)
    requires SessionOf(pc) == SessionOf(s.tasks[t]) || SessionOf(pc).Alone?
    requires HoldsGate(pc) ==> HoldsGate(s.tasks[t]) || GateFree(s)
    requires Begins(s, t, pc)
    ensures Good(s, t, Move(s, t, pc))
  {
    hide HoldsGate, PermitOf, Replay, PcOk, SessionOf, Settling;
    PermitStays(s, t, pc);
    assert SessionOk(s, t, SessionOf(s.tasks[t]));
    QuietKeepsData(s, t, Move(s, t, pc));
  }

  /** The end of a task, with its permit dropped. */
  lemma FinishIsGood(s: State, t: Tid, reply: Reply)
    requires Inv(s) && t in s.tasks && !Settling(s.tasks[t])
    ensures Good(s, t, Finish(s, t, PermitOf(s.tasks[t]), reply))
  {
    hide HoldsGate, PermitOf, Replay, Settling, PcOk, SessionOf, SessionOk, Exclusive, PermitOk, DataOk;
    DoneHoldsNothing(s, reply);
    NoSession(Finish(s, t, PermitOf(s.tasks[t]), reply), t);
    var s' := Finish(s, t, PermitOf(s.tasks[t]), reply);
    PcOkOfDone(s', reply);
    PermitsWithout(s, t, s');
    QuietKeepsData(s, t, s');
  }

  lemma NoSession(s: State, t: Tid)
    ensures SessionOk(s, t, Alone)
  {
  }

  lemma PcOkOfDone(s: State, reply: Reply)
    ensures PcOk(s, Done(reply))
  {
  }

  lemma DoneHoldsNothing(s: State, reply: Reply)
    ensures PermitOf(Done(reply)) == None && !HoldsGate(Done(reply)) && SessionOf(Done(reply)).Alone?
  {
  }

  lemma PermitsWithout(s: State, t: Tid, s': State)
    requires PermitOk(s) && t in s.tasks
    requires match PermitOf(s.tasks[t])
             case None => s'.permit == s.permit && s'.refreshing == s.refreshing
             case Some(id) => s'.permit == s.permit - {id} && s'.refreshing == s.refreshing - {id}
    ensures s'.permit.Keys == s'.refreshing
    ensures forall id :: Get(s'.permit, id) != Some(t)
    ensures forall id :: Get(s'.permit, id) == Get(s.permit, id) || (Get(s.permit, id) == Some(t) && id !in s'.permit)
  {
    hide PermitOf;
    forall id | Get(s.permit, id) == Some(t) ensures PermitOf(s.tasks[t]) == Some(id) {
    }
  }

  lemma ResumeIsGood(s: State, t: Tid, id: Id, p: Purpose, got: Option<Record>)
    requires Inv(s) && t in s.tasks && !Settling(s.tasks[t])
    requires PermitOf(s.tasks[t]) == PurposePermit(id, p) && (got.Some? ==> got == Get(s.cache, id))
    ensures Good(s, t, Resume(s, t, id, p, got))
  {
    hide Good, Inv, Settling;
    if got.None? {
      FinishIsGood(s, t, Failed);
    } else {
      match p
      case ForGet(force) => MoveIsGood(s, t, Resume(s, t, id, p, got).tasks[t]);
      case ForPermit(prev) =>
        if prev.cred != got.value.cred {
          FinishIsGood(s, t, Served(id, got.value));
        } else {
          MoveIsGood(s, t, Exchange(id, got.value));
        }
      case ForFollow(prev) => MoveIsGood(s, t, Resume(s, t, id, p, got).tasks[t]);
    }
  }

  lemma LoadIsGood(s: State, t: Tid, id: Id, p: Purpose)
    requires Inv(s) && t in s.tasks && s.tasks[t] == Load(id, p)
    ensures Good(s, t, StepLoad(s, t, id, p))
  {
    hide Good, Inv, Resume;
    if id in s.cache {
      ResumeIsGood(s, t, id, p, Some(s.cache[id]));
    } else {
      MoveIsGood(s, t, LoadGate(id, p));
    }
  }

  lemma SameSession(s: State, t: Tid, s': State, ses: Session)
    requires t in s.tasks && SessionOk(s, t, SessionOf(s.tasks[t])) && s'.log == s.log && s'.origin == s.origin
    requires ses == SessionOf(s.tasks[t]) || ses.Alone?
    ensures SessionOk(s', t, ses)
  {
    hide Replay, SessionOf;
  }

  lemma FillShape(s: State, t: Tid, job: Job, rows: map<Id, Record>, s': State)
    requires t in s.tasks && s.tasks[t] == Fill(job, rows) && PcOk(s, s.tasks[t])
    requires s' == StepFill(s, t, job, rows)
    ensures var pc, pc' := s.tasks[t], s'.tasks[t];
            && HoldsGate(pc) && !Settling(pc) && !Settling(pc') && PermitOf(pc') == PermitOf(pc) && rows == s.db
            && Begins(s, t, pc') && PcOk(s', pc')
            && (SessionOf(pc') == SessionOf(pc) || pc' == SesOpen(rows, |s.log|))
  {
    hide Replay;
  }

  lemma SessionOpens(s: State, t: Tid, s': State)
    requires DataOk(s) && s'.log == s.log && s'.origin == s.origin
    ensures SessionOk(s', t, SessionOf(SesOpen(s.db, |s.log|)))
  {
    hide Replay;
    assert s.log[..|s.log|] == s.log;
  }

  lemma FillIsGood(s: State, t: Tid, job: Job, rows: map<Id, Record>)
    requires Inv(s) && t in s.tasks && s.tasks[t] == Fill(job, rows)
    ensures Good(s, t, StepFill(s, t, job, rows))
  {
    hide Replay, Exclusive, PcOk, SessionOk, SessionOf, PermitOf, HoldsGate, Settling;
    assert PcOk(s, s.tasks[t]) && SessionOk(s, t, SessionOf(s.tasks[t]));
    var s' := StepFill(s, t, job, rows);
    FillShape(s, t, job, rows, s');
    HolderSeesTable(s, t);
    PermitStays(s, t, s'.tasks[t]);
    SessionOpens(s, t, s');
    SameSession(s, t, s', SessionOf(s.tasks[t]));
    assert !Unsettled(s');
  }

  lemma StartIsGood(s: State, t: Tid, id: Id, prev: Record)
    requires Inv(s) && t in s.tasks && s.tasks[t] == Start(id, prev)
    ensures Good(s, t, StepStart(s, t, id, prev))
  {
    hide Replay, Exclusive, Good, PcOk;
    if id in s.refreshing {
      FollowIsGood(s, t, id, prev);
    } else {
      TakePermitIsGood(s, t, id, Load(id, ForPermit(prev)), StepStart(s, t, id, prev));
    }
  }

  lemma FollowIsGood(s: State, t: Tid, id: Id, prev: Record)
    requires Inv(s) && t in s.tasks && s.tasks[t] == Start(id, prev)
    ensures Good(s, t, Move(s, t, Follow(id, prev, s.now + WAIT_LIMIT)))
  {
    hide Good, Inv;
    MoveIsGood(s, t, Follow(id, prev, s.now + WAIT_LIMIT));
  }

  lemma TakePermitIsGood(s: State, t: Tid, id: Id, pc: Pc, s': State)
    requires Inv(s) && t in s.tasks && !Settling(s.tasks[t]) && id !in s.refreshing
    requires pc.Load? && PermitOf(pc) == Some(id) && PermitOf(s.tasks[t]) == None
    requires s' == Move(s.(refreshing := s.refreshing + {id}, permit := s.permit[id := t]), t, pc)
    ensures Good(s, t, s')
  {
    hide Replay, Exclusive, PermitOf, Settling;
    PermitStays(s, t, s.tasks[t]);
    QuietKeepsData(s, t, s');
  }

  lemma CommitIsGood(s: State, t: Tid, id: Id, cur: Record, result: Option<Record>)
    requires Inv(s) && t in s.tasks && s.tasks[t] == Pc.Commit(id, cur, result)
    ensures Good(s, t, StepCommit(s, t, id, cur, result))
  {
    hide Replay, Good, Exclusive, PermitOk, SessionOk, MergeRefresh;
    HolderSeesTable(s, t);
    if id !in s.cache {
      FinishIsGood(s, t, Failed);
    } else if cur.cred != s.cache[id].cred {
      FinishIsGood(s, t, Served(id, s.cache[id]));
    } else if result.None? {
      FinishIsGood(s, t, Failed);
    } else {
      MoveIsGood(s, t, SaveDb(id, MergeRefresh(s.cache[id], result.value), BecauseRefresh(cur, result.value)));
    }
  }

  lemma SaveCommits(s: State, t: Tid, id: Id, next: Record, why: Why)
    requires Inv(s) && t in s.tasks && s.tasks[t] == SaveDb(id, next, why)
    ensures Commits(s, t, StepSaveDb(s, t, id, next, why))
    ensures s.db[id := next] == Perform(s.db, EntryOf(id, why))
  {
    hide Replay, Exclusive, MergeRefresh, MergeImport, DataOk, SessionOk, SessionOf;
    assert PcOk(s, s.tasks[t]) && PermitOk(s);
  }

  lemma SaveShape(id: Id, next: Record, why: Why)
    ensures var pc, pc' := SaveDb(id, next, why), SaveCache(id, next, why);
            && HoldsGate(pc) && !Settling(pc) && Settling(pc') && PermitOf(pc') == PermitOf(pc)
            && SessionOf(pc') == SessionOf(pc) && Committing(pc') == Committing(pc)
  {
  }

  lemma SaveDbIsGood(s: State, t: Tid, id: Id, next: Record, why: Why)
    requires Inv(s) && t in s.tasks && s.tasks[t] == SaveDb(id, next, why)
    ensures Good(s, t, StepSaveDb(s, t, id, next, why))
  {
    hide Replay, Exclusive, SaveOk, Perform, Commits, SessionOk, SessionOf, PermitOf, HoldsGate, Settling, EntryOf;
    SaveShape(id, next, why);
    HolderSeesTable(s, t);
    SaveCommits(s, t, id, next, why);
    PermitStays(s, t, SaveCache(id, next, why));
    var s' := StepSaveDb(s, t, id, next, why);
    var item := Item(t, EntryOf(id, why));
    ReplayAppend(s.origin, s.log, item);
    assert SessionOk(s, t, SessionOf(s.tasks[t])) && PermitOk(s);
    SessionGrows(s, t, s', item, SessionOf(s.tasks[t]));
  }

  lemma SessionGrows(s: State, t: Tid, s': State, item: Item, ses: Session)
    requires SessionOk(s, t, ses) && s'.origin == s.origin && s'.log == s.log + [item] && item.actor == t
    ensures SessionOk(s', t, ses)
  {
    if ses.Inside? {
      assert s'.log[..ses.mark] == s.log[..ses.mark];
    }
  }

  /** The cache catches up with the table. */
  lemma SettleIsGood(s: State, t: Tid, s': State)
    requires Inv(s) && t in s.tasks && Settling(s.tasks[t])
    requires t in s'.tasks && s'.tasks == s.tasks[t := s'.tasks[t]] && !Settling(s'.tasks[t])
    requires Begins(s, t, s'.tasks[t])
    requires s'.db == s.db && s'.shown == s.db && s'.seen == |s.log| && s'.log == s.log
    requires s'.origin == s.origin && s'.now == s.now
    requires SubMap(s'.cache, s'.db) && PcOk(s', s'.tasks[t]) && SessionOk(s', t, SessionOf(s'.tasks[t]))
    requires PermitOf(s'.tasks[t]).None?
    requires match PermitOf(s.tasks[t])
             case None => s'.permit == s.permit && s'.refreshing == s.refreshing
             case Some(id) => s'.permit == s.permit - {id} && s'.refreshing == s.refreshing - {id}
    ensures Good(s, t, s')
  {
    hide Replay, PermitOf, PcOk, SessionOk, SessionOf;
    PermitsWithout(s, t, s');
    assert !Unsettled(s') by {
      hide HoldsGate;
      assert forall u :: u in s'.tasks && u != t ==> s'.tasks[u] == s.tasks[u];
      forall u | u in s.tasks && u != t ensures !Settling(s.tasks[u]) {
        SettlingHoldsGate(s.tasks[u]);
        SettlingHoldsGate(s.tasks[t]);
      }
    }
    SettlingHoldsGate(s.tasks[t]);
    assert s.log[..|s.log|] == s.log;
  }

  lemma SettlingHoldsGate(pc: Pc)
    ensures Settling(pc) ==> HoldsGate(pc)
  {
  }

  lemma RefreshSettles(s: State, t: Tid, id: Id, next: Record, sent: Record, result: Record)
    requires Inv(s) && t in s.tasks && s.tasks[t] == SaveCache(id, next, BecauseRefresh(sent, result))
    ensures Good(s, t, StepSaveCache(s, t, id, next, BecauseRefresh(sent, result)))
  {
    hide Replay, Good, Exclusive, PermitOk, HoldsGate, EntryOf, LastIs, IsExpired, Unsettled, EndImport;
    assert PcOk(s, s.tasks[t]);
    SettleIsGood(s, t, StepSaveCache(s, t, id, next, BecauseRefresh(sent, result)));
  }

  lemma ImportSettles(s: State, t: Tid, id: Id, next: Record, imported: Record, ses: Session)
    requires Inv(s) && t in s.tasks && s.tasks[t] == SaveCache(id, next, BecauseImport(imported, ses))
    ensures Good(s, t, StepSaveCache(s, t, id, next, BecauseImport(imported, ses)))
  {
    hide Replay, Good, Exclusive, PermitOk, HoldsGate, EntryOf, LastIs, IsExpired, SessionOk, Unsettled, Finish;
    assert PcOk(s, s.tasks[t]) && SessionOk(s, t, SessionOf(s.tasks[t]));
    var s' := StepSaveCache(s, t, id, next, BecauseImport(imported, ses));
    SameSession(s, t, s', SessionOf(s'.tasks[t]));
    SettleIsGood(s, t, s');
  }

  lemma DelCacheIsGood(s: State, t: Tid, id: Id)
    requires Inv(s) && t in s.tasks && s.tasks[t] == DelCache(id)
    ensures Good(s, t, Move(s.(cache := s.cache - {id}, shown := s.db, seen := |s.log|), t, Done(Nothing)))
  {
    hide Replay, Good, Exclusive, PermitOk, HoldsGate;
    assert PcOk(s, s.tasks[t]);
    SettleIsGood(s, t, Move(s.(cache := s.cache - {id}, shown := s.db, seen := |s.log|), t, Done(Nothing)));
  }

  lemma RestCacheIsGood(s: State, t: Tid, rows: map<Id, Record>, ses: Session)
    requires Inv(s) && t in s.tasks && s.tasks[t] == RestCache(rows, ses)
    ensures Good(s, t, Move(s.(cache := rows, shown := s.db, seen := |s.log|), t, Done(Nothing)))
  {
    hide Replay, Good, Exclusive, PermitOk, HoldsGate;
    assert PcOk(s, s.tasks[t]);
    SettleIsGood(s, t, Move(s.(cache := rows, shown := s.db, seen := |s.log|), t, Done(Nothing)));
  }

  lemma DelDbIsGood(s: State, t: Tid, id: Id)
    requires Inv(s) && t in s.tasks && s.tasks[t] == DelDb(id) && id in s.db
    ensures Good(s, t, StepDelDb(s, t, id))
  {
    hide Replay, Exclusive;
    HolderSeesTable(s, t);
    var s' := StepDelDb(s, t, id);
    PermitStays(s, t, s'.tasks[t]);
    ReplayAppend(s.origin, s.log, Item(t, Deleted(id)));
    assert Settling(s'.tasks[t]);
  }

  lemma DelMissingIsGood(s: State, t: Tid, id: Id)
    requires Inv(s) && t in s.tasks && s.tasks[t] == DelDb(id) && id !in s.db
    ensures Good(s, t, StepDelDb(s, t, id))
  {
    hide Good, Inv;
    MoveIsGood(s, t, Done(Failed));
  }

  lemma RestoreShape(rows: map<Id, Record>, ses: Session)
    ensures var pc, pc' := RestDb(rows, ses), RestCache(rows, ses);
            && HoldsGate(pc) && HoldsGate(pc') && !Settling(pc) && Settling(pc')
            && PermitOf(pc).None? && PermitOf(pc').None? && SessionOf(pc) == ses && SessionOf(pc') == ses
  {
  }

  lemma RestDbIsGood(s: State, t: Tid, rows: map<Id, Record>, ses: Session)
    requires Inv(s) && t in s.tasks && s.tasks[t] == RestDb(rows, ses)
    ensures Good(s, t, Move(s.(db := rows, log := s.log + [Item(t, Restored(rows))]), t, RestCache(rows, ses)))
  {
    hide Replay, Exclusive, SessionOk, SessionOf, PermitOf, HoldsGate, Settling;
    RestoreShape(rows, ses);
    HolderSeesTable(s, t);
    assert PcOk(s, s.tasks[t]) && SessionOk(s, t, SessionOf(s.tasks[t])) && PermitOk(s);
    PermitStays(s, t, RestCache(rows, ses));
    var s' := Move(s.(db := rows, log := s.log + [Item(t, Restored(rows))]), t, RestCache(rows, ses));
    ReplayAppend(s.origin, s.log, Item(t, Restored(rows)));
    assert Settling(s'.tasks[t]);
    SessionGrows(s, t, s', Item(t, Restored(rows)), ses);
  }

  lemma MovesAreGood(s: State, t: Tid)
    requires Inv(s) && Ready(s, t)
    requires var pc := s.tasks[t];
             pc.LoadGate? || pc.List? || pc.CommitGate? || pc.DelGate? || pc.ImpGate? || pc.SesGate? || pc.RestGate?
    ensures Good(s, t, Advance(s, t))
  {
    hide Replay, Good, Inv, GateFree;
    match s.tasks[t]
    case LoadGate(id, p) => MoveIsGood(s, t, List(JobLoad(id, p)));
    case List(job) => MoveIsGood(s, t, Fill(job, s.db));
    case CommitGate(id, cur, result) => MoveIsGood(s, t, Pc.Commit(id, cur, result));
    case DelGate(id) => MoveIsGood(s, t, DelDb(id));
    case ImpGate(r) => MoveIsGood(s, t, List(JobImport(r, Alone)));
    case SesGate => MoveIsGood(s, t, List(JobSnapshot));
    case RestGate(rows) => MoveIsGood(s, t, RestDb(rows, Alone));
    case _ =>
  }

  lemma WaitIsGood(s: State, t: Tid, id: Id, prev: Record, deadline: int)
    requires Inv(s) && t in s.tasks && s.tasks[t] == Follow(id, prev, deadline)
    ensures Good(s, t, StepFollow(s, t, id, prev, deadline))
  {
    hide Good, Inv;
    if id !in s.refreshing {
      MoveIsGood(s, t, Load(id, ForFollow(prev)));
    } else if s.now >= deadline {
      MoveIsGood(s, t, Done(Failed));
    } else {
      MoveIsGood(s, t, s.tasks[t]);
      assert Move(s, t, s.tasks[t]) == s;
    }
  }

  lemma RunIsGood(s: State, t: Tid)
    requires Inv(s) && Ready(s, t)
    ensures Good(s, t, Advance(s, t))
  {
    hide Replay, Good, Inv, Resume, StepLoad, StepFill, StepStart, StepFollow, StepCommit, StepSaveDb, StepSaveCache,
      StepDelDb;
    match s.tasks[t]
    case Load(id, p) => LoadIsGood(s, t, id, p);
    case LoadAgain(id, p) => ResumeIsGood(s, t, id, p, Get(s.cache, id));
    case Fill(job, rows) => FillIsGood(s, t, job, rows);
    case Start(id, prev) => StartIsGood(s, t, id, prev);
    case Follow(id, prev, deadline) => WaitIsGood(s, t, id, prev, deadline);
    case Commit(id, cur, result) => CommitIsGood(s, t, id, cur, result);
    case SaveDb(id, next, why) => SaveDbIsGood(s, t, id, next, why);
    case DelDb(id) =>
      if id in s.db {
        DelDbIsGood(s, t, id);
      } else {
        DelMissingIsGood(s, t, id);
      }
    case RestDb(rows, ses) => RestDbIsGood(s, t, rows, ses);
    case SaveCache(id, next, BecauseRefresh(sent, result)) => RefreshSettles(s, t, id, next, sent, result);
    case SaveCache(id, next, BecauseImport(imported, ses)) => ImportSettles(s, t, id, next, imported, ses);
    case DelCache(id) => DelCacheIsGood(s, t, id);
    case RestCache(rows, ses) => RestCacheIsGood(s, t, rows, ses);
    case _ => MovesAreGood(s, t);
  }

  /** A failed import ends, or leaves its session open. */
  lemma ImportFails(s: State, t: Tid, ses: Session)
    requires Inv(s) && t in s.tasks && !Settling(s.tasks[t]) && PermitOf(s.tasks[t]).None?
    requires SessionOf(s.tasks[t]) == ses && HoldsGate(s.tasks[t])
    ensures Good(s, t, EndImport(s, t, ses, false))
  {
    hide Replay, Good, Inv, GateFree;
    match ses
    case Alone => MoveIsGood(s, t, Done(Failed));
    case Inside(base, mark) => MoveIsGood(s, t, SesOpen(base, mark));
  }

  lemma DbFailIsGood(s: State, t: Tid)
    requires Inv(s) && t in s.tasks && DbCall(s.tasks[t])
    ensures Good(s, t, AfterDbFail(s, t))
  {
    hide Replay, Good, Inv, Resume, EndImport;
    match s.tasks[t]
    case List(JobLoad(id, p)) => ResumeIsGood(s, t, id, p, None);
    case List(JobImport(_, ses)) => ImportFails(s, t, ses);
    case SaveDb(id, _, BecauseRefresh(_, _)) => FinishIsGood(s, t, Failed);
    case SaveDb(_, _, BecauseImport(_, ses)) => ImportFails(s, t, ses);
    case _ => FinishIsGood(s, t, Failed);
  }

  lemma PickIsGood(s: State, t: Tid, id: Id)
    requires Inv(s) && t in s.tasks && s.tasks[t].ImpPick? && ImportInto(s.cache, s.tasks[t].imported, id)
    ensures var pc := s.tasks[t];
            Good(s, t, Move(s, t, SaveDb(id, ImportOver(s.cache, id, pc.imported), BecauseImport(pc.imported, pc.ses))))
  {
    hide Replay, Good, Exclusive, PermitOk, DataOk, SessionOk, MergeImport;
    var pc := s.tasks[t];
    assert PcOk(s, pc);
    MoveIsGood(s, t, SaveDb(id, ImportOver(s.cache, id, pc.imported), BecauseImport(pc.imported, pc.ses)));
  }

  lemma InitialShape(s: State, t: Tid, pc: Pc)
    requires Initial(pc)
    ensures PermitOf(pc).None? && !HoldsGate(pc) && SessionOf(pc).Alone? && !Settling(pc) && PcOk(s, pc)
    ensures Begins(s, t, pc)
  {
  }

  lemma SpawnIsGood(s: State, t: Tid, pc: Pc)
    requires Inv(s) && t !in s.tasks && Initial(pc)
    ensures Good(s, t, Move(s, t, pc))
  {
    hide Replay, Exclusive, PermitOf, HoldsGate, SessionOf, Settling, PcOk, DataOk, Initial, Begins;
    InitialShape(s, t, pc);
    InitialShape(Move(s, t, pc), t, pc);
    assert PermitOk(s);
    assert forall id :: Get(s.permit, id) != Some(t);
    QuietKeepsData(s, t, Move(s, t, pc));
  }

  lemma StepIsGood(s: State, t: Tid, e: Event, s': State)
    requires Inv(s) && Step(s, t, e, s')
    ensures Good(s, t, s')
  {
    hide Replay, Good, Inv, Advance, AfterDbFail, GateFree;
    match e
    case Run => RunIsGood(s, t);
    case DbFail => DbFailIsGood(s, t);
    case Cancel => FinishIsGood(s, t, Failed);
    case Spawn(pc) => SpawnIsGood(s, t, pc);
    case Answer(result) => MoveIsGood(s, t, CommitGate(s.tasks[t].id, s.tasks[t].cur, result));
    case Pick(id) => PickIsGood(s, t, id);
    case SessionImport(r) =>
      MoveIsGood(s, t, List(JobImport(r, Inside(s.tasks[t].base, s.tasks[t].mark))));
    case SessionCommit => MoveIsGood(s, t, Done(Nothing));
    case SessionRollback =>
      MoveIsGood(s, t, RestDb(s.tasks[t].base, Inside(s.tasks[t].base, s.tasks[t].mark)));
  }

  lemma TickKeepsInv(s: State, seconds: nat)
    requires Inv(s)
    ensures Inv(s.(now := s.now + seconds))
  {
    hide Replay, PermitOf, HoldsGate, SessionOf, Settling, ImportOver, MergeRefresh;
    var s' := s.(now := s.now + seconds);
    forall t | t in s'.tasks ensures PcOk(s', s'.tasks[t]) {
      assert PcOk(s, s.tasks[t]);
    }
    forall t | t in s'.tasks ensures SessionOk(s', t, SessionOf(s'.tasks[t])) {
      assert SessionOk(s, t, SessionOf(s.tasks[t]));
    }
    assert !Unsettled(s') ==> !Unsettled(s) by {
      if Unsettled(s) {
        var t :| t in s.tasks && Settling(s.tasks[t]);
        assert t in s'.tasks && Settling(s'.tasks[t]);
      }
    }
  }

  /** Every reachable state satisfies the invariant. */
  lemma {:induction false} RunKeepsInv(states: seq<State>, labels: seq<Label>, i: nat)
    requires IsRun(states, labels) && i < |states|
    ensures Inv(states[i])
  {
    hide Step, PcOk, PermitOf, SessionOk, HoldsGate, Good;
    if i == 0 {
      assert states[0].log == [];
    } else {
      RunKeepsInv(states, labels, i - 1);
      var s, l, s' := states[i - 1], labels[i - 1], states[i];
      assert Next(s, l, states[i - 1 + 1]);
      match l
      case Task(t, e) =>
        StepIsGood(s, t, e, s');
        FrameKeepsInv(s, t, s');
      case Tick(seconds) => TickKeepsInv(s, seconds);
    }
  }
}
