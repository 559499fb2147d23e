/**
 The history of a run: every step either leaves the sequential store alone or performs exactly one of
 its operations, and the fields, the health and the credential generations of an account follow.
 */
module CodexHistory {
  import opened Prelude
  import opened CodexTypes
  import opened CodexFields
  import opened CodexMachine
  import opened CodexInvariant
  import opened CodexRules
  import opened CodexSteps

  // ---------- refinement: one atomic operation or none ----------

  /** Refinement, step by step: a step completes the operation its task has half done, or none. */
  lemma StepIsAtomic(s: State, t: Tid, e: Event, s': State)
    requires Inv(s) && Step(s, t, e, s')
    ensures s'.origin == s.origin && AtomicStep(s, t, s')
  {
    hide Inv, Step, OwnOk, DataOk, AtomicStep, PcRules, MarkStep, CooldownStep;
    StepGood(s, t, e, s');
  }

  /** Histories only grow. */
  lemma {:induction false} LogGrows(states: seq<State>, labels: seq<Label>, i: nat, j: nat)
    requires IsRun(states, labels) && i <= j < |states|
    ensures states[j].origin == states[i].origin && states[i].log <= states[j].log
  {
    hide Inv, Step, Perform;
    if i < j {
      LogGrows(states, labels, i, j - 1);
      RunKeepsInv(states, labels, j - 1);
      assert Next(states[j - 1], labels[j - 1], states[j - 1 + 1]);
      match labels[j - 1]
      case Task(t, e) => StepIsAtomic(states[j - 1], t, e, states[j]);
      case Tick(_) =>
    }
  }

  /**
   Main refinement: in every reachable state the table is the sequential replay of the completed
   operations (plus the one the gate holder has half done), and the cache never shows anything else.
   */
  lemma TableIsReplay(states: seq<State>, labels: seq<Label>, i: nat)
    requires IsRun(states, labels) && i < |states|
    ensures var s := states[i];
            && SubMap(s.store.cache, Replay(s.origin, s.log))
            && (s.gate.None? ==> s.store.db == Replay(s.origin, s.log))
            && (PendingOf(s).Some? ==> s.store.db == Perform(Replay(s.origin, s.log), PendingOf(s).value))
  {
    hide PcOk, GateOk, PermitOk, SessionOk, Perform;
    RunKeepsInv(states, labels, i);
  }

  // ---------- from the provider's history to one account ----------

  lemma {:induction false} ReplaySplit(origin: map<Id, Record>, log: seq<Item>, k: nat)
    requires k <= |log|
    ensures Replay(origin, log) == Replay(Replay(origin, log[..k]), log[k..])
  {
    if k < |log| {
      var front := log[..|log| - 1];
      ReplaySplit(origin, front, k);
      assert front[..k] == log[..k] && front[k..] == log[k..][..|log[k..]| - 1];
    } else {
      assert log[..k] == log;
    }
  }

  /** The operation as account `id` sees it, when it concerns that account at all. */
  function OpsFor(log: seq<Item>, id: Id): seq<AccountOp> {
    if log == [] then []
    else
      var front := OpsFor(log[..|log| - 1], id);
      match log[|log| - 1].entry
      case Mutated(i, m) => if i == id then front + [Update(m)] else front
      case Imported(i, r) => if i == id then front + [Reimport(r)] else front
      case _ => front
  }

  /** Neither deleted nor restored in this stretch of history. */
  predicate Undisturbed(log: seq<Item>, id: Id) {
    forall i :: 0 <= i < |log| ==>
      match log[i].entry
      case Deleted(d) => d != id
      case Restored(All(_)) => false
      case Restored(One(d, _)) => d != id
      case _ => true
  }

  /** Whatever other accounts do, an account's record is the fold of its own operations. */
  lemma {:induction false} AccountIsFold(origin: map<Id, Record>, log: seq<Item>, id: Id)
    requires id in origin && Undisturbed(log, id)
    ensures id in Replay(origin, log) && Replay(origin, log)[id] == Fold(origin[id], OpsFor(log, id))
  {
    if log != [] {
      var front, last := log[..|log| - 1], log[|log| - 1];
      assert Undisturbed(front, id);
      AccountIsFold(origin, front, id);
      var ops := OpsFor(front, id);
      match last.entry
      case Mutated(i, m) => assert (ops + [Update(m)])[..|ops|] == ops;
      case Imported(i, r) => assert (ops + [Reimport(r)])[..|ops|] == ops;
      case Deleted(_) =>
      case Restored(_) => assert log[|log| - 1].entry.target.One?;
    }
  }

  /** Logged updates carry OAuth credentials wherever they carry any. */
  predicate LogShape(log: seq<Item>) {
    forall i :: 0 <= i < |log| && log[i].entry.Mutated? ==> OauthMutation(log[i].entry.m)
  }

  lemma {:induction false} RunKeepsLogShape(states: seq<State>, labels: seq<Label>, i: nat)
    requires IsRun(states, labels) && i < |states|
    ensures LogShape(states[i].log)
  {
    if i > 0 {
      RunKeepsLogShape(states, labels, i - 1);
      RunKeepsInv(states, labels, i - 1);
      var s := states[i - 1];
      assert Next(s, labels[i - 1], states[i - 1 + 1]);
      match labels[i - 1]
      case Task(t, e) =>
        StepIsAtomic(s, t, e, states[i]);
        if t in s.tasks {
          TaskFacts(s, t);
        }
      case Tick(_) =>
    }
  }

  /** Every import of the account brought OAuth credentials. */
  predicate OauthImports(log: seq<Item>, id: Id) {
    forall i :: 0 <= i < |log| && log[i].entry.Imported? && log[i].entry.id == id
                ==> log[i].entry.record.credential.Oauth?
  }

  lemma {:induction false} OpsForAreOauth(log: seq<Item>, id: Id)
    requires LogShape(log) && OauthImports(log, id)
    ensures OauthOps(OpsFor(log, id))
  {
    if log != [] {
      OpsForAreOauth(log[..|log| - 1], id);
    }
  }

  /**
   Main theorem on settings, quota and credentials.  Take any run and any two moments at which the
   gate is free; if the account is an OAuth account that is neither deleted nor restored in between and
   re-imported only with OAuth credentials, its row at the end is assembled field by field from the
   row at the start: each field from the operations that own it, in gate order.
   */
  lemma AccountRunIsFieldwise(states: seq<State>, labels: seq<Label>, i: nat, j: nat, id: Id)
    requires IsRun(states, labels) && i <= j < |states|
    requires states[i].gate.None? && states[j].gate.None?
    requires id in states[i].store.db && states[i].store.db[id].credential.Oauth?
    requires states[i].log <= states[j].log
    requires var since := states[j].log[|states[i].log|..]; Undisturbed(since, id) && OauthImports(since, id)
    ensures id in states[j].store.db && OauthOps(OpsFor(states[j].log[|states[i].log|..], id))
    ensures states[j].store.db[id]
            == Assemble(states[i].store.db[id], OpsFor(states[j].log[|states[i].log|..], id))
  {
    TableIsReplay(states, labels, i);
    TableIsReplay(states, labels, j);
    LogGrows(states, labels, i, j);
    var log, k := states[j].log, |states[i].log|;
    assert log[..k] == states[i].log;
    ReplaySplit(states[j].origin, log, k);
    RunKeepsLogShape(states, labels, j);
    OpsForAreOauth(log[k..], id);
    AccountIsFold(states[i].store.db, log[k..], id);
    FoldIsFieldwise(states[i].store.db[id], OpsFor(log[k..], id));
  }

  // ---------- Invalid is absorbing ----------

  /** The operation may lift an Invalid mark: a restore, or an import with tokens the account lacks. */
  predicate MayRevive(m: map<Id, Record>, e: Entry, id: Id) {
    match e
    case Restored(All(_)) => true
    case Restored(One(d, _)) => d == id
    case Imported(i, r) => i == id && id in m && NewTokens(m[id], r)
    case Deleted(d) => d == id
    case Mutated(_, _) => false
  }

  /** No update, and no import of the same tokens, revives an Invalid account. */
  lemma OnlyRevivers(m: map<Id, Record>, e: Entry, id: Id)
    requires id in m && m[id].status == Invalid && !MayRevive(m, e, id)
    ensures id in Perform(m, e) && Perform(m, e)[id].status == Invalid
  {
  }

  lemma {:induction false} InvalidStays(origin: map<Id, Record>, log: seq<Item>, id: Id, k: nat)
    requires k <= |log| && id in Replay(origin, log[..k]) && Replay(origin, log[..k])[id].status == Invalid
    requires forall n :: k <= n < |log| ==> !MayRevive(Replay(origin, log[..n]), log[n].entry, id)
    ensures id in Replay(origin, log) && Replay(origin, log)[id].status == Invalid
  {
    if k < |log| {
      var front := log[..|log| - 1];
      assert forall n :: k <= n < |front| ==> front[..n] == log[..n] && front[n] == log[n];
      assert front[..k] == log[..k];
      InvalidStays(origin, front, id, k);
      OnlyRevivers(Replay(origin, front), log[|log| - 1].entry, id);
    } else {
      assert log[..k] == log;
    }
  }

  /**
   Along every run, an account Invalid at one moment and not Invalid at a later one was in between
   imported with new tokens, deleted, or restored; no refresh, quota or settings completion did it.
   */
  lemma InvalidIsAbsorbingOverRuns(states: seq<State>, labels: seq<Label>, i: nat, j: nat, id: Id)
    requires IsRun(states, labels) && i <= j < |states|
    requires states[i].gate.None? && states[j].gate.None?
    requires id in states[i].store.db && states[i].store.db[id].status == Invalid
    requires id in states[j].store.db && states[j].store.db[id].status != Invalid
    ensures exists n :: |states[i].log| <= n < |states[j].log|
              && MayRevive(Replay(states[j].origin, states[j].log[..n]), states[j].log[n].entry, id)
  {
    TableIsReplay(states, labels, i);
    TableIsReplay(states, labels, j);
    LogGrows(states, labels, i, j);
    var log, k := states[j].log, |states[i].log|;
    assert log[..k] == states[i].log;
    if forall n :: k <= n < |log| ==> !MayRevive(Replay(states[j].origin, log[..n]), log[n].entry, id) {
      InvalidStays(states[j].origin, log, id, k);
    }
  }
}
