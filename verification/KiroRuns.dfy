/** What holds over every run of the Kiro store. */
module KiroRuns {
  import opened CompareAndSwap
  import opened Prelude
  import opened Since
  import opened KiroMachine
  import opened KiroInvariant

  lemma StepOfRun(states: seq<State>, labels: seq<Label>, i: nat)
    requires IsRun(states, labels) && i < |labels|
    ensures Inv(states[i]) && Inv(states[i + 1]) && Next(states[i], labels[i], states[i + 1])
    ensures labels[i].Task? ==> Good(states[i], labels[i].t, states[i + 1])
    ensures labels[i].Tick? ==> states[i + 1] == states[i].(now := states[i + 1].now)
  {
    hide Step, Inv, Good;
    RunKeepsInv(states, labels, i);
    RunKeepsInv(states, labels, i + 1);
    if labels[i].Task? {
      StepIsGood(states[i], labels[i].t, labels[i].e, states[i + 1]);
    }
  }

  // ---------- the history ----------

  function RowAt(origin: map<Id, Record>, log: seq<Item>, k: nat, id: Id): Option<Record>
    requires k <= |log|
  {
    Get(Replay(origin, log[..k]), id)
  }

  function CredAt(origin: map<Id, Record>, log: seq<Item>, k: nat, id: Id): Option<Credentials>
    requires k <= |log|
  {
    if RowAt(origin, log, k, id).Some? then Some(RowAt(origin, log, k, id).value.cred) else None
  }

  predicate EffectiveAt(origin: map<Id, Record>, log: seq<Item>, k: nat)
    requires k < |log|
  {
    var e := log[k].entry;
    (e.Refreshed? ==> CredAt(origin, log, k, e.id) == Some(e.sent.cred))
    && (e.Deleted? ==> CredAt(origin, log, k, e.id).Some?)
    && (e.Imported? ==> ImportInto(Replay(origin, log[..k]), e.record, e.id))
  }

  ghost predicate AllEffective(origin: map<Id, Record>, log: seq<Item>) {
    forall k :: 0 <= k < |log| ==> EffectiveAt(origin, log, k)
  }

  lemma EffectiveGrows(s: State, t: Tid, s': State)
    requires Inv(s) && AllEffective(s.origin, s.log) && s'.origin == s.origin && Commits(s, t, s')
    ensures AllEffective(s'.origin, s'.log)
  {
    hide PcOk, PermitOk, Exclusive, SessionOk;
    forall k | 0 <= k < |s'.log| ensures EffectiveAt(s'.origin, s'.log, k) {
      if k < |s.log| {
        assert s'.log[..k] == s.log[..k];
        assert EffectiveAt(s.origin, s.log, k);
      } else {
        assert s'.log[..k] == s.log;
      }
    }
  }

  lemma {:induction false} LoggedAreEffective(states: seq<State>, labels: seq<Label>, i: nat)
    requires IsRun(states, labels) && i < |states|
    ensures AllEffective(states[i].origin, states[i].log)
  {
    hide Next, Inv, EffectiveAt, OwnOk, DataOk, Commits;
    if i > 0 {
      LoggedAreEffective(states, labels, i - 1);
      StepOfRun(states, labels, i - 1);
      if labels[i - 1].Task? {
        EffectiveGrows(states[i - 1], labels[i - 1].t, states[i]);
      }
    }
  }

  /** A committed refresh replaced exactly the credentials it was exchanged for, and kept the quota. */
  lemma RefreshLandsOnItsCredentials(states: seq<State>, labels: seq<Label>, i: nat, k: nat)
    requires IsRun(states, labels) && i < |states| && k < |states[i].log| && states[i].log[k].entry.Refreshed?
    ensures var s := states[i]; var e := s.log[k].entry;
            && CredAt(s.origin, s.log, k, e.id) == Some(e.sent.cred)
            && CredAt(s.origin, s.log, k + 1, e.id) == Some(e.result.cred)
            && RowAt(s.origin, s.log, k + 1, e.id).value.quota == RowAt(s.origin, s.log, k, e.id).value.quota
  {
    hide IsRun;
    LoggedAreEffective(states, labels, i);
    var s := states[i];
    assert EffectiveAt(s.origin, s.log, k);
    assert s.log[..k + 1][..k] == s.log[..k];
  }

  predicate RefreshOf(item: Item, id: Id) {
    item.entry.Refreshed? && item.entry.id == id
  }

  /** The history as the credentials of `id` see it. */
  function TraceOf(origin: map<Id, Record>, log: seq<Item>, id: Id): (trace: seq<Change<Credentials>>)
    ensures |trace| == |log|
  {
    seq(|log|, k requires 0 <= k < |log| =>
      Change(CredAt(origin, log, k, id), CredAt(origin, log, k + 1, id), RefreshOf(log[k], id)))
  }

  /** No response and no other operation installs credentials the account had before. */
  predicate FreshFor(origin: map<Id, Record>, log: seq<Item>, id: Id) {
    Fresh(TraceOf(origin, log, id))
  }

  lemma TracePrefix(origin: map<Id, Record>, log: seq<Item>, n: nat, id: Id)
    requires n <= |log|
    ensures TraceOf(origin, log[..n], id) == TraceOf(origin, log, id)[..n]
  {
    hide Replay;
    assert forall k :: 0 <= k <= n ==> log[..n][..k] == log[..k];
  }

  /** With fresh responses one set of credentials is spent on at most one committed refresh. */
  lemma AtMostOneCommitPerCredentials(states: seq<State>, labels: seq<Label>, i: nat, j: nat, k: nat, id: Id)
    requires IsRun(states, labels) && i < |states| && j < k < |states[i].log|
    requires FreshFor(states[i].origin, states[i].log, id)
    requires RefreshOf(states[i].log[j], id) && RefreshOf(states[i].log[k], id)
    ensures states[i].log[j].entry.sent.cred != states[i].log[k].entry.sent.cred
  {
    hide IsRun, CredAt, Replay, RowAt, Fresh;
    RefreshLandsOnItsCredentials(states, labels, i, j);
    RefreshLandsOnItsCredentials(states, labels, i, k);
    SpentOnce(TraceOf(states[i].origin, states[i].log, id), j, k);
  }

  // ---------- no resurrection ----------

  predicate MayCreate(e: Entry, id: Id) {
    (e.Imported? && e.id == id) || (e.Restored? && id in e.rows)
  }

  lemma {:induction false} StaysAbsent(origin: map<Id, Record>, log: seq<Item>, id: Id, j: nat, k: nat)
    requires j <= k <= |log| && RowAt(origin, log, j, id).None?
    requires forall x :: j <= x < k ==> !MayCreate(log[x].entry, id)
    ensures RowAt(origin, log, k, id).None?
  {
    if j < k {
      StaysAbsent(origin, log, id, j, k - 1);
      assert log[..k][..k - 1] == log[..k - 1];
    }
  }

  lemma {:induction false} LogGrows(states: seq<State>, labels: seq<Label>, i: nat, j: nat)
    requires IsRun(states, labels) && i <= j < |states|
    ensures states[j].origin == states[i].origin && |states[i].log| <= |states[j].log|
    ensures states[j].log[..|states[i].log|] == states[i].log
  {
    hide Next, Inv, OwnOk, DataOk;
    if i < j {
      LogGrows(states, labels, i, j - 1);
      StepOfRun(states, labels, j - 1);
      assert states[j].log[..|states[i].log|] == states[j - 1].log[..|states[i].log|];
    }
  }

  /** A refresh that completes after a delete does not bring the account back. */
  lemma NoResurrection(states: seq<State>, labels: seq<Label>, i: nat, j: nat, id: Id)
    requires IsRun(states, labels) && i <= j < |states| && id !in states[i].db
    requires forall x :: |states[i].log| <= x < |states[j].log| ==> !MayCreate(states[j].log[x].entry, id)
    ensures id !in states[j].db
  {
    hide Next, MayCreate, PcOk, PermitOk, Exclusive, SessionOk;
    LogGrows(states, labels, i, j);
    RunKeepsInv(states, labels, i);
    RunKeepsInv(states, labels, j);
    var log := states[j].log;
    assert log[..|log|] == log;
    StaysAbsent(states[j].origin, log, id, |states[i].log|, |log|);
  }

  // ---------- what is sent is current ----------

  /** No committed refresh replaced the credentials of `cur`. */
  predicate NotReplaced(log: seq<Item>, id: Id, cur: Record) {
    forall k :: 0 <= k < |log| && RefreshOf(log[k], id) ==> log[k].entry.sent.cred != cur.cred
  }

  /** A refresh that is not shown yet is the work of a task that still holds its permit. */
  lemma UnseenIsNoRefresh(s: State, t: Tid, id: Id)
    requires Inv(s) && t in s.tasks && PermitOf(s.tasks[t]) == Some(id) && !Settling(s.tasks[t])
    ensures |s.log| <= s.seen + 1
    ensures |s.log| == s.seen + 1 ==> !RefreshOf(s.log[s.seen], id)
  {
    hide Replay, SessionOk, Exclusive, PcOk, Settling, PermitOf;
    if Unsettled(s) {
      var u :| u in s.tasks && Settling(s.tasks[u]);
      SettlingShape(s, u, id);
      assert Get(s.permit, id) == Some(t);
    }
  }

  lemma SettlingShape(s: State, u: Tid, id: Id)
    requires u in s.tasks && Settling(s.tasks[u]) && PcOk(s, s.tasks[u])
    ensures |s.log| == s.seen + 1
    ensures RefreshOf(s.log[s.seen], id) ==> PermitOf(s.tasks[u]) == Some(id)
  {
    hide Replay;
  }

  lemma RefreshSwaps(origin: map<Id, Record>, log: seq<Item>, k: nat, id: Id)
    requires k < |log| && EffectiveAt(origin, log, k) && RefreshOf(log[k], id)
    ensures var c := TraceOf(origin, log, id)[k]; Swaps(c) && c.before == Some(log[k].entry.sent.cred)
  {
    assert log[..k + 1][..k] == log[..k];
  }

  /** The credentials in place after `n` operations were not replaced by any of them. */
  lemma CredIsNotReplaced(origin: map<Id, Record>, log: seq<Item>, n: nat, id: Id, cred: Credentials)
    requires AllEffective(origin, log) && FreshFor(origin, log, id) && n <= |log|
    requires CredAt(origin, log, n, id) == Some(cred)
    ensures forall k :: 0 <= k < n && RefreshOf(log[k], id) ==> log[k].entry.sent.cred != cred
  {
    hide CredAt, EffectiveAt, Fresh;
    var trace := TraceOf(origin, log, id);
    FreshPrefix(trace, n);
    forall k | 0 <= k < n && RefreshOf(log[k], id) ensures log[k].entry.sent.cred != cred {
      assert EffectiveAt(origin, log, k);
      RefreshSwaps(origin, log, k, id);
      CurrentIsUnspent(trace[..n], k);
      assert trace[n - 1].after == CredAt(origin, log, n, id);
    }
  }

  /** What the cache shows of an account was not replaced, as long as its permit is ours. */
  lemma ShownIsNotReplaced(s: State, t: Tid, id: Id)
    requires Inv(s) && AllEffective(s.origin, s.log) && FreshFor(s.origin, s.log, id)
    requires t in s.tasks && PermitOf(s.tasks[t]) == Some(id) && !Settling(s.tasks[t]) && id in s.cache
    ensures NotReplaced(s.log, id, s.cache[id])
  {
    hide Replay, SessionOk, Exclusive, PcOk, PermitOk, PermitOf, Settling, AllEffective, FreshFor;
    UnseenIsNoRefresh(s, t, id);
    CredIsNotReplaced(s.origin, s.log, s.seen, id, s.cache[id].cred);
  }

  /** Every exchange in flight was sent for credentials no earlier refresh replaced. */
  ghost predicate SendsCurrent(s: State) {
    forall t :: t in s.tasks && s.tasks[t].Exchange? && FreshFor(s.origin, s.log, s.tasks[t].id)
                ==> NotReplaced(s.log, s.tasks[t].id, s.tasks[t].cur)
  }

  /** Nobody else commits a refresh of the account whose exchange is in flight. */
  lemma OthersKeepCurrent(s: State, t: Tid, s': State, u: Tid)
    requires Inv(s) && s'.origin == s.origin && Commits(s, t, s') && AllEffective(s.origin, s.log) && SendsCurrent(s)
    requires u in s.tasks && u != t && s.tasks[u].Exchange? && FreshFor(s'.origin, s'.log, s.tasks[u].id)
    ensures NotReplaced(s'.log, s.tasks[u].id, s.tasks[u].cur)
  {
    hide Replay, PcOk, SessionOk, Exclusive, DataOk, EffectiveAt, CredAt, TraceOf, Fresh;
    var id := s.tasks[u].id;
    TracePrefix(s'.origin, s'.log, |s.log|, id);
    FreshPrefix(TraceOf(s'.origin, s'.log, id), |s.log|);
    assert s'.log[..|s.log|] == s.log;
    assert PermitOf(s.tasks[u]) == Some(id);
    assert Get(s.permit, id) == Some(u);
  }

  lemma SendsCurrentStep(s: State, t: Tid, s': State)
    requires Inv(s) && Good(s, t, s') && AllEffective(s.origin, s.log) && SendsCurrent(s)
    ensures SendsCurrent(s')
  {
    hide Inv, Commits, OwnOk, DataOk, AllEffective, PermitOf, NotReplaced, FreshFor;
    forall u | u in s'.tasks && s'.tasks[u].Exchange? && FreshFor(s'.origin, s'.log, s'.tasks[u].id)
      ensures NotReplaced(s'.log, s'.tasks[u].id, s'.tasks[u].cur)
    {
      if u == t {
        ShownIsNotReplaced(s, t, s'.tasks[u].id);
      } else {
        OthersKeepCurrent(s, t, s', u);
      }
    }
  }

  /** With fresh responses no exchange is in flight for credentials an earlier refresh replaced. */
  lemma {:induction false} NeverSendsReplacedCredentials(states: seq<State>, labels: seq<Label>, i: nat)
    requires IsRun(states, labels) && i < |states|
    ensures SendsCurrent(states[i])
  {
    hide Next, Inv, EffectiveAt, Good, NotReplaced, FreshFor;
    if i > 0 {
      NeverSendsReplacedCredentials(states, labels, i - 1);
      LoggedAreEffective(states, labels, i - 1);
      StepOfRun(states, labels, i - 1);
      match labels[i - 1]
      case Task(t, _) => SendsCurrentStep(states[i - 1], t, states[i]);
      case Tick(_) =>
    }
  }

  // ---------- single flight, followers ----------

  predicate Permitted(s: State, t: Tid, id: Id) {
    t in s.tasks && PermitOf(s.tasks[t]) == Some(id)
  }

  /** The flag of an account stands for exactly one live permit, and one exchange at most. */
  lemma PermitIsUnique(states: seq<State>, labels: seq<Label>, i: nat, id: Id)
    requires IsRun(states, labels) && i < |states|
    ensures id in states[i].refreshing <==> exists t :: Permitted(states[i], t, id)
    ensures forall t, u :: Permitted(states[i], t, id) && Permitted(states[i], u, id) ==> t == u
  {
    hide IsRun, Exclusive, DataOk, PcOk, SessionOk;
    RunKeepsInv(states, labels, i);
    var s := states[i];
    assert PermitOk(s);
    if id in s.refreshing {
      assert Permitted(s, s.permit[id], id);
    }
    forall t: Tid, u: Tid | Permitted(s, t, id) && Permitted(s, u, id) ensures t == u {
      assert Get(s.permit, id) == Some(t) && Get(s.permit, id) == Some(u);
    }
  }

  predicate Waiting(s: State, t: Tid, deadline: int) {
    t in s.tasks && s.tasks[t].Follow? && s.tasks[t].deadline == deadline
  }

  predicate BeginsWait(s: State, t: Tid, deadline: int) {
    t in s.tasks && s.tasks[t].Start? && deadline == s.now + WAIT_LIMIT
  }

  lemma WaitStep(states: seq<State>, labels: seq<Label>, k: nat, t: Tid, deadline: int)
    requires IsRun(states, labels) && k < |labels| && Waiting(states[k + 1], t, deadline)
    ensures Waiting(states[k], t, deadline) || BeginsWait(states[k], t, deadline)
    ensures Waiting(states[k], t, deadline) && labels[k].Task? && labels[k].t == t ==> states[k].now < deadline
  {
    hide Next, Inv, Commits, OwnOk, DataOk, PermitOf, GateFree, HoldsGate;
    StepOfRun(states, labels, k);
  }

  lemma NobodyWaitsAtFirst(s: State, t: Tid, deadline: int)
    requires Init(s)
    ensures !Waiting(s, t, deadline)
  {
  }

  /**
   A follower's whole wait: it began at some earlier state with a deadline 35 seconds ahead, kept that
   deadline ever since, and only looks before the deadline let it wait on.
   */
  lemma FollowerWaits(states: seq<State>, labels: seq<Label>, i: nat, t: Tid, deadline: int)
    returns (a: nat)
    requires IsRun(states, labels) && i < |states| && Waiting(states[i], t, deadline)
    ensures a < i && BeginsWait(states[a], t, deadline)
    ensures forall k :: a < k <= i ==> Waiting(states[k], t, deadline)
    ensures forall k :: a < k < i && labels[k].Task? && labels[k].t == t ==> states[k].now < deadline
  {
    hide Next, Waiting, BeginsWait;
    NobodyWaitsAtFirst(states[0], t, deadline);
    var going := seq(|states|, k requires 0 <= k < |states| => Waiting(states[k], t, deadline));
    var begins := seq(|states|, k requires 0 <= k < |states| => BeginsWait(states[k], t, deadline));
    forall k | 0 <= k < i && going[k + 1] ensures going[k] || begins[k] {
      WaitStep(states, labels, k, t, deadline);
    }
    a := Began(going, begins, i);
    assert forall k :: a < k <= i ==> going[k] && Waiting(states[k], t, deadline);
    forall k | a < k < i && labels[k].Task? && labels[k].t == t ensures states[k].now < deadline {
      WaitStep(states, labels, k, t, deadline);
    }
  }

  // ---------- mutation sessions ----------

  /** While a session is open, every operation in the history since its snapshot is its own. */
  lemma SessionIsExclusive(states: seq<State>, labels: seq<Label>, i: nat, t: Tid)
    requires IsRun(states, labels) && i < |states| && t in states[i].tasks
    requires SessionOf(states[i].tasks[t]).Inside?
    ensures var s := states[i]; var ses := SessionOf(s.tasks[t]);
            ses.mark <= |s.log| && ses.base == Replay(s.origin, s.log[..ses.mark])
            && forall k :: ses.mark <= k < |s.log| ==> s.log[k].actor == t
  {
    hide IsRun, Replay, Exclusive, PermitOk, DataOk, PcOk, SessionOf;
    RunKeepsInv(states, labels, i);
    assert SessionOk(states[i], t, SessionOf(states[i].tasks[t]));
  }

  /**
   A rollback ends with table and cache as they were at the snapshot; all that happened in between are
   the session's own operations, so a concurrent save falls wholly before the snapshot or after the session.
   */
  lemma RollbackGivesTheSnapshotBack(states: seq<State>, labels: seq<Label>, i: nat, t: Tid)
    requires IsRun(states, labels) && i < |labels| && labels[i] == Task(t, Run)
    requires t in states[i].tasks && states[i].tasks[t].RestCache? && states[i].tasks[t].ses.Inside?
    ensures var ses := states[i].tasks[t].ses; var s' := states[i + 1];
            && ses.mark <= |s'.log| && ses.base == Replay(s'.origin, s'.log[..ses.mark])
            && s'.db == ses.base && s'.cache == ses.base
            && forall k :: ses.mark <= k < |s'.log| ==> s'.log[k].actor == t
  {
    hide Replay, Exclusive, PermitOk, DataOk, Good, Resume, StepLoad, StepFill, StepStart, StepFollow, StepCommit,
      StepSaveDb, StepSaveCache, StepDelDb;
    StepOfRun(states, labels, i);
    SessionIsExclusive(states, labels, i, t);
    assert PcOk(states[i], states[i].tasks[t]);
  }
}
