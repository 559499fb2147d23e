/**
 Mutation sessions and permits of the Codex store: a session that rolls back leaves no trace but a
 restore, other tasks' saves fall wholly before its snapshot or wholly after it, and at most one refresh
 of an account is in flight.
 */
module CodexSessions {
  import opened Prelude
  import opened Since
  import opened CodexTypes
  import opened CodexMachine
  import opened CodexInvariant
  import opened CodexRules
  import opened CodexSteps
  import opened CodexHistory

  // ---------- rollback ----------

  /**
   Rollback is serializable: when a session that took snapshot `base` at mark `mark` completes its
   restore, table and cache are `base` again, `base` is what all operations completed before the mark
   produced, and every operation since the mark was the session's own.
   */
  lemma RollbackIsSerializable(states: seq<State>, labels: seq<Label>, i: nat, t: Tid,
                               target: Target, base: map<Id, Record>, mark: nat)
    requires IsRun(states, labels) && i + 1 < |states| && labels[i] == Task(t, Run)
    requires t in states[i].tasks && states[i].tasks[t] == RestCache(target, Inside(base, mark))
    ensures var s, s' := states[i], states[i + 1];
            && s'.store.db == base && s'.store.cache == base && s'.gate.None?
            && mark <= |s.log| && s.log <= s'.log
            && base == Replay(s.origin, s.log[..mark])
            && forall n :: mark <= n < |s'.log| ==> s'.log[n].actor == t
  {
    var s, s' := states[i], states[i + 1];
    assert Next(s, labels[i], s');
    RunKeepsInv(states, labels, i);
    RunKeepsInv(states, labels, i + 1);
    TaskFacts(s, t);
    LogGrows(states, labels, i, i + 1);
    hide Inv;
    assert s' == StepRestCache(s, t, target);
    TableIsReplay(states, labels, i + 1);
  }

  /** While a session holds the gate no other task changes table, cache or history. */
  lemma SessionIsExclusive(s: State, t: Tid, u: Tid, e: Event, s': State)
    requires Inv(s) && t in s.tasks && HoldsGate(s.tasks[t]) && u != t && Step(s, u, e, s')
    ensures s'.store.db == s.store.db && s'.store.cache == s.store.cache && s'.log == s.log
    ensures s'.gate == Some(t)
  {
    StepGood(s, u, e, s');
    TaskFacts(s, t);
  }

  // ---------- single flight ----------

  /**
   Single flight: an id is in `token_refreshing` exactly while one task holds its permit, and no two
   tasks hold it; in particular at most one exchange per account is in flight.
   */
  lemma PermitIsUnique(states: seq<State>, labels: seq<Label>, i: nat, id: Id)
    requires IsRun(states, labels) && i < |states|
    ensures var s := states[i];
            && (id in s.store.refreshing <==> exists t :: t in s.tasks && PermitOf(s.tasks[t]) == Some(id))
            && (forall t, u | t in s.tasks && u in s.tasks ::
                  PermitOf(s.tasks[t]) == Some(id) == PermitOf(s.tasks[u]) ==> t == u)
            && (forall t, u | t in s.tasks && u in s.tasks && s.tasks[t].Exchange? && s.tasks[u].Exchange? ::
                  s.tasks[t].id == id == s.tasks[u].id ==> t == u)
  {
    RunKeepsInv(states, labels, i);
    var s := states[i];
    forall t | t in s.tasks && PermitOf(s.tasks[t]) == Some(id) ensures Get(s.permit, id) == Some(t) {
      TaskFacts(s, t);
    }
    if id in s.store.refreshing {
      assert PermitOf(s.tasks[s.permit[id]]) == Some(id);
    }
    forall t | t in s.tasks && s.tasks[t].Exchange? && s.tasks[t].id == id
      ensures PermitOf(s.tasks[t]) == Some(id)
    {
    }
  }

  // ---------- followers ----------

  predicate Waiting(s: State, t: Tid, deadline: int) {
    t in s.tasks && s.tasks[t].Follow? && s.tasks[t].deadline == deadline
  }

  predicate BeginsWait(s: State, t: Tid, deadline: int) {
    t in s.tasks && s.tasks[t].Start? && deadline == s.now + WAIT_LIMIT
  }

  lemma WaitStep(states: seq<State>, labels: seq<Label>, k: nat, t: Tid, deadline: int)
    requires IsRun(states, labels) && k < |labels| && Waiting(states[k + 1], t, deadline)
    ensures Waiting(states[k], t, deadline) || BeginsWait(states[k], t, deadline)
    ensures Waiting(states[k], t, deadline) && labels[k].Task? && labels[k].t == t ==> states[k].now < deadline
  {
    hide Step, Inv, OwnOk, DataOk, AtomicStep, ReplyOk, Loads, Passes, MarkStep, CooldownStep;
    RunKeepsInv(states, labels, k);
    assert Next(states[k], labels[k], states[k + 1]);
    if labels[k].Task? {
      StepGood(states[k], labels[k].t, labels[k].e, states[k + 1]);
    }
  }

  lemma NobodyWaitsAtFirst(s: State, t: Tid, deadline: int)
    requires Init(s)
    ensures !Waiting(s, t, deadline)
  {
  }

  /**
   A follower's whole wait: it began at some earlier state with a deadline 35 seconds ahead, kept that
   deadline ever since, and only looks before the deadline let it wait on.
   */
  lemma FollowerWaits(states: seq<State>, labels: seq<Label>, i: nat, t: Tid, deadline: int)
    returns (a: nat)
    requires IsRun(states, labels) && i < |states| && Waiting(states[i], t, deadline)
    ensures a < i && BeginsWait(states[a], t, deadline)
    ensures forall k :: a < k <= i ==> Waiting(states[k], t, deadline)
    ensures forall k :: a < k < i && labels[k].Task? && labels[k].t == t ==> states[k].now < deadline
  {
    hide Next, Waiting, BeginsWait;
    NobodyWaitsAtFirst(states[0], t, deadline);
    var going := seq(|states|, k requires 0 <= k < |states| => Waiting(states[k], t, deadline));
    var begins := seq(|states|, k requires 0 <= k < |states| => BeginsWait(states[k], t, deadline));
    forall k | 0 <= k < i && going[k + 1] ensures going[k] || begins[k] {
      WaitStep(states, labels, k, t, deadline);
    }
    a := Began(going, begins, i);
    assert forall k :: a < k <= i ==> going[k] && Waiting(states[k], t, deadline);
    forall k | a < k < i && labels[k].Task? && labels[k].t == t ensures states[k].now < deadline {
      WaitStep(states, labels, k, t, deadline);
    }
  }
}
