/**
 The lock order of the xAI store, provider before index before account before cache_sync: no task can
 take part in a deadlock, and some unfinished task can always move.
 */
module XaiLocks {
  import opened Prelude
  import opened Since
  import opened XaiTypes
  import opened XaiMachine
  import opened XaiInvariant
  import opened XaiSteps

  /** A task only waits for a lock that ranks above everything it holds. */
  lemma LocksAreTakenInOrder(pc: Pc, l: Lock)
    requires Wants(pc).Some? && l in Held(pc)
    ensures Rank(l) < Rank(Wants(pc).value)
  {
  }

  predicate WaitsFor(s: State, t: Tid, u: Tid) {
    t in s.tasks && u in s.tasks && Wants(s.tasks[t]).Some? && Wants(s.tasks[t]).value in Held(s.tasks[u])
  }

  /** Each task of the chain waits for a lock the next one holds. */
  predicate IsChain(s: State, chain: seq<Tid>) {
    forall i :: 0 <= i < |chain| - 1 ==> WaitsFor(s, chain[i], chain[i + 1])
  }

  lemma {:induction false} ChainAscends(s: State, chain: seq<Tid>, i: nat, j: nat)
    requires IsChain(s, chain) && i <= j < |chain| - 1
    ensures WaitsFor(s, chain[i], chain[i + 1]) && WaitsFor(s, chain[j], chain[j + 1])
    ensures Rank(Wants(s.tasks[chain[j]]).value) >= Rank(Wants(s.tasks[chain[i]]).value) + (j - i)
  {
    hide Held, Wants, Rank;
    assert WaitsFor(s, chain[i], chain[i + 1]) && WaitsFor(s, chain[j], chain[j + 1]);
    if i < j {
      ChainAscends(s, chain, i, j - 1);
      assert WaitsFor(s, chain[j - 1], chain[j - 1 + 1]);
      LocksAreTakenInOrder(s.tasks[chain[j]], Wants(s.tasks[chain[j - 1]]).value);
    }
  }

  /** The wait-for graph has no cycle, and no chain of waiting tasks is longer than the four ranks. */
  lemma WaitForGraphIsAcyclic(s: State, chain: seq<Tid>)
    requires IsChain(s, chain)
    ensures forall i, j :: 0 <= i < j < |chain| ==> chain[i] != chain[j]
    ensures |chain| <= 5
  {
    hide Held, Wants;
    if |chain| > 1 {
      ChainAscends(s, chain, 0, |chain| - 2);
      forall i, j | 0 <= i < j < |chain| ensures chain[i] != chain[j] {
        assert WaitsFor(s, chain[j - 1], chain[j - 1 + 1]);
        assert WaitsFor(s, chain[i], chain[i + 1]);
        ChainAscends(s, chain, i, j - 1);
        var wanted := Wants(s.tasks[chain[j - 1]]).value;
        assert wanted in Held(s.tasks[chain[j]]);
        if wanted in Held(s.tasks[chain[i]]) {
          LocksAreTakenInOrder(s.tasks[chain[i]], wanted);
        }
      }
    }
  }

  /** An event that takes the task further, as opposed to starting, failing or dropping it. */
  predicate Forward(e: Event) {
    !e.Spawn? && !e.DbFail? && !e.Cancel?
  }

  ghost predicate CanStep(s: State, t: Tid) {
    exists e, s' :: Forward(e) && Step(s, t, e, s')
  }

  lemma UnblockedCanStep(s: State, t: Tid)
    requires t in s.tasks && !s.tasks[t].Done?
    requires Wants(s.tasks[t]).Some? ==> Free(s, Wants(s.tasks[t]).value)
    ensures CanStep(s, t)
  {
    hide Free, Held, Advance, SameAccount;
    var pc := s.tasks[t];
    if Ready(s, t) {
      assert Step(s, t, Run, Advance(s, t));
    } else if pc.Exchange? {
      assert Step(s, t, Rejected(false), Cancelled(s, t));
    } else if pc.ImpAllot? {
      assert Step(s, t, NoName, EndImport(s, t, pc.ses, false));
    } else if pc.SesOpen? {
      assert Step(s, t, SessionCommit, Move(s, t, Done(Nothing)));
    } else if NoMatchIn(s.cache, pc.imported) {
      assert Step(s, t, NoMatch, Move(s, t, ReloadWait(JobAllot(pc.imported, pc.ses))));
    } else {
      var id :| id in s.cache && SameAccount(pc.imported, s.cache[id]);
      assert Step(s, t, Match(id), Move(s, t, ImpAccount(id, pc.imported, pc.ses, true)));
    }
  }

  /** Whoever is blocked waits, directly or through others, for a task that can move now. */
  lemma {:induction false} BlockedByATaskThatMoves(s: State, t: Tid) returns (chain: seq<Tid>)
    requires t in s.tasks && !s.tasks[t].Done?
    ensures chain != [] && chain[0] == t && IsChain(s, chain)
    ensures CanStep(s, chain[|chain| - 1])
    decreases if Wants(s.tasks[t]).Some? then 4 - Rank(Wants(s.tasks[t]).value) else 0
  {
    hide CanStep, Held, Wants, Rank;
    if Wants(s.tasks[t]).None? || Free(s, Wants(s.tasks[t]).value) {
      UnblockedCanStep(s, t);
      chain := [t];
    } else {
      var lock := Wants(s.tasks[t]).value;
      var u :| u in s.tasks && lock in Held(s.tasks[u]);
      HoldersAreUnfinished(s.tasks[u], lock);
      RankBound(lock);
      if Wants(s.tasks[u]).Some? {
        LocksAreTakenInOrder(s.tasks[u], lock);
        RankBound(Wants(s.tasks[u]).value);
      }
      var rest := BlockedByATaskThatMoves(s, u);
      chain := [t] + rest;
      forall i | 0 <= i < |chain| - 1 ensures WaitsFor(s, chain[i], chain[i + 1]) {
        if i > 0 {
          assert WaitsFor(s, rest[i - 1], rest[i - 1 + 1]);
        }
      }
    }
  }

  lemma HoldersAreUnfinished(pc: Pc, l: Lock)
    requires l in Held(pc)
    ensures !pc.Done?
  {
  }

  lemma RankBound(l: Lock)
    ensures Rank(l) < 4
  {
  }

  /** Deadlock freedom: as long as some task is unfinished, some unfinished task can move. */
  lemma SomeTaskCanStep(s: State)
    requires exists t :: t in s.tasks && !s.tasks[t].Done?
    ensures exists t :: t in s.tasks && !s.tasks[t].Done? && CanStep(s, t)
  {
    hide CanStep, Held, Wants;
    var t :| t in s.tasks && !s.tasks[t].Done?;
    var chain := BlockedByATaskThatMoves(s, t);
    var last := chain[|chain| - 1];
    MoversAreUnfinished(s, last);
  }

  lemma MoversAreUnfinished(s: State, t: Tid)
    requires CanStep(s, t)
    ensures t in s.tasks && !s.tasks[t].Done?
  {
    hide Advance, Free, Held;
    var e, s' :| Forward(e) && Step(s, t, e, s');
  }

  // ---------- exclusion ----------

  /** At most one task is inside the critical section of an account, in every reachable state. */
  lemma AccountSectionsExclude(states: seq<State>, labels: seq<Label>, i: nat, t: Tid, u: Tid, id: Id)
    requires IsRun(states, labels) && i < |states|
    requires t in states[i].tasks && Account(id) in Held(states[i].tasks[t])
    requires u in states[i].tasks && Account(id) in Held(states[i].tasks[u])
    ensures t == u
  {
    hide IsRun, Held, PermitOk, DataOk, PcOk;
    RunKeepsInv(states, labels, i);
  }

  predicate Permitted(s: State, t: Tid, id: Id) {
    t in s.tasks && PermitOf(s.tasks[t]) == Some(id)
  }

  predicate Sending(s: State, t: Tid, id: Id) {
    t in s.tasks && s.tasks[t].Exchange? && s.tasks[t].id == id
  }

  lemma SendersArePermitted(s: State, id: Id)
    ensures forall t :: Sending(s, t, id) ==> Permitted(s, t, id)
  {
  }

  /** Single flight: one exchange per account, and the flag of an account stands for one live permit. */
  lemma PermitIsUnique(states: seq<State>, labels: seq<Label>, i: nat, id: Id)
    requires IsRun(states, labels) && i < |states|
    ensures id in states[i].refreshing <==>
            exists t :: Permitted(states[i], t, id)
    ensures forall t, u :: Permitted(states[i], t, id) && Permitted(states[i], u, id) ==> t == u
    ensures forall t, u :: Sending(states[i], t, id) && Sending(states[i], u, id) ==> t == u
  {
    hide IsRun, Held, Exclusive, DataOk, PcOk, SessionOk, SessionOf, PermitOf, Sending;
    RunKeepsInv(states, labels, i);
    var s := states[i];
    SendersArePermitted(s, id);
    assert PermitOk(s);
    if id in s.refreshing {
      assert Permitted(s, s.permit[id], id);
    }
    forall t: Tid, u: Tid | Permitted(s, t, id) && Permitted(s, u, id)
      ensures t == u
    {
      assert Get(s.permit, id) == Some(t) && Get(s.permit, id) == Some(u);
    }
  }

  // ---------- followers ----------

  predicate Waiting(s: State, t: Tid, deadline: int) {
    t in s.tasks && WaitUntil(s.tasks[t]) == Some(deadline)
  }

  predicate BeginsWait(s: State, t: Tid, deadline: int) {
    t in s.tasks && s.tasks[t].Start? && deadline == s.now + WAIT_LIMIT
  }

  predicate LooksAgain(s: State, t: Tid, s': State) {
    t in s.tasks && !s.tasks[t].Follow? && t in s'.tasks && s'.tasks[t].Follow?
  }

  lemma WaitStep(states: seq<State>, labels: seq<Label>, k: nat, t: Tid, deadline: int)
    requires IsRun(states, labels) && k < |labels| && Waiting(states[k + 1], t, deadline)
    ensures Waiting(states[k], t, deadline) || BeginsWait(states[k], t, deadline)
    ensures Waiting(states[k], t, deadline) && LooksAgain(states[k], t, states[k + 1]) ==> states[k].now < deadline
  {
    hide Step, Inv, Commits, OwnOk, DataOk, WaitUntil, Held, Begins;
    RunKeepsInv(states, labels, k);
    assert Next(states[k], labels[k], states[k + 1]);
    FollowWaits(states[k + 1].tasks[t]);
    if labels[k].Task? {
      StepIsGood(states[k], labels[k].t, labels[k].e, states[k + 1]);
    }
  }

  lemma FollowWaits(pc: Pc)
    ensures pc.Follow? ==> WaitUntil(pc) == Some(pc.deadline)
  {
  }

  lemma NobodyWaitsAtFirst(s: State, t: Tid, deadline: int)
    requires Init(s)
    ensures !Waiting(s, t, deadline)
  {
  }

  /**
   A follower's whole wait: it began at some earlier state with a deadline 35 seconds ahead, kept that
   deadline ever since, and only looks before the deadline let it wait on.
   */
  lemma FollowerWaits(states: seq<State>, labels: seq<Label>, i: nat, t: Tid, deadline: int)
    returns (a: nat)
    requires IsRun(states, labels) && i < |states| && Waiting(states[i], t, deadline)
    ensures a < i && BeginsWait(states[a], t, deadline)
    ensures forall k :: a < k <= i ==> Waiting(states[k], t, deadline)
    ensures forall k :: a < k < i && LooksAgain(states[k], t, states[k + 1]) ==> states[k].now < deadline
  {
    hide Next, Waiting, BeginsWait, LooksAgain;
    NobodyWaitsAtFirst(states[0], t, deadline);
    var going := seq(|states|, k requires 0 <= k < |states| => Waiting(states[k], t, deadline));
    var begins := seq(|states|, k requires 0 <= k < |states| => BeginsWait(states[k], t, deadline));
    forall k | 0 <= k < i && going[k + 1] ensures going[k] || begins[k] {
      WaitStep(states, labels, k, t, deadline);
    }
    a := Began(going, begins, i);
    assert forall k :: a < k <= i ==> going[k] && Waiting(states[k], t, deadline);
    forall k | a < k < i && LooksAgain(states[k], t, states[k + 1]) ensures states[k].now < deadline {
      WaitStep(states, labels, k, t, deadline);
    }
  }
}
