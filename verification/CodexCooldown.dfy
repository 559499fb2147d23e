/**
 Failure cooldowns of the Codex store: after a recorded transient failure no refresh of the account is
 sent for its 300 seconds, unless an import of new tokens clears the cooldown.
 */
module CodexCooldown {
  import opened Prelude
  import opened CodexTypes
  import opened CodexMachine
  import opened CodexInvariant
  import opened CodexRules
  import opened CodexSteps
  import CodexGenerations

  /** While a failure cooldown of an account runs, nobody is past the check for it. */
  predicate Quiet(s: State) {
    forall t :: t in s.tasks && Past(s.tasks[t]) ==> !FailureCooldown(s.store, PermitOf(s.tasks[t]).value, s.now)
  }

  // ---------- runs ----------

  lemma StepKeepsQuiet(s: State, t: Tid, e: Event, s': State)
    requires Inv(s) && Quiet(s) && Step(s, t, e, s')
    ensures Quiet(s')
  {
    hide Step, Inv, OwnOk, DataOk, AtomicStep, ReplyOk, Loads, MarkStep;
    StepGood(s, t, e, s');
    if t in s.tasks {
      TaskFacts(s, t);
    }
    forall u | u in s'.tasks && Past(s'.tasks[u])
      ensures !FailureCooldown(s'.store, PermitOf(s'.tasks[u]).value, s'.now)
    {
      if u != t {
        TaskFacts(s, u);
        OtherStaysQuiet(s, t, s', u);
      } else {
        TaskFacts(s, t);
        OwnStaysQuiet(s, t, s');
      }
    }
  }

  lemma OtherStaysQuiet(s: State, t: Tid, s': State, u: Tid)
    requires Quiet(s) && Frame(s, t, s') && CooldownStep(s, t, s') && u in s.tasks && u != t
    requires u in s'.tasks && Past(s'.tasks[u])
    requires PermitOf(s.tasks[u]).Some? ==> Get(s.permit, PermitOf(s.tasks[u]).value) == Some(u)
    requires t in s.tasks && PermitOf(s.tasks[t]).Some? ==> Get(s.permit, PermitOf(s.tasks[t]).value) == Some(t)
    ensures !FailureCooldown(s'.store, PermitOf(s'.tasks[u]).value, s'.now)
  {
    assert s'.tasks[u] == s.tasks[u];
  }

  /** A task gone past the check stays quiet until it notes its own outcome, which drops the permit. */
  lemma OwnStaysQuiet(s: State, t: Tid, s': State)
    requires Quiet(s) && CooldownStep(s, t, s') && t in s.tasks && t in s'.tasks && s'.now == s.now
    requires Passes(s, t, s'.tasks[t]) && Past(s'.tasks[t])
    ensures !FailureCooldown(s'.store, PermitOf(s'.tasks[t]).value, s'.now)
  {
  }

  lemma {:induction false} RunIsQuiet(states: seq<State>, labels: seq<Label>, i: nat)
    requires IsRun(states, labels) && i < |states|
    ensures Quiet(states[i])
  {
    if i > 0 {
      RunIsQuiet(states, labels, i - 1);
      RunKeepsInv(states, labels, i - 1);
      assert Next(states[i - 1], labels[i - 1], states[i - 1 + 1]);
      match labels[i - 1]
      case Task(t, e) => StepKeepsQuiet(states[i - 1], t, e, states[i]);
      case Tick(_) =>
    }
  }

  /** The step in which an import of new tokens clears the cooldown of `id`. */
  predicate Clears(s: State, l: Label, id: Id) {
    l.Task? && l.e.Run? && l.t in s.tasks && s.tasks[l.t].ImpClear? && s.tasks[l.t].id == id
  }

  /** An import dropped before it gets there leaves the cooldown in place. */
  lemma DroppedImportClearsNothing(s: State, t: Tid, e: Event, s': State)
    requires Step(s, t, e, s')
    ensures t in s.tasks && s.tasks[t].ImpClear? && !e.Run? ==> s'.store.cooldowns == s.store.cooldowns
  {
    hide Advance, AfterDbFail, Initial, Refreshed, RefreshClient, IsTarget, NoTarget, Release, PermitOf, HoldsGate;
  }

  lemma FailureCooldownStays(s: State, t: Tid, e: Event, s': State, id: Id, retryAt: int)
    requires Inv(s) && Quiet(s) && Step(s, t, e, s') && s.now < retryAt
    requires Get(s.store.cooldowns, id) == Some(Cooldown(retryAt, true))
    requires !Clears(s, Task(t, e), id)
    ensures Get(s'.store.cooldowns, id) == Some(Cooldown(retryAt, true))
  {
    hide Inv, Step, OwnOk, DataOk, AtomicStep, PcRules, MarkStep;
    StepGood(s, t, e, s');
    DroppedImportClearsNothing(s, t, e, s');
    assert t in s.tasks && s.tasks[t].Note? ==> Past(s.tasks[t]);
  }

  /** A running failure cooldown is neither cut short nor replaced, unless an import clears it. */
  lemma {:induction false} FailureCooldownRuns(
    states: seq<State>, labels: seq<Label>, i: nat, j: nat, id: Id, retryAt: int)
    requires IsRun(states, labels) && i <= j < |states|
    requires Get(states[i].store.cooldowns, id) == Some(Cooldown(retryAt, true))
    requires states[j].now < retryAt
    requires forall n :: i <= n < j ==> !Clears(states[n], labels[n], id)
    ensures Get(states[j].store.cooldowns, id) == Some(Cooldown(retryAt, true))
  {
    hide Inv, Step, Quiet, Clears;
    if i < j {
      var s, s' := states[j - 1], states[j];
      RunKeepsInv(states, labels, j - 1);
      RunIsQuiet(states, labels, j - 1);
      assert Next(s, labels[j - 1], states[j - 1 + 1]);
      assert !Clears(states[j - 1], labels[j - 1], id);
      match labels[j - 1]
      case Task(t, e) =>
        assert s.now == s'.now by { StepKeepsTime(s, t, e, s'); }
        FailureCooldownRuns(states, labels, i, j - 1, id, retryAt);
        FailureCooldownStays(s, t, e, s', id, retryAt);
      case Tick(_) =>
        FailureCooldownRuns(states, labels, i, j - 1, id, retryAt);
    }
  }

  lemma StepKeepsTime(s: State, t: Tid, e: Event, s': State)
    requires Inv(s) && Step(s, t, e, s')
    ensures s'.now == s.now
  {
    hide Inv, Step, OwnOk, DataOk, AtomicStep, PcRules, MarkStep, CooldownStep;
    StepGood(s, t, e, s');
  }

  /**
   Sending discipline, transient failures: with a failure cooldown recorded for `id` at state `i`, no
   later step sends a refresh of `id` before the cooldown has run out, unless an import cleared it.
   */
  lemma NothingIsSentDuringCooldown(
    states: seq<State>, labels: seq<Label>, i: nat, j: nat, id: Id, retryAt: int, t: Tid, cur: Record)
    requires IsRun(states, labels) && i <= j && j + 1 < |states|
    requires Get(states[i].store.cooldowns, id) == Some(Cooldown(retryAt, true))
    requires forall n :: i <= n < j ==> !Clears(states[n], labels[n], id)
    requires CodexGenerations.Sends(states[j], t, states[j + 1], id, cur)
    ensures states[j].now >= retryAt
  {
    if states[j].now < retryAt {
      FailureCooldownRuns(states, labels, i, j, id, retryAt);
      RunIsQuiet(states, labels, j);
      assert Past(states[j].tasks[t]);
    }
  }

  /** A transient failure is recorded for 300 seconds, by the step that also drops the permit. */
  lemma FailureIsRecorded(s: State, t: Tid, id: Id, mode: Mode)
    requires Inv(s) && t in s.tasks && s.tasks[t] == Note(id, mode, Transient)
    ensures var s' := Advance(s, t);
            Get(s'.store.cooldowns, id) == Some(Cooldown(s.now + 300, true)) && id !in s'.store.refreshing
  {
    hide Finish, Inv;
  }

  /**
   After a refresh of `id` ended in a transient failure at step `i`, no refresh of `id` is sent for 300
   seconds, unless an import of new tokens clears the cooldown in between.
   */
  lemma NothingIsSentAfterFailure(
    states: seq<State>, labels: seq<Label>, i: nat, j: nat, id: Id, u: Tid, mode: Mode, t: Tid, cur: Record)
    requires IsRun(states, labels) && i < j && j + 1 < |states|
    requires labels[i] == Task(u, Run) && u in states[i].tasks && states[i].tasks[u] == Note(id, mode, Transient)
    requires forall n :: i < n < j ==> !Clears(states[n], labels[n], id)
    requires CodexGenerations.Sends(states[j], t, states[j + 1], id, cur)
    ensures states[j].now >= states[i].now + 300
  {
    hide Inv, Advance, Clears, CodexGenerations.Sends;
    RunKeepsInv(states, labels, i);
    assert Next(states[i], labels[i], states[i + 1]);
    FailureIsRecorded(states[i], u, id, mode);
    NothingIsSentDuringCooldown(states, labels, i + 1, j, id, states[i].now + 300, t, cur);
  }
}
