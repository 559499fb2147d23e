/** What holds over every run of the xAI device login sessions. */
module XaiLoginRuns {
  import opened Prelude
  import opened XaiTypes
  import opened XaiLogin

  predicate Finished(s: State, x: string) {
    x in s.sessions && s.sessions[x].phase != Waiting
  }

  predicate Gone(s: State, x: string) {
    x in s.devices && x !in s.sessions
  }

  predicate Holds(s: State, x: string, r: Record) {
    x in s.sessions && s.sessions[x].pending == Some(r)
  }

  /** The background task of `x` has claimed the save, or is over. */
  predicate PastClaim(s: State, x: string) {
    x in s.devices && (s.devices[x].Preparing? || s.devices[x].Ended?)
  }

  /** The claim of the save is granted to the background task of `x` in this step. */
  predicate GrantsSave(s: State, l: Label, s': State, x: string) {
    l == Device(x) && x in s.devices && s.devices[x].Saving? && x in s'.devices && s'.devices[x].Preparing?
  }

  /** The worker completes or fails the commit of `x` in this step. */
  predicate EndsCommit(s: State, l: Label, x: string) {
    (l.Complete? || l.Fail?) && s.worker.Committing? && s.worker.x == x
  }

  // ---------- one step ----------

  lemma OneStep(s: State, l: Label, s': State, x: string)
    requires Inv(s) && Next(s, l, s')
    ensures x in s.devices ==> x in s'.devices
    ensures Gone(s, x) ==> Gone(s', x)
    ensures Finished(s, x) ==> x !in s'.sessions || s'.sessions[x].phase == s.sessions[x].phase
    ensures PastClaim(s, x) ==> PastClaim(s', x)
    ensures x in s.devices && l == Cancel(x) ==> Gone(s', x)
  {
    hide Next, Concerns;
    if Concerns(s, l) == Some(x) {
      assert OkFor(s, x);
      SameStep(s, l, s', x);
    } else {
      StepElsewhere(s, l, s', x);
      CancelConcerns(s, x);
    }
  }

  lemma CancelConcerns(s: State, x: string)
    ensures Concerns(s, Cancel(x)) == Some(x)
  {
  }

  lemma StepElsewhere(s: State, l: Label, s': State, x: string)
    requires Inv(s) && Next(s, l, s') && Concerns(s, l) != Some(x)
    ensures Get(s'.sessions, x) == Get(s.sessions, x) && Get(s'.devices, x) == Get(s.devices, x)
  {
    hide Next, OkFor;
    StepKeepsInv(s, l, s');
    QuietSteps(s, l, s');
    if Concerns(s, l).Some? {
      assert Elsewhere(s, s', Concerns(s, l).value);
    }
  }

  lemma QuietSteps(s: State, l: Label, s': State)
    requires Next(s, l, s')
    ensures Concerns(s, l).None? ==> s'.sessions == s.sessions && s'.devices == s.devices
  {
    hide Polled, Claimed, Completed, Ruined, CancelResult, Swept, DeviceAfter, SessionsAfter, Opened;
  }

  lemma SameStep(s: State, l: Label, s': State, x: string)
    requires OkFor(s, x) && Next(s, l, s') && Concerns(s, l) == Some(x)
    ensures x in s.devices ==> x in s'.devices
    ensures Gone(s, x) ==> Gone(s', x)
    ensures Finished(s, x) ==> x !in s'.sessions || s'.sessions[x].phase == s.sessions[x].phase
    ensures PastClaim(s, x) ==> PastClaim(s', x)
    ensures x in s.devices && l == Cancel(x) ==> Gone(s', x)
  {
  }

  /** The prepared credential only goes when the worker completes or fails the commit. */
  lemma PreparedStep(s: State, l: Label, s': State, x: string, r: Record)
    requires Inv(s) && Next(s, l, s') && Holds(s, x, r) && !EndsCommit(s, l, x)
    ensures Holds(s', x, r)
  {
    hide Next, Concerns, Inv;
    if Concerns(s, l) == Some(x) {
      assert OkFor(s, x) by { InvGives(s, x); }
      PreparedSameStep(s, l, s', x, r);
    } else {
      StepElsewhere(s, l, s', x);
    }
  }

  lemma InvGives(s: State, x: string)
    requires Inv(s)
    ensures OkFor(s, x)
  {
  }

  lemma PreparedSameStep(s: State, l: Label, s': State, x: string, r: Record)
    requires OkFor(s, x) && Next(s, l, s') && Concerns(s, l) == Some(x) && Holds(s, x, r) && !EndsCommit(s, l, x)
    ensures Holds(s', x, r)
  {
  }

  /** A session is marked as saving only by a granted claim. */
  lemma SavingStep(s: State, l: Label, s': State, x: string)
    requires Inv(s) && Next(s, l, s')
    requires x in s'.sessions && s'.sessions[x].saving && !GrantsSave(s, l, s', x)
    ensures x in s.sessions && s.sessions[x].saving
  {
    hide Next, Concerns, Inv;
    if Concerns(s, l) == Some(x) {
      assert OkFor(s, x) by { InvGives(s, x); }
      SavingSameStep(s, l, s', x);
    } else {
      StepElsewhere(s, l, s', x);
    }
  }

  lemma SavingSameStep(s: State, l: Label, s': State, x: string)
    requires OkFor(s, x) && Next(s, l, s') && Concerns(s, l) == Some(x)
    requires x in s'.sessions && s'.sessions[x].saving && !GrantsSave(s, l, s', x)
    ensures x in s.sessions && s.sessions[x].saving
  {
  }

  /** A session succeeds only when the worker completes the commit of the credential prepared in it. */
  lemma SuccessStep(s: State, l: Label, s': State, x: string)
    requires Inv(s) && Next(s, l, s')
    requires x in s'.sessions && s'.sessions[x].phase == Success && !(x in s.sessions && s.sessions[x].phase == Success)
    ensures l.Complete? && s.worker.Committing? && s.worker.x == x && Holds(s, x, s.worker.record)
  {
    hide Next, Concerns, Inv;
    if Concerns(s, l) == Some(x) {
      assert OkFor(s, x) by { InvGives(s, x); }
      SuccessSameStep(s, l, s', x);
    } else {
      StepElsewhere(s, l, s', x);
    }
  }

  lemma SuccessSameStep(s: State, l: Label, s': State, x: string)
    requires OkFor(s, x) && Next(s, l, s') && Concerns(s, l) == Some(x)
    requires x in s'.sessions && s'.sessions[x].phase == Success && !(x in s.sessions && s.sessions[x].phase == Success)
    ensures l.Complete? && s.worker.Committing? && s.worker.x == x && Holds(s, x, s.worker.record)
  {
  }

  // ---------- every run ----------

  lemma StepOfRun(states: seq<State>, labels: seq<Label>, j: nat)
    requires IsRun(states, labels) && j < |labels|
    ensures Inv(states[j]) && Next(states[j], labels[j], states[j + 1])
  {
    hide Next, OkFor;
    RunKeepsInv(states, labels, j);
  }

  /** A session that left the map never comes back. */
  lemma {:induction false} GoneForever(states: seq<State>, labels: seq<Label>, i: nat, j: nat, x: string)
    requires IsRun(states, labels) && i <= j < |states| && Gone(states[i], x)
    ensures Gone(states[j], x)
  {
    hide Next, Inv, Gone;
    if i < j {
      GoneForever(states, labels, i, j - 1, x);
      StepOfRun(states, labels, j - 1);
      OneStep(states[j - 1], labels[j - 1], states[j], x);
    }
  }

  /** Success and Error are final: the session keeps the phase until it is removed for good. */
  lemma {:induction false} FinishedIsFinal(states: seq<State>, labels: seq<Label>, i: nat, j: nat, x: string)
    requires IsRun(states, labels) && i <= j < |states| && Finished(states[i], x)
    ensures x in states[j].sessions ==> states[j].sessions[x].phase == states[i].sessions[x].phase
  {
    hide Next, Inv;
    if i < j {
      FinishedIsFinal(states, labels, i, j - 1, x);
      StepOfRun(states, labels, j - 1);
      OneStep(states[j - 1], labels[j - 1], states[j], x);
      if x !in states[j - 1].sessions {
        StepOfRun(states, labels, i);
        InvGives(states[i], x);
        Departed(states, labels, i, j - 1, x);
      }
    }
  }

  /** A session that was there and is not is gone. */
  lemma {:induction false} Departed(states: seq<State>, labels: seq<Label>, i: nat, j: nat, x: string)
    requires IsRun(states, labels) && i <= j < |states| && x in states[i].devices && x !in states[j].sessions
    ensures Gone(states[j], x)
  {
    hide Next, Inv, Finished;
    DevicesStay(states, labels, i, j, x);
  }

  lemma {:induction false} DevicesStay(states: seq<State>, labels: seq<Label>, i: nat, j: nat, x: string)
    requires IsRun(states, labels) && i <= j < |states| && x in states[i].devices
    ensures x in states[j].devices
  {
    hide Next, Inv, Gone, Finished;
    if i < j {
      DevicesStay(states, labels, i, j - 1, x);
      StepOfRun(states, labels, j - 1);
      OneStep(states[j - 1], labels[j - 1], states[j], x);
    }
  }

  /** A prepared credential stays in its session, whoever claims it and is dropped, until complete or fail. */
  lemma {:induction false} PreparedStays(states: seq<State>, labels: seq<Label>, i: nat, j: nat, x: string, r: Record)
    requires IsRun(states, labels) && i <= j < |states| && Holds(states[i], x, r)
    requires forall k :: i <= k < j ==> !EndsCommit(states[k], labels[k], x)
    ensures Holds(states[j], x, r)
  {
    hide Next, Inv, Holds;
    if i < j {
      PreparedStays(states, labels, i, j - 1, x, r);
      StepOfRun(states, labels, j - 1);
      PreparedStep(states[j - 1], labels[j - 1], states[j], x, r);
    }
  }

  lemma {:induction false} PastClaimStays(states: seq<State>, labels: seq<Label>, i: nat, j: nat, x: string)
    requires IsRun(states, labels) && i <= j < |states| && PastClaim(states[i], x)
    ensures PastClaim(states[j], x)
  {
    hide Next, Inv, PastClaim, Gone, Finished;
    if i < j {
      PastClaimStays(states, labels, i, j - 1, x);
      StepOfRun(states, labels, j - 1);
      OneStep(states[j - 1], labels[j - 1], states[j], x);
    }
  }

  /** The save is granted at most once per session, while it waits and strictly before the deadline. */
  lemma SaveIsGrantedOnce(states: seq<State>, labels: seq<Label>, i: nat, k: nat, x: string)
    requires IsRun(states, labels) && i < k < |labels|
    requires GrantsSave(states[i], labels[i], states[i + 1], x)
    ensures !GrantsSave(states[k], labels[k], states[k + 1], x)
    ensures IsWaiting(states[i].sessions, x) && !states[i].sessions[x].saving
    ensures x in states[i].deadlines && states[i].now < states[i].deadlines[x]
  {
    hide Inv;
    StepOfRun(states, labels, i);
    PastClaimStays(states, labels, i + 1, k, x);
  }

  /** After a successful cancel the session never reappears, so no credential is ever prepared for it. */
  lemma CancelIsFinal(states: seq<State>, labels: seq<Label>, i: nat, j: nat, x: string)
    requires IsRun(states, labels) && i < j < |states| && labels[i] == Cancel(x) && x in states[i].devices
    ensures x !in states[j].sessions
  {
    hide Next, Inv;
    StepOfRun(states, labels, i);
    OneStep(states[i], labels[i], states[i + 1], x);
    GoneForever(states, labels, i + 1, j, x);
  }

  /** Nothing is saved, prepared or committed in a session without a claim granted before. */
  lemma {:induction false} SavingWasGranted(states: seq<State>, labels: seq<Label>, j: nat, x: string) returns (i: nat)
    requires IsRun(states, labels) && j < |states| && x in states[j].sessions && states[j].sessions[x].saving
    ensures i < j && GrantsSave(states[i], labels[i], states[i + 1], x)
  {
    hide Next, Inv, GrantsSave;
    StepOfRunOrStart(states, labels, j);
    if GrantsSave(states[j - 1], labels[j - 1], states[j], x) {
      i := j - 1;
    } else {
      SavingStep(states[j - 1], labels[j - 1], states[j], x);
      i := SavingWasGranted(states, labels, j - 1, x);
    }
  }

  lemma StepOfRunOrStart(states: seq<State>, labels: seq<Label>, j: nat)
    requires IsRun(states, labels) && j < |states| && states[j].sessions != map[]
    ensures j > 0 && Inv(states[j - 1]) && Next(states[j - 1], labels[j - 1], states[j])
  {
    hide Next, Inv;
    if j > 0 {
      StepOfRun(states, labels, j - 1);
    }
  }

  /** A login succeeds only by committing the prepared credential, whose save was granted in time. */
  lemma SuccessWasGrantedInTime(states: seq<State>, labels: seq<Label>, j: nat, x: string) returns (i: nat)
    requires IsRun(states, labels) && j < |labels|
    requires x in states[j + 1].sessions && states[j + 1].sessions[x].phase == Success
    requires !(x in states[j].sessions && states[j].sessions[x].phase == Success)
    ensures labels[j].Complete? && states[j].worker.Committing? && Holds(states[j], x, states[j].worker.record)
    ensures i < j && GrantsSave(states[i], labels[i], states[i + 1], x)
    ensures x in states[i].deadlines && states[i].now < states[i].deadlines[x]
  {
    hide Inv, SessionsAfter, Concerns;
    StepOfRun(states, labels, j);
    SuccessStep(states[j], labels[j], states[j + 1], x);
    InvGives(states[j], x);
    i := SavingWasGranted(states, labels, j, x);
    StepOfRun(states, labels, i);
    GrantIsInTime(states[i], labels[i], states[i + 1], x);
  }

  lemma GrantIsInTime(s: State, l: Label, s': State, x: string)
    requires Next(s, l, s') && GrantsSave(s, l, s', x)
    ensures x in s.deadlines && s.now < s.deadlines[x]
  {
    hide Polled, Claimed, Completed, Ruined, CancelResult, Swept, Opened, SessionsAfter;
  }
}
