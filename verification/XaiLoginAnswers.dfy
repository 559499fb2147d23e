/** What the polls of an xAI device login are told, over every run. */
module XaiLoginAnswers {
  import opened Prelude
  import opened XaiLogin
  import opened XaiLoginRuns

  /** The step answers a poll for `x`, one that may only look or one that may also take the credential. */
  predicate Answers(l: Label, x: string, told: Option<PollClaim>) {
    l == Poll(x, told) || l == Claim(x, told)
  }

  /** The session waits, and its time is not up or its account is on the way. */
  predicate StillWaits(s: State, x: string) {
    x in s.sessions
    && (var ses := s.sessions[x];
        ses.phase == Waiting && (ses.saving || ses.committing || ses.pending.Some? || s.now < ses.expiresAt))
  }

  /** The session waits for nobody any more: its time is up. */
  predicate HasExpired(s: State, x: string) {
    x in s.sessions
    && (var ses := s.sessions[x];
        ses.phase == Waiting && !ses.saving && !ses.committing && ses.pending.None? && ses.expiresAt <= s.now)
  }

  // ---------- one answer ----------

  lemma AnswerOfRun(states: seq<State>, labels: seq<Label>, j: nat, x: string, told: Option<PollClaim>)
    requires IsRun(states, labels) && j < |labels| && Answers(labels[j], x, told)
    ensures told.Some? <==> x in states[j].sessions
    ensures told.Some? ==> SessionOk(states[j], x)
    ensures told.Some? && told.value.Told? ==> Tells(told.value, states[j].sessions[x], states[j].now)
    ensures told.Some? && told.value.PreparedLogin? ==>
              labels[j].Claim? && states[j].sessions[x].pending == Some(told.value.record)
    ensures labels[j].Claim? && told.Some? && states[j].sessions[x].pending.Some? ==> told.value.PreparedLogin?
  {
    hide Polled, Claimed, PollAnswer, ClaimAnswer, SessionOk, Tells;
    StepOfRun(states, labels, j);
    AnswersTell(states[j].sessions, x, states[j].now);
    InvGives(states[j], x);
  }

  /** A poll is told Waiting exactly as long as the session waits and its time is not up, and changes nothing then. */
  lemma WaitingIsTold(states: seq<State>, labels: seq<Label>, j: nat, x: string, told: Option<PollClaim>)
    requires IsRun(states, labels) && j < |labels| && labels[j] == Poll(x, told)
    ensures told == Some(Told(Waiting, None, None)) <==> StillWaits(states[j], x)
    ensures StillWaits(states[j], x) ==> states[j + 1].sessions == states[j].sessions
  {
    hide Inv;
    StepOfRun(states, labels, j);
    AnswerOfRun(states, labels, j, x, told);
  }

  /** A poll that may take the credential gets it exactly when one is prepared, and otherwise the same answer. */
  lemma PreparedIsTold(states: seq<State>, labels: seq<Label>, j: nat, x: string, told: Option<PollClaim>)
    requires IsRun(states, labels) && j < |labels| && labels[j] == Claim(x, told)
    ensures told == Some(Told(Waiting, None, None))
            <==> StillWaits(states[j], x) && states[j].sessions[x].pending.None?
    ensures forall r :: told == Some(PreparedLogin(r)) <==> Holds(states[j], x, r)
    ensures forall r :: told == Some(PreparedLogin(r)) ==> states[j + 1].worker == Committing(x, r)
  {
    hide Inv;
    StepOfRun(states, labels, j);
    AnswerOfRun(states, labels, j, x, told);
  }

  // ---------- finished sessions ----------

  /** A finished session stays as it is until it is removed. */
  lemma FinishedStep(s: State, l: Label, s': State, x: string)
    requires Inv(s) && Next(s, l, s') && Finished(s, x)
    ensures x !in s'.sessions || s'.sessions[x] == s.sessions[x]
  {
    hide Next, Concerns, Inv, SessionOk;
    if Concerns(s, l) == Some(x) {
      InvGives(s, x);
      FinishedSameStep(s, l, s', x);
    } else {
      StepElsewhere(s, l, s', x);
    }
  }

  lemma FinishedSameStep(s: State, l: Label, s': State, x: string)
    requires OkFor(s, x) && Next(s, l, s') && Concerns(s, l) == Some(x) && Finished(s, x)
    ensures x !in s'.sessions || s'.sessions[x] == s.sessions[x]
  {
  }

  /** The step ends the login of `x`: with an account, or with an error the worker or the background task met. */
  predicate EndsLogin(s: State, l: Label, x: string, told: PollClaim) {
    || (l.Complete? && s.worker.Committing? && s.worker.x == x && Holds(s, x, s.worker.record)
        && told == Told(Success, None, Some(l.account)))
    || (l.Fail? && s.worker.Committing? && s.worker.x == x && Holds(s, x, s.worker.record)
        && told == Told(Error, Some(l.message), None))
    || (l.Device? && l.x == x && x in s.devices && s.devices[x].Failing?
        && told == Told(Error, Some(s.devices[x].message), None))
  }

  lemma EndingStep(s: State, l: Label, s': State, x: string)
    requires Inv(s) && Next(s, l, s') && Finished(s', x) && !Finished(s, x)
    ensures EndsLogin(s, l, x, Told(s'.sessions[x].phase, s'.sessions[x].error, s'.sessions[x].account))
  {
    hide Next, Concerns, Inv, SessionOk;
    if Concerns(s, l) == Some(x) {
      InvGives(s, x);
      EndingSameStep(s, l, s', x);
    } else {
      StepElsewhere(s, l, s', x);
    }
  }

  lemma EndingSameStep(s: State, l: Label, s': State, x: string)
    requires OkFor(s, x) && Next(s, l, s') && Concerns(s, l) == Some(x) && Finished(s', x) && !Finished(s, x)
    ensures EndsLogin(s, l, x, Told(s'.sessions[x].phase, s'.sessions[x].error, s'.sessions[x].account))
  {
  }

  /** A finished session was ended by one step of the run. */
  lemma {:induction false} WasEnded(states: seq<State>, labels: seq<Label>, j: nat, x: string) returns (i: nat)
    requires IsRun(states, labels) && j < |states| && Finished(states[j], x)
    ensures i < j && x in states[j].sessions
    ensures var ses := states[j].sessions[x];
            EndsLogin(states[i], labels[i], x, Told(ses.phase, ses.error, ses.account))
  {
    hide Next, Inv, Finished, EndsLogin, Holds;
    SomeSession(states[j], x);
    StepOfRunOrStart(states, labels, j);
    if Finished(states[j - 1], x) {
      FinishedStep(states[j - 1], labels[j - 1], states[j], x);
      i := WasEnded(states, labels, j - 1, x);
    } else {
      EndingStep(states[j - 1], labels[j - 1], states[j], x);
      i := j - 1;
    }
  }

  lemma SomeSession(s: State, x: string)
    requires Finished(s, x)
    ensures x in s.sessions && s.sessions != map[]
  {
  }

  /**
   Main theorem: a poll is told that a login succeeded, and with which account, only after a step that completed
   the commit of the credential prepared in that session with that very account.
   */
  lemma SuccessIsToldOnlyWhenCommitted(
    states: seq<State>, labels: seq<Label>, j: nat, x: string, error: Option<string>, account: Option<Id>)
    returns (i: nat)
    requires IsRun(states, labels) && j < |labels| && Answers(labels[j], x, Some(Told(Success, error, account)))
    ensures i < j && labels[i].Complete? && account == Some(labels[i].account) && error.None?
    ensures states[i].worker.Committing? && states[i].worker.x == x && Holds(states[i], x, states[i].worker.record)
  {
    hide Next, Inv, Holds;
    AnswerOfRun(states, labels, j, x, Some(Told(Success, error, account)));
    i := WasEnded(states, labels, j, x);
  }

  /**
   And it is told of a failure only when the session's time is up, or after the step that failed it, with the
   message of that step and no account.
   */
  lemma FailureIsToldOnlyWhenFailed(
    states: seq<State>, labels: seq<Label>, j: nat, x: string, error: Option<string>, account: Option<Id>)
    returns (i: nat)
    requires IsRun(states, labels) && j < |labels| && Answers(labels[j], x, Some(Told(Error, error, account)))
    ensures account.None?
    ensures if HasExpired(states[j], x) then error == Some("xAI device login expired.")
            else i < j && EndsLogin(states[i], labels[i], x, Told(Error, error, account))
  {
    hide Next, Inv, Holds;
    AnswerOfRun(states, labels, j, x, Some(Told(Error, error, account)));
    if HasExpired(states[j], x) {
      i := 0;
    } else {
      i := WasEnded(states, labels, j, x);
    }
  }

  // ---------- the last answer ----------

  lemma LastAnswerRemoves(states: seq<State>, labels: seq<Label>, j: nat, x: string, told: PollClaim)
    requires IsRun(states, labels) && j < |labels| && Answers(labels[j], x, Some(told))
    requires told.Told? && told.phase != Waiting
    ensures Gone(states[j + 1], x)
  {
    hide Inv;
    StepOfRun(states, labels, j);
    AnswerOfRun(states, labels, j, x, Some(told));
  }

  /** The end of a login is told once: every later poll is told that there is no such session. */
  lemma EndIsToldOnce(states: seq<State>, labels: seq<Label>, j: nat, k: nat, x: string, told: PollClaim,
                      again: Option<PollClaim>)
    requires IsRun(states, labels) && j < k < |labels|
    requires Answers(labels[j], x, Some(told)) && told.Told? && told.phase != Waiting
    requires Answers(labels[k], x, again)
    ensures again.None?
  {
    hide Next, Inv;
    LastAnswerRemoves(states, labels, j, x, told);
    GoneForever(states, labels, j + 1, k, x);
    AnswerOfRun(states, labels, k, x, again);
  }

  /** The step may take a finished session out of the map: a poll, a cancel or the clean-up of that session. */
  predicate MayRemove(l: Label, x: string) {
    ((l.Poll? || l.Claim?) && l.x == x) || l == Cancel(x) || l == Sweep(x)
  }

  lemma KeptStep(s: State, l: Label, s': State, x: string)
    requires Inv(s) && Next(s, l, s') && Finished(s, x) && !MayRemove(l, x)
    ensures x in s'.sessions && s'.sessions[x] == s.sessions[x]
  {
    hide Next, Concerns, Inv, SessionOk;
    if Concerns(s, l) == Some(x) {
      InvGives(s, x);
      KeptSameStep(s, l, s', x);
    } else {
      StepElsewhere(s, l, s', x);
    }
  }

  lemma KeptSameStep(s: State, l: Label, s': State, x: string)
    requires OkFor(s, x) && Next(s, l, s') && Concerns(s, l) == Some(x) && Finished(s, x) && !MayRemove(l, x)
    ensures x in s'.sessions && s'.sessions[x] == s.sessions[x]
  {
  }

  lemma {:induction false} Kept(states: seq<State>, labels: seq<Label>, i: nat, j: nat, x: string)
    requires IsRun(states, labels) && i <= j < |states| && Finished(states[i], x)
    requires forall n :: i <= n < j ==> !MayRemove(labels[n], x)
    ensures x in states[j].sessions && states[j].sessions[x] == states[i].sessions[x]
  {
    hide Next, Inv, MayRemove;
    if i < j {
      Kept(states, labels, i, j - 1, x);
      StepOfRun(states, labels, j - 1);
      KeptStep(states[j - 1], labels[j - 1], states[j], x);
    }
  }

  lemma CompletedStep(s: State, l: Label, s': State)
    requires Inv(s) && Next(s, l, s') && l.Complete?
    ensures s.worker.Committing? && s.worker.x in s'.sessions
    ensures var ses := s'.sessions[s.worker.x];
            ses.phase == Success && ses.account == Some(l.account) && ses.error.None?
  {
    hide Inv;
    InvGives(s, s.worker.x);
  }

  /** Until it is told it is kept: the first poll after a completed commit is told the account. */
  lemma CommitIsTold(states: seq<State>, labels: seq<Label>, i: nat, j: nat, x: string, told: Option<PollClaim>)
    requires IsRun(states, labels) && i < j < |labels| && Answers(labels[j], x, told)
    requires labels[i].Complete? && states[i].worker.Committing? && states[i].worker.x == x
    requires forall n :: i < n < j ==> !MayRemove(labels[n], x)
    ensures told == Some(Told(Success, None, Some(labels[i].account)))
  {
    hide Next, Inv, MayRemove;
    StepOfRun(states, labels, i);
    CompletedStep(states[i], labels[i], states[i + 1]);
    Kept(states, labels, i + 1, j, x);
    AnswerOfRun(states, labels, j, x, told);
  }
}
