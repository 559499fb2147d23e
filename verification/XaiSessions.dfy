/** Mutation sessions of the xAI store: what a session works on is its own, and a rollback undoes all of it. */
module XaiSessions {
  import opened Prelude
  import opened XaiHistory
  import opened XaiMachine
  import opened XaiInvariant
  import opened XaiSteps

  /** While a session is open, every operation in the history since its snapshot is its own. */
  lemma SessionIsExclusive(states: seq<State>, labels: seq<Label>, i: nat, t: Tid)
    requires IsRun(states, labels) && i < |states| && t in states[i].tasks
    requires SessionOf(states[i].tasks[t]).Inside?
    ensures var s := states[i]; var ses := SessionOf(s.tasks[t]);
            ses.mark <= |s.log| && ses.base == Replay(s.origin, s.log[..ses.mark])
            && forall k :: ses.mark <= k < |s.log| ==> s.log[k].actor == t
  {
    hide IsRun, Replay, Exclusive, PermitOk, DataOk, PcOk, SessionOf;
    RunKeepsInv(states, labels, i);
    assert SessionOk(states[i], t, SessionOf(states[i].tasks[t]));
  }

  /**
   A rollback ends with table and cache as they were at the snapshot.  All that was committed in between
   is the session's own work, so every other save falls wholly before the snapshot or after the session.
   */
  lemma RollbackGivesTheSnapshotBack(states: seq<State>, labels: seq<Label>, i: nat, t: Tid)
    requires IsRun(states, labels) && i < |labels| && labels[i] == Task(t, Run)
    requires t in states[i].tasks && states[i].tasks[t].RestCache? && states[i].tasks[t].ses.Inside?
    ensures var ses := states[i].tasks[t].ses; var s' := states[i + 1];
            && ses.mark <= |s'.log| && ses.base == Replay(s'.origin, s'.log[..ses.mark])
            && s'.db == ses.base && s'.cache == ses.base
            && forall k :: ses.mark <= k < |s'.log| ==> s'.log[k].actor == t
  {
    hide Next, Replay, Exclusive, PermitOk, DataOk, SessionOk, Good, SessionOf, Ready;
    StepOfRun(states, labels, i);
    assert states[i + 1] == Advance(states[i], t) by { RunAdvances(states[i], t, states[i + 1]); }
    RestoreSession(states[i].tasks[t]);
    SessionIsExclusive(states, labels, i, t);
    assert PcOk(states[i], states[i].tasks[t]);
  }

  lemma RunAdvances(s: State, t: Tid, s': State)
    requires Next(s, Task(t, Run), s')
    ensures t in s.tasks && s' == Advance(s, t)
  {
    hide Advance;
  }

  lemma RestoreSession(pc: Pc)
    ensures pc.RestCache? ==> SessionOf(pc) == pc.ses
  {
  }
}
