/**
 Rejected tokens of the Codex store: a mark names the token its account has, and it stays until a save of
 another token or a delete lifts it.
 */
module CodexMarks {
  import opened Prelude
  import opened CodexTypes
  import opened CodexMachine
  import opened CodexInvariant
  import opened CodexRules
  import opened CodexSteps
  import opened CodexHistory

  predicate NoRestore(log: seq<Item>) {
    forall i :: 0 <= i < |log| ==> !log[i].entry.Restored?
  }

  /** As long as nothing was restored, a mark names the token of the account as it is now. */
  predicate MarksOk(s: State) {
    NoRestore(s.log) ==>
      && (forall id :: id in s.store.rejAccess ==>
            id in s.store.cache && IsAccess(s.store.cache[id], s.store.rejAccess[id]))
      && (forall id :: id in s.store.rejRefresh ==>
            id in s.store.cache && NamesRefresh(s.store.cache[id], s.store.rejRefresh[id]))
  }

  /** The step from `s` to `s'` completes a save of `id` with another access token, or deletes `id`. */
  predicate LiftsAccess(s: State, s': State, id: Id, token: string) {
    |s'.log| == |s.log| + 1 &&
    match s'.log[|s.log|].entry
    case Deleted(d) => d == id
    case Mutated(i, _) => i == id && id in s'.spec && OtherAccess(s'.spec[id], token)
    case Imported(i, _) => i == id && id in s'.spec && OtherAccess(s'.spec[id], token)
    case Restored(_) => false
  }

  predicate LiftsRefresh(s: State, s': State, id: Id, token: string) {
    |s'.log| == |s.log| + 1 &&
    match s'.log[|s.log|].entry
    case Deleted(d) => d == id
    case Mutated(i, _) => i == id && id in s'.spec && OtherRefresh(s'.spec[id], token)
    case Imported(i, _) => i == id && id in s'.spec && OtherRefresh(s'.spec[id], token)
    case Restored(_) => false
  }

  /** What a completing step writes is what the sequential store gets. */
  lemma CompletionIsLogged(s: State, t: Tid, e: Event, s': State)
    requires Inv(s) && Step(s, t, e, s') && t in s.tasks && Uninterrupted(s.tasks[t])
    ensures s'.log == s.log + [Item(t, Pending(s.tasks[t]).value)]
    ensures s.tasks[t].MutCache? || s.tasks[t].ImpCache? ==> s'.spec == s.spec[s.tasks[t].id := s.tasks[t].next]
  {
    hide Inv, Step, MergeImport, NoTarget, IsTarget;
    StepIsAtomic(s, t, e, s');
    TaskFacts(s, t);
  }

  /** Marks follow the cache through every kind of step but a restore. */
  lemma MarkStepKeepsMarks(s: State, t: Tid, s': State)
    requires MarksOk(s) && NoRestore(s.log) && MarkStep(s, t, s') && !(t in s.tasks && s.tasks[t].RestCache?)
    ensures MarksOk(s')
  {
  }

  /** A mark that is gone after a step was lifted by a save of another token or by a delete. */
  lemma MarkStepLifts(s: State, t: Tid, s': State, id: Id)
    requires MarksOk(s) && NoRestore(s.log) && MarkStep(s, t, s') && !(t in s.tasks && s.tasks[t].RestCache?)
    ensures id in s.store.rejAccess && Get(s'.store.rejAccess, id) != Some(s.store.rejAccess[id]) ==>
              t in s.tasks &&
              (s.tasks[t] == DelCache(id)
               || ((s.tasks[t].MutCache? || s.tasks[t].ImpCache?) && s.tasks[t].id == id
                   && OtherAccess(s.tasks[t].next, s.store.rejAccess[id])))
    ensures id in s.store.rejRefresh && Get(s'.store.rejRefresh, id) != Some(s.store.rejRefresh[id])
            && s.store.cache[id].credential.Oauth? ==>
              t in s.tasks &&
              (s.tasks[t] == DelCache(id)
               || ((s.tasks[t].MutCache? || s.tasks[t].ImpCache?) && s.tasks[t].id == id
                   && OtherRefresh(s.tasks[t].next, s.store.rejRefresh[id])))
  {
  }

  /** A step that logs no restore is not the cache half of a restore. */
  lemma NotRestoring(s: State, t: Tid, e: Event, s': State)
    requires Inv(s) && Step(s, t, e, s')
    ensures NoRestore(s'.log) ==> NoRestore(s.log)
    ensures t in s.tasks && s.tasks[t].RestCache? ==> !NoRestore(s'.log)
  {
    hide Inv, Step, Replay, Perform;
    StepIsAtomic(s, t, e, s');
    if NoRestore(s'.log) {
      NoRestorePrefix(s.log, s'.log);
    }
    if t in s.tasks && s.tasks[t].RestCache? {
      CompletionIsLogged(s, t, e, s');
      assert s'.log[|s.log|].entry.Restored?;
    }
  }

  lemma StepKeepsMarks(s: State, t: Tid, e: Event, s': State)
    requires Inv(s) && MarksOk(s) && Step(s, t, e, s')
    ensures MarksOk(s')
  {
    hide Inv, Step, MarkStep;
    if NoRestore(s'.log) {
      NotRestoring(s, t, e, s');
      StepGood(s, t, e, s');
      MarkStepKeepsMarks(s, t, s');
    }
  }

  lemma NoRestorePrefix(log: seq<Item>, longer: seq<Item>)
    requires NoRestore(longer) && log <= longer
    ensures NoRestore(log)
  {
    assert forall i :: 0 <= i < |log| ==> longer[i] == log[i];
  }

  lemma {:induction false} RunKeepsMarks(states: seq<State>, labels: seq<Label>, i: nat)
    requires IsRun(states, labels) && i < |states|
    ensures MarksOk(states[i])
  {
    if i > 0 {
      RunKeepsMarks(states, labels, i - 1);
      RunKeepsInv(states, labels, i - 1);
      assert Next(states[i - 1], labels[i - 1], states[i - 1 + 1]);
      match labels[i - 1]
      case Task(t, e) => StepKeepsMarks(states[i - 1], t, e, states[i]);
      case Tick(_) =>
    }
  }

  /** A mark on an access token leaves only with a save of another token or a delete. */
  lemma AccessMarkStays(s: State, t: Tid, e: Event, s': State, id: Id)
    requires Inv(s) && MarksOk(s) && Step(s, t, e, s') && NoRestore(s'.log) && id in s.store.rejAccess
    ensures Get(s'.store.rejAccess, id) == Some(s.store.rejAccess[id])
            || LiftsAccess(s, s', id, s.store.rejAccess[id])
  {
    hide Inv, Step, MarkStep, MarksOk, OtherAccess;
    NotRestoring(s, t, e, s');
    StepGood(s, t, e, s');
    MarkStepLifts(s, t, s', id);
    if Get(s'.store.rejAccess, id) != Some(s.store.rejAccess[id]) {
      CompletionIsLogged(s, t, e, s');
    }
  }

  /** The same for refresh tokens of accounts that are OAuth accounts at the time. */
  lemma RefreshMarkStays(s: State, t: Tid, e: Event, s': State, id: Id)
    requires Inv(s) && MarksOk(s) && Step(s, t, e, s') && NoRestore(s'.log) && id in s.store.rejRefresh
    requires id in s.store.cache && s.store.cache[id].credential.Oauth?
    ensures Get(s'.store.rejRefresh, id) == Some(s.store.rejRefresh[id])
            || LiftsRefresh(s, s', id, s.store.rejRefresh[id])
  {
    hide Inv, Step, MarkStep, MarksOk, OtherRefresh;
    NotRestoring(s, t, e, s');
    StepGood(s, t, e, s');
    MarkStepLifts(s, t, s', id);
    if Get(s'.store.rejRefresh, id) != Some(s.store.rejRefresh[id]) {
      CompletionIsLogged(s, t, e, s');
    }
  }

  /** Over a whole stretch of a run: without a lifting step, the mark is still there at the end. */
  lemma {:induction false} AccessMarkPersists(
    states: seq<State>, labels: seq<Label>, i: nat, j: nat, id: Id, token: string)
    requires IsRun(states, labels) && i <= j < |states| && NoRestore(states[j].log)
    requires Get(states[i].store.rejAccess, id) == Some(token)
    requires forall n :: i <= n < j ==> !LiftsAccess(states[n], states[n + 1], id, token)
    ensures Get(states[j].store.rejAccess, id) == Some(token)
  {
    hide Inv, Step, LiftsAccess;
    if i < j {
      LogGrows(states, labels, j - 1, j);
      NoRestorePrefix(states[j - 1].log, states[j].log);
      AccessMarkPersists(states, labels, i, j - 1, id, token);
      RunKeepsInv(states, labels, j - 1);
      RunKeepsMarks(states, labels, j - 1);
      assert Next(states[j - 1], labels[j - 1], states[j - 1 + 1]);
      assert !LiftsAccess(states[j - 1], states[j - 1 + 1], id, token);
      match labels[j - 1]
      case Task(t, e) => AccessMarkStays(states[j - 1], t, e, states[j], id);
      case Tick(_) =>
    }
  }

  lemma {:induction false} RefreshMarkPersists(
    states: seq<State>, labels: seq<Label>, i: nat, j: nat, id: Id, token: string)
    requires IsRun(states, labels) && i <= j < |states| && NoRestore(states[j].log)
    requires Get(states[i].store.rejRefresh, id) == Some(token)
    requires forall n :: i <= n < j ==> !LiftsRefresh(states[n], states[n + 1], id, token)
    requires forall n :: i <= n < j && id in states[n].store.cache ==> states[n].store.cache[id].credential.Oauth?
    ensures Get(states[j].store.rejRefresh, id) == Some(token)
  {
    hide Inv, Step, LiftsRefresh;
    if i < j {
      LogGrows(states, labels, j - 1, j);
      NoRestorePrefix(states[j - 1].log, states[j].log);
      RefreshMarkPersists(states, labels, i, j - 1, id, token);
      RunKeepsInv(states, labels, j - 1);
      RunKeepsMarks(states, labels, j - 1);
      assert Next(states[j - 1], labels[j - 1], states[j - 1 + 1]);
      assert !LiftsRefresh(states[j - 1], states[j - 1 + 1], id, token);
      match labels[j - 1]
      case Task(t, e) => RefreshMarkStays(states[j - 1], t, e, states[j], id);
      case Tick(_) =>
    }
  }
}
