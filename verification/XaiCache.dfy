/**
 Cache coherence of the xAI store: saves and deletes drop the cached entry before they write the table,
 so no cancellation leaves an old record behind.
 */
module XaiCache {
  import opened Prelude
  import opened XaiTypes
  import opened XaiMachine
  import opened XaiInvariant
  import opened XaiSteps

  /** Outside a half-done restore every cached entry is the row of the table, in every reachable state. */
  lemma CacheIsCoherent(states: seq<State>, labels: seq<Label>, i: nat)
    requires IsRun(states, labels) && i < |states| && !Restoring(states[i])
    ensures SubMap(states[i].cache, states[i].db)
  {
    hide IsRun, Replay, PcOk;
    RunKeepsInv(states, labels, i);
  }

  lemma RestoreHoldsBoth()
    ensures forall pc: Pc :: pc.RestCache? ==> Provider in Held(pc) && Sync in Held(pc)
  {
  }

  /** A half-done restore freezes what the cache may show. */
  lemma RestoringFreezesShown(s: State, l: Label, s': State)
    requires Inv(s) && Next(s, l, s') && Restoring(s')
    ensures s'.shown == s.shown
  {
    hide Replay, PcOk, Step, PermitOk, WaitOk, Commits, Begins, SessionOk, OwnOk, DataOk, Held;
    if l.Task? {
      var t := l.t;
      StepIsGood(s, t, l.e, s');
      RestoreHoldsBoth();
      var u :| u in s'.tasks && s'.tasks[u].RestCache?;
      if u != t {
        assert t in s.tasks ==> Held(s.tasks[t]) !! Held(s.tasks[u]);
      }
    }
  }

  /** What the cache may show is the table now, or the table as it was when the restore began. */
  lemma {:induction false} ShownIsRecent(states: seq<State>, labels: seq<Label>, i: nat) returns (j: nat)
    requires IsRun(states, labels) && i < |states|
    ensures j <= i && states[j].db == states[i].shown
    ensures forall k :: j < k <= i ==> Restoring(states[k])
  {
    hide Next, Replay, PcOk, PermitOk, Exclusive;
    RunKeepsInv(states, labels, i);
    if !Restoring(states[i]) || i == 0 {
      assert i == 0 ==> !Restoring(states[0]);
      j := i;
    } else {
      RunKeepsInv(states, labels, i - 1);
      assert Next(states[i - 1], labels[i - 1], states[i - 1 + 1]);
      RestoringFreezesShown(states[i - 1], labels[i - 1], states[i]);
      j := ShownIsRecent(states, labels, i - 1);
    }
  }

  /** Task `t` is about to take `r` from the cache, as the result of its load of `id`. */
  predicate Hits(s: State, t: Tid, id: Id, r: Record) {
    t in s.tasks && (s.tasks[t].Load? || s.tasks[t].LoadAgain?) && s.tasks[t].id == id && Get(s.cache, id) == Some(r)
  }

  /**
   A load that began at `a` and takes its record at `i` returns a record the table held during the
   call, unless the whole call fell inside one half-done restore.
   */
  lemma LoadReturnsARowOfTheTable(states: seq<State>, labels: seq<Label>, a: nat, i: nat, t: Tid, id: Id, r: Record)
    requires IsRun(states, labels) && a <= i < |states| && Hits(states[i], t, id, r)
    requires exists k :: a <= k <= i && !Restoring(states[k])
    ensures exists j :: a <= j <= i && Get(states[j].db, id) == Some(r)
  {
    hide Next, Replay, PcOk, PermitOk, Exclusive, Restoring;
    RunKeepsInv(states, labels, i);
    var j := ShownIsRecent(states, labels, i);
    var k :| a <= k <= i && !Restoring(states[k]);
    assert j >= k;
    assert Get(states[j].db, id) == Some(r);
  }

  /** Under the provider gate a load is exact: it finds the row, or there is none. */
  lemma GatedLoadIsExact(states: seq<State>, labels: seq<Label>, i: nat, t: Tid)
    requires IsRun(states, labels) && i < |states| && t in states[i].tasks
    ensures var pc := states[i].tasks[t];
            pc.Load? && Gated(pc.p) && pc.id in states[i].cache
            ==> Get(states[i].cache, pc.id) == Get(states[i].db, pc.id)
    ensures var pc := states[i].tasks[t];
            pc.LoadAgain? && Gated(pc.p) ==> Get(states[i].cache, pc.id) == Get(states[i].db, pc.id)
  {
    hide IsRun, Replay, Effect, MergeImport, PermitOf;
    RunKeepsInv(states, labels, i);
    assert PcOk(states[i], states[i].tasks[t]);
    if states[i].tasks[t].Load? && Gated(states[i].tasks[t].p) {
      HolderSeesTable(states[i], t);
    }
  }
}
