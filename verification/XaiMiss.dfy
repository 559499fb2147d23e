/**
 When a load reports an account as missing although its row is there all the time: exactly when it does
 not run under the provider gate.  A reload then leaves a gap before the second look, in which a save of
 another task may empty the cache entry.
 */
module XaiMiss {
  import opened Prelude
  import opened XaiCache
  import opened XaiInvariant
  import opened XaiMachine
  import opened XaiPaths
  import opened XaiQuota
  import opened XaiTypes

  // ---------- the property ----------

  /** The load of `id` that task `t` begins at `a` ends with the last step and finds nothing, with the row there. */
  ghost predicate Misses(states: seq<State>, labels: seq<Label>, a: nat, t: Tid, id: Id, p: Purpose) {
    var last := |labels| - 1;
    && IsRun(states, labels) && a <= last && labels[last] == Task(t, Run)
    && t in states[a].tasks && states[a].tasks[t] == Load(id, p)
    && t in states[last].tasks && states[last].tasks[t] == LoadAgain(id, p) && id !in states[last].cache
    && (forall k :: a <= k <= last ==> LoadGoesOn(states[k], t, id, p))
    && (forall k :: a <= k < |states| ==> id in states[k].db)
  }

  /** From `a` on nothing is committed, deleted or restored, and nothing fails or is dropped. */
  ghost predicate OnlySteps(states: seq<State>, labels: seq<Label>, a: nat)
    requires |states| == |labels| + 1
  {
    && (forall k :: a <= k < |states| ==> states[k].db == states[a].db && states[k].log == states[a].log)
    && forall k :: a <= k < |labels| ==> labels[k].Task? && (labels[k].e.Run? || labels[k].e.Spawn?)
  }

  /** Some run has a task that begins a load of `id` for `p`. */
  ghost predicate Begun(states: seq<State>, labels: seq<Label>, t: Tid, id: Id, p: Purpose) {
    IsRun(states, labels) && t in states[|labels|].tasks && states[|labels|].tasks[t] == Load(id, p)
  }

  ghost predicate Enterable(p: Purpose) {
    exists states, labels, t, id :: Begun(states, labels, t, id, p)
  }

  // ---------- bringing the account in ----------

  const ANY_RECORD := Record("", "", "", "", At(0), None, None, None, None, false, Active, EMPTY)

  function RestorePc(id: Id, k: nat): Pc
    requires k < 6
  {
    var target := One(id, Some(ANY_RECORD));
    [RestProvider(target), RestOrder(target, Alone), RestWait(target, Alone), RestDb(target, Alone),
     RestCache(target, Alone), Done(Nothing)][k]
  }

  function RestoreState(s: State, v: Tid, id: Id, k: nat): State
    requires k < 6
  {
    var db := s.db[id := ANY_RECORD];
    var log := s.log + [Item(v, Restored(One(id, Some(ANY_RECORD))))];
    Move(if k < 4 then s
         else if k == 4 then s.(db := db, log := log)
         else s.(db := db, log := log, shown := db, cache := s.cache[id := ANY_RECORD]),
         v, RestorePc(id, k))
  }

  lemma RestoreWaits(s: State, v: Tid, id: Id, k: nat)
    requires k < 3
    ensures Advance(RestoreState(s, v, id, k), v) == RestoreState(s, v, id, k + 1)
  {
    hide Resume, StepLoad, StepFill, StepSaveDb, AfterSave, StepDelDb, StepImpAccount, StepRestDb, StepRestCache;
    MovesOn(s, v, RestorePc(id, k), RestorePc(id, k + 1));
  }

  lemma RestoreWrites(s: State, v: Tid, id: Id)
    ensures Advance(RestoreState(s, v, id, 3), v) == RestoreState(s, v, id, 4)
  {
    hide Resume, StepLoad, StepFill, StepSaveDb, AfterSave, StepDelDb, StepImpAccount, StepRestCache;
    MovesOn(s, v, RestorePc(id, 3), RestorePc(id, 4));
  }

  lemma RestoreShows(s: State, v: Tid, id: Id)
    ensures Advance(RestoreState(s, v, id, 4), v) == RestoreState(s, v, id, 5)
  {
    hide Resume, StepLoad, StepFill, StepSaveDb, AfterSave, StepDelDb, StepImpAccount, StepRestDb;
    MovesOn(s, v, RestorePc(id, 4), RestorePc(id, 5));
  }

  lemma RestoreStep(s: State, v: Tid, id: Id, k: nat)
    requires Calm(s) && v !in s.tasks && k < 5
    ensures Next(RestoreState(s, v, id, k), Task(v, Run), RestoreState(s, v, id, k + 1))
  {
    hide Free, Calm, Ready, Next, Advance, RestoreState;
    RestoreIsReady(s, v, id, k);
    RunsNext(RestoreState(s, v, id, k), v);
    if k < 3 {
      RestoreWaits(s, v, id, k);
    } else if k == 3 {
      RestoreWrites(s, v, id);
    } else {
      RestoreShows(s, v, id);
    }
  }

  lemma RestoreIsReady(s: State, v: Tid, id: Id, k: nat)
    requires Calm(s) && v !in s.tasks && k < 5
    ensures Ready(RestoreState(s, v, id, k), v)
  {
    hide Free;
    CalmFreesAccounts(s, id);
    var m := RestoreState(s, v, id, k);
    if Wants(m.tasks[v]).Some? {
      FreeAfterMove(s, m, v, Wants(m.tasks[v]).value);
    }
  }

  /** A restore of the account, run by a new task from start to end. */
  lemma BringIn(states: seq<State>, labels: seq<Label>, id: Id) returns (ss: seq<State>, ls: seq<Label>)
    requires IsRun(states, labels) && Calm(End(states))
    ensures IsRun(ss, ls) && Calm(End(ss)) && id in End(ss).db
    ensures forall t :: t in End(states).tasks
                        ==> t in End(ss).tasks && End(ss).tasks[t] == End(states).tasks[t]
  {
    hide Next, Init, Held, Calm;
    var s := End(states);
    var v := FreshId(s.tasks.Keys);
    var more := seq(6, k requires 0 <= k < 6 => RestoreState(s, v, id, k));
    var first := Task(v, Spawn(RestorePc(id, 0)));
    var steps := [first] + seq(5, _ => Task(v, Run));
    assert Next(s, first, more[0]) by { SpawnsNext(s, v, RestorePc(id, 0)); }
    forall k | 0 <= k < 5 ensures Next(more[k], steps[k + 1], more[k + 1]) {
      RestoreStep(s, v, id, k);
    }
    Append(states, labels, more, steps);
    ss, ls := states + more, labels + steps;
    assert End(ss) == more[5];
    DoneStaysCalm(s, more[5], v);
  }

  // ---------- a save that drops the cached entry ----------

  /** A new task changes the user's setting, and has just dropped the cached entry. */
  lemma DropEntry(states: seq<State>, labels: seq<Label>, id: Id)
    returns (ss: seq<State>, ls: seq<Label>, v: Tid)
    requires IsRun(states, labels) && Calm(End(states))
    requires Get(End(states).db, id) == Get(End(states).cache, id) && id in End(states).db
    ensures IsRun(ss, ls) && |ss| == |states| + 6 && states <= ss && labels <= ls
    ensures v !in End(states).tasks && v in End(ss).tasks && End(ss).tasks[v].SaveDb? && id !in End(ss).cache
    ensures forall k :: |states| <= k < |ss| ==>
              && v in ss[k].tasks && ss[k].tasks == End(states).tasks[v := ss[k].tasks[v]]
              && ss[k].db == End(states).db && ss[k].log == End(states).log
    ensures forall k :: |labels| <= k < |ls| ==> ls[k].Task? && (ls[k].e.Run? || ls[k].e.Spawn?)
  {
    hide Next, Init, Calm;
    var s := End(states);
    v := FreshId(s.tasks.Keys);
    var more := seq(6, k requires 0 <= k < 6 => WriterState(s, v, id, SetAuto(true), Direct, k));
    var first := Task(v, Spawn(UpdProvider(id, SetAuto(true), Direct)));
    var steps := [first] + seq(5, _ => Task(v, Run));
    assert Next(s, first, more[0]) by { SpawnsNext(s, v, UpdProvider(id, SetAuto(true), Direct)); }
    forall k | 0 <= k < 5 ensures Next(more[k], steps[k + 1], more[k + 1]) {
      WriterStep(s, v, id, SetAuto(true), Direct, k);
    }
    Append(states, labels, more, steps);
    ss, ls := states + more, labels + steps;
    assert End(ss) == more[5];
    assert forall k :: |states| <= k < |ss| ==> ss[k] == more[k - |states|];
  }

  /** The entry is not cached, and nobody holds a lock that matters. */
  lemma Uncache(states: seq<State>, labels: seq<Label>, id: Id) returns (ss: seq<State>, ls: seq<Label>)
    requires IsRun(states, labels) && Calm(End(states)) && id in End(states).db
    ensures IsRun(ss, ls) && Calm(End(ss)) && id in End(ss).db && id !in End(ss).cache
    ensures forall t :: t in End(states).tasks
                        ==> t in End(ss).tasks && End(ss).tasks[t] == End(states).tasks[t]
  {
    hide Next, Init, Calm, PermitOf, Held;
    ss, ls := states, labels;
    var s := End(states);
    if id in s.cache {
      CalmIsCoherent(states, labels);
      var v;
      ss, ls, v := DropEntry(states, labels, id);
      var m := End(ss);
      assert m == ss[|ss| - 1];
      var s' := Cancelled(m, v);
      assert Next(m, Task(v, Cancel), s') by { CancelsNext(m, v); }
      Push(ss, ls, Task(v, Cancel), s');
      ss, ls := ss + [s'], ls + [Task(v, Cancel)];
      assert s'.tasks == s.tasks[v := s'.tasks[v]];
      DoneStaysCalm(s, s', v);
    }
  }

  lemma CancelsNext(s: State, v: Tid)
    requires v in s.tasks && s.tasks[v].SaveDb?
    ensures Next(s, Task(v, Cancel), Cancelled(s, v))
    ensures Cancelled(s, v).db == s.db && Cancelled(s, v).cache == s.cache
  {
  }

  // ---------- the miss ----------

  lemma LooksAgain(s: State, t: Tid, id: Id, p: Purpose)
    requires t in s.tasks && s.tasks[t] == LoadAgain(id, p) && id !in s.cache && !Gated(p)
    ensures Next(s, Task(t, Run), Resume(s, t, id, p, None))
    ensures Resume(s, t, id, p, None).db == s.db && Resume(s, t, id, p, None).log == s.log
  {
    hide Wants;
    LoadsWaitForNothing(id, p);
  }

  /** Without touching the task, the account is brought in and its cached entry dropped. */
  lemma Prepare(states: seq<State>, labels: seq<Label>, t: Tid, id: Id, p: Purpose)
    returns (ss: seq<State>, ls: seq<Label>)
    requires Begun(states, labels, t, id, p) && !Gated(p)
    ensures Begun(ss, ls, t, id, p) && Calm(End(ss)) && id in End(ss).db && id !in End(ss).cache
  {
    hide Next, Init, Calm, Held, Gated;
    LoadsWaitForNothing(id, p);
    assert End(states) == states[|labels|];
    ss, ls := MakeCalm(states, labels);
    if id !in End(ss).db {
      ss, ls := BringIn(ss, ls, id);
    }
    ss, ls := Uncache(ss, ls, id);
    RunShape(ss, ls);
  }

  /** From any state in which a load outside the gate is about to begin, some run goes on to miss the row. */
  lemma UngatedLoadMisses(states: seq<State>, labels: seq<Label>, t: Tid, id: Id, p: Purpose)
    returns (ss: seq<State>, ls: seq<Label>, a: nat)
    requires Begun(states, labels, t, id, p) && !Gated(p)
    ensures Misses(ss, ls, a, t, id, p) && OnlySteps(ss, ls, a)
  {
    hide Next, Init, Calm, Held, Gated, Resume;
    ss, ls := Prepare(states, labels, t, id, p);
    a := |ls|;
    assert End(ss) == ss[a];
    ss, ls := Reload(ss, ls, t, id, p);
    RunShape(ss, ls);
    var v;
    ss, ls, v := DropEntry(ss, ls, id);
    RunShape(ss, ls);
    var m := End(ss);
    assert m == ss[|ss| - 1];
    LooksAgain(m, t, id, p);
    Push(ss, ls, Task(t, Run), Resume(m, t, id, p, None));
    ss, ls := ss + [Resume(m, t, id, p, None)], ls + [Task(t, Run)];
  }

  lemma GatedLoadNeverMisses(states: seq<State>, labels: seq<Label>, a: nat, t: Tid, id: Id, p: Purpose)
    requires Gated(p)
    ensures !Misses(states, labels, a, t, id, p)
  {
    hide IsRun, Gated;
    if Misses(states, labels, a, t, id, p) {
      RunShape(states, labels);
      GatedLoadIsExact(states, labels, |labels| - 1, t);
    }
  }

  /**
   Whatever a load is made for: no run has it report an account as missing whose row is there all the
   time, if and only if it is made under the provider gate.  If it is not, such a run exists in which
   nothing is committed, deleted, restored or dropped while the load is on its way.
   */
  lemma LoadIsExactIffGated(p: Purpose)
    requires Enterable(p)
    ensures Gated(p) <==> forall states, labels, a, t, id :: !Misses(states, labels, a, t, id, p)
    ensures !Gated(p) ==> exists states, labels, a, t, id ::
              Misses(states, labels, a, t, id, p) && OnlySteps(states, labels, a)
  {
    hide Misses, OnlySteps, Gated, IsRun;
    if Gated(p) {
      forall states, labels, a, t, id ensures !Misses(states, labels, a, t, id, p) {
        GatedLoadNeverMisses(states, labels, a, t, id, p);
      }
    } else {
      var states, labels, t, id :| Begun(states, labels, t, id, p);
      var ss, ls, a := UngatedLoadMisses(states, labels, t, id, p);
    }
  }
}
