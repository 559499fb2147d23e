/** Building runs of the xAI store: extending a run by steps, and the steps of loads and of locked updates. */
module XaiPaths {
  import opened Prelude
  import opened XaiCache
  import opened XaiInvariant
  import opened XaiMachine
  import opened XaiSteps
  import opened XaiTypes

  // ---------- extending runs ----------

  function End(states: seq<State>): State
    requires states != []
  {
    states[|states| - 1]
  }

  lemma Push(states: seq<State>, labels: seq<Label>, l: Label, s': State)
    requires IsRun(states, labels) && Next(End(states), l, s')
    ensures IsRun(states + [s'], labels + [l])
  {
    hide Next, Init;
    var ss, ls := states + [s'], labels + [l];
    forall i | 0 <= i < |ls| ensures Next(ss[i], ls[i], ss[i + 1]) {
      if i < |labels| {
        assert Next(states[i], labels[i], states[i + 1]);
      }
    }
  }

  lemma Append(states: seq<State>, labels: seq<Label>, more: seq<State>, steps: seq<Label>)
    requires IsRun(states, labels) && |more| == |steps| > 0 && Next(End(states), steps[0], more[0])
    requires forall k :: 0 <= k < |more| - 1 ==> Next(more[k], steps[k + 1], more[k + 1])
    ensures IsRun(states + more, labels + steps)
  {
    hide Next, Init;
    var ss, ls := states + more, labels + steps;
    forall i | 0 <= i < |ls| ensures Next(ss[i], ls[i], ss[i + 1]) {
      if i < |labels| {
        assert Next(states[i], labels[i], states[i + 1]);
      } else if i > |labels| {
        var k := i - |labels| - 1;
        assert Next(more[k], steps[k + 1], more[k + 1]);
      }
    }
  }

  lemma {:induction false} FreshId(ids: set<Tid>) returns (t: Tid)
    ensures t !in ids && forall u :: u in ids ==> u < t
  {
    if ids == {} {
      t := 0;
    } else {
      var u :| u in ids;
      var v := FreshId(ids - {u});
      assert forall w :: w in ids ==> w == u || w in ids - {u};
      t := if u < v then v else u + 1;
    }
  }

  // ---------- a state in which nobody holds a lock that matters ----------

  predicate Calm(s: State) {
    Free(s, Provider) && Free(s, Sync)
  }

  lemma AccountsUnderProvider(pc: Pc, id: Id)
    ensures Account(id) in Held(pc) ==> Provider in Held(pc)
  {
  }

  lemma CalmFreesAccounts(s: State, id: Id)
    requires Calm(s)
    ensures Free(s, Account(id))
  {
    hide Held;
    forall t | t in s.tasks ensures Account(id) !in Held(s.tasks[t]) {
      AccountsUnderProvider(s.tasks[t], id);
    }
  }

  lemma FreeAfterMove(s: State, s': State, t: Tid, l: Lock)
    requires Free(s, l) && t in s'.tasks && s'.tasks == s.tasks[t := s'.tasks[t]] && l !in Held(s'.tasks[t])
    ensures Free(s', l)
  {
    hide Held;
  }

  lemma RunsNext(s: State, t: Tid)
    requires Ready(s, t)
    ensures Next(s, Task(t, Run), Advance(s, t))
  {
    hide Advance, Ready;
    assert t in s.tasks by { ReadyExists(s, t); }
  }

  lemma ReadyExists(s: State, t: Tid)
    requires Ready(s, t)
    ensures t in s.tasks
  {
  }

  /** Any unfinished task can be ended at once: dropped, or run on when it is past the point of no return. */
  lemma EndsAtOnce(s: State, u: Tid) returns (e: Event, s': State)
    requires u in s.tasks && !s.tasks[u].Done?
    ensures Step(s, u, e, s') && u in s'.tasks && s'.tasks[u].Done? && s'.tasks == s.tasks[u := s'.tasks[u]]
  {
    hide Install, PermitOf;
    if s.tasks[u].RestCache? {
      e, s' := Run, StepRestCache(s, u, s.tasks[u].target);
      assert Wants(s.tasks[u]).None?;
    } else {
      e, s' := Cancel, Cancelled(s, u);
    }
  }

  lemma HoldersAreUnfinished(pc: Pc, l: Lock)
    requires l in Held(pc)
    ensures !pc.Done?
  {
  }

  /** At most one step makes a lock free. */
  lemma FreeUp(states: seq<State>, labels: seq<Label>, l: Lock) returns (ss: seq<State>, ls: seq<Label>)
    requires IsRun(states, labels)
    ensures IsRun(ss, ls) && Free(End(ss), l)
    ensures forall m :: Free(End(states), m) ==> Free(End(ss), m)
    ensures forall t :: t in End(states).tasks && Held(End(states).tasks[t]) == {}
                        ==> t in End(ss).tasks && End(ss).tasks[t] == End(states).tasks[t]
  {
    hide Next, Held, Init, PermitOk, DataOk, PcOk, SessionOk;
    ss, ls := states, labels;
    var s := End(states);
    if !Free(s, l) {
      var u :| u in s.tasks && l in Held(s.tasks[u]);
      HoldersAreUnfinished(s.tasks[u], l);
      var e, s' := EndsAtOnce(s, u);
      assert Next(s, Task(u, e), s') by { StepsAreNext(s, u, e, s'); }
      Push(states, labels, Task(u, e), s');
      ss, ls := states + [s'], labels + [Task(u, e)];
      RunKeepsInv(states, labels, |states| - 1);
      DoneIsFree(s'.tasks[u]);
      forall v | v in s.tasks && v != u ensures l !in Held(s.tasks[v]) {
        assert Held(s.tasks[v]) !! Held(s.tasks[u]);
      }
    }
  }

  lemma StepsAreNext(s: State, t: Tid, e: Event, s': State)
    requires Step(s, t, e, s')
    ensures Next(s, Task(t, e), s')
  {
  }

  lemma DoneIsFree(pc: Pc)
    requires pc.Done?
    ensures Held(pc) == {}
  {
  }

  lemma MakeCalm(states: seq<State>, labels: seq<Label>) returns (ss: seq<State>, ls: seq<Label>)
    requires IsRun(states, labels)
    ensures IsRun(ss, ls) && Calm(End(ss))
    ensures forall t :: t in End(states).tasks && Held(End(states).tasks[t]) == {}
                        ==> t in End(ss).tasks && End(ss).tasks[t] == End(states).tasks[t]
  {
    hide Next, Init, Held, Free;
    ss, ls := FreeUp(states, labels, Provider);
    ss, ls := FreeUp(ss, ls, Sync);
  }

  lemma MovesOn(s: State, v: Tid, pc: Pc, pc': Pc)
    ensures Move(Move(s, v, pc), v, pc') == Move(s, v, pc')
    ensures s.tasks[v := pc][v := pc'] == s.tasks[v := pc']
  {
    assert s.tasks[v := pc][v := pc'] == s.tasks[v := pc'];
  }

  lemma SpawnsNext(s: State, v: Tid, pc: Pc)
    requires v !in s.tasks && Initial(pc)
    ensures Next(s, Task(v, Spawn(pc)), Move(s, v, pc))
  {
  }

  lemma DoneStaysCalm(s: State, s': State, v: Tid)
    requires Calm(s) && v in s'.tasks && s'.tasks[v].Done? && s'.tasks == s.tasks[v := s'.tasks[v]]
    ensures Calm(s')
  {
    hide Free;
    FreeAfterMove(s, s', v, Provider);
    FreeAfterMove(s, s', v, Sync);
  }

  lemma RunShape(states: seq<State>, labels: seq<Label>)
    requires IsRun(states, labels)
    ensures |states| == |labels| + 1
  {
  }

  lemma CalmIsCoherent(states: seq<State>, labels: seq<Label>)
    requires IsRun(states, labels) && Calm(End(states))
    ensures SubMap(End(states).cache, End(states).db)
  {
    hide Next, Held, Init;
    var s := End(states);
    forall t | t in s.tasks ensures !s.tasks[t].RestCache? {
      RestoreHoldsBoth();
    }
    CacheIsCoherent(states, labels, |states| - 1);
  }

  // ---------- a locked update up to the point where the cached entry is gone ----------

  function WriterPc(s: State, id: Id, u: Update, via: By, k: nat): Pc
    requires k < 6 && id in s.db && Effect(u, s.db[id], s.now).Write?
  {
    var save := Save(id, Effect(u, s.db[id], s.now).record, BecauseUpdate(u, s.now, via));
    [UpdProvider(id, u, via), UpdAccount(id, u, via), Load(id, ForUpdate(u, via)), SaveWait(save), SaveEvict(save),
     SaveDb(save)][k]
  }

  function WriterState(s: State, v: Tid, id: Id, u: Update, via: By, k: nat): State
    requires k < 6 && id in s.db && Effect(u, s.db[id], s.now).Write?
  {
    Move(if k < 5 then s else s.(cache := s.cache - {id}), v, WriterPc(s, id, u, via, k))
  }

  lemma WriterIsReady(s: State, v: Tid, id: Id, u: Update, via: By, k: nat)
    requires Calm(s) && id in s.db && Effect(u, s.db[id], s.now).Write? && k < 5
    ensures Ready(WriterState(s, v, id, u, via, k), v)
  {
    hide Free, Effect;
    CalmFreesAccounts(s, id);
    var m := WriterState(s, v, id, u, via, k);
    if Wants(m.tasks[v]).Some? {
      FreeAfterMove(s, m, v, Wants(m.tasks[v]).value);
    }
  }

  lemma WriterStep(s: State, v: Tid, id: Id, u: Update, via: By, k: nat)
    requires Calm(s) && id in s.db && Effect(u, s.db[id], s.now).Write? && Get(s.db, id) == Get(s.cache, id) && k < 5
    ensures Next(WriterState(s, v, id, u, via, k), Task(v, Run), WriterState(s, v, id, u, via, k + 1))
  {
    hide Free, Calm, Held, Ready, Next, StepFill, StepSaveDb, AfterSave, StepDelDb, StepImpAccount, StepRestDb,
      StepRestCache, StepStart, EndUpdate, EndImport, Effect;
    var m := WriterState(s, v, id, u, via, k);
    WriterIsReady(s, v, id, u, via, k);
    RunsNext(m, v);
    assert Move(m, v, WriterPc(s, id, u, via, k + 1)).tasks == s.tasks[v := WriterPc(s, id, u, via, k + 1)];
  }

  // ---------- a load ----------

  predicate LoadGoesOn(s: State, t: Tid, id: Id, p: Purpose) {
    t in s.tasks
    && match s.tasks[t]
       case Load(i, q) => i == id && q == p
       case LoadAgain(i, q) => i == id && q == p
       case ReloadWait(job) => job == JobLoad(id, p)
       case ReloadList(job) => job == JobLoad(id, p)
       case ReloadFill(job, _) => job == JobLoad(id, p)
       case _ => false
  }

  function ReaderState(s: State, t: Tid, id: Id, p: Purpose, k: nat): State
    requires k < 4
  {
    var job := JobLoad(id, p);
    Move(if k < 3 then s else s.(cache := s.db), t,
         [ReloadWait(job), ReloadList(job), ReloadFill(job, s.db), LoadAgain(id, p)][k])
  }

  lemma ReaderStep(s: State, t: Tid, id: Id, p: Purpose, k: nat)
    requires Calm(s) && !Gated(p) && t in s.tasks && k < 3
    ensures Next(ReaderState(s, t, id, p, k), Task(t, Run), ReaderState(s, t, id, p, k + 1))
  {
    hide Free, Calm, Held, Ready, Next, Resume, StepLoad, StepSaveDb, AfterSave, StepDelDb, StepImpAccount, StepRestDb,
      StepRestCache;
    var m, m' := ReaderState(s, t, id, p, k), ReaderState(s, t, id, p, k + 1);
    ReaderIsReady(s, t, id, p, k);
    RunsNext(m, t);
    assert Move(m, t, m'.tasks[t]).tasks == s.tasks[t := m'.tasks[t]];
  }

  lemma ReaderIsReady(s: State, t: Tid, id: Id, p: Purpose, k: nat)
    requires Calm(s) && !Gated(p) && t in s.tasks && k < 3
    ensures Ready(ReaderState(s, t, id, p, k), t)
  {
    hide Free;
    var m := ReaderState(s, t, id, p, k);
    if k == 0 {
      FreeAfterMove(s, m, t, Sync);
    }
  }

  lemma LoadsWaitForNothing(id: Id, p: Purpose)
    ensures Wants(Load(id, p)).None? && Wants(LoadAgain(id, p)).None?
    ensures !Gated(p) ==> Held(Load(id, p)) == {} && Held(LoadAgain(id, p)) == {}
  {
  }

  lemma ReaderStarts(s: State, t: Tid, id: Id, p: Purpose)
    requires t in s.tasks && s.tasks[t] == Load(id, p) && id !in s.cache
    ensures Next(s, Task(t, Run), ReaderState(s, t, id, p, 0))
  {
    hide Wants, Resume;
    LoadsWaitForNothing(id, p);
  }

  /** The load misses the cache and reloads it; the second look is still to come. */
  lemma Reload(states: seq<State>, labels: seq<Label>, t: Tid, id: Id, p: Purpose)
    returns (ss: seq<State>, ls: seq<Label>)
    requires IsRun(states, labels) && Calm(End(states)) && !Gated(p)
    requires t in End(states).tasks && End(states).tasks[t] == Load(id, p) && id !in End(states).cache
    ensures IsRun(ss, ls) && |ss| == |states| + 4 && states <= ss && labels <= ls && Calm(End(ss))
    ensures t in End(ss).tasks && End(ss).tasks[t] == LoadAgain(id, p) && End(ss).cache == End(ss).db
    ensures End(ss) == Move(End(states).(cache := End(states).db), t, LoadAgain(id, p))
    ensures forall k :: |states| <= k < |ss| ==>
              LoadGoesOn(ss[k], t, id, p) && ss[k].db == End(states).db && ss[k].log == End(states).log
    ensures forall k :: |labels| <= k < |ls| ==> ls[k].Task? && ls[k].e.Run?
  {
    hide Next, Init, Calm, Held, Gated;
    var s := End(states);
    var more := seq(4, k requires 0 <= k < 4 => ReaderState(s, t, id, p, k));
    var steps := seq(4, _ => Task(t, Run));
    ReaderStarts(s, t, id, p);
    forall k | 0 <= k < 3 ensures Next(more[k], steps[k + 1], more[k + 1]) {
      ReaderStep(s, t, id, p, k);
    }
    Append(states, labels, more, steps);
    ss, ls := states + more, labels + steps;
    assert End(ss) == more[3];
    assert forall k :: |states| <= k < |ss| ==> ss[k] == more[k - |states|];
    LoadsWaitForNothing(id, p);
    assert Calm(more[3]) by { LooksStayCalm(s, more[3], t); }
  }

  lemma LooksStayCalm(s: State, s': State, t: Tid)
    requires Calm(s) && t in s'.tasks && Held(s'.tasks[t]) == {} && s'.tasks == s.tasks[t := s'.tasks[t]]
    ensures Calm(s')
  {
    hide Free;
    FreeAfterMove(s, s', t, Provider);
    FreeAfterMove(s, s', t, Sync);
  }
}
