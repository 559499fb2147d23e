/**
 A run of the xAI store that reaches a stale exchange: one task has loaded its record and not yet asked for
 the permit when another one refreshes the account from start to end.
 */
module XaiOvertaken {
  import opened Prelude
  import opened XaiExchanges
  import opened XaiHistory
  import opened XaiMachine
  import opened XaiPaths
  import opened XaiTypes

  const SLOW: Tid := 0
  const QUICK: Tid := 1

  /** The refresh both tasks are about, and the response the quick one gets. */
  datatype Case = Case(id: Id, r: Record, how: How, resp: Response, claims: Option<Claims>, now: int) {
    function Rows(): map<Id, Record> {
      map[id := r]
    }

    function U(): Update {
      Token(r, resp, claims)
    }

    function Merged(): Record {
      MergeResponse(r, resp, claims, now)
    }

    function SaveOf(): Save {
      Save(id, Merged(), BecauseUpdate(U(), now, Refreshing(how)))
    }

    /** The record calls for a refresh, and the response brings other credentials. */
    predicate Works() {
      WithoutRefresh(how, id, r, now).None? && BasisOf(Merged()) != BasisOf(r)
    }

    /** Nothing is loaded yet. */
    function Empty(): State {
      State(Rows(), map[], Rows(), {}, map[], now, map[], Rows(), [])
    }

    /** The slow task has its record; `busy` tells whether the quick one has the permit. */
    function Loaded(busy: bool): State {
      State(Rows(), Rows(), Rows(), if busy then {id} else {}, if busy then map[id := QUICK] else map[], now,
            map[SLOW := Start(id, r, how)], Rows(), [])
    }

    /** The quick task has written the row. */
    function Written(): State {
      var db := Rows()[id := Merged()];
      State(db, Rows() - {id}, db, {id}, map[id := QUICK], now,
            map[SLOW := Start(id, r, how), QUICK := SaveInsert(SaveOf())], Rows(), [Item(QUICK, Updated(id, U(), now))])
    }

    /** The quick task is done, and the slow one has `pc` and, where `busy`, the permit. */
    function After(busy: bool, pc: Pc): State {
      var db := Rows()[id := Merged()];
      State(db, db, db, if busy then {id} else {}, if busy then map[id := SLOW] else map[], now,
            map[SLOW := pc, QUICK := Done(ReplyTo(how, id, Merged()))], Rows(), [Item(QUICK, Updated(id, U(), now))])
    }
  }

  // ---------- the steps ----------

  lemma LoadedIsCalm(c: Case, busy: bool)
    ensures Calm(c.Loaded(busy))
  {
  }

  lemma UpdateWrites(c: Case)
    ensures Effect(c.U(), c.r, c.now) == Write(c.Merged())
  {
    hide MergeResponse;
  }

  lemma SlowTakes(c: Case, m: State)
    requires c.Works() && m == Move(Move(c.Empty(), SLOW, Load(c.id, ForRefresh(c.how))).(cache := c.Rows()), SLOW,
                                    LoadAgain(c.id, ForRefresh(c.how)))
    ensures Next(m, Task(SLOW, Run), c.Loaded(false))
  {
    hide Next, WithoutRefresh, BasisOf, Advance;
    LoadsWaitForNothing(c.id, ForRefresh(c.how));
    RunsNext(m, SLOW);
    assert Advance(m, SLOW) == Resume(m, SLOW, c.id, ForRefresh(c.how), Some(c.r)) by { LooksUp(m, SLOW); }
    assert Advance(m, SLOW).tasks == c.Loaded(false).tasks;
  }

  lemma LooksUp(s: State, t: Tid)
    requires t in s.tasks && s.tasks[t].LoadAgain?
    ensures Advance(s, t) == Resume(s, t, s.tasks[t].id, s.tasks[t].p, Get(s.cache, s.tasks[t].id))
  {
    hide Resume;
  }

  lemma Finds(s: State, t: Tid)
    requires t in s.tasks && s.tasks[t].Load? && s.tasks[t].id in s.cache
    ensures Advance(s, t) == Resume(s, t, s.tasks[t].id, s.tasks[t].p, Some(s.cache[s.tasks[t].id]))
  {
    hide Resume;
  }

  lemma QuickTakes(c: Case)
    requires c.Works()
    ensures Next(Move(c.Loaded(false), QUICK, Load(c.id, ForRefresh(c.how))), Task(QUICK, Run),
                 Move(c.Loaded(false), QUICK, Start(c.id, c.r, c.how)))
  {
    hide Next, WithoutRefresh, BasisOf, Advance;
    var m := Move(c.Loaded(false), QUICK, Load(c.id, ForRefresh(c.how)));
    LoadsWaitForNothing(c.id, ForRefresh(c.how));
    RunsNext(m, QUICK);
    Finds(m, QUICK);
    MovesOn(c.Loaded(false), QUICK, Load(c.id, ForRefresh(c.how)), Start(c.id, c.r, c.how));
  }

  lemma Asks(s: State, t: Tid)
    requires t in s.tasks && s.tasks[t].Start?
    ensures Next(s, Task(t, Run), StepStart(s, t, s.tasks[t].id, s.tasks[t].rec, s.tasks[t].how))
  {
    hide StepStart;
  }

  lemma TakesPermit(id: Id, t: Tid)
    ensures {} + {id} == {id} && map[][id := t] == map[id := t]
  {
  }

  lemma QuickAsks(c: Case)
    ensures Next(Move(c.Loaded(false), QUICK, Start(c.id, c.r, c.how)), Task(QUICK, Run),
                 Move(c.Loaded(true), QUICK, Exchange(c.id, c.r, c.how)))
  {
    hide Next;
    var m := Move(c.Loaded(false), QUICK, Start(c.id, c.r, c.how));
    Asks(m, QUICK);
    TakesPermit(c.id, QUICK);
    MovesOn(c.Loaded(false), QUICK, Start(c.id, c.r, c.how), Exchange(c.id, c.r, c.how));
  }

  lemma QuickIsAnswered(c: Case)
    ensures Next(Move(c.Loaded(true), QUICK, Exchange(c.id, c.r, c.how)), Task(QUICK, Tokens(c.resp, c.claims)),
                 Move(c.Loaded(true), QUICK, UpdProvider(c.id, c.U(), Refreshing(c.how))))
  {
    hide Advance, AfterDbFail, Cancelled, Initial, Ready;
    MovesOn(c.Loaded(true), QUICK, Exchange(c.id, c.r, c.how), UpdProvider(c.id, c.U(), Refreshing(c.how)));
  }

  /** The quick task's state with the entry dropped and the row still to be written. */
  function Dropped(c: Case): State {
    Move(c.Loaded(true).(cache := c.Rows() - {c.id}), QUICK, SaveDb(c.SaveOf()))
  }

  lemma QuickWrites(c: Case)
    ensures Next(Dropped(c), Task(QUICK, Run), c.Written())
  {
    hide Next, Effect, MergeResponse, Resume, StepLoad, StepFill, AfterSave, StepDelDb, StepImpAccount, StepRestDb,
      StepRestCache, StepStart;
    RunsNext(Dropped(c), QUICK) by { WritersAreReady(c); }
    assert Advance(Dropped(c), QUICK) == StepSaveDb(Dropped(c), QUICK, c.SaveOf());
    var w := StepSaveDb(Dropped(c), QUICK, c.SaveOf());
    assert w.tasks == c.Written().tasks && w.log == c.Written().log && w.cache == c.Written().cache;
    assert w == c.Written();
  }

  lemma WritersAreReady(c: Case)
    ensures Ready(Dropped(c), QUICK) && Ready(c.Written(), QUICK)
  {
    hide MergeResponse;
  }

  lemma QuickEnds(c: Case)
    ensures Next(c.Written(), Task(QUICK, Run), c.After(false, Start(c.id, c.r, c.how)))
  {
    hide Next, Effect, MergeResponse, Resume, StepLoad, StepFill, StepSaveDb, StepDelDb, StepImpAccount, StepRestDb,
      StepRestCache, StepStart;
    RunsNext(c.Written(), QUICK) by { WritersAreReady(c); }
    var shown := c.Written().(cache := c.Written().cache[c.id := c.Merged()]);
    assert Advance(c.Written(), QUICK) == AfterSave(shown, QUICK, c.SaveOf(), true);
    assert AfterSave(shown, QUICK, c.SaveOf(), true) == c.After(false, Start(c.id, c.r, c.how)) by {
      assert shown.cache == c.After(false, Start(c.id, c.r, c.how)).cache;
    }
  }

  lemma SlowAsks(c: Case)
    ensures Next(c.After(false, Start(c.id, c.r, c.how)), Task(SLOW, Run), c.After(true, Exchange(c.id, c.r, c.how)))
  {
    hide Next, MergeResponse;
    Asks(c.After(false, Start(c.id, c.r, c.how)), SLOW);
    TakesPermit(c.id, SLOW);
    assert c.After(false, Start(c.id, c.r, c.how)).tasks[SLOW := Exchange(c.id, c.r, c.how)]
           == c.After(true, Exchange(c.id, c.r, c.how)).tasks;
  }

  // ---------- the run ----------

  lemma SlowLoads(c: Case) returns (states: seq<State>, labels: seq<Label>)
    requires c.Works()
    ensures IsRun(states, labels) && End(states) == c.Loaded(false) && Smooth(labels)
  {
    hide Next, WithoutRefresh, BasisOf, Init, Calm;
    var pc := Load(c.id, ForRefresh(c.how));
    assert Init(c.Empty()) by { EmptyIsFirst(c); }
    states, labels := [c.Empty()], [];
    SpawnsNext(c.Empty(), SLOW, pc);
    Push(states, labels, Task(SLOW, Spawn(pc)), Move(c.Empty(), SLOW, pc));
    states, labels := states + [Move(c.Empty(), SLOW, pc)], [Task(SLOW, Spawn(pc))];
    assert Calm(End(states)) by { LoadersAreCalm(c); }
    states, labels := Reload(states, labels, SLOW, c.id, ForRefresh(c.how));
    SlowTakes(c, End(states));
    Push(states, labels, Task(SLOW, Run), c.Loaded(false));
    states, labels := states + [c.Loaded(false)], labels + [Task(SLOW, Run)];
  }

  /** Nothing fails and nothing is dropped. */
  predicate Smooth(labels: seq<Label>) {
    forall k :: 0 <= k < |labels| ==> labels[k].Task? && (labels[k].e.Run? || labels[k].e.Spawn? || labels[k].e.Tokens?)
  }

  lemma EmptyIsFirst(c: Case)
    ensures Init(c.Empty())
  {
  }

  lemma LoadersAreCalm(c: Case)
    ensures Calm(Move(c.Empty(), SLOW, Load(c.id, ForRefresh(c.how))))
  {
  }

  lemma QuickIsSent(c: Case, states: seq<State>, labels: seq<Label>) returns (ss: seq<State>, ls: seq<Label>)
    requires c.Works() && IsRun(states, labels) && End(states) == c.Loaded(false) && Smooth(labels)
    ensures IsRun(ss, ls) && Smooth(ls)
    ensures End(ss) == Move(c.Loaded(true), QUICK, UpdProvider(c.id, c.U(), Refreshing(c.how)))
  {
    hide Next, WithoutRefresh, BasisOf, Init, Calm;
    var pc := Load(c.id, ForRefresh(c.how));
    SpawnsNext(c.Loaded(false), QUICK, pc);
    QuickTakes(c);
    QuickAsks(c);
    QuickIsAnswered(c);
    var more := [Move(c.Loaded(false), QUICK, pc), Move(c.Loaded(false), QUICK, Start(c.id, c.r, c.how)),
                 Move(c.Loaded(true), QUICK, Exchange(c.id, c.r, c.how)),
                 Move(c.Loaded(true), QUICK, UpdProvider(c.id, c.U(), Refreshing(c.how)))];
    var steps := [Task(QUICK, Spawn(pc)), Task(QUICK, Run), Task(QUICK, Run), Task(QUICK, Tokens(c.resp, c.claims))];
    Append(states, labels, more, steps);
    ss, ls := states + more, labels + steps;
  }

  lemma QuickSaves(c: Case, states: seq<State>, labels: seq<Label>) returns (ss: seq<State>, ls: seq<Label>)
    requires IsRun(states, labels) && Smooth(labels)
    requires End(states) == Move(c.Loaded(true), QUICK, UpdProvider(c.id, c.U(), Refreshing(c.how)))
    ensures IsRun(ss, ls) && Smooth(ls) && End(ss) == c.After(true, Exchange(c.id, c.r, c.how))
  {
    hide Next, Init, Calm, Effect, MergeResponse;
    var s, via := c.Loaded(true), Refreshing(c.how);
    UpdateWrites(c);
    LoadedIsCalm(c, true);
    var saving := seq(5, k requires 0 <= k < 5 => WriterState(s, QUICK, c.id, c.U(), via, k + 1));
    WriterStep(s, QUICK, c.id, c.U(), via, 0);
    forall k | 0 <= k < 4 ensures Next(saving[k], Task(QUICK, Run), saving[k + 1]) {
      WriterStep(s, QUICK, c.id, c.U(), via, k + 1);
    }
    Append(states, labels, saving, seq(5, _ => Task(QUICK, Run)));
    ss, ls := states + saving, labels + seq(5, _ => Task(QUICK, Run));
    assert End(ss) == saving[4] == Dropped(c);
    QuickWrites(c);
    QuickEnds(c);
    SlowAsks(c);
    var more := [c.Written(), c.After(false, Start(c.id, c.r, c.how)), c.After(true, Exchange(c.id, c.r, c.how))];
    var steps := [Task(QUICK, Run), Task(QUICK, Run), Task(SLOW, Run)];
    Append(ss, ls, more, steps);
    ss, ls := ss + more, ls + steps;
  }

  lemma AfterIsStaleAndFresh(c: Case)
    requires c.Works()
    ensures var s := c.After(true, Exchange(c.id, c.r, c.how));
            Replaced(s.log, c.id, c.r, 0, |s.log|) && FreshFor(s.origin, s.log, c.id)
  {
    hide WithoutRefresh, MergeResponse;
    var s := c.After(true, Exchange(c.id, c.r, c.how));
    UpdateWrites(c);
    assert TokenOf(s.log[0].entry, c.id);
    assert s.log[..0] == [] && s.log[..1] == s.log && s.log[..1][..0] == [];
    assert BasisAt(s.origin, s.log, 0, c.id) == Some(BasisOf(c.r));
    assert BasisAt(s.origin, s.log, 1, c.id) == Some(BasisOf(c.Merged()));
  }

  /**
   For every record that calls for a refresh and every response that brings other credentials, some run in
   which nothing fails and nothing is dropped ends with an exchange in flight for credentials that have
   been replaced, although all responses are fresh.
   */
  lemma StaleExchangeHappens(id: Id, r: Record, how: How, resp: Response, claims: Option<Claims>, now: int)
    returns (states: seq<State>, labels: seq<Label>, t: Tid)
    requires WithoutRefresh(how, id, r, now).None?
    requires BasisOf(MergeResponse(r, resp, claims, now)) != BasisOf(r)
    ensures IsRun(states, labels) && Smooth(labels)
    ensures var s := states[|labels|];
            Stands(s, t, Exchange(id, r, how)) && Replaced(s.log, id, r, 0, |s.log|) && FreshFor(s.origin, s.log, id)
  {
    hide Next, WithoutRefresh, BasisOf, MergeResponse, Replaced, FreshFor;
    var c := Case(id, r, how, resp, claims, now);
    states, labels := SlowLoads(c);
    states, labels := QuickIsSent(c, states, labels);
    states, labels := QuickSaves(c, states, labels);
    t := SLOW;
    AfterIsStaleAndFresh(c);
    assert states[|labels|] == End(states);
  }
}
