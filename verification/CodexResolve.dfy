/**
 Runs of the Codex store in which a resolve refreshes: from any reachable state in which nothing stands in
 the way, and from a fresh store, a resolve of an account that is due or was refused ends with the new token.
 */
module CodexResolve {
  import opened Prelude
  import opened CodexContents
  import opened CodexDecisions
  import opened CodexMachine
  import opened CodexTypes

  // ---------- extending runs ----------

  function End(states: seq<State>): State
    requires states != []
  {
    states[|states| - 1]
  }

  /** Steps of the system from `s` on. */
  ghost predicate Follows(s: State, steps: seq<Label>, more: seq<State>) {
    |more| == |steps| > 0 && Next(s, steps[0], more[0])
    && forall k :: 0 <= k < |more| - 1 ==> Next(more[k], steps[k + 1], more[k + 1])
  }

  lemma Extend(states: seq<State>, labels: seq<Label>, steps: seq<Label>, more: seq<State>)
    requires IsRun(states, labels) && Follows(End(states), steps, more)
    ensures IsRun(states + more, labels + steps) && End(states + more) == End(more)
  {
    hide Next, Init;
    var ss, ls := states + more, labels + steps;
    forall i | 0 <= i < |ls| ensures Next(ss[i], ls[i], ss[i + 1]) {
      if i < |labels| {
        assert Next(states[i], labels[i], states[i + 1]);
      } else if i > |labels| {
        var k := i - |labels| - 1;
        assert Next(more[k], steps[k + 1], more[k + 1]);
      }
    }
  }

  /** The section at `pc` waits for nobody but, where it starts with the gate, for the gate. */
  predicate Unhindered(s: State, pc: Pc) {
    pc.LoadRead? || pc.LoadAgain? || pc.Start? || pc.Cooling? || pc.Sending? || pc.MutRead? || pc.MutDb?
    || pc.MutCache? || pc.Note? || pc.Listing? || pc.Filling?
    || (s.gate.None? && (pc.LoadGate? || pc.MutGate?))
  }

  lemma Runs(s: State, t: Tid)
    requires t in s.tasks && Unhindered(s, s.tasks[t])
    ensures Next(s, Task(t, Run), Advance(s, t))
  {
    hide Advance;
  }

  // ---------- the way to the exchange ----------

  /** The resolve has its record; the account calls for a refresh, and nothing stands in its way. */
  predicate Wants(s: State, t: Tid, id: Id, r: Record) {
    && t in s.tasks && (s.tasks[t] == LoadRead(id, ThenServe) || s.tasks[t] == LoadAgain(id, ThenServe))
    && Get(s.store.cache, id) == Some(r)
    && Renewable(r) && (AccessMarked(s.store, id, r) || DueSoon(r, s.now))
    && KnownClient(r.credential.oauth) && !RefreshMarked(s.store, id, r)
    && id !in s.store.refreshing && s.gate.None?
    && (Cools(s.store, id, s.now) ==> !s.store.cooldowns[id].failed && AccessMarked(s.store, id, r))
  }

  /** The task holds the permit and is at `pc`; all else is as in `s`. */
  function Permitted(s: State, t: Tid, id: Id, pc: Pc): State {
    s.(store := s.store.(refreshing := s.store.refreshing + {id}), permit := s.permit[id := t],
       tasks := s.tasks[t := pc])
  }

  lemma MovesOn(s: State, t: Tid, id: Id, pc: Pc, next: Pc)
    ensures var a := Permitted(s, t, id, pc); a.(tasks := a.tasks[t := next]) == Permitted(s, t, id, next)
  {
    assert s.tasks[t := pc][t := next] == s.tasks[t := next];
  }

  lemma GoesForThePermit(s: State, t: Tid, id: Id, r: Record)
    requires Wants(s, t, id, r)
    ensures Next(s, Task(t, Run), Move(s, t, Start(id, r, Resolve)))
    ensures Next(Move(s, t, Start(id, r, Resolve)), Task(t, Run),
                 Permitted(s, t, id, LoadRead(id, ThenRefresh(r, Resolve))))
  {
    hide Next, Advance, Renewable, DueSoon, AccessMarked, KnownClient, RefreshMarked, Servable, Cools;
    Runs(s, t);
    ResolveDecides(s, t, Advance(s, t), id);
    var a := Move(s, t, Start(id, r, Resolve));
    Runs(a, t);
    PermitDecides(a, t, Advance(a, t), id, r, Resolve);
    assert s.tasks[t := Start(id, r, Resolve)][t := LoadRead(id, ThenRefresh(r, Resolve))]
           == s.tasks[t := LoadRead(id, ThenRefresh(r, Resolve))];
  }

  lemma GoesPastTheChecks(s: State, t: Tid, id: Id, r: Record)
    requires Wants(s, t, id, r)
    ensures Next(Permitted(s, t, id, LoadRead(id, ThenRefresh(r, Resolve))), Task(t, Run),
                 Permitted(s, t, id, Cooling(id, r, Resolve)))
    ensures Next(Permitted(s, t, id, Cooling(id, r, Resolve)), Task(t, Run),
                 Permitted(s, t, id, Sending(id, r, Resolve)))
    ensures Next(Permitted(s, t, id, Sending(id, r, Resolve)), Task(t, Run),
                 Permitted(s, t, id, Exchange(id, r, Resolve)))
  {
    hide Next, Advance, DueSoon, KnownClient, Leaves;
    var a := Permitted(s, t, id, LoadRead(id, ThenRefresh(r, Resolve)));
    var b := Permitted(s, t, id, Cooling(id, r, Resolve));
    var c := Permitted(s, t, id, Sending(id, r, Resolve));
    Runs(a, t);
    ReloadDecides(a, t, Advance(a, t), id, r, Resolve);
    MovesOn(s, t, id, a.tasks[t], b.tasks[t]);
    Runs(b, t);
    CoolingDecides(b, t, Advance(b, t), id, r, Resolve);
    MovesOn(s, t, id, b.tasks[t], c.tasks[t]);
    Runs(c, t);
    Sends(c, t, id, r);
    MovesOn(s, t, id, c.tasks[t], Exchange(id, r, Resolve));
  }

  lemma Sends(s: State, t: Tid, id: Id, r: Record)
    requires t in s.tasks && s.tasks[t] == Sending(id, r, Resolve)
    ensures Advance(s, t) == s.(tasks := s.tasks[t := Exchange(id, r, Resolve)])
  {
  }

  // ---------- the answer and its commit ----------

  /** The answer of the token endpoint to an exchange of `r`, and what comes of it. */
  datatype Answer = Answer(r: Record, resp: Response, idClaims: Claims, accessClaims: Claims, now: int) {
    predicate Works() {
      r.credential.Oauth? && RefreshClient(r.credential.oauth).Some?
    }

    function Update(): Mutation
      requires Works()
    {
      CommitRefresh(r, Refreshed(r, resp, idClaims, accessClaims, now))
    }

    function Merged(): Record
      requires Works()
    {
      MergeRefresh(r, Refreshed(r, resp, idClaims, accessClaims, now))
    }
  }

  lemma AnswerIsWritten(a: Answer)
    requires a.Works()
    ensures Effect(a.Update(), a.r) == Write(a.Merged())
  {
    hide Refreshed, MergeRefresh;
  }

  /** The task holds the gate as well. */
  function Gated(s: State, t: Tid, id: Id, pc: Pc): State {
    Permitted(s, t, id, pc).(gate := Some(t))
  }

  lemma IsAnswered(s: State, t: Tid, id: Id, a: Answer)
    requires t in s.tasks && s.gate.None? && a.Works() && s.now == a.now
    ensures Next(Permitted(s, t, id, Exchange(id, a.r, Resolve)), Task(t, Tokens(a.resp, a.idClaims, a.accessClaims)),
                 Permitted(s, t, id, MutGate(id, a.Update(), ToNote(Resolve))))
    ensures Next(Permitted(s, t, id, MutGate(id, a.Update(), ToNote(Resolve))), Task(t, Run),
                 Gated(s, t, id, MutRead(id, a.Update(), ToNote(Resolve))))
  {
    hide Advance, Refreshed, AfterDbFail, Cancelled, RefreshClient;
    var before, after := Exchange(id, a.r, Resolve), MutGate(id, a.Update(), ToNote(Resolve));
    MovesOn(s, t, id, before, after);
    Runs(Permitted(s, t, id, after), t);
    TakesGate(Permitted(s, t, id, after), t);
    MovesOn(s, t, id, after, MutRead(id, a.Update(), ToNote(Resolve)));
  }

  lemma TakesGate(s: State, t: Tid)
    requires t in s.tasks && s.tasks[t].MutGate? && s.gate.None?
    ensures var pc := s.tasks[t]; Advance(s, t) == Acquire(s, t, MutRead(pc.id, pc.m, pc.w))
  {
  }

  lemma GatedMovesOn(s: State, t: Tid, id: Id, pc: Pc, next: Pc)
    ensures Move(Gated(s, t, id, pc), t, next) == Gated(s, t, id, next)
  {
    MovesOn(s, t, id, pc, next);
  }

  /** The row is written, and the entry is not. */
  function Written(s: State, t: Tid, id: Id, a: Answer): State
    requires a.Works()
  {
    var g := Gated(s, t, id, MutCache(id, a.Update(), ToNote(Resolve), a.Merged()));
    g.(store := g.store.(db := g.store.db[id := a.Merged()]))
  }

  lemma IsMerged(s: State, t: Tid, id: Id, a: Answer)
    requires t in s.tasks && a.Works() && Get(s.store.cache, id) == Some(a.r)
    ensures var w := ToNote(Resolve);
            && Next(Gated(s, t, id, MutRead(id, a.Update(), w)), Task(t, Run),
                    Gated(s, t, id, MutDb(id, a.Update(), w, a.Merged())))
            && Next(Gated(s, t, id, MutDb(id, a.Update(), w, a.Merged())), Task(t, Run), Written(s, t, id, a))
  {
    hide Next, Advance, Effect, Refreshed, MergeRefresh, RefreshClient;
    AnswerIsWritten(a);
    var w, m := ToNote(Resolve), a.Update();
    var b, c := Gated(s, t, id, MutRead(id, m, w)), Gated(s, t, id, MutDb(id, m, w, a.Merged()));
    Runs(b, t);
    Reads(b, t);
    GatedMovesOn(s, t, id, b.tasks[t], c.tasks[t]);
    Runs(c, t);
    Reads(c, t);
    GatedMovesOn(s, t, id, c.tasks[t], MutCache(id, m, w, a.Merged()));
  }

  lemma Reads(s: State, t: Tid)
    requires t in s.tasks
    ensures s.tasks[t].MutRead? ==>
              var pc := s.tasks[t]; Advance(s, t) == StepMutRead(s, t, pc.id, pc.m, pc.w)
    ensures s.tasks[t].MutDb? ==>
              var pc := s.tasks[t]; Advance(s, t) == StepMutDb(s, t, pc.id, pc.m, pc.w, pc.next)
    ensures s.tasks[t].MutCache? ==>
              var pc := s.tasks[t]; Advance(s, t) == StepMutCache(s, t, pc.id, pc.m, pc.w, pc.next)
  {
    hide StepMutRead, StepMutDb, StepMutCache;
  }

  /** What the merged record is good for. */
  lemma MergedIsServable(st: Store, id: Id, a: Answer)
    requires a.Works() && a.r.status != Invalid && BelowThreshold(a.r, a.now)
    requires Get(st.rejAccess, id) != Some(a.resp.access)
    ensures Servable(st, id, a.Merged(), a.now)
    ensures Shows(a.Merged(), a.r, a.resp, a.idClaims, a.accessClaims, a.now)
  {
    hide Shows, Refreshed, MergeRefresh, BelowThreshold;
    MergedShowsTheAnswer(a.r, a.r, a.resp, a.idClaims, a.accessClaims, a.now);
    MergedIsHealthy(a);
    SameUsage(a.r, a.Merged(), a.now);
  }

  lemma MergedIsHealthy(a: Answer)
    requires a.Works() && a.r.status != Invalid
    requires Shows(a.Merged(), a.r, a.resp, a.idClaims, a.accessClaims, a.now)
    ensures Healthy(a.Merged(), a.now) && a.Merged().credential.Oauth?
    ensures a.Merged().credential.oauth.access == a.resp.access
    ensures a.Merged().quota == a.r.quota && a.Merged().threshold == a.r.threshold
  {
    hide Refreshed;
  }

  lemma SameUsage(r: Record, q: Record, now: int)
    requires q.quota == r.quota && q.threshold == r.threshold && BelowThreshold(r, now)
    ensures BelowThreshold(q, now)
  {
  }

  lemma IsSaved(s: State, t: Tid, id: Id, a: Answer) returns (saved: State)
    requires t in s.tasks && a.Works() && a.r.status != Invalid && s.now == a.now
    requires Get(s.store.rejAccess, id) != Some(a.resp.access)
    requires Healthy(a.Merged(), a.now) && a.Merged().credential.Oauth?
    requires a.Merged().credential.oauth.access == a.resp.access
    ensures Next(Written(s, t, id, a), Task(t, Run), saved)
    ensures t in saved.tasks && saved.tasks[t] == Note(id, Resolve, Got(a.Merged())) && saved.now == s.now
    ensures Get(saved.store.rejAccess, id) != Some(a.resp.access)
    ensures Get(saved.store.db, id) == Some(a.Merged()) == Get(saved.store.cache, id)
  {
    hide Next, Advance, Effect, Refreshed, MergeRefresh, RefreshClient, Perform;
    var w := Written(s, t, id, a);
    saved := Advance(w, t);
    Runs(w, t);
    Reads(w, t);
    WrittenReports(w, t, saved, id, a.Update(), ToNote(Resolve), a.Merged());
  }

  lemma IsServed(saved: State, t: Tid, id: Id, next: Record) returns (done: State)
    requires t in saved.tasks && saved.tasks[t] == Note(id, Resolve, Got(next))
    requires Servable(saved.store, id, next, saved.now)
    ensures Next(saved, Task(t, Run), done)
    ensures t in done.tasks && done.tasks[t] == Done(Served(id, next))
    ensures done.store.db == saved.store.db && done.store.cache == saved.store.cache
  {
    hide Next, Advance, Servable;
    done := Advance(saved, t);
    Runs(saved, t);
    NoteDecides(saved, t, done, id, Resolve, Got(next));
    SameServable(saved.store, saved.store.(cooldowns := done.store.cooldowns), id, next, saved.now);
  }

  lemma SameServable(st: Store, st': Store, id: Id, r: Record, now: int)
    requires st'.rejAccess == st.rejAccess
    ensures Servable(st', id, r, now) == Servable(st, id, r, now)
  {
    hide BelowThreshold;
  }

  // ---------- the run ----------

  /** The steps of a resolve that refreshes, from the end of its load. */
  function Steps(t: Tid, a: Answer): (steps: seq<Label>) {
    RunFive(t) + [Task(t, Tokens(a.resp, a.idClaims, a.accessClaims))] + RunFive(t)
  }

  function RunFive(t: Tid): (steps: seq<Label>)
    ensures |steps| == 5 && forall k :: 0 <= k < 5 ==> steps[k] == Task(t, Run)
  {
    seq(5, _ => Task(t, Run))
  }

  /** Up to the exchange. */
  lemma IsSent(states: seq<State>, labels: seq<Label>, t: Tid, id: Id, r: Record) returns (ss: seq<State>)
    requires IsRun(states, labels) && Wants(End(states), t, id, r)
    ensures IsRun(ss, labels + RunFive(t)) && states <= ss
    ensures End(ss) == Permitted(End(states), t, id, Exchange(id, r, Resolve))
  {
    hide Next, Init, Wants, Permitted;
    var s := End(states);
    GoesForThePermit(s, t, id, r);
    GoesPastTheChecks(s, t, id, r);
    var more := [
      Move(s, t, Start(id, r, Resolve)),
      Permitted(s, t, id, LoadRead(id, ThenRefresh(r, Resolve))),
      Permitted(s, t, id, Cooling(id, r, Resolve)),
      Permitted(s, t, id, Sending(id, r, Resolve)),
      Permitted(s, t, id, Exchange(id, r, Resolve))];
    Extend(states, labels, RunFive(t), more);
    ss := states + more;
  }

  /** From the answer to the table. */
  lemma IsWritten(states: seq<State>, labels: seq<Label>, s: State, t: Tid, id: Id, a: Answer) returns (ss: seq<State>)
    requires IsRun(states, labels) && a.Works() && s.now == a.now
    requires t in s.tasks && s.gate.None? && Get(s.store.cache, id) == Some(a.r)
    requires End(states) == Permitted(s, t, id, Exchange(id, a.r, Resolve))
    ensures IsRun(ss, labels + [Task(t, Tokens(a.resp, a.idClaims, a.accessClaims))] + RunFive(t)[..3]) && states <= ss
    ensures End(ss) == Written(s, t, id, a)
  {
    hide Next, Init, Permitted, Gated, Written, Refreshed, MergeRefresh, RefreshClient;
    IsAnswered(s, t, id, a);
    IsMerged(s, t, id, a);
    var more := [
      Permitted(s, t, id, MutGate(id, a.Update(), ToNote(Resolve))),
      Gated(s, t, id, MutRead(id, a.Update(), ToNote(Resolve))),
      Gated(s, t, id, MutDb(id, a.Update(), ToNote(Resolve), a.Merged())),
      Written(s, t, id, a)];
    var steps := [Task(t, Tokens(a.resp, a.idClaims, a.accessClaims))] + RunFive(t)[..3];
    Extend(states, labels, steps, more);
    assert labels + [steps[0]] + RunFive(t)[..3] == labels + steps;
    ss := states + more;
  }

  lemma WantsCanBeSent(s: State, t: Tid, id: Id, r: Record)
    requires Wants(s, t, id, r)
    ensures r.credential.Oauth? && r.status != Invalid && RefreshClient(r.credential.oauth).Some?
  {
    hide AccessMarked, DueSoon, RefreshMarked, Cools;
  }

  /**
   Wherever a run has got to, a resolve that has just loaded an account which calls for a refresh, with
   nothing in its way, can run on without another task and ends with the new access token: the record it is
   served shows the answer field by field, and table and cache hold that record.
   */
  lemma ResolveServesTheAnswer(
    states: seq<State>, labels: seq<Label>, t: Tid, id: Id, a: Answer) returns (ss: seq<State>, next: Record)
    requires IsRun(states, labels) && Wants(End(states), t, id, a.r) && End(states).now == a.now
    requires BelowThreshold(a.r, a.now) && Get(End(states).store.rejAccess, id) != Some(a.resp.access)
    ensures IsRun(ss, labels + Steps(t, a)) && states <= ss
    ensures t in End(ss).tasks && End(ss).tasks[t] == Done(Served(id, next))
    ensures next.credential.Oauth? && next.credential.oauth.access == a.resp.access
    ensures a.r.credential.Oauth? && Shows(next, a.r, a.resp, a.idClaims, a.accessClaims, a.now)
    ensures Get(End(ss).store.db, id) == Some(next) == Get(End(ss).store.cache, id)
  {
    hide Next, Init, Wants, Servable, BelowThreshold, Shows, Refreshed, MergeRefresh, RefreshClient, Permitted, Written;
    var s := End(states);
    WantsCanBeSent(s, t, id, a.r);
    WantsIsAlone(s, t, id, a.r);
    MergedIsServable(s.store, id, a);
    MergedIsHealthy(a);
    next := a.Merged();
    var sent := IsSent(states, labels, t, id, a.r);
    var written := IsWritten(sent, labels + RunFive(t), s, t, id, a);
    var before := labels + RunFive(t) + [Task(t, Tokens(a.resp, a.idClaims, a.accessClaims))] + RunFive(t)[..3];
    ss := IsFinished(written, before, s, t, id, a);
    assert before + RunFive(t)[3..] == labels + Steps(t, a);
  }

  /** From the table to the caller. */
  lemma IsFinished(states: seq<State>, labels: seq<Label>, s: State, t: Tid, id: Id, a: Answer) returns (ss: seq<State>)
    requires IsRun(states, labels) && t in s.tasks && a.Works() && a.r.status != Invalid && s.now == a.now
    requires End(states) == Written(s, t, id, a)
    requires BelowThreshold(a.r, a.now) && Get(s.store.rejAccess, id) != Some(a.resp.access)
    requires Healthy(a.Merged(), a.now) && a.Merged().credential.Oauth?
    requires a.Merged().credential.oauth.access == a.resp.access
    ensures IsRun(ss, labels + RunFive(t)[3..]) && states <= ss
    ensures t in End(ss).tasks && End(ss).tasks[t] == Done(Served(id, a.Merged()))
    ensures Get(End(ss).store.db, id) == Some(a.Merged()) == Get(End(ss).store.cache, id)
  {
    hide Next, Init, Servable, BelowThreshold, Shows, Refreshed, MergeRefresh, RefreshClient, Written;
    var saved := IsSaved(s, t, id, a);
    MergedIsServable(saved.store, id, a);
    var done := IsServed(saved, t, id, a.Merged());
    Extend(states, labels, RunFive(t)[3..], [saved, done]);
    ss := states + [saved, done];
  }

  lemma WantsIsAlone(s: State, t: Tid, id: Id, r: Record)
    requires Wants(s, t, id, r)
    ensures t in s.tasks && s.gate.None? && Get(s.store.cache, id) == Some(r)
  {
    hide Renewable, AccessMarked, DueSoon, RefreshMarked, Cools, KnownClient;
  }

  // ---------- from a fresh store ----------

  function FreshStore(id: Id, r: Record, now: int): State {
    State(Store(map[id := r], map[], map[], map[], {}, map[]), None, map[], now, map[], map[id := r], [], map[id := r])
  }

  /** The first load of a resolve: the cache is empty, so the table is read under the gate. */
  lemma FirstLoad(id: Id, r: Record, now: int) returns (states: seq<State>, labels: seq<Label>)
    ensures IsRun(states, labels) && states[0] == FreshStore(id, r, now)
    ensures var s := FreshStore(id, r, now);
            End(states) == Move(s.(store := s.store.(cache := map[id := r])), 0, LoadAgain(id, ThenServe))
  {
    hide Next, Advance;
    var s, k := FreshStore(id, r, now), ThenServe;
    var rows := map[id := r];
    var a, b := Move(s, 0, LoadRead(id, k)), Move(s, 0, LoadGate(id, k));
    var c, d := Acquire(s, 0, Listing(JobLoad(id, k))), Acquire(s, 0, Filling(JobLoad(id, k), rows));
    var e := Move(s.(store := s.store.(cache := rows)), 0, LoadAgain(id, k));
    Spawns(s, 0, LoadRead(id, k));
    Runs(a, 0);
    Runs(b, 0);
    Runs(c, 0);
    Runs(d, 0);
    Lists(a, 0);
    Lists(b, 0);
    Lists(c, 0);
    Lists(d, 0);
    assert Advance(a, 0).tasks == b.tasks && Advance(b, 0).tasks == c.tasks;
    assert Advance(c, 0).tasks == d.tasks && Advance(d, 0).tasks == e.tasks;
    labels := [Task(0, Spawn(LoadRead(id, k)))] + RunFive(0)[..4];
    Extend([s], [], labels, [a, b, c, d, e]);
    states := [s] + [a, b, c, d, e];
    assert [] + labels == labels;
  }

  lemma Spawns(s: State, t: Tid, pc: Pc)
    requires t !in s.tasks && Initial(pc)
    ensures Next(s, Task(t, Spawn(pc)), Move(s, t, pc))
  {
    hide Advance, Initial;
  }

  lemma Lists(s: State, t: Tid)
    requires t in s.tasks && Ready(s, t)
    ensures s.tasks[t].LoadRead? && s.tasks[t].id !in s.store.cache ==>
              var pc := s.tasks[t]; Advance(s, t) == Move(s, t, LoadGate(pc.id, pc.k))
    ensures s.tasks[t].LoadGate? ==>
              var pc := s.tasks[t]; Advance(s, t) == Acquire(s, t, Listing(JobLoad(pc.id, pc.k)))
    ensures s.tasks[t].Listing? ==> Advance(s, t) == Move(s, t, Filling(s.tasks[t].job, s.store.db))
    ensures s.tasks[t].Filling? && s.tasks[t].job.JobLoad? ==>
              var pc := s.tasks[t];
              Advance(s, t) == Release(s.(store := s.store.(cache := pc.snapshot)), t,
                                       LoadAgain(pc.job.id, pc.job.k))
  {
    hide Resume;
  }

  /**
   In particular: for every account that the store may renew and that runs out within a day, and every answer of
   the token endpoint, the first resolve of a fresh store can run to its end and be served the new token.
   */
  lemma ResolveOfDueAccountServesTheAnswer(id: Id, a: Answer)
    returns (states: seq<State>, labels: seq<Label>, next: Record)
    requires Renewable(a.r) && DueSoon(a.r, a.now) && KnownClient(a.r.credential.oauth) && BelowThreshold(a.r, a.now)
    ensures IsRun(states, labels) && states[0] == FreshStore(id, a.r, a.now)
    ensures 0 in End(states).tasks && End(states).tasks[0] == Done(Served(id, next))
    ensures Shows(next, a.r, a.resp, a.idClaims, a.accessClaims, a.now)
    ensures Get(End(states).store.db, id) == Some(next)
  {
    hide Next, Renewable, DueSoon, KnownClient, BelowThreshold, Shows;
    states, labels := FirstLoad(id, a.r, a.now);
    states, next := ResolveServesTheAnswer(states, labels, 0, id, a);
    labels := labels + Steps(0, a);
  }
}
