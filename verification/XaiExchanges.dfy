/**
 Token exchanges of the xAI store.  Between its load and its permit a task may be overtaken by the refresh of
 another one, and it does not read the record again; so it may send credentials that have been replaced.
 When exactly that happens, that nothing comes of it in the store, and that it does happen.
 */
module XaiExchanges {
  import opened CompareAndSwap
  import opened Prelude
  import opened Since
  import opened XaiHistory
  import opened XaiInvariant
  import opened XaiMachine
  import opened XaiSteps
  import opened XaiTypes

  /** Between `from` and `to` a token response was committed that had been exchanged for the credentials of `rec`. */
  predicate Replaced(log: seq<Item>, id: Id, rec: Record, from: nat, to: nat)
    requires from <= to <= |log|
  {
    exists k :: from <= k < to && TokenOf(log[k].entry, id) && BasisOf(log[k].entry.u.attempted) == BasisOf(rec)
  }

  /** From `from` on nobody committed a token response for `id`. */
  predicate NoResponse(log: seq<Item>, id: Id, from: nat) {
    forall k :: from <= k < |log| ==> !TokenOf(log[k].entry, id)
  }

  // ---------- what a load finds was not replaced before ----------

  lemma TokenSwaps(origin: map<Id, Record>, log: seq<Item>, k: nat, id: Id)
    requires k < |log| && EffectiveAt(origin, log, k) && TokenOf(log[k].entry, id)
    ensures var c := TraceOf(origin, log, id)[k];
            Swaps(c) && c.before == Some(BasisOf(log[k].entry.u.attempted))
  {
    assert log[..k + 1][..k] == log[..k];
  }

  /** The credentials of the row as it is were never replaced before. */
  lemma RowIsNotReplaced(origin: map<Id, Record>, log: seq<Item>, id: Id, rec: Record)
    requires AllEffective(origin, log) && FreshFor(origin, log, id)
    requires Get(Replay(origin, log), id) == Some(rec)
    ensures !Replaced(log, id, rec, 0, |log|)
  {
    hide Replay, EffectiveAt, Fresh;
    var trace := TraceOf(origin, log, id);
    assert log[..|log|] == log;
    forall k | 0 <= k < |log| && TokenOf(log[k].entry, id) ensures BasisOf(log[k].entry.u.attempted) != BasisOf(rec) {
      assert EffectiveAt(origin, log, k);
      TokenSwaps(origin, log, k, id);
      CurrentIsUnspent(trace, k);
      assert trace[|log| - 1].after == BasisAt(origin, log, |log|, id);
    }
  }

  /** What the cache may show lags behind the table by a restore at most. */
  lemma ShownIsReplay(s: State) returns (n: nat)
    requires Inv(s)
    ensures n <= |s.log| && s.shown == Replay(s.origin, s.log[..n])
    ensures forall k :: n <= k < |s.log| ==> s.log[k].entry.Restored?
  {
    hide Replay, SessionOk, Exclusive, PermitOk, Install;
    if Restoring(s) {
      var u :| u in s.tasks && s.tasks[u].RestCache?;
      assert PcOk(s, s.tasks[u]);
      n := |s.log| - 1;
    } else {
      n := |s.log|;
      assert s.log[..n] == s.log;
    }
  }

  lemma EffectivePrefix(origin: map<Id, Record>, log: seq<Item>, n: nat, k: nat)
    requires k < n <= |log| && AllEffective(origin, log)
    ensures EffectiveAt(origin, log[..n], k)
  {
    hide Replay, Effect;
    assert log[..n][..k] == log[..k];
    assert EffectiveAt(origin, log, k);
  }

  lemma FreshStart(origin: map<Id, Record>, log: seq<Item>, n: nat, id: Id)
    requires n <= |log| && FreshFor(origin, log, id)
    ensures FreshFor(origin, log[..n], id)
  {
    hide TraceOf, Fresh;
    TracePrefix(origin, log, n, id);
    FreshPrefix(TraceOf(origin, log, id), n);
  }

  lemma CachedIsNotReplaced(s: State, id: Id, rec: Record)
    requires Inv(s) && AllEffective(s.origin, s.log) && FreshFor(s.origin, s.log, id)
    requires Get(s.cache, id) == Some(rec)
    ensures !Replaced(s.log, id, rec, 0, |s.log|)
  {
    hide Replay, SessionOk, Exclusive, PermitOk, PcOk, EffectiveAt, FreshFor;
    var n := ShownIsReplay(s);
    var log := s.log[..n];
    FreshStart(s.origin, s.log, n, id);
    forall k | 0 <= k < n ensures EffectiveAt(s.origin, log, k) {
      EffectivePrefix(s.origin, s.log, n, k);
    }
    RowIsNotReplaced(s.origin, log, id, rec);
    forall k | 0 <= k < |s.log| && TokenOf(s.log[k].entry, id)
      ensures BasisOf(s.log[k].entry.u.attempted) != BasisOf(rec)
    {
      assert s.log[k] == log[k];
    }
  }

  // ---------- how an exchange came about ----------

  predicate Stands(s: State, t: Tid, pc: Pc) {
    t in s.tasks && s.tasks[t] == pc
  }

  lemma StepIntoStart(states: seq<State>, labels: seq<Label>, k: nat, t: Tid, id: Id, rec: Record, how: How)
    requires IsRun(states, labels) && k < |labels| && Stands(states[k + 1], t, Start(id, rec, how))
    ensures Stands(states[k], t, Start(id, rec, how)) || Takes(states[k], t, id, rec, how)
  {
    hide Next, Inv, Commits, OwnOk, DataOk, WaitOk, Held;
    StepOfRun(states, labels, k);
  }

  lemma NobodyAtFirst(s: State, t: Tid, pc: Pc)
    requires Init(s)
    ensures !Stands(s, t, pc)
  {
  }

  /** A task about to take the permit has come there from its load, which took the record from the cache. */
  lemma LoadedBefore(
    states: seq<State>, labels: seq<Label>, i: nat, t: Tid, id: Id, rec: Record, how: How) returns (a: nat)
    requires IsRun(states, labels) && i < |states| && Stands(states[i], t, Start(id, rec, how))
    ensures a < i && Takes(states[a], t, id, rec, how)
    ensures forall k :: a < k <= i ==> Stands(states[k], t, Start(id, rec, how))
  {
    hide Next, Stands, Takes;
    NobodyAtFirst(states[0], t, Start(id, rec, how));
    var going := seq(|states|, k requires 0 <= k < |states| => Stands(states[k], t, Start(id, rec, how)));
    var begins := seq(|states|, k requires 0 <= k < |states| => Takes(states[k], t, id, rec, how));
    forall k | 0 <= k < i && going[k + 1] ensures going[k] || begins[k] {
      StepIntoStart(states, labels, k, t, id, rec, how);
    }
    a := Began(going, begins, i);
    assert forall k :: a < k <= i ==> going[k] && Stands(states[k], t, Start(id, rec, how));
  }

  lemma OthersCommitNoResponse(s: State, u: Tid, s': State, t: Tid, id: Id)
    requires PermitOk(s) && Commits(s, u, s') && t in s.tasks && PermitOf(s.tasks[t]) == Some(id) && u != t
    ensures s.log <= s'.log && NoResponse(s'.log, id, |s.log|)
  {
    hide PermitOf, Effect;
    assert Get(s.permit, id) == Some(t);
  }

  /** The step that gets a task into its exchange takes the free permit and commits nothing. */
  lemma StepIntoExchange(states: seq<State>, labels: seq<Label>, k: nat, t: Tid, id: Id, rec: Record, how: How)
    requires IsRun(states, labels) && k < |labels| && Stands(states[k + 1], t, Exchange(id, rec, how))
    ensures Stands(states[k], t, Exchange(id, rec, how))
            || (Stands(states[k], t, Start(id, rec, how)) && id !in states[k].refreshing)
    ensures states[k].log <= states[k + 1].log && NoResponse(states[k + 1].log, id, |states[k].log|)
  {
    hide Next, PcOk, SessionOk, DataOk, Exclusive, PermitOk, WaitOk, OwnOk, Held, PermitOf, Commits;
    StepOfRun(states, labels, k);
    WaitersHoldNothing(id, rec, how);
    if labels[k].Task? && labels[k].t != t {
      OthersCommitNoResponse(states[k], labels[k].t, states[k + 1], t, id);
    }
  }

  lemma WaitersHoldNothing(id: Id, rec: Record, how: How)
    ensures Held(Start(id, rec, how)) == {} && PermitOf(Exchange(id, rec, how)) == Some(id)
  {
  }

  /** A task in its exchange took the permit at `b`, and since then nobody commits a response for the account. */
  lemma {:induction false} PermittedBefore(
    states: seq<State>, labels: seq<Label>, i: nat, t: Tid, id: Id, rec: Record, how: How) returns (b: nat)
    requires IsRun(states, labels) && i < |states| && Stands(states[i], t, Exchange(id, rec, how))
    ensures b < i && Stands(states[b], t, Start(id, rec, how)) && id !in states[b].refreshing
    ensures forall k :: b < k <= i ==> Stands(states[k], t, Exchange(id, rec, how))
    ensures states[b].log <= states[i].log && NoResponse(states[i].log, id, |states[b].log|)
  {
    hide Next, Stands, TokenOf;
    if i == 0 {
      NobodyAtFirst(states[0], t, Exchange(id, rec, how));
    } else {
      StepIntoExchange(states, labels, i - 1, t, id, rec, how);
      if Stands(states[i - 1], t, Exchange(id, rec, how)) {
        b := PermittedBefore(states, labels, i - 1, t, id, rec, how);
      } else {
        b := i - 1;
      }
    }
  }

  // ---------- when an exchange is stale ----------

  /**
   Every exchange in flight goes back to a load at `a` and a permit taken at `b`.  Nobody commits a response
   for the account once the permit is taken, and with fresh responses the credentials sent have been
   replaced exactly if a response to them was committed between the load and the permit.
   */
  lemma ExchangeIsStaleIff(states: seq<State>, labels: seq<Label>, i: nat, t: Tid, id: Id, rec: Record, how: How)
    returns (a: nat, b: nat)
    requires IsRun(states, labels) && i < |states| && Stands(states[i], t, Exchange(id, rec, how))
    ensures a < b < i && Takes(states[a], t, id, rec, how) && id !in states[b].refreshing
    ensures forall k :: a < k <= b ==> Stands(states[k], t, Start(id, rec, how))
    ensures forall k :: b < k <= i ==> Stands(states[k], t, Exchange(id, rec, how))
    ensures |states[a].log| <= |states[b].log| <= |states[i].log|
    ensures NoResponse(states[i].log, id, |states[b].log|)
    ensures var log := states[i].log;
            FreshFor(states[i].origin, log, id) ==>
              (Replaced(log, id, rec, 0, |log|) <==> Replaced(log, id, rec, |states[a].log|, |states[b].log|))
  {
    hide Next, Inv, Stands, FreshFor, EffectiveAt;
    b := PermittedBefore(states, labels, i, t, id, rec, how);
    a := LoadedBefore(states, labels, b, t, id, rec, how);
    LogGrows(states, labels, a, b);
    LogGrows(states, labels, b, i);
    LogGrows(states, labels, a, i);
    var n, m, log := |states[a].log|, |states[b].log|, states[i].log;
    if FreshFor(states[i].origin, log, id) {
      FreshStart(states[i].origin, log, n, id);
      RunKeepsInv(states, labels, a);
      LoggedAreEffective(states, labels, a);
      CachedIsNotReplaced(states[a], id, rec);
      forall x | 0 <= x < n && TokenOf(log[x].entry, id) ensures BasisOf(log[x].entry.u.attempted) != BasisOf(rec) {
        assert states[a].log[x] == log[x];
      }
    }
  }

  // ---------- a stale exchange is harmless ----------

  /** Once credentials are replaced, nothing decided on them is ever written. */
  lemma NothingLandsOnReplaced(origin: map<Id, Record>, log: seq<Item>, id: Id, k: nat, x: nat)
    requires AllEffective(origin, log) && FreshFor(origin, log, id)
    requires k < x < |log| && TokenOf(log[k].entry, id)
    requires var e := log[x].entry; e.Updated? && e.id == id && (e.u.Token? || e.u.InvalidGrant?)
    ensures BasisOf(log[x].entry.u.attempted) != BasisOf(log[k].entry.u.attempted)
  {
    hide Replay, Fresh;
    var trace := TraceOf(origin, log, id);
    assert EffectiveAt(origin, log, k) && EffectiveAt(origin, log, x);
    TokenSwaps(origin, log, k, id);
    assert Installs(trace[k]);
    assert trace[k].after != trace[k].before by { FreshInstallsChange(trace, k); }
    CompareAndSwap.ReplacedForever(trace, k, x - 1);
    assert trace[x - 1].after == BasisAt(origin, log, x, id);
  }

  lemma FreshInstallsChange<G>(trace: seq<Change<G>>, k: nat)
    requires Fresh(trace) && k < |trace| && Installs(trace[k])
    ensures trace[k].after != trace[k].before
  {
  }

  /** The operation stores what came of an exchange for the credentials of `rec`: a response, or a refusal. */
  predicate ComesOf(e: Entry, id: Id, rec: Record) {
    e.Updated? && e.id == id && (e.u.Token? || e.u.InvalidGrant?) && BasisOf(e.u.attempted) == BasisOf(rec)
  }

  /**
   With fresh responses a stale exchange leaves no trace in the store: from then on neither a response nor
   a refusal for the credentials it sent is ever committed.
   */
  lemma StaleExchangeIsHarmless(
    states: seq<State>, labels: seq<Label>, i: nat, j: nat, t: Tid, id: Id, rec: Record, how: How)
    requires IsRun(states, labels) && i <= j < |states| && Stands(states[i], t, Exchange(id, rec, how))
    requires Replaced(states[i].log, id, rec, 0, |states[i].log|)
    requires FreshFor(states[j].origin, states[j].log, id)
    ensures forall x :: |states[i].log| <= x < |states[j].log| ==> !ComesOf(states[j].log[x].entry, id, rec)
  {
    hide Next, Stands, FreshFor, EffectiveAt;
    LogGrows(states, labels, i, j);
    LoggedAreEffective(states, labels, j);
    var n, log := |states[i].log|, states[j].log;
    var k :| 0 <= k < n && TokenOf(states[i].log[k].entry, id)
             && BasisOf(states[i].log[k].entry.u.attempted) == BasisOf(rec);
    assert log[k] == states[i].log[k];
    forall x | n <= x < |log| && ComesOf(log[x].entry, id, rec) ensures false {
      NothingLandsOnReplaced(states[j].origin, log, id, k, x);
    }
  }
}
