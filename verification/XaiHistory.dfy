/**
 What the committed operations of an xAI run can be: a refresh result lands only on the credentials it
 was exchanged for, late completions never bring a deleted account back, and each kind of completion
 leaves the fields of the others alone.
 */
module XaiHistory {
  import opened CompareAndSwap
  import opened Prelude
  import opened XaiQuota
  import opened XaiTypes
  import opened XaiMachine
  import opened XaiInvariant
  import opened XaiSteps

  // ---------- the history is one committed operation per table write ----------

  /** An update is in the history only when it wrote a row over the record it was decided on. */
  predicate EffectiveAt(origin: map<Id, Record>, log: seq<Item>, k: nat)
    requires k < |log|
  {
    var m := Replay(origin, log[..k]);
    match log[k].entry
    case Updated(id, u, at) => id in m && Effect(u, m[id], at).Write?
    case Deleted(id) => id in m
    case Imported(id, r) => ImportInto(m, r, id)
    case _ => true
  }

  ghost predicate AllEffective(origin: map<Id, Record>, log: seq<Item>) {
    forall k :: 0 <= k < |log| ==> EffectiveAt(origin, log, k)
  }

  lemma StepOfRun(states: seq<State>, labels: seq<Label>, i: nat)
    requires IsRun(states, labels) && i < |labels|
    ensures Inv(states[i]) && Inv(states[i + 1]) && Next(states[i], labels[i], states[i + 1])
    ensures labels[i].Task? ==> Good(states[i], labels[i].t, states[i + 1])
    ensures labels[i].Tick? ==> states[i + 1] == states[i].(now := states[i + 1].now)
  {
    hide Step, Inv, Good;
    RunKeepsInv(states, labels, i);
    RunKeepsInv(states, labels, i + 1);
    if labels[i].Task? {
      StepIsGood(states[i], labels[i].t, labels[i].e, states[i + 1]);
    }
  }

  lemma EffectiveGrows(s: State, t: Tid, s': State)
    requires s.db == Replay(s.origin, s.log) && AllEffective(s.origin, s.log)
    requires s'.origin == s.origin && Commits(s, t, s')
    ensures AllEffective(s'.origin, s'.log)
  {
    hide Replay, Effect;
    forall k | 0 <= k < |s'.log| ensures EffectiveAt(s'.origin, s'.log, k) {
      if k < |s.log| {
        assert s'.log[..k] == s.log[..k];
        assert EffectiveAt(s.origin, s.log, k);
      } else {
        assert s'.log[..k] == s.log;
      }
    }
  }

  lemma {:induction false} LoggedAreEffective(states: seq<State>, labels: seq<Label>, i: nat)
    requires IsRun(states, labels) && i < |states|
    ensures AllEffective(states[i].origin, states[i].log)
  {
    hide Next, EffectiveAt, OwnOk, Commits, PcOk, PermitOk, Exclusive, SessionOk, Replay, WaitOk, Begins;
    if i > 0 {
      LoggedAreEffective(states, labels, i - 1);
      StepOfRun(states, labels, i - 1);
      if labels[i - 1].Task? {
        EffectiveGrows(states[i - 1], labels[i - 1].t, states[i]);
      }
    }
  }

  /** The table is the replay of the history, in every reachable state. */
  lemma TableIsReplay(states: seq<State>, labels: seq<Label>, i: nat)
    requires IsRun(states, labels) && i < |states|
    ensures states[i].db == Replay(states[i].origin, states[i].log)
  {
    hide IsRun, PcOk, PermitOk, Exclusive, SessionOk;
    RunKeepsInv(states, labels, i);
  }

  // ---------- compare-and-swap of credentials ----------

  function RowAt(origin: map<Id, Record>, log: seq<Item>, k: nat, id: Id): Option<Record>
    requires k <= |log|
  {
    Get(Replay(origin, log[..k]), id)
  }

  function BasisAt(origin: map<Id, Record>, log: seq<Item>, k: nat, id: Id): Option<Basis>
    requires k <= |log|
  {
    if RowAt(origin, log, k, id).Some? then Some(BasisOf(RowAt(origin, log, k, id).value)) else None
  }

  predicate TokenOf(e: Entry, id: Id) {
    e.Updated? && e.id == id && e.u.Token?
  }

  /** A committed token response replaced exactly the credentials it was exchanged for, by those it brought. */
  lemma TokenLandsOnItsBasis(states: seq<State>, labels: seq<Label>, i: nat, k: nat, id: Id)
    requires IsRun(states, labels) && i < |states| && k < |states[i].log| && TokenOf(states[i].log[k].entry, id)
    ensures var s := states[i]; var u := s.log[k].entry.u;
            && BasisAt(s.origin, s.log, k, id) == Some(BasisOf(u.attempted))
            && BasisAt(s.origin, s.log, k + 1, id).Some?
            && (var after := BasisAt(s.origin, s.log, k + 1, id).value;
                && after.access == u.resp.access && after.endpoint == u.attempted.endpoint
                && (Blank(u.resp.refresh) ==> after.refresh == u.attempted.refresh)
                && (!Blank(u.resp.refresh) ==> after.refresh == u.resp.refresh))
  {
    hide IsRun;
    LoggedAreEffective(states, labels, i);
    var s := states[i];
    assert EffectiveAt(s.origin, s.log, k);
    assert s.log[..k + 1][..k] == s.log[..k];
  }

  /** The history as the credentials of `id` see it. */
  function TraceOf(origin: map<Id, Record>, log: seq<Item>, id: Id): (trace: seq<Change<Basis>>)
    ensures |trace| == |log|
  {
    seq(|log|, k requires 0 <= k < |log| =>
      Change(BasisAt(origin, log, k, id), BasisAt(origin, log, k + 1, id), TokenOf(log[k].entry, id)))
  }

  /** No response and no other operation installs credentials the account had before. */
  predicate FreshFor(origin: map<Id, Record>, log: seq<Item>, id: Id) {
    Fresh(TraceOf(origin, log, id))
  }

  lemma TracePrefix(origin: map<Id, Record>, log: seq<Item>, n: nat, id: Id)
    requires n <= |log|
    ensures TraceOf(origin, log[..n], id) == TraceOf(origin, log, id)[..n]
  {
    hide Replay;
    assert forall k :: 0 <= k <= n ==> log[..n][..k] == log[..k];
  }

  /** With fresh responses one set of credentials is spent on at most one committed refresh. */
  lemma AtMostOneCommitPerBasis(states: seq<State>, labels: seq<Label>, i: nat, j: nat, k: nat, id: Id)
    requires IsRun(states, labels) && i < |states| && j < k < |states[i].log|
    requires FreshFor(states[i].origin, states[i].log, id)
    requires TokenOf(states[i].log[j].entry, id) && TokenOf(states[i].log[k].entry, id)
    ensures BasisOf(states[i].log[j].entry.u.attempted) != BasisOf(states[i].log[k].entry.u.attempted)
  {
    hide IsRun, BasisAt, Fresh;
    TokenLandsOnItsBasis(states, labels, i, j, id);
    TokenLandsOnItsBasis(states, labels, i, k, id);
    SpentOnce(TraceOf(states[i].origin, states[i].log, id), j, k);
  }

  // ---------- no resurrection ----------

  /** Only an import (a login is one) or a restore may create a row for `id`. */
  predicate MayCreate(e: Entry, id: Id) {
    (e.Imported? && e.id == id)
    || (e.Restored? && match e.target case All(rows) => id in rows case One(other, r) => other == id && r.Some?)
  }

  lemma OnlyCreatorsCreate(m: map<Id, Record>, e: Entry, id: Id)
    requires id !in m && !MayCreate(e, id)
    ensures id !in Perform(m, e)
  {
    hide Effect, MergeImport;
  }

  lemma {:induction false} StaysAbsent(origin: map<Id, Record>, log: seq<Item>, id: Id, j: nat, k: nat)
    requires j <= k <= |log| && RowAt(origin, log, j, id).None?
    requires forall x :: j <= x < k ==> !MayCreate(log[x].entry, id)
    ensures RowAt(origin, log, k, id).None?
  {
    if j < k {
      StaysAbsent(origin, log, id, j, k - 1);
      assert log[..k][..k - 1] == log[..k - 1];
      OnlyCreatorsCreate(Replay(origin, log[..k - 1]), log[k - 1].entry, id);
    }
  }

  /** The history of an earlier state is the beginning of the history of a later one. */
  lemma {:induction false} LogGrows(states: seq<State>, labels: seq<Label>, i: nat, j: nat)
    requires IsRun(states, labels) && i <= j < |states|
    ensures states[j].origin == states[i].origin && |states[i].log| <= |states[j].log|
    ensures states[j].log[..|states[i].log|] == states[i].log
  {
    hide Next, Inv, OwnOk, DataOk, Effect, WaitOk, Begins;
    if i < j {
      LogGrows(states, labels, i, j - 1);
      StepOfRun(states, labels, j - 1);
      assert states[j].log[..|states[i].log|] == states[j - 1].log[..|states[i].log|];
    }
  }

  /** A deleted account stays deleted, whatever completes late, until an import or a restore names it. */
  lemma NoResurrection(states: seq<State>, labels: seq<Label>, i: nat, j: nat, id: Id)
    requires IsRun(states, labels) && i <= j < |states| && id !in states[i].db
    requires forall x :: |states[i].log| <= x < |states[j].log| ==> !MayCreate(states[j].log[x].entry, id)
    ensures id !in states[j].db
  {
    hide IsRun, MayCreate;
    LogGrows(states, labels, i, j);
    TableIsReplay(states, labels, i);
    TableIsReplay(states, labels, j);
    var log := states[j].log;
    assert log[..|log|] == log;
    StaysAbsent(states[j].origin, log, id, |states[i].log|, |log|);
  }

  // ---------- settings and quota survive late completions ----------

  predicate Touches(e: Entry, id: Id) {
    match e
    case Updated(other, _, _) => other == id
    case Imported(other, _) => other == id
    case Deleted(other) => other == id
    case Restored(_) => true
  }

  /** Only token responses, late refusals and quota completions befall `id` between `j` and `k`. */
  predicate OnlyCompletions(log: seq<Item>, id: Id, j: nat, k: nat)
    requires j <= k <= |log|
  {
    forall x :: j <= x < k && Touches(log[x].entry, id) ==> log[x].entry.Updated? && !log[x].entry.u.SetAuto?
  }

  lemma CompletionStep(m: map<Id, Record>, e: Entry, id: Id)
    requires id in m && (Touches(e, id) ==> e.Updated? && !e.u.SetAuto?)
    ensures id in Perform(m, e) && Perform(m, e)[id].autoRefresh == m[id].autoRefresh
    ensures Perform(m, e)[id].endpoint == m[id].endpoint
    ensures Touches(e, id) && e.u.Token? ==> Perform(m, e)[id].quota == m[id].quota
    ensures !(Touches(e, id) && e.u.Token?) ==> BasisOf(Perform(m, e)[id]) == BasisOf(m[id])
  {
    hide MergeImport, Install;
    if e.Updated? && e.id == id && Effect(e.u, m[id], e.at).Write? {
      UpdatesKeepOtherFields(e.u, m[id], e.at);
    }
  }

  /** However many completions arrive late, the user's setting and the endpoint stay as they were. */
  lemma {:induction false} CompletionsKeepSettings(origin: map<Id, Record>, log: seq<Item>, id: Id, j: nat, k: nat)
    requires j <= k <= |log| && RowAt(origin, log, j, id).Some? && OnlyCompletions(log, id, j, k)
    ensures RowAt(origin, log, k, id).Some?
    ensures RowAt(origin, log, k, id).value.autoRefresh == RowAt(origin, log, j, id).value.autoRefresh
    ensures RowAt(origin, log, k, id).value.endpoint == RowAt(origin, log, j, id).value.endpoint
  {
    hide Perform, Touches;
    if j < k {
      CompletionsKeepSettings(origin, log, id, j, k - 1);
      assert log[..k][..k - 1] == log[..k - 1];
      CompletionStep(Replay(origin, log[..k - 1]), log[k - 1].entry, id);
    }
  }

  // ---------- stored quota lists repeat no name ----------

  predicate UniqueRows(m: map<Id, Record>) {
    forall id :: id in m ==> Unique(m[id].quota.items)
  }

  /** The operation brings no list with a repeated name; quotas that are merged in may be any. */
  predicate BringsUnique(e: Entry) {
    match e
    case Imported(_, r) => Unique(r.quota.items)
    case Restored(target) => UniqueRows(Install(map[], target))
    case _ => true
  }

  lemma EffectKeepsUnique(u: Update, r: Record, at: int)
    requires Unique(r.quota.items) && Effect(u, r, at).Write?
    ensures Unique(Effect(u, r, at).record.quota.items)
  {
    hide Unique, MergeItems;
    match u
    case MergeQuota(q) => MergeKeepsUnique(r.quota.items, q.items);
    case QuotaHeaders(h, _) => MergeKeepsUnique(r.quota.items, HeaderItems(h));
    case _ =>
  }

  lemma PerformKeepsUnique(m: map<Id, Record>, e: Entry)
    requires UniqueRows(m) && BringsUnique(e)
    ensures UniqueRows(Perform(m, e))
  {
    hide Effect, Unique;
    match e
    case Updated(id, u, at) =>
      if id in m && Effect(u, m[id], at).Write? {
        EffectKeepsUnique(u, m[id], at);
      }
    case Restored(One(id, Some(r))) => assert id in Install(map[], e.target);
    case _ =>
  }

  lemma {:induction false} ReplayKeepsUnique(origin: map<Id, Record>, log: seq<Item>)
    requires UniqueRows(origin) && forall k :: 0 <= k < |log| ==> BringsUnique(log[k].entry)
    ensures UniqueRows(Replay(origin, log))
  {
    hide UniqueRows, BringsUnique, Perform;
    if log != [] {
      ReplayKeepsUnique(origin, log[..|log| - 1]);
      PerformKeepsUnique(Replay(origin, log[..|log| - 1]), log[|log| - 1].entry);
    }
  }

  /** Unless an import or a restore brings one in, no row of any reachable state repeats a window name. */
  lemma QuotasStayUnique(states: seq<State>, labels: seq<Label>, i: nat)
    requires IsRun(states, labels) && i < |states| && UniqueRows(states[i].origin)
    requires forall k :: 0 <= k < |states[i].log| ==> BringsUnique(states[i].log[k].entry)
    ensures UniqueRows(states[i].db)
  {
    hide IsRun, UniqueRows, BringsUnique;
    TableIsReplay(states, labels, i);
    ReplayKeepsUnique(states[i].origin, states[i].log);
  }
}
