/**
 Refresh as compare-and-swap on credential generations: a result is committed only onto the generation
 it was exchanged for, and no exchange is sent for a generation an earlier refresh already replaced.
 */
module CodexGenerations {
  import opened CompareAndSwap
  import opened Prelude
  import opened CodexTypes
  import opened CodexMachine
  import opened CodexInvariant
  import opened CodexRules
  import opened CodexSteps
  import opened CodexHistory

  /** The generation of account `id` after the first `k` operations. */
  function GenAt(origin: map<Id, Record>, log: seq<Item>, k: nat, id: Id): Option<Generation>
    requires k <= |log|
  {
    var m := Replay(origin, log[..k]);
    if id in m && m[id].credential.Oauth? then Some(GenOf(m[id].credential.oauth)) else None
  }

  predicate RefreshOf(item: Item, id: Id) {
    item.entry.Mutated? && item.entry.id == id && item.entry.m.CommitRefresh?
  }

  /** The history as the generations of `id` see it. */
  function TraceOf(origin: map<Id, Record>, log: seq<Item>, id: Id): (trace: seq<Change<Generation>>)
    ensures |trace| == |log|
  {
    seq(|log|, k requires 0 <= k < |log| =>
      Change(GenAt(origin, log, k, id), GenAt(origin, log, k + 1, id), RefreshOf(log[k], id)))
  }

  /** No response and no other operation installs a generation the account had before. */
  predicate FreshFor(origin: map<Id, Record>, log: seq<Item>, id: Id) {
    Fresh(TraceOf(origin, log, id))
  }

  lemma TracePrefix(origin: map<Id, Record>, log: seq<Item>, n: nat, id: Id)
    requires n <= |log|
    ensures TraceOf(origin, log[..n], id) == TraceOf(origin, log, id)[..n]
  {
    hide Replay;
    assert forall k :: 0 <= k <= n ==> log[..n][..k] == log[..k];
  }

  // ---------- what is logged was effective ----------

  /** An update enters the history only when it wrote a row over the record it was decided on. */
  predicate EffectiveAt(origin: map<Id, Record>, log: seq<Item>, k: nat)
    requires k < |log|
  {
    log[k].entry.Mutated? ==>
      var m := Replay(origin, log[..k]);
      log[k].entry.id in m && Effect(log[k].entry.m, m[log[k].entry.id]).Write?
      && OauthMutation(log[k].entry.m)
  }

  lemma {:induction false} LoggedAreEffective(states: seq<State>, labels: seq<Label>, i: nat)
    requires IsRun(states, labels) && i < |states|
    ensures forall k :: 0 <= k < |states[i].log| ==> EffectiveAt(states[i].origin, states[i].log, k)
  {
    if i > 0 {
      LoggedAreEffective(states, labels, i - 1);
      RunKeepsInv(states, labels, i - 1);
      var s, s' := states[i - 1], states[i];
      assert Next(s, labels[i - 1], states[i - 1 + 1]);
      if labels[i - 1].Task? {
        var t := labels[i - 1].t;
        StepIsAtomic(s, t, labels[i - 1].e, s');
        if s'.log != s.log {
          TaskFacts(s, t);
          forall k | 0 <= k < |s'.log| ensures EffectiveAt(s'.origin, s'.log, k) {
            if k < |s.log| {
              assert s'.log[..k] == s.log[..k];
              assert EffectiveAt(s.origin, s.log, k);
            } else {
              assert s'.log[..k] == s.log;
            }
          }
        }
      }
    }
  }

  /** Compare-and-swap: a committed refresh replaced exactly the generation it was sent for. */
  lemma RefreshCommitsOntoItsGeneration(states: seq<State>, labels: seq<Label>, i: nat, k: nat)
    requires IsRun(states, labels) && i < |states| && k < |states[i].log|
    requires var e := states[i].log[k].entry; e.Mutated? && e.m.CommitRefresh?
    ensures var s := states[i]; var e := s.log[k].entry;
            && e.m.sent.credential.Oauth? && e.m.refreshed.credential.Oauth?
            && (GenAt(s.origin, s.log, k, e.id).Some? ==>
                  GenAt(s.origin, s.log, k, e.id) == Some(GenOf(e.m.sent.credential.oauth)))
            && GenAt(s.origin, s.log, k + 1, e.id) == Some(GenOf(e.m.refreshed.credential.oauth))
  {
    LoggedAreEffective(states, labels, i);
    var s := states[i];
    assert EffectiveAt(s.origin, s.log, k);
    assert s.log[..k + 1][..k] == s.log[..k];
  }

  /** With fresh responses, a generation is replaced by at most one committed refresh. */
  lemma AtMostOneCommitPerGeneration(states: seq<State>, labels: seq<Label>, i: nat, j: nat, k: nat, id: Id)
    requires IsRun(states, labels) && i < |states| && j < k < |states[i].log|
    requires FreshFor(states[i].origin, states[i].log, id)
    requires RefreshOf(states[i].log[j], id) && RefreshOf(states[i].log[k], id)
    requires GenAt(states[i].origin, states[i].log, j, id).Some?
    requires GenAt(states[i].origin, states[i].log, k, id).Some?
    ensures states[i].log[j].entry.m.sent.credential.Oauth? && states[i].log[k].entry.m.sent.credential.Oauth?
    ensures GenOf(states[i].log[j].entry.m.sent.credential.oauth)
            != GenOf(states[i].log[k].entry.m.sent.credential.oauth)
  {
    var s := states[i];
    RefreshCommitsOntoItsGeneration(states, labels, i, j);
    RefreshCommitsOntoItsGeneration(states, labels, i, k);
    SpentOnce(TraceOf(s.origin, s.log, id), j, k);
  }

  // ---------- what is sent is current ----------

  /** No refresh in the history already replaced the generation of `cur`. */
  predicate NotReplaced(log: seq<Item>, id: Id, cur: Record) {
    cur.credential.Oauth? ==>
    forall k :: 0 <= k < |log| && RefreshOf(log[k], id) && log[k].entry.m.sent.credential.Oauth?
                ==> GenOf(log[k].entry.m.sent.credential.oauth) != GenOf(cur.credential.oauth)
  }

  ghost predicate SendsCurrent(s: State) {
    forall t :: t in s.tasks && Loaded(s.tasks[t]).Some? ==>
      (FreshFor(s.origin, s.log, s.tasks[t].id) && StaysOauth(s.origin, s.log, s.tasks[t].id)
       ==> NotReplaced(s.log, s.tasks[t].id, Loaded(s.tasks[t]).value))
  }

  /** The account is an OAuth account whenever it exists. */
  ghost predicate StaysOauth(origin: map<Id, Record>, log: seq<Item>, id: Id) {
    forall k :: 0 <= k <= |log| && id in Replay(origin, log[..k]) ==> Replay(origin, log[..k])[id].credential.Oauth?
  }

  lemma RefreshSwaps(origin: map<Id, Record>, log: seq<Item>, k: nat, id: Id)
    requires k < |log| && EffectiveAt(origin, log, k) && RefreshOf(log[k], id) && StaysOauth(origin, log, id)
    ensures var c := TraceOf(origin, log, id)[k];
            Swaps(c) && c.before == Some(GenOf(log[k].entry.m.sent.credential.oauth))
  {
    assert log[..k + 1][..k] == log[..k];
  }

  /** The current generation was never replaced by a refresh. */
  lemma CurrentIsNotReplaced(s: State, id: Id, cur: Record)
    requires Inv(s) && id in s.spec && s.spec[id] == cur
    requires forall k :: 0 <= k < |s.log| ==> EffectiveAt(s.origin, s.log, k)
    requires FreshFor(s.origin, s.log, id) && StaysOauth(s.origin, s.log, id)
    ensures NotReplaced(s.log, id, cur)
  {
    hide Replay, EffectiveAt, Fresh, StaysOauth, PcOk, PermitOk, SessionOk, GateOk;
    if cur.credential.Oauth? {
      var trace := TraceOf(s.origin, s.log, id);
      assert s.log[..|s.log|] == s.log;
      assert GenAt(s.origin, s.log, |s.log|, id) == Some(GenOf(cur.credential.oauth));
      forall k | 0 <= k < |s.log| && RefreshOf(s.log[k], id) && s.log[k].entry.m.sent.credential.Oauth?
        ensures GenOf(s.log[k].entry.m.sent.credential.oauth) != GenOf(cur.credential.oauth)
      {
        assert EffectiveAt(s.origin, s.log, k);
        RefreshSwaps(s.origin, s.log, k, id);
        CurrentIsUnspent(trace, k);
        assert trace[|s.log| - 1].after == GenAt(s.origin, s.log, |s.log|, id);
      }
    }
  }

  /** A task that was about to refresh an account still sends for a current generation after any step. */
  lemma StaysCurrent(s: State, t: Tid, s': State, u: Tid)
    requires Inv(s) && SendsCurrent(s) && s'.origin == s.origin && AtomicStep(s, t, s')
    requires u in s.tasks && Loaded(s.tasks[u]).Some?
    requires FreshFor(s'.origin, s'.log, s.tasks[u].id) && StaysOauth(s'.origin, s'.log, s.tasks[u].id)
    ensures NotReplaced(s'.log, s.tasks[u].id, Loaded(s.tasks[u]).value)
  {
    hide Inv, Replay, TraceOf, Fresh, Perform;
    var id, cur := s.tasks[u].id, Loaded(s.tasks[u]).value;
    assert s'.log[..|s.log|] == s.log;
    TracePrefix(s'.origin, s'.log, |s.log|, id);
    FreshPrefix(TraceOf(s'.origin, s'.log, id), |s.log|);
    assert forall k :: 0 <= k <= |s.log| ==> s'.log[..k] == s.log[..k];
    assert NotReplaced(s.log, id, cur);
    if t in s.tasks && Pending(s.tasks[t]).Some? {
      CommitterHoldsPermit(s, t, u, id);
    }
  }

  lemma StepKeepsSendsCurrent(s: State, t: Tid, e: Event, s': State)
    requires Inv(s) && SendsCurrent(s) && Step(s, t, e, s')
    requires forall k :: 0 <= k < |s.log| ==> EffectiveAt(s.origin, s.log, k)
    ensures SendsCurrent(s')
  {
    hide Inv, Step, OwnOk, DataOk, ReplyOk, Passes, MarkStep, CooldownStep, EffectiveAt, FreshFor, NotReplaced, Replay,
      Perform, Pending;
    StepGood(s, t, e, s');
    forall u | u in s'.tasks && Loaded(s'.tasks[u]).Some?
               && FreshFor(s'.origin, s'.log, s'.tasks[u].id) && StaysOauth(s'.origin, s'.log, s'.tasks[u].id)
      ensures NotReplaced(s'.log, s'.tasks[u].id, Loaded(s'.tasks[u]).value)
    {
      if u != t || (Loaded(s.tasks[t]) == Loaded(s'.tasks[t]) && s.tasks[t].id == s'.tasks[t].id) {
        StaysCurrent(s, t, s', u);
      } else {
        TaskFacts(s, t);
        CurrentIsNotReplaced(s, s'.tasks[t].id, Loaded(s'.tasks[t]).value);
      }
    }
  }

  /** While one task is about to refresh an account, no other task commits a refresh of it. */
  lemma CommitterHoldsPermit(s: State, t: Tid, u: Tid, id: Id)
    requires Inv(s) && t in s.tasks && u in s.tasks && Loaded(s.tasks[u]).Some? && s.tasks[u].id == id
    requires Pending(s.tasks[t]).Some?
    ensures var e := Pending(s.tasks[t]).value; !(e.Mutated? && e.id == id && e.m.CommitRefresh?)
  {
    TaskFacts(s, t);
    TaskFacts(s, u);
  }

  lemma {:induction false} RunSendsCurrent(states: seq<State>, labels: seq<Label>, i: nat)
    requires IsRun(states, labels) && i < |states|
    ensures SendsCurrent(states[i])
  {
    if i > 0 {
      RunSendsCurrent(states, labels, i - 1);
      RunKeepsInv(states, labels, i - 1);
      LoggedAreEffective(states, labels, i - 1);
      assert Next(states[i - 1], labels[i - 1], states[i - 1 + 1]);
      match labels[i - 1]
      case Task(t, e) => StepKeepsSendsCurrent(states[i - 1], t, e, states[i]);
      case Tick(_) =>
    }
  }

  /** The step in which task `t` hands the credentials of `cur` to the token endpoint. */
  predicate Sends(s: State, t: Tid, s': State, id: Id, cur: Record) {
    t in s.tasks && t in s'.tasks && s'.tasks[t].Exchange? && s'.tasks[t].id == id && s'.tasks[t].cur == cur
    && s.tasks[t] == Sending(id, cur, s'.tasks[t].mode)
  }

  /** Main theorem: no exchange goes out for a generation an earlier refresh already replaced. */
  lemma NeverSendsReplacedGeneration(states: seq<State>, labels: seq<Label>, i: nat, t: Tid, id: Id, cur: Record)
    requires IsRun(states, labels) && i + 1 < |states| && Sends(states[i], t, states[i + 1], id, cur)
    requires FreshFor(states[i].origin, states[i].log, id) && StaysOauth(states[i].origin, states[i].log, id)
    ensures NotReplaced(states[i].log, id, cur)
  {
    RunSendsCurrent(states, labels, i);
    assert Loaded(states[i].tasks[t]) == Some(cur);
  }
}
