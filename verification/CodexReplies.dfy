/**
 What the Codex store hands out and sends: never a rejected token, never an unusable account, and never
 a refresh token the endpoint has refused.
 */
module CodexReplies {
  import opened Prelude
  import opened CodexTypes
  import opened CodexMachine
  import opened CodexInvariant
  import opened CodexRules
  import opened CodexSteps
  import opened CodexMarks
  import CodexGenerations

  /** Delivers the final reply of task `t`. */
  predicate Delivers(s: State, t: Tid, s': State, reply: Reply) {
    t in s.tasks && !s.tasks[t].Done? && t in s'.tasks && s'.tasks[t] == Done(reply)
  }

  predicate Credentials(reply: Reply) {
    reply.Served? || reply.Header?
  }

  /** Whoever gets credentials gets usable ones that no 401 has marked up to that very moment. */
  lemma RepliesAreGood(s: State, t: Tid, e: Event, s': State, reply: Reply)
    requires Inv(s) && Step(s, t, e, s') && Delivers(s, t, s', reply) && Credentials(reply)
    ensures ReplyOk(s, Done(reply))
  {
    hide Inv, Step, OwnOk, DataOk, AtomicStep, Loads, Passes, MarkStep, CooldownStep, ReplyOk;
    StepGood(s, t, e, s');
  }

  /**
   Main theorem on late 401s: once token `token` is marked for account `id`, then until a save with
   another access token completes or the account is deleted (and nothing is restored), no resolve and no
   authorization header hands that token out.
   */
  lemma RejectedTokenIsNeverServed(
    states: seq<State>, labels: seq<Label>, i: nat, j: nat, id: Id, token: string, t: Tid, e: Event, reply: Reply)
    requires IsRun(states, labels) && i <= j && j + 1 < |states| && NoRestore(states[j].log)
    requires Get(states[i].store.rejAccess, id) == Some(token)
    requires forall n :: i <= n < j ==> !LiftsAccess(states[n], states[n + 1], id, token)
    requires labels[j] == Task(t, e) && Delivers(states[j], t, states[j + 1], reply) && Credentials(reply)
    ensures reply != Header(id, token)
    ensures reply.Served? && reply.id == id && reply.record.credential.Oauth?
            ==> reply.record.credential.oauth.access != token
  {
    AccessMarkPersists(states, labels, i, j, id, token);
    RunKeepsInv(states, labels, j);
    assert Next(states[j], labels[j], states[j + 1]);
    RepliesAreGood(states[j], t, e, states[j + 1], reply);
  }

  /**
   Sending discipline, rejected tokens: once refresh token `token` is recorded as rejected for `id`, no
   refresh of it sends `token` until a save with another one completes or the account is deleted.
   */
  lemma RejectedRefreshIsNeverSent(
    states: seq<State>, labels: seq<Label>, i: nat, j: nat, id: Id, token: string, t: Tid, cur: Record)
    requires IsRun(states, labels) && i <= j && j + 1 < |states| && NoRestore(states[j].log)
    requires Get(states[i].store.rejRefresh, id) == Some(token)
    requires forall n :: i <= n < j ==> !LiftsRefresh(states[n], states[n + 1], id, token)
    requires forall n :: i <= n < j && id in states[n].store.cache ==> states[n].store.cache[id].credential.Oauth?
    requires CodexGenerations.Sends(states[j], t, states[j + 1], id, cur)
    ensures cur.credential.Oauth? && cur.credential.oauth.refresh != token
  {
    RefreshMarkPersists(states, labels, i, j, id, token);
    RunKeepsInv(states, labels, j);
    TaskFacts(states[j], t);
  }
}
