/**
 What a refresh leaves in the Codex table: the row after a committed refresh is made of the answer of the
 token endpoint and of what was sent, and the refresh token stored with it is the one sent next.
 */
module CodexContents {
  import opened Prelude
  import opened Since
  import opened CodexTypes
  import opened CodexMachine
  import opened CodexInvariant
  import opened CodexRules
  import opened CodexSteps
  import opened CodexHistory
  import opened CodexGenerations

  // ---------- the answer as the table must show it ----------

  /** The first of three that is known. */
  predicate FirstKnown(value: Option<string>, a: Option<string>, b: Option<string>, c: Option<string>) {
    (a.Some? ==> value == a) && (a.None? && b.Some? ==> value == b) && (a.None? && b.None? ==> value == c)
  }

  /** `row` shows the answer `resp` that came at `at`, when the credentials of `sent` had been sent. */
  predicate Shows(row: Record, sent: Record, resp: Response, idClaims: Claims, accessClaims: Claims, at: int) {
    && row.credential.Oauth? && sent.credential.Oauth?
    && ShowsTokens(row.credential.oauth, sent.credential.oauth, resp, at)
    && FirstKnown(row.accountId, idClaims.accountId, accessClaims.accountId, sent.accountId)
    && FirstKnown(row.userId, idClaims.userId, accessClaims.userId, sent.userId)
    && FirstKnown(row.email, idClaims.email, accessClaims.email, sent.email)
  }

  predicate ShowsTokens(stored: OAuth, spent: OAuth, resp: Response, at: int) {
    && stored.access == resp.access
    && (Blank(resp.refresh) ==> stored.refresh == spent.refresh)
    && (!Blank(resp.refresh) ==> stored.refresh == resp.refresh)
    && (Blank(resp.idToken) ==> stored.idToken == spent.idToken)
    && (!Blank(resp.idToken) ==> stored.idToken == resp.idToken)
    && (resp.expiresIn > 0 ==> stored.expiresAt == At(at + resp.expiresIn))
    && (resp.expiresIn <= 0 ==> stored.expiresAt == At(at + 3600))
    && stored.lastRefresh == Some(at)
    && (spent.clientId.None? ==> stored.clientId == Some("app_EMoamEEZ73f0CkXaXp7hrann"))
    && (spent.clientId.Some? ==>
          stored.clientId == Some(Trim(spent.clientId.value))
          && Trim(spent.clientId.value) in {"app_EMoamEEZ73f0CkXaXp7hrann", "app_LlGpXReQgckcGGUo2JrYvtJK"})
  }

  /** Everything the user or another request may have changed meanwhile stays as it is in the row. */
  predicate KeepsTheRest(row: Record, before: Record, sent: Record) {
    && row.credential.Oauth? && sent.credential.Oauth?
    && row.quota == before.quota && row.threshold == before.threshold
    && row.status == (if before.status == Invalid then Invalid else Active)
    && (var kept := if before.credential.Oauth? then before.credential.oauth else sent.credential.oauth;
        row.credential.oauth.autoRefresh == kept.autoRefresh && row.credential.oauth.deviceId == kept.deviceId)
  }

  lemma MergedShowsTheAnswer(before: Record, sent: Record, resp: Response, ic: Claims, ac: Claims, at: int)
    requires sent.credential.Oauth? && RefreshClient(sent.credential.oauth).Some?
    ensures var row := MergeRefresh(before, Refreshed(sent, resp, ic, ac, at));
            Shows(row, sent, resp, ic, ac, at) && KeepsTheRest(row, before, sent)
  {
    hide Blank, Trim;
  }

  // ---------- back from the history to the answer ----------

  /** One step of a run, with what holds of every step. */
  lemma RunStep(states: seq<State>, labels: seq<Label>, n: nat)
    requires IsRun(states, labels) && n < |labels|
    ensures labels[n].Tick? ==> states[n + 1] == states[n].(now := states[n + 1].now)
    ensures labels[n].Task? ==> var t, s, s' := labels[n].t, states[n], states[n + 1];
              Step(s, t, labels[n].e, s') && t in s'.tasks && s'.tasks == s.tasks[t := s'.tasks[t]]
              && PcRules(s, t, s'.tasks[t]) && AtomicStep(s, t, s')
  {
    hide Inv, Step, OwnOk, DataOk, PcRules, AtomicStep, MarkStep, CooldownStep;
    RunKeepsInv(states, labels, n);
    assert Next(states[n], labels[n], states[n + 1]);
    if labels[n].Task? {
      StepGood(states[n], labels[n].t, labels[n].e, states[n + 1]);
    }
  }

  /** The step of its actor in which an operation entered the history. */
  lemma {:induction false} LoggedBy(states: seq<State>, labels: seq<Label>, i: nat, k: nat) returns (b: nat)
    requires IsRun(states, labels) && i < |states| && k < |states[i].log|
    ensures b < i && |states[b].log| == k && states[b + 1].log == states[b].log + [states[i].log[k]]
    ensures var t := states[i].log[k].actor;
            t in states[b].tasks && Pending(states[b].tasks[t]) == Some(states[i].log[k].entry)
            && labels[b].Task? && labels[b].t == t
  {
    hide Inv, Step, PcRules, Replay, Perform, Pending;
    RunStep(states, labels, i - 1);
    var s, s' := states[i - 1], states[i - 1 + 1];
    if k < |s.log| {
      assert s'.log[k] == s.log[k];
      b := LoggedBy(states, labels, i - 1, k);
    } else {
      b := i - 1;
    }
  }

  predicate Updates(s: State, t: Tid, id: Id, m: Mutation) {
    t in s.tasks && Updating(s.tasks[t]) == Some((id, m))
  }

  /** The step in which `t` decides on the update `m` of `id`. */
  predicate DecidesOn(s: State, l: Label, s': State, t: Tid, id: Id, m: Mutation) {
    l.Task? && l.t == t && t in s.tasks && MayDecide(s.tasks[t]) && Step(s, t, l.e, s') && Updates(s', t, id, m)
  }

  lemma NothingDecidedAtFirst(s: State, t: Tid, id: Id, m: Mutation)
    requires Init(s)
    ensures !Updates(s, t, id, m)
  {
  }

  lemma StepIntoUpdate(states: seq<State>, labels: seq<Label>, n: nat, t: Tid, id: Id, m: Mutation)
    requires IsRun(states, labels) && n < |labels| && Updates(states[n + 1], t, id, m)
    ensures Updates(states[n], t, id, m) || DecidesOn(states[n], labels[n], states[n + 1], t, id, m)
  {
    hide Step, Updating, MayDecide, ReplyOk, Loads, Passes, Waits, AtomicStep;
    RunStep(states, labels, n);
  }

  lemma DecidedBefore(states: seq<State>, labels: seq<Label>, i: nat, t: Tid, id: Id, m: Mutation) returns (a: nat)
    requires IsRun(states, labels) && i < |states| && Updates(states[i], t, id, m)
    ensures a < i && a < |labels| && DecidesOn(states[a], labels[a], states[a + 1], t, id, m)
  {
    hide Next, Updates, DecidesOn;
    NothingDecidedAtFirst(states[0], t, id, m);
    var going := seq(|states|, n requires 0 <= n < |states| => Updates(states[n], t, id, m));
    var begins := seq(|states|, n requires 0 <= n < |states| =>
      n < |labels| && DecidesOn(states[n], labels[n], states[n + 1], t, id, m));
    forall n | 0 <= n < i && going[n + 1] ensures going[n] || begins[n] {
      StepIntoUpdate(states, labels, n, t, id, m);
    }
    a := Began(going, begins, i);
  }

  /** Every update in the history was decided on in a step of its actor. */
  lemma LoggedWasDecided(states: seq<State>, labels: seq<Label>, i: nat, k: nat) returns (a: nat)
    requires IsRun(states, labels) && i < |states| && k < |states[i].log| && states[i].log[k].entry.Mutated?
    ensures a < i && a < |labels| && |states[a].log| <= k
    ensures var Item(t, e) := states[i].log[k]; DecidesOn(states[a], labels[a], states[a + 1], t, e.id, e.m)
  {
    hide Next, Inv, DecidesOn;
    var Item(t, e) := states[i].log[k];
    var b := LoggedBy(states, labels, i, k);
    a := DecidedBefore(states, labels, b, t, e.id, e.m);
    LogGrows(states, labels, a, b);
  }

  // ---------- the causes of an update ----------

  /** A load that runs on into an update was for that update, for a refusal, or for a failed quota request. */
  lemma LoadDecides(s: State, t: Tid, id: Id, k: AfterLoad, got: Option<Record>, s': State, at: Id, m: Mutation)
    requires s' == Resume(s, t, id, k, got) && Updates(s', t, at, m) && LoadShape(k)
    ensures at == id && !m.CommitRefresh? && (m.SetAuto? || m.SetThreshold? ==> k == ThenMutate(m))
    ensures m.CommitQuota? ==>
              k.ThenQuotaError? && NotesError(m.quota, if got.Some? then got.value else k.resolved, k.error, k.at)
    ensures m.MarkInvalid? ==>
              k.ThenFailure? && k.relogin && m.failed == k.sent && got.Some?
              && (!IsUsable(got.value, s.now) || AccessRejected(s.store, id, got.value))
  {
    hide IsUsable, AccessRejected, WasRefreshed, CanAutoRefresh, NeedsRefresh, ThresholdReached, RefreshRejected,
      WithPermit, AfterFailure, Finish, Serve, ServeOrRefresh, Blank;
    match k
    case ThenRefresh(prev, mode) => PermitUpdatesNothing(s, t, id, prev, mode, got);
    case ThenFailure(sent, mode, relogin) => FailureDecides(s, t, id, sent, mode, relogin, got, s', at, m);
    case ThenFollow(_, mode) =>
      FinishUpdatesNothing(s, id, mode, Transient);
      if got.Some? {
        FinishUpdatesNothing(s, id, mode, Got(got.value));
      }
    case ThenServe =>
      if got.Some? {
        ServeUpdatesNothing(s, id, got.value);
      }
    case ThenFallback =>
      if got.Some? {
        ServeUpdatesNothing(s, id, got.value);
      }
    case _ =>
  }

  lemma FailureDecides(s: State, t: Tid, id: Id, sent: Record, mode: Mode, relogin: bool, got: Option<Record>,
                       s': State, at: Id, m: Mutation)
    requires s' == AfterFailure(s, t, id, sent, mode, relogin, got) && Updates(s', t, at, m)
    ensures at == id && m == MarkInvalid(sent) && relogin && got.Some?
    ensures !IsUsable(got.value, s.now) || AccessRejected(s.store, id, got.value)
  {
    hide IsUsable, AccessRejected, WasRefreshed;
    if got.Some? && relogin && sent.credential.Oauth? && !WasRefreshed(sent, got.value) {
      var usable := IsUsable(got.value, s.now) && !AccessRejected(s.store, id, got.value);
      assert s'.tasks[t] == if usable then Note(id, mode, Relogin)
                            else MutGate(id, MarkInvalid(sent), ToNoteInvalid(mode));
    }
  }

  lemma ServeUpdatesNothing(s: State, id: Id, r: Record)
    ensures Updating(Serve(s.now, id, r)).None? && Updating(ServeOrRefresh(s, id, r)).None?
  {
    hide IsUsable, AccessRejected, NeedsRefresh, ThresholdReached, Blank;
  }

  lemma FinishUpdatesNothing(s: State, id: Id, mode: Mode, outcome: Outcome)
    ensures Updating(Finish(s, id, mode, outcome)).None?
  {
  }

  lemma PermitUpdatesNothing(s: State, t: Tid, id: Id, prev: Record, mode: Mode, got: Option<Record>)
    ensures var s' := WithPermit(s, t, id, prev, mode, got); t in s'.tasks && Updating(s'.tasks[t]).None?
  {
    hide Finish, WasRefreshed, RefreshRejected;
    FinishUpdatesNothing(DropPermit(s, id), id, mode, Transient);
    FinishUpdatesNothing(DropPermit(s, id), id, mode, Relogin);
    if got.Some? {
      FinishUpdatesNothing(DropPermit(s, id), id, mode, Got(got.value));
    }
  }

  /** The quota of `r` with nothing but the error of a failed request noted. */
  predicate NotesError(q: Quota, r: Record, error: string, at: int) {
    q.plan == r.quota.plan && q.items == r.quota.items && q.error == Some(error) && q.checkedAt == Some(at)
  }

  /** A load that decides on an update ran on from the cached record, or from no record at all. */
  lemma LoadResumes(s: State, l: Label, s': State, t: Tid, id: Id, m: Mutation) returns (s0: State, got: Option<Record>)
    requires DecidesOn(s, l, s', t, id, m) && Loading(s.tasks[t]).Some?
    ensures s0.store == s.store && s0.now == s.now
    ensures var (i, k) := Loading(s.tasks[t]).value;
            s' == Resume(s0, t, i, k, got)
            && got == if s.tasks[t].Listing? then None else Get(s.store.cache, i)
  {
    hide Resume;
    s0 := if l.e.DbFail? then s.(gate := None) else s;
    var (i, k) := Loading(s.tasks[t]).value;
    got := if l.e.DbFail? then None else Get(s.store.cache, i);
    assert s' == Resume(s0, t, i, k, got);
  }

  /** The usage endpoint answered, and the quota is its answer. */
  predicate UsageAnswered(s: State, e: Event, t: Tid, id: Id, q: Quota) {
    e.UsageOk? && t in s.tasks && s.tasks[t].QuotaRequest? && s.tasks[t].id == id
    && q == Quota(e.plan, e.items, None, Some(s.tasks[t].at))
  }

  /** The request failed, and the quota is the one known, of the record as it is now when it can be read. */
  predicate UsageFailed(s: State, t: Tid, id: Id, q: Quota) {
    t in s.tasks && Loading(s.tasks[t]).Some?
    && (var (i, k) := Loading(s.tasks[t]).value;
        i == id && k.ThenQuotaError?
        && NotesError(q, if id in s.store.cache && !s.tasks[t].Listing? then s.store.cache[id] else k.resolved,
                      k.error, k.at))
  }

  /** An endpoint refused the credentials of `failed` for good, and there is nothing left to use. */
  predicate Refused(s: State, e: Event, t: Tid, id: Id, failed: Record) {
    t in s.tasks &&
    if s.tasks[t].QuotaRequest? then
      e.UsageFail? && e.relogin && s.tasks[t].id == id && s.tasks[t].resolved == failed && failed.credential.Oauth?
    else
      Loading(s.tasks[t]).Some?
      && (var (i, k) := Loading(s.tasks[t]).value;
          i == id && k.ThenFailure? && k.relogin && k.sent == failed && id in s.store.cache
          && (!IsUsable(s.store.cache[id], s.now) || AccessRejected(s.store, id, s.store.cache[id])))
  }

  /** Whatever decides on an update of an account, its kind says what came before. */
  lemma UpdatesHaveCauses(s: State, l: Label, s': State, t: Tid, id: Id, m: Mutation)
    requires Inv(s) && DecidesOn(s, l, s', t, id, m)
    ensures m.CommitRefresh? ==> l.e.Tokens? && s.tasks[t].Exchange? && s.tasks[t].id == id && s.tasks[t].cur == m.sent
    ensures m.CommitQuota? ==> UsageAnswered(s, l.e, t, id, m.quota) || UsageFailed(s, t, id, m.quota)
    ensures m.MarkInvalid? ==> Refused(s, l.e, t, id, m.failed)
    ensures m.SetAuto? || m.SetThreshold? ==> Loading(s.tasks[t]) == Some((id, ThenMutate(m)))
  {
    hide Inv, Step, Resume, IsUsable, AccessRejected, NotesError;
    TaskFacts(s, t);
    if Loading(s.tasks[t]).Some? {
      var s0, got := LoadResumes(s, l, s', t, id, m);
      var (i, k) := Loading(s.tasks[t]).value;
      LoadDecides(s0, t, i, k, got, s', id, m);
    } else {
      AnswersDecide(s, l, s', t, id, m);
    }
  }

  /** The same for a task that waits for an answer from outside. */
  lemma AnswersDecide(s: State, l: Label, s': State, t: Tid, id: Id, m: Mutation)
    requires DecidesOn(s, l, s', t, id, m) && (s.tasks[t].Exchange? || s.tasks[t].QuotaRequest?)
    ensures s.tasks[t].id == id && (m.CommitRefresh? || m.CommitQuota? || m.MarkInvalid?)
    ensures m.CommitRefresh? ==> l.e.Tokens? && s.tasks[t].Exchange? && s.tasks[t].cur == m.sent
    ensures m.CommitQuota? ==>
              l.e.UsageOk? && s.tasks[t].QuotaRequest?
              && m.quota == Quota(l.e.plan, l.e.items, None, Some(s.tasks[t].at))
    ensures m.MarkInvalid? ==>
              l.e.UsageFail? && l.e.relogin && s.tasks[t].QuotaRequest? && s.tasks[t].resolved == m.failed
              && m.failed.credential.Oauth?
  {
    hide Refreshed, RefreshClient;
  }

  /** A refresh is decided on by tokens from the endpoint. */
  lemma TokensDecide(s: State, l: Label, s': State, t: Tid, id: Id, m: Mutation)
    requires Inv(s) && DecidesOn(s, l, s', t, id, m) && m.CommitRefresh?
    ensures l.Task? && l.t == t && l.e.Tokens?
    ensures t in s.tasks && s.tasks[t].Exchange? && s.tasks[t].id == id && s.tasks[t].cur == m.sent
    ensures m.sent.credential.Oauth? && RefreshClient(m.sent.credential.oauth).Some?
    ensures m.refreshed == Refreshed(m.sent, l.e.resp, l.e.idClaims, l.e.accessClaims, s.now)
  {
    UpdatesHaveCauses(s, l, s', t, id, m);
    hide Inv, Refreshed, RefreshClient;
  }

  // ---------- the contents of what is committed ----------

  /**
   Main theorem on the contents of a refresh.  Whatever ran in between, a committed refresh goes back to one
   answer of the token endpoint, given to an exchange of the credentials of `sent`; and the row after the
   commit shows that answer field by field, and keeps what else the row held before.
   */
  lemma CommittedRefreshShowsItsAnswer(states: seq<State>, labels: seq<Label>, i: nat, k: nat) returns (a: nat)
    requires IsRun(states, labels) && i < |states| && k < |states[i].log|
    requires var e := states[i].log[k].entry; e.Mutated? && e.m.CommitRefresh?
    ensures a < i && a < |labels| && |states[a].log| <= k
    ensures var Item(t, e) := states[i].log[k]; var l := labels[a];
            && l.Task? && l.t == t && l.e.Tokens?
            && t in states[a].tasks && states[a].tasks[t].Exchange?
            && states[a].tasks[t].id == e.id && states[a].tasks[t].cur == e.m.sent
            && var before, after := Replay(states[i].origin, states[i].log[..k]),
                                    Replay(states[i].origin, states[i].log[..k + 1]);
               e.id in before && e.id in after
               && Shows(after[e.id], e.m.sent, l.e.resp, l.e.idClaims, l.e.accessClaims, states[a].now)
               && KeepsTheRest(after[e.id], before[e.id], e.m.sent)
  {
    hide Next, Inv, Shows, KeepsTheRest, DecidesOn, Perform;
    var e := states[i].log[k].entry;
    a := LoggedWasDecided(states, labels, i, k);
    RunKeepsInv(states, labels, a);
    TokensDecide(states[a], labels[a], states[a + 1], states[i].log[k].actor, e.id, e.m);
    LogGrows(states, labels, a, i);
    LoggedAreEffective(states, labels, i);
    assert EffectiveAt(states[i].origin, states[i].log, k);
    assert states[i].log[..k + 1][..k] == states[i].log[..k];
    var l, before := labels[a], Replay(states[i].origin, states[i].log[..k]);
    MergedShowsTheAnswer(before[e.id], e.m.sent, l.e.resp, l.e.idClaims, l.e.accessClaims, states[a].now);
    AppliedRow(before, e.id, e.m);
  }

  /** An effective refresh is merged onto the row. */
  lemma AppliedRow(m: map<Id, Record>, id: Id, u: Mutation)
    requires id in m && u.CommitRefresh? && Effect(u, m[id]).Write?
    ensures id in Perform(m, Mutated(id, u))
    ensures Perform(m, Mutated(id, u))[id] == MergeRefresh(m[id], u.refreshed)
  {
  }

  /**
   The same for the other updates of the history: a quota goes back to the answer of the usage endpoint, or to
   a failed request and then changes nothing but its error; an account is invalidated only after an endpoint
   refused the very credentials named, and the user's settings only when asked for.
   */
  lemma CommittedUpdatesHaveCauses(states: seq<State>, labels: seq<Label>, i: nat, k: nat) returns (a: nat)
    requires IsRun(states, labels) && i < |states| && k < |states[i].log| && states[i].log[k].entry.Mutated?
    ensures a < i && a < |labels| && |states[a].log| <= k
    ensures var Item(t, e) := states[i].log[k]; var s, l := states[a], labels[a];
            && l.Task? && l.t == t && t in s.tasks
            && (e.m.CommitQuota? ==>
                  UsageAnswered(s, l.e, t, e.id, e.m.quota) || UsageFailed(s, t, e.id, e.m.quota))
            && (e.m.MarkInvalid? ==> Refused(s, l.e, t, e.id, e.m.failed))
            && (e.m.SetAuto? || e.m.SetThreshold? ==> Loading(s.tasks[t]) == Some((e.id, ThenMutate(e.m))))
  {
    hide Next, Inv, Step, Updates, UsageAnswered, UsageFailed, Refused, Loading, MayDecide;
    a := LoggedWasDecided(states, labels, i, k);
    RunKeepsInv(states, labels, a);
    var Item(t, e) := states[i].log[k];
    UpdatesHaveCauses(states[a], labels[a], states[a + 1], t, e.id, e.m);
  }

  // ---------- the next exchange ----------

  /** The operation concerns account `id`. */
  predicate Concerns(e: Entry, id: Id) {
    match e
    case Mutated(i, _) => i == id
    case Imported(i, _) => i == id
    case Deleted(i) => i == id
    case Restored(All(_)) => true
    case Restored(One(i, _)) => i == id
  }

  lemma OthersKeepTheRow(m: map<Id, Record>, e: Entry, id: Id)
    requires !Concerns(e, id)
    ensures Get(Perform(m, e), id) == Get(m, id)
  {
  }

  lemma {:induction false} UntouchedRow(origin: map<Id, Record>, log: seq<Item>, from: nat, to: nat, id: Id)
    requires from <= to <= |log| && forall n :: from <= n < to ==> !Concerns(log[n].entry, id)
    ensures Get(Replay(origin, log[..to]), id) == Get(Replay(origin, log[..from]), id)
  {
    if from < to {
      UntouchedRow(origin, log, from, to - 1, id);
      assert log[..to][..to - 1] == log[..to - 1];
      OthersKeepTheRow(Replay(origin, log[..to - 1]), log[to - 1].entry, id);
    }
  }

  predicate Holds(s: State, t: Tid, id: Id, cur: Record) {
    t in s.tasks && Loaded(s.tasks[t]) == Some(cur) && s.tasks[t].id == id
  }

  lemma NothingHeldAtFirst(s: State, t: Tid, id: Id, cur: Record)
    requires Init(s)
    ensures !Holds(s, t, id, cur)
  {
  }

  lemma StepIntoHold(states: seq<State>, labels: seq<Label>, n: nat, t: Tid, id: Id, cur: Record)
    requires IsRun(states, labels) && n < |labels| && Holds(states[n + 1], t, id, cur)
    ensures Holds(states[n], t, id, cur) || Get(states[n].store.cache, id) == Some(cur)
  {
    hide Step, ReplyOk, Decides, Passes, Waits, AtomicStep;
    RunStep(states, labels, n);
  }

  lemma HeldSince(states: seq<State>, labels: seq<Label>, i: nat, t: Tid, id: Id, cur: Record) returns (b: nat)
    requires IsRun(states, labels) && i < |states| && Holds(states[i], t, id, cur)
    ensures b < i && Get(states[b].store.cache, id) == Some(cur)
    ensures forall n :: b < n <= i ==> Holds(states[n], t, id, cur)
  {
    hide Next, Holds;
    NothingHeldAtFirst(states[0], t, id, cur);
    var going := seq(|states|, n requires 0 <= n < |states| => Holds(states[n], t, id, cur));
    var begins := seq(|states|, n requires 0 <= n < |states| => Get(states[n].store.cache, id) == Some(cur));
    forall n | 0 <= n < i && going[n + 1] ensures going[n] || begins[n] {
      StepIntoHold(states, labels, n, t, id, cur);
    }
    b := Began(going, begins, i);
    forall n | b < n <= i ensures Holds(states[n], t, id, cur) {
      assert going[n];
    }
  }

  /** A step of the run that completes an operation, while or before `t` holds the record of `id` to send. */
  lemma NoRefreshWhileHeld(states: seq<State>, labels: seq<Label>, c: nat, t: Tid, id: Id, cur: Record, item: Item)
    requires IsRun(states, labels) && c < |labels| && Holds(states[c + 1], t, id, cur)
    requires labels[c].Task? && labels[c].t == item.actor && item.actor in states[c].tasks
    requires Pending(states[c].tasks[item.actor]) == Some(item.entry)
    ensures !RefreshOf(item, id)
  {
    hide Step, Inv, ReplyOk, Decides, Passes, Waits, AtomicStep;
    RunStep(states, labels, c);
    RunKeepsInv(states, labels, c);
    if item.actor != t {
      CommitterHoldsPermit(states[c], item.actor, t, id);
    }
  }

  /** What is about to be sent is the row as some moment of the history left it, and no refresh was committed since. */
  lemma HeldRow(states: seq<State>, labels: seq<Label>, i: nat, t: Tid, id: Id, cur: Record) returns (n: nat)
    requires IsRun(states, labels) && i < |states| && Holds(states[i], t, id, cur)
    ensures n <= |states[i].log| && Get(Replay(states[i].origin, states[i].log[..n]), id) == Some(cur)
    ensures forall k :: n <= k < |states[i].log| ==> !RefreshOf(states[i].log[k], id)
  {
    hide Next, Inv, Holds, RefreshOf, Replay, Pending;
    var b := HeldSince(states, labels, i, t, id, cur);
    n := |states[b].log|;
    LogGrows(states, labels, b, i);
    TableIsReplay(states, labels, b);
    assert states[i].log[..n] == states[b].log;
    forall k | n <= k < |states[i].log| ensures !RefreshOf(states[i].log[k], id) {
      var c := LoggedBy(states, labels, i, k);
      if c < b {
        LogGrows(states, labels, c + 1, b);
      }
      NoRefreshWhileHeld(states, labels, c, t, id, cur, states[i].log[k]);
    }
  }

  /**
   Main theorem on rotation: when the last operation on the account was a refresh, the next exchange of it
   sends the refresh token of that answer; where the answer brought none, the one sent before, again.
   */
  lemma NextExchangeSendsTheRotatedToken(
    states: seq<State>, labels: seq<Label>, i: nat, t: Tid, id: Id, cur: Record, k: nat) returns (a: nat)
    requires IsRun(states, labels) && i + 1 < |states| && Sends(states[i], t, states[i + 1], id, cur)
    requires k < |states[i].log| && RefreshOf(states[i].log[k], id)
    requires forall n :: k < n < |states[i].log| ==> !Concerns(states[i].log[n].entry, id)
    ensures a < i && labels[a].Task? && labels[a].t == states[i].log[k].actor && labels[a].e.Tokens?
    ensures cur.credential.Oauth? && cur.credential.oauth.access == labels[a].e.resp.access
    ensures var sent := states[i].log[k].entry.m.sent; var resp := labels[a].e.resp;
            sent.credential.Oauth?
            && cur.credential.oauth.refresh
               == if Blank(resp.refresh) then sent.credential.oauth.refresh else resp.refresh
  {
    hide Next, Inv, Concerns, Replay;
    a := CommittedRefreshShowsItsAnswer(states, labels, i, k);
    var s := states[i];
    var n := HeldRow(states, labels, i, t, id, cur);
    UntouchedRow(s.origin, s.log, k + 1, n, id);
  }
}
