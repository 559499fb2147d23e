/**
 What the committed operations of an xAI run leave in the table: the row after a token response is made of
 that response and of the row before, every update goes back to what caused it, and an import lands on the
 account of the same person.
 */
module XaiContents {
  import opened Prelude
  import opened Since
  import opened XaiHistory
  import opened XaiInvariant
  import opened XaiMachine
  import opened XaiQuota
  import opened XaiRows
  import opened XaiTypes

  // ---------- back from the history to the cause ----------

  /** The step of its actor in which an operation entered the history. */
  lemma {:induction false} LoggedBy(states: seq<State>, labels: seq<Label>, i: nat, k: nat) returns (b: nat)
    requires IsRun(states, labels) && i < |states| && k < |states[i].log|
    ensures b < i && |states[b].log| == k && labels[b].Task? && labels[b].t == states[i].log[k].actor
    ensures states[b + 1].log == states[b].log + [states[i].log[k]]
  {
    hide Next, Inv, OwnOk, DataOk, Effect, WaitOk, Begins, ImportInto;
    StepOfRun(states, labels, i - 1);
    var s, s' := states[i - 1], states[i - 1 + 1];
    if k < |s.log| {
      b := LoggedBy(states, labels, i - 1, k);
      assert s'.log[..|s.log|][k] == s.log[k];
    } else {
      b := i - 1;
      assert s'.log == s'.log[..|s.log|] + [s'.log[k]];
    }
  }

  predicate Updates(s: State, t: Tid, id: Id, u: Update) {
    t in s.tasks && Updating(s.tasks[t]) == Some((id, u))
  }

  predicate Made(s: State, t: Tid, at: int) {
    t in s.tasks && MadeAt(s.tasks[t]) == Some(at)
  }

  /** The step in which `t` decides on the update `u` of `id`. */
  ghost predicate DecidesOn(s: State, l: Label, s': State, t: Tid, id: Id, u: Update) {
    l.Task? && l.t == t && Step(s, t, l.e, s')
    && !Updates(s, t, id, u) && Updates(s', t, id, u) && Decides(s, t, s'.tasks[t])
  }

  lemma StepIntoUpdate(states: seq<State>, labels: seq<Label>, n: nat, t: Tid, id: Id, u: Update)
    requires IsRun(states, labels) && n < |labels| && Updates(states[n + 1], t, id, u)
    ensures Updates(states[n], t, id, u) || DecidesOn(states[n], labels[n], states[n + 1], t, id, u)
  {
    hide Step, Inv, OwnOk, DataOk, WaitOk, Updating, Decides, Times, Commits;
    StepOfRun(states, labels, n);
  }

  lemma StepIntoMade(states: seq<State>, labels: seq<Label>, n: nat, t: Tid, at: int)
    requires IsRun(states, labels) && n < |labels| && Made(states[n + 1], t, at)
    ensures Made(states[n], t, at) || states[n].now == at
  {
    hide Step, Inv, OwnOk, DataOk, WaitOk, Updating, Decides, MadeAt, Commits;
    StepOfRun(states, labels, n);
  }

  lemma NothingDecidedAtFirst(s: State, t: Tid, id: Id, u: Update)
    requires Init(s)
    ensures !Updates(s, t, id, u)
  {
  }

  lemma NothingMadeAtFirst(s: State, t: Tid, at: int)
    requires Init(s)
    ensures !Made(s, t, at)
  {
  }

  lemma DecidedBefore(states: seq<State>, labels: seq<Label>, i: nat, t: Tid, id: Id, u: Update) returns (a: nat)
    requires IsRun(states, labels) && i < |states| && Updates(states[i], t, id, u)
    ensures a < i && DecidesOn(states[a], labels[a], states[a + 1], t, id, u)
    ensures forall n :: a < n <= i ==> Updates(states[n], t, id, u)
  {
    hide Next, Updates, DecidesOn;
    NothingDecidedAtFirst(states[0], t, id, u);
    var going := seq(|states|, n requires 0 <= n < |states| => Updates(states[n], t, id, u));
    var begins := seq(|states|, n requires 0 <= n < |states| =>
      n < |labels| && DecidesOn(states[n], labels[n], states[n + 1], t, id, u));
    forall n | 0 <= n < i && going[n + 1] ensures going[n] || begins[n] {
      StepIntoUpdate(states, labels, n, t, id, u);
    }
    a := Began(going, begins, i);
    forall n | a < n <= i ensures Updates(states[n], t, id, u) {
      assert going[n];
    }
  }

  lemma MadeBefore(states: seq<State>, labels: seq<Label>, i: nat, t: Tid, at: int) returns (b: nat)
    requires IsRun(states, labels) && i < |states| && Made(states[i], t, at)
    ensures b < i && states[b].now == at
    ensures forall n :: b < n <= i ==> Made(states[n], t, at)
  {
    hide Next, Made;
    NothingMadeAtFirst(states[0], t, at);
    var going := seq(|states|, n requires 0 <= n < |states| => Made(states[n], t, at));
    var begins := seq(|states|, n requires 0 <= n < |states| => states[n].now == at);
    forall n | 0 <= n < i && going[n + 1] ensures going[n] || begins[n] {
      StepIntoMade(states, labels, n, t, at);
    }
    b := Began(going, begins, i);
    forall n | b < n <= i ensures Made(states[n], t, at) {
      assert going[n];
    }
  }

  /** What the logged update says of the step that committed it. */
  lemma LoggedWasMade(states: seq<State>, labels: seq<Label>, i: nat, k: nat) returns (c: nat)
    requires IsRun(states, labels) && i < |states| && k < |states[i].log| && states[i].log[k].entry.Updated?
    ensures c < i && |states[c].log| == k
    ensures var Item(t, e) := states[i].log[k]; Updates(states[c], t, e.id, e.u) && Made(states[c], t, e.at)
  {
    hide Next, Inv, OwnOk, DataOk, Effect, WaitOk, Begins, Updating, MadeAt;
    c := LoggedBy(states, labels, i, k);
    StepOfRun(states, labels, c);
  }

  /** What came right before an update was decided on, by the kind of the update. */
  ghost predicate Caused(s: State, l: Label, t: Tid, id: Id, u: Update) {
    l.Task? && l.t == t &&
    match u
    case Token(attempted, resp, claims) => l.e == Tokens(resp, claims) && Exchanges(s, t, id, attempted)
    case InvalidGrant(attempted) => l.e == Rejected(true) && Exchanges(s, t, id, attempted)
    case SetAuto(_) => l.e.Spawn? && t !in s.tasks
    case MergeQuota(_) => l.e.Spawn? && t !in s.tasks
    case QuotaHeaders(h, expected) =>
      l.e.Run? && LoadsFor(s, t, id, ForHeaders(h, expected)) && id in s.cache && s.cache[id].access == expected
  }

  lemma DecisionsAreCaused(s: State, l: Label, s': State, t: Tid, id: Id, u: Update)
    requires DecidesOn(s, l, s', t, id, u)
    ensures Caused(s, l, t, id, u)
  {
    match u
    case Token(_, _, _) => AnswersDecide(s, l, s', t, id, u);
    case InvalidGrant(_) => AnswersDecide(s, l, s', t, id, u);
    case QuotaHeaders(_, _) => HeadersDecide(s, l, s', t, id, u);
    case _ =>
  }

  lemma AnswersDecide(s: State, l: Label, s': State, t: Tid, id: Id, u: Update)
    requires DecidesOn(s, l, s', t, id, u) && (u.Token? || u.InvalidGrant?)
    ensures Caused(s, l, t, id, u)
  {
    hide Step, Updating, Exchanges;
    assert Exchanges(s, t, id, u.attempted);
    AnswerIs(s, l.e, s', t, id, u.attempted, u);
  }

  /** A task that waits for the token endpoint goes on to an update only by its answer. */
  lemma AnswerIs(s: State, e: Event, s': State, t: Tid, id: Id, attempted: Record, u: Update)
    requires Exchanges(s, t, id, attempted) && Step(s, t, e, s') && Updates(s', t, id, u)
    ensures e.Tokens? || e == Rejected(true)
    ensures e.Tokens? ==> u == Token(attempted, e.resp, e.claims)
    ensures e.Rejected? ==> u == InvalidGrant(attempted)
  {
    hide Advance, AfterDbFail, DropPermit, Free;
  }

  lemma HeadersDecide(s: State, l: Label, s': State, t: Tid, id: Id, u: Update)
    requires DecidesOn(s, l, s', t, id, u) && u.QuotaHeaders?
    ensures Caused(s, l, t, id, u)
  {
    hide Step, Updating;
    OnlyLoadsDecide(s, l, s', t, id, u);
    LookDecides(s, s', t, id, u.headers, u.expected);
  }

  /** A look on behalf of headers goes on to an update only with the row of their token in hand. */
  lemma LookDecides(s: State, s': State, t: Tid, id: Id, h: Headers, expected: string)
    requires LoadsFor(s, t, id, ForHeaders(h, expected)) && Step(s, t, Run, s')
    ensures t in s'.tasks && (Updating(s'.tasks[t]).Some? ==> id in s.cache && s.cache[id].access == expected)
  {
    hide AfterDbFail, Resume, Updating;
    LooksUpdateNothing(id, ForHeaders(h, expected));
    HeadersResume(s, t, id, h, expected, Get(s.cache, id));
  }

  lemma OnlyLoadsDecide(s: State, l: Label, s': State, t: Tid, id: Id, u: Update)
    requires DecidesOn(s, l, s', t, id, u) && u.QuotaHeaders?
    ensures LoadsFor(s, t, id, ForHeaders(u.headers, u.expected)) && l.e.Run?
  {
    hide Advance, AfterDbFail;
  }

  lemma LooksUpdateNothing(id: Id, p: Purpose)
    requires p.ForHeaders?
    ensures Updating(ReloadWait(JobLoad(id, p))).None?
  {
  }

  lemma HeadersResume(s: State, t: Tid, id: Id, h: Headers, expected: string, got: Option<Record>)
    ensures var s' := Resume(s, t, id, ForHeaders(h, expected), got);
            t in s'.tasks && (Updating(s'.tasks[t]).Some? ==> got.Some? && got.value.access == expected)
  {
    hide QuotaDue, Observe;
  }

  /**
   Main theorem on the contents of a refresh.  Whatever ran in between, a committed token response was the
   answer to an exchange of the credentials it replaced; the row after it shows that response field by field,
   with times counted from the moment the row was read under its locks, and all else as the row had it.
   */
  lemma CommittedResponseShows(states: seq<State>, labels: seq<Label>, i: nat, k: nat, id: Id) returns (a: nat, b: nat)
    requires IsRun(states, labels) && i < |states| && k < |states[i].log| && TokenOf(states[i].log[k].entry, id)
    ensures a <= b < i && |states[b].log| <= k
    ensures var Item(t, e) := states[i].log[k];
            && labels[a] == Task(t, Tokens(e.u.resp, e.u.claims)) && Exchanges(states[a], t, id, e.u.attempted)
            && var before, after := RowAt(states[i].origin, states[i].log, k, id),
                                    RowAt(states[i].origin, states[i].log, k + 1, id);
               before.Some? && after.Some? && BasisOf(before.value) == BasisOf(e.u.attempted)
               && Shows(after.value, before.value, e.u.resp, e.u.claims, states[b].now)
  {
    hide Next, Inv, Updates, Made, Shows, MergeResponse, DecidesOn, BasisOf;
    var Item(t, e) := states[i].log[k];
    var c := LoggedWasMade(states, labels, i, k);
    a := DecidedBefore(states, labels, c, t, id, e.u);
    b := MadeBefore(states, labels, c, t, e.at);
    DecisionsAreCaused(states[a], labels[a], states[a + 1], t, id, e.u);
    if b < a {
      NothingMadeWhileExchanging(states[a], t, id, e.u.attempted, e.at);
    }
    LogGrows(states, labels, b, c);
    LoggedAreEffective(states, labels, i);
    ResponseIsMerged(states[i].origin, states[i].log, k, id);
    MergedShowsTheResponse(RowAt(states[i].origin, states[i].log, k, id).value, e.u.resp, e.u.claims, e.at);
  }

  lemma NothingMadeWhileExchanging(s: State, t: Tid, id: Id, rec: Record, at: int)
    requires Exchanges(s, t, id, rec)
    ensures !Made(s, t, at)
  {
  }

  lemma ResponseIsMerged(origin: map<Id, Record>, log: seq<Item>, k: nat, id: Id)
    requires k < |log| && EffectiveAt(origin, log, k) && TokenOf(log[k].entry, id)
    ensures var e := log[k].entry; var before := RowAt(origin, log, k, id);
            before.Some? && BasisOf(before.value) == BasisOf(e.u.attempted)
            && RowAt(origin, log, k + 1, id) == Some(MergeResponse(before.value, e.u.resp, e.u.claims, e.at))
  {
    hide MergeResponse;
    assert log[..k + 1][..k] == log[..k];
  }

  /** The same for every other update in the history: each goes back to the call or the answer that caused it. */
  lemma CommittedUpdatesHaveCauses(states: seq<State>, labels: seq<Label>, i: nat, k: nat) returns (a: nat)
    requires IsRun(states, labels) && i < |states| && k < |states[i].log| && states[i].log[k].entry.Updated?
    ensures a < i && a < |labels| && |states[a].log| <= k
    ensures var Item(t, e) := states[i].log[k]; Caused(states[a], labels[a], t, e.id, e.u)
  {
    hide Next, Inv, Updates, Made, DecidesOn, Caused;
    var Item(t, e) := states[i].log[k];
    var c := LoggedWasMade(states, labels, i, k);
    a := DecidedBefore(states, labels, c, t, e.id, e.u);
    DecisionsAreCaused(states[a], labels[a], states[a + 1], t, e.id, e.u);
    LogGrows(states, labels, a, c);
  }

  // ---------- import identity ----------

  /**
   Main theorem on import identity: every import or login in the history of a run landed, of the accounts there
   were at that moment, on one of the same subject or the same e-mail, and made a new account exactly when
   there was none.
   */
  lemma ImportsLandRight(states: seq<State>, labels: seq<Label>, i: nat, k: nat)
    requires IsRun(states, labels) && i < |states| && k < |states[i].log| && states[i].log[k].entry.Imported?
    ensures var m, e := Replay(states[i].origin, states[i].log[..k]), states[i].log[k].entry;
            && (e.id in m ==> SamePerson(e.record, m[e.id]))
            && (e.id !in m <==> forall other :: other in m ==> !SamePerson(e.record, m[other]))
            && var after := Replay(states[i].origin, states[i].log[..k + 1]);
               e.id in after
               && (if e.id in m then TakesOver(after[e.id], e.record, m[e.id]) else after[e.id] == e.record)
  {
    hide Next, SamePerson, TakesOver, ImportInto, Perform;
    LoggedAreEffective(states, labels, i);
    var origin, log := states[i].origin, states[i].log;
    assert EffectiveAt(origin, log, k);
    var m, e := Replay(origin, log[..k]), log[k].entry;
    TargetsOverFields(m, e.record, e.id);
    ImportedRow(m, e.record, e.id);
    assert log[..k + 1][..k] == log[..k];
  }
}
