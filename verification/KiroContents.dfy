/**
 What the Kiro store decides and what its operations leave in the table, over the fields of the records: when
 an account is refreshed and who is served what, the row after a refresh, and the account an import lands on.
 */
module KiroContents {
  import opened Prelude
  import opened Since
  import opened KiroInvariant
  import opened KiroMachine
  import opened KiroRuns

  // ---------- decisions ----------

  /** The token has run out, or nobody can tell. */
  predicate HasExpired(r: Record, now: int) {
    r.expiresAt.Unreadable? || r.expiresAt.seconds <= now
  }

  /** None of the fields that make up the credentials differs. */
  predicate SameCredentials(a: Record, b: Record) {
    a.cred.access == b.cred.access && a.cred.refresh == b.cred.refresh && a.cred.authMethod == b.cred.authMethod
    && a.cred.provider == b.cred.provider && a.cred.profileArn == b.cred.profileArn
    && a.cred.clientId == b.cred.clientId && a.cred.clientSecret == b.cred.clientSecret
    && a.cred.region == b.cred.region && a.cred.startUrl == b.cred.startUrl
  }

  /** The step runs on from a load of `id` for `p`, which found what the cache holds. */
  predicate Loads(s: State, t: Tid, s': State, id: Id, p: Purpose) {
    Next(s, Task(t, Run), s') && t in s.tasks
    && ((s.tasks[t] == Load(id, p) && id in s.cache) || s.tasks[t] == LoadAgain(id, p))
  }

  predicate GoesTo(s: State, t: Tid, s': State, pc: Pc) {
    s' == s.(tasks := s.tasks[t := pc])
  }

  /** The task ends with `reply`, and gives the permit of `id` back. */
  predicate EndsWith(s: State, t: Tid, s': State, id: Id, reply: Reply) {
    s'.tasks == s.tasks[t := Done(reply)] && s'.refreshing == s.refreshing - {id} && s'.permit == s.permit - {id}
  }

  lemma LoadResumes(s: State, t: Tid, s': State, id: Id, p: Purpose)
    requires Loads(s, t, s', id, p)
    ensures s' == Resume(s, t, id, p, Get(s.cache, id))
  {
    hide Resume, GateFree;
  }

  /** What a task has answered is its last word: a task that is done takes no further step. */
  lemma DoneIsDone(s: State, t: Tid, e: Event, s': State)
    requires Step(s, t, e, s')
    ensures t in s.tasks ==> !s.tasks[t].Done?
  {
    hide Advance, AfterDbFail, GateFree;
  }

  /** A record is served as it is exactly while it has not expired and nobody asked to refresh it. */
  lemma GetDecides(s: State, t: Tid, s': State, id: Id, force: bool)
    requires Loads(s, t, s', id, ForGet(force))
    ensures GoesTo(s, t, s',
                   if id !in s.cache then Done(Failed)
                   else if force || HasExpired(s.cache[id], s.now) then Start(id, s.cache[id])
                   else Done(Served(id, s.cache[id])))
  {
    hide Next;
    LoadResumes(s, t, s', id, ForGet(force));
  }

  /** One task gets the permit of an account; the others follow it for at most 35 seconds. */
  lemma PermitDecides(s: State, t: Tid, s': State, id: Id, prev: Record)
    requires Next(s, Task(t, Run), s') && t in s.tasks && s.tasks[t] == Start(id, prev)
    ensures id in s.refreshing ==> GoesTo(s, t, s', Follow(id, prev, s.now + 35))
    ensures id !in s.refreshing ==>
              s' == s.(refreshing := s.refreshing + {id}, permit := s.permit[id := t],
                       tasks := s.tasks[t := Load(id, ForPermit(prev))])
  {
    hide GateFree;
  }

  /** With the permit the credentials are sent exactly when they are still those the refresh was started for. */
  lemma ReloadDecides(s: State, t: Tid, s': State, id: Id, prev: Record)
    requires Loads(s, t, s', id, ForPermit(prev))
    ensures if id !in s.cache then EndsWith(s, t, s', id, Failed)
            else if SameCredentials(prev, s.cache[id]) then GoesTo(s, t, s', Exchange(id, s.cache[id]))
            else EndsWith(s, t, s', id, Served(id, s.cache[id]))
  {
    hide Next;
    LoadResumes(s, t, s', id, ForPermit(prev));
  }

  lemma FollowDecides(s: State, t: Tid, s': State, id: Id, prev: Record, deadline: int)
    requires Next(s, Task(t, Run), s') && t in s.tasks && s.tasks[t] == Follow(id, prev, deadline)
    ensures if id !in s.refreshing then GoesTo(s, t, s', Load(id, ForFollow(prev)))
            else if s.now < deadline then s' == s
            else GoesTo(s, t, s', Done(Failed))
  {
    hide GateFree;
  }

  /** A follower is served when the credentials changed, or their times did and they have not expired. */
  lemma FollowedDecides(s: State, t: Tid, s': State, id: Id, prev: Record)
    requires Loads(s, t, s', id, ForFollow(prev))
    ensures GoesTo(s, t, s',
                   if id in s.cache
                      && (!SameCredentials(prev, s.cache[id])
                          || (!HasExpired(s.cache[id], s.now)
                              && !(prev.expiresAt == s.cache[id].expiresAt
                                   && prev.lastRefresh == s.cache[id].lastRefresh)))
                   then Done(Served(id, s.cache[id])) else Done(Failed))
  {
    hide Next;
    LoadResumes(s, t, s', id, ForFollow(prev));
  }

  /** Under the gate a result is written exactly when the credentials that were sent are still in place. */
  lemma CommitDecides(s: State, t: Tid, s': State, id: Id, cur: Record, result: Option<Record>)
    requires Next(s, Task(t, Run), s') && t in s.tasks && s.tasks[t] == Pc.Commit(id, cur, result)
    ensures s'.db == s.db && s'.cache == s.cache
    ensures if id !in s.cache then EndsWith(s, t, s', id, Failed)
            else if !SameCredentials(cur, s.cache[id]) then EndsWith(s, t, s', id, Served(id, s.cache[id]))
            else if result.None? then EndsWith(s, t, s', id, Failed)
            else t in s'.tasks && s'.tasks[t].SaveDb? && s'.tasks[t].id == id
                 && s'.tasks[t].why == BecauseRefresh(cur, result.value)
                 && ShowsResult(s'.tasks[t].next, s.cache[id], result.value)
  {
    hide Next, SameCredentials, ShowsResult, MergeRefresh;
    CommitRuns(s, t, s', id, cur, result);
    if id in s.cache {
      CredentialsOverFields(cur, s.cache[id]);
      if result.Some? {
        MergedShowsResult(s.cache[id], result.value);
      }
    }
  }

  lemma CredentialsOverFields(a: Record, b: Record)
    ensures SameCredentials(a, b) <==> a.cred == b.cred
  {
  }

  lemma MergedShowsResult(before: Record, result: Record)
    ensures ShowsResult(MergeRefresh(before, result), before, result)
  {
  }

  lemma CommitRuns(s: State, t: Tid, s': State, id: Id, cur: Record, result: Option<Record>)
    requires Next(s, Task(t, Run), s') && t in s.tasks && s.tasks[t] == Pc.Commit(id, cur, result)
    ensures s' == StepCommit(s, t, id, cur, result)
  {
    hide GateFree, StepCommit;
  }

  /** A written refresh is served, unless it brought a token that has already run out. */
  lemma SaveDecides(s: State, t: Tid, s': State, id: Id, next: Record, sent: Record, result: Record, ok: bool)
    requires Next(s, Task(t, if ok then Run else DbFail), s') && t in s.tasks
    requires s.tasks[t] == if ok then SaveCache(id, next, BecauseRefresh(sent, result))
                           else SaveDb(id, next, BecauseRefresh(sent, result))
    ensures EndsWith(s, t, s', id, if ok && !HasExpired(next, s.now) then Served(id, next) else Failed)
    ensures s'.db == s.db && s'.cache == if ok then s.cache[id := next] else s.cache
  {
    hide GateFree, Resume;
  }

  /** An import alone answers; in a session it goes back to it. */
  lemma ImportDecides(s: State, t: Tid, s': State, id: Id, next: Record, imported: Record, ses: Session, ok: bool)
    requires Next(s, Task(t, if ok then Run else DbFail), s') && t in s.tasks
    requires s.tasks[t] == if ok then SaveCache(id, next, BecauseImport(imported, ses))
                           else SaveDb(id, next, BecauseImport(imported, ses))
    ensures ses.Alone? ==> s'.tasks == s.tasks[t := Done(if ok then Nothing else Failed)]
    ensures ses.Inside? ==> s'.tasks == s.tasks[t := SesOpen(ses.base, ses.mark)]
    ensures s'.db == s.db && s'.cache == if ok then s.cache[id := next] else s.cache
  {
    hide GateFree, Resume;
  }

  /** A delete succeeds exactly when the account has a row and the call does not fail. */
  lemma DeleteDecides(s: State, t: Tid, s': State, id: Id, ok: bool)
    requires Next(s, Task(t, if ok then Run else DbFail), s') && t in s.tasks && s.tasks[t] == DelDb(id)
    ensures if ok && id in s.db then s'.db == s.db - {id} && t in s'.tasks && s'.tasks[t] == DelCache(id)
            else GoesTo(s, t, s', Done(Failed))
  {
    hide GateFree, Resume;
  }

  lemma DeleteEnds(s: State, t: Tid, s': State, id: Id)
    requires Next(s, Task(t, Run), s') && t in s.tasks && s.tasks[t] == DelCache(id)
    ensures s'.tasks == s.tasks[t := Done(Nothing)] && s'.cache == s.cache - {id} && s'.db == s.db
  {
    hide GateFree, Resume;
  }

  /** A restore that has reached the cache is over. */
  lemma RestoreEnds(s: State, t: Tid, s': State, rows: map<Id, Record>, ses: Session)
    requires Next(s, Task(t, Run), s') && t in s.tasks && s.tasks[t] == RestCache(rows, ses)
    ensures s'.tasks == s.tasks[t := Done(Nothing)] && s'.db == s.db && s'.cache == rows
    ensures s'.refreshing == s.refreshing
  {
    hide GateFree, Resume;
  }

  // ---------- the row after a refresh ----------

  /** The row is the result of the exchange, with the quota of the row before and its e-mail where it has one. */
  predicate ShowsResult(row: Record, before: Record, result: Record) {
    && SameCredentials(row, result) && row.expiresAt == result.expiresAt && row.lastRefresh == result.lastRefresh
    && row.status == result.status && row.quota == before.quota
    && (before.email.Some? ==> row.email == before.email)
    && (before.email.None? ==> row.email == result.email)
  }

  /** The step of its actor in which an operation entered the history. */
  lemma {:induction false} LoggedBy(states: seq<State>, labels: seq<Label>, i: nat, k: nat) returns (b: nat)
    requires IsRun(states, labels) && i < |states| && k < |states[i].log|
    ensures b < i && |states[b].log| == k && labels[b].Task? && labels[b].t == states[i].log[k].actor
    ensures states[b + 1].log == states[b].log + [states[i].log[k]]
  {
    hide Next, Inv, OwnOk, DataOk, Begins, Committing, ImportInto;
    StepOfRun(states, labels, i - 1);
    var s, s' := states[i - 1], states[i - 1 + 1];
    if k < |s.log| {
      b := LoggedBy(states, labels, i - 1, k);
      assert s'.log[..|s.log|][k] == s.log[k];
    } else {
      b := i - 1;
      assert s'.log == s'.log[..|s.log|] + [s'.log[k]];
    }
  }

  predicate CommitsTo(s: State, t: Tid, id: Id, sent: Record, result: Record) {
    t in s.tasks && Committing(s.tasks[t]) == Some((id, sent, result))
  }

  /** The step is the answer to an exchange of `sent`. */
  predicate Answered(s: State, l: Label, t: Tid, id: Id, sent: Record, result: Record) {
    l == Task(t, Answer(Some(result))) && t in s.tasks && s.tasks[t] == Exchange(id, sent)
  }

  lemma StepIntoCommit(
    states: seq<State>, labels: seq<Label>, n: nat, t: Tid, id: Id, sent: Record, result: Record)
    requires IsRun(states, labels) && n < |labels| && CommitsTo(states[n + 1], t, id, sent, result)
    ensures CommitsTo(states[n], t, id, sent, result) || Answered(states[n], labels[n], t, id, sent, result)
  {
    hide Step, Inv, OwnOk, DataOk, Commits, Committing;
    StepOfRun(states, labels, n);
    if !CommitsTo(states[n], t, id, sent, result) {
      OnlyAnswersCommit(states[n], labels[n].e, states[n + 1], t, id, sent, result);
    }
  }

  lemma OnlyAnswersCommit(s: State, e: Event, s': State, t: Tid, id: Id, sent: Record, result: Record)
    requires Step(s, t, e, s') && t in s.tasks && s.tasks[t] == Exchange(id, sent) && CommitsTo(s', t, id, sent, result)
    ensures e == Answer(Some(result))
  {
    hide Advance, AfterDbFail, GateFree;
  }

  lemma NothingToCommitAtFirst(s: State, t: Tid, id: Id, sent: Record, result: Record)
    requires Init(s)
    ensures !CommitsTo(s, t, id, sent, result)
  {
  }

  lemma AnsweredBefore(
    states: seq<State>, labels: seq<Label>, i: nat, t: Tid, id: Id, sent: Record, result: Record) returns (a: nat)
    requires IsRun(states, labels) && i < |states| && CommitsTo(states[i], t, id, sent, result)
    ensures a < i && Answered(states[a], labels[a], t, id, sent, result)
  {
    hide Next, CommitsTo, Answered;
    NothingToCommitAtFirst(states[0], t, id, sent, result);
    var going := seq(|states|, n requires 0 <= n < |states| => CommitsTo(states[n], t, id, sent, result));
    var begins := seq(|states|, n requires 0 <= n < |states| =>
      n < |labels| && Answered(states[n], labels[n], t, id, sent, result));
    forall n | 0 <= n < i && going[n + 1] ensures going[n] || begins[n] {
      StepIntoCommit(states, labels, n, t, id, sent, result);
    }
    a := Began(going, begins, i);
  }

  /**
   Main theorem on the contents of a refresh: a committed refresh was the answer to an exchange of the very
   credentials it replaced, and the row after it shows that answer, with quota and e-mail of the row before.
   */
  lemma CommittedRefreshShowsItsResult(states: seq<State>, labels: seq<Label>, i: nat, k: nat) returns (a: nat)
    requires IsRun(states, labels) && i < |states| && k < |states[i].log| && states[i].log[k].entry.Refreshed?
    ensures a < i && |states[a].log| <= k
    ensures var Item(t, e) := states[i].log[k];
            && Answered(states[a], labels[a], t, e.id, e.sent, e.result)
            && var before, after := RowAt(states[i].origin, states[i].log, k, e.id),
                                    RowAt(states[i].origin, states[i].log, k + 1, e.id);
               before.Some? && after.Some? && SameCredentials(before.value, e.sent)
               && ShowsResult(after.value, before.value, e.result)
  {
    hide Next, Inv, OwnOk, DataOk, Begins, CommitsTo, Committing, Answered;
    var Item(t, e) := states[i].log[k];
    var c := LoggedBy(states, labels, i, k);
    StepOfRun(states, labels, c);
    assert CommitsTo(states[c], t, e.id, e.sent, e.result) by { CommitterIs(states, labels, c, t, e); }
    a := AnsweredBefore(states, labels, c, t, e.id, e.sent, e.result);
    LogGrows(states, labels, a, c);
    LoggedAreEffective(states, labels, i);
    assert EffectiveAt(states[i].origin, states[i].log, k);
    assert states[i].log[..k + 1][..k] == states[i].log[..k];
  }

  lemma CommitterIs(states: seq<State>, labels: seq<Label>, c: nat, t: Tid, e: Entry)
    requires IsRun(states, labels) && c < |labels| && labels[c].Task? && labels[c].t == t && e.Refreshed?
    requires states[c + 1].log == states[c].log + [Item(t, e)]
    ensures CommitsTo(states[c], t, e.id, e.sent, e.result)
  {
    hide Next, Inv, OwnOk, DataOk, Begins, Committing;
    StepOfRun(states, labels, c);
  }

  // ---------- import identity ----------

  /** The same provider, and the same e-mail; the same profile where the import has no e-mail. */
  predicate SamePerson(imported: Record, existing: Record) {
    Lower(Trim(imported.cred.provider)) == Lower(Trim(existing.cred.provider))
    && (SameMail(imported.email, existing.email)
        || (!Known(imported.email) && SameKnown(imported.cred.profileArn, existing.cred.profileArn)))
  }

  lemma MatchesOverFields(imported: Record, existing: Record)
    ensures SameAccount(imported, existing) <==> SamePerson(imported, existing)
  {
    hide Blank, Trim, Lower;
  }

  lemma TargetsOverFields(m: map<Id, Record>, r: Record, id: Id)
    ensures ImportInto(m, r, id) <==>
            if id in m then SamePerson(r, m[id]) else forall other :: other in m ==> !SamePerson(r, m[other])
  {
    hide SameAccount, SamePerson;
    forall other | other in m ensures SameAccount(r, m[other]) <==> SamePerson(r, m[other]) {
      MatchesOverFields(r, m[other]);
    }
  }

  /** The import, with the quota of the account and healthy again. */
  predicate TakesOver(row: Record, imported: Record, existing: Record) {
    row.cred == imported.cred && row.expiresAt == imported.expiresAt && row.lastRefresh == imported.lastRefresh
    && row.email == imported.email && row.status == Active && row.quota == existing.quota
  }

  /**
   Main theorem on import identity: every import in the history of a run landed, of the accounts there were at that
   moment, on one of the same person, and made a new account exactly when there was none.
   */
  lemma ImportsLandRight(states: seq<State>, labels: seq<Label>, i: nat, k: nat)
    requires IsRun(states, labels) && i < |states| && k < |states[i].log| && states[i].log[k].entry.Imported?
    ensures var m, e := Replay(states[i].origin, states[i].log[..k]), states[i].log[k].entry;
            && (e.id in m ==> SamePerson(e.record, m[e.id]))
            && (e.id !in m <==> forall other :: other in m ==> !SamePerson(e.record, m[other]))
            && var after := Replay(states[i].origin, states[i].log[..k + 1]);
               e.id in after
               && (if e.id in m then TakesOver(after[e.id], e.record, m[e.id]) else after[e.id] == e.record)
  {
    hide Next, SamePerson, ImportInto;
    LoggedAreEffective(states, labels, i);
    var origin, log := states[i].origin, states[i].log;
    assert EffectiveAt(origin, log, k);
    TargetsOverFields(Replay(origin, log[..k]), log[k].entry.record, log[k].entry.id);
    assert log[..k + 1][..k] == log[..k];
  }
}
