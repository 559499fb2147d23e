/**
 Import identity of Codex accounts: which record an import lands on, and what any run of imports keeps.
 */
module CodexImport {
  import opened Prelude
  import opened CodexIdentity
  import opened CodexTypes
  import opened CodexMachine
  import opened CodexInvariant
  import opened CodexRules
  import opened CodexSteps
  import opened CodexHistory

  function Workspace(r: Record): Option<string> {
    NormalId(r.accountId)
  }

  /** Two accounts with a known user are never the same user in the same workspace. */
  ghost predicate PairsUnique(m: map<Id, Record>) {
    forall a, b | a in m && b in m && a != b && NormalId(m[a].userId).Some? ::
      NormalId(m[a].userId) != NormalId(m[b].userId) || Workspace(m[a]) != Workspace(m[b])
  }

  /** One import changes one record and keeps every account's workspace. */
  lemma ImportKeepsWorkspaces(m: map<Id, Record>, r: Record, id: Id)
    requires ImportInto(m, r, id)
    ensures var m' := Perform(m, Imported(id, r));
            && m'.Keys == m.Keys + {id}
            && (forall a :: a in m && a != id ==> m'[a] == m[a])
            && (forall a :: a in m ==> Workspace(m'[a]) == Workspace(m[a]))
  {
  }

  /** What the import writes carries the imported identity. */
  lemma ImportedIdentity(m: map<Id, Record>, r: Record, id: Id)
    ensures var next := Perform(m, Imported(id, r))[id];
            next.userId == r.userId && next.accountId == r.accountId && next.email == r.email
  {
  }

  /** Imports never create a second account for a user in a workspace. */
  lemma ImportKeepsPairsUnique(m: map<Id, Record>, r: Record, id: Id)
    requires PairsUnique(m) && ImportInto(m, r, id)
    ensures PairsUnique(Perform(m, Imported(id, r)))
  {
    var m' := Perform(m, Imported(id, r));
    ImportedIdentity(m, r, id);
    forall a, b | a in m' && b in m' && a != b && NormalId(m'[a].userId).Some?
      ensures NormalId(m'[a].userId) != NormalId(m'[b].userId) || Workspace(m'[a]) != Workspace(m'[b])
    {
      if a != id && b != id {
        assert m'[a] == m[a] && m'[b] == m[b];
      } else {
        var other := if a == id then b else a;
        assert m'[other] == m[other];
        NoSecondPair(m, r, id, other);
      }
    }
  }

  /** No account other than the target is the imported user in the imported workspace. */
  lemma NoSecondPair(m: map<Id, Record>, r: Record, id: Id, other: Id)
    requires PairsUnique(m) && ImportInto(m, r, id) && other in m && other != id
    ensures !UserMatch(r, m[other])
  {
    if IsTarget(m, r, id) && UserMatch(r, m[id]) {
      assert NormalId(m[id].userId) != NormalId(m[other].userId) || Workspace(m[id]) != Workspace(m[other])
        || NormalId(r.userId).None?;
    } else {
      assert UserMatch(r, m[other]) ==> HasUserMatch(m, r);
    }
  }

  // ---------- imports inside runs ----------

  /** Every import in the history landed where the identity rules say. */
  ghost predicate ImportedWell(origin: map<Id, Record>, log: seq<Item>) {
    forall k :: 0 <= k < |log| && log[k].entry.Imported? ==>
      ImportInto(Replay(origin, log[..k]), log[k].entry.record, log[k].entry.id)
  }

  lemma ExtendImportedWell(origin: map<Id, Record>, log: seq<Item>, item: Item)
    requires ImportedWell(origin, log)
    requires item.entry.Imported? ==> ImportInto(Replay(origin, log), item.entry.record, item.entry.id)
    ensures ImportedWell(origin, log + [item])
  {
    hide ImportInto, Perform;
    var longer := log + [item];
    forall k | 0 <= k < |longer| && longer[k].entry.Imported?
      ensures ImportInto(Replay(origin, longer[..k]), longer[k].entry.record, longer[k].entry.id)
    {
      assert longer[..k] == if k < |log| then log[..k] else log;
    }
  }

  lemma StepImportsWell(s: State, t: Tid, e: Event, s': State)
    requires Inv(s) && Step(s, t, e, s') && ImportedWell(s.origin, s.log)
    ensures ImportedWell(s'.origin, s'.log)
  {
    hide Inv, Step, ImportedWell, ImportInto, Replay, Perform;
    StepIsAtomic(s, t, e, s');
    if t in s.tasks && Pending(s.tasks[t]).Some? {
      TaskFacts(s, t);
      ExtendImportedWell(s.origin, s.log, Item(t, Pending(s.tasks[t]).value));
    }
  }

  lemma {:induction false} RunImportsWell(states: seq<State>, labels: seq<Label>, i: nat)
    requires IsRun(states, labels) && i < |states|
    ensures ImportedWell(states[i].origin, states[i].log)
  {
    hide Inv, Step, ImportInto, Replay;
    if i > 0 {
      RunImportsWell(states, labels, i - 1);
      RunKeepsInv(states, labels, i - 1);
      assert Next(states[i - 1], labels[i - 1], states[i - 1 + 1]);
      if labels[i - 1].Task? {
        StepImportsWell(states[i - 1], labels[i - 1].t, labels[i - 1].e, states[i]);
      }
    }
  }

  /**
   Main theorem on import identity: every import in the history of a run landed, of the accounts there were at
   that moment, on one of the same user and workspace, or else of the same e-mail and workspace where at most
   one side knows its user; it made a new account exactly when there was none, and so never replaced another
   person's.
   */
  lemma ImportsLandRight(states: seq<State>, labels: seq<Label>, i: nat, k: nat)
    requires IsRun(states, labels) && i < |states| && k < |states[i].log| && states[i].log[k].entry.Imported?
    ensures var m, e := Replay(states[i].origin, states[i].log[..k]), states[i].log[k].entry;
            && LandsRight(m, e.record, e.id)
            && (e.id !in m <==>
                  forall other :: other in m ==> !SameUser(e.record, m[other]) && !SameAddress(e.record, m[other]))
            && (e.id in m ==>
                  && (Known(e.record.userId) && Known(m[e.id].userId) ==>
                        Trim(e.record.userId.value) == Trim(m[e.id].userId.value))
                  && (!Known(e.record.userId) && !Known(m[e.id].userId) ==> SameMail(e.record.email, m[e.id].email)))
  {
    hide Next, Replay, ImportInto, SameUser, SameAddress, SameMail, Known;
    RunImportsWell(states, labels, i);
    var m, e := Replay(states[i].origin, states[i].log[..k]), states[i].log[k].entry;
    TargetsOverFields(m, e.record, e.id);
    if e.id in m {
      NeverAnotherAccount(m, e.record, e.id);
    }
  }

  /** The same user in the same workspace. */
  predicate SameIdentity(r: Record, s: Record) {
    NormalId(r.userId) == NormalId(s.userId) && Workspace(r) == Workspace(s)
  }

  /** No restore, and no refresh commit whose tokens name another user or workspace than the record has. */
  predicate KeepsIdentity(m: map<Id, Record>, e: Entry) {
    !e.Restored? && (e.Mutated? && e.m.CommitRefresh? && e.id in m ==> SameIdentity(m[e.id], e.m.refreshed))
  }

  /** Every operation of the history keeps identities where it falls. */
  ghost predicate IdentitiesKept(origin: map<Id, Record>, log: seq<Item>) {
    forall k :: 0 <= k < |log| ==> KeepsIdentity(Replay(origin, log[..k]), log[k].entry)
  }

  lemma EntryKeepsPairs(m: map<Id, Record>, e: Entry)
    requires KeepsIdentity(m, e) && PairsUnique(m) && (e.Imported? ==> ImportInto(m, e.record, e.id))
    ensures PairsUnique(Perform(m, e))
  {
    if e.Imported? {
      ImportKeepsPairsUnique(m, e.record, e.id);
    } else {
      var m' := Perform(m, e);
      assert forall a :: a in m' ==> a in m && SameIdentity(m[a], m'[a]);
    }
  }

  /**
   Import identity over histories of imports, refreshes that keep the identity, settings, quota,
   invalidations and deletes, in any order: (user, workspace) pairs stay unique, and an account never
   deleted never changes its workspace.
   */
  lemma {:induction false} HistoryKeepsIdentity(origin: map<Id, Record>, log: seq<Item>)
    requires ImportedWell(origin, log) && PairsUnique(origin) && IdentitiesKept(origin, log)
    ensures PairsUnique(Replay(origin, log))
    ensures forall a :: a in origin && (forall k :: 0 <= k < |log| ==> log[k].entry != Deleted(a))
              ==> a in Replay(origin, log) && Workspace(Replay(origin, log)[a]) == Workspace(origin[a])
  {
    if log != [] {
      var front, last := log[..|log| - 1], log[|log| - 1];
      assert forall k :: 0 <= k < |front| ==> front[..k] == log[..k] && front[k] == log[k];
      HistoryKeepsIdentity(origin, front);
      EntryKeepsPairs(Replay(origin, front), last.entry);
      forall a | a in origin && (forall k :: 0 <= k < |log| ==> log[k].entry != Deleted(a))
        ensures a in Replay(origin, log) && Workspace(Replay(origin, log)[a]) == Workspace(origin[a])
      {
        assert log[|log| - 1].entry != Deleted(a);
        EntryKeepsWorkspace(Replay(origin, front), last.entry, a);
      }
    }
  }

  lemma EntryKeepsWorkspace(m: map<Id, Record>, e: Entry, a: Id)
    requires KeepsIdentity(m, e) && a in m && e != Deleted(a) && (e.Imported? ==> ImportInto(m, e.record, e.id))
    ensures a in Perform(m, e) && Workspace(Perform(m, e)[a]) == Workspace(m[a])
  {
  }

  lemma ImportedSince(origin: map<Id, Record>, log: seq<Item>, n: nat)
    requires ImportedWell(origin, log) && n <= |log|
    ensures ImportedWell(Replay(origin, log[..n]), log[n..])
  {
    hide Perform, ImportInto;
    var base, since := Replay(origin, log[..n]), log[n..];
    forall k | 0 <= k < |since| && since[k].entry.Imported?
      ensures ImportInto(Replay(base, since[..k]), since[k].entry.record, since[k].entry.id)
    {
      assert since[k] == log[n + k];
      ReplaySplit(origin, log[..n + k], n);
      assert log[..n + k][..n] == log[..n] && log[..n + k][n..] == since[..k];
    }
  }

  /** The same for the table itself, at any two moments of any run at which the gate is free. */
  lemma RunKeepsIdentity(states: seq<State>, labels: seq<Label>, i: nat, j: nat, since: seq<Item>)
    requires IsRun(states, labels) && i <= j < |states| && states[j].log == states[i].log + since
    requires states[i].gate.None? && states[j].gate.None? && PairsUnique(states[i].store.db)
    requires IdentitiesKept(states[i].store.db, since)
    ensures PairsUnique(states[j].store.db)
    ensures forall a :: a in states[i].store.db && (forall k :: 0 <= k < |since| ==> since[k].entry != Deleted(a))
              ==> a in states[j].store.db
                  && Workspace(states[j].store.db[a]) == Workspace(states[i].store.db[a])
  {
    hide Next, Perform, PairsUnique, IdentitiesKept, ImportedWell, Workspace;
    TableIsReplay(states, labels, i);
    TableIsReplay(states, labels, j);
    LogGrows(states, labels, i, j);
    RunImportsWell(states, labels, j);
    var origin, log, n := states[j].origin, states[j].log, |states[i].log|;
    assert log[..n] == states[i].log && log[n..] == since;
    ReplaySplit(origin, log, n);
    ImportedSince(origin, log, n);
    HistoryKeepsIdentity(Replay(origin, log[..n]), since);
  }
}
