/**
 The fields of one xAI account, followed separately: tokens and identity, health, the user's setting and
 the quota are each what the operations that own them produce on their own, whatever else completed in
 between.
 */
module XaiFields {
  import opened Prelude
  import opened XaiHistory
  import opened XaiMachine
  import opened XaiQuota
  import opened XaiTypes

  /** One committed operation on an account that exists. */
  datatype AccountOp = Update(u: XaiTypes.Update, at: int) | Reimport(imported: Record)

  function ApplyOp(r: Record, op: AccountOp): Record {
    match op
    case Update(u, at) => if Effect(u, r, at).Write? then Effect(u, r, at).record else r
    case Reimport(imported) => MergeImport(r, imported)
  }

  /** The record after running the operations one at a time, first to last. */
  function Fold(r: Record, ops: seq<AccountOp>): Record {
    if ops == [] then r else ApplyOp(Fold(r, ops[..|ops| - 1]), ops[|ops| - 1])
  }

  // ---------- one fold per field ----------

  /** A record without setting, health and quota: its tokens, endpoint and identity. */
  function Bare(r: Record): Record {
    r.(autoRefresh := false, status := Active, quota := EMPTY)
  }

  /** Tokens change by a response for exactly the tokens held, or by an import; by nothing else. */
  function BareAfter(bare: Record, ops: seq<AccountOp>): Record {
    if ops == [] then bare
    else
      var before := BareAfter(bare, ops[..|ops| - 1]);
      match ops[|ops| - 1]
      case Update(Token(attempted, resp, claims), at) =>
        if BasisOf(attempted) == BasisOf(before) then Bare(MergeResponse(before, resp, claims, at)) else before
      case Reimport(imported) => Bare(imported)
      case _ => before
  }

  function AutoAfter(enabled: bool, ops: seq<AccountOp>): bool {
    if ops == [] then enabled
    else match ops[|ops| - 1]
      case Update(SetAuto(e), _) => e
      case _ => AutoAfter(enabled, ops[..|ops| - 1])
  }

  /** Health follows what befalls the tokens, and nothing the user can set. */
  function StatusAfter(status: Status, bare: Record, ops: seq<AccountOp>): Status {
    if ops == [] then status
    else
      var held := BasisOf(BareAfter(bare, ops[..|ops| - 1]));
      var was := StatusAfter(status, bare, ops[..|ops| - 1]);
      match ops[|ops| - 1]
      case Update(Token(attempted, _, _), _) => if BasisOf(attempted) == held then Active else was
      case Update(InvalidGrant(attempted), _) => if BasisOf(attempted) == held then Invalid else was
      case Reimport(_) => Active
      case _ => was
  }

  /** Snapshots are merged in order; headers count only for the access token held and when they are due. */
  function QuotaAfter(quota: QuotaCache, bare: Record, ops: seq<AccountOp>): QuotaCache {
    if ops == [] then quota
    else
      var held := BareAfter(bare, ops[..|ops| - 1]).access;
      var before := QuotaAfter(quota, bare, ops[..|ops| - 1]);
      match ops[|ops| - 1]
      case Update(MergeQuota(q), _) => MergeCache(before, q)
      case Update(QuotaHeaders(h, expected), at) =>
        if held == expected && QuotaDue(before.checkedAt, at) then Observe(before, h, at).OrElse(Some(before)).value
        else before
      case _ => before
  }

  /** The record reassembled from the separate folds. */
  function Assemble(r: Record, ops: seq<AccountOp>): Record {
    BareAfter(Bare(r), ops).(
      autoRefresh := AutoAfter(r.autoRefresh, ops),
      status := StatusAfter(r.status, Bare(r), ops),
      quota := QuotaAfter(r.quota, Bare(r), ops))
  }

  lemma {:induction false} BareIsBare(bare: Record, ops: seq<AccountOp>)
    requires Bare(bare) == bare
    ensures Bare(BareAfter(bare, ops)) == BareAfter(bare, ops)
  {
    hide MergeResponse;
    if ops != [] {
      BareIsBare(bare, ops[..|ops| - 1]);
    }
  }

  lemma ResponseIsBare(r: Record, resp: Response, claims: Option<Claims>, at: int)
    ensures MergeResponse(r, resp, claims, at)
            == Bare(MergeResponse(Bare(r), resp, claims, at)).(autoRefresh := r.autoRefresh, quota := r.quota)
  {
  }

  /** Whole-record writes one at a time equal the separate folds: no completion loses another's field. */
  lemma {:induction false} FoldIsFieldwise(r: Record, ops: seq<AccountOp>)
    ensures Fold(r, ops) == Assemble(r, ops)
  {
    hide MergeCache, Observe, QuotaDue, MergeResponse;
    if ops != [] {
      FoldIsFieldwise(r, ops[..|ops| - 1]);
      var before, last := Fold(r, ops[..|ops| - 1]), ops[|ops| - 1];
      if last.Update? && last.u.Token? {
        ResponseIsBare(before, last.u.resp, last.u.claims, last.at);
        assert Bare(before) == BareAfter(Bare(r), ops[..|ops| - 1]) by { BareIsBare(Bare(r), ops[..|ops| - 1]); }
      }
    }
  }

  // ---------- one account in a history ----------

  /** The operations of the history that concern account `id`. */
  function OpsFor(log: seq<Item>, id: Id): seq<AccountOp> {
    if log == [] then []
    else
      var front := OpsFor(log[..|log| - 1], id);
      match log[|log| - 1].entry
      case Updated(i, u, at) => if i == id then front + [Update(u, at)] else front
      case Imported(i, r) => if i == id then front + [Reimport(r)] else front
      case _ => front
  }

  /** Neither deleted nor restored in this stretch of history. */
  predicate Undisturbed(log: seq<Item>, id: Id) {
    forall i :: 0 <= i < |log| ==>
      match log[i].entry
      case Deleted(d) => d != id
      case Restored(All(_)) => false
      case Restored(One(d, _)) => d != id
      case _ => true
  }

  lemma OtherOpsLeaveAccount(m: map<Id, Record>, e: Entry, id: Id)
    requires id in m && Undisturbed([Item(0, e)], id)
    ensures id in Perform(m, e)
    ensures Perform(m, e)[id]
            == match e
               case Updated(i, u, at) => if i == id then ApplyOp(m[id], Update(u, at)) else m[id]
               case Imported(i, r) => if i == id then ApplyOp(m[id], Reimport(r)) else m[id]
               case _ => m[id]
  {
    hide Effect, MergeImport;
    assert [Item(0, e)][0].entry == e;
  }

  /** Whatever befalls other accounts, a row is the fold of its own operations. */
  lemma {:induction false} AccountIsFold(origin: map<Id, Record>, log: seq<Item>, id: Id)
    requires id in origin && Undisturbed(log, id)
    ensures id in Replay(origin, log) && Replay(origin, log)[id] == Fold(origin[id], OpsFor(log, id))
  {
    hide Perform, ApplyOp;
    if log != [] {
      var front, last := log[..|log| - 1], log[|log| - 1];
      AccountIsFold(origin, front, id);
      assert Undisturbed([Item(0, last.entry)], id);
      OtherOpsLeaveAccount(Replay(origin, front), last.entry, id);
      var ops := OpsFor(front, id);
      assert forall op :: (ops + [op])[..|ops|] == ops;
    }
  }

  lemma {:induction false} ReplaySplit(origin: map<Id, Record>, log: seq<Item>, rest: seq<Item>)
    ensures Replay(origin, log + rest) == Replay(Replay(origin, log), rest)
  {
    if rest == [] {
      assert log + rest == log;
    } else {
      ReplaySplit(origin, log, rest[..|rest| - 1]);
      assert (log + rest)[..|log + rest| - 1] == log + rest[..|rest| - 1];
    }
  }

  /**
   Take any two moments of a run.  If the account exists at the first and is neither deleted nor restored
   until the second, its row at the second is assembled field by field from the row at the first, each
   field from the operations that own it.
   */
  lemma AccountRunIsFieldwise(states: seq<State>, labels: seq<Label>, i: nat, j: nat, id: Id, since: seq<Item>)
    requires IsRun(states, labels) && i <= j < |states| && id in states[i].db
    requires states[j].log == states[i].log + since && Undisturbed(since, id)
    ensures id in states[j].db && states[j].db[id] == Assemble(states[i].db[id], OpsFor(since, id))
  {
    hide IsRun, Assemble, Undisturbed;
    TableIsReplay(states, labels, i);
    TableIsReplay(states, labels, j);
    LogGrows(states, labels, i, j);
    ReplaySplit(states[i].origin, states[i].log, since);
    AccountIsFold(states[i].db, since, id);
    FoldIsFieldwise(states[i].db[id], OpsFor(since, id));
  }
}
