/**
 The fields of one account, followed separately.  Whatever gate order interleaved refresh commits,
 quota commits, settings changes, invalidations and re-imports end up in, each field of the final
 record is what the operations that own that field produce on their own.
 */
module CodexFields {
  import opened Prelude
  import opened CodexTypes

  /** One gated operation on an account that exists. */
  datatype AccountOp = Update(m: Mutation) | Reimport(imported: Record)

  function ApplyOp(r: Record, op: AccountOp): Record {
    match op
    case Update(m) => (match Effect(m, r) case Write(next) => next case _ => r)
    case Reimport(imported) => MergeImport(r, imported)
  }

  /** The record after running the operations one at a time, first to last. */
  function Fold(r: Record, ops: seq<AccountOp>): Record {
    if ops == [] then r else ApplyOp(Fold(r, ops[..|ops| - 1]), ops[|ops| - 1])
  }

  /** The operation carries OAuth credentials wherever it carries credentials. */
  predicate OauthOp(op: AccountOp) {
    match op
    case Update(MarkInvalid(failed)) => failed.credential.Oauth?
    case Update(CommitRefresh(sent, refreshed)) => sent.credential.Oauth? && refreshed.credential.Oauth?
    case Update(_) => true
    case Reimport(imported) => imported.credential.Oauth?
  }

  predicate OauthOps(ops: seq<AccountOp>) {
    forall i :: 0 <= i < |ops| ==> OauthOp(ops[i])
  }

  // ---------- one fold per field; none of them looks at another field ----------

  function QuotaAfter(quota: Quota, ops: seq<AccountOp>): Quota {
    if ops == [] then quota
    else match ops[|ops| - 1]
      case Update(CommitQuota(q)) => q
      case Reimport(imported) => imported.quota
      case _ => QuotaAfter(quota, ops[..|ops| - 1])
  }

  function ThresholdAfter(threshold: Option<real>, ops: seq<AccountOp>): Option<real> {
    if ops == [] then threshold
    else match ops[|ops| - 1]
      case Update(SetThreshold(percent)) => percent
      case _ => ThresholdAfter(threshold, ops[..|ops| - 1])
  }

  function AutoAfter(enabled: bool, ops: seq<AccountOp>): bool {
    if ops == [] then enabled
    else match ops[|ops| - 1]
      case Update(SetAuto(e)) => e
      case _ => AutoAfter(enabled, ops[..|ops| - 1])
  }

  function DeviceAfter(device: Option<string>, ops: seq<AccountOp>): Option<string>
    requires OauthOps(ops)
  {
    if ops == [] then device
    else match ops[|ops| - 1]
      case Reimport(imported) =>
        imported.credential.oauth.deviceId.OrElse(DeviceAfter(device, ops[..|ops| - 1]))
      case _ => DeviceAfter(device, ops[..|ops| - 1])
  }

  /** A refresh replaces the generation it was sent for and no other: compare-and-swap. */
  function GenAfter(gen: Generation, ops: seq<AccountOp>): Generation
    requires OauthOps(ops)
  {
    if ops == [] then gen
    else
      var before := GenAfter(gen, ops[..|ops| - 1]);
      match ops[|ops| - 1]
      case Update(CommitRefresh(sent, refreshed)) =>
        if GenOf(sent.credential.oauth) == before then GenOf(refreshed.credential.oauth) else before
      case Reimport(imported) =>
        GenOf(imported.credential.oauth).(
          clientId := imported.credential.oauth.clientId.OrElse(before.clientId))
      case _ => before
  }

  /** Health depends on the generations and on nothing the user can set. */
  function StatusAfter(status: Status, gen: Generation, ops: seq<AccountOp>): Status
    requires OauthOps(ops)
  {
    if ops == [] then status
    else
      var before := GenAfter(gen, ops[..|ops| - 1]);
      var was := StatusAfter(status, gen, ops[..|ops| - 1]);
      match ops[|ops| - 1]
      case Update(MarkInvalid(failed)) =>
        if GenOf(failed.credential.oauth) == before then Invalid else was
      case Update(CommitRefresh(sent, _)) =>
        if GenOf(sent.credential.oauth) == before && was != Invalid then Active else was
      case Reimport(imported) =>
        var o := imported.credential.oauth;
        if o.access != before.access || o.refresh != before.refresh then imported.status else was
      case _ => was
  }

  datatype Identity = Identity(accountId: Option<string>, userId: Option<string>, email: Option<string>)

  function IdentityOf(r: Record): Identity {
    Identity(r.accountId, r.userId, r.email)
  }

  function IdentityAfter(who: Identity, gen: Generation, ops: seq<AccountOp>): Identity
    requires OauthOps(ops)
  {
    if ops == [] then who
    else match ops[|ops| - 1]
      case Update(CommitRefresh(sent, refreshed)) =>
        if GenOf(sent.credential.oauth) == GenAfter(gen, ops[..|ops| - 1])
        then IdentityOf(refreshed) else IdentityAfter(who, gen, ops[..|ops| - 1])
      case Reimport(imported) => IdentityOf(imported)
      case _ => IdentityAfter(who, gen, ops[..|ops| - 1])
  }

  /** The record reassembled from the separate folds. */
  function Assemble(r: Record, ops: seq<AccountOp>): Record
    requires r.credential.Oauth? && OauthOps(ops)
  {
    var gen := GenOf(r.credential.oauth);
    var g := GenAfter(gen, ops);
    var who := IdentityAfter(IdentityOf(r), gen, ops);
    Record(
      Oauth(OAuth(g.access, g.refresh, g.clientId, g.idToken,
                  AutoAfter(r.credential.oauth.autoRefresh, ops),
                  DeviceAfter(r.credential.oauth.deviceId, ops),
                  g.expiresAt, g.lastRefresh)),
      StatusAfter(r.status, gen, ops),
      who.accountId, who.userId, who.email,
      QuotaAfter(r.quota, ops),
      ThresholdAfter(r.threshold, ops))
  }

  /** Refinement: running whole-record writes one at a time equals the separate folds. */
  lemma {:induction false} FoldIsFieldwise(r: Record, ops: seq<AccountOp>)
    requires r.credential.Oauth? && OauthOps(ops)
    ensures Fold(r, ops) == Assemble(r, ops)
  {
    if ops != [] {
      FoldIsFieldwise(r, ops[..|ops| - 1]);
    }
  }

  /** The operations that own a field decide it: dropping all the others changes nothing. */
  predicate OwnsQuota(op: AccountOp) {
    op.Reimport? || op.m.CommitQuota?
  }

  function OnlyQuota(ops: seq<AccountOp>): seq<AccountOp> {
    if ops == [] then []
    else if OwnsQuota(ops[|ops| - 1]) then OnlyQuota(ops[..|ops| - 1]) + [ops[|ops| - 1]]
    else OnlyQuota(ops[..|ops| - 1])
  }

  predicate OwnsCredentials(op: AccountOp) {
    op.Reimport? || op.m.CommitRefresh?
  }

  function OnlyCredentials(ops: seq<AccountOp>): seq<AccountOp> {
    if ops == [] then []
    else if OwnsCredentials(ops[|ops| - 1]) then OnlyCredentials(ops[..|ops| - 1]) + [ops[|ops| - 1]]
    else OnlyCredentials(ops[..|ops| - 1])
  }

  /** Equal credentials and identity in two OAuth records. */
  predicate SameCredentials(r: Record, s: Record) {
    r.credential.Oauth? && s.credential.Oauth?
    && GenOf(r.credential.oauth) == GenOf(s.credential.oauth) && IdentityOf(r) == IdentityOf(s)
  }

  lemma OwningOpIsDeterminedByCredentials(r: Record, s: Record, op: AccountOp)
    requires SameCredentials(r, s) && OauthOp(op)
    ensures SameCredentials(ApplyOp(r, op), ApplyOp(s, op))
  {
    match op
    case Reimport(_) =>
    case Update(m) => match m case SetAuto(_) => case _ =>
  }

  lemma OtherOpKeepsCredentials(r: Record, op: AccountOp)
    requires r.credential.Oauth? && OauthOp(op) && !OwnsCredentials(op)
    ensures SameCredentials(ApplyOp(r, op), r)
  {
    match op.m
    case SetAuto(_) =>
    case _ =>
  }

  /** A quota completion never changes credentials: erase them all, the generation is the same. */
  lemma {:induction false} OtherOpsNeverChangeCredentials(r: Record, ops: seq<AccountOp>)
    requires r.credential.Oauth? && OauthOps(ops)
    ensures SameCredentials(Fold(r, ops), Fold(r, OnlyCredentials(ops)))
  {
    if ops != [] {
      var front, last := ops[..|ops| - 1], ops[|ops| - 1];
      OtherOpsNeverChangeCredentials(r, front);
      var kept := OnlyCredentials(front);
      if OwnsCredentials(last) {
        OwningOpIsDeterminedByCredentials(Fold(r, front), Fold(r, kept), last);
        assert (kept + [last])[..|kept|] == kept;
      } else {
        OtherOpKeepsCredentials(Fold(r, front), last);
      }
    }
  }

  /** A refresh never loses quota: erase refreshes and settings, the quota is the same. */
  lemma {:induction false} OtherOpsNeverChangeQuota(r: Record, ops: seq<AccountOp>)
    requires r.credential.Oauth? && OauthOps(ops)
    ensures Fold(r, ops).quota == Fold(r, OnlyQuota(ops)).quota
  {
    if ops != [] {
      var front, last := ops[..|ops| - 1], ops[|ops| - 1];
      OtherOpsNeverChangeQuota(r, front);
      if OwnsQuota(last) {
        assert OnlyQuota(ops)[..|OnlyQuota(ops)| - 1] == OnlyQuota(front);
      }
    }
  }

  /**
   An account invalid at some point is active later only if a re-import in between brought an access
   or refresh token the account did not have: no refresh, quota or settings completion revives it.
   */
  lemma {:induction false} InvalidIsAbsorbing(r: Record, ops: seq<AccountOp>)
    requires r.credential.Oauth? && OauthOps(ops)
    requires r.status == Invalid && Fold(r, ops).status != Invalid
    ensures exists i :: 0 <= i < |ops| && ops[i].Reimport? && NewTokens(Fold(r, ops[..i]), ops[i].imported)
  {
    FoldIsFieldwise(r, ops);
    var front, last := ops[..|ops| - 1], ops[|ops| - 1];
    FoldIsFieldwise(r, front);
    if Fold(r, front).status != Invalid {
      InvalidIsAbsorbing(r, front);
      var i :| 0 <= i < |front| && front[i].Reimport? && NewTokens(Fold(r, front[..i]), front[i].imported);
      assert front[..i] == ops[..i] && front[i] == ops[i];
    } else {
      assert ops[|ops| - 1].Reimport? && NewTokens(Fold(r, ops[..|ops| - 1]), last.imported);
    }
  }
}
