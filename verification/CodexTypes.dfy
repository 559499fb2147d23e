/** Codex account records and the pure decisions the store takes on one record. */
module CodexTypes {
  import opened Prelude

  datatype Status = Active | Expired | Invalid

  datatype OAuth = OAuth(
    access: string,
    refresh: string,
    clientId: Option<string>,
    idToken: string,
    autoRefresh: bool,
    deviceId: Option<string>,
    expiresAt: Stamp,
    lastRefresh: Option<int>)

  datatype Credential =
    | Oauth(oauth: OAuth)
    | AgentIdentity(runtimeId: string, taskId: Option<string>)

  datatype QuotaItem = QuotaItem(name: string, used: Option<real>, resetAt: Option<int>)

  datatype Quota = Quota(
    plan: Option<string>,
    items: seq<QuotaItem>,
    error: Option<string>,
    checkedAt: Option<int>)

  datatype Record = Record(
    credential: Credential,
    status: Status,
    accountId: Option<string>,
    userId: Option<string>,
    email: Option<string>,
    quota: Quota,
    threshold: Option<real>)

  // ---------- health of one record ----------

  predicate IsExpired(r: Record, now: int) {
    match r.credential
    case AgentIdentity(_, _) => false
    case Oauth(o) => o.expiresAt.Unreadable? || now >= o.expiresAt.seconds
  }

  function EffectiveStatus(r: Record, now: int): Status {
    if r.status == Invalid then Invalid else if IsExpired(r, now) then Expired else Active
  }

  predicate IsUsable(r: Record, now: int) {
    EffectiveStatus(r, now) == Active
  }

  const REFRESH_WINDOW := 24 * 3600

  /** An Agent Identity record has no expiry, so it also lands here; callers test for OAuth next. */
  predicate NeedsRefresh(r: Record, now: int) {
    match r.credential
    case AgentIdentity(_, _) => true
    case Oauth(o) => o.expiresAt.Unreadable? || now + REFRESH_WINDOW >= o.expiresAt.seconds
  }

  predicate CanAutoRefresh(r: Record) {
    r.credential.Oauth? && r.status != Invalid && r.credential.oauth.autoRefresh
    && !Blank(r.credential.oauth.refresh)
  }

  /** The window still counts: no reset time is known, or it lies in the future. */
  predicate WindowOpen(i: QuotaItem, now: int) {
    i.resetAt.None? || i.resetAt.value > now
  }

  predicate WindowOver(i: QuotaItem, limit: real) {
    i.used.Some? && i.used.value >= limit
  }

  predicate ThresholdReached(r: Record, now: int) {
    r.threshold.Some? && r.threshold.value > 0.0
    && exists i :: 0 <= i < |r.quota.items| && WindowOpen(r.quota.items[i], now)
                   && WindowOver(r.quota.items[i], r.threshold.value)
  }

  /** A window has used as much as the user's threshold allows, or more. */
  predicate OverThreshold(r: Record, i: QuotaItem) {
    r.threshold.Some? && r.threshold.value > 0.0 && i.used.Some? && i.used.value >= r.threshold.value
  }

  /**
   Time alone never blocks an account, and it releases a blocked one exactly when the provider's reset
   times of all windows over the user's threshold have passed; a window without a reset time never does.
   */
  lemma ThresholdReleasedIff(r: Record, now: int, later: int)
    requires now <= later
    ensures ThresholdReached(r, later) ==> ThresholdReached(r, now)
    ensures ThresholdReached(r, now) ==>
              (!ThresholdReached(r, later) <==>
               forall i :: 0 <= i < |r.quota.items| && OverThreshold(r, r.quota.items[i])
                           ==> r.quota.items[i].resetAt.Some? && r.quota.items[i].resetAt.value <= later)
  {
  }

  /** Only a provider reset time releases a blocked account: with none due, time changes nothing. */
  lemma ThresholdHoldsUntilReset(r: Record, now: int, later: int)
    requires now <= later && ThresholdReached(r, now)
    requires forall i :: 0 <= i < |r.quota.items| && r.quota.items[i].resetAt.Some?
                         ==> !(now < r.quota.items[i].resetAt.value <= later)
    ensures ThresholdReached(r, later)
  {
  }

  // ---------- credential generations ----------

  /** The credential fields a refresh replaces; two records share a generation when all agree. */
  datatype Generation = Generation(
    access: string,
    refresh: string,
    clientId: Option<string>,
    idToken: string,
    expiresAt: Stamp,
    lastRefresh: Option<int>)

  function GenOf(o: OAuth): Generation {
    Generation(o.access, o.refresh, o.clientId, o.idToken, o.expiresAt, o.lastRefresh)
  }

  /** `token_record_was_refreshed`: false as soon as one side is not OAuth. */
  predicate WasRefreshed(previous: Record, current: Record) {
    match (previous.credential, current.credential)
    case (Oauth(p), Oauth(c)) =>
      c.access != p.access || c.refresh != p.refresh || c.idToken != p.idToken
      || c.clientId != p.clientId || c.lastRefresh != p.lastRefresh || c.expiresAt != p.expiresAt
    case _ => false
  }

  // ---------- updates under the provider gate ----------

  /** A read-modify-write of one stored record, run under the provider gate. */
  datatype Mutation =
    | SetAuto(enabled: bool)
    | SetThreshold(percent: Option<real>)
    | CommitQuota(quota: Quota)
    | MarkInvalid(failed: Record)
    | CommitRefresh(sent: Record, refreshed: Record)

  /** Write a new row, keep the row as it is, or refuse with an error. */
  datatype Decision = Write(record: Record) | Keep | Refuse

  /** Only new credentials and the identity they carry are merged; the rest stays current. */
  function MergeRefresh(current: Record, refreshed: Record): Record {
    var credential :=
      match (current.credential, refreshed.credential)
      case (Oauth(c), Oauth(n)) => Oauth(n.(autoRefresh := c.autoRefresh, deviceId := c.deviceId))
      case (_, n) => n;
    current.(
      credential := credential,
      status := if current.status == Invalid then Invalid else Active,
      accountId := refreshed.accountId,
      userId := refreshed.userId,
      email := refreshed.email)
  }

  function Effect(m: Mutation, current: Record): Decision {
    match m
    case SetAuto(enabled) =>
      if current.credential.Oauth?
      then Write(current.(credential := Oauth(current.credential.oauth.(autoRefresh := enabled))))
      else Refuse
    case SetThreshold(percent) => Write(current.(threshold := percent))
    case CommitQuota(quota) => Write(current.(quota := quota))
    case MarkInvalid(failed) =>
      if WasRefreshed(failed, current) then Keep else Write(current.(status := Invalid))
    case CommitRefresh(sent, refreshed) =>
      if WasRefreshed(sent, current) then Keep else Write(MergeRefresh(current, refreshed))
  }

  // ---------- import over an existing account ----------

  predicate NewTokens(existing: Record, imported: Record) {
    existing.credential.Oauth? && imported.credential.Oauth?
    && (imported.credential.oauth.access != existing.credential.oauth.access
        || imported.credential.oauth.refresh != existing.credential.oauth.refresh)
  }

  /** Re-import: credentials come from the import, local settings from the existing record. */
  function MergeImport(existing: Record, imported: Record): Record {
    var credential :=
      match (imported.credential, existing.credential)
      case (Oauth(i), Oauth(e)) =>
        Oauth(i.(autoRefresh := e.autoRefresh,
                 clientId := i.clientId.OrElse(e.clientId),
                 deviceId := i.deviceId.OrElse(e.deviceId)))
      case (c, _) => c;
    imported.(
      credential := credential,
      status := if NewTokens(existing, imported) then imported.status else existing.status,
      threshold := existing.threshold)
  }

  // ---------- answers of the token endpoint ----------

  const CODEX_CLIENT := "app_EMoamEEZ73f0CkXaXp7hrann"
  const MOBILE_CLIENT := "app_LlGpXReQgckcGGUo2JrYvtJK"

  /** The client a refresh must use, or None when the stored client id is not supported. */
  function RefreshClient(o: OAuth): Option<string> {
    if o.clientId.None? then Some(CODEX_CLIENT)
    else if Trim(o.clientId.value) == CODEX_CLIENT then Some(CODEX_CLIENT)
    else if Trim(o.clientId.value) == MOBILE_CLIENT then Some(MOBILE_CLIENT)
    else None
  }

  datatype Response = Response(access: string, refresh: string, idToken: string, expiresIn: int)

  /** What the claims of a token say about the account; decoding them is outside the model. */
  datatype Claims = Claims(accountId: Option<string>, userId: Option<string>, email: Option<string>)

  /** Claims win over the stored fields; the id token is asked before the access token. */
  function FillIdentity(r: Record, idClaims: Claims, accessClaims: Claims): Record {
    if !r.credential.Oauth? then r
    else r.(
      accountId := idClaims.accountId.OrElse(accessClaims.accountId).OrElse(r.accountId),
      userId := idClaims.userId.OrElse(accessClaims.userId).OrElse(r.userId),
      email := idClaims.email.OrElse(accessClaims.email).OrElse(r.email))
  }

  /** The record built from a successful exchange of the credentials in `sent`. */
  function Refreshed(sent: Record, resp: Response, idClaims: Claims, accessClaims: Claims, now: int): (r: Record)
    requires sent.credential.Oauth? && RefreshClient(sent.credential.oauth).Some?
    ensures r.credential.Oauth?
  {
    var o := sent.credential.oauth;
    var minted := OAuth(
      resp.access,
      if Blank(resp.refresh) then o.refresh else resp.refresh,
      RefreshClient(o),
      if Blank(resp.idToken) then o.idToken else resp.idToken,
      o.autoRefresh,
      o.deviceId,
      At(now + if resp.expiresIn <= 0 then 3600 else resp.expiresIn),
      Some(now));
    FillIdentity(sent.(credential := Oauth(minted)), idClaims, accessClaims)
  }
}
