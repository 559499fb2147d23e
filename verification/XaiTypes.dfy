/** xAI account records and the pure decisions the store takes on one record. */
module XaiTypes {
  import opened Prelude
  import opened XaiQuota

  datatype Status = Active | Expired | Invalid

  datatype Record = Record(
    access: string,
    refresh: string,
    idToken: string,
    tokenType: string,
    expiresAt: Stamp,
    lastRefresh: Option<int>,
    email: Option<string>,
    subject: Option<string>,
    endpoint: Option<string>,
    autoRefresh: bool,
    status: Status,
    quota: QuotaCache)

  datatype Response = Response(access: string, refresh: string, idToken: string, tokenType: string, expiresIn: int)

  /** The claims of the merged tokens; decoding them is outside the model. */
  datatype Claims = Claims(email: Option<string>, subject: Option<string>)

  const REFRESH_WINDOW := 5 * 60
  const QUOTA_INTERVAL := 30

  predicate NeedsRefresh(r: Record, now: int) {
    r.expiresAt.Unreadable? || now + REFRESH_WINDOW >= r.expiresAt.seconds
  }

  predicate CanAutoRefresh(r: Record) {
    r.status == Active && r.autoRefresh && !Blank(r.refresh)
  }

  predicate WasRefreshed(previous: Record, current: Record) {
    current.access != previous.access || current.refresh != previous.refresh
    || current.expiresAt != previous.expiresAt || current.lastRefresh != previous.lastRefresh
  }

  /** What a token exchange depends on. */
  datatype Basis = Basis(access: string, refresh: string, endpoint: Option<string>)

  function BasisOf(r: Record): Basis {
    Basis(r.access, r.refresh, r.endpoint)
  }

  /** A header snapshot is stored at most every 30 seconds. */
  predicate QuotaDue(checkedAt: Option<Stamp>, now: int) {
    checkedAt.None? || checkedAt.value.Unreadable? || now - checkedAt.value.seconds >= QUOTA_INTERVAL
  }

  function Filled(stored: Option<string>, claim: Option<string>): Option<string> {
    if claim.Some? && !Blank(claim.value) then Some(Trim(claim.value)) else stored
  }

  function FillIdentity(r: Record, claims: Option<Claims>): Record {
    if claims.None? then r
    else r.(email := Filled(r.email, claims.value.email), subject := Filled(r.subject, claims.value.subject))
  }

  function OrKept(replied: string, kept: string): string {
    if Blank(replied) then kept else replied
  }

  /** Only the token fields change, and the account counts as healthy again. */
  function MergeResponse(r: Record, resp: Response, claims: Option<Claims>, now: int): Record {
    FillIdentity(
      r.(access := resp.access,
         refresh := OrKept(resp.refresh, r.refresh),
         idToken := OrKept(resp.idToken, r.idToken),
         tokenType := OrKept(resp.tokenType, r.tokenType),
         expiresAt := At(now + if resp.expiresIn <= 0 then 3600 else resp.expiresIn),
         lastRefresh := Some(now),
         status := Active),
      claims)
  }

  // ---------- updates of one stored record, under its locks ----------

  datatype Update =
    | Token(attempted: Record, resp: Response, claims: Option<Claims>)
    | InvalidGrant(attempted: Record)
    | SetAuto(enabled: bool)
    | MergeQuota(quota: QuotaCache)
    | QuotaHeaders(headers: Headers, expected: string)

  datatype Decision = Write(record: Record) | Keep

  function Effect(u: Update, latest: Record, now: int): Decision {
    match u
    case Token(attempted, resp, claims) =>
      if BasisOf(attempted) != BasisOf(latest) then Keep else Write(MergeResponse(latest, resp, claims, now))
    case InvalidGrant(attempted) =>
      if BasisOf(attempted) != BasisOf(latest) then Keep else Write(latest.(status := Invalid))
    case SetAuto(enabled) => Write(latest.(autoRefresh := enabled))
    case MergeQuota(quota) => Write(latest.(quota := MergeCache(latest.quota, quota)))
    case QuotaHeaders(h, expected) =>
      if latest.access != expected || !QuotaDue(latest.quota.checkedAt, now) then Keep
      else match Observe(latest.quota, h, now)
        case None => Keep
        case Some(q) => Write(latest.(quota := q))
  }

  /** A successful re-import repairs the health of the account and keeps its local settings. */
  function MergeImport(existing: Record, imported: Record): Record {
    imported.(autoRefresh := existing.autoRefresh, status := Active, quota := existing.quota)
  }

  predicate SameAccount(imported: Record, existing: Record) {
    (NormalId(imported.subject).Some? && NormalId(existing.subject) == NormalId(imported.subject))
    || (NormalEmail(imported.email).Some? && NormalEmail(existing.email) == NormalEmail(imported.email))
  }

  /** Each late completion stays inside its own fields of the record. */
  lemma UpdatesKeepOtherFields(u: Update, r: Record, now: int)
    requires Effect(u, r, now).Write?
    ensures var w := Effect(u, r, now).record;
            && w.endpoint == r.endpoint
            && (!u.SetAuto? ==> w.autoRefresh == r.autoRefresh)
            && (!u.MergeQuota? && !u.QuotaHeaders? ==> w.quota == r.quota)
            && (!u.Token? ==> BasisOf(w) == BasisOf(r) && !WasRefreshed(r, w) && w.idToken == r.idToken
                              && w.email == r.email && w.subject == r.subject)
            && (u.Token? ==> w.status == Active)
            && (u.InvalidGrant? ==> w.status == Invalid)
            && (!u.Token? && !u.InvalidGrant? ==> w.status == r.status)
  {
  }

  /** A refresh and a settings or quota change commute: neither order loses the other's fields. */
  lemma RefreshCommutesWithSettings(r: Record, token: Update, other: Update, at: int, later: int)
    requires token.Token? && (other.SetAuto? || other.MergeQuota?)
    requires Effect(token, r, at).Write?
    ensures Effect(other, Effect(token, r, at).record, later).Write?
    ensures Effect(other, r, later).Write? && Effect(token, Effect(other, r, later).record, at).Write?
    ensures Effect(other, Effect(token, r, at).record, later) == Effect(token, Effect(other, r, later).record, at)
  {
  }
}
