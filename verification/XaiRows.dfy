/**
 Rows of the xAI table over their fields: what a token response and an import leave in one, and when an
 imported record and a stored account are the same.
 */
module XaiRows {
  import opened Prelude
  import opened XaiInvariant
  import opened XaiMachine
  import opened XaiTypes

  // ---------- the row after a token response ----------

  /** A claim replaces the field only when it says something. */
  predicate Claimed(value: Option<string>, claim: Option<string>, before: Option<string>) {
    value == if Known(claim) then Some(Trim(claim.value)) else before
  }

  /** `row` shows the response that was merged onto `before` at `at`; all else is as it was. */
  predicate Shows(row: Record, before: Record, resp: Response, claims: Option<Claims>, at: int) {
    && row.access == resp.access
    && (Blank(resp.refresh) ==> row.refresh == before.refresh)
    && (!Blank(resp.refresh) ==> row.refresh == resp.refresh)
    && (Blank(resp.idToken) ==> row.idToken == before.idToken)
    && (!Blank(resp.idToken) ==> row.idToken == resp.idToken)
    && (Blank(resp.tokenType) ==> row.tokenType == before.tokenType)
    && (!Blank(resp.tokenType) ==> row.tokenType == resp.tokenType)
    && (resp.expiresIn > 0 ==> row.expiresAt == Stamp.At(at + resp.expiresIn))
    && (resp.expiresIn <= 0 ==> row.expiresAt == Stamp.At(at + 3600))
    && row.lastRefresh == Some(at) && row.status == Active
    && Claimed(row.email, if claims.Some? then claims.value.email else None, before.email)
    && Claimed(row.subject, if claims.Some? then claims.value.subject else None, before.subject)
    && row.endpoint == before.endpoint && row.autoRefresh == before.autoRefresh && row.quota == before.quota
  }

  lemma MergedShowsTheResponse(before: Record, resp: Response, claims: Option<Claims>, at: int)
    ensures Shows(MergeResponse(before, resp, claims, at), before, resp, claims, at)
  {
    hide Blank, Trim;
  }

  // ---------- import identity ----------

  /** The same subject, or the same e-mail address. */
  predicate SamePerson(imported: Record, existing: Record) {
    SameKnown(imported.subject, existing.subject) || SameMail(imported.email, existing.email)
  }

  lemma MatchesOverFields(imported: Record, existing: Record)
    ensures SameAccount(imported, existing) <==> SamePerson(imported, existing)
  {
    hide Blank, Trim, Lower;
  }

  lemma TargetsOverFields(m: map<Id, Record>, r: Record, id: Id)
    ensures ImportInto(m, r, id) <==>
            if id in m then SamePerson(r, m[id]) else forall other :: other in m ==> !SamePerson(r, m[other])
  {
    hide SameAccount, SamePerson;
    forall other | other in m ensures SameAccount(r, m[other]) <==> SamePerson(r, m[other]) {
      MatchesOverFields(r, m[other]);
    }
  }

  /** An import over an account keeps its setting and quota, makes it healthy, and takes all else from the import. */
  predicate TakesOver(row: Record, imported: Record, existing: Record) {
    && row.access == imported.access && row.refresh == imported.refresh && row.idToken == imported.idToken
    && row.tokenType == imported.tokenType && row.expiresAt == imported.expiresAt
    && row.lastRefresh == imported.lastRefresh && row.email == imported.email && row.subject == imported.subject
    && row.endpoint == imported.endpoint
    && row.status == Active && row.autoRefresh == existing.autoRefresh && row.quota == existing.quota
  }

  lemma ImportedRow(m: map<Id, Record>, r: Record, id: Id)
    ensures var m' := Perform(m, Imported(id, r));
            && m'.Keys == m.Keys + {id} && (forall other :: other in m && other != id ==> m'[other] == m[other])
            && (if id in m then TakesOver(m'[id], r, m[id]) else m'[id] == r)
  {
  }
}
