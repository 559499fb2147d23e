/**
 When an imported Codex record and a stored account are the same, over the fields themselves, and what the
 row becomes when an import lands on it.
 */
module CodexIdentity {
  import opened Prelude
  import opened CodexTypes
  import opened CodexMachine
  import opened CodexRules

  /** The workspaces are the same, or neither is known. */
  predicate WorkspaceFits(imported: Record, existing: Record) {
    SameKnown(imported.accountId, existing.accountId) || (!Known(imported.accountId) && !Known(existing.accountId))
  }

  /** The same user in the same workspace. */
  predicate SameUser(imported: Record, existing: Record) {
    SameKnown(imported.userId, existing.userId) && WorkspaceFits(imported, existing)
  }

  /** The same e-mail in the same workspace, where at most one side knows its user. */
  predicate SameAddress(imported: Record, existing: Record) {
    SameMail(imported.email, existing.email) && !(Known(imported.userId) && Known(existing.userId))
    && WorkspaceFits(imported, existing)
  }

  /** The account an import of `r` lands on: the same user before the same e-mail, a new id only if there is neither. */
  predicate LandsRight(m: map<Id, Record>, r: Record, id: Id) {
    if id in m then
      SameUser(r, m[id]) || (SameAddress(r, m[id]) && forall other :: other in m ==> !SameUser(r, m[other]))
    else
      forall other :: other in m ==> !SameUser(r, m[other]) && !SameAddress(r, m[other])
  }

  lemma MatchesOverFields(imported: Record, existing: Record)
    ensures UserMatch(imported, existing) <==> SameUser(imported, existing)
    ensures EmailMatch(imported, existing) <==> SameAddress(imported, existing)
  {
    hide Blank, Trim, Lower;
  }

  /** The rules of the store are these. */
  lemma TargetsOverFields(m: map<Id, Record>, r: Record, id: Id)
    ensures ImportInto(m, r, id) <==> LandsRight(m, r, id)
    ensures NoTarget(m, r) <==> forall other :: other in m ==> !SameUser(r, m[other]) && !SameAddress(r, m[other])
  {
    hide UserMatch, EmailMatch, SameUser, SameAddress;
    forall other | other in m
      ensures UserMatch(r, m[other]) <==> SameUser(r, m[other])
      ensures EmailMatch(r, m[other]) <==> SameAddress(r, m[other])
    {
      MatchesOverFields(r, m[other]);
    }
  }

  /**
   An import never replaces the record of another user, nor, where neither side knows its user, that of another
   e-mail address, nor that of another workspace.
   */
  lemma NeverAnotherAccount(m: map<Id, Record>, r: Record, id: Id)
    requires LandsRight(m, r, id) && id in m
    ensures Known(r.userId) && Known(m[id].userId) ==> Trim(r.userId.value) == Trim(m[id].userId.value)
    ensures !Known(r.userId) && !Known(m[id].userId) ==> SameMail(r.email, m[id].email)
    ensures Known(r.accountId) == Known(m[id].accountId)
    ensures Known(r.accountId) ==> Trim(r.accountId.value) == Trim(m[id].accountId.value)
  {
  }

  // ---------- the row an import leaves ----------

  /** The import brought an access or refresh token the account did not have. */
  predicate BringsTokens(existing: Record, r: Record) {
    existing.credential.Oauth? && r.credential.Oauth?
    && !(r.credential.oauth.access == existing.credential.oauth.access
         && r.credential.oauth.refresh == existing.credential.oauth.refresh)
  }

  /** The tokens of the import, with the setting of the account, and its client and device where the import has none. */
  predicate TokensImported(row: OAuth, o: OAuth, kept: OAuth) {
    && row.access == o.access && row.refresh == o.refresh && row.idToken == o.idToken
    && row.expiresAt == o.expiresAt && row.lastRefresh == o.lastRefresh
    && row.autoRefresh == kept.autoRefresh
    && row.clientId == (if o.clientId.Some? then o.clientId else kept.clientId)
    && row.deviceId == (if o.deviceId.Some? then o.deviceId else kept.deviceId)
  }

  /** Credentials, identity and quota come from the import; the threshold, and without new tokens the health, stay. */
  lemma ImportedRow(m: map<Id, Record>, r: Record, id: Id)
    ensures var m' := Perform(m, Imported(id, r));
            && m'.Keys == m.Keys + {id} && (forall other :: other in m && other != id ==> m'[other] == m[other])
            && (id !in m ==> m'[id] == r)
            && (id in m ==>
                  var row, existing := m'[id], m[id];
                  && row.accountId == r.accountId && row.userId == r.userId && row.email == r.email
                  && row.quota == r.quota && row.threshold == existing.threshold
                  && row.status == (if BringsTokens(existing, r) then r.status else existing.status)
                  && (if r.credential.Oauth? && existing.credential.Oauth?
                      then row.credential.Oauth?
                           && TokensImported(row.credential.oauth, r.credential.oauth, existing.credential.oauth)
                      else row.credential == r.credential))
  {
  }
}
