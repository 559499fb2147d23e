/** Cleaning stored account records, and dropping the legacy priority column, in one transaction. */
module Migration {
  import opened Prelude

  datatype Json =
    | Null
    | Bool(flag: bool)
    | Number(text: string)
    | Text(text: string)
    | List(items: seq<Json>)
    | Object(fields: map<string, Json>)

  /** The stored text of a record: it parses as a JSON value, or it does not. */
  datatype Stored = Broken(text: string) | Parsed(value: Json)

  datatype Table = Table(rows: map<Id, Stored>, priorityColumn: bool)

  const LEGACY := {"enabled", "priority", "proxy_url"}

  /** The status a record gets; None is an error. */
  function ResolveStatus(status: Option<Json>): (r: Option<string>)
    ensures r.Some? ==> r.value in {"active", "invalid", "expired"}
  {
    match status
    case None => Some("active")
    case Some(Text(raw)) =>
      var s := Trim(raw);
      if s == "active" || s == "invalid" || s == "expired" then Some(s)
      else if s == "disabled" then Some("active")
      else None
    case Some(_) => None
  }

  function Clean(stored: Stored): Option<Stored> {
    if stored.Broken? || !stored.value.Object? then None
    else
      var status := ResolveStatus(Get(stored.value.fields, "status"));
      if status.None? then None
      else Some(Parsed(Object(stored.value.fields["status" := Text(status.value)] - LEGACY)))
  }

  /** The row can be cleaned: an object whose status is missing or one of four known words. */
  predicate Cleanable(stored: Stored) {
    stored.Parsed? && stored.value.Object?
    && ("status" in stored.value.fields ==>
          stored.value.fields["status"].Text?
          && Trim(stored.value.fields["status"].text) in {"active", "invalid", "expired", "disabled"})
  }

  /**
   `after` is `before` without the routing keys and with a known status: the one it had, trimmed; a missing or
   disabled one has become active.
   */
  ghost predicate IsCleaned(before: Stored, after: Stored) {
    && before.Parsed? && before.value.Object? && after.Parsed? && after.value.Object?
    && "enabled" !in after.value.fields && "priority" !in after.value.fields && "proxy_url" !in after.value.fields
    && "status" in after.value.fields && after.value.fields["status"].Text?
    && after.value.fields["status"].text
       == (if "status" in before.value.fields && before.value.fields["status"].Text?
              && Trim(before.value.fields["status"].text) != "disabled"
           then Trim(before.value.fields["status"].text) else "active")
    && forall key :: key !in {"status", "enabled", "priority", "proxy_url"}
                     ==> Get(after.value.fields, key) == Get(before.value.fields, key)
  }

  /** The migrated table, when every row can be cleaned. */
  function Cleaned(rows: map<Id, Stored>): map<Id, Stored>
    requires forall id :: id in rows ==> Clean(rows[id]).Some?
  {
    map id | id in rows :: Clean(rows[id]).value
  }

  /** The database calls of one migration, each of which may fail. */
  datatype Call = Schema | Begin | Rebuild(stage: nat) | Select | UpdateRow(id: Id) | Commit

  /** No call fails that the migration of this table makes. */
  ghost predicate CallsSucceed(rows: map<Id, Stored>, priorityColumn: bool, fails: Call -> bool) {
    && !fails(Schema) && !fails(Begin) && !fails(Select) && !fails(Commit)
    && (priorityColumn ==> forall stage: nat :: stage < 4 ==> !fails(Rebuild(stage)))
    && forall id :: id in rows && Clean(rows[id]) != Some(rows[id]) ==> !fails(UpdateRow(id))
  }

  class Database {
    var rows: map<Id, Stored>
    var priorityColumn: bool

    constructor (table: Table)
      ensures rows == table.rows && priorityColumn == table.priorityColumn
    {
      rows, priorityColumn := table.rows, table.priorityColumn;
    }

    /** All or nothing: every row is cleaned and the column is gone, or nothing has changed. */
    method MigrateProviderAccounts(fails: Call -> bool) returns (ok: bool)
      modifies this
      ensures ok <==> CallsSucceed(old(rows), old(priorityColumn), fails)
                      && forall id :: id in old(rows) ==> Cleanable(old(rows)[id])
      ensures ok ==> (forall id :: id in old(rows) ==> Clean(old(rows)[id]).Some?)
                     && rows == Cleaned(old(rows)) && !priorityColumn
      ensures ok ==> rows.Keys == old(rows).Keys && forall id :: id in rows ==> IsCleaned(old(rows)[id], rows[id])
      ensures !ok ==> rows == old(rows) && priorityColumn == old(priorityColumn)
    {
      hide IsCleaned;
      if fails(Schema) || fails(Begin) {
        return false;
      }
      // the transaction works on its own copy
      var working, column := rows, priorityColumn;
      if column {
        for stage := 0 to 4
          invariant forall k: nat :: k < stage ==> !fails(Rebuild(k))
        {
          if fails(Rebuild(stage)) {
            return false;
          }
        }
        column := false;
      }
      if fails(Select) {
        return false;
      }
      var todo := rows.Keys;
      while todo != {}
        invariant rows == old(rows) && priorityColumn == old(priorityColumn)
        invariant todo <= rows.Keys && working.Keys == rows.Keys
        invariant forall id :: id in rows && id in todo ==> working[id] == rows[id]
        invariant forall id :: id in rows && id !in todo ==>
                    Cleanable(rows[id]) && Clean(rows[id]) == Some(working[id])
                    && (Clean(rows[id]) != Some(rows[id]) ==> !fails(UpdateRow(id)))
      {
        var id :| id in todo;
        CleansIff(rows[id]);
        if working[id].Broken? {
          return false;
        }
        if !working[id].value.Object? {
          return false;
        }
        var fields := working[id].value.fields;
        var status := ResolveStatus(Get(fields, "status"));
        if status.None? {
          return false;
        }
        fields := fields["status" := Text(status.value)];
        fields := fields - {"enabled"};
        fields := fields - {"priority"};
        fields := fields - {"proxy_url"};
        assert fields == working[id].value.fields["status" := Text(status.value)] - LEGACY;
        if fields != working[id].value.fields {
          if fails(UpdateRow(id)) {
            return false;
          }
          working := working[id := Parsed(Object(fields))];
        }
        todo := todo - {id};
      }
      if fails(Commit) {
        return false;
      }
      CleanedRows(rows);
      rows, priorityColumn := working, column;
      return true;
    }
  }

  lemma CleansIff(stored: Stored)
    ensures Clean(stored).Some? <==> Cleanable(stored)
  {
  }

  /** Cleaning touches the four routing keys and nothing else, and leaves a known status. */
  lemma CleanKeepsEverythingElse(stored: Stored)
    requires Cleanable(stored)
    ensures Clean(stored).Some? && IsCleaned(stored, Clean(stored).value)
    ensures Clean(stored).value.value.fields["status"].text in {"active", "invalid", "expired"}
  {
    CleansIff(stored);
    assert "status" !in LEGACY;
  }

  lemma CleanedRows(rows: map<Id, Stored>)
    requires forall id :: id in rows ==> Cleanable(rows[id])
    ensures forall id :: id in rows ==> Clean(rows[id]).Some? && IsCleaned(rows[id], Clean(rows[id]).value)
  {
    forall id | id in rows ensures Clean(rows[id]).Some? && IsCleaned(rows[id], Clean(rows[id]).value) {
      CleanKeepsEverythingElse(rows[id]);
    }
  }

  lemma TrimmedStatus(s: string)
    requires s in {"active", "invalid", "expired"}
    ensures Trim(s) == s
  {
    assert TrimStart(s) == s && TrimEnd(s) == s;
  }

  /** A cleaned record is left exactly as it is by another cleaning. */
  lemma CleanIsIdempotent(stored: Stored)
    requires Cleanable(stored)
    ensures Clean(stored).Some? && Clean(Clean(stored).value) == Some(Clean(stored).value)
  {
    CleansIff(stored);
    var once := Clean(stored).value.value.fields;
    TrimmedStatus(once["status"].text);
    assert once["status" := once["status"]] - LEGACY == once;
  }

  lemma CleanedStaysClean(rows: map<Id, Stored>)
    requires forall id :: id in rows ==> Cleanable(rows[id])
    ensures forall id :: id in rows ==> Clean(rows[id]).Some?
    ensures var once := Cleaned(rows);
            (forall id :: id in once ==> Cleanable(once[id]) && Clean(once[id]) == Some(once[id]))
            && Cleaned(once) == once
  {
    forall id | id in rows
      ensures Clean(rows[id]).Some? && Clean(Clean(rows[id]).value) == Some(Clean(rows[id]).value)
    {
      CleanIsIdempotent(rows[id]);
    }
    var once := Cleaned(rows);
    forall id | id in once ensures Cleanable(once[id]) {
      CleansIff(once[id]);
    }
  }

  /**
   Every start of the program migrates again.  After a migration that succeeded the next one rewrites no
   row and rebuilds nothing: it can fail only in its four unconditional calls, and it changes nothing.
   */
  method MigrateTwice(db: Database, fails: Call -> bool, again: Call -> bool) returns (first: bool, second: bool)
    modifies db
    ensures first ==> (second <==> !again(Schema) && !again(Begin) && !again(Select) && !again(Commit))
    ensures first ==> (forall id :: id in old(db.rows) ==> Clean(old(db.rows)[id]).Some?)
                      && db.rows == Cleaned(old(db.rows)) && !db.priorityColumn
  {
    ghost var before := db.rows;
    first := db.MigrateProviderAccounts(fails);
    if first {
      CleanedStaysClean(before);
    }
    second := db.MigrateProviderAccounts(again);
  }
}
