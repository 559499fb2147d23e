/** The shared account table: one row per account id, each owned by one provider. */
module Records {
  import opened Prelude

  datatype Kind = Kiro | Codex | Xai

  /** The provider's own record, as stored text. */
  type Payload = string

  datatype Row = Row(
    kind: Kind,
    email: Option<string>,
    expiresAt: Option<string>,
    expiresAtMs: Option<int>,
    authMethod: Option<string>,
    providerName: Option<string>,
    record: Payload,
    updatedAt: int)

  datatype SnapshotRow = SnapshotRow(
    id: Id,
    email: Option<string>,
    expiresAt: Option<string>,
    expiresAtMs: Option<int>,
    authMethod: Option<string>,
    providerName: Option<string>,
    record: Payload)

  type Table = map<Id, Row>

  function RowOf(kind: Kind, r: SnapshotRow, now: int): Row {
    Row(kind, NormalId(r.email), NormalId(r.expiresAt), r.expiresAtMs, NormalId(r.authMethod), NormalId(r.providerName),
        r.record, now)
  }

  /** A text column holds the trimmed text it was given, and nothing when there was none. */
  predicate Column(value: Option<string>, given: Option<string>) {
    if Known(given) then value == Some(Trim(given.value)) else value.None?
  }

  /** The row shows the record of `kind` column by column. */
  predicate ShowsRecord(row: Row, kind: Kind, r: SnapshotRow, now: int) {
    && row.kind == kind && row.record == r.record && row.updatedAt == now && row.expiresAtMs == r.expiresAtMs
    && Column(row.email, r.email) && Column(row.expiresAt, r.expiresAt)
    && Column(row.authMethod, r.authMethod) && Column(row.providerName, r.providerName)
  }

  lemma RowShowsRecord(kind: Kind, r: SnapshotRow, now: int)
    ensures ShowsRecord(RowOf(kind, r, now), kind, r, now)
  {
    hide Blank, Trim;
  }

  /** The records of one provider, as `list_records` returns them. */
  function Owned(t: Table, kind: Kind): map<Id, Payload> {
    map id | id in t && t[id].kind == kind :: t[id].record
  }

  /** The rows of the other providers, whole. */
  function Others(t: Table, kind: Kind): Table {
    map id | id in t && t[id].kind != kind :: t[id]
  }

  function Inserted(t: Table, kind: Kind, rows: seq<SnapshotRow>, now: int): Table {
    if rows == [] then t
    else Inserted(t, kind, rows[..|rows| - 1], now)[rows[|rows| - 1].id := RowOf(kind, rows[|rows| - 1], now)]
  }

  function Listed(rows: seq<SnapshotRow>): map<Id, Payload> {
    if rows == [] then map[] else Listed(rows[..|rows| - 1])[rows[|rows| - 1].id := rows[|rows| - 1].record]
  }

  predicate DistinctIds(rows: seq<SnapshotRow>) {
    forall i, j :: 0 <= i < j < |rows| ==> rows[i].id != rows[j].id
  }

  /** The snapshot names no account twice and none that another provider owns. */
  predicate Fits(t: Table, kind: Kind, rows: seq<SnapshotRow>) {
    DistinctIds(rows) && forall i :: 0 <= i < |rows| ==> !(rows[i].id in t && t[rows[i].id].kind != kind)
  }

  // ---------- inserting a snapshot ----------

  lemma {:induction false} InsertedIds(t: Table, kind: Kind, rows: seq<SnapshotRow>, now: int, id: Id)
    ensures id in Inserted(t, kind, rows, now) <==> id in t || exists i :: 0 <= i < |rows| && rows[i].id == id
  {
    if rows != [] {
      var p, last := rows[..|rows| - 1], rows[|rows| - 1];
      InsertedIds(t, kind, p, now, id);
      if exists i :: 0 <= i < |rows| && rows[i].id == id {
        var i :| 0 <= i < |rows| && rows[i].id == id;
        assert i < |p| ==> p[i].id == id;
      }
      if exists i :: 0 <= i < |p| && p[i].id == id {
        var i :| 0 <= i < |p| && p[i].id == id;
        assert rows[i].id == id;
      }
      assert rows[|rows| - 1].id == last.id;
    }
  }

  lemma ClashDoesNotFit(t: Table, kind: Kind, rows: seq<SnapshotRow>, i: nat)
    requires i < |rows|
    requires rows[i].id in Others(t, kind) || exists j :: 0 <= j < |rows[..i]| && rows[..i][j].id == rows[i].id
    ensures !Fits(t, kind, rows)
  {
    if rows[i].id !in Others(t, kind) {
      var j :| 0 <= j < |rows[..i]| && rows[..i][j].id == rows[i].id;
      assert rows[j].id == rows[i].id;
    }
  }

  lemma NothingFits(t: Table, kind: Kind)
    ensures Fits(t, kind, [])
  {
  }

  /** An insert clashes exactly when the rows up to it do not fit. */
  lemma NextFits(t: Table, kind: Kind, rows: seq<SnapshotRow>, i: nat, now: int)
    requires i < |rows| && Fits(t, kind, rows[..i])
    ensures rows[i].id !in Inserted(Others(t, kind), kind, rows[..i], now) ==> Fits(t, kind, rows[..i + 1])
    ensures rows[i].id in Inserted(Others(t, kind), kind, rows[..i], now) ==> !Fits(t, kind, rows)
  {
    InsertedIds(Others(t, kind), kind, rows[..i], now, rows[i].id);
    if rows[i].id in Inserted(Others(t, kind), kind, rows[..i], now) {
      ClashDoesNotFit(t, kind, rows, i);
    } else {
      assert forall j :: 0 <= j < i ==> rows[..i][j].id != rows[i].id;
    }
  }

  lemma UpsertViews(t: Table, kind: Kind, r: SnapshotRow, now: int)
    ensures var t' := t[r.id := RowOf(kind, r, now)];
            Owned(t', kind) == Owned(t, kind)[r.id := r.record]
            && (r.id !in Others(t, kind) ==> Others(t', kind) == Others(t, kind))
  {
    hide NormalId;
  }

  lemma {:induction false} InsertedViews(t: Table, kind: Kind, rows: seq<SnapshotRow>, now: int)
    requires Fits(t, kind, rows)
    ensures var t' := Inserted(Others(t, kind), kind, rows, now);
            Owned(t', kind) == Listed(rows) && Others(t', kind) == Others(t, kind)
  {
    if rows != [] {
      var p := rows[..|rows| - 1];
      assert Fits(t, kind, p);
      InsertedViews(t, kind, p, now);
      assert rows[|rows| - 1].id !in Others(t, kind);
      UpsertViews(Inserted(Others(t, kind), kind, p, now), kind, rows[|rows| - 1], now);
    } else {
      assert forall id :: id !in Owned(Others(t, kind), kind);
      assert Others(Others(t, kind), kind) == Others(t, kind);
    }
  }

  lemma FittingIds(t: Table, kind: Kind, rows: seq<SnapshotRow>)
    requires Fits(t, kind, rows)
    ensures DistinctIds(rows)
  {
  }

  /** After a snapshot of distinct ids is inserted, each of its records has its row. */
  lemma {:induction false} InsertedShow(t: Table, kind: Kind, rows: seq<SnapshotRow>, now: int)
    requires DistinctIds(rows)
    ensures forall i :: 0 <= i < |rows| ==>
              rows[i].id in Inserted(t, kind, rows, now)
              && ShowsRecord(Inserted(t, kind, rows, now)[rows[i].id], kind, rows[i], now)
  {
    hide RowOf, ShowsRecord;
    if rows != [] {
      var p, last := rows[..|rows| - 1], rows[|rows| - 1];
      InsertedShow(t, kind, p, now);
      RowShowsRecord(kind, last, now);
      forall i | 0 <= i < |rows|
        ensures rows[i].id in Inserted(t, kind, rows, now)
                && ShowsRecord(Inserted(t, kind, rows, now)[rows[i].id], kind, rows[i], now)
      {
        if i < |p| {
          assert p[i] == rows[i];
        }
      }
    }
  }

  /** None of the first `calls` database calls of a transaction fails. */
  ghost predicate AllSucceed(fails: nat -> bool, calls: nat) {
    forall k: nat :: k < calls ==> !fails(k)
  }

  class AccountTable {
    var rows: Table

    constructor ()
      ensures rows == map[]
    {
      rows := map[];
    }

    /** Inserts, or overwrites whichever row has the id. */
    method UpsertRecord(kind: Kind, r: SnapshotRow, now: int)
      modifies this
      ensures rows == old(rows)[r.id := RowOf(kind, r, now)] && ShowsRecord(rows[r.id], kind, r, now)
      ensures Owned(rows, kind) == Owned(old(rows), kind)[r.id := r.record]
      ensures forall other: Kind :: other != kind ==> Owned(rows, other) == Owned(old(rows), other) - {r.id}
    {
      RowShowsRecord(kind, r, now);
      rows := rows[r.id := Row(kind, NormalId(r.email), NormalId(r.expiresAt), r.expiresAtMs, NormalId(r.authMethod),
                               NormalId(r.providerName), r.record, now)];
    }

    /** Deletes only when provider and id both match; otherwise it is an error. */
    method DeleteRecord(kind: Kind, id: Id) returns (ok: bool)
      modifies this
      ensures ok <==> id in Owned(old(rows), kind)
      ensures rows == if ok then old(rows) - {id} else old(rows)
      ensures Owned(rows, kind) == Owned(old(rows), kind) - {id}
      ensures Others(rows, kind) == Others(old(rows), kind)
    {
      if id in rows && rows[id].kind == kind {
        rows := rows - {id};
        return true;
      }
      return false;
    }

    /**
     One transaction: clear the provider's rows, insert the snapshot, commit, or leave all as it was.
     `fails(k)` says whether the database refuses the k-th call for reasons of its own.
     */
    method ReplaceProviderSnapshot(kind: Kind, snapshot: seq<SnapshotRow>, now: int, fails: nat -> bool)
      returns (ok: bool)
      modifies this
      ensures ok <==> Fits(old(rows), kind, snapshot) && AllSucceed(fails, |snapshot| + 3)
      ensures ok ==> rows == Inserted(Others(old(rows), kind), kind, snapshot, now)
      ensures ok ==> Owned(rows, kind) == Listed(snapshot) && Others(rows, kind) == Others(old(rows), kind)
      ensures ok ==> forall i :: 0 <= i < |snapshot| ==>
                snapshot[i].id in rows && ShowsRecord(rows[snapshot[i].id], kind, snapshot[i], now)
      ensures !ok ==> rows == old(rows)
    {
      hide NormalId, RowOf, ShowsRecord, Listed, Owned, Others, Fits;
      if fails(0) || fails(1) {
        return false;
      }
      var working := Others(rows, kind);
      NothingFits(rows, kind);
      for i := 0 to |snapshot|
        invariant rows == old(rows) && AllSucceed(fails, i + 2)
        invariant working == Inserted(Others(rows, kind), kind, snapshot[..i], now)
        invariant Fits(rows, kind, snapshot[..i])
      {
        var r := snapshot[i];
        NextFits(rows, kind, snapshot, i, now);
        assert snapshot[..i + 1][..i] == snapshot[..i];
        if r.id in working {
          return false;
        }
        if fails(i + 2) {
          return false;
        }
        working := working[r.id := RowOf(kind, r, now)];
      }
      assert snapshot[..|snapshot|] == snapshot;
      if fails(|snapshot| + 2) {
        return false;
      }
      InsertedViews(rows, kind, snapshot, now);
      InsertedShow(Others(rows, kind), kind, snapshot, now) by { FittingIds(rows, kind, snapshot); }
      rows := working;
      return true;
    }

    /** A single account, in one transaction of three calls; removing an absent row is fine. */
    method ReplaceSingleRecord(kind: Kind, id: Id, record: Option<SnapshotRow>, now: int, fails: nat -> bool)
      returns (ok: bool)
      requires record.Some? ==> record.value.id == id
      modifies this
      ensures ok <==> AllSucceed(fails, 3)
      ensures ok ==> Get(Owned(rows, kind), id) == if record.Some? then Some(record.value.record) else None
      ensures ok && record.Some? ==> id in rows && ShowsRecord(rows[id], kind, record.value, now)
      ensures forall other :: other != id ==> Get(rows, other) == Get(old(rows), other)
      ensures record.None? ==> Others(rows, kind) == Others(old(rows), kind)
      ensures !ok ==> rows == old(rows)
    {
      if fails(0) || fails(1) || fails(2) {
        return false;
      }
      ok := true;
      if record.None? {
        var gone := DeleteRecord(kind, id);
        assert forall x :: x in old(rows) && x != id ==>
          (x in Owned(old(rows), kind) || x in Others(old(rows), kind));
      } else {
        UpsertRecord(kind, record.value, now);
      }
    }

    /** Deletes rows of any provider in one transaction; without ids there is none. */
    method DeleteRows(ids: seq<Id>, fails: nat -> bool) returns (ok: bool)
      modifies this
      ensures ok <==> ids == [] || AllSucceed(fails, |ids| + 2)
      ensures rows == if ok then old(rows) - (set id | id in ids) else old(rows)
    {
      if ids == [] {
        return true;
      }
      if fails(0) {
        return false;
      }
      var working := rows;
      for i := 0 to |ids|
        invariant rows == old(rows) && AllSucceed(fails, i + 1)
        invariant working == rows - (set id | id in ids[..i])
      {
        assert ids[..i + 1] == ids[..i] + [ids[i]];
        if fails(i + 1) {
          return false;
        }
        working := working - {ids[i]};
      }
      assert ids[..|ids|] == ids;
      if fails(|ids| + 1) {
        return false;
      }
      rows := working;
      return true;
    }
  }

  // ---------- snapshot and restore ----------

  /**
   Restoring a provider's earlier listing gives exactly that listing back and leaves the other providers
   alone; it can fail only where another provider has since taken one of the ids.
   */
  lemma RestoreGivesTheSnapshotBack(before: Table, later: Table, kind: Kind, rows: seq<SnapshotRow>, now: int)
    requires DistinctIds(rows) && Listed(rows) == Owned(before, kind)
    ensures Fits(later, kind, rows) <==> forall id :: id in Owned(before, kind) ==> id !in Others(later, kind)
    ensures Fits(later, kind, rows) ==>
              (var t' := Inserted(Others(later, kind), kind, rows, now);
               Owned(t', kind) == Owned(before, kind) && Others(t', kind) == Others(later, kind))
  {
    ListedIds(rows);
    if Fits(later, kind, rows) {
      InsertedViews(later, kind, rows, now);
    }
    forall id | id in Owned(before, kind) && Fits(later, kind, rows) ensures id !in Others(later, kind) {
      var i :| 0 <= i < |rows| && rows[i].id == id;
    }
    if forall id :: id in Owned(before, kind) ==> id !in Others(later, kind) {
      forall i | 0 <= i < |rows| ensures rows[i].id !in Others(later, kind) {
        assert rows[i].id in Listed(rows);
      }
    }
  }

  lemma {:induction false} ListedIds(rows: seq<SnapshotRow>)
    ensures forall id :: id in Listed(rows) <==> exists i :: 0 <= i < |rows| && rows[i].id == id
  {
    if rows != [] {
      var p := rows[..|rows| - 1];
      ListedIds(p);
      forall id ensures id in Listed(rows) <==> exists i :: 0 <= i < |rows| && rows[i].id == id {
        if exists i :: 0 <= i < |rows| && rows[i].id == id {
          var i :| 0 <= i < |rows| && rows[i].id == id;
          assert i < |p| ==> p[i].id == id;
        }
        if exists i :: 0 <= i < |p| && p[i].id == id {
          var i :| 0 <= i < |p| && p[i].id == id;
          assert rows[i].id == id;
        }
        assert rows[|rows| - 1].id == rows[|rows| - 1].id;
      }
    }
  }

  /**
   The key of the table is the account id alone, so an upsert leaves the other providers alone exactly
   when none of them owns the id.
   */
  lemma UpsertKeepsOthersIff(t: Table, kind: Kind, r: SnapshotRow, now: int)
    ensures Others(t[r.id := RowOf(kind, r, now)], kind) == Others(t, kind) <==> r.id !in Others(t, kind)
  {
    var t' := t[r.id := RowOf(kind, r, now)];
    assert r.id !in Others(t', kind);
    if r.id !in Others(t, kind) {
      assert Others(t', kind) == Others(t, kind);
    }
  }

  /** The other case happens: saving an xAI account takes a Codex account of the same id over. */
  lemma UpsertMayTakeOver(r: SnapshotRow, other: SnapshotRow, now: int)
    requires r.id == other.id
    ensures var before: Table := map[other.id := RowOf(Codex, other, now)];
            var after := before[r.id := RowOf(Xai, r, now)];
            Owned(before, Codex) == map[other.id := other.record] && Owned(after, Codex) == map[]
            && !Fits(after, Codex, [other])
  {
    var before: Table := map[other.id := RowOf(Codex, other, now)];
    var after := before[r.id := RowOf(Xai, r, now)];
    assert [other][0].id in after && after[[other][0].id].kind != Codex;
    assert Owned(before, Codex) == map[other.id := other.record];
  }
}
