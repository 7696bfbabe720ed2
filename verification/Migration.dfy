/** The hash backfill: verify every file first, then change the schema step by step. */
module Migration {
  import opened Domain

  datatype Row = Row(key: Key, size: int, hash: Option<Digest>)

  datatype Table = Table(rows: map<RecordingId, Row>, hasColumn: bool, notNull: bool, unique: bool)

  datatype Result = Complete | Refused | Interrupted

  // The file can be read and has the recorded size.
  predicate FileOk(row: Row, disk: map<Key, Audio>) {
    row.key in disk && disk[row.key].size == row.size
  }

  // Every file is there, has its size, and no two hold the same content.
  predicate Verifiable(rows: map<RecordingId, Row>, disk: map<Key, Audio>) {
    && (forall r :: r in rows ==> FileOk(rows[r], disk))
    && (forall r, s :: r in rows && s in rows && disk[rows[r].key].digest == disk[rows[s].key].digest ==> r == s)
  }

  function Backfilled(rows: map<RecordingId, Row>, disk: map<Key, Audio>): map<RecordingId, Row>
    requires forall r :: r in rows ==> rows[r].key in disk
  {
    map r | r in rows :: rows[r].(hash := Some(disk[rows[r].key].digest))
  }

  // The schema and data one uninterrupted run leaves.
  function Target(t: Table, disk: map<Key, Audio>): Table
    requires forall r :: r in t.rows ==> t.rows[r].key in disk
  {
    Table(Backfilled(t.rows, disk), true, true, true)
  }

  // The same recordings, whatever their hashes.
  predicate SameRecordings(rows: map<RecordingId, Row>, rows': map<RecordingId, Row>) {
    && rows'.Keys == rows.Keys
    && forall r :: r in rows ==> rows'[r].key == rows[r].key && rows'[r].size == rows[r].size
  }

  // Constraints are only in force once the backfill is complete.
  predicate Resumable(t: Table, disk: map<Key, Audio>) {
    t.notNull || t.unique ==>
      t.hasColumn && forall r :: r in t.rows ==>
        t.rows[r].key in disk && t.rows[r].hash == Some(disk[t.rows[r].key].digest)
  }

  // MySQL refuses the last ALTER unless the data meets the constraints.
  predicate AlterSucceeds(t: Table) {
    && t.hasColumn
    && (forall r :: r in t.rows ==> t.rows[r].hash.Some?)
    && (forall r, s :: r in t.rows && s in t.rows && t.rows[r].hash == t.rows[s].hash ==> r == s)
  }

  // What the migration is for.
  lemma TargetIsSound(t: Table, disk: map<Key, Audio>)
    requires Verifiable(t.rows, disk)
    ensures var done := Target(t, disk);
            && SameRecordings(t.rows, done.rows) && AlterSucceeds(done) && done.notNull && done.unique
            && forall r :: r in done.rows ==> done.rows[r].hash == Some(disk[done.rows[r].key].digest)
  {
  }

  // Hashes left by earlier runs make no difference.
  lemma TargetIgnoresHashes(t: Table, t': Table, disk: map<Key, Audio>)
    requires Verifiable(t.rows, disk) && SameRecordings(t.rows, t'.rows)
    ensures Verifiable(t'.rows, disk) && Target(t', disk) == Target(t, disk)
  {
    VerifiableIgnoresHashes(t.rows, t'.rows, disk);
    BackfillIgnoresHashes(t.rows, t'.rows, disk);
  }

  lemma VerifiableIgnoresHashes(rows: map<RecordingId, Row>, rows': map<RecordingId, Row>, disk: map<Key, Audio>)
    requires Verifiable(rows, disk) && SameRecordings(rows, rows')
    ensures Verifiable(rows', disk)
  {
    forall r | r in rows' ensures FileOk(rows'[r], disk) {
      assert FileOk(rows[r], disk);
    }
    forall r, s | r in rows' && s in rows' && disk[rows'[r].key].digest == disk[rows'[s].key].digest
      ensures r == s
    {
      assert r in rows && s in rows && rows[r].key == rows'[r].key && rows[s].key == rows'[s].key;
    }
  }

  lemma BackfillIgnoresHashes(rows: map<RecordingId, Row>, rows': map<RecordingId, Row>, disk: map<Key, Audio>)
    requires SameRecordings(rows, rows') && forall r :: r in rows ==> rows[r].key in disk
    ensures forall r :: r in rows' ==> rows'[r].key in disk
    ensures Backfilled(rows', disk) == Backfilled(rows, disk)
  {
    forall r | r in rows ensures rows'[r].key in disk && Backfilled(rows', disk)[r] == Backfilled(rows, disk)[r] {
      assert rows'[r].key == rows[r].key && rows'[r].size == rows[r].size;
    }
  }

  // The rows in the order the SELECT returns them.
  predicate Enumerates(order: seq<RecordingId>, rows: map<RecordingId, Row>) {
    && (forall i :: 0 <= i < |order| ==> order[i] in rows)
    && (forall r :: r in rows ==> r in order)
    && (forall i, j :: 0 <= i < j < |order| ==> order[i] != order[j])
  }

  predicate HashesOf(hashes: seq<Digest>, order: seq<RecordingId>, rows: map<RecordingId, Row>, disk: map<Key, Audio>) {
    && |hashes| == |order|
    && forall i :: 0 <= i < |order| ==>
         order[i] in rows && rows[order[i]].key in disk && hashes[i] == disk[rows[order[i]].key].digest
  }

  // Distinct hashes in list order are distinct contents.
  lemma DistinctHashes(hashes: seq<Digest>, order: seq<RecordingId>, rows: map<RecordingId, Row>, disk: map<Key, Audio>)
    requires Enumerates(order, rows) && HashesOf(hashes, order, rows, disk)
    requires forall i :: 0 <= i < |order| ==> FileOk(rows[order[i]], disk)
    requires forall k, l :: 0 <= k < l < |hashes| ==> hashes[k] != hashes[l]
    ensures Verifiable(rows, disk)
  {
    forall r | r in rows ensures FileOk(rows[r], disk) {
      var k :| 0 <= k < |order| && order[k] == r;
    }
    forall r, s | r in rows && s in rows && disk[rows[r].key].digest == disk[rows[s].key].digest
      ensures r == s
    {
      var k :| 0 <= k < |order| && order[k] == r;
      var l :| 0 <= l < |order| && order[l] == s;
      assert hashes[k] == hashes[l];
    }
  }

  lemma BadFile(rows: map<RecordingId, Row>, disk: map<Key, Audio>, r: RecordingId)
    requires r in rows && !FileOk(rows[r], disk)
    ensures !Verifiable(rows, disk)
  {
  }

  class Database {
    var table: Table

    constructor (table: Table)
      ensures this.table == table
    {
      this.table := table;
    }

    // Reads and checks all files before anything is changed.
    method Verify(disk: map<Key, Audio>, order: seq<RecordingId>) returns (hashes: Option<seq<Digest>>)
      requires Enumerates(order, table.rows)
      ensures hashes.Some? <==> Verifiable(table.rows, disk)
      ensures hashes.Some? ==> HashesOf(hashes.value, order, table.rows, disk)
    {
      var found: seq<Digest> := [];
      var seen: map<Digest, RecordingId> := map[];
      for i := 0 to |order|
        invariant HashesOf(found, order[..i], table.rows, disk)
        invariant forall k :: 0 <= k < i ==> FileOk(table.rows[order[k]], disk)
        invariant forall k :: 0 <= k < i ==> found[k] in seen
        invariant forall d :: d in seen ==> exists k :: 0 <= k < i && found[k] == d && order[k] == seen[d]
        invariant forall k, l :: 0 <= k < l < i ==> found[k] != found[l]
      {
        var row := table.rows[order[i]];
        if row.key !in disk || disk[row.key].size != row.size {
          BadFile(table.rows, disk, order[i]);
          return None;
        }
        var value := disk[row.key].digest;
        if value in seen {
          ghost var k :| 0 <= k < i && found[k] == value && order[k] == seen[value];
          assert order[..i][k] == order[k];
          assert order[k] != order[i] && disk[table.rows[order[k]].key].digest == value;
          return None;
        }
        seen := seen[value := order[i]];
        found := found + [value];
        assert order[..i + 1] == order[..i] + [order[i]];
      }
      assert order[..|order|] == order;
      DistinctHashes(found, order, table.rows, disk);
      return Some(found);
    }

    // Adds the column if an earlier run did not get that far.
    method AddColumn()
      modifies this
      ensures table.hasColumn && SameRecordings(old(table.rows), table.rows)
      ensures old(table.hasColumn) ==> table == old(table)
      ensures table.notNull == old(table.notNull) && table.unique == old(table.unique)
    {
      if !table.hasColumn {
        table := table.(hasColumn := true,
          rows := map r | r in table.rows :: table.rows[r].(hash := None));
      }
    }

    // Writes the hashes row by row; stops after `budget` rows.
    method Backfill(disk: map<Key, Audio>, order: seq<RecordingId>, hashes: seq<Digest>, budget: nat)
      requires Enumerates(order, table.rows) && HashesOf(hashes, order, table.rows, disk)
      requires table.hasColumn && Resumable(table, disk)
      modifies this
      ensures Resumable(table, disk) && SameRecordings(old(table.rows), table.rows)
      ensures table == old(table).(rows := table.rows)
      ensures budget >= |order| ==> table.rows == Backfilled(old(table.rows), disk)
    {
      var i := 0;
      while i < |order| && i < budget
        invariant 0 <= i <= |order| && i <= budget
        invariant table == old(table).(rows := table.rows)
        invariant SameRecordings(old(table.rows), table.rows)
        invariant forall r :: r in table.rows ==>
                    table.rows[r].hash == old(table.rows)[r].hash || table.rows[r].hash == Some(disk[table.rows[r].key].digest)
        invariant forall k :: 0 <= k < i ==> table.rows[order[k]].hash == Some(hashes[k])
      {
        var row := table.rows[order[i]];
        table := table.(rows := table.rows[order[i] := row.(hash := Some(hashes[i]))]);
        i := i + 1;
      }
      if i == |order| {
        forall r | r in table.rows ensures table.rows[r] == Backfilled(old(table.rows), disk)[r] {
          var k :| 0 <= k < |order| && order[k] == r;
        }
        assert table.rows == Backfilled(old(table.rows), disk);
      }
    }

    // `budget` is the number of database steps before the connection is lost.
    method Upgrade(disk: map<Key, Audio>, order: seq<RecordingId>, budget: nat) returns (result: Result)
      requires Enumerates(order, table.rows) && Resumable(table, disk)
      modifies this
      ensures Resumable(table, disk) && SameRecordings(old(table.rows), table.rows)
      ensures result.Refused? <==> !Verifiable(old(table.rows), disk)
      ensures result.Refused? ==> table == old(table)
      ensures result.Complete? ==> table == Target(old(table), disk)
      ensures !result.Refused? && budget >= |order| + 2 ==> result.Complete?
    {
      var hashes := Verify(disk, order);
      if hashes.None? {
        return Refused;
      }
      if budget == 0 {
        return Interrupted;
      }
      AddColumn();
      TargetIgnoresHashes(old(table), table, disk);
      label columned:
      Backfill(disk, order, hashes.value, budget - 1);
      if budget < |order| + 2 {
        return Interrupted;
      }
      // The last ALTER never meets a NULL or a duplicate.
      TargetIsSound(old@columned(table), disk);
      assert AlterSucceeds(table);
      table := table.(notNull := true, unique := true);
      return Complete;
    }

    // Any number of interrupted runs followed by a complete one give what a single run gives,
    // though every run may list the recordings in another order.
    method UpgradeUntilComplete(disk: map<Key, Audio>, orders: seq<seq<RecordingId>>, budgets: seq<nat>,
                                order: seq<RecordingId>)
      returns (result: Result)
      requires |orders| == |budgets| && forall i :: 0 <= i < |orders| ==> Enumerates(orders[i], table.rows)
      requires Enumerates(order, table.rows) && Resumable(table, disk)
      modifies this
      ensures if Verifiable(old(table.rows), disk) then result.Complete? && table == Target(old(table), disk)
              else result.Refused? && table == old(table)
    {
      for i := 0 to |budgets|
        invariant Resumable(table, disk) && SameRecordings(old(table.rows), table.rows)
        invariant !Verifiable(old(table.rows), disk) ==> table == old(table)
      {
        if Verifiable(old(table.rows), disk) {
          TargetIgnoresHashes(old(table), table, disk);
        }
        result := Upgrade(disk, orders[i], budgets[i]);
      }
      if Verifiable(old(table.rows), disk) {
        TargetIgnoresHashes(old(table), table, disk);
      }
      result := Upgrade(disk, order, |order| + 2);
    }
  }
}
