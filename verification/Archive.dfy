/** The archive of database snapshots: the object store, the rows of the index,
    and the steps of a save, each of which can fail. */
module Archives {
  import opened Wrappers
  import opened D1Keys

  type Byte = b: int | 0 <= b < 256
  type Bytes = seq<Byte>

  datatype Snapshot = Snapshot(database: string, stamp: nat, epoch: nat, key: string, checksum: string, size: nat)

  /** What the store and the index do with a save: the upload, of which `size`
      bytes arrive at most, the question for its size, and the insert of the row. */
  datatype Answers = Answers(put: Write, size: nat, head: bool, insert: Write)

  /** The upload is answered, and found whole. */
  predicate Uploads(a: Answers, bytes: Bytes) { a.put.Answered? && a.head && |bytes| <= a.size }

  datatype Fetched = Unreadable | Missing | Mismatch | Nothing | Found(bytes: Bytes)

  /** The newest snapshot comes first. */
  ghost predicate Descending(rows: seq<Snapshot>) {
    forall i, j :: 0 <= i < j < |rows| ==> rows[i].stamp > rows[j].stamp
  }

  /** The rows without the one of `stamp`. */
  function Without(rows: seq<Snapshot>, stamp: nat): seq<Snapshot> {
    if rows == [] then []
    else (if rows[0].stamp == stamp then [] else [rows[0]]) + Without(rows[1..], stamp)
  }

  lemma {:induction false} WithoutAbsent(rows: seq<Snapshot>, stamp: nat)
    requires forall i :: 0 <= i < |rows| ==> rows[i].stamp != stamp
    ensures Without(rows, stamp) == rows
  {
    if rows != [] {
      WithoutAbsent(rows[1..], stamp);
      assert [rows[0]] + rows[1..] == rows;
    }
  }

  lemma {:induction false} WithoutOne(before: seq<Snapshot>, row: Snapshot, after: seq<Snapshot>)
    requires Descending(before + [row] + after)
    ensures Without(before + [row] + after, row.stamp) == before + after
  {
    var rows := before + [row] + after;
    if before == [] {
      assert rows[1..] == after && forall i :: 0 <= i < |after| ==> after[i] == rows[i + 1];
      WithoutAbsent(after, row.stamp);
    } else {
      assert rows[1..] == before[1..] + [row] + after;
      assert forall i :: 0 <= i < |rows[1..]| ==> rows[1..][i] == rows[i + 1];
      WithoutOne(before[1..], row, after);
      assert rows[0] == before[0] && rows[|before|] == row;
      assert [before[0]] + (before[1..] + after) == before + after;
    }
  }

  type Objects = map<string, Bytes>
  type Index = map<string, seq<Snapshot>>

  function RowsOf(rows: Index, database: string): seq<Snapshot> {
    if database in rows then rows[database] else []
  }

  /** A row has its object, whole, under the key of its own stamp. */
  predicate Whole(objects: Objects, digest: Bytes -> string, row: Snapshot) {
    && row.key == SnapshotKey(row.database, row.epoch, row.stamp)
    && row.key in objects && digest(objects[row.key]) == row.checksum && |objects[row.key]| == row.size
  }

  /** Every indexed snapshot is whole, and newest first in its database. */
  ghost predicate Sound(objects: Objects, rows: Index, digest: Bytes -> string) {
    && (forall d :: d in rows ==> IsDatabase(d) && Descending(rows[d]))
    && (forall d, i :: d in rows && 0 <= i < |rows[d]| ==>
          rows[d][i].database == d && Whole(objects, digest, rows[d][i]))
  }

  /** Objects went, and none changed. */
  ghost predicate Within(a: Objects, b: Objects) {
    forall key :: key in a ==> key in b && a[key] == b[key]
  }

  lemma WithinWithin(a: Objects, b: Objects, c: Objects)
    requires Within(a, b) && Within(b, c)
    ensures Within(a, c)
  {
  }

  /** Only the object of `key` came, went or changed. */
  ghost predicate Beside(a: Objects, b: Objects, key: string) {
    forall k :: k != key ==> (k in a <==> k in b) && (k in a ==> a[k] == b[k])
  }

  /** No row has its object under `key`. */
  ghost predicate Unused(rows: Index, key: string) {
    forall d, i :: d in rows && 0 <= i < |rows[d]| ==> rows[d][i].key != key
  }

  /** In a sound archive no two rows share a key. */
  lemma RowsShareNoKey(objects: Objects, rows: Index, digest: Bytes -> string,
                       d: string, i: nat, e: string, j: nat)
    requires Sound(objects, rows, digest)
    requires d in rows && i < |rows[d]| && e in rows && j < |rows[e]| && rows[d][i].key == rows[e][j].key
    ensures d == e && i == j
  {
    var a, b := rows[d][i], rows[e][j];
    SnapshotKeysAreDistinct(d, a.epoch, a.stamp, e, b.epoch, b.stamp);
  }

  /** A stamp that is newer than the rows of a database gives an unused key. */
  lemma NewKeyIsUnused(objects: Objects, rows: Index, digest: Bytes -> string, d: string, epoch: nat, stamp: nat)
    requires Sound(objects, rows, digest) && IsDatabase(d)
    requires forall i :: 0 <= i < |RowsOf(rows, d)| ==> RowsOf(rows, d)[i].stamp < stamp
    ensures Unused(rows, SnapshotKey(d, epoch, stamp))
  {
    forall e, i | e in rows && 0 <= i < |rows[e]|
      ensures rows[e][i].key != SnapshotKey(d, epoch, stamp)
    {
      var row := rows[e][i];
      if e == d {
        assert row == RowsOf(rows, d)[i];
      }
      if row.key == SnapshotKey(d, epoch, stamp) {
        SnapshotKeysAreDistinct(e, row.epoch, row.stamp, d, epoch, stamp);
      }
    }
  }

  lemma RecordIsSound(objects: Objects, rows: Index, digest: Bytes -> string, row: Snapshot)
    requires Sound(objects, rows, digest) && IsDatabase(row.database) && Whole(objects, digest, row)
    requires forall i :: 0 <= i < |RowsOf(rows, row.database)| ==> RowsOf(rows, row.database)[i].stamp < row.stamp
    ensures Sound(objects, rows[row.database := [row] + RowsOf(rows, row.database)], digest)
  {
    var was := RowsOf(rows, row.database);
    var now := [row] + was;
    forall i | 0 <= i < |now|
      ensures now[i].database == row.database && Whole(objects, digest, now[i])
    {
      assert i > 0 ==> now[i] == was[i - 1];
    }
    assert Descending(now) by {
      assert forall i :: 0 < i < |now| ==> now[i] == was[i - 1];
    }
  }

  /** The rows of a database after some of them went, in the order they had. */
  lemma CutIsSound(objects: Objects, rows: Index, digest: Bytes -> string, d: string, k: nat, m: nat)
    requires Sound(objects, rows, digest) && d in rows && k <= m <= |rows[d]|
    ensures Sound(objects, rows[d := rows[d][..k] + rows[d][m..]], digest)
  {
    CutIsDescending(rows[d], k, m);
    var now := rows[d][..k] + rows[d][m..];
    forall i | 0 <= i < |now|
      ensures now[i].database == d && Whole(objects, digest, now[i])
    {
      assert now[i] == rows[d][if i < k then i else i + m - k];
    }
  }

  lemma CutIsDescending(rows: seq<Snapshot>, k: nat, m: nat)
    requires Descending(rows) && k <= m <= |rows|
    ensures Descending(rows[..k] + rows[m..])
  {
    var now := rows[..k] + rows[m..];
    assert forall i :: 0 <= i < k ==> now[i] == rows[i];
    assert forall i :: k <= i < |now| ==> now[i] == rows[i + m - k];
  }

  class Archive {
    /** How many rows of a database a cleanup leaves, at least. */
    const keep: nat
    /** The epoch of the runner whose archive this is. */
    const epoch: nat
    const digest: Bytes -> string
    var objects: Objects
    var rows: Index
    /** The epoch of the runner that started last. */
    var latest: nat

    ghost predicate Valid()
      reads this
    {
      1 <= keep && epoch <= latest && Sound(objects, rows, digest)
    }

    constructor (keep: nat, epoch: nat, digest: Bytes -> string)
      requires 1 <= keep
      ensures Valid() && rows == map[] && objects == map[]
      ensures this.keep == keep && this.epoch == epoch && this.digest == digest && latest == epoch
    {
      this.keep, this.epoch, this.digest := keep, epoch, digest;
      objects, rows, latest := map[], map[], epoch;
    }

    // The store and the index, which answer as they please

    /** An upload is whole, or cut short, or missing. */
    method Put(key: string, bytes: Bytes, write: Write, size: nat) returns (ok: bool)
      requires Valid() && Unused(rows, key)
      modifies this`objects
      ensures Valid() && ok == write.Answered?
      ensures Beside(objects, old(objects), key)
      ensures ok ==> key in objects && objects[key] == if size < |bytes| then bytes[..size] else bytes
    {
      if !write.NotApplied? {
        objects := objects[key := if size < |bytes| then bytes[..size] else bytes];
      }
      ok := write.Answered?;
    }

    method Size(key: string, answered: bool) returns (ok: bool, size: Option<nat>)
      ensures ok == answered
      ensures ok ==> size == if key in objects then Some(|objects[key]|) else None
    {
      ok := answered;
      size := if key in objects then Some(|objects[key]|) else None;
    }

    method Get(key: string) returns (ok: bool, bytes: Option<Bytes>)
      ensures ok ==> bytes == if key in objects then Some(objects[key]) else None
    {
      ok := *;
      bytes := if key in objects then Some(objects[key]) else None;
    }

    method Delete(key: string) returns (ok: bool)
      requires Valid() && Unused(rows, key)
      modifies this`objects
      ensures Valid()
      ensures objects == old(objects) || objects == old(objects) - {key}
    {
      var write: Write := *;
      if !write.NotApplied? {
        objects := objects - {key};
      }
      ok := write.Answered?;
    }

    /** The insert of a row, which a newer epoch refuses. */
    method Record(row: Snapshot, write: Write) returns (ok: bool)
      requires Valid() && IsDatabase(row.database) && Whole(objects, digest, row)
      requires forall i :: 0 <= i < |RowsOf(rows, row.database)| ==> RowsOf(rows, row.database)[i].stamp < row.stamp
      modifies this`rows
      ensures Valid() && ok == (latest == epoch && write.Answered?)
      ensures rows == if latest == epoch && !write.NotApplied? then With(old(rows), row) else old(rows)
    {
      if latest != epoch || write.NotApplied? {
        return false;
      }
      RecordIsSound(objects, rows, digest, row);
      rows := rows[row.database := [row] + RowsOf(rows, row.database)];
      ok := write.Answered?;
    }

    method List(database: string) returns (ok: bool, list: seq<Snapshot>)
      ensures ok ==> list == RowsOf(rows, database)
    {
      ok := *;
      list := RowsOf(rows, database);
    }

    method Forget(database: string, stamp: nat) returns (ok: bool)
      modifies this`rows
      ensures rows == old(rows) || (database in old(rows) &&
        rows == old(rows)[database := Without(old(rows)[database], stamp)])
      ensures ok ==> RowsOf(rows, database) == Without(RowsOf(old(rows), database), stamp)
    {
      var write: Write := *;
      if !write.NotApplied? && database in rows {
        rows := rows[database := Without(rows[database], stamp)];
      }
      ok := write.Answered?;
    }

    // The archive

    /** Drops the row `i` of `full`, then its object. The rows from `k` to `i`
        are gone already. */
    method DropOne(database: string, full: seq<Snapshot>, k: nat, i: nat) returns (ok: bool, forgot: bool)
      requires Valid() && k <= i < |full| && RowsOf(rows, database) == full[..k] + full[i..]
      modifies this`rows, this`objects
      ensures Valid() && (ok ==> forgot)
      ensures database in old(rows)
      ensures rows == if forgot then old(rows)[database := full[..k] + full[i + 1..]] else old(rows)
      ensures Within(objects, old(objects))
    {
      ForgetIsSound(objects, rows, digest, database, full, k, i);
      ghost var was := rows;
      ok := Forget(database, full[i].stamp);
      forgot := |RowsOf(rows, database)| < |full[..k] + full[i..]|;
      if ok {
        ok := Delete(full[i].key);
      }
    }

    /** Drops the rows of the database from the `k`-th on, each with its
        object, until the store or the index fails. */
    method DropFrom(database: string, k: nat) returns (ok: bool, gone: nat)
      requires Valid() && database in rows && k <= |rows[database]|
      modifies this`rows, this`objects
      ensures Valid()
      ensures k + gone <= |old(rows)[database]| && (ok ==> k + gone == |old(rows)[database]|)
      ensures rows == old(rows)[database := old(rows)[database][..k] + old(rows)[database][k + gone..]]
      ensures Within(objects, old(objects))
    {
      var full := rows[database];
      gone, ok := 0, true;
      assert full[..k] + full[k..] == full;
      while ok && k + gone < |full|
        invariant k + gone <= |full| && Valid()
        invariant rows == old(rows)[database := full[..k] + full[k + gone..]]
        invariant Within(objects, old(objects))
        decreases |full| - k - gone, ok
      {
        var forgot;
        assert RowsOf(rows, database) == full[..k] + full[k + gone..];
        label step:
        ok, forgot := DropOne(database, full, k, k + gone);
        WithinWithin(objects, old@step(objects), old(objects));
        if forgot {
          Overwritten(old(rows), database, full[..k] + full[k + gone..], full[..k] + full[k + gone + 1..]);
          gone := gone + 1;
        }
      }
    }

    /** What a verified upload of `bytes` is recorded as. */
    function Row(database: string, stamp: nat, bytes: Bytes): Snapshot {
      Snapshot(database, stamp, epoch, SnapshotKey(database, epoch, stamp), digest(bytes), |bytes|)
    }

    /** Uploads an object, and checks the size the store has. */
    method Upload(key: string, bytes: Bytes, answers: Answers) returns (ok: bool)
      requires Valid() && Unused(rows, key)
      modifies this`objects
      ensures Valid() && ok == Uploads(answers, bytes)
      ensures Beside(objects, old(objects), key)
      ensures ok ==> key in objects && objects[key] == bytes
    {
      ok := Put(key, bytes, answers.put, answers.size);
      if ok {
        var size;
        ok, size := Size(key, answers.head);
        ok := ok && size == Some(|bytes|);
      }
    }

    /** Whether the insert of a save is applied. */
    predicate Inserts(bytes: Bytes, answers: Answers)
      reads this
    {
      Uploads(answers, bytes) && latest == epoch && !answers.insert.NotApplied?
    }

    /** Uploads a snapshot, checks its size, records it, and drops the oldest
        rows beyond `keep`. It ends exactly if the insert is applied and
        answered. A save that fails leaves the rows as they were exactly if the
        insert was not applied; else the new row is on top. A save that ends
        has its row on top, whole; only rows beyond the newest `keep` went, all
        of them if the cleanup did not fail. */
    method Save(database: string, stamp: nat, bytes: Bytes, answers: Answers)
      returns (saved: bool, cleaned: bool, gone: nat)
      requires Valid() && IsDatabase(database)
      requires forall i :: 0 <= i < |RowsOf(rows, database)| ==> RowsOf(rows, database)[i].stamp < stamp
      modifies this`rows, this`objects
      ensures Valid()
      ensures saved == (Inserts(bytes, answers) && answers.insert.Answered?)
      ensures !saved ==> (rows == old(rows) <==> !Inserts(bytes, answers))
      ensures !saved && Inserts(bytes, answers) ==> rows == With(old(rows), Row(database, stamp, bytes))
      ensures Inserts(bytes, answers) ==>
        var row := Row(database, stamp, bytes); row.key in objects && objects[row.key] == bytes
      ensures saved ==>
        var full := With(old(rows), Row(database, stamp, bytes));
        && rows == full[database := Kept(full[database], keep, gone)]
        && (cleaned ==> rows[database] == Newest(full[database], keep))
      ensures saved ==>
        && database in rows
        && KeepsNewest(RowsOf(old(rows), database), Row(database, stamp, bytes), rows[database], keep)
        && (cleaned ==> |rows[database]| <= keep)
      ensures forall d :: d != database ==> RowsOf(rows, d) == RowsOf(old(rows), d)
      ensures forall key :: key in objects && key != Row(database, stamp, bytes).key ==>
        key in old(objects) && objects[key] == old(objects)[key]
    {
      saved, cleaned, gone := false, false, 0;
      var row := Row(database, stamp, bytes);
      NewKeyIsUnused(objects, rows, digest, database, epoch, stamp);
      var ok := Upload(row.key, bytes, answers);
      if !ok {
        return;
      }
      ok := Record(row, answers.insert);
      OneRowMore(old(rows), row);
      if !ok {
        return;
      }
      saved := true;
      gone, cleaned := Clean(database);
      KeptRows(row, RowsOf(old(rows), database), keep, gone);
    }

    /** Reads the object of the newest row, and compares its digest. A row
        never leads to a missing object, nor to other bytes. */
    method FetchLatest(database: string) returns (fetched: Fetched)
      requires Valid()
      ensures !fetched.Missing? && !fetched.Mismatch?
      ensures fetched.Nothing? ==> RowsOf(rows, database) == []
      ensures fetched.Found? ==>
        && RowsOf(rows, database) != [] && RowsOf(rows, database)[0].key in objects
        && fetched.bytes == objects[RowsOf(rows, database)[0].key]
    {
      var ok, list := List(database);
      if !ok {
        return Unreadable;
      }
      if list == [] {
        return Nothing;
      }
      var latest := list[0];
      var bytes;
      ok, bytes := Get(latest.key);
      if !ok {
        return Unreadable;
      }
      if bytes.None? {
        return Missing;
      }
      if digest(bytes.value) != latest.checksum {
        return Mismatch;
      }
      fetched := Found(bytes.value);
    }

    /** Forgets every row of a database, from the top, each with its object. */
    method ForgetAll(database: string) returns (ok: bool, gone: nat)
      requires Valid()
      modifies this`rows, this`objects
      ensures Valid()
      ensures gone <= |RowsOf(old(rows), database)|
      ensures RowsOf(rows, database) == RowsOf(old(rows), database)[gone..]
      ensures ok ==> RowsOf(rows, database) == []
    {
      gone := 0;
      var list;
      ok, list := List(database);
      if ok && list != [] {
        ok, gone := DropFrom(database, 0);
        assert list[..0] + list[gone..] == list[gone..];
      }
    }

    /** The cleanup of a save. */
    method Clean(database: string) returns (gone: nat, cleaned: bool)
      requires Valid() && database in rows
      modifies this`rows, this`objects
      ensures Valid()
      ensures rows == old(rows)[database := Kept(old(rows)[database], keep, gone)]
      ensures cleaned ==> rows[database] == Newest(old(rows)[database], keep)
      ensures Within(objects, old(objects))
    {
      gone := 0;
      var full := rows[database];
      var ok, list := List(database);
      assert keep <= |full| ==> full[..keep] + full[keep..] == full;
      if ok && keep < |list| {
        ok, gone := DropFrom(database, keep);
      }
      cleaned := ok;
    }
  }

  function With(rows: Index, row: Snapshot): Index {
    rows[row.database := [row] + RowsOf(rows, row.database)]
  }

  lemma OneRowMore(rows: Index, row: Snapshot)
    ensures With(rows, row) != rows
  {
    assert |RowsOf(With(rows, row), row.database)| == |RowsOf(rows, row.database)| + 1;
  }

  /** A save that fails and yet leaves its row, because the answer to its insert
      did not arrive. */
  method AnUnansweredInsert(database: string, bytes: Bytes, digest: Bytes -> string)
    returns (archive: Archive, saved: bool)
    requires IsDatabase(database)
    ensures !saved && archive.Valid() && RowsOf(archive.rows, database) == [archive.Row(database, 1, bytes)]
  {
    archive := new Archive(1, 0, digest);
    var cleaned, gone;
    saved, cleaned, gone := archive.Save(database, 1, bytes, Answers(Answered, |bytes|, true, Unanswered));
  }

  function Newest(rows: seq<Snapshot>, keep: nat): seq<Snapshot> {
    if |rows| <= keep then rows else rows[..keep]
  }

  /** The rows that stay when `gone` rows went after the newest `keep`. */
  function Kept(full: seq<Snapshot>, keep: nat, gone: nat): seq<Snapshot> {
    if keep + gone <= |full| then full[..keep] + full[keep + gone..] else full
  }

  /** `now` has `row` on top, and under it the newest of the rows that were there,
      `keep` rows in all or more. */
  ghost predicate KeepsNewest(was: seq<Snapshot>, row: Snapshot, now: seq<Snapshot>, keep: nat) {
    && now != [] && now[0] == row
    && forall i :: 0 < i < keep && i <= |was| ==> i < |now| && now[i] == was[i - 1]
  }

  lemma KeptRows(row: Snapshot, was: seq<Snapshot>, keep: nat, gone: nat)
    requires 1 <= keep
    ensures KeepsNewest(was, row, Kept([row] + was, keep, gone), keep)
  {
  }

  lemma Overwritten(rows: Index, d: string, a: seq<Snapshot>, b: seq<Snapshot>)
    ensures rows[d := a][d := b] == rows[d := b]
  {
  }

  /** Forgetting the next old row leaves the rest, sound, and its key unused. */
  lemma ForgetIsSound(objects: Objects, rows: Index, digest: Bytes -> string,
                      d: string, full: seq<Snapshot>, k: nat, i: nat)
    requires Sound(objects, rows, digest) && k <= i < |full| && RowsOf(rows, d) == full[..k] + full[i..]
    ensures d in rows && Without(rows[d], full[i].stamp) == full[..k] + full[i + 1..]
    ensures var rows' := rows[d := Without(rows[d], full[i].stamp)];
      Sound(objects, rows', digest) && Unused(rows', full[i].key)
  {
    var now := rows[d];
    assert now == full[..k] + [full[i]] + full[i + 1..];
    WithoutOne(full[..k], full[i], full[i + 1..]);
    CutIsSound(objects, rows, digest, d, k, k + 1);
    var rows' := rows[d := Without(rows[d], full[i].stamp)];
    assert now[..k] + now[k + 1..] == rows'[d];
    forall e, j | e in rows' && 0 <= j < |rows'[e]|
      ensures rows'[e][j].key != full[i].key
    {
      var j' := if e == d && j >= k then j + 1 else j;
      assert rows[e][j'] == rows'[e][j] && now[k] == full[i];
      if rows'[e][j].key == full[i].key {
        RowsShareNoKey(objects, rows, digest, e, j', d, k);
      }
    }
  }
}
