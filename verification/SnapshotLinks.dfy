/** The machine of `SnapshotRuns` against the map of open databases and the
    archive: what they do to one database are steps of it. */
module SnapshotLinks {
  import opened Wrappers
  import opened D1Keys
  import opened Archives
  import A = ArchiveRuns
  import D1Service
  import S = SnapshotRuns

  // ---- The map of open databases ----

  /** An entry of the machine stands for a handle. Whether a handle in use is
      open is for its user to know. */
  predicate Matches(h: D1Service.Handle, e: S.Entry) {
    && h.commits == e.commits && h.saved == e.saved
    && h.uses == e.callers + (if e.held then 1 else 0)
    && (h.uses == 0 ==> h.open == !e.connection.Closed?)
  }

  predicate Agrees(databases: D1Service.Databases, id: string, entry: Option<S.Entry>) {
    if id in databases then entry.Some? && Matches(databases[id], entry.value) else entry.None?
  }

  /** Making room evicts the entry of its victim, and leaves the others. */
  lemma MakingRoomIsAnEviction(databases: D1Service.Databases, victim: Option<string>, id: string,
                               r: nat, x: S.Runner, rows: seq<S.History>)
    requires D1Service.IsOldest(databases, victim) && Agrees(databases, id, x.entry)
    ensures victim != Some(id) ==> Agrees(D1Service.WithRoom(databases, victim), id, x.entry)
    ensures victim == Some(id) ==>
      S.CanAct(x, rows, S.Evict)
      && Agrees(D1Service.WithRoom(databases, victim), id, S.Acted(r, x, rows, S.Evict).entry)
  {
    if victim == Some(id) {
      assert D1Service.Evictable(databases, id);
    }
  }

  /** So does closing the idle ones. */
  lemma ClosingIdleIsAnEviction(databases: D1Service.Databases, now: int, idle: int, id: string,
                                r: nat, x: S.Runner, rows: seq<S.History>)
    requires Agrees(databases, id, x.entry)
    ensures var gone := id in databases && D1Service.IsIdle(databases[id], now, idle);
      && (!gone ==> Agrees(D1Service.WithoutIdle(databases, now, idle), id, x.entry))
      && (gone ==> S.CanAct(x, rows, S.Evict)
                   && Agrees(D1Service.WithoutIdle(databases, now, idle), id, S.Acted(r, x, rows, S.Evict).entry))
  {
    var awake := D1Service.WithoutIdle(databases, now, idle);
    assert id in databases ==>
      (id in awake <==> (D1Service.IsIdle(databases[id], now, idle) ==> D1Service.Unsaved(databases[id])));
  }

  /** The service hands out an entry as a call of the machine does. */
  method OpenIsACall(service: D1Service.Service, id: string, now: int, r: nat, x: S.Runner, rows: seq<S.History>)
    returns (victim: Option<string>)
    requires Agrees(service.databases, id, x.entry)
    modifies service
    ensures Agrees(service.databases, id, S.Acted(r, x, rows, S.Call).entry)
  {
    victim := service.Open(id, now);
  }

  // ---- The archive ----

  /** What a snapshot holds; `decode` reads it. */
  function Content(objects: Objects, row: Snapshot, decode: Bytes -> S.History): S.History {
    if row.key in objects then decode(objects[row.key]) else []
  }

  function Contents(objects: Objects, rows: seq<Snapshot>, decode: Bytes -> S.History): seq<S.History> {
    seq(|rows|, i requires 0 <= i < |rows| => Content(objects, rows[i], decode))
  }

  /** The rows after the pass forgot `gone` of them, from the place `keep` on. */
  function Forgotten(x: S.Runner, rows: seq<S.History>, keep: nat, gone: nat): seq<S.History>
    requires x.pass.Recorded? && 1 <= keep && keep + gone <= |rows|
    decreases gone
  {
    if gone == 0 then rows else Forgotten(x, S.RowsAfter(x, rows, S.Forget(keep)), keep, gone - 1)
  }

  lemma {:induction false} ForgottenIsACut(x: S.Runner, rows: seq<S.History>, keep: nat, gone: nat)
    requires x.pass.Recorded? && 1 <= keep && keep + gone <= |rows|
    ensures Forgotten(x, rows, keep, gone) == rows[..keep] + rows[keep + gone..]
    decreases gone
  {
    if gone == 0 {
      assert rows == rows[..keep] + rows[keep..];
    } else {
      var rest := S.RowsAfter(x, rows, S.Forget(keep));
      ForgottenIsACut(x, rest, keep, gone - 1);
      assert rest == rows[..keep] + rows[keep + 1..];
      assert rest[..keep] == rows[..keep] && rest[keep + gone - 1..] == rows[keep + gone..];
    }
  }

  /** The contents of rows that stayed, with their objects. */
  lemma ContentsOfKept(objects: Objects, objects': Objects, rows: seq<Snapshot>, k: nat, m: nat,
                       decode: Bytes -> S.History)
    requires k <= m <= |rows|
    requires forall i :: 0 <= i < |rows| ==> rows[i].key in objects
    requires forall i :: 0 <= i < |rows| && (i < k || m <= i) ==>
      rows[i].key in objects' && objects'[rows[i].key] == objects[rows[i].key]
    ensures var all := Contents(objects, rows, decode);
      Contents(objects', rows[..k] + rows[m..], decode) == all[..k] + all[m..]
  {
    var kept, all := rows[..k] + rows[m..], Contents(objects, rows, decode);
    forall i | 0 <= i < |kept| ensures Contents(objects', kept, decode)[i] == (all[..k] + all[m..])[i] {
      assert kept[i] == rows[if i < k then i else i + m - k];
    }
  }

  lemma ContentsOfOneMore(objects: Objects, objects': Objects, row: Snapshot, rows: seq<Snapshot>,
                          decode: Bytes -> S.History)
    requires row.key in objects'
    requires forall i :: 0 <= i < |rows| ==>
      rows[i].key in objects && rows[i].key in objects' && objects'[rows[i].key] == objects[rows[i].key]
    ensures Contents(objects', [row] + rows, decode) == [decode(objects'[row.key])] + Contents(objects, rows, decode)
  {
    assert ([row] + rows)[1..] == rows;
    assert Contents(objects', rows, decode) == Contents(objects, rows, decode);
  }

  /** `now` is what the machine makes of `was` in a record, answered or not or not
      applied, and then in forgets of rows beyond the newest `keep`. */
  predicate IsRecorded(x: S.Runner, was: seq<S.History>, now: seq<S.History>,
                       inserted: bool, saved: bool, keep: nat, gone: nat)
    requires x.entry.Some? && x.pass.Copied? && 1 <= keep
  {
    var recorded := S.RowsAfter(x, was, S.Record(Answered));
    if !saved then now == S.RowsAfter(x, was, S.Record(if inserted then Unanswered else NotApplied))
    else if keep + gone <= |recorded| then
      now == Forgotten(S.Acted(0, x, was, S.Record(Answered)), recorded, keep, gone)
    else now == recorded
  }

  /** No object changed, but for the one of `key`, which has `bytes`. */
  ghost predicate Wrote(objects: Objects, objects': Objects, key: string, bytes: Bytes) {
    forall k :: k in objects' ==>
      objects'[k] == if k == key then bytes else if k in objects then objects[k] else objects'[k]
  }

  /** The rows that stay when `gone` of them went after the newest `keep`. */
  function Cut(rows: seq<S.History>, keep: nat, gone: nat): seq<S.History> {
    if keep + gone <= |rows| then rows[..keep] + rows[keep + gone..] else rows
  }

  lemma CutIsRecorded(x: S.Runner, was: seq<S.History>, keep: nat, gone: nat)
    requires x.entry.Some? && x.pass.Copied? && 1 <= keep
    ensures IsRecorded(x, was, Cut([x.pass.copy] + was, keep, gone), true, true, keep, gone)
  {
    var recorded := S.RowsAfter(x, was, S.Record(Answered));
    if keep + gone <= |recorded| {
      ForgottenIsACut(S.Acted(0, x, was, S.Record(Answered)), recorded, keep, gone);
    }
  }

  lemma ContentsOfCut(objects: Objects, objects': Objects, row: Snapshot, was: seq<Snapshot>, now: seq<Snapshot>,
                      bytes: Bytes, keep: nat, gone: nat, decode: Bytes -> S.History)
    requires Wrote(objects, objects', row.key, bytes) && now == Kept([row] + was, keep, gone)
    requires forall i :: 0 <= i < |was| ==> was[i].key in objects && was[i].key != row.key
    requires forall i :: 0 <= i < |now| ==> now[i].key in objects'
    ensures Contents(objects', now, decode) == Cut([decode(bytes)] + Contents(objects, was, decode), keep, gone)
  {
    if keep + gone <= |was| + 1 {
      ContentsOfSaved(objects, objects', row, was, now, bytes, keep, keep + gone, decode);
    } else {
      NothingForgotten(objects, objects', row, was, now, bytes, decode);
    }
  }

  lemma NothingForgotten(objects: Objects, objects': Objects, row: Snapshot, was: seq<Snapshot>, now: seq<Snapshot>,
                         bytes: Bytes, decode: Bytes -> S.History)
    requires Wrote(objects, objects', row.key, bytes) && now == [row] + was
    requires forall i :: 0 <= i < |was| ==> was[i].key in objects && was[i].key != row.key
    requires forall i :: 0 <= i < |now| ==> now[i].key in objects'
    ensures Contents(objects', now, decode) == [decode(bytes)] + Contents(objects, was, decode)
  {
    var recorded := [decode(bytes)] + Contents(objects, was, decode);
    assert now[..0] + now[0..] == now && recorded[..0] + recorded[0..] == recorded;
    ContentsOfSaved(objects, objects', row, was, now, bytes, 0, 0, decode);
  }

  lemma ContentsOfSaved(objects: Objects, objects': Objects, row: Snapshot, was: seq<Snapshot>, now: seq<Snapshot>,
                        bytes: Bytes, k: nat, m: nat, decode: Bytes -> S.History)
    requires Wrote(objects, objects', row.key, bytes) && k <= m <= |was| + 1
    requires forall i :: 0 <= i < |was| ==> was[i].key in objects && was[i].key != row.key
    requires now == ([row] + was)[..k] + ([row] + was)[m..] && forall i :: 0 <= i < |now| ==> now[i].key in objects'
    ensures var recorded := [decode(bytes)] + Contents(objects, was, decode);
      Contents(objects', now, decode) == recorded[..k] + recorded[m..]
  {
    var full, between := [row] + was, objects[row.key := bytes];
    ContentsOfOneMore(objects, between, row, was, decode);
    AllHave(objects', full, k, m);
    ContentsOfKept(between, objects', full, k, m, decode);
  }

  lemma AllHave(objects: Objects, rows: seq<Snapshot>, k: nat, m: nat)
    requires k <= m <= |rows|
    requires var kept := rows[..k] + rows[m..]; forall i :: 0 <= i < |kept| ==> kept[i].key in objects
    ensures forall i :: 0 <= i < |rows| && (i < k || m <= i) ==> rows[i].key in objects
  {
    var kept := rows[..k] + rows[m..];
    forall i | 0 <= i < |rows| && (i < k || m <= i) ensures rows[i].key in objects {
      assert rows[i] == kept[if i < k then i else i - m + k];
    }
  }

  lemma FailedIsRecorded(objects: Objects, objects': Objects, row: Snapshot, was: seq<Snapshot>, bytes: Bytes,
                         inserted: bool, keep: nat, decode: Bytes -> S.History, x: S.Runner)
    requires x.entry.Some? && x.pass.Copied? && x.pass.copy == decode(bytes) && 1 <= keep
    requires inserted ==> row.key in objects' && objects'[row.key] == bytes
    requires forall i :: 0 <= i < |was| ==>
      was[i].key in objects && was[i].key in objects' && objects'[was[i].key] == objects[was[i].key]
    ensures IsRecorded(x, Contents(objects, was, decode),
                       Contents(objects', if inserted then [row] + was else was, decode), inserted, false, keep, 0)
  {
    if inserted {
      ContentsOfOneMore(objects, objects', row, was, decode);
    } else {
      assert Contents(objects', was, decode) == Contents(objects, was, decode);
    }
  }

  lemma OutcomeIsRecorded(objects: Objects, objects': Objects, row: Snapshot, was: seq<Snapshot>, now: seq<Snapshot>,
                          bytes: Bytes, inserted: bool, saved: bool, keep: nat, gone: nat,
                          decode: Bytes -> S.History, x: S.Runner)
    requires x.entry.Some? && x.pass.Copied? && x.pass.copy == decode(bytes) && 1 <= keep
    requires forall i :: 0 <= i < |was| ==> was[i].key in objects && was[i].key != row.key
    requires forall i :: 0 <= i < |now| ==> now[i].key in objects'
    requires forall k :: k in objects' && k != row.key ==> k in objects && objects'[k] == objects[k]
    requires inserted ==> row.key in objects' && objects'[row.key] == bytes
    requires now == if saved then Kept([row] + was, keep, gone) else if inserted then [row] + was else was
    requires saved ==> inserted
    ensures IsRecorded(x, Contents(objects, was, decode), Contents(objects', now, decode), inserted, saved, keep, gone)
  {
    if saved {
      ContentsOfCut(objects, objects', row, was, now, bytes, keep, gone, decode);
      CutIsRecorded(x, Contents(objects, was, decode), keep, gone);
    } else {
      forall i | 0 <= i < |was| ensures was[i].key in objects' {
        assert was[i] == now[if inserted then i + 1 else i];
      }
      FailedIsRecorded(objects, objects', row, was, bytes, inserted, keep, decode, x);
    }
  }

  /** Every row of a sound archive has its object, and a key that no newer row has. */
  lemma KeysBeside(objects: Objects, rows: Index, digest: Bytes -> string, d: string, epoch: nat, stamp: nat)
    requires Sound(objects, rows, digest) && IsDatabase(d)
    requires forall i :: 0 <= i < |RowsOf(rows, d)| ==> RowsOf(rows, d)[i].stamp < stamp
    ensures forall i :: 0 <= i < |RowsOf(rows, d)| ==>
      RowsOf(rows, d)[i].key in objects && RowsOf(rows, d)[i].key != SnapshotKey(d, epoch, stamp)
  {
    NewKeyIsUnused(objects, rows, digest, d, epoch, stamp);
    KeysThere(objects, rows, digest, d);
  }

  lemma KeysThere(objects: Objects, rows: Index, digest: Bytes -> string, d: string)
    requires Sound(objects, rows, digest)
    ensures forall i :: 0 <= i < |RowsOf(rows, d)| ==> RowsOf(rows, d)[i].key in objects
  {
    if d in rows {
      assert forall i :: 0 <= i < |rows[d]| ==> Whole(objects, digest, rows[d][i]);
    }
  }

  /** A save of the archive is a record of the machine, followed by forgets. Only
      the runner of the latest epoch has its record applied. */
  method SaveIsARecord(archive: Archive, database: string, stamp: nat, bytes: Bytes, answers: Answers,
                       decode: Bytes -> S.History, x: S.Runner)
    returns (saved: bool, cleaned: bool, gone: nat)
    requires archive.Valid() && IsDatabase(database)
    requires forall i :: 0 <= i < |RowsOf(archive.rows, database)| ==> RowsOf(archive.rows, database)[i].stamp < stamp
    requires x.entry.Some? && x.pass.Copied? && x.pass.copy == decode(bytes)
    modifies archive`rows, archive`objects
    ensures archive.Inserts(bytes, answers) ==> archive.latest == archive.epoch
    ensures archive.Valid()
    ensures IsRecorded(x, old(Contents(archive.objects, RowsOf(archive.rows, database), decode)),
                       Contents(archive.objects, RowsOf(archive.rows, database), decode),
                       archive.Inserts(bytes, answers), saved, archive.keep, gone)
  {
    ghost var was, objects := RowsOf(archive.rows, database), archive.objects;
    ghost var row := archive.Row(database, stamp, bytes);
    KeysBeside(objects, archive.rows, archive.digest, database, archive.epoch, stamp);
    saved, cleaned, gone := archive.Save(database, stamp, bytes, answers);
    KeysThere(archive.objects, archive.rows, archive.digest, database);
    OutcomeIsRecorded(objects, archive.objects, row, was, RowsOf(archive.rows, database), bytes,
                      archive.Inserts(bytes, answers), saved, archive.keep, gone, decode, x);
  }

  /** A fetch of the archive gives what a restore of the machine puts in the file. */
  method FetchIsARestore(archive: Archive, database: string, decode: Bytes -> S.History) returns (fetched: Fetched)
    requires archive.Valid()
    ensures var rows := Contents(archive.objects, RowsOf(archive.rows, database), decode);
      && (fetched.Nothing? ==> S.Top(rows) == [])
      && (fetched.Found? ==> S.Top(rows) == decode(fetched.bytes))
  {
    fetched := archive.FetchLatest(database);
  }

  // ---- The archive under several runners ----

  /** Rows have the contents they had, if no object of theirs changed. */
  lemma SameContents(objects: Objects, objects': Objects, rows: Index, d: string, key: string,
                     decode: Bytes -> S.History)
    requires Unused(rows, key) && Beside(objects', objects, key)
    ensures Contents(objects', RowsOf(rows, d), decode) == Contents(objects, RowsOf(rows, d), decode)
  {
    forall i | 0 <= i < |RowsOf(rows, d)|
      ensures Content(objects', RowsOf(rows, d)[i], decode) == Content(objects, RowsOf(rows, d)[i], decode)
    {
      assert rows[d][i].key != key;
    }
  }

  /** The contents of the rows of one database after a step: `put` on top of
      them, or without the place `k`, or as they were. */
  datatype Change = Same | OnTop(put: S.History) | Gone(k: nat)

  predicate IsChange(was: seq<S.History>, now: seq<S.History>, change: Change) {
    match change
    case Same => now == was
    case OnTop(put) => now == [put] + was
    case Gone(k) => k < |was| && now == was[..k] + was[k + 1..]
  }

  /** The insert of a save puts what it uploaded on top. */
  lemma InsertChanges(s: A.State, step: A.Step, digest: Bytes -> string, decode: Bytes -> S.History)
    requires A.Inv(s, digest) && A.Enabled(s, step) && step.Insert?
    requires A.Applied(s, s.tasks[step.id].row, step.write)
    ensures var d, bytes, s' := s.tasks[step.id].row.database, s.tasks[step.id].bytes, A.Apply(s, step, digest);
      Contents(s'.objects, RowsOf(s'.rows, d), decode) ==
        [decode(bytes)] + Contents(s.objects, RowsOf(s.rows, d), decode)
  {
    var t, d := s.tasks[step.id], s.tasks[step.id].row.database;
    assert A.GoodTask(s, t, digest);
    KeysThere(s.objects, s.rows, digest, d);
    ContentsOfOneMore(s.objects, s.objects, t.row, RowsOf(s.rows, d), decode);
  }

  /** A forget takes one place away, or none. */
  lemma ForgetChanges(objects: Objects, rows: seq<Snapshot>, stamp: nat, decode: Bytes -> S.History)
    returns (change: Change)
    requires Descending(rows) && forall i :: 0 <= i < |rows| ==> rows[i].key in objects
    ensures change.Same? || (change.Gone? && change.k < |rows| && rows[change.k].stamp == stamp)
    ensures IsChange(Contents(objects, rows, decode), Contents(objects, Without(rows, stamp), decode), change)
  {
    var k, m := A.WithoutIsACut(rows, stamp);
    ContentsOfKept(objects, objects, rows, k, m, decode);
    var all := Contents(objects, rows, decode);
    if m == k + 1 {
      change := Gone(k);
    } else {
      change := Same;
      assert all[..k] + all[m..] == all;
    }
  }

  lemma ForgetIsAStep(s: A.State, step: A.Step, digest: Bytes -> string, decode: Bytes -> S.History)
    returns (change: Change)
    requires A.Inv(s, digest) && A.Enabled(s, step) && step.Forget? && !step.write.NotApplied?
    ensures var d, s' := step.row.database, A.Apply(s, step, digest);
      IsChange(Contents(s.objects, RowsOf(s.rows, d), decode), Contents(s'.objects, RowsOf(s'.rows, d), decode), change)
    ensures change.Same? || (change.Gone? && (A.Spares(s, step.row.database) ==> change.k >= 1))
  {
    var d := step.row.database;
    assert A.HasTodo(s, step.id, step.row);
    change := Same;
    if d in s.rows {
      KeysThere(s.objects, s.rows, digest, d);
      change := ForgetChanges(s.objects, s.rows[d], step.row.stamp, decode);
    }
  }

  /** Every step of the archive is, for each database, a record of the machine by
      the runner of the latest epoch, or a forget, or nothing; and as long as the
      database is not removed, a forget does not take the newest row. */
  lemma ArchiveStepsAreSteps(s: A.State, step: A.Step, digest: Bytes -> string, d: string, decode: Bytes -> S.History)
    returns (change: Change)
    requires A.Inv(s, digest) && A.Enabled(s, step)
    ensures var s' := A.Apply(s, step, digest);
      IsChange(Contents(s.objects, RowsOf(s.rows, d), decode), Contents(s'.objects, RowsOf(s'.rows, d), decode), change)
    ensures change.OnTop? ==>
      step.Insert? && s.tasks[step.id].row.epoch == s.latest && change.put == decode(s.tasks[step.id].bytes)
    ensures change.Gone? ==> step.Forget? && (A.Spares(s, d) ==> change.k >= 1)
  {
    change := Same;
    if !A.Touches(s, step, d) {
      A.RowsStay(s, step, d, digest);
      var key := A.ChangedObject(s, step, digest);
      if key.Some? {
        SameContents(s.objects, A.Apply(s, step, digest).objects, s.rows, d, key.value, decode);
      }
    } else if step.Insert? {
      InsertChanges(s, step, digest, decode);
      change := OnTop(decode(s.tasks[step.id].bytes));
    } else {
      change := ForgetIsAStep(s, step, digest, decode);
    }
  }
}
