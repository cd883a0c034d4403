/** Every run of the archive under any number of runners: saves of several
    databases and of several epochs, their cleanups, removals of whole databases
    and the purge of what is forgotten, with a failed or unanswered request
    anywhere. Each request to the store or to the index is a step of its own. */
module ArchiveRuns {
  import opened Wrappers
  import opened D1Keys
  import opened Archives

  type Id = nat

  /** How far a save is: its upload, the question for its size, its insert. */
  datatype Stage = Uploading | Checking | Inserting

  /** A save or a cleanup. `todo` are the rows it listed and has to drop; a
      `Deleting` one has forgotten `row` and not deleted its object. A cleanup of
      a save spares the newest rows, the removal of a database does not. */
  datatype Task =
    | Saving(stage: Stage, row: Snapshot, bytes: Bytes)
    | Listing(database: string, keep: nat)
    | Dropping(todo: set<Snapshot>, keep: nat)
    | Deleting(row: Snapshot, todo: set<Snapshot>, keep: nat)

  /** The database, epoch and stamp of a save, which make its key. */
  datatype Name = Name(database: string, epoch: nat, stamp: nat)

  /** `latest` is the epoch of the runner that started last, `begun` are the
      saves that ever began, and `gone` the rows that were forgotten. */
  datatype State = State(
    objects: Objects,
    rows: Index,
    latest: nat,
    begun: set<Name>,
    gone: set<Snapshot>,
    tasks: map<Id, Task>)

  datatype Step =
    | Start
    | Begin(id: Id, name: Name, bytes: Bytes)
    | Put(id: Id, write: Write, size: nat)
    | Head(id: Id, ok: bool)
    | Insert(id: Id, write: Write, keep: nat)
    | Remove(id: Id, database: string)
    | List(id: Id)
    | Forget(id: Id, row: Snapshot, write: Write)
    | Delete(id: Id, write: Write)
    | Purge(row: Snapshot)
    | Cancel(id: Id)

  function NameOf(row: Snapshot): Name { Name(row.database, row.epoch, row.stamp) }

  function RowFor(name: Name, bytes: Bytes, digest: Bytes -> string): Snapshot {
    Snapshot(name.database, name.stamp, name.epoch, SnapshotKey(name.database, name.epoch, name.stamp),
             digest(bytes), |bytes|)
  }

  /** The insert of a row is applied: the index takes it from the latest epoch. */
  predicate Applied(s: State, row: Snapshot, write: Write) { row.epoch == s.latest && !write.NotApplied? }

  predicate IsSaving(s: State, id: Id, stage: Stage) {
    id in s.tasks && s.tasks[id].Saving? && s.tasks[id].stage == stage
  }

  /** A save begins once, with a stamp of its own, in the epoch of a runner that
      started; its stamp is newer than the rows it joins. */
  ghost predicate Enabled(s: State, step: Step) {
    match step
    case Start => true
    case Begin(id, name, _) =>
      id !in s.tasks && IsDatabase(name.database) && name.epoch <= s.latest && name !in s.begun
    case Put(id, _, _) => IsSaving(s, id, Uploading)
    case Head(id, _) => IsSaving(s, id, Checking)
    case Insert(id, write, keep) =>
      && IsSaving(s, id, Inserting) && keep >= 1
      && (Applied(s, s.tasks[id].row, write) ==> IsNewer(s.rows, s.tasks[id].row))
    case Remove(id, _) => id !in s.tasks
    case List(id) => id in s.tasks && s.tasks[id].Listing?
    case Forget(id, row, _) => id in s.tasks && s.tasks[id].Dropping? && row in s.tasks[id].todo
    case Delete(id, _) => id in s.tasks && s.tasks[id].Deleting?
    case Purge(row) => row in s.gone
    case Cancel(id) => id in s.tasks
  }

  ghost predicate IsNewer(rows: Index, row: Snapshot) {
    forall i :: 0 <= i < |RowsOf(rows, row.database)| ==> RowsOf(rows, row.database)[i].stamp < row.stamp
  }

  function Go(s: State, id: Id, t: Task): State { s.(tasks := s.tasks[id := t]) }

  function Quit(s: State, id: Id): State { s.(tasks := s.tasks - {id}) }

  /** The rows of a database from the place `keep` on. */
  function Beyond(rows: seq<Snapshot>, keep: nat): set<Snapshot> {
    if keep <= |rows| then set r | r in rows[keep..] else {}
  }

  function WithoutRow(rows: Index, row: Snapshot): Index {
    if row.database in rows then rows[row.database := Without(rows[row.database], row.stamp)] else rows
  }

  /** The rows that go with the stamp of `row`. */
  function Going(rows: Index, row: Snapshot): set<Snapshot> {
    set r | r in RowsOf(rows, row.database) && r.stamp == row.stamp
  }

  ghost function Apply(s: State, step: Step, digest: Bytes -> string): State
    requires Enabled(s, step)
  {
    match step
    case Start => s.(latest := s.latest + 1)
    case Begin(id, name, bytes) =>
      Go(s, id, Saving(Uploading, RowFor(name, bytes, digest), bytes)).(begun := s.begun + {name})
    case Put(id, write, size) =>
      var t := s.tasks[id];
      var stored := if size < |t.bytes| then t.bytes[..size] else t.bytes;
      var s1 := if write.NotApplied? then s else s.(objects := s.objects[t.row.key := stored]);
      if write.Answered? then Go(s1, id, t.(stage := Checking)) else Quit(s1, id)
    case Head(id, ok) =>
      var t := s.tasks[id];
      if ok && t.row.key in s.objects && |s.objects[t.row.key]| == |t.bytes| then Go(s, id, t.(stage := Inserting))
      else Quit(s, id)
    case Insert(id, write, keep) =>
      var row := s.tasks[id].row;
      var s1 := if Applied(s, row, write) then s.(rows := With(s.rows, row)) else s;
      if Applied(s, row, write) && write.Answered? then Go(s1, id, Listing(row.database, keep)) else Quit(s1, id)
    case Remove(id, database) => Go(s, id, Listing(database, 0))
    case List(id) =>
      var t := s.tasks[id];
      Go(s, id, Dropping(Beyond(RowsOf(s.rows, t.database), t.keep), t.keep))
    case Forget(id, row, write) =>
      var t := s.tasks[id];
      var s1 := if write.NotApplied? then s
                else s.(rows := WithoutRow(s.rows, row), gone := s.gone + Going(s.rows, row));
      if write.Answered? then Go(s1, id, Deleting(row, t.todo - {row}, t.keep)) else Quit(s1, id)
    case Delete(id, write) =>
      var t := s.tasks[id];
      var s1 := if write.NotApplied? then s else s.(objects := s.objects - {t.row.key});
      if write.Answered? then Go(s1, id, Dropping(t.todo, t.keep)) else Quit(s1, id)
    case Purge(row) => s.(objects := s.objects - {row.key})
    case Cancel(id) => Quit(s, id)
  }

  ghost predicate Run(states: seq<State>, steps: seq<Step>, digest: Bytes -> string) {
    && |states| == |steps| + 1
    && |states[0].objects| == |states[0].rows| == |states[0].begun| == |states[0].gone| == |states[0].tasks| == 0
    && forall i :: 0 <= i < |steps| ==>
         Enabled(states[i], steps[i]) && states[i + 1] == Apply(states[i], steps[i], digest)
  }

  // ---- What every step keeps ----

  /** A row that was recorded once, and may be gone. */
  predicate IsRecorded(rows: Index, gone: set<Snapshot>, row: Snapshot) {
    row in RowsOf(rows, row.database) || row in gone
  }

  /** A row has the key of its name, and its save began. */
  ghost predicate Named(begun: set<Name>, row: Snapshot) {
    && IsDatabase(row.database) && row.key == SnapshotKey(row.database, row.epoch, row.stamp)
    && NameOf(row) in begun
  }

  ghost predicate AllNamed(rows: Index, gone: set<Snapshot>, begun: set<Name>) {
    forall row :: IsRecorded(rows, gone, row) ==> Named(begun, row)
  }

  /** No row has the key of one that is gone. */
  ghost predicate Apart(rows: Index, gone: set<Snapshot>) {
    forall g :: g in gone ==> Unused(rows, g.key)
  }

  /** A save that has not inserted its row: nothing recorded has its name. */
  ghost predicate GoodSave(s: State, t: Task, digest: Bytes -> string)
    requires t.Saving?
  {
    && Named(s.begun, t.row) && t.row.checksum == digest(t.bytes) && t.row.size == |t.bytes|
    && (forall row :: IsRecorded(s.rows, s.gone, row) ==> NameOf(row) != NameOf(t.row))
    && (t.stage.Checking? ==> t.row.key in s.objects && s.objects[t.row.key] <= t.bytes)
    && (t.stage.Inserting? ==> t.row.key in s.objects && s.objects[t.row.key] == t.bytes)
  }

  ghost predicate GoodTask(s: State, t: Task, digest: Bytes -> string) {
    match t
    case Saving(_, _, _) => GoodSave(s, t, digest)
    case Listing(_, _) => true
    case Dropping(todo, _) => forall row :: row in todo ==> IsRecorded(s.rows, s.gone, row)
    case Deleting(row, todo, _) =>
      row in s.gone && forall row :: row in todo ==> IsRecorded(s.rows, s.gone, row)
  }

  /** Two saves have two names. */
  ghost predicate OneEach(tasks: map<Id, Task>) {
    forall i, j :: i in tasks && j in tasks && i != j && tasks[i].Saving? && tasks[j].Saving? ==>
      NameOf(tasks[i].row) != NameOf(tasks[j].row)
  }

  ghost predicate Inv(s: State, digest: Bytes -> string) {
    && Sound(s.objects, s.rows, digest) && AllNamed(s.rows, s.gone, s.begun) && Apart(s.rows, s.gone)
    && OneEach(s.tasks) && forall i :: i in s.tasks ==> GoodTask(s, s.tasks[i], digest)
  }

  /** Names that differ make keys that differ. */
  lemma KeysDiffer(begun: set<Name>, a: Snapshot, b: Snapshot)
    requires Named(begun, a) && Named(begun, b) && NameOf(a) != NameOf(b)
    ensures a.key != b.key
  {
    if a.key == b.key {
      SnapshotKeysAreDistinct(a.database, a.epoch, a.stamp, b.database, b.epoch, b.stamp);
    }
  }

  /** The key of a save under way is in no row. */
  lemma SaveIsApart(s: State, id: Id, digest: Bytes -> string)
    requires Inv(s, digest) && id in s.tasks && s.tasks[id].Saving?
    ensures Unused(s.rows, s.tasks[id].row.key)
    ensures forall g :: g in s.gone ==> g.key != s.tasks[id].row.key
    ensures forall j :: j in s.tasks && j != id && s.tasks[j].Saving? ==> s.tasks[j].row.key != s.tasks[id].row.key
  {
    var t := s.tasks[id];
    assert GoodTask(s, t, digest);
    forall d, i | d in s.rows && 0 <= i < |s.rows[d]| ensures s.rows[d][i].key != t.row.key {
      var row := s.rows[d][i];
      assert row.database == d && row in RowsOf(s.rows, d);
      assert IsRecorded(s.rows, s.gone, row);
      KeysDiffer(s.begun, row, t.row);
    }
    forall g | g in s.gone ensures g.key != t.row.key {
      assert IsRecorded(s.rows, s.gone, g);
      KeysDiffer(s.begun, g, t.row);
    }
    forall j | j in s.tasks && j != id && s.tasks[j].Saving? ensures s.tasks[j].row.key != t.row.key {
      assert GoodTask(s, s.tasks[j], digest);
      KeysDiffer(s.begun, s.tasks[j].row, t.row);
    }
  }

  /** An object that no row has can change. */
  lemma UnusedObjectChanges(objects: Objects, objects': Objects, rows: Index, digest: Bytes -> string, key: string)
    requires Sound(objects, rows, digest) && Unused(rows, key) && Beside(objects', objects, key)
    ensures Sound(objects', rows, digest)
  {
    forall d, i | d in rows && 0 <= i < |rows[d]| ensures Whole(objects', digest, rows[d][i]) {
      assert Whole(objects, digest, rows[d][i]) && rows[d][i].key != key;
    }
  }

  lemma PutKeepsInv(s: State, id: Id, write: Write, size: nat, digest: Bytes -> string)
    requires Inv(s, digest) && Enabled(s, Put(id, write, size))
    ensures Inv(Apply(s, Put(id, write, size), digest), digest)
  {
    var s', t := Apply(s, Put(id, write, size), digest), s.tasks[id];
    SaveIsApart(s, id, digest);
    UnusedObjectChanges(s.objects, s'.objects, s.rows, digest, t.row.key);
    forall j | j in s'.tasks ensures GoodTask(s', s'.tasks[j], digest) {
      PutKeepsTask(s, id, write, size, j, digest);
    }
  }

  lemma PutKeepsTask(s: State, id: Id, write: Write, size: nat, j: Id, digest: Bytes -> string)
    requires Inv(s, digest) && Enabled(s, Put(id, write, size)) && j in Apply(s, Put(id, write, size), digest).tasks
    ensures var s' := Apply(s, Put(id, write, size), digest); GoodTask(s', s'.tasks[j], digest)
  {
    SaveIsApart(s, id, digest);
    assert GoodTask(s, s.tasks[j], digest);
  }

  /** The object of a row that is gone can go. */
  lemma ObjectGoes(s: State, objects: Objects, row: Snapshot, digest: Bytes -> string)
    requires Inv(s, digest) && row in s.gone && Beside(objects, s.objects, row.key)
    ensures Inv(s.(objects := objects), digest)
  {
    var s' := s.(objects := objects);
    UnusedObjectChanges(s.objects, objects, s.rows, digest, row.key);
    forall j | j in s.tasks ensures GoodTask(s', s.tasks[j], digest) {
      assert GoodTask(s, s.tasks[j], digest);
      if s.tasks[j].Saving? {
        SaveIsApart(s, j, digest);
      }
    }
  }

  /** A task goes on, and nothing else changes. */
  lemma GoKeepsInv(s: State, id: Id, t: Task, digest: Bytes -> string)
    requires Inv(s, digest) && GoodTask(s, t, digest)
    requires t.Saving? ==> id in s.tasks && s.tasks[id].Saving? && NameOf(s.tasks[id].row) == NameOf(t.row)
    ensures Inv(Go(s, id, t), digest)
  {
    forall j | j in Go(s, id, t).tasks ensures GoodTask(Go(s, id, t), Go(s, id, t).tasks[j], digest) {
      if j != id {
        assert GoodTask(s, s.tasks[j], digest);
      } else {
        assert GoodTask(s, t, digest);
      }
    }
  }

  lemma QuitKeepsInv(s: State, id: Id, digest: Bytes -> string)
    requires Inv(s, digest)
    ensures Inv(Quit(s, id), digest)
  {
    forall j | j in Quit(s, id).tasks ensures GoodTask(Quit(s, id), s.tasks[j], digest) {
      assert GoodTask(s, s.tasks[j], digest);
    }
  }

  lemma BeginKeepsInv(s: State, id: Id, name: Name, bytes: Bytes, digest: Bytes -> string)
    requires Inv(s, digest) && Enabled(s, Begin(id, name, bytes))
    ensures Inv(Apply(s, Begin(id, name, bytes), digest), digest)
  {
    var s' := Apply(s, Begin(id, name, bytes), digest);
    forall row | IsRecorded(s.rows, s.gone, row) ensures Named(s'.begun, row) && NameOf(row) != name {
      assert Named(s.begun, row);
    }
    forall j | j in s.tasks ensures GoodTask(s', s.tasks[j], digest) {
      assert GoodTask(s, s.tasks[j], digest);
    }
    assert GoodTask(s', s'.tasks[id], digest);
  }

  lemma HeadKeepsInv(s: State, id: Id, ok: bool, digest: Bytes -> string)
    requires Inv(s, digest) && Enabled(s, Head(id, ok))
    ensures Inv(Apply(s, Head(id, ok), digest), digest)
  {
    var t := s.tasks[id];
    assert GoodTask(s, t, digest);
    if ok && t.row.key in s.objects && |s.objects[t.row.key]| == |t.bytes| {
      assert s.objects[t.row.key] == t.bytes;
      GoKeepsInv(s, id, t.(stage := Inserting), digest);
    } else {
      QuitKeepsInv(s, id, digest);
    }
  }

  /** The row of a save goes on top. */
  lemma InsertedKeepsInv(s: State, id: Id, digest: Bytes -> string)
    requires Inv(s, digest) && IsSaving(s, id, Inserting) && IsNewer(s.rows, s.tasks[id].row)
    ensures Inv(Quit(s, id).(rows := With(s.rows, s.tasks[id].row)), digest)
  {
    var row, s' := s.tasks[id].row, Quit(s, id).(rows := With(s.rows, s.tasks[id].row));
    assert GoodTask(s, s.tasks[id], digest);
    SaveIsApart(s, id, digest);
    RecordIsSound(s.objects, s.rows, digest, row);
    OneMoreRecorded(s.rows, s.gone, row);
    RowOnTop(s.rows, row, s.gone);
    forall j | j in s'.tasks ensures GoodTask(s', s'.tasks[j], digest) {
      assert GoodTask(s, s.tasks[j], digest);
    }
  }

  lemma OneMoreRecorded(rows: Index, gone: set<Snapshot>, row: Snapshot)
    ensures forall r :: IsRecorded(With(rows, row), gone, r) <==> r == row || IsRecorded(rows, gone, r)
  {
  }

  lemma RowOnTop(rows: Index, row: Snapshot, gone: set<Snapshot>)
    requires Apart(rows, gone) && forall g :: g in gone ==> g.key != row.key
    ensures Apart(With(rows, row), gone)
  {
    forall g, d, i | g in gone && d in With(rows, row) && 0 <= i < |With(rows, row)[d]|
      ensures With(rows, row)[d][i].key != g.key
    {
      assert Unused(rows, g.key);
      if d == row.database && i > 0 {
        assert With(rows, row)[d][i] == rows[d][i - 1];
      }
    }
  }

  lemma InsertKeepsInv(s: State, id: Id, write: Write, keep: nat, digest: Bytes -> string)
    requires Inv(s, digest) && Enabled(s, Insert(id, write, keep))
    ensures Inv(Apply(s, Insert(id, write, keep), digest), digest)
  {
    var row := s.tasks[id].row;
    if Applied(s, row, write) {
      InsertedKeepsInv(s, id, digest);
      if write.Answered? {
        var s1 := Quit(s, id).(rows := With(s.rows, row));
        GoKeepsInv(s1, id, Listing(row.database, keep), digest);
        assert Go(s1, id, Listing(row.database, keep)).tasks == s.tasks[id := Listing(row.database, keep)];
      }
    } else {
      QuitKeepsInv(s, id, digest);
    }
  }

  lemma ListKeepsInv(s: State, id: Id, digest: Bytes -> string)
    requires Inv(s, digest) && Enabled(s, List(id))
    ensures Inv(Apply(s, List(id), digest), digest)
  {
    var t := s.tasks[id];
    var todo := Beyond(RowsOf(s.rows, t.database), t.keep);
    forall row | row in todo ensures IsRecorded(s.rows, s.gone, row) {
      var i :| 0 <= i < |RowsOf(s.rows, t.database)| && RowsOf(s.rows, t.database)[i] == row;
      assert s.rows[t.database][i].database == t.database;
    }
    GoKeepsInv(s, id, Dropping(todo, t.keep), digest);
  }

  // A row is forgotten

  lemma {:induction false} WithoutHas(rows: seq<Snapshot>, stamp: nat, row: Snapshot)
    ensures row in Without(rows, stamp) <==> row in rows && row.stamp != stamp
  {
    if rows != [] {
      WithoutHas(rows[1..], stamp, row);
      assert row in rows <==> row == rows[0] || row in rows[1..];
    }
  }

  /** What is without a stamp is the rows around the one that has it. */
  lemma WithoutIsACut(rows: seq<Snapshot>, stamp: nat) returns (k: nat, m: nat)
    requires Descending(rows)
    ensures k <= m <= |rows| && Without(rows, stamp) == rows[..k] + rows[m..]
    ensures m <= k + 1 && (m == k + 1 ==> rows[k].stamp == stamp)
  {
    if i :| 0 <= i < |rows| && rows[i].stamp == stamp {
      k, m := i, i + 1;
      assert rows == rows[..i] + [rows[i]] + rows[i + 1..];
      WithoutOne(rows[..i], rows[i], rows[i + 1..]);
    } else {
      k, m := 0, 0;
      WithoutAbsent(rows, stamp);
      assert rows == rows[..0] + rows[0..];
    }
  }

  lemma ForgottenIsSound(objects: Objects, rows: Index, digest: Bytes -> string, row: Snapshot)
    requires Sound(objects, rows, digest)
    ensures Sound(objects, WithoutRow(rows, row), digest)
  {
    if row.database in rows {
      var k, m := WithoutIsACut(rows[row.database], row.stamp);
      CutIsSound(objects, rows, digest, row.database, k, m);
    }
  }

  lemma StillRecorded(rows: Index, gone: set<Snapshot>, row: Snapshot, r: Snapshot)
    requires r in RowsOf(rows, row.database) ==> r.database == row.database
    ensures IsRecorded(WithoutRow(rows, row), gone + Going(rows, row), r) <==>
            IsRecorded(rows, gone, r) || r in Going(rows, row)
    ensures r in RowsOf(WithoutRow(rows, row), r.database) ==> r in RowsOf(rows, r.database) && r !in Going(rows, row)
  {
    if row.database in rows {
      WithoutHas(rows[row.database], row.stamp, r);
    }
  }

  /** A row that stays does not share its key with one that goes. */
  lemma StaysApart(s: State, row: Snapshot, g: Snapshot, d: string, i: nat, digest: Bytes -> string)
    requires Inv(s, digest) && g in s.gone + Going(s.rows, row)
    requires d in WithoutRow(s.rows, row) && i < |WithoutRow(s.rows, row)[d]|
    ensures WithoutRow(s.rows, row)[d][i].key != g.key
  {
    var r := WithoutRow(s.rows, row)[d][i];
    ForgottenIsSound(s.objects, s.rows, digest, row);
    assert r.database == d;
    InItsDatabase(s, row.database, r, digest);
    StillRecorded(s.rows, s.gone, row, r);
    var j :| 0 <= j < |s.rows[d]| && s.rows[d][j] == r;
    if g in s.gone {
      assert Unused(s.rows, g.key);
    } else {
      var k :| 0 <= k < |RowsOf(s.rows, row.database)| && RowsOf(s.rows, row.database)[k] == g;
      assert g.database == row.database;
      if r.key == g.key {
        RowsShareNoKey(s.objects, s.rows, digest, d, j, row.database, k);
      }
    }
  }

  lemma ForgottenKeepsInv(s: State, row: Snapshot, digest: Bytes -> string)
    requires Inv(s, digest)
    ensures Inv(s.(rows := WithoutRow(s.rows, row), gone := s.gone + Going(s.rows, row)), digest)
  {
    var s' := s.(rows := WithoutRow(s.rows, row), gone := s.gone + Going(s.rows, row));
    ForgottenIsSound(s.objects, s.rows, digest, row);
    forall r ensures IsRecorded(s'.rows, s'.gone, r) <==> IsRecorded(s.rows, s.gone, r) {
      InItsDatabase(s, row.database, r, digest);
      StillRecorded(s.rows, s.gone, row, r);
    }
    forall g, d, i | g in s'.gone && d in s'.rows && 0 <= i < |s'.rows[d]| ensures s'.rows[d][i].key != g.key {
      StaysApart(s, row, g, d, i, digest);
    }
    forall j | j in s.tasks ensures GoodTask(s', s.tasks[j], digest) {
      assert GoodTask(s, s.tasks[j], digest);
    }
  }

  lemma InItsDatabase(s: State, d: string, r: Snapshot, digest: Bytes -> string)
    requires Inv(s, digest)
    ensures r in RowsOf(s.rows, d) ==> r.database == d
  {
    if r in RowsOf(s.rows, d) {
      var i :| 0 <= i < |RowsOf(s.rows, d)| && RowsOf(s.rows, d)[i] == r;
      assert s.rows[d][i].database == d;
    }
  }

  lemma ForgetKeepsInv(s: State, id: Id, row: Snapshot, write: Write, digest: Bytes -> string)
    requires Inv(s, digest) && Enabled(s, Forget(id, row, write))
    ensures Inv(Apply(s, Forget(id, row, write), digest), digest)
  {
    var t := s.tasks[id];
    assert GoodTask(s, t, digest) && IsRecorded(s.rows, s.gone, row);
    var s1 := s;
    if !write.NotApplied? {
      s1 := s.(rows := WithoutRow(s.rows, row), gone := s.gone + Going(s.rows, row));
      ForgottenKeepsInv(s, row, digest);
    }
    if write.Answered? {
      assert GoodTask(s1, s1.tasks[id], digest);
      GoKeepsInv(s1, id, Deleting(row, t.todo - {row}, t.keep), digest);
    } else {
      QuitKeepsInv(s1, id, digest);
    }
  }

  lemma DeleteKeepsInv(s: State, id: Id, write: Write, digest: Bytes -> string)
    requires Inv(s, digest) && Enabled(s, Delete(id, write))
    ensures Inv(Apply(s, Delete(id, write), digest), digest)
  {
    var t := s.tasks[id];
    assert GoodTask(s, t, digest);
    var s1 := if write.NotApplied? then s else s.(objects := s.objects - {t.row.key});
    ObjectGoes(s, s1.objects, t.row, digest);
    if write.Answered? {
      assert GoodTask(s1, t, digest);
      GoKeepsInv(s1, id, Dropping(t.todo, t.keep), digest);
    } else {
      QuitKeepsInv(s1, id, digest);
    }
  }

  lemma StepKeepsInv(s: State, step: Step, digest: Bytes -> string)
    requires Inv(s, digest) && Enabled(s, step)
    ensures Inv(Apply(s, step, digest), digest)
  {
    match step
    case Start =>
      forall j | j in s.tasks ensures GoodTask(s.(latest := s.latest + 1), s.tasks[j], digest) {
        assert GoodTask(s, s.tasks[j], digest);
      }
    case Begin(id, name, bytes) => BeginKeepsInv(s, id, name, bytes, digest);
    case Put(id, write, size) => PutKeepsInv(s, id, write, size, digest);
    case Head(id, ok) => HeadKeepsInv(s, id, ok, digest);
    case Insert(id, write, keep) => InsertKeepsInv(s, id, write, keep, digest);
    case Remove(id, database) => GoKeepsInv(s, id, Listing(database, 0), digest);
    case List(id) => ListKeepsInv(s, id, digest);
    case Forget(id, row, write) => ForgetKeepsInv(s, id, row, write, digest);
    case Delete(id, write) => DeleteKeepsInv(s, id, write, digest);
    case Purge(row) => ObjectGoes(s, s.objects - {row.key}, row, digest);
    case Cancel(id) => QuitKeepsInv(s, id, digest);
  }

  lemma {:induction false} RunKeepsInv(states: seq<State>, steps: seq<Step>, digest: Bytes -> string, i: nat)
    requires Run(states, steps, digest) && i < |states|
    ensures Inv(states[i], digest)
  {
    if i > 0 {
      RunKeepsInv(states, steps, digest, i - 1);
      StepKeepsInv(states[i - 1], steps[i - 1], digest);
    }
  }

  /** In every state, whatever saves, cleanups, removals and purges of whichever
      runners are under way, every row of the index has its object, whole, and
      shares it with no other row; a row that is gone shares it with none. */
  lemma EveryRowHasItsObject(states: seq<State>, steps: seq<Step>, digest: Bytes -> string, i: nat, d: string, k: nat)
    requires Run(states, steps, digest) && i < |states| && d in states[i].rows && k < |states[i].rows[d]|
    ensures var s := states[i];
      var row := s.rows[d][k];
      && row.database == d && row.key in s.objects
      && digest(s.objects[row.key]) == row.checksum && |s.objects[row.key]| == row.size
      && (forall e, j :: e in s.rows && 0 <= j < |s.rows[e]| && s.rows[e][j].key == row.key ==> e == d && j == k)
      && (forall g :: g in s.gone ==> g.key != row.key)
      && (k > 0 ==> row.stamp < s.rows[d][k - 1].stamp)
  {
    RunKeepsInv(states, steps, digest, i);
    var s := states[i];
    assert Whole(s.objects, digest, s.rows[d][k]);
    forall e, j | e in s.rows && 0 <= j < |s.rows[e]| && s.rows[e][j].key == s.rows[d][k].key ensures e == d && j == k {
      RowsShareNoKey(s.objects, s.rows, digest, e, j, d, k);
    }
    forall g | g in s.gone ensures g.key != s.rows[d][k].key {
      assert Unused(s.rows, g.key);
    }
  }

  /** A step changes no object that a row has. */
  lemma ChangedObject(s: State, step: Step, digest: Bytes -> string) returns (key: Option<string>)
    requires Inv(s, digest) && Enabled(s, step)
    ensures key.None? ==> Apply(s, step, digest).objects == s.objects
    ensures key.Some? ==> Unused(s.rows, key.value) && Beside(Apply(s, step, digest).objects, s.objects, key.value)
  {
    key := None;
    if step.Put? {
      SaveIsApart(s, step.id, digest);
      key := Some(s.tasks[step.id].row.key);
    } else if step.Delete? {
      assert GoodTask(s, s.tasks[step.id], digest);
      key := Some(s.tasks[step.id].row.key);
      assert Unused(s.rows, key.value);
    } else if step.Purge? {
      key := Some(step.row.key);
      assert Unused(s.rows, key.value);
    }
  }

  /** A step that changes the rows of `d`: the insert of one, or a forget. */
  predicate Touches(s: State, step: Step, d: string) {
    || (step.Insert? && IsSaving(s, step.id, Inserting) && s.tasks[step.id].row.database == d
        && Applied(s, s.tasks[step.id].row, step.write))
    || (step.Forget? && step.row.database == d && !step.write.NotApplied?)
  }

  lemma RowsStay(s: State, step: Step, d: string, digest: Bytes -> string)
    requires Enabled(s, step) && !Touches(s, step, d)
    ensures RowsOf(Apply(s, step, digest).rows, d) == RowsOf(s.rows, d)
  {
  }

  // ---- The newest row ----

  /** What a cleanup of `d` has to drop is older than the newest row of `d`. */
  ghost predicate Spares(s: State, d: string) {
    forall i, row :: HasTodo(s, i, row) && row.database == d ==>
      RowsOf(s.rows, d) != [] && row.stamp < RowsOf(s.rows, d)[0].stamp
  }

  /** A cleanup of a database spares its newest row; a removal does not. */
  ghost predicate Cleanups(s: State, d: string) {
    forall i :: i in s.tasks && s.tasks[i].Listing? && s.tasks[i].database == d ==> s.tasks[i].keep >= 1
  }

  lemma {:induction false} WithoutKeepsTop(rows: seq<Snapshot>, stamp: nat)
    requires rows != [] && rows[0].stamp != stamp
    ensures Without(rows, stamp) != [] && Without(rows, stamp)[0] == rows[0]
  {
  }

  lemma ListSpares(s: State, id: Id, d: string, row: Snapshot, digest: Bytes -> string)
    requires Inv(s, digest) && Cleanups(s, d) && Enabled(s, List(id)) && row.database == d
    requires row in Beyond(RowsOf(s.rows, s.tasks[id].database), s.tasks[id].keep)
    ensures RowsOf(s.rows, d) != [] && row.stamp < RowsOf(s.rows, d)[0].stamp
  {
    var t := s.tasks[id];
    var rows := RowsOf(s.rows, t.database);
    var i :| t.keep <= i < |rows| && rows[i] == row;
    InItsDatabase(s, t.database, row, digest);
    assert Descending(rows);
  }

  predicate HasTodo(s: State, i: Id, row: Snapshot) {
    i in s.tasks && (s.tasks[i].Dropping? || s.tasks[i].Deleting?) && row in s.tasks[i].todo
  }

  /** What a task has to drop it had to drop before, unless it has just listed it. */
  lemma TodoWasTodo(s: State, step: Step, i: Id, row: Snapshot, digest: Bytes -> string)
    requires Enabled(s, step) && HasTodo(Apply(s, step, digest), i, row) && step != List(i)
    ensures HasTodo(s, i, row)
  {
  }

  lemma StepCleans(s: State, step: Step, d: string, digest: Bytes -> string)
    requires Cleanups(s, d) && Enabled(s, step) && (step.Remove? ==> step.database != d)
    ensures Cleanups(Apply(s, step, digest), d)
  {
  }

  lemma StepSpares(s: State, step: Step, d: string, digest: Bytes -> string)
    requires Inv(s, digest) && Spares(s, d) && Cleanups(s, d) && Enabled(s, step)
    ensures Spares(Apply(s, step, digest), d)
  {
    var s' := Apply(s, step, digest);
    forall i, row | HasTodo(s', i, row) && row.database == d
      ensures RowsOf(s'.rows, d) != [] && row.stamp < RowsOf(s'.rows, d)[0].stamp
    {
      if step == List(i) {
        ListSpares(s, i, d, row, digest);
      } else {
        TodoWasTodo(s, step, i, row, digest);
        TopStays(s, step, d, digest);
      }
    }
  }

  /** The newest row of `d` stays, or a newer one comes. */
  lemma TopStays(s: State, step: Step, d: string, digest: Bytes -> string)
    requires Spares(s, d) && Enabled(s, step) && RowsOf(s.rows, d) != []
    ensures var s' := Apply(s, step, digest);
      RowsOf(s'.rows, d) != [] && RowsOf(s.rows, d)[0].stamp <= RowsOf(s'.rows, d)[0].stamp
    ensures step.Forget? ==> RowsOf(Apply(s, step, digest).rows, d)[0] == RowsOf(s.rows, d)[0]
  {
    if step.Forget? && step.row.database == d {
      assert HasTodo(s, step.id, step.row);
      WithoutKeepsTop(s.rows[d], step.row.stamp);
    }
  }

  lemma {:induction false} RunSpares(states: seq<State>, steps: seq<Step>, digest: Bytes -> string, i: nat, d: string)
    requires Run(states, steps, digest) && i < |states|
    requires forall k :: 0 <= k < i && steps[k].Remove? ==> steps[k].database != d
    ensures Spares(states[i], d) && Cleanups(states[i], d)
  {
    if i > 0 {
      RunSpares(states, steps, digest, i - 1, d);
      RunKeepsInv(states, steps, digest, i - 1);
      StepSpares(states[i - 1], steps[i - 1], d, digest);
      StepCleans(states[i - 1], steps[i - 1], d, digest);
    }
  }

  /** As long as nobody removes the database, its newest row is never forgotten,
      however many saves and cleanups of however many runners overlap: it stays,
      or a newer one comes on top. */
  lemma NewestRowStays(states: seq<State>, steps: seq<Step>, digest: Bytes -> string, i: nat, d: string)
    requires Run(states, steps, digest) && i < |steps| && RowsOf(states[i].rows, d) != []
    requires forall k :: 0 <= k < i && steps[k].Remove? ==> steps[k].database != d
    ensures RowsOf(states[i + 1].rows, d) != []
    ensures RowsOf(states[i].rows, d)[0].stamp <= RowsOf(states[i + 1].rows, d)[0].stamp
    ensures steps[i].Forget? ==> RowsOf(states[i + 1].rows, d)[0] == RowsOf(states[i].rows, d)[0]
  {
    RunSpares(states, steps, digest, i, d);
    TopStays(states[i], steps[i], d, digest);
  }

  // ---- Saves and cleanups get through ----

  /** A save goes on to its insert if and only if the size is answered and the
      store has its bytes, whole. */
  lemma HeadPassesExactly(states: seq<State>, steps: seq<Step>, digest: Bytes -> string, i: nat)
    requires Run(states, steps, digest) && i < |steps| && steps[i].Head?
    ensures var s, s', id := states[i], states[i + 1], steps[i].id;
      var t := s.tasks[id];
      && (id in s'.tasks <==> steps[i].ok && t.row.key in s.objects && s.objects[t.row.key] == t.bytes)
      && (id in s'.tasks ==> s'.tasks[id] == t.(stage := Inserting))
  {
    RunKeepsInv(states, steps, digest, i);
    assert GoodTask(states[i], states[i].tasks[steps[i].id], digest);
  }

  /** Its row comes on top if and only if the insert is applied and its runner
      started last; then it cleans up, if it was answered. */
  lemma InsertsExactly(states: seq<State>, steps: seq<Step>, digest: Bytes -> string, i: nat)
    requires Run(states, steps, digest) && i < |steps| && steps[i].Insert?
    ensures var s, s', id := states[i], states[i + 1], steps[i].id;
      var row := s.tasks[id].row;
      var inserts := row.epoch == s.latest && !steps[i].write.NotApplied?;
      && (inserts ==> RowsOf(s'.rows, row.database) == [row] + RowsOf(s.rows, row.database))
      && (!inserts ==> s'.rows == s.rows)
      && (id in s'.tasks <==> inserts && steps[i].write.Answered?)
      && (forall d :: d != row.database ==> RowsOf(s'.rows, d) == RowsOf(s.rows, d))
  {
  }

  /** The cleanup `id` is under way all the time. */
  ghost predicate Cleans(states: seq<State>, i: nat, j: nat, id: Id)
    requires j < |states|
  {
    forall k :: i < k <= j ==> id in states[k].tasks && (states[k].tasks[id].Dropping? || states[k].tasks[id].Deleting?)
  }

  /** What the cleanup has to drop, or is gone, and its object with it, unless the
      cleanup is about to delete that. */
  predicate IsDealtWith(s: State, id: Id, row: Snapshot)
    requires id in s.tasks && (s.tasks[id].Dropping? || s.tasks[id].Deleting?)
  {
    var t := s.tasks[id];
    row in t.todo || (row in s.gone && (row.key !in s.objects || (t.Deleting? && t.row == row)))
  }

  /** Nobody uploads an object under the key of a row that is gone. */
  lemma GoneStaysGone(s: State, step: Step, digest: Bytes -> string, row: Snapshot)
    requires Inv(s, digest) && Enabled(s, step) && row in s.gone && row.key !in s.objects
    ensures row.key !in Apply(s, step, digest).objects
  {
    if step.Put? {
      assert IsRecorded(s.rows, s.gone, row) && GoodTask(s, s.tasks[step.id], digest);
      KeysDiffer(s.begun, row, s.tasks[step.id].row);
    }
  }

  lemma StepDealsWith(s: State, step: Step, digest: Bytes -> string, id: Id, row: Snapshot)
    requires Inv(s, digest)
    requires Enabled(s, step) && id in s.tasks && (s.tasks[id].Dropping? || s.tasks[id].Deleting?)
    requires IsDealtWith(s, id, row) && IsRecorded(s.rows, s.gone, row)
    requires var s' := Apply(s, step, digest); id in s'.tasks && (s'.tasks[id].Dropping? || s'.tasks[id].Deleting?)
    ensures IsDealtWith(Apply(s, step, digest), id, row)
  {
    if row in s.tasks[id].todo {
      TodoGoes(s, step, digest, id, row);
    } else if row.key !in s.objects {
      GoneStaysGone(s, step, digest, row);
    } else {
      DeletesItsOwn(s, step, digest, id);
    }
  }

  /** A cleanup that is about to delete an object is so until it did. */
  lemma DeletesItsOwn(s: State, step: Step, digest: Bytes -> string, id: Id)
    requires Enabled(s, step) && id in s.tasks && s.tasks[id].Deleting? && s.tasks[id].row in s.gone
    requires id in Apply(s, step, digest).tasks
    ensures var s', row := Apply(s, step, digest), s.tasks[id].row;
      row in s'.gone && (s'.tasks[id] == s.tasks[id] || row.key !in s'.objects)
  {
  }

  lemma TodoGoes(s: State, step: Step, digest: Bytes -> string, id: Id, row: Snapshot)
    requires Enabled(s, step) && id in s.tasks && (s.tasks[id].Dropping? || s.tasks[id].Deleting?)
    requires row in s.tasks[id].todo && IsRecorded(s.rows, s.gone, row)
    requires var s' := Apply(s, step, digest); id in s'.tasks && (s'.tasks[id].Dropping? || s'.tasks[id].Deleting?)
    ensures IsDealtWith(Apply(s, step, digest), id, row)
  {
  }

  lemma {:induction false} ListedGoes(states: seq<State>, steps: seq<Step>, digest: Bytes -> string,
                                      i: nat, j: nat, id: Id, row: Snapshot)
    requires Run(states, steps, digest) && i < j < |states| && steps[i] == List(id) && Cleans(states, i, j, id)
    requires states[i].tasks[id].Listing?
    requires row in Beyond(RowsOf(states[i].rows, states[i].tasks[id].database), states[i].tasks[id].keep)
    ensures IsDealtWith(states[j], id, row)
    decreases j
  {
    var k := j - 1;
    assert states[k + 1] == Apply(states[k], steps[k], digest);
    if i < k {
      ListedGoes(states, steps, digest, i, k, id, row);
      RunKeepsInv(states, steps, digest, k);
      assert GoodTask(states[k], states[k].tasks[id], digest);
      StepDealsWith(states[k], steps[k], digest, id, row);
    }
  }

  /** When a cleanup has nothing left to drop, the rows that were beyond the
      newest `keep` when it listed them are all gone, and after its last delete
      their objects too. */
  lemma CleanupIsComplete(states: seq<State>, steps: seq<Step>, digest: Bytes -> string,
                          i: nat, j: nat, id: Id, n: nat)
    requires Run(states, steps, digest) && i < j < |states| && steps[i] == List(id) && Cleans(states, i, j, id)
    requires states[i].tasks[id].Listing?
    requires var rows := RowsOf(states[i].rows, states[i].tasks[id].database); states[i].tasks[id].keep <= n < |rows|
    requires states[j].tasks[id].todo == {}
    ensures var d := states[i].tasks[id].database;
      && RowsOf(states[i].rows, d)[n] !in RowsOf(states[j].rows, d)
      && (states[j].tasks[id].Dropping? ==> RowsOf(states[i].rows, d)[n].key !in states[j].objects)
  {
    var d, keep := states[i].tasks[id].database, states[i].tasks[id].keep;
    var rows := RowsOf(states[i].rows, d);
    assert rows[keep..][n - keep] == rows[n] && rows[n] in rows[keep..];
    ListedGoes(states, steps, digest, i, j, id, rows[n]);
    RunKeepsInv(states, steps, digest, j);
    assert Unused(states[j].rows, rows[n].key);
  }

  /** The removal `id` has not listed the rows yet. */
  ghost predicate WaitsToList(states: seq<State>, h: nat, i: nat, id: Id)
    requires i < |states|
  {
    forall k :: h < k <= i ==> id in states[k].tasks && states[k].tasks[id].Listing?
  }

  lemma {:induction false} ListingStays(states: seq<State>, steps: seq<Step>, digest: Bytes -> string,
                                        h: nat, i: nat, id: Id)
    requires Run(states, steps, digest) && h < i < |states| && WaitsToList(states, h, i, id)
    ensures states[i].tasks[id] == states[h + 1].tasks[id]
    decreases i
  {
    if h + 1 < i {
      var k := i - 1;
      ListingStays(states, steps, digest, h, k, id);
      assert states[k + 1] == Apply(states[k], steps[k], digest) && states[k].tasks[id].Listing?;
    }
  }

  /** A removal that has nothing left to drop took every row it listed, with its
      object. */
  lemma RemovalTakesAll(states: seq<State>, steps: seq<Step>, digest: Bytes -> string,
                        h: nat, i: nat, j: nat, id: Id, d: string, n: nat)
    requires Run(states, steps, digest) && h < i < j < |states| && steps[h] == Remove(id, d) && steps[i] == List(id)
    requires WaitsToList(states, h, i, id) && Cleans(states, i, j, id) && n < |RowsOf(states[i].rows, d)|
    requires states[j].tasks[id].Dropping? && states[j].tasks[id].todo == {}
    ensures RowsOf(states[i].rows, d)[n] !in RowsOf(states[j].rows, d)
    ensures RowsOf(states[i].rows, d)[n].key !in states[j].objects
  {
    ListingStays(states, steps, digest, h, i, id);
    CleanupIsComplete(states, steps, digest, i, j, id, n);
  }

  /** A cleanup or a removal goes on to the next row if and only if its request was
      answered, and drops one row at a time. */
  lemma GoesOnExactly(states: seq<State>, steps: seq<Step>, digest: Bytes -> string, i: nat)
    requires Run(states, steps, digest) && i < |steps| && (steps[i].Forget? || steps[i].Delete?)
    ensures var t, id, s' := states[i].tasks[steps[i].id], steps[i].id, states[i + 1];
      && (id in s'.tasks <==> steps[i].write.Answered?)
      && (id in s'.tasks && steps[i].Forget? ==>
            s'.tasks[id] == Deleting(steps[i].row, t.todo - {steps[i].row}, t.keep))
      && (id in s'.tasks && steps[i].Delete? ==> s'.tasks[id] == Dropping(t.todo, t.keep))
  {
  }

  /** A step that deletes the object `key`. */
  predicate Deletes(s: State, step: Step, key: string)
    requires Enabled(s, step)
  {
    match step
    case Delete(id, write) => !write.NotApplied? && s.tasks[id].row.key == key
    case Purge(row) => row.key == key
    case _ => false
  }

  lemma GoesByDelete(s: State, step: Step, digest: Bytes -> string, key: string)
    requires Enabled(s, step) && key in s.objects
    ensures key !in Apply(s, step, digest).objects <==> Deletes(s, step, key)
  {
  }

  /** An object leaves the store if and only if a delete of its row is applied, by
      the cleanup that forgot the row or by a purge of the rows that are gone. */
  lemma ObjectsGoExactly(states: seq<State>, steps: seq<Step>, digest: Bytes -> string, i: nat, key: string)
    requires Run(states, steps, digest) && i < |steps| && key in states[i].objects
    ensures key !in states[i + 1].objects <==> Deletes(states[i], steps[i], key)
  {
    assert states[i + 1] == Apply(states[i], steps[i], digest);
    GoesByDelete(states[i], steps[i], digest, key);
  }
}
