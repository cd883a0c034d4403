/** The keys of databases and of their snapshots. A D1 database is named by a
    UUID, an object by `objects/<namespace UUID>/<64 hex digits>`. */
module D1Keys {
  import opened Wrappers

  const OBJECTS := "objects"

  predicate IsHex(c: char) { '0' <= c <= '9' || 'a' <= c <= 'f' }

  predicate IsObjectId(s: string) { |s| == 64 && forall i :: 0 <= i < |s| ==> IsHex(s[i]) }

  /** The canonical text of a UUID: 8-4-4-4-12 lowercase hex digits. */
  predicate IsUuid(s: string) {
    |s| == 36 && forall i :: 0 <= i < 36 ==> if i in {8, 13, 18, 23} then s[i] == '-' else IsHex(s[i])
  }

  /** The key of the storage of an object. `namespace` is the UUID that the
      namespace names, in its canonical text, if it names one. */
  function ObjectKey(namespace: Option<string>, id: string): Option<string> {
    if namespace.Some? && IsObjectId(id) then Some(OBJECTS + "/" + namespace.value + "/" + id) else None
  }

  function StripPrefix(s: string, prefix: string): Option<string> {
    if prefix <= s then Some(s[|prefix|..]) else None
  }

  /** What is before and after the first `/`. */
  function SplitOnce(s: string): Option<(string, string)> {
    if s == [] then None
    else if s[0] == '/' then Some(([], s[1..]))
    else match SplitOnce(s[1..])
         case None => None
         case Some((a, b)) => Some(([s[0]] + a, b))
  }

  /** The two parts of the key of an object; another key has none. */
  function ParseObjectKey(key: string): Option<(string, string)> {
    match StripPrefix(key, OBJECTS)
    case None => None
    case Some(rest) =>
      match StripPrefix(rest, "/")
      case None => None
      case Some(rest) => SplitOnce(rest)
  }

  lemma {:induction false} SplitFirst(a: string, b: string)
    requires '/' !in a
    ensures SplitOnce(a + "/" + b) == Some((a, b))
  {
    if a == [] {
      assert a + "/" + b == ['/'] + b;
    } else {
      SplitFirst(a[1..], b);
      assert (a + "/" + b)[1..] == a[1..] + "/" + b;
      assert [a[0]] + a[1..] == a;
    }
  }

  /** `parse_object_key` undoes `object_key`. */
  lemma ParseUndoesObjectKey(namespace: string, id: string)
    requires '/' !in namespace && IsObjectId(id)
    ensures ObjectKey(Some(namespace), id).Some?
    ensures ParseObjectKey(ObjectKey(Some(namespace), id).value) == Some((namespace, id))
  {
    var key := ObjectKey(Some(namespace), id).value;
    var rest := namespace + "/" + id;
    assert key == OBJECTS + ("/" + rest);
    assert key[|OBJECTS|..] == "/" + rest;
    assert ("/" + rest)[1..] == rest;
    SplitFirst(namespace, id);
  }

  /** A D1 database is never taken for an object. */
  lemma UuidIsNoObject(database: string)
    requires IsUuid(database)
    ensures ParseObjectKey(database).None?
  {
    assert database[0] != 'o';
  }

  // ---- The keys of snapshots ----

  function Decimal(n: nat): string {
    if n < 10 then [Digit(n)] else Decimal(n / 10) + [Digit(n % 10)]
  }

  function Digit(n: nat): char
    requires n < 10
  {
    "0123456789"[n]
  }

  const SUFFIX := ".sqlite.zst"

  /** Where the snapshots of a database are, inside the bucket. */
  function Folder(database: string): string {
    match ParseObjectKey(database)
    case Some((namespace, id)) => "do/" + namespace + "/" + id
    case None => "d1/" + database
  }

  function SnapshotKey(database: string, epoch: nat, stamp: nat): string {
    Folder(database) + "/" + Decimal(epoch) + "/" + Decimal(stamp) + SUFFIX
  }

  /** A database the runner serves. */
  ghost predicate IsDatabase(database: string) {
    || IsUuid(database)
    || exists namespace, id :: IsUuid(namespace) && ObjectKey(Some(namespace), id) == Some(database)
  }

  lemma {:induction false} DecimalHasNoSlash(n: nat)
    ensures '/' !in Decimal(n) && |Decimal(n)| > 0 && (n >= 10 ==> |Decimal(n)| > 1)
  {
    if n >= 10 {
      DecimalHasNoSlash(n / 10);
    }
  }

  lemma {:induction false} DecimalIsInjective(m: nat, n: nat)
    requires Decimal(m) == Decimal(n)
    ensures m == n
  {
    DecimalHasNoSlash(m);
    DecimalHasNoSlash(n);
    var d := Decimal(m);
    if m >= 10 && n >= 10 {
      assert d[..|d| - 1] == Decimal(m / 10) && d[..|d| - 1] == Decimal(n / 10);
      DecimalIsInjective(m / 10, n / 10);
      assert d[|d| - 1] == Digit(m % 10) == Digit(n % 10);
    } else if m < 10 && n < 10 {
      assert d[0] == Digit(m) == Digit(n);
    }
  }

  /** Two texts that split at their first `/` in the same way. */
  lemma SamePieces(a: string, b: string, c: string, d: string)
    requires '/' !in a && '/' !in c && a + "/" + b == c + "/" + d
    ensures a == c && b == d
  {
    SplitFirst(a, b);
    SplitFirst(c, d);
  }

  lemma Regroup(a: string, s: string, b: string, c: string)
    ensures a + s + b + c == a + s + (b + c)
  {
  }

  lemma SameStem(a: string, b: string, end: string)
    requires a + end == b + end
    ensures a == b
  {
    assert (a + end)[..|a + end| - |end|] == a && (b + end)[..|b + end| - |end|] == b;
  }

  /** The end of the key of a snapshot, after its folder. */
  function Stamp(epoch: nat, stamp: nat): string {
    Decimal(epoch) + "/" + (Decimal(stamp) + SUFFIX)
  }

  /** Two snapshots of one folder with the same key are the same. */
  lemma SameStamp(epoch: nat, stamp: nat, epoch': nat, stamp': nat)
    requires Stamp(epoch, stamp) == Stamp(epoch', stamp')
    ensures epoch == epoch' && stamp == stamp'
  {
    DecimalHasNoSlash(epoch);
    DecimalHasNoSlash(epoch');
    SamePieces(Decimal(epoch), Decimal(stamp) + SUFFIX, Decimal(epoch'), Decimal(stamp') + SUFFIX);
    SameStem(Decimal(stamp), Decimal(stamp'), SUFFIX);
    DecimalIsInjective(epoch, epoch');
    DecimalIsInjective(stamp, stamp');
  }

  /** The key is the folder and the stamp. */
  lemma KeyParts(database: string, epoch: nat, stamp: nat)
    ensures SnapshotKey(database, epoch, stamp) == Folder(database) + "/" + Stamp(epoch, stamp)
  {
    Regroup(Folder(database) + "/" + Decimal(epoch), "/", Decimal(stamp), SUFFIX);
    Regroup(Folder(database), "/", Decimal(epoch), "/");
    Regroup(Folder(database), "/", Decimal(epoch) + "/", Decimal(stamp) + SUFFIX);
  }

  lemma UuidHasNoSlash(s: string)
    requires IsUuid(s)
    ensures '/' !in s
  {
  }

  lemma Nest(kind: string, a: string, b: string, tail: string)
    ensures kind + "/" + a + "/" + tail == kind + "/" + (a + "/" + tail)
    ensures kind + "/" + a + "/" + b + "/" + tail == kind + "/" + (a + "/" + (b + "/" + tail))
  {
    Regroup(kind, "/", a, "/" + tail);
    Regroup(kind, "/", a, "/" + (b + "/" + tail));
  }

  /** The key of a snapshot, piece by piece. */
  lemma Pieces(database: string, epoch: nat, stamp: nat)
    returns (kind: string, rest: string, namespace: string, id: string)
    requires IsDatabase(database)
    ensures SnapshotKey(database, epoch, stamp) == kind + "/" + rest
    ensures kind == "d1" || kind == "do"
    ensures kind == "d1" ==> '/' !in database && rest == database + "/" + Stamp(epoch, stamp)
    ensures kind == "do" ==>
      '/' !in namespace && '/' !in id && database == OBJECTS + "/" + namespace + "/" + id
      && rest == namespace + "/" + (id + "/" + Stamp(epoch, stamp))
  {
    var tail := Stamp(epoch, stamp);
    KeyParts(database, epoch, stamp);
    if IsUuid(database) {
      UuidIsNoObject(database);
      UuidHasNoSlash(database);
      kind, rest, namespace, id := "d1", database + "/" + tail, [], [];
      assert Folder(database) == kind + "/" + database;
      Nest(kind, database, [], tail);
    } else {
      namespace, id :| IsUuid(namespace) && ObjectKey(Some(namespace), id) == Some(database);
      UuidHasNoSlash(namespace);
      ParseUndoesObjectKey(namespace, id);
      kind, rest := "do", namespace + "/" + (id + "/" + tail);
      assert Folder(database) == kind + "/" + namespace + "/" + id;
      Nest(kind, namespace, id, tail);
    }
  }

  /** No two snapshots share a key, be they of one database or of two, of a D1
      database or of an object. */
  lemma SnapshotKeysAreDistinct(a: string, epoch: nat, stamp: nat, b: string, epoch': nat, stamp': nat)
    requires IsDatabase(a) && IsDatabase(b)
    requires SnapshotKey(a, epoch, stamp) == SnapshotKey(b, epoch', stamp')
    ensures a == b && epoch == epoch' && stamp == stamp'
  {
    var kind, rest, n, id := Pieces(a, epoch, stamp);
    var kind', rest', n', id' := Pieces(b, epoch', stamp');
    var tail, tail' := Stamp(epoch, stamp), Stamp(epoch', stamp');
    SamePieces(kind, rest, kind', rest');
    if kind == "d1" {
      SamePieces(a, tail, b, tail');
    } else {
      SamePieces(n, id + "/" + tail, n', id' + "/" + tail');
      SamePieces(id, tail, id', tail');
    }
    SameStamp(epoch, stamp, epoch', stamp');
  }
}
