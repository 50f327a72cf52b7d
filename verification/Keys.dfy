/** The local key provider: a directory of signing keys that only grows, listed newest first. */
module Keys {
  import opened Basics

  /** createdAt is in milliseconds; ISO 8601 strings compare as the times they spell. key names the Ed25519 pair. */
  datatype KeyFile = KeyFile(kid: nat, createdAt: int, key: nat)

  /** What readdir lists: signing-<kid>.json files and others, such as master.key. */
  datatype DirEntry = Signing(file: KeyFile) | Other(name: string)

  function SigningFiles(dir: seq<DirEntry>): seq<KeyFile> {
    if dir == [] then []
    else (if dir[0].Signing? then [dir[0].file] else []) + SigningFiles(dir[1..])
  }

  /** The comparator: newer first, then the greater kid. */
  predicate Newer(a: KeyFile, b: KeyFile) {
    a.createdAt > b.createdAt || (a.createdAt == b.createdAt && a.kid > b.kid)
  }

  predicate NewestFirst(files: seq<KeyFile>) {
    forall i, j :: 0 <= i < j < |files| ==> !Newer(files[j], files[i])
  }

  function Insert(f: KeyFile, files: seq<KeyFile>): seq<KeyFile> {
    if files == [] || !Newer(files[0], f) then [f] + files else [files[0]] + Insert(f, files[1..])
  }

  function Sorted(files: seq<KeyFile>): seq<KeyFile> {
    if files == [] then [] else Insert(files[0], Sorted(files[1..]))
  }

  lemma {:induction false} InsertContents(f: KeyFile, files: seq<KeyFile>)
    ensures multiset(Insert(f, files)) == multiset(files) + multiset{f}
  {
    if files == [] || !Newer(files[0], f) {
    } else {
      InsertContents(f, files[1..]);
      assert files == [files[0]] + files[1..];
    }
  }

  lemma {:induction false} InsertInOrder(f: KeyFile, files: seq<KeyFile>)
    requires NewestFirst(files)
    ensures NewestFirst(Insert(f, files))
  {
    if files == [] || !Newer(files[0], f) {
    } else {
      var rest := Insert(f, files[1..]);
      InsertInOrder(f, files[1..]);
      InsertContents(f, files[1..]);
      forall x | x in rest
        ensures !Newer(x, files[0])
      {
        assert x in multiset(rest);
        assert x == f || x in files[1..];
      }
    }
  }

  /** Sorting keeps every file and puts the newest first. */
  lemma {:induction false} SortedSorts(files: seq<KeyFile>)
    ensures NewestFirst(Sorted(files)) && multiset(Sorted(files)) == multiset(files)
  {
    if files != [] {
      SortedSorts(files[1..]);
      InsertInOrder(files[0], Sorted(files[1..]));
      InsertContents(files[0], Sorted(files[1..]));
      assert files == [files[0]] + files[1..];
    }
  }

  function Reversed(files: seq<KeyFile>): (r: seq<KeyFile>)
    ensures |r| == |files| && forall i :: 0 <= i < |r| ==> r[i] == files[|files| - 1 - i]
  {
    seq(|files|, i requires 0 <= i < |files| => files[|files| - 1 - i])
  }

  /** Keys in the order they were made: strictly later, and no kid twice. */
  predicate Growing(history: seq<KeyFile>) {
    forall i, j ::
      0 <= i < j < |history| ==> history[i].createdAt < history[j].createdAt && history[i].kid != history[j].kid
  }

  lemma {:induction false} SortedUnique(a: seq<KeyFile>, b: seq<KeyFile>)
    requires NewestFirst(a) && multiset(a) == multiset(b)
    requires forall i, j :: 0 <= i < j < |b| ==> Newer(b[i], b[j])
    ensures a == b
    decreases |a|
  {
    assert |a| == |multiset(a)| == |multiset(b)| == |b|;
    if a != [] {
      SameHead(a, b);
      SameTail(a, b);
      SortedUnique(a[1..], b[1..]);
      assert a == [a[0]] + a[1..] && b == [b[0]] + b[1..];
    }
  }

  lemma SameHead(a: seq<KeyFile>, b: seq<KeyFile>)
    requires NewestFirst(a) && multiset(a) == multiset(b) && a != [] && b != []
    requires forall i, j :: 0 <= i < j < |b| ==> Newer(b[i], b[j])
    ensures a[0] == b[0]
  {
    assert a[0] in multiset(b) && b[0] in multiset(a);
    var i :| 0 <= i < |a| && a[i] == b[0];
    var j :| 0 <= j < |b| && b[j] == a[0];
    assert !Newer(a[i], a[0]);
  }

  lemma SameTail(a: seq<KeyFile>, b: seq<KeyFile>)
    requires multiset(a) == multiset(b) && a != [] && b != [] && a[0] == b[0]
    ensures multiset(a[1..]) == multiset(b[1..])
  {
    assert a == [a[0]] + a[1..] && b == [b[0]] + b[1..];
    assert multiset(a[1..]) == multiset(a) - multiset{a[0]};
  }

  /** However the directory lists them, the signing keys come out newest first, none lost or doubled. */
  lemma ListIsReversedHistory(dir: seq<DirEntry>, history: seq<KeyFile>)
    requires multiset(SigningFiles(dir)) == multiset(history) && Growing(history)
    ensures Sorted(SigningFiles(dir)) == Reversed(history)
  {
    ReversedMultiset(history);
    SortedSorts(SigningFiles(dir));
    SortedUnique(Sorted(SigningFiles(dir)), Reversed(history));
  }

  lemma {:induction false} ReversedMultiset(s: seq<KeyFile>)
    ensures multiset(Reversed(s)) == multiset(s)
  {
    if s == [] {
    } else {
      ReversedMultiset(s[1..]);
      assert Reversed(s) == Reversed(s[1..]) + [s[0]];
      assert s == [s[0]] + s[1..];
    }
  }

  /** The key a new file is added to makes it the current one just when it is newer than every other. */
  lemma CurrentAfter(files: seq<KeyFile>, f: KeyFile)
    requires forall g :: g in files ==> g.kid != f.kid
    ensures Sorted(files + [f])[..1] == [f] <==> forall g :: g in files ==> Newer(f, g)
  {
    var all := Sorted(files + [f]);
    SortedSorts(files + [f]);
    assert multiset(files + [f]) == multiset(files) + multiset{f};
    assert f in multiset(all);
    assert |all| == |multiset(all)| == |files| + 1;
    forall g | g in files
      ensures g in all
    {
      assert g in multiset(all);
    }
    var k :| 0 <= k < |all| && all[k] == f;
    assert all[0] in multiset(all);
    assert all[0] == f || all[0] in files;
  }

  function Find(files: seq<KeyFile>, kid: nat): (r: Option<KeyFile>)
    ensures r.Some? ==> r.value in files && r.value.kid == kid
    ensures r.None? ==> forall f :: f in files ==> f.kid != kid
  {
    if files == [] then None
    else if files[0].kid == kid then Some(files[0])
    else Find(files[1..], kid)
  }

  /** A kid keeps naming the key it was made with, whatever is rotated in later. */
  lemma KidsAreStable(history: seq<KeyFile>, later: seq<KeyFile>, f: KeyFile)
    requires f in history && Growing(history + later)
    ensures Find(Reversed(history + later), f.kid) == Some(f)
  {
    var all := history + later;
    var i :| 0 <= i < |history| && history[i] == f;
    assert all[i] == f;
    assert Reversed(all)[|all| - 1 - i] == f;
    var r := Find(Reversed(all), f.kid);
    assert r.Some?;
    var j :| 0 <= j < |all| && Reversed(all)[j] == r.value;
    assert all[|all| - 1 - j].kid == all[i].kid;
  }

  class LocalKeyProvider {
    var dir: seq<DirEntry>
    var rotateSeq: nat
    ghost var history: seq<KeyFile>
    ghost var clock: int

    /** One provider, from a directory without signing keys. */
    constructor (entries: seq<DirEntry>, now: int)
      requires SigningFiles(entries) == []
      ensures Valid() && history == [] && clock == now
    {
      dir, rotateSeq := entries, 0;
      history, clock := [], now;
    }

    ghost predicate Valid()
      reads this
    {
      && multiset(SigningFiles(dir)) == multiset(history)
      && Growing(history)
      && (forall f :: f in history ==> f.createdAt < clock + rotateSeq)
    }

    /** kid and key are fresh; the new file turns up anywhere in the directory's order. */
    method RotateSigningKey(now: int, kid: nat, key: nat, place: nat) returns (file: KeyFile)
      requires Valid() && clock <= now && place <= |dir|
      requires forall f :: f in history ==> f.kid != kid
      modifies this
      ensures Valid() && clock == now && rotateSeq == old(rotateSeq) + 1
      ensures file == KeyFile(kid, now + old(rotateSeq), key) && history == old(history) + [file]
    {
      file := KeyFile(kid, now + rotateSeq, key);
      InsertedFile(dir, place, file);
      GrowingAppend(history, file);
      NewestAppend(history, file, now + rotateSeq + 1);
      rotateSeq := rotateSeq + 1;
      dir := dir[..place] + [Signing(file)] + dir[place..];
      history := history + [file];
      clock := now;
    }

    method ListSigningKeyFiles() returns (files: seq<KeyFile>)
      requires Valid()
      ensures files == Reversed(history)
    {
      ListIsReversedHistory(dir, history);
      files := Sorted(SigningFiles(dir));
    }

    /** The newest key; the first call on an empty directory makes one. */
    method GetCurrentSigningKey(now: int, kid: nat, key: nat, place: nat) returns (current: KeyFile)
      requires Valid() && clock <= now && (history == [] ==> place <= |dir|)
      modifies this
      ensures Valid() && |history| > 0 && current == history[|history| - 1]
      ensures
        if old(history) == [] then history == [KeyFile(kid, now + old(rotateSeq), key)]
        else history == old(history)
      decreases if history == [] then 1 else 0
    {
      var files := ListSigningKeyFiles();
      if |files| == 0 {
        var _ := RotateSigningKey(now, kid, key, place);
        current := GetCurrentSigningKey(now, kid, key, 0);
      } else {
        current := files[0];
      }
    }

    /** The same list, sorted once more. */
    method ListPublicKeys() returns (keys: seq<KeyFile>)
      requires Valid()
      ensures keys == Reversed(history)
    {
      var files := ListSigningKeyFiles();
      SortedSorts(files);
      SortedUnique(Sorted(files), files);
      keys := Sorted(files);
    }

    method GetPublicKey(kid: nat) returns (file: Option<KeyFile>)
      requires Valid()
      ensures file.Some? ==> file.value in history && file.value.kid == kid
      ensures file.None? ==> forall f :: f in history ==> f.kid != kid
    {
      var files := ListSigningKeyFiles();
      file := Find(files, kid);
      assert forall f :: f in history ==> f in multiset(history);
      ReversedMultiset(history);
      assert forall f :: f in multiset(files) ==> f in files;
      assert file.Some? ==> file.value in multiset(history);
    }
  }

  lemma GrowingAppend(history: seq<KeyFile>, f: KeyFile)
    requires Growing(history) && forall h :: h in history ==> h.createdAt < f.createdAt && h.kid != f.kid
    ensures Growing(history + [f]) && multiset(history + [f]) == multiset(history) + multiset{f}
  {
  }

  lemma NewestAppend(history: seq<KeyFile>, file: KeyFile, limit: int)
    requires file.createdAt < limit && forall f :: f in history ==> f.createdAt < limit
    ensures forall f :: f in history + [file] ==> f.createdAt < limit
  {
  }

  lemma {:induction false} SigningFilesConcat(a: seq<DirEntry>, b: seq<DirEntry>)
    ensures SigningFiles(a + b) == SigningFiles(a) + SigningFiles(b)
  {
    if a == [] {
      assert a + b == b;
    } else {
      var head := if a[0].Signing? then [a[0].file] else [];
      assert (a + b)[0] == a[0] && (a + b)[1..] == a[1..] + b;
      SigningFilesConcat(a[1..], b);
      assert head + (SigningFiles(a[1..]) + SigningFiles(b)) == (head + SigningFiles(a[1..])) + SigningFiles(b);
    }
  }

  lemma InsertedFile(dir: seq<DirEntry>, place: nat, file: KeyFile)
    requires place <= |dir|
    ensures multiset(SigningFiles(dir[..place] + [Signing(file)] + dir[place..])) ==
      multiset(SigningFiles(dir)) + multiset{file}
  {
    var front, back := dir[..place], dir[place..];
    assert dir == front + back;
    SigningFilesConcat(front, back);
    SigningFilesConcat(front, [Signing(file)]);
    SigningFilesConcat(front + [Signing(file)], back);
    assert SigningFiles([Signing(file)]) == [file];
  }
}
