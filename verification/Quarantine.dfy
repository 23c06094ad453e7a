// Setting a damaged database aside: three renames, with a crash possible
// before, between and after any of them.
module Quarantine {
  import opened Options

  type Files = map<string, string>

  // The order of the renames: the write-ahead log and its index before the
  // database itself.
  function Names(path: string): (names: seq<string>)
    ensures |names| == 3
  {
    [path + "-wal", path + "-shm", path]
  }

  // rename(2) replaces its target; a missing source changes nothing.
  function Moved(files: Files, from: string, to: string): Files {
    if from in files then (files - {from})[to := files[from]] else files
  }

  // The files after the first n renames of one attempt.
  function Renamed(files: Files, path: string, suffix: string, n: nat): Files
    requires n <= 3
  {
    if n == 0 then files
    else Moved(Renamed(files, path, suffix, n - 1), Names(path)[n - 1], Names(path)[n - 1] + suffix)
  }

  // ".<reason>-<time>"
  predicate IsSuffix(suffix: string) {
    suffix != "" && suffix[0] == '.'
  }

  // A disk on which renaming some files fails for another reason than that
  // they do not exist.
  class Disk {
    var files: Files
    const broken: set<string>

    constructor (files: Files, broken: set<string>)
      ensures this.files == files && this.broken == broken
    {
      this.files, this.broken := files, broken;
    }

    method Rename(from: string, to: string) returns (missing: bool, err: bool)
      modifies this
      ensures missing <==> from !in old(files)
      ensures err <==> from in old(files) && from in broken
      ensures files == if err then old(files) else Moved(old(files), from, to)
    {
      missing, err := from !in files, from in files && from in broken;
      if !missing && !err {
        files := Moved(files, from, to);
      }
    }

    // Every crash leaves Renamed(old(files), path, suffix, n) for some n up to
    // `done`; without an error all three names are gone.
    method QuarantineFile(path: string, suffix: string) returns (err: Option<string>, done: nat)
      modifies this
      ensures done <= 3 && files == Renamed(old(files), path, suffix, done)
      ensures err.None? <==> done == 3
      ensures err.Some? ==> err.value == Names(path)[done] && err.value in broken && err.value in files
      ensures err.Some? ==> err.value == if done == 0 then path + "-wal" else if done == 1 then path + "-shm" else path
    {
      done := 0;
      var names := Names(path);
      while done < 3
        invariant done <= 3 && files == Renamed(old(files), path, suffix, done)
      {
        var missing, failed := Rename(names[done], names[done] + suffix);
        if failed {
          return Some(names[done]), done;
        }
        done := done + 1;
      }
      return None, done;
    }
  }

  // ---------- names do not clash ----------

  lemma NamesDiffer(path: string, i: nat, j: nat)
    requires i < 3 && j < 3
    ensures Names(path)[i] == Names(path)[j] <==> i == j
  {
    var wal, shm := path + "-wal", path + "-shm";
    assert wal[|path| + 1] == 'w' && shm[|path| + 1] == 's';
  }

  lemma TargetIsNoName(path: string, suffix: string, i: nat, j: nat)
    requires IsSuffix(suffix) && i < 3 && j < 3
    ensures Names(path)[i] + suffix != Names(path)[j]
  {
    if i == 2 {
      assert (path + suffix)[|path|] == '.';
      assert (path + "-wal")[|path|] == '-' && (path + "-shm")[|path|] == '-';
    }
  }

  lemma TargetsDiffer(path: string, s: string, t: string, i: nat, j: nat)
    requires IsSuffix(s) && IsSuffix(t) && i < 3 && j < 3 && i != j
    ensures Names(path)[i] + s != Names(path)[j] + t
  {
    assert ((path + "-wal") + s)[|path|] == '-' && ((path + "-wal") + t)[|path|] == '-';
    assert ((path + "-shm") + s)[|path|] == '-' && ((path + "-shm") + t)[|path|] == '-';
    assert (path + s)[|path|] == '.' && (path + t)[|path|] == '.';
    assert ((path + "-wal") + s)[|path| + 1] == 'w' && ((path + "-wal") + t)[|path| + 1] == 'w';
    assert ((path + "-shm") + s)[|path| + 1] == 's' && ((path + "-shm") + t)[|path| + 1] == 's';
  }

  // ---------- one attempt ----------

  // Name j is gone after n renames exactly when its turn came or it was never
  // there.
  lemma {:induction false} GoneAfter(files: Files, path: string, suffix: string, n: nat, j: nat)
    requires IsSuffix(suffix) && n <= 3 && j < 3
    ensures Names(path)[j] in Renamed(files, path, suffix, n) <==> j >= n && Names(path)[j] in files
  {
    if n == 0 {
    } else {
      GoneAfter(files, path, suffix, n - 1, j);
      NamesDiffer(path, n - 1, j);
      TargetIsNoName(path, suffix, n - 1, j);
    }
  }

  // A file whose turn came is under its name with the suffix, over whatever
  // was there, and a file that is neither one of the three nor a target is as
  // it was.
  lemma {:induction false} MovedAfter(files: Files, path: string, suffix: string, n: nat, j: nat)
    requires IsSuffix(suffix) && n <= 3 && j < 3 && Names(path)[j] in files
    ensures var after, from := Renamed(files, path, suffix, n), Names(path)[j];
      if j < n then from + suffix in after && after[from + suffix] == files[from] else from in after && after[from] == files[from]
  {
    if n == 0 {
    } else {
      MovedAfter(files, path, suffix, n - 1, j);
      NamesDiffer(path, n - 1, j);
      TargetIsNoName(path, suffix, n - 1, j);
      TargetIsNoName(path, suffix, j, n - 1);
      if j != n - 1 {
        TargetsDiffer(path, suffix, suffix, j, n - 1);
      }
    }
  }

  lemma {:induction false} OthersStay(files: Files, path: string, suffix: string, n: nat, x: string)
    requires n <= 3 && x !in Names(path) && forall j :: 0 <= j < 3 ==> x != Names(path)[j] + suffix
    ensures x in Renamed(files, path, suffix, n) <==> x in files
    ensures x in files ==> Renamed(files, path, suffix, n)[x] == files[x]
  {
    if n == 0 {
    } else {
      OthersStay(files, path, suffix, n - 1, x);
      assert Names(path)[n - 1] in Names(path);
    }
  }

  // Wherever the attempt stopped, a database that lost its main file has no
  // sidecar left under the original names for a new one to pick up.
  lemma SidecarsGoFirst(files: Files, path: string, suffix: string, n: nat)
    requires IsSuffix(suffix) && n <= 3 && path in files
    requires path !in Renamed(files, path, suffix, n)
    ensures path + "-wal" !in Renamed(files, path, suffix, n) && path + "-shm" !in Renamed(files, path, suffix, n)
  {
    GoneAfter(files, path, suffix, n, 0);
    GoneAfter(files, path, suffix, n, 1);
    GoneAfter(files, path, suffix, n, 2);
  }

  // A later attempt finishes from wherever an earlier one stopped.
  lemma RerunFinishes(files: Files, path: string, s: string, n: nat, t: string, j: nat)
    requires IsSuffix(s) && IsSuffix(t) && n <= 3 && j < 3
    ensures Names(path)[j] !in Renamed(Renamed(files, path, s, n), path, t, 3)
  {
    GoneAfter(Renamed(files, path, s, n), path, t, 3, j);
  }

  // ---------- any number of attempts ----------

  datatype Attempt = Attempt(suffix: string, renames: nat)

  predicate Plausible(attempts: seq<Attempt>) {
    forall a :: a in attempts ==> IsSuffix(a.suffix) && a.renames <= 3
  }

  function AfterAll(files: Files, path: string, attempts: seq<Attempt>): Files
    requires Plausible(attempts)
  {
    if attempts == [] then files
    else
      var last := attempts[|attempts| - 1];
      Renamed(AfterAll(files, path, attempts[..|attempts| - 1]), path, last.suffix, last.renames)
  }

  predicate Target(path: string, suffixes: set<string>, x: string) {
    exists j, s :: 0 <= j < 3 && s in suffixes && x == Names(path)[j] + s
  }

  // Name p still holds its file and no target of it is taken, or the file is
  // at one of the targets.
  predicate Safe(first: Files, now: Files, p: string, suffixes: set<string>) {
    && (p in now ==> p in first && now[p] == first[p] && forall s :: s in suffixes ==> p + s !in now)
    && (p in first && p !in now ==> exists s :: s in suffixes && p + s in now && now[p + s] == first[p])
    && (p !in first ==> forall s :: s in suffixes ==> p + s !in now)
  }

  ghost predicate AllSafe(first: Files, now: Files, path: string, suffixes: set<string>) {
    && (forall j :: 0 <= j < 3 ==> Safe(first, now, Names(path)[j], suffixes))
    && (forall x :: x in first && x !in Names(path) ==> x in now && now[x] == first[x])
  }

  predicate Free(files: Files, path: string, suffixes: set<string>) {
    forall s, j :: s in suffixes && 0 <= j < 3 ==> Names(path)[j] + s !in files
  }

  lemma MoveKeepsSafe(first: Files, now: Files, path: string, suffixes: set<string>, s: string, i: nat)
    requires forall t :: t in suffixes ==> IsSuffix(t)
    requires s in suffixes && i < 3 && AllSafe(first, now, path, suffixes) && Free(first, path, suffixes)
    ensures AllSafe(first, Moved(now, Names(path)[i], Names(path)[i] + s), path, suffixes)
  {
    var p := Names(path)[i];
    var after := Moved(now, p, p + s);
    assert Safe(first, now, p, suffixes);
    forall j | 0 <= j < 3
      ensures Safe(first, after, Names(path)[j], suffixes)
    {
      MoveKeepsName(first, now, path, suffixes, s, i, j);
    }
  }

  lemma MoveKeepsName(first: Files, now: Files, path: string, suffixes: set<string>, s: string, i: nat, j: nat)
    requires forall t :: t in suffixes ==> IsSuffix(t)
    requires s in suffixes && i < 3 && j < 3 && AllSafe(first, now, path, suffixes)
    ensures Safe(first, Moved(now, Names(path)[i], Names(path)[i] + s), Names(path)[j], suffixes)
  {
    var p, q := Names(path)[i], Names(path)[j];
    assert Safe(first, now, p, suffixes) && Safe(first, now, q, suffixes);
    NamesDiffer(path, i, j);
    TargetIsNoName(path, s, i, j);
    forall t | t in suffixes
      ensures q + t != p
      ensures i != j ==> q + t != p + s
    {
      TargetIsNoName(path, t, j, i);
      if i != j {
        TargetsDiffer(path, s, t, i, j);
      }
    }
  }

  lemma {:induction false} RenamesKeepSafe(first: Files, now: Files, path: string, suffixes: set<string>, s: string, n: nat)
    requires forall t :: t in suffixes ==> IsSuffix(t)
    requires s in suffixes && n <= 3 && AllSafe(first, now, path, suffixes) && Free(first, path, suffixes)
    ensures AllSafe(first, Renamed(now, path, s, n), path, suffixes)
  {
    if n == 0 {
    } else {
      RenamesKeepSafe(first, now, path, suffixes, s, n - 1);
      MoveKeepsSafe(first, Renamed(now, path, s, n - 1), path, suffixes, s, n - 1);
    }
  }

  // However many attempts were made and wherever each of them died: with the
  // target names free to begin with, each of the three files is under its own
  // name or under one of its targets with its content, and every other file is
  // as it was.
  lemma {:induction false} NoContentLost(files: Files, path: string, attempts: seq<Attempt>, suffixes: set<string>)
    requires Plausible(attempts) && Free(files, path, suffixes)
    requires forall t :: t in suffixes ==> IsSuffix(t)
    requires forall a :: a in attempts ==> a.suffix in suffixes
    ensures AllSafe(files, AfterAll(files, path, attempts), path, suffixes)
  {
    if attempts == [] {
    } else {
      var n := |attempts| - 1;
      NoContentLost(files, path, attempts[..n], suffixes);
      assert attempts[n] in attempts;
      RenamesKeepSafe(files, AfterAll(files, path, attempts[..n]), path, suffixes, attempts[n].suffix, attempts[n].renames);
    }
  }
}
