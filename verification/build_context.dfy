/**
 * A Docker build context: a directory that files are written into before it
 * is sent to the daemon. The file system is a map from path to content;
 * directories exist implicitly. Which writes fail is part of the disk
 * supplied by the caller, and so is the outcome of allocating a temporary
 * directory.
 */
module BuildContext {
  import opened Wrappers
  import opened Errors

  const DockerfileName := "Dockerfile"

  /** The files on disk, and the paths whose write fails with the given error. */
  datatype Disk = Disk(files: map<string, string>, writeFaults: map<string, Error>)

  datatype Context = Context(dir: string)

  /** The path of `name` inside `dir` (`filepath.Join` without its cleaning). */
  function Join(dir: string, name: string): (r: string)
    ensures |r| == |dir| + 1 + |name|
    ensures r[..|dir| + 1] == dir + "/"
  {
    dir + "/" + name
  }

  /** Whether `path` is `root` itself or lies below it. */
  predicate Under(path: string, root: string) {
    path == root || (|root| + 1 <= |path| && path[..|root| + 1] == root + "/")
  }

  lemma JoinUnder(dir: string, name: string)
    ensures Under(Join(dir, name), dir)
  {
  }

  /** Names in one directory are joined to different paths. */
  lemma JoinInjective(dir: string, a: string, b: string)
    requires Join(dir, a) == Join(dir, b)
    ensures a == b
  {
    assert a == Join(dir, a)[|dir| + 1..];
    assert b == Join(dir, b)[|dir| + 1..];
  }

  // ----------------------------------------------------------------- writing

  /** `Add`: write `content` at `dir/name`, unless that write fails. */
  function Add(c: Context, name: string, content: string, d: Disk): (r: (Disk, Option<Error>))
    ensures Join(c.dir, name) in d.writeFaults ==> r == (d, Some(d.writeFaults[Join(c.dir, name)]))
    ensures Join(c.dir, name) !in d.writeFaults ==>
      r.1.None? && r.0.writeFaults == d.writeFaults
      && Join(c.dir, name) in r.0.files && r.0.files[Join(c.dir, name)] == content
      && (forall p :: p != Join(c.dir, name) ==> (p in r.0.files <==> p in d.files))
      && (forall p :: p in d.files && p != Join(c.dir, name) ==> r.0.files[p] == d.files[p])
  {
    var path := Join(c.dir, name);
    if path in d.writeFaults then (d, Some(d.writeFaults[path]))
    else (d.(files := d.files[path := content]), None)
  }

  /**
   * `WithFiles`: add every file in the order the map is walked, which Go
   * leaves unspecified and the caller supplies as `names`; the first failing
   * write stops the walk.
   */
  function AddAll(c: Context, names: seq<string>, files: map<string, string>, d: Disk): (r: (Disk, Option<Error>))
    requires forall k :: 0 <= k < |names| ==> names[k] in files
    ensures r.0.writeFaults == d.writeFaults
    decreases |names|
  {
    if names == [] then (d, None)
    else
      var first := Add(c, names[0], files[names[0]], d);
      if first.1.Some? then first
      else AddAll(c, names[1..], files, first.0)
  }

  /** A successful walk wrote every listed file with its content. */
  lemma {:induction false} AddAllWrites(c: Context, names: seq<string>, files: map<string, string>, d: Disk)
    requires forall k :: 0 <= k < |names| ==> names[k] in files
    requires AddAll(c, names, files, d).1.None?
    ensures forall n :: n in names ==> Join(c.dir, n) !in d.writeFaults
    ensures forall n :: n in names ==>
      Join(c.dir, n) in AddAll(c, names, files, d).0.files && AddAll(c, names, files, d).0.files[Join(c.dir, n)] == files[n]
    decreases |names|
  {
    if names != [] {
      var first := Add(c, names[0], files[names[0]], d);
      AddAllWrites(c, names[1..], files, first.0);
      forall n | n in names
        ensures Join(c.dir, n) in AddAll(c, names, files, d).0.files && AddAll(c, names, files, d).0.files[Join(c.dir, n)] == files[n]
      {
        if n != names[0] {
          assert n in names[1..];
        } else if n !in names[1..] {
          AddAllKeepsOthers(c, names[1..], files, first.0, Join(c.dir, n));
        }
      }
    }
  }

  /** The walk touches no path other than the listed files'. */
  lemma {:induction false} AddAllKeepsOthers(c: Context, names: seq<string>, files: map<string, string>, d: Disk, p: string)
    requires forall k :: 0 <= k < |names| ==> names[k] in files
    requires forall n :: n in names ==> p != Join(c.dir, n)
    ensures p in AddAll(c, names, files, d).0.files <==> p in d.files
    ensures p in d.files ==> AddAll(c, names, files, d).0.files[p] == d.files[p]
    decreases |names|
  {
    if names != [] {
      var first := Add(c, names[0], files[names[0]], d);
      if first.1.None? {
        AddAllKeepsOthers(c, names[1..], files, first.0, p);
      }
    }
  }

  /**
   * A failed walk failed at the first listed file whose write fails: every
   * file before it was written, and the error is that write's.
   */
  lemma {:induction false} AddAllStopsAtFirstFault(c: Context, names: seq<string>, files: map<string, string>, d: Disk)
    requires forall k :: 0 <= k < |names| ==> names[k] in files
    requires AddAll(c, names, files, d).1.Some?
    ensures exists k :: (0 <= k < |names| && Join(c.dir, names[k]) in d.writeFaults
                         && (forall j :: 0 <= j < k ==> Join(c.dir, names[j]) !in d.writeFaults)
                         && AddAll(c, names, files, d).1 == Some(d.writeFaults[Join(c.dir, names[k])]))
    decreases |names|
  {
    var first := Add(c, names[0], files[names[0]], d);
    if first.1.Some? {
      assert Join(c.dir, names[0]) in d.writeFaults;
    } else {
      AddAllStopsAtFirstFault(c, names[1..], files, first.0);
      var k :| 0 <= k < |names[1..]| && Join(c.dir, names[1..][k]) in d.writeFaults
        && (forall j :: 0 <= j < k ==> Join(c.dir, names[1..][j]) !in d.writeFaults)
        && AddAll(c, names[1..], files, first.0).1 == Some(d.writeFaults[Join(c.dir, names[1..][k])]);
      assert names[k + 1] == names[1..][k];
      forall j | 0 <= j < k + 1
        ensures Join(c.dir, names[j]) !in d.writeFaults
      {
        if j > 0 { assert names[j] == names[1..][j - 1]; }
      }
    }
  }

  // --------------------------------------------------------------- modifiers

  /** The modifiers `New` is given. */
  datatype Modifier =
    /** `WithFile(name, content)`; `WithDockerfile(content)` is `WithFile("Dockerfile", content)`. */
    | WithFile(name: string, content: string)
    /** `WithFiles(files)`, walked in the order `names`. */
    | WithFiles(names: seq<string>, files: map<string, string>)

  function WithDockerfile(content: string): (m: Modifier)
    ensures m == WithFile(DockerfileName, content)
  {
    WithFile(DockerfileName, content)
  }

  /** A `WithFiles` modifier whose walk order lists each of its map's names exactly once. */
  predicate WellOrdered(m: Modifier) {
    m.WithFiles? ==>
      (forall k :: 0 <= k < |m.names| ==> m.names[k] in m.files)
      && (forall n :: n in m.files ==> n in m.names)
      && (forall j, k :: 0 <= j < k < |m.names| ==> m.names[j] != m.names[k])
  }

  function Apply(c: Context, m: Modifier, d: Disk): (r: (Disk, Option<Error>))
    requires WellOrdered(m)
    ensures m.WithFile? ==> r == Add(c, m.name, m.content, d)
    ensures m.WithFiles? ==> r == AddAll(c, m.names, m.files, d)
  {
    match m
    case WithFile(name, content) => Add(c, name, content, d)
    case WithFiles(names, files) => AddAll(c, names, files, d)
  }

  /** A successful `WithFiles` leaves every file of its map in the context, with its content. */
  lemma WithFilesWritesAll(c: Context, m: Modifier, d: Disk)
    requires m.WithFiles? && WellOrdered(m) && Apply(c, m, d).1.None?
    ensures forall n :: n in m.files ==>
      Join(c.dir, n) in Apply(c, m, d).0.files && Apply(c, m, d).0.files[Join(c.dir, n)] == m.files[n]
  {
    AddAllWrites(c, m.names, m.files, d);
  }

  /** The modifiers applied in order; the first error stops the rest. */
  function ApplyAll(c: Context, ms: seq<Modifier>, d: Disk): (r: (Disk, Option<Error>))
    requires forall k :: 0 <= k < |ms| ==> WellOrdered(ms[k])
    decreases |ms|
  {
    if ms == [] then (d, None)
    else
      var first := Apply(c, ms[0], d);
      if first.1.Some? then first
      else ApplyAll(c, ms[1..], first.0)
  }

  /** Applying two lists of modifiers is applying the first, then, if it succeeded, the second. */
  lemma {:induction false} ApplyAllAppend(c: Context, ms1: seq<Modifier>, ms2: seq<Modifier>, d: Disk)
    requires forall k :: 0 <= k < |ms1| ==> WellOrdered(ms1[k])
    requires forall k :: 0 <= k < |ms2| ==> WellOrdered(ms2[k])
    ensures forall k :: 0 <= k < |ms1 + ms2| ==> WellOrdered((ms1 + ms2)[k])
    ensures var first := ApplyAll(c, ms1, d);
      ApplyAll(c, ms1 + ms2, d) == if first.1.Some? then first else ApplyAll(c, ms2, first.0)
    decreases |ms1|
  {
    assert forall k :: 0 <= k < |ms1 + ms2| ==> WellOrdered((ms1 + ms2)[k]) by {
      forall k | 0 <= k < |ms1 + ms2|
        ensures WellOrdered((ms1 + ms2)[k])
      {
        if k < |ms1| { assert (ms1 + ms2)[k] == ms1[k]; } else { assert (ms1 + ms2)[k] == ms2[k - |ms1|]; }
      }
    }
    if ms1 == [] {
      assert ms1 + ms2 == ms2;
    } else {
      assert (ms1 + ms2)[0] == ms1[0];
      assert (ms1 + ms2)[1..] == ms1[1..] + ms2;
      ApplyAllAppend(c, ms1[1..], ms2, Apply(c, ms1[0], d).0);
    }
  }

  // --------------------------------------------------------------------- New

  /** What `New` gives: the context, or the error that stopped it, and the disk as left. */
  datatype Made = Made(ctx: Result<Context, Error>, disk: Disk)

  /**
   * `New(dir, modifiers...)`: a non-empty `dir` is used as it is; an empty one
   * is replaced by a fresh temporary directory (`temp`, which may fail). The
   * modifiers then run in order, and the first error returns no context; the
   * files written before it stay on disk.
   */
  function New(dir: string, temp: Result<string, Error>, ms: seq<Modifier>, d: Disk): (r: Made)
    requires forall k :: 0 <= k < |ms| ==> WellOrdered(ms[k])
    ensures dir == "" && temp.Err? ==> r == Made(Err(temp.error), d)
    ensures dir != "" || temp.Ok? ==>
      var c := Context(if dir != "" then dir else temp.value);
      var applied := ApplyAll(c, ms, d);
      r.disk == applied.0
      && (applied.1.Some? ==> r.ctx == Err(applied.1.value))
      && (applied.1.None? ==> r.ctx == Ok(c))
  {
    if dir == "" && temp.Err? then Made(Err(temp.error), d)
    else
      var c := Context(if dir != "" then dir else temp.value);
      var applied := ApplyAll(c, ms, d);
      if applied.1.Some? then Made(Err(applied.1.value), applied.0) else Made(Ok(c), applied.0)
  }

  /** A context made with a Dockerfile holds it, with that content, directly in its directory. */
  lemma NewWithDockerfile(dir: string, temp: Result<string, Error>, content: string, d: Disk)
    requires dir != "" || temp.Ok?
    requires New(dir, temp, [WithDockerfile(content)], d).ctx.Ok?
    ensures var r := New(dir, temp, [WithDockerfile(content)], d);
      r.ctx.value.dir == (if dir != "" then dir else temp.value)
      && Join(r.ctx.value.dir, DockerfileName) in r.disk.files
      && r.disk.files[Join(r.ctx.value.dir, DockerfileName)] == content
  {
    var c := Context(if dir != "" then dir else temp.value);
    assert ApplyAll(c, [WithDockerfile(content)], d) == Apply(c, WithDockerfile(content), d);
  }

  // ---------------------------------------------------------------- removing

  /** The files left after removing the tree at `root` (`os.RemoveAll`). */
  function RemoveTree(files: map<string, string>, root: string): (r: map<string, string>)
    ensures forall p :: p in r <==> p in files && !Under(p, root)
    ensures forall p :: p in r ==> r[p] == files[p]
  {
    map p | p in files && !Under(p, root) :: files[p]
  }

  /** `Delete(name)`: remove `dir/name` and everything below it. */
  function Delete(c: Context, name: string, d: Disk): (r: Disk)
    ensures r.writeFaults == d.writeFaults
    ensures forall p :: p in r.files <==> p in d.files && !Under(p, Join(c.dir, name))
  {
    d.(files := RemoveTree(d.files, Join(c.dir, name)))
  }

  /** `Close`: remove the context's whole directory. */
  function Close(c: Context, d: Disk): (r: Disk)
    ensures r.writeFaults == d.writeFaults
    ensures forall p :: p in r.files <==> p in d.files && !Under(p, c.dir)
  {
    d.(files := RemoveTree(d.files, c.dir))
  }

  /** A file added and then deleted is gone; no other file outside it is touched. */
  lemma AddThenDelete(c: Context, name: string, content: string, d: Disk)
    requires Join(c.dir, name) !in d.writeFaults
    ensures var after := Delete(c, name, Add(c, name, content, d).0);
      Join(c.dir, name) !in after.files
      && forall p :: !Under(p, Join(c.dir, name)) ==> (p in after.files <==> p in d.files)
  {
  }

  /** After `Close` nothing added to the context remains, and everything outside it is kept. */
  lemma CloseRemovesAdded(c: Context, name: string, d: Disk)
    ensures Join(c.dir, name) !in Close(c, d).files
    ensures forall p :: p in d.files && !Under(p, c.dir) ==> p in Close(c, d).files && Close(c, d).files[p] == d.files[p]
  {
    JoinUnder(c.dir, name);
  }
}
