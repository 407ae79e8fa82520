/**
 * An abstract filesystem: regular files by path, each with its bytes and its
 * mode bits, and a set of directory paths. Each operation the installer uses
 * can be told to fail (`fail`), standing for whatever the operating system
 * may refuse; the ones that need an existing file also fail without it.
 */
module FileSystem {
  import opened Wrappers

  /** os.FileMode, kept abstract. */
  type Mode = nat

  /** The mode os.Create asks for (0666); the umask is not modelled. */
  const CREATE_MODE: Mode := 0x1b6

  datatype File = File(data: seq<byte>, mode: Mode)

  /** Path p lies inside directory d. */
  predicate Under(d: string, p: string) { d + "/" <= p }

  /** filepath.Join for a directory and a plain name. */
  function Join(d: string, name: string): (p: string)
    ensures Under(d, p)
  {
    d + "/" + name
  }

  /** Appending a suffix free of separators cannot move a path into a directory. */
  lemma {:induction false} SuffixStaysOutside(d: string, p: string, suffix: string)
    requires '/' !in suffix
    requires !Under(d, p)
    ensures !Under(d, p + suffix)
  {
    var q := p + suffix;
    if |p| >= |d| + 1 {
      assert q[..|d| + 1] == p[..|d| + 1];
    } else if |q| >= |d| + 1 {
      assert q[|d|] == suffix[|d| - |p|];
    }
  }

  /** Nothing lives at d or inside it: the condition for making d afresh. */
  predicate Vacant(files: map<string, File>, dirs: set<string>, d: string)
  {
    && d !in files
    && d !in dirs
    && (forall p :: p in files ==> !Under(d, p))
    && (forall q :: q in dirs ==> !Under(d, q))
  }

  /** The files that survive removing the tree rooted at d. */
  function WithoutTree(files: map<string, File>, d: string): (r: map<string, File>)
    ensures forall p :: p in r <==> p in files && !Under(d, p)
    ensures forall p :: p in r ==> r[p] == files[p]
  {
    map p | p in files && !Under(d, p) :: files[p]
  }

  /** F and G hold the same files outside directory d. */
  ghost predicate SameOutside(f: map<string, File>, g: map<string, File>, d: string)
  {
    forall p :: !Under(d, p) ==> (p in f <==> p in g) && (p in f ==> f[p] == g[p])
  }

  lemma SameOutsideTransitive(f: map<string, File>, g: map<string, File>, h: map<string, File>, d: string)
    requires SameOutside(f, g, d) && SameOutside(g, h, d)
    ensures SameOutside(f, h, d)
  {
  }

  lemma SameOutsideAfterDelete(f: map<string, File>, g: map<string, File>, d: string, p: string)
    requires SameOutside(f, g, d)
    ensures SameOutside(f - {p}, g - {p}, d)
  {
  }

  /** Removing d from a filesystem that agrees with g outside d, where g has
      nothing inside d, leaves exactly g. */
  lemma WithoutTreeIs(f: map<string, File>, g: map<string, File>, d: string)
    requires SameOutside(f, g, d)
    requires forall p :: p in g ==> !Under(d, p)
    ensures WithoutTree(f, d) == g
  {
    var w := WithoutTree(f, d);
    assert w.Keys == g.Keys;
  }

  class Fs {
    var files: map<string, File>
    var dirs: set<string>

    constructor (files0: map<string, File>, dirs0: set<string>)
      ensures files == files0 && dirs == dirs0
    {
      files := files0;
      dirs := dirs0;
    }

    /** os.Mkdir: succeeds only where nothing exists yet. */
    method Mkdir(d: string, fail: bool) returns (ok: bool)
      modifies this
      ensures ok == (!fail && Vacant(old(files), old(dirs), d))
      ensures files == old(files)
      ensures dirs == if ok then old(dirs) + {d} else old(dirs)
    {
      ok := !fail && Vacant(files, dirs, d);
      if ok {
        dirs := dirs + {d};
      }
    }

    /** os.Create: an empty file at p, truncating whatever was there. */
    method Create(p: string, fail: bool) returns (ok: bool)
      modifies this
      ensures ok == !fail
      ensures dirs == old(dirs)
      ensures files == if ok then old(files)[p := File([], CREATE_MODE)] else old(files)
    {
      ok := !fail;
      if ok {
        files := files[p := File([], CREATE_MODE)];
      }
    }

    /** Writing data through the handle of a freshly created file: the file
        then holds exactly data. A failed write is taken to change nothing. */
    method Write(p: string, data: seq<byte>, fail: bool) returns (ok: bool)
      requires p in files
      modifies this
      ensures ok == !fail
      ensures dirs == old(dirs)
      ensures files == if ok then old(files)[p := File(data, old(files)[p].mode)] else old(files)
    {
      ok := !fail;
      if ok {
        files := files[p := File(data, files[p].mode)];
      }
    }

    /** os.Chmod: new mode bits, same contents. */
    method Chmod(p: string, mode: Mode, fail: bool) returns (ok: bool)
      modifies this
      ensures ok == (!fail && p in old(files))
      ensures dirs == old(dirs)
      ensures files == if ok then old(files)[p := File(old(files)[p].data, mode)] else old(files)
    {
      ok := !fail && p in files;
      if ok {
        files := files[p := File(files[p].data, mode)];
      }
    }

    /** os.Rename: moves the file, replacing whatever was at the target. */
    method Rename(from: string, to: string, fail: bool) returns (ok: bool)
      modifies this
      ensures ok == (!fail && from in old(files))
      ensures dirs == old(dirs)
      ensures files == if ok then (old(files) - {from})[to := old(files)[from]] else old(files)
    {
      ok := !fail && from in files;
      if ok {
        files := (files - {from})[to := files[from]];
      }
    }

    /** os.Remove of a file. */
    method Remove(p: string, fail: bool) returns (ok: bool)
      modifies this
      ensures ok == (!fail && p in old(files))
      ensures dirs == old(dirs)
      ensures files == if ok then old(files) - {p} else old(files)
    {
      ok := !fail && p in files;
      if ok {
        files := files - {p};
      }
    }

    /** os.RemoveAll: d and everything inside it are gone. */
    method RemoveAll(d: string)
      modifies this
      ensures files == WithoutTree(old(files), d)
      ensures dirs == set q | q in old(dirs) && q != d && !Under(d, q)
    {
      files := WithoutTree(files, d);
      dirs := set q | q in dirs && q != d && !Under(d, q);
    }
  }
}
