/** The part of the operating system the core talks to: an abstract file
    system, path joining, directory listing and creation, and Python's list
    indexing. Paths are compared as the strings the program spells them; no
    normalisation is done, so `./pics` and `pics` are different keys. */
module Os {
  import opened Wrappers

  type Path = string
  type Name = string

  /** The exceptions the modelled calls can raise. */
  datatype Error = FileNotFound | NotADirectory | FileExists | IndexError

  /** The file system: for each directory, the entries a listing of it returns
      (in whatever order the system enumerates them), and the set of paths
      that are regular files. */
  datatype Fs = Fs(dirs: map<Path, seq<Name>>, files: set<Path>)

  predicate IsDir(fs: Fs, p: Path) {
    p in fs.dirs
  }

  predicate IsFile(fs: Fs, p: Path) {
    p in fs.files
  }

  predicate Exists(fs: Fs, p: Path) {
    IsDir(fs, p) || IsFile(fs, p)
  }

  predicate IsAbsolute(p: Path) {
    |p| > 0 && p[0] == '/'
  }

  /** A single path component: what an album identity must be for its album
      to sit directly inside the base directory. */
  predicate ValidName(n: Name) {
    |n| > 0 && '/' !in n && n != "." && n != ".."
  }

  /** `os.path.join(base, name)` on a POSIX system. */
  function Join(base: Path, name: Path): (r: Path)
    ensures IsAbsolute(name) ==> r == name
    ensures !IsAbsolute(name) && (base == [] || base[|base| - 1] == '/') ==> r == base + name
    ensures !IsAbsolute(name) && base != [] && base[|base| - 1] != '/' ==> r == base + "/" + name
  {
    if IsAbsolute(name) then name
    else if base == [] || base[|base| - 1] == '/' then base + name
    else base + "/" + name
  }

  /** The joined path ends with the component and, for a relative component,
      starts with the base. */
  lemma JoinShape(base: Path, name: Path)
    ensures |name| <= |Join(base, name)| && Join(base, name)[|Join(base, name)| - |name|..] == name
    ensures !IsAbsolute(name) ==> |base| + |name| <= |Join(base, name)| && base <= Join(base, name)
  {
  }

  /** Joining a single component onto a directory gives a path strictly longer
      than the directory, so the album of an identity is never its base. */
  lemma JoinLonger(base: Path, name: Name)
    requires ValidName(name)
    ensures |Join(base, name)| > |base|
    ensures Join(base, name) != base
  {
  }

  /** `os.listdir(p)`. */
  function ListDir(fs: Fs, p: Path): (r: Result<seq<Name>, Error>)
    ensures r.Ok? <==> IsDir(fs, p)
    ensures r.Ok? ==> r.value == fs.dirs[p]
    ensures r == Err(FileNotFound) <==> !Exists(fs, p)
    ensures IsFile(fs, p) && !IsDir(fs, p) ==> r == Err(NotADirectory)
  {
    if IsDir(fs, p) then Ok(fs.dirs[p])
    else if IsFile(fs, p) then Err(NotADirectory)
    else Err(FileNotFound)
  }

  /** `os.makedirs(Join(parent, name))` when `parent` is already there (the
      only way the core calls it): the new directory is empty and its name
      joins the parent's listing. The system does not say where a new entry
      appears in a listing; putting it at the end is this model's choice.
      Missing ancestors would be created by `makedirs`; that case is not
      reached by the core. */
  function MakeDir(fs: Fs, parent: Path, name: Name): (r: Result<Fs, Error>)
    requires ValidName(name)
    ensures r.Ok? <==> IsDir(fs, parent) && !Exists(fs, Join(parent, name))
    ensures r.Ok? ==> IsDir(r.value, Join(parent, name)) && r.value.dirs[Join(parent, name)] == []
    ensures r.Ok? ==> r.value.files == fs.files
    ensures r.Ok? ==> IsDir(r.value, parent) && r.value.dirs[parent] == fs.dirs[parent] + [name]
    ensures r.Ok? ==> forall d :: d in fs.dirs && d != parent ==> d in r.value.dirs && r.value.dirs[d] == fs.dirs[d]
    ensures r.Ok? ==> r.value.dirs.Keys == fs.dirs.Keys + {Join(parent, name)}
    ensures Exists(fs, Join(parent, name)) ==> r == Err(FileExists)
    ensures !Exists(fs, Join(parent, name)) && IsFile(fs, parent) && !IsDir(fs, parent) ==> r == Err(NotADirectory)
    ensures !Exists(fs, Join(parent, name)) && !Exists(fs, parent) ==> r == Err(FileNotFound)
  {
    var p := Join(parent, name);
    if Exists(fs, p) then Err(FileExists)
    else if !IsDir(fs, parent) then
      (if IsFile(fs, parent) then Err(NotADirectory) else Err(FileNotFound))
    else
      JoinLonger(parent, name);
      Ok(Fs(fs.dirs[p := []][parent := fs.dirs[parent] + [name]], fs.files))
  }

  /** `s[i]` on a Python list: a negative index counts from the end, and an
      index outside the list raises IndexError. */
  function PyIndex<T>(s: seq<T>, i: int): (r: Result<T, Error>)
    ensures r.Ok? <==> -|s| <= i < |s|
    ensures r.Err? ==> r.error == IndexError
    ensures 0 <= i < |s| ==> r == Ok(s[i])
    ensures -|s| <= i < 0 ==> r == Ok(s[|s| + i])
  {
    if 0 <= i < |s| then Ok(s[i])
    else if -|s| <= i < 0 then Ok(s[|s| + i])
    else Err(IndexError)
  }

  /** The file system as shared, mutable state of the running process. */
  class Disk {
    var state: Fs

    constructor (fs: Fs)
      ensures state == fs
    {
      state := fs;
    }
  }
}
