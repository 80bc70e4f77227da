/** The first draft of an album (album.py): a directory, a position in its
    listing and a count of its files. */
module Albums {
  import opened Wrappers
  import opened Os
  import NfcAlbums

  /** The entries of `names` that are regular files when taken as paths on
      their own, that is, relative to the working directory rather than to
      the directory that was listed. */
  function CwdFiles(fs: Fs, names: seq<Name>): (r: seq<Name>)
    ensures |r| <= |names|
  {
    if names == [] then []
    else if IsFile(fs, names[0]) then [names[0]] + CwdFiles(fs, names[1..])
    else CwdFiles(fs, names[1..])
  }

  /** Each listed name is counted exactly as often as it is listed when it is
      a regular file relative to the working directory, and not otherwise. */
  lemma {:induction false} CwdFilesCount(fs: Fs, names: seq<Name>)
    ensures forall n :: n in CwdFiles(fs, names) <==> n in names && IsFile(fs, n)
    ensures forall n :: multiset(CwdFiles(fs, names))[n] == if IsFile(fs, n) then multiset(names)[n] else 0
  {
    if names != [] {
      assert names == [names[0]] + names[1..];
      CwdFilesCount(fs, names[1..]);
    }
  }

  /** A single entry is counted exactly when it names a regular file. */
  lemma CwdFilesSingleton(fs: Fs, n: Name)
    ensures CwdFiles(fs, [n]) == if IsFile(fs, n) then [n] else []
  {
  }

  /** The counted entries of a listing in two parts are those of each part,
      in listing order. */
  lemma {:induction false} CwdFilesAppend(fs: Fs, a: seq<Name>, b: seq<Name>)
    ensures CwdFiles(fs, a + b) == CwdFiles(fs, a) + CwdFiles(fs, b)
  {
    if a == [] {
      assert a + b == b;
    } else {
      assert (a + b)[0] == a[0] && (a + b)[1..] == a[1..] + b;
      CwdFilesAppend(fs, a[1..], b);
    }
  }

  class Album {
    const disk: Disk
    var position: int
    var albumPath: Path
    var albumSize: int

    /** The fields `__init__` sets once the listing of `path` has succeeded. */
    constructor (disk: Disk, path: Path)
      requires IsDir(disk.state, path)
      ensures this.disk == disk && position == 0 && albumPath == path
      ensures albumSize == |CwdFiles(disk.state, disk.state.dirs[path])|
      ensures albumSize <= |disk.state.dirs[path]|
    {
      this.disk := disk;
      position := 0;
      albumPath := path;
      albumSize := |CwdFiles(disk.state, disk.state.dirs[path])|;
    }

    /** `Album(path)`: raises, and gives no album, when `path` cannot be listed. */
    static method Open(disk: Disk, path: Path) returns (r: Result<Album, Error>)
      ensures r.Ok? <==> IsDir(disk.state, path)
      ensures r.Err? ==> ListDir(disk.state, path) == Err(r.error)
      ensures r.Ok? ==>
        fresh(r.value) && r.value.disk == disk && r.value.position == 0 && r.value.albumPath == path &&
        r.value.albumSize == |CwdFiles(disk.state, disk.state.dirs[path])|
    {
      match ListDir(disk.state, path)
      case Err(e) =>
        r := Err(e);
      case Ok(_) =>
        var a := new Album(disk, path);
        r := Ok(a);
    }

    /** `loadImage`, up to the path it hands to the image decoder: the entry at
        `position` of the unfiltered listing, which may be a directory. */
    function LoadImage(): (r: Result<Path, Error>)
      reads this, disk
      ensures r.Ok? ==> IsDir(disk.state, albumPath)
      ensures !IsDir(disk.state, albumPath) ==> r.Err? && ListDir(disk.state, albumPath) == Err(r.error)
      ensures IsDir(disk.state, albumPath) && 0 <= position < |disk.state.dirs[albumPath]| ==>
        r == Ok(Join(albumPath, disk.state.dirs[albumPath][position]))
      ensures IsDir(disk.state, albumPath) && position >= |disk.state.dirs[albumPath]| ==>
        r == Err(IndexError)
    {
      match ListDir(disk.state, albumPath)
      case Err(e) => Err(e)
      case Ok(names) =>
        match PyIndex(names, position)
        case Err(e) => Err(e)
        case Ok(name) => Ok(Join(albumPath, name))
    }
  }

  /** A small file system: the album `pics` lists the sub-directory `sub`
      first, then the picture `a.jpg`; the working directory holds no `a.jpg`. */
  function Example(): Fs {
    Fs(map["pics" := ["sub", "a.jpg"], "pics/sub" := []], {"pics/a.jpg"})
  }

  /** The size `__init__` computes misses the album's own picture, because
      it looks for `a.jpg` in the working directory; the count relative to
      the album, as nfc.py computes it, finds it. */
  lemma AlbumSizeMissesAlbumFiles()
    ensures |CwdFiles(Example(), Example().dirs["pics"])| == 0
    ensures |NfcAlbums.FilesIn(Example(), "pics", Example().dirs["pics"])| == 1
  {
    var fs := Example();
    var names: seq<Name> := ["sub", "a.jpg"];
    assert fs.dirs["pics"] == names == ["sub"] + ["a.jpg"];
    assert !IsFile(fs, "a.jpg") && !IsFile(fs, "sub");
    CwdFilesAppend(fs, ["sub"], ["a.jpg"]);
    CwdFilesSingleton(fs, "sub");
    CwdFilesSingleton(fs, "a.jpg");
    assert Join("pics", "a.jpg") == "pics/a.jpg" && IsFile(fs, "pics/a.jpg");
    assert Join("pics", "sub") == "pics/sub" && !IsFile(fs, "pics/sub");
    NfcAlbums.FilesInAppend(fs, "pics", ["sub"], ["a.jpg"]);
    NfcAlbums.FilesInSingleton(fs, "pics", "sub");
    NfcAlbums.FilesInSingleton(fs, "pics", "a.jpg");
  }

  /** At the position the constructor sets, `loadImage` hands the
      sub-directory listed first to the image decoder. */
  lemma LoadImageMaySelectDirectory(a: Album)
    requires a.disk.state == Example() && a.albumPath == "pics" && a.position == 0
    ensures a.LoadImage() == Ok("pics/sub")
    ensures IsDir(a.disk.state, "pics/sub") && !IsFile(a.disk.state, "pics/sub")
  {
    assert Join("pics", "sub") == "pics/sub";
  }
}
