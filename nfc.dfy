/** The picture directory of the active NFC card (nfc.py). Each card id owns
    a sub-directory of the base picture directory; activating an id makes sure
    that directory exists, counts the pictures in it and rewinds the gallery
    position. Without a card the id is "default". */
module NfcAlbums {
  import opened Wrappers
  import opened Os

  const DefaultId: Name := "default"

  /** The entries of `names` that are regular files inside `dir`, in listing
      order: the list comprehension that filters a directory listing. */
  function FilesIn(fs: Fs, dir: Path, names: seq<Name>): (r: seq<Name>)
    ensures |r| <= |names|
  {
    if names == [] then []
    else if IsFile(fs, Join(dir, names[0])) then [names[0]] + FilesIn(fs, dir, names[1..])
    else FilesIn(fs, dir, names[1..])
  }

  /** Each listed name is kept exactly as often as it is listed when it is a
      regular file inside `dir`, and dropped otherwise. */
  lemma {:induction false} FilesInCount(fs: Fs, dir: Path, names: seq<Name>)
    ensures forall n :: n in FilesIn(fs, dir, names) <==> n in names && IsFile(fs, Join(dir, n))
    ensures forall n ::
      multiset(FilesIn(fs, dir, names))[n] == if IsFile(fs, Join(dir, n)) then multiset(names)[n] else 0
  {
    if names != [] {
      assert names == [names[0]] + names[1..];
      FilesInCount(fs, dir, names[1..]);
    }
  }

  /** A single entry is kept exactly when it is a regular file in `dir`. */
  lemma FilesInSingleton(fs: Fs, dir: Path, n: Name)
    ensures FilesIn(fs, dir, [n]) == if IsFile(fs, Join(dir, n)) then [n] else []
  {
  }

  /** Filtering a listing in two parts and putting the results together gives
      the filtered listing: the files keep the order of the listing. */
  lemma {:induction false} FilesInAppend(fs: Fs, dir: Path, a: seq<Name>, b: seq<Name>)
    ensures FilesIn(fs, dir, a + b) == FilesIn(fs, dir, a) + FilesIn(fs, dir, b)
  {
    if a == [] {
      assert a + b == b;
    } else {
      assert (a + b)[0] == a[0] && (a + b)[1..] == a[1..] + b;
      FilesInAppend(fs, dir, a[1..], b);
    }
  }

  /** The regular files directly in `dir`, or the error listing it raises. */
  function GalleryFiles(fs: Fs, dir: Path): (r: Result<seq<Name>, Error>)
    ensures r.Ok? <==> IsDir(fs, dir)
    ensures r.Err? ==> r == Err(if IsFile(fs, dir) then NotADirectory else FileNotFound)
    ensures r.Ok? ==> forall n :: n in r.value <==> n in fs.dirs[dir] && IsFile(fs, Join(dir, n))
    ensures r.Ok? ==> forall n ::
      multiset(r.value)[n] == if IsFile(fs, Join(dir, n)) then multiset(fs.dirs[dir])[n] else 0
    ensures r.Ok? ==> r.value == FilesIn(fs, dir, fs.dirs[dir])
  {
    match ListDir(fs, dir)
    case Err(e) => Err(e)
    case Ok(names) =>
      FilesInCount(fs, dir, names);
      Ok(FilesIn(fs, dir, names))
  }

  /** `maybe_create_picture_directory` on the file system alone: the album
      directory of `id` is created only when the base directory exists and
      the album directory does not. */
  function CreatePictureDirectory(fs: Fs, base: Path, id: Name): (r: Result<Fs, Error>)
    requires ValidName(id)
    ensures !Exists(fs, base) || Exists(fs, Join(base, id)) ==> r == Ok(fs)
    ensures IsDir(fs, base) && !Exists(fs, Join(base, id)) ==>
      r.Ok? && IsDir(r.value, Join(base, id)) && r.value.dirs[Join(base, id)] == []
    ensures r.Err? <==> IsFile(fs, base) && !IsDir(fs, base) && !Exists(fs, Join(base, id))
    ensures r.Err? ==> r.error == NotADirectory
    ensures r.Ok? ==> r.value.files == fs.files && r.value.dirs.Keys <= fs.dirs.Keys + {Join(base, id)}
  {
    if Exists(fs, base) && !Exists(fs, Join(base, id)) then MakeDir(fs, base, id)
    else Ok(fs)
  }

  /** What `activate_id` does outside the object's own fields: the file system
      it leaves behind, and the gallery files it counts or the exception it
      raises on the way. */
  datatype Activation = Activation(fs: Fs, gallery: Result<seq<Name>, Error>)

  function Activate(fs: Fs, base: Path, id: Name): (a: Activation)
    requires ValidName(id)
    ensures a.fs.files == fs.files
    ensures a.gallery.Ok? ==> IsDir(a.fs, Join(base, id)) && a.gallery == GalleryFiles(a.fs, Join(base, id))
    ensures a.gallery.Err? && a.gallery.error == NotADirectory ==> a.fs == fs
    ensures a.gallery.Err? ==> !IsDir(a.fs, Join(base, id))
  {
    match CreatePictureDirectory(fs, base, id)
    case Err(e) => Activation(fs, Err(e))
    case Ok(fs') => Activation(fs', GalleryFiles(fs', Join(base, id)))
  }

  /** When the base directory exists, activation leaves the album directory
      in place, and, unless a regular file already holds its name, it is a
      directory whose files are counted. */
  lemma ActivateMakesAlbum(fs: Fs, base: Path, id: Name)
    requires ValidName(id) && IsDir(fs, base)
    ensures Exists(Activate(fs, base, id).fs, Join(base, id))
    ensures !IsFile(fs, Join(base, id)) ==>
      IsDir(Activate(fs, base, id).fs, Join(base, id)) && Activate(fs, base, id).gallery.Ok?
  {
  }

  /** A base that is a regular file makes the creation raise, and nothing is created. */
  lemma ActivateUnderFileBase(fs: Fs, base: Path, id: Name)
    requires ValidName(id) && IsFile(fs, base) && !IsDir(fs, base) && !Exists(fs, Join(base, id))
    ensures Activate(fs, base, id) == Activation(fs, Err(NotADirectory))
  {
  }

  /** An album directory that is already there is neither recreated nor
      changed: activation leaves the whole file system as it found it. */
  lemma ActivateKeepsExistingAlbum(fs: Fs, base: Path, id: Name)
    requires ValidName(id) && Exists(fs, Join(base, id))
    ensures Activate(fs, base, id).fs == fs
    ensures Activate(fs, base, id).gallery == GalleryFiles(fs, Join(base, id))
  {
  }

  /** Without the base directory nothing is created, and the listing of the
      (missing) album directory raises. */
  lemma ActivateWithoutBase(fs: Fs, base: Path, id: Name)
    requires ValidName(id) && !Exists(fs, base)
    ensures Activate(fs, base, id).fs == fs
    ensures !Exists(fs, Join(base, id)) ==> Activate(fs, base, id).gallery == Err(FileNotFound)
  {
  }

  /** Activation never deletes or changes anything: the regular files are the
      same, every directory keeps its entries, and the base directory at most
      gains the new album's name at the end. */
  lemma ActivateOnlyAdds(fs: Fs, base: Path, id: Name)
    requires ValidName(id)
    ensures Activate(fs, base, id).fs.files == fs.files
    ensures Activate(fs, base, id).fs.dirs.Keys <= fs.dirs.Keys + {Join(base, id)}
    ensures forall d :: d in fs.dirs && d != base ==>
      d in Activate(fs, base, id).fs.dirs && Activate(fs, base, id).fs.dirs[d] == fs.dirs[d]
    ensures IsDir(fs, base) ==>
      IsDir(Activate(fs, base, id).fs, base) &&
      Activate(fs, base, id).fs.dirs[base] in {fs.dirs[base], fs.dirs[base] + [id]}
  {
  }

  /** Activating the same id twice leaves the same file system and the same
      gallery outcome as activating it once. */
  lemma ActivateIdempotent(fs: Fs, base: Path, id: Name)
    requires ValidName(id)
    ensures Activate(Activate(fs, base, id).fs, base, id) == Activate(fs, base, id)
  {
  }

  /** The NFC picture directory object. `pic_path` follows `id` after every
      activation; the setters of the source can change either field alone. */
  class Nfc {
    const disk: Disk
    var baseDir: Path
    var id: Name
    var picPath: Path
    var gallerySize: int
    var position: int

    /** `pic_path` is the album directory of `id`, as activation leaves it. */
    predicate Linked()
      reads this
    {
      ValidName(id) && picPath == Join(baseDir, id)
    }

    /** The fields as `__init__` leaves them before its call to `activate_id`:
        only the base directory is set; the others are not yet meaningful. */
    constructor Init(disk: Disk, baseDir: Path)
      ensures this.disk == disk && this.baseDir == baseDir
      ensures id == "" && picPath == "" && gallerySize == 0 && position == 0
    {
      this.disk := disk;
      this.baseDir := baseDir;
      id, picPath := "", "";
      gallerySize, position := 0, 0;
    }

    /** `NFC(base_dir, id="default")`: sets the base directory and activates
        `id`; an exception raised by the activation means no object. */
    static method New(disk: Disk, baseDir: Path, id: Name := DefaultId) returns (r: Result<Nfc, Error>)
      requires ValidName(id)
      modifies disk
      ensures disk.state == Activate(old(disk.state), baseDir, id).fs
      ensures r.Ok? <==> Activate(old(disk.state), baseDir, id).gallery.Ok?
      ensures r.Err? ==> Activate(old(disk.state), baseDir, id).gallery == Err(r.error)
      ensures r.Ok? ==>
        fresh(r.value) && r.value.disk == disk && r.value.baseDir == baseDir &&
        r.value.id == id && r.value.picPath == Join(baseDir, id) &&
        r.value.gallerySize == |Activate(old(disk.state), baseDir, id).gallery.value| &&
        r.value.position == 0
    {
      var n := new Nfc.Init(disk, baseDir);
      var err := n.ActivateId(id);
      if err.Some? {
        r := Err(err.value);
      } else {
        r := Ok(n);
      }
    }

    /** `maybe_create_picture_directory`. */
    method MaybeCreatePictureDirectory() returns (err: Option<Error>)
      requires Linked()
      modifies disk
      ensures CreatePictureDirectory(old(disk.state), baseDir, id).Ok? ==>
        err == None && disk.state == CreatePictureDirectory(old(disk.state), baseDir, id).value
      ensures CreatePictureDirectory(old(disk.state), baseDir, id).Err? ==>
        err == Some(CreatePictureDirectory(old(disk.state), baseDir, id).error) && disk.state == old(disk.state)
    {
      err := None;
      if Exists(disk.state, baseDir) {
        if !Exists(disk.state, picPath) {
          match MakeDir(disk.state, baseDir, id)
          case Ok(fs) => disk.state := fs;
          case Err(e) => err := Some(e);
        }
      }
    }

    /** `activate_id(id)`: rebinds the identity and the album path, creates the
        album directory if it can, counts the regular files in it and rewinds
        the position. A raised exception stops it where it was raised, so the
        count and the position keep their old values. */
    method ActivateId(newId: Name) returns (err: Option<Error>)
      requires ValidName(newId)
      modifies this, disk
      ensures baseDir == old(baseDir) && id == newId && picPath == Join(baseDir, newId) && Linked()
      ensures disk.state == Activate(old(disk.state), baseDir, newId).fs
      ensures Activate(old(disk.state), baseDir, newId).gallery.Ok? ==>
        err == None && position == 0 &&
        gallerySize == |Activate(old(disk.state), baseDir, newId).gallery.value|
      ensures Activate(old(disk.state), baseDir, newId).gallery.Err? ==>
        err == Some(Activate(old(disk.state), baseDir, newId).gallery.error) &&
        gallerySize == old(gallerySize) && position == old(position)
    {
      id := newId;
      picPath := Join(baseDir, id);
      err := MaybeCreatePictureDirectory();
      if err.Some? {
        return;
      }
      match GalleryFiles(disk.state, picPath)
      case Err(e) =>
        err := Some(e);
      case Ok(files) =>
        gallerySize := |files|;
        position := 0;
    }

    /** `deactivate_id`: back to the default album. */
    method DeactivateId() returns (err: Option<Error>)
      modifies this, disk
      ensures baseDir == old(baseDir) && id == DefaultId && picPath == Join(baseDir, DefaultId)
      ensures disk.state == Activate(old(disk.state), baseDir, DefaultId).fs
      ensures Activate(old(disk.state), baseDir, DefaultId).gallery.Ok? ==>
        err == None && position == 0 &&
        gallerySize == |Activate(old(disk.state), baseDir, DefaultId).gallery.value|
      ensures Activate(old(disk.state), baseDir, DefaultId).gallery.Err? ==>
        err == Some(Activate(old(disk.state), baseDir, DefaultId).gallery.error) &&
        gallerySize == old(gallerySize) && position == old(position)
    {
      err := ActivateId(DefaultId);
    }

    /** The `id` setter: stores the value, nothing else. */
    method SetId(value: Name)
      modifies this
      ensures id == value
      ensures baseDir == old(baseDir) && picPath == old(picPath)
      ensures gallerySize == old(gallerySize) && position == old(position)
    {
      id := value;
    }

    /** The `pic_path` setter: stores the value, nothing else. */
    method SetPicPath(value: Path)
      modifies this
      ensures picPath == value
      ensures baseDir == old(baseDir) && id == old(id)
      ensures gallerySize == old(gallerySize) && position == old(position)
    {
      picPath := value;
    }

    /** `loadImage`, up to the path it hands to the image decoder: the
        `position`-th regular file of the album directory's current listing. */
    function LoadImage(): (r: Result<Path, Error>)
      reads this, disk
      ensures r.Ok? ==> IsFile(disk.state, r.value)
      ensures !IsDir(disk.state, picPath) ==> r == Err(ListDir(disk.state, picPath).error)
      ensures IsDir(disk.state, picPath) && 0 <= position < |GalleryFiles(disk.state, picPath).value| ==>
        r == Ok(Join(picPath, GalleryFiles(disk.state, picPath).value[position]))
      ensures IsDir(disk.state, picPath) && 0 <= position ==>
        (r.Ok? <==> position < |GalleryFiles(disk.state, picPath).value|)
      ensures IsDir(disk.state, picPath) && position >= |GalleryFiles(disk.state, picPath).value| ==>
        r == Err(IndexError)
    {
      match GalleryFiles(disk.state, picPath)
      case Err(e) => Err(e)
      case Ok(files) =>
        match PyIndex(files, position)
        case Err(e) => Err(e)
        case Ok(name) => Ok(Join(picPath, name))
    }
  }
}
