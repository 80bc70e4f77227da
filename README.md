# Kid camera: album directories and selector decoding

A model of the bookkeeping core of a small "kid camera" appliance: a screen
and buttons that switch between a live camera view and a gallery of the
pictures taken, with one photo album per NFC card.

The model covers two components.

- **Album directories.** `NfcAlbums.Nfc` (nfc.py) keeps a base picture
  directory and the active card id. Activating an id rebinds the id and the
  album path `join(base_dir, id)`. It then creates that directory when the
  base directory exists and the album directory does not. Next it counts the
  regular files in the album directory and rewinds the gallery position to 0.
  Deactivating activates `"default"`. `loadImage` selects the position-th
  regular file of the current listing. `Albums.Album` (album.py) is the
  earlier draft of the same idea.
- **Selector decoding.** `Gpio.ActivePos` (gpioinput.py) reads the
  four-position mode selector from four buttons; an override wins. Otherwise
  the first pressed button in the order A, B, C, D gives the position.
  `Keyboard.KeyboardInput` (keyboardinput.py) stores the position as an
  integer and maps 1 to 4 to the positions.

The file system is abstract (`Os.Fs`): a map from each directory to the
names a listing of it returns, and the set of paths that are regular files.
The order of a listing is whatever the map holds. `Os.Disk` holds it as the
process's shared, mutable state. Paths are the strings the program builds.
`Os.Join` is POSIX `os.path.join` for two components. Python exceptions
become `Err` values of `Os.Error`. A constructor that raises yields no object;
it is modelled by the static methods `Nfc.New` and `Album.Open`, which return
a `Result`.

Each class method that changes state is tied to a pure specification:
`Nfc.ActivateId` leaves the file system and the gallery count that
`NfcAlbums.Activate` describes. The lemmas about `Activate` state what
activation creates, what it keeps, and that it is idempotent. The `id`,
`pic_path` and `pos` getters of the source are plain field reads here.

When the base directory is missing, nfc.py:21-23 only prints a message:
nothing is created, and the listing of the album then raises
(`NfcAlbums.ActivateWithoutBase`).

## Model

| member | source | states |
|---|---|---|
| `Os.Join` | nfc.py:26 | an absolute component replaces the base; otherwise the component is appended to an empty or `/`-ended base as it is, and after a `/` to any other base |
| `Os.JoinShape` | nfc.py:26 | the joined path ends with the component and, for a relative component, starts with the base |
| `Os.JoinLonger` | nfc.py:26 | an album path is strictly longer than its base, so it is never the base itself |
| `Os.ListDir` | nfc.py:28 | listing succeeds exactly on a directory and returns its entries; a regular file raises NotADirectory; a missing path raises FileNotFound |
| `Os.MakeDir` | nfc.py:20 | creation succeeds exactly when the parent is a directory and the path is free; the new directory is empty, is the only directory added, and is appended to the parent's listing; files and other directories are untouched; an existing path raises FileExists, a file parent NotADirectory, a missing parent FileNotFound |
| `Os.PyIndex` | nfc.py:56 | Python list indexing: defined exactly for -len <= i < len, negative indices count from the end, otherwise IndexError |
| `KcTypes.SelectorValueInjective` | kctypes.py:15-19 | two selector positions with the same value are the same position |
| `NfcAlbums.FilesIn` | nfc.py:28 | the filtered listing is no longer than the listing |
| `NfcAlbums.FilesInCount` | nfc.py:28 | each name occurs in the filtered listing exactly as often as in the listing when it is a regular file inside the directory, and not at all otherwise |
| `NfcAlbums.FilesInSingleton` | nfc.py:28 | one entry is kept exactly when it is a regular file inside the directory |
| `NfcAlbums.FilesInAppend` | nfc.py:28 | filtering distributes over concatenation, so the files keep the listing's order |
| `NfcAlbums.GalleryFiles` | nfc.py:28 | the gallery files exist exactly when the album path is a directory; they are its listing filtered to regular files, each with its multiplicity, so subdirectories are not counted; otherwise the listing's exception |
| `NfcAlbums.CreatePictureDirectory` | nfc.py:14-23 | nothing is created when the base is missing or the album path exists; an album under a base directory is created empty; only a base that is a regular file raises, with NotADirectory; files are untouched and at most the album directory is added |
| `NfcAlbums.Activate` | nfc.py:24-29 | activation never changes the regular files; a successful count comes from the album path, which is then a directory, listed as it is afterwards; a NotADirectory from creation leaves the file system as it was; on any error the album path is not a directory |
| `NfcAlbums.ActivateMakesAlbum` | nfc.py:16-20 | with an existing base directory the album path exists afterwards; unless a file holds its name it is a directory and the count succeeds |
| `NfcAlbums.ActivateUnderFileBase` | nfc.py:16-20 | a base that is a regular file makes the creation raise NotADirectory and nothing changes |
| `NfcAlbums.ActivateKeepsExistingAlbum` | nfc.py:18-20 | an existing album path is not recreated: the file system is unchanged and its entries are counted as they are |
| `NfcAlbums.ActivateWithoutBase` | nfc.py:21-28 | with no base directory nothing is created, and the listing of the missing album raises FileNotFound |
| `NfcAlbums.ActivateOnlyAdds` | nfc.py:14-23 | activation deletes nothing and adds at most the album directory: regular files are the same, every other directory keeps its entries, the base at most gains the album's name |
| `NfcAlbums.ActivateIdempotent` | nfc.py:24-29 | activating the same id twice leaves the same file system and gallery outcome as once |
| `NfcAlbums.Nfc.Init` | nfc.py:48-49 | the object before activation: the base directory is set |
| `NfcAlbums.Nfc.New` | nfc.py:48-51 | construction activates the given id, `"default"` when none is given; an exception from the activation yields no object |
| `NfcAlbums.Nfc.MaybeCreatePictureDirectory` | nfc.py:14-23 | the file system afterwards is the one `CreatePictureDirectory` gives, or unchanged with the exception when creation raises |
| `NfcAlbums.Nfc.ActivateId` | nfc.py:24-29 | id and album path rebound; file system as `Activate` leaves it; on success gallery size is the number of regular files and position is 0, whatever it was; on an exception size and position keep their old values |
| `NfcAlbums.Nfc.DeactivateId` | nfc.py:31-32 | exactly the effect of activating `"default"` |
| `NfcAlbums.Nfc.SetId` | nfc.py:37-39 | the id setter stores the value and changes no other field |
| `NfcAlbums.Nfc.SetPicPath` | nfc.py:44-46 | the pic_path setter stores the value and changes no other field |
| `NfcAlbums.Nfc.LoadImage` | nfc.py:53-58 | the selected path is the album path joined with the `position`-th regular file of the current listing, always a regular file; position at or past the file count (an empty album) raises IndexError; an album path that is not a directory raises the listing's error |
| `Albums.CwdFiles` | album.py:10 | the counted entries are no more than the listing's |
| `Albums.CwdFilesCount` | album.py:10 | each name is counted exactly as often as it is listed when it is a regular file relative to the working directory, and not at all otherwise |
| `Albums.CwdFilesSingleton` | album.py:10 | one entry is counted exactly when it names a regular file relative to the working directory |
| `Albums.CwdFilesAppend` | album.py:10 | the counted entries of a listing in two parts are those of each part, in listing order |
| `Albums.Album.constructor` | album.py:7-10 | position 0, album path the argument, size the count of working-directory files among the entries, at most the number of entries |
| `Albums.Album.Open` | album.py:7-10 | construction succeeds exactly when the path is a directory, else raises the listing's error |
| `Albums.Album.LoadImage` | album.py:11-15 | the entry at `position` of the unfiltered listing, directories included; position at or past the entry count raises IndexError; no field changes |
| `Albums.AlbumSizeMissesAlbumFiles` | album.py:10 | an album holding one picture gets size 0, while the count relative to the album finds 1 |
| `Albums.LoadImageMaySelectDirectory` | album.py:12 | on an album listing a subdirectory first, loadImage at the constructor's position 0 hands a directory to the decoder |
| `Gpio.ActivePos` | gpioinput.py:10-26 | an override is returned unchanged; otherwise A gives One whatever else is pressed, Two exactly when B and not A, Three exactly when C and neither A nor B, Four exactly when only D of the four; None exactly when nothing is pressed |
| `Gpio.ActivePosIsLowestPressed` | gpioinput.py:19-26 | without an override the result is the pressed position of lowest value |
| `Gpio.ActivePosNoneIffIdle` | gpioinput.py:10-26 | without an override the result is None exactly when no button is pressed |
| `Keyboard.KeyboardInput.constructor` | keyboardinput.py:32-43 | a fresh input has position 1, so selects One, and no encoder steps |
| `Keyboard.KeyboardInput.SetupEncoderCallback` | keyboardinput.py:8-9 | no effect on the object |
| `Keyboard.KeyboardInput.SetupCaptureCallback` | keyboardinput.py:12-13 | no effect on the object |
| `Keyboard.KeyboardInput.ActivePos` | keyboardinput.py:16-24 | a position is returned only when its value is the stored one; None exactly when the stored value is not 1 to 4 |
| `Keyboard.KeyboardInput.SetPos` | keyboardinput.py:29-31 | the setter stores any integer unchecked, and the encoder steps are unchanged |
| `Keyboard.ActivePosOfValue` | keyboardinput.py:16-24 | storing the value of a position selects that position |

## Findings

| source | as written | input that shows it | evidently intended | confidence | as-written member | corrected member |
|---|---|---|---|---|---|---|
| album.py:10 | `isfile(name)` tests the bare entry name, relative to the working directory | album `pics` holding `a.jpg`, no `a.jpg` in the working directory: size 0 | count the entries that are files inside the album, `isfile(join(album_path, name))`, as nfc.py:28 does | high, not executed | `Albums.AlbumSizeMissesAlbumFiles` | `NfcAlbums.GalleryFiles` |
| album.py:12 | indexes the unfiltered listing, which includes directories | album `pics` listing `sub`, `a.jpg` with `sub` a directory, position 0: the decoder is handed `pics/sub` | select among regular files only, as nfc.py:54-56 does | medium, not executed | `Albums.LoadImageMaySelectDirectory` | `NfcAlbums.Nfc.LoadImage` |

## Left out

- Image decoding (`Image.open`, `resize`, `show`) and the `__main__` blocks: only the path handed to the decoder is modelled; a file the decoder cannot read is not.
- `print` output, and the dotenv and environment reads, including `USE_KEYBOARD_INPUT` in the keyboard constructor; the keyboard callbacks do nothing either way.
- The construction of `GPIOInput`: hardware buttons, encoder, bounce times and callback wiring. The buttons' states are the parameter `Gpio.Selectors`.
- Path normalisation: `./pics` and `pics` are different keys, and `..`, symbolic links and repeated separators are not resolved.
- Permission errors, a full disk, and changes to the file system by other processes are not modelled.
- Os.MakeDir: the new directory's name is appended at the end of the parent's listing; the system does not fix where a new entry appears, so this order is the model's choice, and `NfcAlbums.ActivateOnlyAdds` relies on it.
- `os.makedirs` creating missing ancestor directories: the core only creates an album inside an existing base, so `Os.MakeDir` creates one level.
- NfcAlbums.Nfc.ActivateId: requires the id to be a single path component (non-empty, no `/`, not `.` or `..`); the source accepts any string and `os.path.join` would then place the album elsewhere.
- NfcAlbums.Nfc.New: requires the same of its id.
- NfcAlbums.Nfc.MaybeCreatePictureDirectory: requires `pic_path == join(base_dir, id)` with a single-component id, as activation leaves them; calling it after the setters have made the two disagree is not modelled.
- Albums.Album.constructor: requires the path to be a directory; the failing case is modelled by `Albums.Album.Open`.
- Gpio.ActivePos: the override is typed as an optional selector position; the source returns any non-None value unchanged.
- Keyboard.KeyboardInput.SetPos: the stored value is an integer; the source stores any Python value, and `True` would compare equal to 1.
- The callbacks' arguments are typed as functions returning nothing; their behaviour is never invoked by the modelled code.
- icon.py, viewer.py, camera.py, window.py, tests/usePiCam2.py and constants.py (configuration values) are not part of this model.
- Mode switching, scrolling with wrap-around, capture and the recording timeout are not implemented by the modelled files and are not modelled.
