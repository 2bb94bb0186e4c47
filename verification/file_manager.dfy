/** `FileManager`: the saved-messages file helpers — extension choice, media download to a file,
    the media filter, and the upload directory listing. */
module Files {
  import opened Js
  import opened Telegram

  // ---------------------------------------------------------------------------
  // Paths: `path.join` and the location a joined path names once normalised
  // ---------------------------------------------------------------------------

  /** The `/`-separated parts of a path. */
  function Split(s: string): (r: seq<string>)
    ensures |r| >= 1
  {
    if s == [] then [""]
    else
      var rest := Split(s[1..]);
      if s[0] == '/' then [""] + rest else [[s[0]] + rest[0]] + rest[1..]
  }

  /** A string without a separator is one part. */
  lemma {:induction false} SplitPlain(s: string)
    requires '/' !in s
    ensures Split(s) == [s]
  {
    if s != [] {
      assert '/' !in s[1..] by {
        forall i | 0 <= i < |s[1..]| ensures s[1..][i] != '/' { assert s[1..][i] == s[i + 1]; }
      }
      SplitPlain(s[1..]);
      assert [s[0]] + s[1..] == s;
    }
  }

  /** Joining with a separator concatenates the parts. */
  lemma {:induction false} SplitJoin(dir: string, name: string)
    ensures Split(dir + "/" + name) == Split(dir) + Split(name)
  {
    if dir == [] {
      assert dir + "/" + name == ['/'] + name;
      assert (['/'] + name)[1..] == name;
    } else {
      var t := dir + "/" + name;
      assert t[0] == dir[0] && t[1..] == dir[1..] + "/" + name;
      SplitJoin(dir[1..], name);
      var head := Split(dir[1..]);
      var rest := head + Split(name);
      assert Split(t[1..]) == rest;
      if dir[0] == '/' {
        assert Split(t) == [""] + rest;
      } else {
        assert rest[0] == head[0] && rest[1..] == head[1..] + Split(name);
        assert Split(t) == [[dir[0]] + head[0]] + (head[1..] + Split(name));
      }
    }
  }

  /** Following `parts` from the directory `at` (a list of names from the root): empty parts and "."
      stay, ".." goes up (never above the root), any other part goes down into that name. */
  function Walk(at: seq<string>, parts: seq<string>): seq<string>
    decreases |parts|
  {
    if parts == [] then at
    else if parts[0] == "" || parts[0] == "." then Walk(at, parts[1..])
    else if parts[0] == ".." then Walk(if at == [] then [] else at[..|at| - 1], parts[1..])
    else Walk(at + [parts[0]], parts[1..])
  }

  /** Following two runs of parts is following the first, then the second. */
  lemma {:induction false} WalkAppend(at: seq<string>, a: seq<string>, b: seq<string>)
    decreases |a|
    ensures Walk(at, a + b) == Walk(Walk(at, a), b)
  {
    if a == [] {
      assert a + b == b;
    } else {
      assert (a + b)[0] == a[0] && (a + b)[1..] == a[1..] + b;
      var next := if a[0] == "" || a[0] == "." then at
                  else if a[0] == ".." then (if at == [] then [] else at[..|at| - 1])
                  else at + [a[0]];
      WalkAppend(next, a[1..], b);
    }
  }

  /** The location an absolute path names, as a list of names from the root (`path.resolve`). */
  function Resolve(path: string): seq<string> {
    Walk([], Split(path))
  }

  /** `path.join(dir, name)`: the name's parts are followed from the directory, so a name holding ".."
      can lead out of it. */
  function Join(dir: string, name: string): (r: string)
    ensures Resolve(r) == Walk(Resolve(dir), Split(name))
  {
    SplitJoin(dir, name);
    WalkAppend([], Split(dir), Split(name));
    dir + "/" + name
  }

  /** A name that stays where it is put: non-empty, not "." or "..", and without a separator. */
  predicate PlainName(name: string) {
    name != "" && name != "." && name != ".." && '/' !in name
  }

  /** A plain name joined to a directory names an entry directly inside that directory. */
  lemma PlainNameStaysInside(dir: string, name: string)
    requires PlainName(name)
    ensures Resolve(Join(dir, name)) == Resolve(dir) + [name]
  {
    SplitPlain(name);
    assert Walk(Resolve(dir), [name]) == Walk(Resolve(dir) + [name], []);
  }

  /** The location `target` lies inside the directory `dir`. */
  predicate Inside(dir: seq<string>, target: seq<string>) {
    |dir| < |target| && target[..|dir|] == dir
  }

  /** The table `mimeToExt` of `getFileExtension`. */
  const MimeToExt: map<string, string> := map[
    "image/jpeg" := ".jpg",
    "image/png" := ".png",
    "image/gif" := ".gif",
    "video/mp4" := ".mp4",
    "application/pdf" := ".pdf",
    "text/plain" := ".txt",
    "audio/mpeg" := ".mp3"
  ]

  /** Every extension `getFileExtension` can give. */
  const Extensions: set<string> := {".jpg", ".png", ".gif", ".mp4", ".pdf", ".txt", ".mp3", ".bin"}

  /** Property names every object literal inherits from `Object.prototype`. */
  const ObjectPrototypeKeys: set<string> := {
    "constructor", "hasOwnProperty", "isPrototypeOf", "propertyIsEnumerable", "toLocaleString",
    "toString", "valueOf", "__proto__", "__defineGetter__", "__defineSetter__",
    "__lookupGetter__", "__lookupSetter__"
  }

  /** The property key a missing MIME type turns into: `String(undefined)`. */
  function MimeKey(mimeType: Option<string>): string {
    match mimeType
    case Some(m) => m
    case None => "undefined"
  }

  /** What an expression yields: a string, or a non-string value inherited from `Object.prototype`. */
  datatype JsValue = Str(s: string) | Inherited(key: string)

  /** `getFileExtension` as written: `mimeToExt[mimeType] || ".bin"` looks the key up through the
      prototype chain, so an inherited member (always truthy) is returned instead of ".bin". */
  function FileExtensionAsWritten(message: Message): (r: JsValue)
    ensures r.Str? ==> r.s in Extensions
    ensures r.Inherited? <==>
              && message.media.Some? && message.media.value.document.Some?
              && MimeKey(message.media.value.document.value.mimeType) !in MimeToExt
              && MimeKey(message.media.value.document.value.mimeType) in ObjectPrototypeKeys
  {
    if message.media.None? then Str(".bin")
    else if message.media.value.document.Some? then
      var key := MimeKey(message.media.value.document.value.mimeType);
      if key in MimeToExt then Str(MimeToExt[key])
      else if key in ObjectPrototypeKeys then Inherited(key)
      else Str(".bin")
    else if message.media.value.photo.Some? then Str(".jpg")
    else Str(".bin")
  }

  /** A document whose MIME type is "toString" gets a function, not an extension, as written. */
  lemma FileExtensionAsWrittenInheritsMembers()
    ensures var m := Message(1, 0, None, Some(Media(None, Some(Document(Some("toString"), 10, None)))));
            FileExtensionAsWritten(m) == Inherited("toString") && GetFileExtension(m) == ".bin"
  {
  }

  /** `getFileExtension(message)` with the table consulted for its own entries only: a document by its
      MIME type (".bin" when unlisted), a photo as ".jpg", anything else — including a message without
      media, whose property access throws and is caught — as ".bin". */
  function GetFileExtension(message: Message): (r: string)
    ensures r in Extensions
    ensures message.media.Some? && message.media.value.document.Some? ==>
              var key := MimeKey(message.media.value.document.value.mimeType);
              r == if key in MimeToExt then MimeToExt[key] else ".bin"
    ensures message.media.Some? && message.media.value.document.None? && message.media.value.photo.Some? ==>
              r == ".jpg"
    ensures message.media.None? || (message.media.value.document.None? && message.media.value.photo.None?) ==>
              r == ".bin"
  {
    if message.media.None? then ".bin"
    else if message.media.value.document.Some? then
      var key := MimeKey(message.media.value.document.value.mimeType);
      if key in MimeToExt then MimeToExt[key] else ".bin"
    else if message.media.value.photo.Some? then ".jpg"
    else ".bin"
  }

  /** The two agree except on documents whose MIME type names an inherited member. */
  lemma {:induction false} AsWrittenAgreesOffPrototypeKeys(message: Message)
    requires message.media.Some? && message.media.value.document.Some? ==>
               MimeKey(message.media.value.document.value.mimeType) !in ObjectPrototypeKeys
    ensures FileExtensionAsWritten(message) == Str(GetFileExtension(message))
  {
  }

  /** The file name a download without a custom name gets at time `now`:
      `downloaded_`, the time in decimal, then the extension. */
  function DefaultFileName(now: nat, message: Message): (r: string)
    ensures StartsWith(r, "downloaded_")
    ensures var ext := GetFileExtension(message);
            && |r| >= |"downloaded_"| + |ext|
            && r[|r| - |ext|..] == ext
            && var digits := r[|"downloaded_"|..|r| - |ext|];
               && AllDigits(digits) && DecimalValue(digits) == now
               && digits != [] && (digits[0] == '0' ==> digits == "0")
    ensures PlainName(r)
  {
    var digits, ext := DecimalString(now), GetFileExtension(message);
    DecimalRoundTrip(now);
    assert '/' !in ext by { assert forall e :: e in Extensions ==> '/' !in e; }
    assert '/' !in digits by { assert AllDigits(digits); }
    ThreePartName("downloaded_", digits, ext);
    "downloaded_" + digits + ext
  }

  /** The middle of `prefix + middle + suffix` is recovered by slicing off the outer parts. */
  lemma ThreePartName(prefix: string, middle: string, suffix: string)
    ensures var r := prefix + middle + suffix;
            && r[|prefix|..|r| - |suffix|] == middle
            && r[|r| - |suffix|..] == suffix
  {
    var r := prefix + middle + suffix;
    assert r[|prefix|..|r| - |suffix|] == middle;
  }

  /** Default names made at different times never collide: the digits read back to the time. */
  lemma DefaultNamesDistinct(t1: nat, t2: nat, message: Message)
    requires t1 != t2
    ensures DefaultFileName(t1, message) != DefaultFileName(t2, message)
  {
  }

  /** The name `downloadMediaFromMessage` writes under, as written: a non-empty custom name is used
      whatever it holds. */
  function DownloadNameAsWritten(customFileName: Option<string>, now: nat, message: Message): (r: string)
    ensures Truthy(customFileName) ==> r == customFileName.value
    ensures !Truthy(customFileName) ==> r == DefaultFileName(now, message)
  {
    if Truthy(customFileName) then customFileName.value else DefaultFileName(now, message)
  }

  /** As written, the request's `fileName` "../x" makes the download land outside the downloads
      directory "/d", in "/x". */
  lemma CustomNameEscapesDownloads(now: nat, message: Message)
    ensures var target := Resolve(Join("/d", DownloadNameAsWritten(Some("../x"), now, message)));
            target == ["x"] && !Inside(Resolve("/d"), target)
  {
    assert "/d" == "" + "/" + "d";
    SplitJoin("", "d");
    SplitPlain("");
    SplitPlain("d");
    assert Resolve("/d") == ["d"];
    assert "../x" == ".." + "/" + "x";
    SplitJoin("..", "x");
    SplitPlain("..");
    SplitPlain("x");
    assert Split("../x") == ["..", "x"];
    assert DownloadNameAsWritten(Some("../x"), now, message) == "../x";
    assert Walk(["d"], ["..", "x"]) == Walk([], ["x"]) == Walk(["x"], []) == ["x"];
  }

  /** The name the download is written under: a custom name only when it is a plain name, otherwise
      the default name, so the file always lands directly in the downloads directory. */
  function DownloadName(customFileName: Option<string>, now: nat, message: Message): (r: string)
    ensures PlainName(r)
    ensures Truthy(customFileName) && PlainName(customFileName.value) ==> r == customFileName.value
    ensures !(Truthy(customFileName) && PlainName(customFileName.value)) ==> r == DefaultFileName(now, message)
    ensures forall dir :: Resolve(Join(dir, r)) == Resolve(dir) + [r]
  {
    var r := if Truthy(customFileName) && PlainName(customFileName.value) then customFileName.value
             else DefaultFileName(now, message);
    assert forall dir :: Resolve(Join(dir, r)) == Resolve(dir) + [r] by {
      forall dir ensures Resolve(Join(dir, r)) == Resolve(dir) + [r] {
        PlainNameStaysInside(dir, r);
      }
    }
    r
  }

  /** The two agree on every plain custom name and whenever no custom name is given. */
  lemma DownloadNameAgreesOnPlainNames(customFileName: Option<string>, now: nat, message: Message)
    requires Truthy(customFileName) ==> PlainName(customFileName.value)
    ensures DownloadName(customFileName, now, message) == DownloadNameAsWritten(customFileName, now, message)
  {
  }

  /** The disk as a map from path to contents. */
  class FileSystem {
    var files: map<string, Buffer>
    /** The error `fs.writeFile` rejects with for a path, if any (a directory not yet created, say). */
    const writeError: string -> Option<JsError>

    constructor (writeError: string -> Option<JsError>)
      ensures files == map[] && this.writeError == writeError
    {
      files := map[];
      this.writeError := writeError;
    }

    /** `fs.writeFile(path, data)`: a refused write changes nothing. */
    method WriteFile(path: string, data: Buffer) returns (err: Option<JsError>)
      modifies this
      ensures err == writeError(path)
      ensures err.Some? ==> files == old(files)
      ensures err.None? ==> files == old(files)[path := data]
    {
      err := writeError(path);
      if err.None? {
        files := files[path := data];
      }
    }
  }

  class FileManager {
    const client: Client
    const uploadsDir: string
    const downloadsDir: string

    /** `new FileManager(client)` in the directory `dirname`; creating the directories is left to the disk. */
    constructor (client: Client, dirname: string)
      ensures this.client == client
      ensures uploadsDir == Join(dirname, "uploads") && downloadsDir == Join(dirname, "downloads")
    {
      this.client := client;
      uploadsDir := Join(dirname, "uploads");
      downloadsDir := Join(dirname, "downloads");
    }

    /** `getFilesFromSavedMessages(limit)`: the fetched messages that carry media, in order;
        a failed fetch is rethrown. */
    function GetFilesFromSavedMessages(limit: Option<int>): (r: Result<seq<Message>, JsError>)
      ensures var fetched := client.getMessages(Some(limit.GetOr(10)), 0);
              match fetched
              case Err(e) => r == Err(e)
              case Ok(messages) =>
                && r.Ok?
                && r.value == WithMedia(messages)
                && (forall i :: 0 <= i < |r.value| ==> r.value[i].media.Some?)
                && (forall i :: 0 <= i < |messages| && messages[i].media.Some? ==> messages[i] in r.value)
                && (forall m :: m in r.value ==> m in messages)
    {
      match client.getMessages(Some(limit.GetOr(10)), 0)
      case Err(e) => Err(e)
      case Ok(messages) => Ok(WithMedia(messages))
    }

    /** `files.map((file) => path.join(uploadsDir, file))`. */
    function UploadPaths(names: seq<string>): (r: seq<string>)
      ensures |r| == |names|
      ensures forall i :: 0 <= i < |names| ==> r[i] == Join(uploadsDir, names[i])
    {
      if names == [] then [] else [Join(uploadsDir, names[0])] + UploadPaths(names[1..])
    }

    /** `listUploadFiles()` given what `fs.readdir(uploadsDir)` yields: one path per entry, or none
        when reading the directory fails. */
    function ListUploadFiles(listing: Result<seq<string>, JsError>): (r: seq<string>)
      ensures listing.Err? ==> r == []
      ensures listing.Ok? ==> |r| == |listing.value|
      ensures listing.Ok? ==> forall i :: 0 <= i < |r| ==> r[i] == Join(uploadsDir, listing.value[i])
    {
      match listing
      case Err(_) => []
      case Ok(names) => UploadPaths(names)
    }

    /** `downloadMediaFromMessage(message, customFileName)` at time `now`, writing to `fs`. */
    method DownloadMediaFromMessage(message: Message, customFileName: Option<string>, now: nat, fs: FileSystem)
      returns (r: Result<Option<string>, JsError>, calls: seq<Call>)
      modifies fs
      // no media: nothing downloaded, nothing written
      ensures message.media.None? ==> r == Ok(None) && calls == [] && fs.files == old(fs.files)
      ensures message.media.Some? ==> calls == [DownloadMedia(message.media.value, None)]
      ensures message.media.Some? ==>
                match client.downloadMedia(message.media.value, None)
                case Err(e) => r == Err(e) && fs.files == old(fs.files)
                case Ok(buffer) =>
                  if buffer.None? || buffer.value == [] then
                    // a missing or empty buffer: nothing written
                    r == Ok(None) && fs.files == old(fs.files)
                  else
                    var path := Join(downloadsDir, DownloadName(customFileName, now, message));
                    match fs.writeError(path)
                    // a refused write is passed on
                    case Some(e) => r == Err(e) && fs.files == old(fs.files)
                    case None => r == Ok(Some(path)) && fs.files == old(fs.files)[path := buffer.value]
      // whatever is written lands directly inside the downloads directory
      ensures r.Ok? && r.value.Some? ==>
                Resolve(r.value.value) == Resolve(downloadsDir) + [DownloadName(customFileName, now, message)]
                && Inside(Resolve(downloadsDir), Resolve(r.value.value))
    {
      if message.media.None? {
        return Ok(None), [];
      }
      calls := [DownloadMedia(message.media.value, None)];
      var download := client.downloadMedia(message.media.value, None);
      if download.Err? {
        return Err(download.error), calls;
      }
      var buffer := download.value;
      if buffer.None? || |buffer.value| == 0 {
        return Ok(None), calls;
      }
      var fileName := DownloadName(customFileName, now, message);
      var filePath := Join(downloadsDir, fileName);
      var writeError := fs.WriteFile(filePath, buffer.value);
      if writeError.Some? {
        return Err(writeError.value), calls;
      }
      r := Ok(Some(filePath));
    }
  }
}
