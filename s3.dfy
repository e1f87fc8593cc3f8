/** The storage adapter: how keys are prefixed with the study folder, how a retrieval is
    retried, how listings are collected, and how the storage paths of raw data, chunks and
    keys are built. The bucket is a map from key to stored body. */
module S3 {
  import opened Wrappers
  import opened PyStrings
  import opened Constants
  import opened ParseFilename

  /** The key that delete, exists and move address: the study folder is joined in front with
      posixpath.join unless the caller passes a raw path. */
  function JoinedKey(keyPath: string, studyObjectId: string, rawPath: bool): (key: string)
    ensures rawPath || StartsWith(keyPath, "/") ==> key == keyPath
    ensures (!rawPath && |studyObjectId| > 0 && studyObjectId[|studyObjectId| - 1] != '/'
             && (|keyPath| == 0 || keyPath[0] != '/')) ==> key == studyObjectId + "/" + keyPath
  {
    if rawPath then keyPath else PathJoin(studyObjectId, keyPath)
  }

  /** The key that upload and retrieve address: the study folder and a '/' are concatenated
      in front unless the caller passes a raw path. */
  function ConcatenatedKey(keyPath: string, studyObjectId: string, rawPath: bool): (key: string)
    ensures rawPath ==> key == keyPath
    ensures !rawPath ==> (|key| == |studyObjectId| + 1 + |keyPath| && key[..|studyObjectId|] == studyObjectId
      && key[|studyObjectId|] == '/' && key[|studyObjectId| + 1..] == keyPath)
  {
    if rawPath then keyPath else studyObjectId + "/" + keyPath
  }

  /** Both prefixing forms put the key under "<study>/" for an ordinary study id and a
      relative key, and leave a raw path unchanged. */
  lemma PrefixFormsAgree(keyPath: string, studyObjectId: string, rawPath: bool)
    requires |studyObjectId| > 0 && studyObjectId[|studyObjectId| - 1] != '/'
    requires |keyPath| == 0 || keyPath[0] != '/'
    ensures JoinedKey(keyPath, studyObjectId, rawPath) == ConcatenatedKey(keyPath, studyObjectId, rawPath)
    ensures rawPath ==> ConcatenatedKey(keyPath, studyObjectId, rawPath) == keyPath
    ensures !rawPath ==> ConcatenatedKey(keyPath, studyObjectId, rawPath) == studyObjectId + "/" + keyPath
  {
    if !rawPath {
      PathJoinPlain(studyObjectId, keyPath);
    }
  }

  /** The two forms differ on an absolute key: posixpath.join drops the study folder. */
  lemma PrefixFormsDifferOnAbsoluteKey()
    ensures JoinedKey("/k", "s", false) == "/k"
    ensures ConcatenatedKey("/k", "s", false) == "s//k"
  {
  }

  /** One page of a bucket listing; `None` when the page has no Contents entry. */
  datatype Page = Page(contents: Option<seq<string>>)

  /** A listed key with '/' stripped from both ends. */
  function StripSlashes(key: string): string
  {
    Strip(key, {'/'})
  }

  /** `f` applied to every key. */
  function MapKeys(keys: seq<string>, f: string -> string): (r: seq<string>)
    ensures |r| == |keys|
  {
    if |keys| == 0 then [] else MapKeys(keys[..|keys| - 1], f) + [f(keys[|keys| - 1])]
  }

  /** The keys of one page through `f`; none for a page without Contents. */
  function PageKeys(p: Page, f: string -> string): seq<string>
  {
    if p.contents.None? then [] else MapKeys(p.contents.value, f)
  }

  /** What the materialised listing collects: every page in order, skipping pages without
      Contents. */
  function Listing(pages: seq<Page>, f: string -> string): seq<string>
  {
    if |pages| == 0 then [] else Listing(pages[..|pages| - 1], f) + PageKeys(pages[|pages| - 1], f)
  }

  /** What the generator listing yields: it stops at the first page without Contents. */
  function GeneratedListing(pages: seq<Page>, f: string -> string): seq<string>
  {
    if |pages| == 0 || pages[0].contents.None? then []
    else MapKeys(pages[0].contents.value, f) + GeneratedListing(pages[1..], f)
  }

  /** The materialised listing, collected page by page and key by key. */
  method ListFiles(pages: seq<Page>) returns (items: seq<string>)
    ensures items == Listing(pages, StripSlashes)
  {
    items := [];
    var i := 0;
    while i < |pages|
      invariant 0 <= i <= |pages|
      invariant items == Listing(pages[..i], StripSlashes)
    {
      var stripped := [];
      if pages[i].contents.Some? {
        stripped := MapPageKeys(pages[i].contents.value, StripSlashes);
      }
      assert pages[..i + 1][..i] == pages[..i];
      items := items + stripped;
      i := i + 1;
    }
    assert pages[..i] == pages;
  }

  /** The keys of one page through `f`, key by key (`f` is the '/'-strip of the listing). */
  method MapPageKeys(keys: seq<string>, f: string -> string) returns (mapped: seq<string>)
    ensures mapped == MapKeys(keys, f)
  {
    mapped := [];
    var j := 0;
    while j < |keys|
      invariant 0 <= j <= |keys|
      invariant mapped == MapKeys(keys[..j], f)
    {
      assert keys[..j + 1][..j] == keys[..j];
      mapped := mapped + [f(keys[j])];
      j := j + 1;
    }
    assert keys[..j] == keys;
  }

  /** The listing of a page followed by more pages. */
  lemma {:induction false} ListingCons(p: Page, rest: seq<Page>, f: string -> string)
    ensures Listing([p] + rest, f) == PageKeys(p, f) + Listing(rest, f)
    decreases |rest|
  {
    if |rest| == 0 {
      ListingSnoc([], p, f);
      assert [] + [p] == [p] + rest;
    } else {
      var n := |rest| - 1;
      ListingCons(p, rest[..n], f);
      ListingConsStep(p, rest[..n], rest[n], f);
      assert rest[..n] + [rest[n]] == rest;
    }
  }

  /** The step of ListingCons: one more page at the end. */
  lemma ListingConsStep(p: Page, init: seq<Page>, last: Page, f: string -> string)
    requires Listing([p] + init, f) == PageKeys(p, f) + Listing(init, f)
    ensures Listing([p] + (init + [last]), f) == PageKeys(p, f) + Listing(init + [last], f)
  {
    assert [p] + (init + [last]) == ([p] + init) + [last];
    ListingSnoc([p] + init, last, f);
    ListingSnoc(init, last, f);
    ConcatAssoc(PageKeys(p, f), Listing(init, f), PageKeys(last, f));
  }

  /** The listing of some pages followed by one more. */
  lemma ListingSnoc(init: seq<Page>, last: Page, f: string -> string)
    ensures Listing(init + [last], f) == Listing(init, f) + PageKeys(last, f)
  {
    assert (init + [last])[..|init|] == init;
  }

  /** The generator yields a prefix of the materialised listing, and all of it when every
      page has Contents. */
  lemma {:induction false} GeneratedIsPrefix(pages: seq<Page>, f: string -> string)
    ensures |GeneratedListing(pages, f)| <= |Listing(pages, f)|
    ensures GeneratedListing(pages, f) == Listing(pages, f)[..|GeneratedListing(pages, f)|]
    ensures (forall k :: 0 <= k < |pages| ==> pages[k].contents.Some?) ==> GeneratedListing(pages, f) == Listing(pages, f)
    decreases |pages|
  {
    if |pages| > 0 {
      assert pages == [pages[0]] + pages[1..];
      ListingCons(pages[0], pages[1..], f);
      if pages[0].contents.Some? {
        GeneratedIsPrefix(pages[1..], f);
      }
    }
  }

  /** An empty page in front of a full one: the generator yields nothing, the materialised
      listing yields the full page. */
  lemma ListingsDifferOnEmptyPage()
    ensures GeneratedListing([Page(None), Page(Some(["a"]))], StripSlashes) == []
    ensures Listing([Page(None), Page(Some(["a"]))], StripSlashes) == ["a"]
  {
    assert StripSlashes("a") == "a";
    assert [Page(None), Page(Some(["a"]))][..1] == [Page(None)];
    assert [Page(None)][..0] == [];
    assert ["a"][..0] == [];
  }

  /** The retrieval loop: attempt `tried` is made, and on failure another follows while
      retries remain. `attempt(i)` is the outcome of the i-th request, `None` when it raised.
      The result carries the body, or the failure of the last attempt, and the number of
      attempts made. */
  function DoRetrieve(numberRetries: nat, attempt: nat -> Option<string>, tried: nat): (r: (Result<string, string>, nat))
    ensures 1 <= r.1 <= numberRetries + 1
    ensures forall j :: tried <= j < tried + r.1 - 1 ==> attempt(j).None?
    ensures r.0.Ok? <==> attempt(tried + r.1 - 1).Some?
    ensures r.0.Ok? ==> attempt(tried + r.1 - 1) == Some(r.0.value)
    ensures r.0.Err? ==> r.1 == numberRetries + 1
    decreases numberRetries
  {
    match attempt(tried)
    case Some(body) => (Ok(body), 1)
    case None =>
      if numberRetries > 0 then
        var (res, n) := DoRetrieve(numberRetries - 1, attempt, tried + 1);
        (res, n + 1)
      else (Err("retrieval failed"), 1)
  }

  /** The first successful attempt within the budget is the one returned. */
  lemma RetrieveReturnsFirstSuccess(numberRetries: nat, attempt: nat -> Option<string>, i: nat)
    requires i <= numberRetries && attempt(i).Some?
    requires forall j :: 0 <= j < i ==> attempt(j).None?
    ensures DoRetrieve(numberRetries, attempt, 0) == (Ok(attempt(i).value), i + 1)
  {
  }

  /** A retrieval succeeds exactly when one of its n+1 attempts does. */
  lemma RetrieveSucceedsIffSomeAttemptDoes(numberRetries: nat, attempt: nat -> Option<string>)
    ensures DoRetrieve(numberRetries, attempt, 0).0.Ok? <==>
      exists i :: 0 <= i <= numberRetries && attempt(i).Some?
  {
    var r := DoRetrieve(numberRetries, attempt, 0);
    if r.0.Ok? {
      assert attempt(r.1 - 1).Some?;
    }
  }

  /** The outcome of each request for `key` in a bucket holding `objects`: it fails while
      `transient(i)` holds (a service error) or when the key is absent. */
  function AttemptOutcomes(objects: map<string, string>, key: string, transient: nat -> bool): (attempt: nat -> Option<string>)
    ensures forall i: nat :: attempt(i).Some? <==> !transient(i) && key in objects
    ensures forall i: nat :: attempt(i).Some? ==> attempt(i).value == objects[key]
  {
    (i: nat) => if !transient(i) && key in objects then Some(objects[key]) else None
  }

  /** Whether one of the n+1 attempts meets no service error. */
  predicate SomeAttemptClear(numberRetries: nat, transient: nat -> bool)
  {
    exists i :: 0 <= i <= numberRetries && !transient(i)
  }

  /** The storage bucket. */
  class Bucket {
    /** Stored bodies by key. */
    var objects: map<string, string>

    constructor ()
      ensures objects == map[]
    {
      objects := map[];
    }

    /** s3_upload: the body is encrypted for the study and stored under the prefixed key. */
    method Upload(keyPath: string, data: string, studyObjectId: string, rawPath: bool,
                  encrypt: (string, string) -> string)
      modifies this
      ensures objects == old(objects)[ConcatenatedKey(keyPath, studyObjectId, rawPath) := encrypt(data, studyObjectId)]
    {
      objects := objects[ConcatenatedKey(keyPath, studyObjectId, rawPath) := encrypt(data, studyObjectId)];
    }

    /** s3_upload_public: the body is stored unencrypted and its public URL returned. */
    method UploadPublic(keyPath: string, data: string, studyObjectId: string, rawPath: bool,
                        bucketName: string) returns (url: string)
      modifies this
      ensures objects == old(objects)[ConcatenatedKey(keyPath, studyObjectId, rawPath) := data]
      ensures url == "https://" + bucketName + ".s3.amazonaws.com/" + ConcatenatedKey(keyPath, studyObjectId, rawPath)
    {
      var key := ConcatenatedKey(keyPath, studyObjectId, rawPath);
      objects := objects[key := data];
      url := "https://" + bucketName + ".s3.amazonaws.com/" + key;
    }

    /** s3_retrieve: the retry loop over requests that fail while `transient(i)` holds or the
        key is absent; the body of the first success is decrypted. It succeeds exactly when
        the key is stored and some attempt within the budget meets no service error. */
    method Retrieve(keyPath: string, studyObjectId: string, rawPath: bool, numberRetries: nat,
                    transient: nat -> bool, decrypt: (string, string) -> string)
      returns (r: Result<string, string>, attempts: nat)
      ensures var outcome := DoRetrieve(numberRetries, AttemptOutcomes(objects, ConcatenatedKey(keyPath, studyObjectId, rawPath), transient), 0);
        attempts == outcome.1 && r == (if outcome.0.Ok? then Ok(decrypt(outcome.0.value, studyObjectId)) else outcome.0)
      ensures r.Ok? <==> ConcatenatedKey(keyPath, studyObjectId, rawPath) in objects && SomeAttemptClear(numberRetries, transient)
      ensures attempts <= numberRetries + 1
      ensures ConcatenatedKey(keyPath, studyObjectId, rawPath) !in objects ==> r.Err? && attempts == numberRetries + 1
      ensures r.Ok? ==> (ConcatenatedKey(keyPath, studyObjectId, rawPath) in objects
        && r.value == decrypt(objects[ConcatenatedKey(keyPath, studyObjectId, rawPath)], studyObjectId))
    {
      var key := ConcatenatedKey(keyPath, studyObjectId, rawPath);
      var attempt := AttemptOutcomes(objects, key, transient);
      var outcome := DoRetrieve(numberRetries, attempt, 0);
      RetrieveSucceedsIffSomeAttemptDoes(numberRetries, attempt);
      attempts := outcome.1;
      match outcome.0
      case Ok(b) => r := Ok(decrypt(b, studyObjectId));
      case Err(e) => r := Err(e);
    }

    /** s3_delete. */
    method Delete(keyPath: string, studyObjectId: string, rawPath: bool)
      modifies this
      ensures objects == old(objects) - {JoinedKey(keyPath, studyObjectId, rawPath)}
    {
      objects := objects - {JoinedKey(keyPath, studyObjectId, rawPath)};
    }

    /** s3_exists. */
    method Exists(keyPath: string, studyObjectId: string, rawPath: bool) returns (b: bool)
      ensures b <==> JoinedKey(keyPath, studyObjectId, rawPath) in objects
    {
      b := JoinedKey(keyPath, studyObjectId, rawPath) in objects;
    }

    /** s3_move: the copy comes first and raises when it fails (the source is missing, or
        `copyFails` models a service error); only a successful copy is followed by the
        deletion of the source. */
    method Move(source: string, destination: string, studyObjectId: string, rawPath: bool, copyFails: bool)
      returns (r: Result<(), string>)
      modifies this
      ensures var src := JoinedKey(source, studyObjectId, rawPath);
        r.Err? <==> copyFails || src !in old(objects)
      ensures r.Err? ==> objects == old(objects)
      ensures var src := JoinedKey(source, studyObjectId, rawPath);
        var dst := JoinedKey(destination, studyObjectId, rawPath);
        r.Ok? ==> objects == old(objects)[dst := old(objects)[src]] - {src}
    {
      var src := JoinedKey(source, studyObjectId, rawPath);
      var dst := JoinedKey(destination, studyObjectId, rawPath);
      if copyFails || src !in objects {
        r := Err("Could not copy key");
        return;
      }
      objects := objects[dst := objects[src]];
      objects := objects - {src};
      r := Ok(());
    }
  }

  /** A successful move to a different key leaves the body at the destination and nothing at
      the source. */
  lemma MoveRelocates(before: map<string, string>, src: string, dst: string)
    requires src in before && src != dst
    ensures dst in (before[dst := before[src]] - {src})
    ensures (before[dst := before[src]] - {src})[dst] == before[src]
    ensures src !in (before[dst := before[src]] - {src})
  {
  }

  /** The private and public key paths of a participant: for an ordinary study id and
      participant id, "KEYS/<study>/<participant>_private" and "..._public". */
  function KeyPaths(studyId: string, participantId: string): (paths: (string, string))
    ensures (|studyId| > 0 && studyId[0] != '/' && studyId[|studyId| - 1] != '/'
             && |participantId| > 0 && participantId[0] != '/') ==>
      paths == ("KEYS/" + studyId + "/" + participantId + "_private", "KEYS/" + studyId + "/" + participantId + "_public")
  {
    var folder := PathJoin(KeyFolder, studyId);
    assert (|studyId| > 0 && studyId[0] != '/' && studyId[|studyId| - 1] != '/'
            && |participantId| > 0 && participantId[0] != '/') ==>
      PathJoin(folder, participantId + "_private") == "KEYS/" + studyId + "/" + participantId + "_private"
      && PathJoin(folder, participantId + "_public") == "KEYS/" + studyId + "/" + participantId + "_public" by {
      if |studyId| > 0 && studyId[0] != '/' && studyId[|studyId| - 1] != '/'
         && |participantId| > 0 && participantId[0] != '/' {
        PathJoinPlain(KeyFolder, studyId);
        assert folder[|folder| - 1] == studyId[|studyId| - 1];
        assert (participantId + "_private")[0] == participantId[0];
        assert (participantId + "_public")[0] == participantId[0];
        PathJoinPlain(folder, participantId + "_private");
        PathJoinPlain(folder, participantId + "_public");
      }
    }
    (PathJoin(folder, participantId + "_private"), PathJoin(folder, participantId + "_public"))
  }

  /** The raw-data path of an uploaded file: for an ordinary study id and a relative file
      name, the file name under "RAW_DATA/<study>/". */
  function RawDataPath(studyId: string, filename: string): (path: string)
    ensures |studyId| > 0 && '/' !in studyId && |filename| > 0 && filename[0] != '/' ==>
      path == RawDataFolder + "/" + studyId + "/" + filename
  {
    var folder := PathJoin(RawDataFolder, studyId);
    assert |studyId| > 0 && '/' !in studyId && |filename| > 0 && filename[0] != '/' ==>
      PathJoin(folder, filename) == RawDataFolder + "/" + studyId + "/" + filename by {
      if |studyId| > 0 && '/' !in studyId && |filename| > 0 && filename[0] != '/' {
        assert studyId[0] in studyId;
        assert studyId[|studyId| - 1] in studyId;
        PathJoinPlain(RawDataFolder, studyId);
        assert folder[|folder| - 1] == studyId[|studyId| - 1];
        PathJoinPlain(folder, filename);
      }
    }
    PathJoin(folder, filename)
  }

  /** The chunk path of a time bin; `timeString` renders seconds since the epoch (UTC). When
      no part holds a '/', the path splits into the chunk folder, the study, the user, the
      data type and "<time>.csv". */
  function ChunkPath(studyId: string, userId: string, dataType: string, timeBin: int,
                     timeString: int -> string): (path: string)
    ensures '/' !in studyId && '/' !in userId && '/' !in dataType && '/' !in timeString(timeBin * ChunkTimesliceQuantum) ==>
      Split(path, '/') == [ChunksFolder, studyId, userId, dataType, timeString(timeBin * ChunkTimesliceQuantum) + ".csv"]
  {
    var name := timeString(timeBin * ChunkTimesliceQuantum) + ".csv";
    assert '/' !in studyId && '/' !in userId && '/' !in dataType && '/' !in timeString(timeBin * ChunkTimesliceQuantum) ==>
      Split(ChunksFolder + "/" + studyId + "/" + userId + "/" + dataType + "/" + name, '/')
        == [ChunksFolder, studyId, userId, dataType, name] by {
      if '/' !in studyId && '/' !in userId && '/' !in dataType && '/' !in timeString(timeBin * ChunkTimesliceQuantum) {
        assert '/' !in ChunksFolder && '/' !in ".csv";
        FiveSegments(ChunksFolder, studyId, userId, dataType, name);
      }
    }
    ChunksFolder + "/" + studyId + "/" + userId + "/" + dataType + "/" + name
  }

  /** A time stamp of decimal digits, as phones put in upload names. */
  predicate DigitStamp(stamp: string)
  {
    |stamp| > 0 && forall k :: 0 <= k < |stamp| ==> '0' <= stamp[k] <= '9'
  }

  /** A digit stamp holds no separator, no dot and no chunk-folder name, nor does its
      ".csv" name. */
  lemma DigitStampPlain(stamp: string)
    requires DigitStamp(stamp)
    ensures '/' !in stamp && '_' !in stamp && '.' !in stamp
    ensures !Contains(stamp + ".csv", ChunksFolder)
  {
    forall k | 0 <= k < |stamp|
      ensures stamp[k] != '/' && stamp[k] != '_' && stamp[k] != '.' && stamp[k] != 'C'
    {
    }
    var name := stamp + ".csv";
    forall k | 0 <= k < |name|
      ensures name[k] != 'C'
    {
      if k < |stamp| {
        assert name[k] == stamp[k];
      }
    }
    NotContainsByChar(name, ChunksFolder, 0);
  }

  /** The folder names of a five-segment raw-data key. */
  lemma RawKeyMarkers(studyId: string, patientId: string, upload: string, name: string)
    requires '/' !in studyId && '/' !in patientId && '/' !in upload && '/' !in name
    requires !Contains(studyId, ChunksFolder) && !Contains(patientId, ChunksFolder)
    requires !Contains(upload, ChunksFolder) && !Contains(name, ChunksFolder)
    ensures var key := RawDataFolder + "/" + studyId + "/" + patientId + "/" + upload + "/" + name;
      !Contains(key, ChunksFolder) && Contains(key, RawDataFolder)
  {
    var segments := [RawDataFolder, studyId, patientId, upload, name];
    var key := RawDataFolder + "/" + studyId + "/" + patientId + "/" + upload + "/" + name;
    var rest := "/" + studyId + "/" + patientId + "/" + upload + "/" + name;
    ContainsStart(RawDataFolder, rest);
    assert key == RawDataFolder + rest;
    JoinFive(RawDataFolder, studyId, patientId, upload, name);
    assert !Contains(RawDataFolder, ChunksFolder) by {
      assert |RawDataFolder| < |ChunksFolder|;
    }
    assert forall k :: 0 <= k < 5 ==> !Contains(segments[k], ChunksFolder);
    if Contains(key, ChunksFolder) {
      ContainsJoin(segments, '/', ChunksFolder);
      assert false;
    }
  }

  /** What the parser sees of a five-segment raw-data key. */
  lemma RawKeyShape(studyId: string, patientId: string, upload: string, stamp: string)
    requires '/' !in studyId && '/' !in patientId && '/' !in upload && DigitStamp(stamp)
    requires !Contains(studyId, ChunksFolder) && !Contains(patientId, ChunksFolder) && !Contains(upload, ChunksFolder)
    ensures var key := RawDataFolder + "/" + studyId + "/" + patientId + "/" + upload + "/" + (stamp + ".csv");
      RStrip(key, Whitespace) == key
      && Split(key, '/') == [RawDataFolder, studyId, patientId, upload, stamp + ".csv"]
      && Extension(Basename(key)) == "csv"
      && !Contains(key, ChunksFolder) && Contains(key, RawDataFolder)
  {
    var name := stamp + ".csv";
    DigitStampPlain(stamp);
    CsvName(stamp);
    assert '/' !in RawDataFolder;
    FiveSegments(RawDataFolder, studyId, patientId, upload, name);
    NoTrailingWhitespace(RawDataFolder + "/" + studyId + "/" + patientId + "/" + upload + "/", name);
    RawKeyMarkers(studyId, patientId, upload, name);
  }

  /** What `ParseFilename` does with a five-segment raw-data key: it reads the fields of the
      segments under the new raw layout, where the survey position holds the file name. */
  lemma ParseRawKey(key: string, studyId: string, patientId: string, upload: string, name: string)
    requires RStrip(key, Whitespace) == key
    requires Split(key, '/') == [RawDataFolder, studyId, patientId, upload, name]
    requires Extension(Basename(key)) == "csv" && !Contains(key, ChunksFolder) && Contains(key, RawDataFolder)
    ensures var fields := ReadFields(Segments(Some(studyId), Some(patientId), Some(upload), Some(name), None, Some(name)), false);
      ParseFilename.ParseFilename(key) == if fields.Err? then Err(fields.error)
        else Ok(fields.value.(filename := key, fileType := Some(RawData), fileExtension := Some("csv")))
  {
    assert "csv" in AllowedExtensions;
  }

  /** Round trip of a raw-data path: an upload named `<patient>/<upload>/<stamp>.csv` is read
      back as the study, the patient, the stream the upload name maps to and the stamp; only
      an image-survey upload, whose layout needs more segments, raises IndexError. */
  lemma RawDataPathRoundTrip(studyId: string, patientId: string, upload: string, stamp: string)
    requires |studyId| > 0 && '/' !in studyId && !Contains(studyId, ChunksFolder)
    requires |patientId| > 0 && '/' !in patientId && !Contains(patientId, ChunksFolder)
    requires '/' !in upload && !Contains(upload, ChunksFolder)
    requires upload in UploadFileTypeMapping
    requires !Contains(upload, Identifiers) && !Contains(upload, "ios")
    requires DigitStamp(stamp)
    ensures var key := RawDataPath(studyId, patientId + "/" + upload + "/" + (stamp + ".csv"));
      ParseFilename.ParseFilename(key)
        == if UploadFileTypeMapping[upload] == ImageFile then Err(IndexError)
           else Ok(ParsedFile(key, Some(RawData), Some("csv"), Some(studyId), Some(patientId),
                              Some(UploadFileTypeMapping[upload]), Some(stamp), None, None))
  {
    var filename := patientId + "/" + upload + "/" + (stamp + ".csv");
    assert filename[0] == patientId[0] && patientId[0] in patientId;
    var key := RawDataPath(studyId, filename);
    assert key == RawDataFolder + "/" + studyId + "/" + patientId + "/" + upload + "/" + (stamp + ".csv");
    RawKeyShape(studyId, patientId, upload, stamp);
    ParseRawKey(key, studyId, patientId, upload, stamp + ".csv");
    DigitStampPlain(stamp);
    TimeStringOf(stamp);
    RawFields(studyId, patientId, upload, stamp + ".csv", stamp);
  }

  /** The fields the new raw layout reads from the segments of such a key. */
  lemma RawFields(studyId: string, patientId: string, upload: string, name: string, stamp: string)
    requires upload in UploadFileTypeMapping
    requires !Contains(upload, Identifiers) && !Contains(upload, "ios")
    requires TimeString(name) == stamp
    ensures ReadFields(Segments(Some(studyId), Some(patientId), Some(upload), Some(name), None, Some(name)), false)
      == if UploadFileTypeMapping[upload] == ImageFile then Err(IndexError)
         else Ok(ParsedFile("", None, None, Some(studyId), Some(patientId),
                            Some(UploadFileTypeMapping[upload]), Some(stamp), None, None))
  {
  }

  /** The chunk path derived from a raw path: every "RAW_DATA" becomes "CHUNKED_DATA", so a
      raw path with one raw-folder name at its start becomes the same path under the chunk
      folder. */
  function ChunkPathFromRawDataPath(rawDataPath: string): (path: string)
    ensures (|rawDataPath| >= |RawDataFolder| && rawDataPath[..|RawDataFolder|] == RawDataFolder
             && !Contains(rawDataPath[|RawDataFolder|..], RawDataFolder)) ==>
      path == ChunksFolder + rawDataPath[|RawDataFolder|..]
  {
    assert (|rawDataPath| >= |RawDataFolder| && rawDataPath[..|RawDataFolder|] == RawDataFolder
            && !Contains(rawDataPath[|RawDataFolder|..], RawDataFolder)) ==>
      ReplaceAll(rawDataPath, RawDataFolder, ChunksFolder) == ChunksFolder + rawDataPath[|RawDataFolder|..] by {
      if |rawDataPath| >= |RawDataFolder| && rawDataPath[..|RawDataFolder|] == RawDataFolder
         && !Contains(rawDataPath[|RawDataFolder|..], RawDataFolder) {
        var rest := rawDataPath[|RawDataFolder|..];
        assert rawDataPath == RawDataFolder + rest;
        ReplaceAllLeading(RawDataFolder, rest, ChunksFolder);
        ReplaceAllAbsent(rest, RawDataFolder, ChunksFolder);
      }
    }
    ReplaceAll(rawDataPath, RawDataFolder, ChunksFolder)
  }

  /** Every occurrence is replaced, not only the first. */
  lemma ChunkPathFromRawDataPathReplacesAll()
    ensures ChunkPathFromRawDataPath(RawDataFolder + "/" + RawDataFolder) == ChunksFolder + "/" + ChunksFolder
  {
    var rest := "/" + RawDataFolder;
    assert RawDataFolder + "/" + RawDataFolder == RawDataFolder + rest;
    ReplaceAllLeading(RawDataFolder, rest, ChunksFolder);
    assert rest[..|RawDataFolder|][0] != RawDataFolder[0];
    assert ReplaceAll(rest, RawDataFolder, ChunksFolder) == "/" + ReplaceAll(rest[1..], RawDataFolder, ChunksFolder);
    assert rest[1..] == RawDataFolder + "";
    ReplaceAllLeading(RawDataFolder, "", ChunksFolder);
    assert ReplaceAll(rest[1..], RawDataFolder, ChunksFolder) == ChunksFolder + "";
    assert ChunksFolder + ("/" + (ChunksFolder + "")) == ChunksFolder + "/" + ChunksFolder;
  }

  /** The complete date-time form of ISO 8601 (section 4.3.2), "YYYY-MM-DDThh:mm:ss". */
  predicate IsoDateTime(t: string)
  {
    |t| == 19 && forall k :: 0 <= k < 19 ==>
      if k == 4 || k == 7 then t[k] == '-'
      else if k == 10 then t[k] == 'T'
      else if k == 13 || k == 16 then t[k] == ':'
      else '0' <= t[k] <= '9'
  }

  /** An ISO date-time holds no separator the parser splits on and no dot. */
  lemma IsoDateTimePlain(t: string)
    requires IsoDateTime(t)
    ensures '/' !in t && '_' !in t && '.' !in t && |t| > 0
  {
    forall k | 0 <= k < |t|
      ensures t[k] != '/' && t[k] != '_' && t[k] != '.'
    {
    }
  }

  /** The segments of a five-segment key. */
  lemma JoinFive(a: string, b: string, c: string, d: string, e: string)
    ensures Join([a, b, c, d, e], '/') == a + "/" + b + "/" + c + "/" + d + "/" + e
  {
    var de := d + "/" + e;
    var cde := c + "/" + de;
    var bcde := b + "/" + cde;
    assert Join([d, e], '/') == de by {
      JoinCons(d, [e], '/');
      assert [d] + [e] == [d, e];
    }
    assert Join([c, d, e], '/') == cde by {
      JoinCons(c, [d, e], '/');
      assert [c] + [d, e] == [c, d, e];
    }
    assert Join([b, c, d, e], '/') == bcde by {
      JoinCons(b, [c, d, e], '/');
      assert [b] + [c, d, e] == [b, c, d, e];
    }
    assert Join([a, b, c, d, e], '/') == a + "/" + bcde by {
      JoinCons(a, [b, c, d, e], '/');
      assert [a] + [b, c, d, e] == [a, b, c, d, e];
    }
  }

  /** A key starting with a name contains it. */
  lemma ContainsStart(p: string, s: string)
    ensures Contains(p + s, p)
  {
    assert (p + s)[..|p|] == p;
    assert OccursAt(p + s, p, 0);
  }

  /** A key ending in a character that is not whitespace loses nothing to rstrip. */
  lemma NoTrailingWhitespace(s: string, t: string)
    requires |t| > 0 && t[|t| - 1] !in Whitespace
    ensures RStrip(s + t, Whitespace) == s + t
  {
    assert (s + t)[|s + t| - 1] == t[|t| - 1];
  }

  /** A key of five '/'-free segments splits back into them. */
  lemma FiveSegments(a: string, b: string, c: string, d: string, e: string)
    requires '/' !in a && '/' !in b && '/' !in c && '/' !in d && '/' !in e
    ensures Split(a + "/" + b + "/" + c + "/" + d + "/" + e, '/') == [a, b, c, d, e]
    ensures Basename(a + "/" + b + "/" + c + "/" + d + "/" + e) == e
  {
    JoinFive(a, b, c, d, e);
    SplitJoin([a, b, c, d, e], '/');
  }

  /** A "<t>.csv" name: no '/', extension "csv", no trailing whitespace. */
  lemma CsvName(t: string)
    requires '/' !in t && '.' !in t && |t| > 0
    ensures '/' !in t + ".csv"
    ensures Extension(t + ".csv") == "csv"
    ensures (t + ".csv")[|t + ".csv"| - 1] !in Whitespace
  {
    var name := t + ".csv";
    assert name == t + ['.', 'c', 's', 'v'];
    assert Extension(name) == "csv" by {
      ExtensionOf(t, "csv");
      assert t + "." + "csv" == name;
    }
    assert name[|name| - 1] == 'v';
  }

  /** The segments of a chunk path. */
  lemma ChunkPathSplit(studyId: string, userId: string, dataType: string, t: string)
    requires '/' !in studyId && '/' !in userId && '/' !in dataType
    requires '/' !in t && '.' !in t && |t| > 0
    ensures var key := ChunksFolder + "/" + studyId + "/" + userId + "/" + dataType + "/" + (t + ".csv");
      Split(key, '/') == [ChunksFolder, studyId, userId, dataType, t + ".csv"]
  {
    CsvName(t);
    assert '/' !in ChunksFolder;
    FiveSegments(ChunksFolder, studyId, userId, dataType, t + ".csv");
  }

  /** A chunk path names the chunk folder. */
  lemma ChunkPathMarker(studyId: string, userId: string, dataType: string, t: string)
    ensures var key := ChunksFolder + "/" + studyId + "/" + userId + "/" + dataType + "/" + (t + ".csv");
      Contains(key, ChunksFolder)
  {
    var rest := "/" + studyId + "/" + userId + "/" + dataType + "/" + (t + ".csv");
    ContainsStart(ChunksFolder, rest);
    assert ChunksFolder + "/" + studyId + "/" + userId + "/" + dataType + "/" + (t + ".csv") == ChunksFolder + rest;
  }

  /** What the parser sees of a chunk path. */
  lemma ChunkPathShape(studyId: string, userId: string, dataType: string, t: string)
    requires '/' !in studyId && '/' !in userId && '/' !in dataType
    requires '/' !in t && '.' !in t && |t| > 0
    ensures var key := ChunksFolder + "/" + studyId + "/" + userId + "/" + dataType + "/" + (t + ".csv");
      RStrip(key, Whitespace) == key
      && Split(key, '/') == [ChunksFolder, studyId, userId, dataType, t + ".csv"]
      && Extension(Basename(key)) == "csv"
      && Contains(key, ChunksFolder)
  {
    CsvName(t);
    ChunkPathSplit(studyId, userId, dataType, t);
    ChunkPathMarker(studyId, userId, dataType, t);
    NoTrailingWhitespace(ChunksFolder + "/" + studyId + "/" + userId + "/" + dataType + "/", t + ".csv");
  }

  /** The time string of a "<t>.csv" segment is `t` when `t` has no '_'. */
  lemma TimeStringOf(t: string)
    requires '_' !in t
    ensures TimeString(t + ".csv") == t
  {
    SplitNone(t + ".csv", '_');
    assert (t + ".csv")[..|t|] == t;
  }

  /** The time string the parser reads from the identifiers type segment. */
  lemma IdentifiersTimeString()
    ensures TimeString(Identifiers) == "identif"
  {
    SplitNone(Identifiers, '_');
  }

  /** The fields the parser reads under the chunk layout when the type segment is the
      identifiers stream. */
  lemma IdentifiersFields(studyId: string, userId: string, name: string)
    ensures ReadFields(Segments(Some(studyId), Some(userId), Some(Identifiers), Some(name), None, Some(name)), true)
      == Ok(Bare("").(studyObjectId := Some(studyId), patientId := Some(userId), dataType := Some(Identifiers),
                      datetime := Some("identif")))
  {
    assert OccursAt(Identifiers, Identifiers, 0);
    IdentifiersTimeString();
  }

  /** The chunk path written as the parser's key. */
  lemma ChunkPathKey(studyId: string, userId: string, dataType: string, timeBin: int, timeString: int -> string)
    ensures ChunkPath(studyId, userId, dataType, timeBin, timeString)
      == ChunksFolder + "/" + studyId + "/" + userId + "/" + dataType + "/" + (timeString(timeBin * ChunkTimesliceQuantum) + ".csv")
  {
  }

  /** What `ParseFilename` does with a key that has the shape of a chunk path: it reads the
      fields of the four segments under the chunk layout. */
  lemma ParseChunkKey(key: string, studyId: string, userId: string, dataType: string, name: string)
    requires RStrip(key, Whitespace) == key
    requires Split(key, '/') == [ChunksFolder, studyId, userId, dataType, name]
    requires Extension(Basename(key)) == "csv" && Contains(key, ChunksFolder)
    ensures var fields := ReadFields(Segments(Some(studyId), Some(userId), Some(dataType), Some(name), None, Some(name)), true);
      ParseFilename.ParseFilename(key) == if fields.Err? then Err(fields.error)
        else Ok(fields.value.(filename := key, fileType := Some(ChunkData), fileExtension := Some("csv")))
  {
    assert "csv" in AllowedExtensions;
  }

  /** Round trip of a chunk path for any data-type segment: the parser recovers the study,
      the user and the time string, and the type segment itself unless it names the
      identifiers or iOS-log stream. */
  lemma ChunkPathRoundTrip(studyId: string, userId: string, dataType: string, timeBin: int,
                           timeString: int -> string)
    requires '/' !in studyId && '/' !in userId && '/' !in dataType
    requires IsoDateTime(timeString(timeBin * ChunkTimesliceQuantum))
    requires !Contains(dataType, Identifiers)
    ensures var key := ChunkPath(studyId, userId, dataType, timeBin, timeString);
      ParseFilename.ParseFilename(key) == Ok(ParsedFile(key, Some(ChunkData), Some("csv"), Some(studyId), Some(userId),
        Some(if Contains(dataType, "ios") then IosLogFile else dataType),
        Some(timeString(timeBin * ChunkTimesliceQuantum)), None, None))
  {
    var t := timeString(timeBin * ChunkTimesliceQuantum);
    IsoDateTimePlain(t);
    ChunkPathKey(studyId, userId, dataType, timeBin, timeString);
    ChunkPathShape(studyId, userId, dataType, t);
    ParseChunkKey(ChunkPath(studyId, userId, dataType, timeBin, timeString), studyId, userId, dataType, t + ".csv");
    TimeStringOf(t);
  }

  /** For an identifiers chunk the parser reads the time string from the type segment, so it
      reports "identif" rather than the chunk's time. */
  lemma IdentifiersChunkTime(studyId: string, userId: string, timeBin: int, timeString: int -> string)
    requires '/' !in studyId && '/' !in userId
    requires IsoDateTime(timeString(timeBin * ChunkTimesliceQuantum))
    ensures var key := ChunkPath(studyId, userId, Identifiers, timeBin, timeString);
      ParseFilename.ParseFilename(key) == Ok(ParsedFile(key, Some(ChunkData), Some("csv"), Some(studyId), Some(userId),
        Some(Identifiers), Some("identif"), None, None))
  {
    var t := timeString(timeBin * ChunkTimesliceQuantum);
    IsoDateTimePlain(t);
    ChunkPathKey(studyId, userId, Identifiers, timeBin, timeString);
    assert '/' !in Identifiers;
    ChunkPathShape(studyId, userId, Identifiers, t);
    ParseChunkKey(ChunkPath(studyId, userId, Identifiers, timeBin, timeString), studyId, userId, Identifiers, t + ".csv");
    IdentifiersFields(studyId, userId, t + ".csv");
  }

  /** Round trip for every data stream: the stream itself comes back, and the time string
      too except for `identifiers`. */
  lemma ChunkPathRoundTripStreams(studyId: string, userId: string, dataType: string, timeBin: int,
                                  timeString: int -> string)
    requires '/' !in studyId && '/' !in userId && dataType in AllDataStreams
    requires IsoDateTime(timeString(timeBin * ChunkTimesliceQuantum))
    ensures var r := ParseFilename.ParseFilename(ChunkPath(studyId, userId, dataType, timeBin, timeString));
      r.Ok? && r.value.studyObjectId == Some(studyId) && r.value.patientId == Some(userId)
      && r.value.dataType == Some(dataType)
      && r.value.datetime == Some(if dataType == Identifiers then "identif" else timeString(timeBin * ChunkTimesliceQuantum))
  {
    StreamMarkers(dataType);
    if dataType == Identifiers {
      IdentifiersChunkTime(studyId, userId, timeBin, timeString);
    } else {
      StreamNameIsOneSegment(dataType);
      ChunkPathRoundTrip(studyId, userId, dataType, timeBin, timeString);
    }
  }
}
