/** The storage-key parser: a '/'-separated key is read back into its study, patient, data
    type, time string and, for survey data, its survey id, under one of three layouts. */
module ParseFilename {
  import opened Wrappers
  import opened PyStrings
  import opened Constants

  /** The dictionary the parser returns; a key the parser did not set is `None`. */
  datatype ParsedFile = ParsedFile(
    filename: string,
    fileType: Option<string>,
    fileExtension: Option<string>,
    studyObjectId: Option<string>,
    patientId: Option<string>,
    dataType: Option<string>,
    datetime: Option<string>,
    surveyId: Option<string>,
    imageSurveyUserInstance: Option<string>)

  /** The exceptions the parser lets escape: a layout position past the end of the key, or
      a raw data-type segment missing from the upload table. */
  datatype ParseError = IndexError | KeyError(key: string)

  /** The segments a layout designates, each `None` when its position is out of range. */
  datatype Segments = Segments(
    study: Option<string>, patient: Option<string>, dataType: Option<string>,
    surveyId: Option<string>, imageSurveyUserInstance: Option<string>, fileName: Option<string>)

  /** A result holding only the key itself. */
  function Bare(filename: string): ParsedFile
  {
    ParsedFile(filename, None, None, None, None, None, None, None, None)
  }

  /** The layout a key uses: chunked when it names the chunk folder, otherwise new raw when
      it names the raw folder, otherwise legacy raw. */
  function Layout(filename: string): (m: IndexMapping)
    ensures m == ChunkPathMapping || m == NewRawPathMapping || m == OldRawPathMapping
  {
    if Contains(filename, ChunksFolder) then ChunkPathMapping
    else if Contains(filename, RawDataFolder) then NewRawPathMapping
    else OldRawPathMapping
  }

  /** The segments at the positions of layout `m`. */
  function Select(values: seq<string>, m: IndexMapping): Segments
  {
    Segments(PyIndex(values, m.studyId), PyIndex(values, m.patientId), PyIndex(values, m.dataType),
      PyIndex(values, m.surveyId), PyIndex(values, m.imageSurveyUserInstance), PyIndex(values, m.fileName))
  }

  /** The time string carried by a segment: its last '_'-separated piece without the last
      four characters (the extension and its dot). */
  function TimeString(segment: string): string
  {
    DropLast(Last(Split(segment, '_')), 4)
  }

  /** Data-stream names whose raw keys may carry a survey id. */
  const SurveyStreams: seq<string> := [SurveyAnswers, SurveyTimings, VoiceRecording, ImageFile]

  /** The fields read from the selected segments, after the extension check passed; the
      name, file type and extension are filled in by the caller. */
  function ReadFields(s: Segments, chunk: bool): Result<ParsedFile, ParseError>
  {
    if s.study.None? || s.patient.None? || s.dataType.None? then Err(IndexError)
    else
      var r := Bare("").(studyObjectId := Some(s.study.value), patientId := Some(s.patient.value));
      var segment := s.dataType.value;
      if Contains(segment, Identifiers) then
        Ok(r.(dataType := Some(Identifiers), datetime := Some(TimeString(segment))))
      else if s.fileName.None? then Err(IndexError)
      else
        var r := r.(datetime := Some(TimeString(s.fileName.value)));
        if Contains(segment, "ios") then Ok(r.(dataType := Some(IosLogFile)))
        else if chunk then Ok(r.(dataType := Some(segment)))
        else if segment !in UploadFileTypeMapping then Err(KeyError(segment))
        else
          var stream := UploadFileTypeMapping[segment];
          var r := r.(dataType := Some(stream));
          if stream !in SurveyStreams then Ok(r)
          else if s.surveyId.None? then Err(IndexError)
          else
            var r := if s.surveyId.value != s.fileName.value then r.(surveyId := s.surveyId) else r;
            if stream != ImageFile then Ok(r)
            else if s.imageSurveyUserInstance.None? then Err(IndexError)
            else Ok(r.(imageSurveyUserInstance := s.imageSurveyUserInstance))
  }

  /** Parse a storage key. Trailing whitespace is dropped first; the rest is `ParseKey`. */
  function ParseFilename(name: string): (r: Result<ParsedFile, ParseError>)
    ensures r.Ok? ==> r.value.filename == RStrip(name, Whitespace)
  {
    ParseKey(RStrip(name, Whitespace))
  }

  /** Parse a key without trailing whitespace. A key without extension is a registration
      marker; a key with an extension outside the allowed set holds only its name; otherwise
      the layout decides which segments are read. */
  function ParseKey(filename: string): (r: Result<ParsedFile, ParseError>)
    ensures r.Ok? ==> r.value.filename == filename
  {
    var ext := Extension(Basename(filename));
    if ext == "" then Ok(Bare(filename).(fileType := Some(RegistrationMarker)))
    else if ext !in AllowedExtensions then Ok(Bare(filename))
    else
      var chunk := Contains(filename, ChunksFolder);
      var fields :- ReadFields(Select(Split(filename, '/'), Layout(filename)), chunk);
      Ok(fields.(filename := filename, fileType := Some(if chunk then ChunkData else RawData),
        fileExtension := Some(ext)))
  }

  /** The survey id of a key; a parse without one raises KeyError. */
  function ResolveSurveyIdFromFileName(name: string): (r: Result<string, ParseError>)
    ensures r.Ok? <==> ParseFilename(name).Ok? && ParseFilename(name).value.surveyId.Some?
    ensures r.Ok? ==> Some(r.value) == ParseFilename(name).value.surveyId
  {
    match ParseFilename(name)
    case Err(e) => Err(e)
    case Ok(p) => if p.surveyId.None? then Err(KeyError("survey_id")) else Ok(p.surveyId.value)
  }

  /** Trailing whitespace never changes the parse. */
  lemma ParseIgnoresTrailingWhitespace(name: string, ws: string)
    requires forall k :: 0 <= k < |ws| ==> ws[k] in Whitespace
    ensures ParseFilename(name + ws) == ParseFilename(name)
  {
    RStripAppendStripped(name, ws, Whitespace);
  }

  /** A key without extension is a registration marker and nothing else. */
  lemma NoExtensionIsRegistration(name: string)
    requires Extension(Basename(RStrip(name, Whitespace))) == ""
    ensures ParseFilename(name) == Ok(Bare(RStrip(name, Whitespace)).(fileType := Some(RegistrationMarker)))
  {
  }

  /** A key with an extension outside the allowed set parses to its name alone, without error. */
  lemma DisallowedExtensionIsBare(name: string)
    requires Extension(Basename(RStrip(name, Whitespace))) != ""
    requires Extension(Basename(RStrip(name, Whitespace))) !in AllowedExtensions
    ensures ParseFilename(name) == Ok(Bare(RStrip(name, Whitespace)))
  {
  }

  /** Prefixing a key with one more segment shifts every non-negative position by one and
      leaves the last segment in place. */
  lemma SelectShift(x: string, values: seq<string>)
    requires |values| > 0
    ensures Select([x] + values, NewRawPathMapping) == Select(values, OldRawPathMapping)
  {
  }

  /** What the parser sees of a marker-free key placed under the raw folder. */
  lemma UnderRawFolder(key: string)
    requires !Contains(key, ChunksFolder) && !Contains(key, RawDataFolder)
    ensures Split(RawDataFolder + "/" + key, '/') == [RawDataFolder] + Split(key, '/')
    ensures Basename(RawDataFolder + "/" + key) == Basename(key)
    ensures !Contains(RawDataFolder + "/" + key, ChunksFolder)
    ensures Layout(RawDataFolder + "/" + key) == NewRawPathMapping
    ensures Layout(key) == OldRawPathMapping
  {
    RawPrefixSplit(key);
    RawPrefixMarkers(key);
  }

  /** The raw folder in front of a key adds one segment. */
  lemma RawPrefixSplit(key: string)
    ensures Split(RawDataFolder + "/" + key, '/') == [RawDataFolder] + Split(key, '/')
  {
    assert RawDataFolder + "/" + key == RawDataFolder + ['/'] + key;
    assert '/' !in RawDataFolder;
    SplitCons(RawDataFolder, '/', key);
  }

  /** The raw folder in front of a key names the raw folder and adds no chunk marker. */
  lemma RawPrefixMarkers(key: string)
    ensures Contains(RawDataFolder + "/" + key, ChunksFolder) <==> Contains(key, ChunksFolder)
    ensures Contains(RawDataFolder + "/" + key, RawDataFolder)
  {
    var prefix := RawDataFolder + "/";
    assert ChunksFolder[0] !in prefix;
    ContainsPrefix(prefix, key, ChunksFolder);
    assert OccursAt(prefix + key, RawDataFolder, 0);
  }

  /** `ParseKey` reads a marker-free key and the same key under the raw folder alike. */
  lemma LegacyKey(key: string)
    requires !Contains(key, ChunksFolder) && !Contains(key, RawDataFolder)
    ensures ParseKey(RawDataFolder + "/" + key).Ok? <==> ParseKey(key).Ok?
    ensures ParseKey(key).Err? ==> ParseKey(RawDataFolder + "/" + key) == ParseKey(key)
    ensures ParseKey(key).Ok? ==>
      ParseKey(RawDataFolder + "/" + key).value == ParseKey(key).value.(filename := RawDataFolder + "/" + key)
  {
    var full := RawDataFolder + "/" + key;
    UnderRawFolder(key);
    SelectShift(RawDataFolder, Split(key, '/'));
    var ext := Extension(Basename(key));
    assert Extension(Basename(full)) == ext;
    if ext != "" && ext in AllowedExtensions {
      assert Select(Split(full, '/'), Layout(full)) == Select(Split(key, '/'), Layout(key));
    }
  }

  /** A legacy raw key parses exactly as the same key under the raw folder: the two layouts
      read the same segments, so only the stored name differs. */
  lemma LegacyRawKey(p: string)
    requires !Contains(p, ChunksFolder) && !Contains(p, RawDataFolder)
    ensures ParseFilename(RawDataFolder + "/" + p).Ok? <==> ParseFilename(p).Ok?
    ensures ParseFilename(p).Err? ==> ParseFilename(RawDataFolder + "/" + p) == ParseFilename(p)
    ensures ParseFilename(p).Ok? ==>
      ParseFilename(RawDataFolder + "/" + p).value
        == ParseFilename(p).value.(filename := RawDataFolder + "/" + ParseFilename(p).value.filename)
  {
    var stripped := RStrip(p, Whitespace);
    RStripPrefix(RawDataFolder + "/", p, Whitespace);
    if Contains(stripped, ChunksFolder) {
      ContainsOfPrefix(p, |stripped|, ChunksFolder);
    }
    if Contains(stripped, RawDataFolder) {
      ContainsOfPrefix(p, |stripped|, RawDataFolder);
    }
    LegacyKey(stripped);
  }
}
