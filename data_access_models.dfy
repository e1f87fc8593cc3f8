/** The ingestion bookkeeping tables: the chunk registry with its content normalisation and
    observation count, the processing queue, the processing lock and the validation of a
    pipeline upload. */
module DataAccessModels {
  import opened Wrappers
  import opened PyStrings
  import opened Constants

  /** Content with its trailing newlines replaced by exactly one: it ends in one newline,
      not two, and keeps everything before its trailing newlines. */
  function Normalize(contents: string): (r: string)
    ensures |r| > 0 && r[|r| - 1] == '\n' && (|r| == 1 || r[|r| - 2] != '\n')
    ensures r[..|r| - 1] == RStrip(contents, {'\n'})
  {
    RStrip(contents, {'\n'}) + "\n"
  }

  /** The number of observations in a chunk: the newlines of its normalised content, less
      one for the header line. It is the number of line breaks before the trailing
      newlines, so never negative. */
  function ObservationCount(contents: string): (n: int)
    ensures n == Count(RStrip(contents, {'\n'}), '\n')
    ensures n >= 0
  {
    CountAppend(RStrip(contents, {'\n'}), "\n", '\n');
    Count(Normalize(contents), '\n') - 1
  }

  /** Normalising twice is normalising once. */
  lemma NormalizeIdempotent(contents: string)
    ensures Normalize(Normalize(contents)) == Normalize(contents)
  {
    var s := RStrip(contents, {'\n'});
    RStripAppendStripped(s, "\n", {'\n'});
    RStripIdempotent(contents, {'\n'});
  }

  /** Trailing newlines change neither the normalised content (so neither the hash input)
      nor the observation count. */
  lemma TrailingNewlinesIgnored(contents: string, newlines: string)
    requires forall k :: 0 <= k < |newlines| ==> newlines[k] == '\n'
    ensures Normalize(contents + newlines) == Normalize(contents)
    ensures ObservationCount(contents + newlines) == ObservationCount(contents)
  {
    RStripAppendStripped(contents, newlines, {'\n'});
  }

  /** Seconds since the epoch at the start of time bin `timeBin`. */
  function TimeBinSeconds(timeBin: int): int
  {
    timeBin * ChunkTimesliceQuantum
  }

  /** A stored time bin lies on an hour boundary and gives back its bin index. */
  lemma TimeBinSecondsInverse(timeBin: int)
    ensures TimeBinSeconds(timeBin) % 3600 == 0
    ensures TimeBinSeconds(timeBin) / 3600 == timeBin
  {
  }

  /** The exceptions the chunk registry raises. */
  datatype RegistryError =
    | UnchunkableDataTypeError
    | ChunkableDataTypeError
    /** `file_contents` read before it is bound */
    | NameError
    /** the first element of an empty list */
    | IndexError

  /** One chunk-registry row. The participant foreign key is represented by the
      participant's patient id, the value the time-range query filters on (each participant
      has exactly one). */
  datatype Chunk = Chunk(
    isChunkable: bool,
    chunkPath: string,
    chunkHash: string,
    dataType: string,
    timeBin: int,
    studyId: int,
    patientId: string,
    surveyId: Option<int>,
    numberOfObservations: Option<int>,
    deleted: bool)

  /** The row `register_chunked_data` creates, or the error it raises for a data type that
      cannot be chunked. */
  function ChunkedRow(dataType: string, timeBin: int, chunkPath: string, fileContents: string,
                      studyId: int, patientId: string, surveyId: Option<int>,
                      chunkHash: string -> string): (r: Result<Chunk, RegistryError>)
    ensures r.Err? <==> dataType !in ChunkableFiles
    ensures r.Err? ==> r.error == UnchunkableDataTypeError
    ensures r.Ok? ==> (r.value.isChunkable && r.value.chunkPath == chunkPath && r.value.dataType == dataType
      && r.value.studyId == studyId && r.value.patientId == patientId && r.value.surveyId == surveyId
      && !r.value.deleted)
    ensures r.Ok? ==> (r.value.timeBin == timeBin * 3600
      && r.value.numberOfObservations == Some(Count(RStrip(fileContents, {'\n'}), '\n'))
      && r.value.chunkHash == chunkHash(Normalize(fileContents)))
  {
    if dataType !in ChunkableFiles then Err(UnchunkableDataTypeError)
    else
      var contents := Normalize(fileContents);
      Ok(Chunk(true, chunkPath, chunkHash(contents), dataType, TimeBinSeconds(timeBin), studyId,
        patientId, surveyId, Some(ObservationCount(fileContents)), false))
  }

  /** What `register_unchunked_data` does as written: a chunkable type raises
      ChunkableDataTypeError; any other type reaches the normalisation, which reads
      `file_contents` before anything binds it. */
  function UnchunkedRowAsWritten(dataType: string): (r: Result<Chunk, RegistryError>)
    ensures r.Err?
    ensures r.error == ChunkableDataTypeError <==> dataType in ChunkableFiles
    ensures r.error == NameError <==> dataType !in ChunkableFiles
  {
    if dataType in ChunkableFiles then Err(ChunkableDataTypeError) else Err(NameError)
  }

  /** The evident intent of `register_unchunked_data`, with the content passed in: a row
      with an empty hash, the given timestamp, and the count of the normalised content. */
  function UnchunkedRow(dataType: string, unixTimestamp: int, chunkPath: string, fileContents: string,
                        studyId: int, patientId: string, surveyId: Option<int>): (r: Result<Chunk, RegistryError>)
    ensures r.Err? <==> dataType in ChunkableFiles
    ensures r.Err? ==> r.error == ChunkableDataTypeError
    ensures r.Ok? ==> (!r.value.isChunkable && r.value.chunkHash == "" && r.value.timeBin == unixTimestamp
      && r.value.chunkPath == chunkPath && r.value.dataType == dataType
      && r.value.numberOfObservations == Some(Count(RStrip(fileContents, {'\n'}), '\n')))
  {
    if dataType in ChunkableFiles then Err(ChunkableDataTypeError)
    else Ok(Chunk(false, chunkPath, "", dataType, unixTimestamp, studyId, patientId, surveyId,
      Some(ObservationCount(fileContents)), false))
  }

  /** As written, registering unchunked data never creates a row: it agrees with the
      intended registration on a chunkable type and raises NameError exactly where the
      intended one creates a row. */
  lemma UnchunkedRegistrationNeverSucceeds(dataType: string, unixTimestamp: int, chunkPath: string,
                                           fileContents: string, studyId: int, patientId: string,
                                           surveyId: Option<int>)
    ensures dataType in ChunkableFiles ==>
      UnchunkedRowAsWritten(dataType) == UnchunkedRow(dataType, unixTimestamp, chunkPath, fileContents, studyId, patientId, surveyId)
    ensures dataType !in ChunkableFiles ==> (UnchunkedRowAsWritten(dataType) == Err(NameError)
      && UnchunkedRow(dataType, unixTimestamp, chunkPath, fileContents, studyId, patientId, surveyId).Ok?)
  {
  }

  /** A chunkable data type registers through one method, every other type through the
      other: exactly one of the two succeeds. */
  lemma RegistrationsPartitionDataTypes(dataType: string, timeBin: int, chunkPath: string, fileContents: string,
                                        studyId: int, patientId: string, surveyId: Option<int>,
                                        chunkHash: string -> string)
    ensures ChunkedRow(dataType, timeBin, chunkPath, fileContents, studyId, patientId, surveyId, chunkHash).Ok?
      != UnchunkedRow(dataType, timeBin, chunkPath, fileContents, studyId, patientId, surveyId).Ok?
  {
  }

  /** Whether a row passes the filters of `get_chunks_time_range`: the study and not deleted;
      the participant and data-type lists filter only when non-empty; the bounds are inclusive
      and apply only when given. */
  predicate InTimeRange(c: Chunk, studyId: int, userIds: seq<string>, dataTypes: seq<string>,
                        start: Option<int>, end: Option<int>)
  {
    c.studyId == studyId && !c.deleted
    && (|userIds| == 0 || c.patientId in userIds)
    && (|dataTypes| == 0 || c.dataType in dataTypes)
    && (start.None? || start.value <= c.timeBin)
    && (end.None? || c.timeBin <= end.value)
  }

  /** The rows `get_chunks_time_range` selects, in table order. */
  function ChunksTimeRange(rows: seq<Chunk>, studyId: int, userIds: seq<string>, dataTypes: seq<string>,
                           start: Option<int>, end: Option<int>): (r: seq<Chunk>)
    ensures forall c :: c in r <==> c in rows && InTimeRange(c, studyId, userIds, dataTypes, start, end)
    ensures |r| <= |rows|
  {
    if |rows| == 0 then []
    else
      var rest := ChunksTimeRange(rows[1..], studyId, userIds, dataTypes, start, end);
      assert forall c :: c in rows <==> c == rows[0] || c in rows[1..];
      if InTimeRange(rows[0], studyId, userIds, dataTypes, start, end) then [rows[0]] + rest else rest
  }

  /** With no participant list, no type list and no bounds, the query is every live row of
      the study. */
  lemma UnfilteredTimeRange(rows: seq<Chunk>, studyId: int, c: Chunk)
    ensures c in ChunksTimeRange(rows, studyId, [], [], None, None) <==> c in rows && c.studyId == studyId && !c.deleted
  {
  }

  /** The chunk registry table. */
  class ChunkRegistry {
    var rows: seq<Chunk>

    constructor ()
      ensures rows == []
    {
      rows := [];
    }

    /** register_chunked_data: appends one chunkable row and reads no existing one. */
    method RegisterChunkedData(dataType: string, timeBin: int, chunkPath: string, fileContents: string,
                               studyId: int, patientId: string, surveyId: Option<int>,
                               chunkHash: string -> string)
      returns (r: Result<(), RegistryError>)
      modifies this
      ensures var row := ChunkedRow(dataType, timeBin, chunkPath, fileContents, studyId, patientId, surveyId, chunkHash);
        if row.Ok? then r.Ok? && rows == old(rows) + [row.value]
        else r == Err(row.error) && rows == old(rows)
    {
      var row := ChunkedRow(dataType, timeBin, chunkPath, fileContents, studyId, patientId, surveyId, chunkHash);
      match row
      case Err(e) => r := Err(e);
      case Ok(c) => rows := rows + [c]; r := Ok(());
    }

    /** register_unchunked_data as written: it never creates a row. */
    method RegisterUnchunkedDataAsWritten(dataType: string, unixTimestamp: int, chunkPath: string,
                                          studyId: int, patientId: string, surveyId: Option<int>)
      returns (r: Result<(), RegistryError>)
      modifies this
      ensures r.Err? && r.error == UnchunkedRowAsWritten(dataType).error
      ensures rows == old(rows)
    {
      r := Err(UnchunkedRowAsWritten(dataType).error);
    }

    /** register_unchunked_data with the content it evidently meant to count. */
    method RegisterUnchunkedData(dataType: string, unixTimestamp: int, chunkPath: string, fileContents: string,
                                 studyId: int, patientId: string, surveyId: Option<int>)
      returns (r: Result<(), RegistryError>)
      modifies this
      ensures var row := UnchunkedRow(dataType, unixTimestamp, chunkPath, fileContents, studyId, patientId, surveyId);
        if row.Ok? then r.Ok? && rows == old(rows) + [row.value]
        else r == Err(row.error) && rows == old(rows)
    {
      var row := UnchunkedRow(dataType, unixTimestamp, chunkPath, fileContents, studyId, patientId, surveyId);
      match row
      case Err(e) => r := Err(e);
      case Ok(c) => rows := rows + [c]; r := Ok(());
    }

    /** update_chunk_hash on row `i`: hash and count come from the normalised data; nothing
        else changes. */
    method UpdateChunkHash(i: nat, dataToHash: string, chunkHash: string -> string)
      requires i < |rows|
      modifies this
      ensures |rows| == |old(rows)|
      ensures rows[i] == old(rows)[i].(chunkHash := chunkHash(Normalize(dataToHash)),
                                       numberOfObservations := Some(ObservationCount(dataToHash)))
      ensures forall j :: 0 <= j < |rows| && j != i ==> rows[j] == old(rows)[j]
    {
      var normalized := Normalize(dataToHash);
      var count := Count(normalized, '\n') - 1;
      assert count == ObservationCount(dataToHash);
      rows := rows[i := rows[i].(chunkHash := chunkHash(normalized), numberOfObservations := Some(count))];
    }

    /** low_memory_update_chunk_hash on row `i`: only the first element of the list is
        normalised, hashed and counted; an empty list raises IndexError. */
    method LowMemoryUpdateChunkHash(i: nat, listDataToHash: seq<string>, lowMemoryChunkHash: seq<string> -> string)
      returns (r: Result<(), RegistryError>)
      requires i < |rows|
      modifies this
      ensures |listDataToHash| == 0 ==> r == Err(IndexError) && rows == old(rows)
      ensures |listDataToHash| > 0 ==> (r.Ok?
        && rows == old(rows)[i := old(rows)[i].(chunkHash := lowMemoryChunkHash([Normalize(listDataToHash[0])]),
                                                numberOfObservations := Some(ObservationCount(listDataToHash[0])))])
    {
      if |listDataToHash| == 0 {
        r := Err(IndexError);
        return;
      }
      var dataToHash := Normalize(listDataToHash[0]);
      var count := Count(dataToHash, '\n') - 1;
      rows := rows[i := rows[i].(chunkHash := lowMemoryChunkHash([dataToHash]), numberOfObservations := Some(count))];
      r := Ok(());
    }
  }

  /** One queued file awaiting processing. */
  datatype FileToProcess = FileToProcess(s3FilePath: string, studyPk: int, participantId: string)

  /** The processing queue. */
  class FileToProcessQueue {
    var rows: seq<FileToProcess>

    constructor ()
      ensures rows == []
    {
      rows := [];
    }

    /** append_file_for_processing: the study's primary key is looked up by object id (a
        missing study raises DoesNotExist) and one row with the path unchanged is appended. */
    method AppendFileForProcessing(filePath: string, studyObjectId: string, participantId: string,
                                   studyPks: map<string, int>)
      returns (r: Result<(), string>)
      modifies this
      ensures studyObjectId !in studyPks ==> r.Err? && rows == old(rows)
      ensures studyObjectId in studyPks ==>
        r.Ok? && rows == old(rows) + [FileToProcess(filePath, studyPks[studyObjectId], participantId)]
    {
      if studyObjectId !in studyPks {
        r := Err("DoesNotExist");
        return;
      }
      rows := rows + [FileToProcess(filePath, studyPks[studyObjectId], participantId)];
      r := Ok(());
    }
  }

  /** The processing lock: one row per lock taken, each holding its lock time. */
  class FileProcessLock {
    var lockTimes: seq<int>

    constructor ()
      ensures lockTimes == []
    {
      lockTimes := [];
    }

    /** islocked: any lock row exists. */
    function IsLocked(): bool
      reads this
    {
      |lockTimes| > 0
    }

    /** lock: raises FileProcessingLockedError when locked, otherwise creates one row. */
    method Lock(now: int) returns (r: Result<(), string>)
      modifies this
      ensures old(IsLocked()) ==> r.Err? && lockTimes == old(lockTimes)
      ensures !old(IsLocked()) ==> r.Ok? && lockTimes == [now]
      ensures IsLocked()
    {
      if |lockTimes| > 0 {
        r := Err("File processing already locked");
        return;
      }
      lockTimes := lockTimes + [now];
      r := Ok(());
    }

    /** unlock: deletes every lock row. */
    method Unlock()
      modifies this
      ensures lockTimes == [] && !IsLocked()
    {
      lockTimes := [];
    }

    /** get_time_since_locked: time since the last lock row, or an error when no row exists. */
    function TimeSinceLocked(now: int): (r: Result<int, string>)
      reads this
      ensures r.Ok? <==> IsLocked()
      ensures r.Ok? ==> r.value == now - lockTimes[|lockTimes| - 1]
    {
      if |lockTimes| == 0 then Err("AttributeError") else Ok(now - lockTimes[|lockTimes| - 1])
    }
  }

  /** Locking twice raises, and unlocking in between lets the second lock succeed. */
  method LockSequence(l: FileProcessLock, t1: int, t2: int, t3: int)
    returns (first: Result<(), string>, second: Result<(), string>, third: Result<(), string>)
    requires !l.IsLocked()
    modifies l
    ensures first.Ok? && second.Err? && third.Ok? && l.lockTimes == [t3]
  {
    first := l.Lock(t1);
    second := l.Lock(t2);
    l.Unlock();
    third := l.Lock(t3);
  }

  /** What json.loads makes of the tags parameter. */
  datatype TagsJson = NotJson | NotAList | TagList(tags: seq<string>)

  /** The errors `get_creation_arguments` raises. */
  datatype UploadParameterError =
    | InvalidUploadParameterError(message: string)
    /** the study lookup raised */
    | StudyDoesNotExist

  /** What `get_creation_arguments` returns besides the tags. */
  datatype CreationArguments = CreationArguments(
    createdOn: string, s3Path: string, studyId: int, fileName: string, fileHash: string)

  /** The required parameters, in the order they are checked. */
  const Requireds: seq<string> := ["study_id", "tags", "file_name"]

  /** A parameter that is present and not empty. */
  predicate Given(params: map<string, string>, field: string)
  {
    field in params && params[field] != ""
  }

  /** Every required parameter is present and not empty. */
  predicate AllGiven(params: map<string, string>)
  {
    Given(params, "study_id") && Given(params, "tags") && Given(params, "file_name")
  }

  /** The message for a missing parameter. */
  function MissingMessage(field: string): string
  {
    "missing required parameter: \"" + field + "\""
  }

  /** The missing-parameter messages for `fields`, in order. */
  function MissingErrors(params: map<string, string>, fields: seq<string>): (errors: seq<string>)
    ensures |errors| <= |fields|
    ensures |errors| == 0 <==> forall k :: 0 <= k < |fields| ==> Given(params, fields[k])
  {
    if |fields| == 0 then []
    else
      var last := fields[|fields| - 1];
      MissingErrors(params, fields[..|fields| - 1]) + (if Given(params, last) then [] else [MissingMessage(last)])
  }

  /** No message for the required parameters exactly when all of them are given. */
  lemma MissingErrorsEmpty(params: map<string, string>)
    ensures MissingErrors(params, Requireds) == [] <==> AllGiven(params)
  {
    assert Requireds[0] == "study_id" && Requireds[1] == "tags" && Requireds[2] == "file_name";
  }

  const FileNameTooLong := "encountered invalid file_name, file_names cannot be more than 256 characters"
  const NoTags := "you must provide at least one tag for your file."
  const TagsNotParsed := "could not parse tags, ensure that your uploaded list of tags is a json compatible array."

  /** The message for a file name that was already uploaded. */
  function AlreadyExists(fileName: string): string
  {
    "a file with the name \"" + fileName + "\" already exists"
  }

  /** The message for the tags, if they are not a non-empty list. */
  function TagErrors(tags: TagsJson): (errors: seq<string>)
    ensures |errors| == 0 <==> tags.TagList? && |tags.tags| > 0
  {
    match tags
    case TagList(t) => if |t| == 0 then [NoTags] else []
    case _ => [TagsNotParsed]
  }

  /** The errors found once every required parameter is present: a file name over 256
      characters, a file name already uploaded, and tags that are not a non-empty list. */
  function ParameterErrors(fileName: string, existingNames: set<string>, tags: TagsJson): (errors: seq<string>)
    ensures |errors| == 0 <==> |fileName| <= 256 && fileName !in existingNames && tags.TagList? && |tags.tags| > 0
  {
    var tooLong := if |fileName| > 256 then [FileNameTooLong] else [];
    var exists_ := if fileName in existingNames then [AlreadyExists(fileName)] else [];
    tooLong + exists_ + TagErrors(tags)
  }

  /** Error messages joined by newlines. */
  function JoinLines(errors: seq<string>): string
  {
    Join(errors, '\n')
  }

  /** The upload path: "PIPELINE_DATA/<study>/<file name>/<created on>/<random suffix>". */
  function PipelineUploadPath(studyObjectId: string, fileName: string, createdOn: string, randomSuffix: string): string
  {
    PipelineFolder + "/" + studyObjectId + "/" + fileName + "/" + createdOn + "/" + randomSuffix
  }

  /** get_creation_arguments: the required parameters are checked first, one message per
      missing one; then the study is looked up, and the name and tags are checked. */
  method GetCreationArguments(params: map<string, string>, fileContents: string, studyPks: map<string, int>,
                              existingNames: set<string>, decodeTags: string -> TagsJson, createdOn: string,
                              randomSuffix: string, lowMemoryChunkHash: string -> string)
    returns (r: Result<(CreationArguments, seq<string>), UploadParameterError>)
    ensures !AllGiven(params) ==> r == Err(InvalidUploadParameterError(JoinLines(MissingErrors(params, Requireds))))
    ensures AllGiven(params) && params["study_id"] !in studyPks ==> r == Err(StudyDoesNotExist)
    ensures AllGiven(params) && params["study_id"] in studyPks ==>
      var errors := ParameterErrors(params["file_name"], existingNames, decodeTags(params["tags"]));
      if errors != [] then r == Err(InvalidUploadParameterError(JoinLines(errors)))
      else r == Ok((CreationArguments(createdOn,
          PipelineUploadPath(params["study_id"], params["file_name"], createdOn, randomSuffix),
          studyPks[params["study_id"]], params["file_name"], lowMemoryChunkHash(fileContents)),
        decodeTags(params["tags"]).tags))
  {
    var errors: seq<string> := [];
    var i := 0;
    while i < |Requireds|
      invariant 0 <= i <= |Requireds|
      invariant errors == MissingErrors(params, Requireds[..i])
    {
      var field := Requireds[i];
      assert Requireds[..i + 1][..i] == Requireds[..i];
      if field !in params || params[field] == "" {
        errors := errors + [MissingMessage(field)];
      }
      i := i + 1;
    }
    assert errors == MissingErrors(params, Requireds) && (errors == [] <==> AllGiven(params)) by {
      assert Requireds[..i] == Requireds;
      MissingErrorsEmpty(params);
    }
    if errors != [] {
      r := Err(InvalidUploadParameterError(JoinLines(errors)));
      return;
    }
    var studyObjectId := params["study_id"];
    if studyObjectId !in studyPks {
      r := Err(StudyDoesNotExist);
      return;
    }
    var studyId := studyPks[studyObjectId];
    var fileName := params["file_name"];
    if |fileName| > 256 {
      errors := errors + [FileNameTooLong];
    }
    if fileName in existingNames {
      errors := errors + [AlreadyExists(fileName)];
    }
    ghost var nameErrors := errors;
    var tags: seq<string> := [];
    match decodeTags(params["tags"]) {
      case TagList(t) =>
        if |t| == 0 {
          errors := errors + [NoTags];
        }
        tags := t;
      case _ =>
        errors := errors + [TagsNotParsed];
    }
    assert errors == ParameterErrors(fileName, existingNames, decodeTags(params["tags"])) by {
      assert errors == nameErrors + TagErrors(decodeTags(params["tags"]));
    }
    if errors != [] {
      r := Err(InvalidUploadParameterError(JoinLines(errors)));
      return;
    }
    var s3Path := PipelineUploadPath(studyObjectId, fileName, createdOn, randomSuffix);
    r := Ok((CreationArguments(createdOn, s3Path, studyId, fileName, lowMemoryChunkHash(fileContents)), tags));
  }

  /** An accepted upload has all three parameters, a short fresh name and at least one tag. */
  lemma AcceptedUploadIsValid(params: map<string, string>, existingNames: set<string>, tags: TagsJson)
    requires AllGiven(params)
    requires ParameterErrors(params["file_name"], existingNames, tags) == []
    ensures |params["file_name"]| <= 256 && params["file_name"] !in existingNames
    ensures tags.TagList? && |tags.tags| > 0
  {
  }
}
