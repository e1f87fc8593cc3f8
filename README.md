# beiwe-backend core, modelled in Dafny

Beiwe is a research platform: participants' phones upload sensor and survey data, and the
backend decrypts it, stores it in S3, registers it in "chunks" (hourly bins) for the data
pipeline and serves study configuration back to the phones and to the researchers' web pages.
This project models the part of the backend that decides things:

- storage keys: the index layouts, the upload-name table and the data-stream names
  (`Constants`); the key parser (`ParseFilename`); the S3 adapter's key prefixing, retrieval
  retries, listings and path builders, with the bucket as a map from key to body (`S3`);
- the ingestion bookkeeping tables: chunk registration, hash updates, the processing queue and
  lock, and the pipeline-upload argument check (`DataAccessModels`); the per-participant upload
  statistics (`ProfilingModels`); the chunker's observation-count backfill (`RunChunker`);
- the phone endpoints: the upload decision and its ordered writes, registration and the
  survey listing (`MobileApi`);
- the database models: unique object ids, deletion flags, updates and plain-value views
  (`CommonModels`); studies, surveys and stored configurations (`StudyModels`); participants
  and researchers (`UserModels`); the data-pipeline run record and its status machine
  (`PipelineModels`);
- the pipeline settings with their environment overrides (`ConfigurationGetters`); the
  device-settings form of the system administrator (`SystemAdminPages`); the survey editor's
  save request (`SurveyApi`); and the survey command-line tool's identifiers, weekly schedule,
  intended hours and answer numbers (`SurveyUtils`).

Database tables are classes holding a sequence or map of row values; objects whose methods
assign their own fields (participants, researchers, settings records, the bucket) are classes
with those fields. Python's exceptions are `Err` values of `Result`. Randomness, the clock,
hashing, encryption, JSON encoding and decoding and the environment are parameters of the
members that use them. `Wrappers` holds `Option` and `Result`, and `PyStrings` the parts of
Python's `str`, `list` and `posixpath` the core relies on (split, join, strip, `in`, replace,
basename, `str()` of a number).

## Model

| member | source | states |
|---|---|---|
| CommonModels.Candidate | database/common_models.py:53 | a candidate id has 24 characters, each from the allowed alphabet |
| CommonModels.GenerateObjectIdString | database/common_models.py:42-59 | the id returned is the first of the ten candidates not already used, is 24 allowed characters and is unused; ObjectIdError exactly when all ten candidates are taken |
| CommonModels.CandidateIsObjectId | database/common_models.py:173-174 | every generated candidate passes `is_object_id` |
| CommonModels.AssignedValues | database/common_models.py:154-159 | after `update`, each named attribute holds its given value, every other attribute keeps its old value, and no attribute appears that was neither present nor named |
| CommonModels.Record.MarkDeleted | database/common_models.py:38-40 | the deletion flag is set and the attributes are unchanged |
| CommonModels.Record.Update | database/common_models.py:154-159 | the attributes become the in-order assignment of the keyword arguments; the deletion flag is unchanged |
| CommonModels.AsNativePython | database/common_models.py:117-138 | the dictionary holds exactly the reported fields (no relation fields, no timestamps when they are removed) and each JSON text field is read with the decoder, every other field verbatim |
| Constants.DataStreamCases | config/constants.py:147-165 | the nineteen stream names, spelled out, are exactly the members of `ALL_DATA_STREAMS` |
| Constants.StreamNameIsOneSegment | config/constants.py:127-145 | no stream name holds a '/', so a stream name is one segment of a storage key |
| Constants.DataStreamToS3FileNameString | config/constants.py:191-213 | the as-written lookup: any failure is the "unknown data type" exception |
| Constants.S3FileNameString | config/constants.py:191-213 | the corrected lookup succeeds exactly on the data streams |
| Constants.ImageSurveyRaises | config/constants.py:212-213 | the as-written lookup raises for `image_survey`, a data stream, where the corrected one returns "imageSurvey" |
| Constants.UnknownTypeRaises | config/constants.py:213 | both lookups raise for a name that is not a data stream |
| Constants.LookupsAgree | config/constants.py:194-211 | the two lookups agree on every name but `image_survey` |
| Constants.UploadMappingInverse | config/constants.py:169-211 | for every upload name, the lookup of the stream it maps to gives back the upload name |
| Constants.S3FileNameRoundTrip | config/constants.py:169-211 | for every stream but `identifiers`, the upload table maps its upload name back to it; the as-written lookup gives the same name except for `image_survey` |
| Constants.UploadMappingInjective | config/constants.py:169-188 | no two upload names map to the same stream |
| Constants.UploadMappingValues | config/constants.py:147-188 | the upload table's values are exactly the streams other than `identifiers` |
| Constants.MappingsAgree | config/constants.py:86-111 | the chunk and new raw layouts are equal, each new raw index is one more than the legacy one, and the file name is the last segment in all three |
| Constants.ChunkableFilesAreStreams | config/constants.py:215-230 | every chunkable stream is a data stream |
| Constants.UnchunkableStreams | config/constants.py:215-230 | survey answers, audio recordings and image surveys are not chunked |
| Constants.StreamMarkers | config/constants.py:127-165 | among the streams only `identifiers` contains "identifiers" and only `ios_log` contains "ios" |
| Constants.AudioRecordingsNoIos | config/constants.py:140 | "audio_recordings" does not contain "ios" |
| DataAccessModels.Normalize | database/data_access_models.py:45-47 | normalised content ends in exactly one newline and, before it, is the content with its trailing newlines stripped |
| DataAccessModels.NormalizeIdempotent | database/data_access_models.py:47 | normalising twice is normalising once |
| DataAccessModels.TrailingNewlinesIgnored | database/data_access_models.py:47-52 | adding trailing newlines changes neither the normalised content (the hash input) nor the observation count |
| DataAccessModels.ObservationCount | database/data_access_models.py:49-50 | the observation count (newlines less one) is the number of line breaks before the trailing newlines, so never negative |
| DataAccessModels.TimeBinSecondsInverse | database/data_access_models.py:55 | the stored time bin is a multiple of 3600 seconds that divides back to the bin index |
| DataAccessModels.ChunkedRow | database/data_access_models.py:40-77 | UnchunkableDataTypeError exactly for a type outside the chunkable set; otherwise a live chunkable row with the given path, type, study, participant and survey, its time bin times 3600 seconds, its observation count the newlines before the trailing ones, and its hash that of the normalised contents |
| DataAccessModels.UnchunkedRowAsWritten | database/data_access_models.py:80-92 | as written, unchunked registration always raises: ChunkableDataTypeError exactly for a chunkable type, NameError (the unbound `file_contents`) exactly for any other |
| DataAccessModels.UnchunkedRegistrationNeverSucceeds | database/data_access_models.py:80-92 | the as-written registration fails for every data type: for a chunkable type with the same ChunkableDataTypeError as the corrected one, for any other with NameError where the corrected one succeeds |
| DataAccessModels.UnchunkedRow | database/data_access_models.py:80-104 | the corrected registration: ChunkableDataTypeError exactly for a chunkable type; otherwise an unchunkable row with an empty hash, the given timestamp and the count of inner line breaks |
| DataAccessModels.RegistrationsPartitionDataTypes | database/data_access_models.py:42-85 | for every data type exactly one of the two registrations succeeds |
| DataAccessModels.ChunksTimeRange | database/data_access_models.py:107-123 | a row is selected exactly when it is of the study, not deleted, in the participant and type lists when those are non-empty, and within the inclusive bounds that are given |
| DataAccessModels.UnfilteredTimeRange | database/data_access_models.py:114-123 | without lists or bounds the query is every live row of the study |
| DataAccessModels.ChunkRegistry.RegisterChunkedData | database/data_access_models.py:40-77 | on success exactly one row is appended and no existing row is read or changed; on error the table is unchanged |
| DataAccessModels.ChunkRegistry.RegisterUnchunkedDataAsWritten | database/data_access_models.py:80-92 | as written, the call raises and the table is unchanged |
| DataAccessModels.ChunkRegistry.RegisterUnchunkedData | database/data_access_models.py:80-104 | the corrected registration appends the row `UnchunkedRow` describes, or raises with the table unchanged |
| DataAccessModels.ChunkRegistry.UpdateChunkHash | database/data_access_models.py:125-135 | the row's hash and count are reset from the normalised data; every other field and row is unchanged |
| DataAccessModels.ChunkRegistry.LowMemoryUpdateChunkHash | database/data_access_models.py:137-147 | only the list's first element is normalised, hashed and counted; an empty list raises IndexError with nothing changed |
| DataAccessModels.FileToProcessQueue.AppendFileForProcessing | database/data_access_models.py:157-163 | one row with the path unchanged and the study's key is appended; an unknown study raises with nothing appended |
| DataAccessModels.FileProcessLock.Lock | database/data_access_models.py:172-177 | locking when locked raises and changes nothing; otherwise it creates the one lock row; either way the lock is then held |
| DataAccessModels.FileProcessLock.Unlock | database/data_access_models.py:179-181 | every lock row is removed |
| DataAccessModels.FileProcessLock.TimeSinceLocked | database/data_access_models.py:187-189 | defined exactly when locked, and then the time since the last lock row |
| DataAccessModels.LockSequence | database/data_access_models.py:172-185 | lock then lock raises, and lock, unlock, lock succeeds |
| DataAccessModels.MissingErrors | database/data_access_models.py:213-216 | no message exactly when every listed parameter is present and not empty |
| DataAccessModels.MissingErrorsEmpty | database/data_access_models.py:196-220 | no missing-parameter error exactly when study_id, tags and file_name are all given |
| DataAccessModels.TagErrors | database/data_access_models.py:238-248 | no tag error exactly when the tags decode to a non-empty list |
| DataAccessModels.ParameterErrors | database/data_access_models.py:232-248 | no error exactly when the name has at most 256 characters, was not uploaded before, and the tags are a non-empty list |
| DataAccessModels.GetCreationArguments | database/data_access_models.py:209-274 | missing parameters raise first, with one message each; an unknown study raises next; then all name and tag errors are raised together; otherwise the arguments carry the pipeline path, the study key, the name, the hash and the tags |
| DataAccessModels.AcceptedUploadIsValid | database/data_access_models.py:232-251 | an accepted upload has a short, fresh name and at least one tag |
| MobileApi.GrabFileExtension | api/mobile_api.py:307-309 | defined exactly for a name holding a '.', and then the dot-free text after the last '.' |
| MobileApi.ContainsValidExtension | api/mobile_api.py:312-314 | a name passes the extension check exactly when it ends in '.' followed by a dot-free allowed extension |
| MobileApi.GatesPass | api/mobile_api.py:84-122 | only a registered device with a non-empty file name passes, and a name holding "crashlog" in any letter case never does |
| MobileApi.UploadOutcomeAsWritten | api/mobile_api.py:84-194 | the decision as written: accepted exactly when the gates pass, decryption succeeds, the body is not empty and the extension is valid; 500 exactly when such a body has a name without '.'; 400 exactly when it has a '.' and an invalid extension |
| MobileApi.UploadOutcome | api/mobile_api.py:84-194 | the corrected decision: as written, except that a dot-free name is rejected (400) like every other invalid extension, so the answer is always 200 or 400 |
| MobileApi.DecisionsDifferOnDotlessNames | api/mobile_api.py:174-194 | the as-written decision differs from the corrected one exactly on a non-empty body whose name has no '.', where it answers 500 instead of 400 |
| MobileApi.DotlessNameCrashes | api/mobile_api.py:184-186 | a non-empty body named "gps" gets 500 as written and 400 when corrected |
| MobileApi.UploadKey | api/mobile_api.py:152 | for a plain study id and a relative name, the key is "RAW_DATA/<study>/" followed by the name with every '_' replaced by '/' |
| MobileApi.UploadKeyRoundTrip | api/mobile_api.py:150-152 | the key an upload named "<patient>_<type>_<stamp>.csv" is stored under parses back to its study, patient, stream and stamp (image surveys, whose raw keys have no instance segment, raise) |
| MobileApi.StoreAccepted | api/mobile_api.py:150-172 | the body is stored, then queued, then tracked, then counted, and 200 comes only after all four; an unknown study stops after the store and a key without a data type after the tracking row, both 500 |
| MobileApi.Upload | api/mobile_api.py:79-194 | the answer is the as-written decision's status (500 for a non-empty body whose name has no '.'); nothing is written unless it accepts; an accepted body is written under its upload key as `StoreAccepted` states |
| MobileApi.RegistrationRefusal | api/mobile_api.py:214-256 | 405 exactly when another device is registered; 400 exactly when a required value is missing or another operating system is recorded |
| MobileApi.IdentifiersContents | api/mobile_api.py:266-270 | the identifiers file starts with the header, and its row splits on ',' back to the patient id, MAC, phone number, device id and the optional values in header order (each "none" when not sent) whenever no value holds a comma |
| MobileApi.RegisterUser | api/mobile_api.py:205-284 | a refused registration changes nothing; otherwise the identifiers file is stored and queued, then the device and operating system are set, then the password, and a missing new password answers 400 after those writes |
| MobileApi.ParticipantSurveys | api/mobile_api.py:323 | a survey is listed exactly when it belongs to the participant, in table order |
| MobileApi.GetSurveysForParticipant | api/mobile_api.py:320-343 | the list is the study listing of the participant's surveys: live ones only, without image surveys for Android |
| ParseFilename.Layout | libs/parse_filename.py:32-40 | the layout is always one of the three index mappings, chosen by the chunk-folder test, then the raw-folder test |
| ParseFilename.ParseFilename | libs/parse_filename.py:9-15 | trailing whitespace is stripped and the result's `filename` is the stripped key |
| ParseFilename.ParseKey | libs/parse_filename.py:15-73 | the result's `filename` is the key it was given |
| ParseFilename.ResolveSurveyIdFromFileName | libs/parse_filename.py:5-6 | defined exactly when the parse succeeds with a survey id, and then that survey id; otherwise KeyError |
| ParseFilename.ParseIgnoresTrailingWhitespace | libs/parse_filename.py:14 | appending whitespace to a key never changes its parse |
| ParseFilename.NoExtensionIsRegistration | libs/parse_filename.py:20-26 | a key without extension parses to its name and the registration marker, with no study, patient or data type |
| ParseFilename.DisallowedExtensionIsBare | libs/parse_filename.py:70-73 | a key with an extension outside the allowed set parses, without error, to its name alone |
| ParseFilename.SelectShift | config/constants.py:95-111 | the new raw layout applied to a key with one more leading segment reads the same segments as the legacy layout |
| ParseFilename.UnderRawFolder | libs/parse_filename.py:17-40 | prefixing "RAW_DATA/" to a marker-free key adds one leading segment, keeps its base name and switches the layout from legacy to new raw |
| ParseFilename.LegacyKey | libs/parse_filename.py:20-68 | a marker-free key and the same key under "RAW_DATA/" succeed or fail together, with the same error, and otherwise differ only in the stored name |
| ParseFilename.LegacyRawKey | libs/parse_filename.py:36-68 | a legacy raw key p and "RAW_DATA/"+p give the same study, patient, data type, time string and survey id |
| S3.PrefixFormsAgree | libs/s3.py:19-56 | for a study id without a trailing '/' and a relative key, the joined and concatenated prefixes agree; a raw path is used unchanged |
| S3.PrefixFormsDifferOnAbsoluteKey | libs/s3.py:21-56 | on an absolute key the joined form drops the study folder while the concatenated form keeps it, with a doubled '/' |
| S3.JoinedKey | libs/s3.py:19-22 | a raw path or an absolute key is used unchanged; otherwise a relative key is placed under the study folder with one '/' |
| S3.ConcatenatedKey | libs/s3.py:53-58 | a raw path is used unchanged; otherwise the key is the study id, one '/' and the key path, whatever the key path holds |
| S3.MapKeys | libs/s3.py:105-106 | one listed key per key of the page |
| S3.ListFiles | libs/s3.py:96-107 | the materialised listing collects every page's keys in order, stripped of '/', and skips pages without Contents |
| S3.ListingCons | libs/s3.py:103-106 | the listing of a page followed by more pages is that page's keys followed by the rest's listing |
| S3.GeneratedIsPrefix | libs/s3.py:96-115 | the generator yields a prefix of the materialised listing, and all of it when every page has Contents |
| S3.ListingsDifferOnEmptyPage | libs/s3.py:103-115 | an empty page before a full one: the generator yields nothing, the materialised listing the full page's keys |
| S3.DoRetrieve | libs/s3.py:78-86 | at most n+1 attempts are made; every attempt before the last failed; the result is the last attempt's body, or an error after exactly n+1 failures |
| S3.RetrieveReturnsFirstSuccess | libs/s3.py:78-86 | the first attempt that succeeds within the budget is the one returned, after that many attempts |
| S3.RetrieveSucceedsIffSomeAttemptDoes | libs/s3.py:78-86 | the retrieval succeeds exactly when one of the n+1 attempts succeeds |
| S3.AttemptOutcomes | libs/s3.py:80-82 | an attempt returns the stored body exactly when the key is stored and that attempt hits no service error |
| S3.Bucket.Upload | libs/s3.py:53-58 | the encrypted body is stored under the concatenated key and nothing else changes |
| S3.Bucket.UploadPublic | libs/s3.py:60-66 | the unencrypted body is stored under the concatenated key and its public URL returned |
| S3.Bucket.Retrieve | libs/s3.py:68-86 | the attempts and the result are those of `DoRetrieve` on the stored body under the concatenated key, decrypted on success; it succeeds exactly when the key is stored and some attempt within the n+1 is free of service errors |
| S3.Bucket.Delete | libs/s3.py:19-22 | exactly the joined key is removed |
| S3.Bucket.Exists | libs/s3.py:24-36 | true exactly when the joined key is stored |
| S3.Bucket.Move | libs/s3.py:38-51 | the copy comes first: a failed copy raises and changes nothing; otherwise the body is at the destination and the source is deleted |
| S3.MoveRelocates | libs/s3.py:44-51 | after a move between two different keys the body is at the destination and nothing is at the source |
| S3.KeyPaths | libs/s3.py:120-124 | for a plain study id, the key paths are "KEYS/<study>/<participant>_private" and "..._public" |
| S3.RawDataPath | libs/s3.py:126-129 | for a plain study id and a relative file name, the raw-data path is "RAW_DATA/<study>/<file name>" |
| S3.DigitStampPlain | libs/s3.py:126-129 | a decimal stamp holds no '/', '_' or '.', and "<stamp>.csv" does not name the chunk folder |
| S3.RawKeyMarkers | libs/parse_filename.py:32-40 | a five-segment raw-data key names the raw folder and not the chunk folder |
| S3.RawKeyShape | libs/parse_filename.py:14-20 | a five-segment raw-data key has no trailing whitespace, splits into its five segments and has extension "csv" |
| S3.ParseRawKey | libs/parse_filename.py:28-68 | the parse of a five-segment raw-data key is its fields under the new raw layout |
| S3.RawDataPathRoundTrip | libs/s3.py:126-129 | the raw path of "<patient>/<upload>/<stamp>.csv" parses back to its study, patient, the stream the upload name maps to and the stamp (an image survey, without an instance segment, raises) |
| S3.ChunkPathFromRawDataPath | libs/s3.py:137-138 | a raw path with one raw-folder name at its start becomes the same path under the chunk folder |
| S3.ChunkPathFromRawDataPathReplacesAll | libs/s3.py:137-138 | every occurrence of "RAW_DATA" is replaced, not only the first |
| S3.IsoDateTimePlain | libs/s3.py:16-17 | an ISO 8601 date-time holds no '/', '_' or '.' |
| S3.FiveSegments | libs/s3.py:134 | a key of five '/'-free segments splits back into them, and its base name is the last |
| S3.CsvName | libs/s3.py:134 | a "<t>.csv" name has extension "csv" and no trailing whitespace |
| S3.ChunkPathShape | libs/s3.py:131-135 | the parser sees a chunk path as its five segments, with the chunk folder named and extension "csv" |
| S3.TimeStringOf | libs/parse_filename.py:50 | the time string of "<t>.csv" is t when t has no '_' |
| S3.IdentifiersTimeString | libs/parse_filename.py:47 | the time string read from the segment "identifiers" is "identif" |
| S3.IdentifiersFields | libs/parse_filename.py:45-47 | under the chunk layout, an "identifiers" type segment gives the identifiers stream and the time string "identif" |
| S3.ChunkPath | libs/s3.py:131-135 | with '/'-free parts, a chunk path splits on '/' into the chunk folder, the study, the user, the type and "<time>.csv" |
| S3.ParseChunkKey | libs/parse_filename.py:28-68 | the parse of a chunk-shaped key is its fields under the chunk layout |
| S3.ChunkPathRoundTrip | libs/s3.py:131-135 | a chunk path parses back to its study, user, the type segment (or `ios_log` when it contains "ios") and the ISO time string |
| S3.IdentifiersChunkTime | libs/parse_filename.py:45-47 | an identifiers chunk path parses to the identifiers stream with the time string "identif", not the time of its bin |
| S3.ChunkPathRoundTripStreams | libs/s3.py:131-135 | for every data stream, the chunk path parses back to its study, user and stream, with its time string, except "identif" for identifiers |
| PipelineModels.DeltaSecondsAsWritten | database/pipeline_models.py:70 | as written, the recorded run time is the difference with whole days dropped: in 0..86399 and equal to the difference modulo a day |
| PipelineModels.ElapsedSeconds | database/pipeline_models.py:70-115 | the corrected run time: start plus run time is the end |
| PipelineModels.DeltaSecondsWithinADay | database/pipeline_models.py:70 | for runs shorter than a day the as-written and corrected run times agree |
| PipelineModels.DayLongRunUndercounted | database/pipeline_models.py:70 | a 25-hour run is recorded as one hour as written, 25 hours when corrected |
| PipelineModels.RunSeconds | database/pipeline_models.py:70 | the recorded run time of a run ending at a time: 0 without a start, otherwise in 0..86399 and the difference modulo a day, the difference itself within a day |
| PipelineModels.StartedAt | database/pipeline_models.py:48-60 | a started run is "running" with its start time and every other field unchanged |
| PipelineModels.CompletedAt | database/pipeline_models.py:63-72 | completion fails (TypeError) exactly when the run never started; otherwise the run is "completed" with the end time and the as-written run time, every other field unchanged |
| PipelineModels.CrashedAt | database/pipeline_models.py:76-97 | a crash report leaves a completed run unchanged; otherwise the run is "failed" with the end time, the as-written run time and the error text, every other field unchanged |
| PipelineModels.TerminatedAt | database/pipeline_models.py:109-122 | termination makes any run "terminated" with the reason, the end time and the as-written run time, every other field unchanged |
| PipelineModels.CompletedSubstringOnlyInCompleted | database/pipeline_models.py:82 | among the statuses only "completed" contains "completed" |
| PipelineModels.CrashFailsUnlessCompleted | database/pipeline_models.py:76-93 | a crash on a run that has not completed marks it failed with the error text and the end time, leaving the start and batch id; the run time is 0 without a start, otherwise in 0..86399 and equal to the difference modulo a day (the difference itself for runs shorter than a day) |
| PipelineModels.StartThenComplete | database/pipeline_models.py:48-71 | a started then completed run is "completed" with both times; its run time is in 0..86399, equal to the difference modulo a day, and the difference itself for runs shorter than a day |
| PipelineModels.CrashAfterCompletionIgnored | database/pipeline_models.py:80-95 | a crash reported after completion leaves the record unchanged |
| PipelineModels.TerminationAlwaysTerminates | database/pipeline_models.py:109-122 | termination sets "terminated" whatever the status, and a later crash report is not ignored |
| PipelineModels.TransitionsKeepKnownStatus | database/pipeline_models.py:43-118 | every transition leads to one of the five statuses |
| PipelineModels.PipelineExecutionTracking.PipelineScheduled | database/pipeline_models.py:27-45 | succeeds exactly when the researcher exists and has the study; then a new "queued" row with a fresh key is added; otherwise nothing changes |
| PipelineModels.PipelineExecutionTracking.PipelineStarted | database/pipeline_models.py:47-60 | an existing row becomes running with its start time; a missing key raises and changes nothing |
| PipelineModels.PipelineExecutionTracking.PipelineCompleted | database/pipeline_models.py:62-73 | an existing started row becomes `CompletedAt` of it, with the as-written run time; a missing key or a run never started raises and changes nothing |
| PipelineModels.PipelineExecutionTracking.PipelineCrashed | database/pipeline_models.py:75-97 | an existing row becomes `CrashedAt` of it, with the as-written run time; a missing key raises |
| PipelineModels.PipelineExecutionTracking.PipelineSetBatchJobId | database/pipeline_models.py:99-106 | an existing row gets the batch job id and nothing else changes; a missing key raises |
| PipelineModels.PipelineExecutionTracking.TerminateJob | database/pipeline_models.py:108-122 | an existing row becomes `TerminatedAt` of it, with the reason, the end time and the as-written run time; a missing key raises |
| ProfilingModels.DataTypeOf | database/profiling_models.py:82 | defined exactly when the key parses with a data type, and then that data type; otherwise the parse error or KeyError (line 120 repeats the same lookup) |
| ProfilingModels.RecordedKeepsOtherKeys | database/profiling_models.py:122-132 | one upload leaves every other (participant, data type) row as it was |
| ProfilingModels.RecordedAllCounts | database/profiling_models.py:122-141 | after any interleaving of uploads, a new key's row counts its uploads, sums their sizes and holds their latest time; a key without uploads gets no row |
| ProfilingModels.RecordedAllKeepsOtherKeys | database/profiling_models.py:122-141 | a row whose key receives no upload is untouched by any sequence of uploads |
| ProfilingModels.ReceivedDataStats.UpdateStatistics | database/profiling_models.py:116-141 | a key without a data type raises with nothing changed; otherwise the row for (participant, data type) is created with one upload or updated by one upload, its bytes and a strictly later time |
| ProfilingModels.ReceivedDataStats.Record | database/profiling_models.py:122-141 | the table becomes the create-or-update of `Recorded` |
| ProfilingModels.HourOf | database/profiling_models.py:85 | the hour start is a multiple of 3600 at most the time and less than an hour before it |
| ProfilingModels.SameHourSameRow | database/profiling_models.py:85-87 | two times in the same hour address the same hourly row |
| ProfilingModels.RecordedHourlyAdds | database/profiling_models.py:87-99 | a new hourly row starts at the given count, an existing one grows by it, and other rows are untouched |
| ProfilingModels.ReceivedDataStatsHourly.UpdateStatistics | database/profiling_models.py:78-101 | a key without a data type raises with nothing changed; otherwise the row for (participant, data type, hour) is created with the count or incremented by it |
| ProfilingModels.ReceivedDataStatsHourly.Record | database/profiling_models.py:87-99 | the table becomes the create-or-increment of `RecordedHourly` |
| ProfilingModels.UploadTracking.Create | api/mobile_api.py:158-163 | exactly one tracking row is appended |
| RunChunker.CheckedCount | scripts/run_chunker.py:24-37 | a voice recording counts one observation; any other chunk the line breaks of its content before the trailing newlines, never negative |
| RunChunker.CheckedCountIgnoresTrailingNewlines | scripts/run_chunker.py:34-37 | trailing newlines in the stored content do not change the count |
| RunChunker.NewCount | scripts/run_chunker.py:24-37 | a voice recording always gets 1; any other chunk gets a count exactly when its path is stored |
| RunChunker.CheckAndUpdateNumberOfObservations | scripts/run_chunker.py:22-42 | succeeds exactly when the chunk is a voice recording or its body is stored and some retrieval attempt is free of service errors; then only the chunk's count changes, to `NewCount`; a failure changes nothing |
| RunChunker.Uncounted | scripts/run_chunker.py:80-82 | exactly the rows without a count, each once, in table order |
| RunChunker.ChunksToFixSelects | scripts/run_chunker.py:79-82 | the selection holds only uncounted rows, in table order; all of them when the limit is not positive, otherwise at most the limit with none skipped before the last selected |
| RunChunker.Backfilled | scripts/run_chunker.py:84-86 | the table keeps its length |
| RunChunker.SetNumObs | scripts/run_chunker.py:73-86 | the selected chunks are counted in order; the run stops with an error exactly at the first chunk that cannot be counted (not a voice recording, and its body missing or every retrieval attempt failing), with every earlier chunk counted and nothing else changed |
| StudyModels.SurveyListing | database/study_models.py:57-73 | the listing sent to a phone is never longer than the study's surveys |
| StudyModels.SurveyListingMembers | database/study_models.py:57-73 | a survey view is listed exactly when some survey of the study is not deleted and is not an image survey asked for by the Android app |
| StudyModels.AndroidListingHasNoImageSurvey | database/study_models.py:67-69 | the Android app is never sent an image survey |
| StudyModels.GetSurveysForStudy | database/study_models.py:57-73 | the loop builds exactly `SurveyListing`, in the surveys' order |
| StudyModels.CreationSettings | database/study_models.py:198-211 | given settings are kept; otherwise audio and image surveys get their default settings and every other type the field default `{}` |
| StudyModels.SurveyTable.CreateWithSettings | database/study_models.py:198-211 | a created survey is appended with a fresh 24-character object id, not deleted, with `CreationSettings`; a failed id generation leaves the table unchanged |
| StudyModels.SurveyTable.MarkDeleted | database/study_models.py:153-156 | the survey is renamed "<name> Deleted <time>" and flagged deleted, and no other row changes |
| StudyModels.StudyAsNativePython | database/study_models.py:91-94 | the study's view never holds the encryption key, holds every other reported field's value, and fails (KeyError) exactly when there is no encryption key to remove |
| StudyModels.MarkedDeleted | database/study_models.py:110-115 | marking keeps the number of stored configurations |
| StudyModels.MarkedDeletedLeavesNoLiveConfig | database/study_models.py:110-115 | after marking, every configuration of the study is deleted and every other one is unchanged |
| StudyModels.StudyConfigTable.CreateFromFile | database/study_models.py:102-128 | no STUDY_OBJECT_ID: error and nothing changes; otherwise the study's configurations are marked deleted before the id is checked, and the new configuration is appended exactly when the id is a 24-character object id of an existing study |
| UserModels.FirstFresh | database/user_models.py:117-124 | the first candidate from k on that is not a taken id, with every earlier one taken; none exactly when all candidates are taken |
| UserModels.GeneratePatientId | database/user_models.py:115-124 | the id returned is never a taken one and is the first free candidate among twenty; RuntimeError exactly when all twenty are taken |
| UserModels.Participant.constructor | database/user_models.py:99-107 | a new participant has its id and study, no device and no operating system |
| UserModels.Participant.SetPassword | database/user_models.py:33-40 | the password hash and salt of the new password replace the old ones; nothing else changes |
| UserModels.Participant.SetDevice | database/user_models.py:144-146 | only the device id changes |
| UserModels.Participant.SetOsType | database/user_models.py:148-150 | only the operating system changes |
| UserModels.Participant.ClearDevice | database/user_models.py:152-154 | the device id becomes empty, so the participant is unregistered; nothing else changes |
| UserModels.CreateWithPassword | database/user_models.py:109-130 | succeeds exactly when a free id is found; the new participant has that fresh id, the study, and the hash of the generated password, which is returned with the id |
| UserModels.CheckPassword | database/user_models.py:200-208 | an unknown username is refused without any comparison; a known one gives the comparison with its stored salt and hash |
| UserModels.Take | database/user_models.py:236-237 | `s[:n]` is a prefix of at most n characters, the whole string when it is short enough |
| UserModels.Researcher.constructor | database/user_models.py:168-175 | a new researcher is not an admin and has no access credentials |
| UserModels.Researcher.ElevateToAdmin | database/user_models.py:223-225 | the researcher becomes an admin; nothing else changes |
| UserModels.Researcher.ResetAccessCredentials | database/user_models.py:235-243 | the key and secret are the random strings cut to 64 characters; the key is stored as is, the secret only as its hash and salt; username and admin flag are kept |
| ConfigurationGetters.LoadedSettings | pipeline/configuration_getters.py:73-76 | an unreadable file gives an empty configuration, text that is not JSON raises the decoder's error, a JSON object gives its entries |
| ConfigurationGetters.OverriddenValues | pipeline/configuration_getters.py:78-81 | the environment's value wins for every listed key it sets; no other environment variable is added; every other key keeps the file's value |
| ConfigurationGetters.Overridden | pipeline/configuration_getters.py:78-81 | the override keeps every key of the file and adds only listed keys |
| ConfigurationGetters.Setting | pipeline/configuration_getters.py:73-81 | the value a listed key ends with: the environment's when set, otherwise the file's (none from an unreadable file) |
| ConfigurationGetters.Missing | pipeline/configuration_getters.py:84 | the missing settings are exactly the listed keys absent from the configuration |
| ConfigurationGetters.Configs | pipeline/configuration_getters.py:67-89 | text that is not JSON raises the decoder's error; a not-configured error names at least one missing key; a success holds every listed key |
| ConfigurationGetters.ConfigsMeaning | pipeline/configuration_getters.py:67-89 | unless the file is malformed, success exactly when every listed key has a `Setting`, each value then being that setting; otherwise the error names exactly the listed keys without one |
| ConfigurationGetters.CustomConfigs | pipeline/configuration_getters.py:54-59 | succeeds exactly when the custom settings' `Configs` does, with the same error otherwise; a success has "region_name" and no "pipeline_region" |
| ConfigurationGetters.ValidateAndGetConfigs | pipeline/configuration_getters.py:67-89 | the result is `Configs` of the list, the file and the environment |
| ConfigurationGetters.OverrideFromEnvironment | pipeline/configuration_getters.py:78-81 | the override loop leaves the settings `Overridden` describes: every listed key the environment sets takes its value, nothing else changes |
| ConfigurationGetters.GetGenericConfig | pipeline/configuration_getters.py:51-52 | the result is `Configs` of the generic settings |
| ConfigurationGetters.GetCustomConfig | pipeline/configuration_getters.py:54-59 | the result is `CustomConfigs`: the custom settings' `Configs` with "pipeline_region" renamed to "region_name" |
| ConfigurationGetters.GetAwsObjectNames | pipeline/configuration_getters.py:61-64 | succeeds exactly when both the generic and the custom settings do, otherwise with the generic error first; a success holds the keys of both, the custom values winning and every generic-only key keeping the generic value |
| SystemAdminPages.Unflattened | pages/system_admin_pages.py:197-207 | the only failure of the nesting is ValueError |
| SystemAdminPages.UnflattenedFails | pages/system_admin_pages.py:204 | the nesting fails exactly when some key does not split into three '.'-parts |
| SystemAdminPages.UnflattenedLabels | pages/system_admin_pages.py:203-206 | the labels of the nested sections are exactly the middle parts of the keys |
| SystemAdminPages.UnflattenedContentTypes | pages/system_admin_pages.py:203-206 | a label holds a content type exactly when some key names that label and content type |
| SystemAdminPages.UnflattenedLastWins | pages/system_admin_pages.py:206 | each slot holds the content of the last entry addressing it |
| SystemAdminPages.SlotIgnoresFirstPart | pages/system_admin_pages.py:204 | a key "<first>.<label>.<content type>" of dot-free parts addresses that label and content type whatever its first part |
| SystemAdminPages.UnflattenConsentSections | pages/system_admin_pages.py:197-207 | the loop builds exactly `Unflattened`, raising ValueError at the first malformed key |
| SystemAdminPages.FirstValues | pages/system_admin_pages.py:186-187 | the request values one pair per key: the first pair given for each key is kept, every kept pair is the first for its key, and no key repeats |
| SystemAdminPages.ConsentItems | pages/system_admin_pages.py:187 | exactly the request values whose key starts with "consent_section" |
| SystemAdminPages.ParamItems | pages/system_admin_pages.py:186 | exactly the request values whose key does not start with "consent_section" |
| SystemAdminPages.PartitionIsExact | pages/system_admin_pages.py:186-187 | every request value goes to exactly one of the two parts and none is lost |
| SystemAdminPages.DeviceSettingsPost | pages/system_admin_pages.py:182-194 | a non-system administrator gets 403 and nothing changes; the request values are taken one pair per key with the first value given; a malformed consent key raises before any change; otherwise the settings get the converted other values plus the serialised sections, then 302 |
| SurveyApi.IntToString | api/survey_api.py:78-80 | Python `str` of an integer: its decimal digits, with a leading '-' when negative |
| SurveyApi.Str | api/survey_api.py:78-80 | the string form of a string is itself and of a number its decimal text |
| SurveyApi.StringifiedQuestion | api/survey_api.py:76-80 | a question dictionary keeps its keys and every value but "max" and "min", which become their string form; any other element raises TypeError or is left alone |
| SurveyApi.StringifiedQuestionIdempotent | api/survey_api.py:78-80 | stringifying a stringified question changes nothing |
| SurveyApi.Stringified | api/survey_api.py:76-81 | the list succeeds exactly when every element does, keeping its length and order with each element stringified; otherwise TypeError |
| SurveyApi.StringifiedIdempotent | api/survey_api.py:76-81 | stringification applied twice equals applying it once |
| SurveyApi.MakeSliderMinMaxValuesStrings | api/survey_api.py:72-81 | the same array is updated in place to `Stringified` of its old contents; on TypeError the elements before the failing one are already stringified and the rest untouched |
| SurveyApi.Unescaped | api/survey_api.py:67 | after deleting backslashes outside "\n" escapes, every backslash left starts a "\n" |
| SurveyApi.UnescapedKeeps | api/survey_api.py:67 | text whose backslashes all start "\n" is left unchanged |
| SurveyApi.StripKeepsEscapes | api/survey_api.py:67 | stripping '"' at both ends leaves every "\n" escape whole |
| SurveyApi.StripIdempotent | api/survey_api.py:67 | stripping the same characters twice strips nothing more |
| SurveyApi.Cleaned | api/survey_api.py:67 | the cleaned text keeps a "\n" escape after every backslash and has no '"' at either end |
| SurveyApi.CleanedIdempotent | api/survey_api.py:67 | cleaning the text twice equals cleaning it once, so every attempt after the first decodes the same text |
| SurveyApi.FirstAttempt | api/survey_api.py:63-68 | the first attempt succeeds exactly when the cleaned text decodes to a list, giving its items; ValueError exactly when it does not decode; any other value leads to "could not decode" |
| SurveyApi.RecursiveSurveyContentJsonDecode | api/survey_api.py:59-69 | the outcome is `FirstAttempt`'s: a decoded list, the decoder's error, or after exactly 100 attempts "could not decode json entity to list"; never more than 100 attempts |
| SurveyApi.IntendedDecode | api/survey_api.py:59-69 | the decoding that goes on with a decoded string fails only with the decoder's error or "could not decode" |
| SurveyApi.IntendedAgreesOnFirstAttempt | api/survey_api.py:63-68 | where the first attempt gives a list, a decoder error, or a value other than a string, the intended decoding agrees with the code |
| SurveyApi.SpacedQuotedListNeverDecodes | api/survey_api.py:63-68 | a JSON string holding a list, spaced so no quote is stripped, makes the code raise where the intended decoding gives the list |
| SurveyApi.CleanedPlain | api/survey_api.py:67 | text without backslashes and without a quote at either end is already clean |
| SurveyApi.SurveyIndex | api/survey_api.py:34-37 | the position of a survey with the given primary key, or none exactly when no survey has it |
| SurveyApi.PreparedContent | api/survey_api.py:42-43 | prepared content comes from a cleaned text that decodes to a list, keeps the list's length and is already stringified; a cleaned text that decodes to a string fails with "could not decode"; the only errors are ValueError, "could not decode" and TypeError |
| SurveyApi.PrepareContent | api/survey_api.py:42-43 | the stored content is `PreparedContent`: the submitted text decoded as written, then stringified in place on a new list |
| SurveyApi.SurveyUpdate | api/survey_api.py:42-56 | 201 exactly when a survey is saved, otherwise 400 or 500; a saved survey differs only in content, timings and settings, the last two as submitted |
| SurveyApi.UpdateRule | api/survey_api.py:45-56 | once the content prepares and every value is supplied, 400 exactly for a tracking survey with more than one validation error, and 201 otherwise with the stringified content saved |
| SurveyApi.UpdateSurvey | api/survey_api.py:31-56 | an unknown survey is 404 and nothing changes; otherwise the answer is `SurveyUpdate`'s and only that survey changes, to `SurveyUpdate`'s survey |
| SurveyUtils.HexDigit | scripts/survey_utils.py:31 | `'{:x}'.format(r)` of a value below 16 is one lower-case hexadecimal digit |
| SurveyUtils.UuidFrom | scripts/survey_utils.py:23-35 | the identifier has the template's length |
| SurveyUtils.DigitValue | scripts/survey_utils.py:27-30 | the digit value stays below 16 |
| SurveyUtils.UuidShape | scripts/survey_utils.py:25-33 | whatever the clock and the draws: '-' and '4' are copied, each 'x' becomes a lower-case hexadecimal digit, the 'y' a digit in 8..f (in 8..b for the intended variant) |
| SurveyUtils.UuidConstantDraws | scripts/survey_utils.py:26-31 | with the clock at 0 and every draw the same, each 'y' becomes the variant digit of that draw |
| SurveyUtils.FillTemplate | scripts/survey_utils.py:24-35 | the loop over the template builds exactly `UuidFrom` from the clock value and the draws in order |
| SurveyUtils.CreateUuid | scripts/survey_utils.py:20-35 | the identifier is `UuidFrom` of the fixed template with the as-written variant step (the low three bits of the draw, with the 8 bit set) |
| SurveyUtils.VariantDigitOutsideRfc | scripts/survey_utils.py:30 | the as-written variant digit can be 'c', outside the 8..b that section 4.1.1 of RFC 4122 allows |
| SurveyUtils.CreateRfcUuid | scripts/survey_utils.py:20-35 | the identifier with the variant step (the low two bits of the draw, with the 8 bit set), whose variant digit is always in 8..b |
| SurveyUtils.DecimalOfNatToString | scripts/survey_utils.py:337 | reading back the decimal form of a number gives the number |
| SurveyUtils.PyInt | scripts/survey_utils.py:337 | `int()` of a string of decimal digits is its value, and of '-' followed by digits the negated value |
| SurveyUtils.ClockTime | scripts/survey_utils.py:336-337 | a time is read exactly when it holds one ':' and both sides are integers, and then as the two integers |
| SurveyUtils.ClockTimeOfDecimal | scripts/survey_utils.py:336-337 | a time written "H:M" in decimal is read as hour H and minute M, 3600·H + 60·M seconds from midnight |
| SurveyUtils.PyIntOfDecimal | scripts/survey_utils.py:337 | `int()` reads back the decimal form of a number |
| SurveyUtils.DayHour | scripts/survey_utils.py:338-340 | the 12-hour hour is in 1..12 and agrees with the hour modulo 12, 0 shown as 12 |
| SurveyUtils.DayTime | scripts/survey_utils.py:342-346 | the label ends in " PM" exactly when the hour is past 11, in " AM" otherwise |
| SurveyUtils.WeekdayIndex | scripts/survey_utils.py:75 | a known weekday names one of the seven day lists |
| SurveyUtils.TimingsAfter | scripts/survey_utils.py:335-351 | the schedule always has seven day lists |
| SurveyUtils.TimingsAfterCounts | scripts/survey_utils.py:350-351 | each day's list holds the time once per listing of that day, and nothing else |
| SurveyUtils.KnownPrefix | scripts/survey_utils.py:350-372 | the weekdays before the first unknown name are all known, and the next one, if any, raises KeyError |
| SurveyUtils.SplitSurveys | scripts/survey_utils.py:371-388 | with split days, one survey per weekday handled |
| SurveyUtils.WeekdaySurveys | scripts/survey_utils.py:348-388 | with split days one survey per weekday before the first unknown one; otherwise one survey exactly when every weekday is known and none otherwise; every survey has the label and seven day lists |
| SurveyUtils.SplitDaysAccumulate | scripts/survey_utils.py:335-388 | with split days the shared day lists accumulate: the k-th weekday's survey has one slot per listing of each day among the first k + 1 weekdays |
| SurveyUtils.ScheduleWeekdays | scripts/survey_utils.py:348-388 | the weekday loop creates exactly `WeekdaySurveys`, and KeyError exactly when some weekday is unknown |
| SurveyUtils.ScheduleTime | scripts/survey_utils.py:334-388 | a time that is not "H:M" with integer parts raises ValueError before any survey is created; otherwise the surveys are those of its weekdays at 3600·H + 60·M seconds with the 12-hour label |
| SurveyUtils.IntendedHours | scripts/survey_utils.py:159-163 | the intended hours are exactly the times of all day lists divided by 3600, rounded down, without duplicates |
| SurveyUtils.LastIndex | scripts/survey_utils.py:200-202 | the last position holding a text, or none exactly when the text does not occur |
| SurveyUtils.AnswerNumbers | scripts/survey_utils.py:195-204 | answers are numbered 1, 2, ... in order and keyed by text, each key once, a repeated text keeping the number of its last occurrence |

## Left out

- Cryptography (device-file decryption, server-side encryption, the RSA and AES keys), chunk hashing and password hashing: their modules are not part of this model, so they are function parameters or a success/failure outcome.
- JSON encoding and decoding, `random_choice`/`random.randint`, `time.time()`, `timezone.now()` and the ISO rendering of times: parameters. Times are whole seconds since the epoch.
- The network and AWS plumbing behind the storage adapter: the bucket is a map, and a failed attempt is a parameter of the retrieval.
- Saving rows, Django timestamps, querysets and their ordering: a table's rows are a sequence in insertion order.
- Floating point: the pipeline's `execution_time_minutes` is kept as its numerator, the `seconds` field of the end-minus-start `timedelta` (whole days dropped), not divided by 60.0; the megabyte and hour displays are not modelled.
- PipelineModels.PipelineExecutionTracking.PipelineStarted: a missing run raises an error, not the `NameError` of the undefined `Pipeline` name in database/pipeline_models.py:52, which only matters once the lookup has failed anyway.
- `UploadTracking.weekly_stats` (database/profiling_models.py:157-197): it uses undefined names and is not called by the core.
- The thread pool of `--set_num_obs` in scripts/run_chunker.py: the chunks are fixed one after the other.
- Rendering: the GET branch of `device_settings`, flash messages, templates and redirects other than their status codes.
- `checkbox_to_boolean` and `string_to_int` in `device_settings`: a single conversion parameter, since their modules are not part of this model.
- The survey validator `do_validate_survey`: libs/json_logic.py is not part of this model, so the validator is a parameter returning its error list.
- `delete_survey` in api/survey_api.py and the rest of the routing layer: not part of the modelled core.
- Python 2 `str()` of unicode text and of floats: `SurveyApi.Str` renders strings and integers exactly and leaves lists and dictionaries to a `show` parameter.
- SurveyUtils.PyInt: `int()` accepts ASCII digits only, not other Unicode digits or '_' separators.
- RunChunker.SetNumObs: whether a retrieval attempt hits a service error is a parameter, per chunk and attempt.
- DataAccessModels.InTimeRange: a chunk row carries its participant's patient id in place of the participant foreign key, since the query filters on `participant__patient_id__in`.
- The question dictionaries of the survey tool (instruction text, `SurveyInstruction` formatting, the settings JSON and the `create_with_settings` call per created survey): `ScheduleTime` returns the surveys' names, labels and day lists, not their stored rows.
- The `SURVEYS` entry and the first-seen rule of the `QUESTIONS` entry of `--write_survey_config`: only the intended hours and answer numbers are modelled.
- SurveyApi.MakeSliderMinMaxValuesStrings: questions are values in an array, so the aliasing of a question dictionary shared between two list slots is not modelled.
- Dictionary iteration order: request values and consent sections are sequences of pairs in the order the request delivers them; a key the request repeats keeps its first value (`SystemAdminPages.FirstValues`).

## Findings

| source | as written | input that shows it | evidently intended | confidence | as-written member | corrected member |
|---|---|---|---|---|---|---|
| config/constants.py:212 | the image-survey case evaluates `"imageSurvey"` without `return`, so it falls through to the unknown-type exception | data type `image_survey` | return `"imageSurvey"` | not executed | Constants.ImageSurveyRaises | Constants.S3FileNameString |
| database/data_access_models.py:89 | `file_contents` is read before it is assigned, so every call for an unchunkable type raises `NameError` | any data type outside the chunkable set | normalise the contents passed in by the caller | not executed | DataAccessModels.UnchunkedRegistrationNeverSucceeds | DataAccessModels.UnchunkedRow |
| api/mobile_api.py:184-186 | the error message for an invalid extension calls `grab_file_extension`, which raises `IndexError` on a name without '.', so the upload answers 500 | a registered phone uploading a non-empty body named `gps` | answer 400 like every other invalid extension | not executed | MobileApi.DotlessNameCrashes | MobileApi.UploadOutcome |
| database/pipeline_models.py:70-115 | the run time uses `timedelta.seconds`, which drops whole days | a run of 90000 seconds (25 hours) records 3600 seconds | the whole difference | not executed | PipelineModels.DayLongRunUndercounted | PipelineModels.ElapsedSeconds |
| api/survey_api.py:63-68 | each retry re-cleans and re-decodes the same text, never the string it decoded to, so a doubly encoded list is never decoded and the loop ends in "could not decode" | the text ` "[1]" ` (a JSON string holding a list, with a space on each side) | decode the decoded string next | not executed | SurveyApi.SpacedQuotedListNeverDecodes | SurveyApi.IntendedDecode |
| scripts/survey_utils.py:30 | the variant digit is (the low three bits of the draw, with the 8 bit set), anywhere in 8..f, where section 4.1.1 of RFC 4122 allows only 8..b | clock 0 and every random draw 12 gives variant digit `c` | (the low two bits of the draw, with the 8 bit set) | not executed | SurveyUtils.VariantDigitOutsideRfc | SurveyUtils.CreateRfcUuid |
