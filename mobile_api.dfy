/** The phone-facing endpoints: the upload acceptance decision and its ordered writes, the
    extension check, device registration and the participant's survey download. */
module MobileApi {
  import opened Wrappers
  import opened PyStrings
  import opened Constants
  import ParseFilename
  import S3
  import DataAccessModels
  import ProfilingModels
  import UserModels
  import StudyModels

  /** The text after the last '.' of a name (Python `name.rsplit('.', 1)[1]`); a name
      without '.' has no second piece and raises IndexError (`Err(())`). */
  function GrabFileExtension(fileName: string): (r: Result<string, ()>)
    ensures r.Ok? <==> '.' in fileName
    ensures r.Ok? ==> ('.' !in r.value && |r.value| < |fileName|
      && fileName[|fileName| - |r.value| - 1] == '.' && fileName[|fileName| - |r.value|..] == r.value)
  {
    match LastIndexOf(fileName, '.')
    case None => Err(())
    case Some(i) => Ok(fileName[i + 1..])
  }

  /** The name's last '.' is at `i` and the text after it is an allowed extension. */
  predicate AllowedExtensionAt(fileName: string, i: int)
  {
    0 <= i < |fileName| && fileName[i] == '.' && '.' !in fileName[i + 1..] && fileName[i + 1..] in AllowedExtensions
  }

  /** Whether a name has a '.' and the text after the last one is an allowed extension:
      exactly the `stem.ext` names with an allowed dot-free `ext`. */
  function ContainsValidExtension(fileName: string): (b: bool)
    ensures b <==> exists i :: AllowedExtensionAt(fileName, i)
  {
    var b := '.' in fileName && GrabFileExtension(fileName).value in AllowedExtensions;
    assert b ==> AllowedExtensionAt(fileName, |fileName| - |GrabFileExtension(fileName).value| - 1);
    assert (exists i :: AllowedExtensionAt(fileName, i)) ==> b by {
      if exists i :: AllowedExtensionAt(fileName, i) {
        var i :| AllowedExtensionAt(fileName, i);
        assert fileName[i] in fileName;
        assert fileName[i + 1..] == GrabFileExtension(fileName).value;
      }
    }
    b
  }

  /** How decryption of the uploaded body ended. */
  datatype Decryption = Decrypted(contents: string) | HandledError | DecryptionKeyInvalid

  /** What an upload request comes to: discarded with 200 (the phone deletes the file),
      accepted and stored, rejected with 400 (the phone retries), or a server error. */
  datatype Outcome = Discarded | Accepted(fileName: string, contents: string) | Rejected | ServerError

  function Status(o: Outcome): int
  {
    match o
    case Discarded => 200
    case Accepted(_, _) => 200
    case Rejected => 400
    case ServerError => 500
  }

  /** "crashlog", in any letter case, starts at index `i` of the name. */
  predicate CrashLogAt(name: string, i: int)
  {
    0 <= i <= |name| - 8 && Lower(name[i..i + 8]) == "crashlog"
  }

  /** The checks before decryption pass: the participant has a device, a non-empty file
      name was sent, and the name is neither a crash log nor an "rList-" file. */
  function GatesPass(deviceId: string, fileName: Option<string>): (b: bool)
    ensures b ==> deviceId != "" && fileName.Some? && fileName.value != ""
    ensures fileName.Some? ==> forall i :: CrashLogAt(fileName.value, i) ==> !b
  {
    assert fileName.Some? ==> forall i :: CrashLogAt(fileName.value, i) ==> Contains(Lower(fileName.value), "crashlog") by {
      if fileName.Some? {
        forall i | CrashLogAt(fileName.value, i)
          ensures Contains(Lower(fileName.value), "crashlog")
        {
          LowerSlice(fileName.value, i, i + 8);
          assert OccursAt(Lower(fileName.value), "crashlog", i);
        }
      }
    }
    deviceId != "" && fileName.Some? && fileName.value != ""
    && !Contains(Lower(fileName.value), "crashlog") && !StartsWith(fileName.value, "rList-")
  }

  /** The upload decision as written: after the gates and a successful decryption, a
      non-empty body with an invalid extension is rejected, except that a name without any
      '.' makes the error report raise IndexError, answered with 500. */
  function UploadOutcomeAsWritten(deviceId: string, fileName: Option<string>, decryption: Decryption): (o: Outcome)
    ensures o.Accepted? <==> (GatesPass(deviceId, fileName) && decryption.Decrypted?
      && decryption.contents != "" && ContainsValidExtension(fileName.value))
    ensures o.Accepted? ==> o.fileName == fileName.value && o.contents == decryption.contents
    ensures o.ServerError? <==> (GatesPass(deviceId, fileName) && decryption.Decrypted?
      && decryption.contents != "" && '.' !in fileName.value)
    ensures o.Rejected? <==> (GatesPass(deviceId, fileName) && decryption.Decrypted?
      && decryption.contents != "" && '.' in fileName.value && !ContainsValidExtension(fileName.value))
  {
    if !GatesPass(deviceId, fileName) || !decryption.Decrypted? then Discarded
    else
      var name := fileName.value;
      var contents := decryption.contents;
      if contents != "" && ContainsValidExtension(name) then Accepted(name, contents)
      else if contents == "" then Discarded
      else if GrabFileExtension(name).Err? then ServerError
      else Rejected
  }

  /** The upload decision with every invalid extension rejected, as the response codes of
      the endpoint promise. */
  function UploadOutcome(deviceId: string, fileName: Option<string>, decryption: Decryption): (o: Outcome)
    ensures o.Accepted? <==> (GatesPass(deviceId, fileName) && decryption.Decrypted?
      && decryption.contents != "" && ContainsValidExtension(fileName.value))
    ensures o.Accepted? ==> o.fileName == fileName.value && o.contents == decryption.contents
    ensures o.Rejected? <==> (GatesPass(deviceId, fileName) && decryption.Decrypted?
      && decryption.contents != "" && !ContainsValidExtension(fileName.value))
    ensures Status(o) == 200 || Status(o) == 400
  {
    if !GatesPass(deviceId, fileName) || !decryption.Decrypted? then Discarded
    else
      var name := fileName.value;
      var contents := decryption.contents;
      if contents != "" && ContainsValidExtension(name) then Accepted(name, contents)
      else if contents == "" then Discarded
      else Rejected
  }

  /** The two decisions differ exactly on a non-empty body whose name has no '.'. */
  lemma DecisionsDifferOnDotlessNames(deviceId: string, fileName: Option<string>, decryption: Decryption)
    ensures UploadOutcomeAsWritten(deviceId, fileName, decryption) != UploadOutcome(deviceId, fileName, decryption)
      <==> GatesPass(deviceId, fileName) && decryption.Decrypted? && decryption.contents != "" && '.' !in fileName.value
    ensures UploadOutcomeAsWritten(deviceId, fileName, decryption) != UploadOutcome(deviceId, fileName, decryption)
      ==> (UploadOutcomeAsWritten(deviceId, fileName, decryption) == ServerError
        && UploadOutcome(deviceId, fileName, decryption) == Rejected)
  {
  }

  /** A registered phone uploading a non-empty body named "gps" gets 500 as written. */
  lemma DotlessNameCrashes()
    ensures Status(UploadOutcomeAsWritten("device", Some("gps"), Decrypted("x"))) == 500
    ensures Status(UploadOutcome("device", Some("gps"), Decrypted("x"))) == 400
  {
    assert !Contains(Lower("gps"), "crashlog");
    assert !StartsWith("gps", "rList-");
    assert '.' !in "gps";
  }

  /** The storage key of an upload: each '_' of the name becomes '/', under
      "RAW_DATA/<study>/". */
  function UploadKey(studyObjectId: string, fileName: string): (key: string)
    ensures |studyObjectId| > 0 && '/' !in studyObjectId && |fileName| > 0 && fileName[0] != '/' && fileName[0] != '_'
      ==> key == RawDataFolder + "/" + studyObjectId + "/" + ReplaceAll(fileName, "_", "/")
  {
    S3.RawDataPath(studyObjectId, ReplaceAll(fileName, "_", "/"))
  }

  /** A phone names uploads "<patient>_<upload type>_<stamp>.csv": the stored key parses back
      to the study, the patient, the stream the upload type maps to and the stamp. */
  lemma UploadKeyRoundTrip(studyId: string, patientId: string, upload: string, stamp: string)
    requires |studyId| > 0 && '/' !in studyId && !Contains(studyId, ChunksFolder)
    requires |patientId| > 0 && '/' !in patientId && '_' !in patientId && !Contains(patientId, ChunksFolder)
    requires '/' !in upload && '_' !in upload && !Contains(upload, ChunksFolder)
    requires upload in UploadFileTypeMapping
    requires !Contains(upload, Identifiers) && !Contains(upload, "ios")
    requires S3.DigitStamp(stamp)
    ensures var key := UploadKey(studyId, patientId + "_" + upload + "_" + stamp + ".csv");
      ParseFilename.ParseFilename(key)
        == if UploadFileTypeMapping[upload] == ImageFile then Err(ParseFilename.IndexError)
           else Ok(ParseFilename.ParsedFile(key, Some(RawData), Some("csv"), Some(studyId), Some(patientId),
                   Some(UploadFileTypeMapping[upload]), Some(stamp), None, None))
  {
    UploadNameSlashes(patientId, upload, stamp);
    S3.RawDataPathRoundTrip(studyId, patientId, upload, stamp);
  }

  /** The '_'s of a phone's upload name become the '/'s of the key. */
  lemma UploadNameSlashes(patientId: string, upload: string, stamp: string)
    requires '_' !in patientId && '_' !in upload && S3.DigitStamp(stamp)
    ensures ReplaceAll(patientId + "_" + upload + "_" + stamp + ".csv", "_", "/")
      == patientId + "/" + upload + "/" + (stamp + ".csv")
  {
    var name := stamp + ".csv";
    assert '_' !in name by {
      S3.DigitStampPlain(stamp);
      forall k | 0 <= k < |name|
        ensures name[k] != '_'
      {
        if k < |stamp| {
          assert name[k] == stamp[k];
        }
      }
    }
    var xs := [patientId, upload, name];
    assert ReplaceAll(Join(xs, '_'), "_", "/") == Join(xs, '/') by {
      ReplaceCharJoin(xs, '_', '/');
    }
    forall c: char
      ensures Join(xs, c) == patientId + [c] + upload + [c] + name
    {
      assert xs[1..] == [upload, name];
      assert xs[1..][1..] == [name];
      assert Join([name], c) == name;
      assert Join([upload, name], c) == upload + [c] + name;
    }
    assert patientId + "_" + upload + "_" + stamp + ".csv" == patientId + "_" + upload + "_" + name;
  }

  /** A write the upload performs, in order. */
  datatype Effect = Stored(key: string) | Enqueued(key: string) | Tracked(key: string) | Counted(key: string)

  /** The writes for an accepted upload stored under `key`: the body is stored, then queued
      for processing, then tracked, then counted, and 200 is answered only after all four.
      A study missing from the study table raises after the store, and a key whose parse has
      no data type raises after the tracking row (500 both). */
  method StoreAccepted(studyObjectId: string, patientId: string, key: string, contents: string,
                       bucket: S3.Bucket, queue: DataAccessModels.FileToProcessQueue,
                       tracking: ProfilingModels.UploadTracking, stats: ProfilingModels.ReceivedDataStats,
                       studyPks: map<string, int>, trackedAt: int, countedAt: int, encrypt: (string, string) -> string)
    returns (status: int, effects: seq<Effect>)
    modifies bucket, queue, tracking, stats
    ensures bucket.objects == old(bucket.objects)[key := encrypt(contents, studyObjectId)]
    ensures studyObjectId !in studyPks ==> (status == 500 && effects == [Stored(key)]
      && queue.rows == old(queue.rows) && tracking.rows == old(tracking.rows) && stats.rows == old(stats.rows))
    ensures studyObjectId in studyPks ==>
      (queue.rows == old(queue.rows) + [DataAccessModels.FileToProcess(key, studyPks[studyObjectId], patientId)]
      && tracking.rows == old(tracking.rows) + [ProfilingModels.UploadRecord(key, |contents|, trackedAt, patientId)])
    ensures studyObjectId in studyPks && ProfilingModels.DataTypeOf(key).Err? ==>
      (status == 500 && effects == [Stored(key), Enqueued(key), Tracked(key)] && stats.rows == old(stats.rows))
    ensures studyObjectId in studyPks && ProfilingModels.DataTypeOf(key).Ok? ==>
      (status == 200 && effects == [Stored(key), Enqueued(key), Tracked(key), Counted(key)]
      && stats.rows == ProfilingModels.Recorded(old(stats.rows),
        ProfilingModels.StatsKey(patientId, ProfilingModels.DataTypeOf(key).value), |contents|, countedAt))
  {
    bucket.Upload(key, contents, studyObjectId, true, encrypt);
    effects := [Stored(key)];
    var queued := queue.AppendFileForProcessing(key, studyObjectId, patientId, studyPks);
    if queued.Err? {
      return 500, effects;
    }
    effects := [Stored(key), Enqueued(key)];
    tracking.Create(key, |contents|, trackedAt, patientId);
    effects := [Stored(key), Enqueued(key), Tracked(key)];
    var counted := stats.UpdateStatistics(key, patientId, |contents|, countedAt);
    if counted.Err? {
      return 500, effects;
    }
    effects := [Stored(key), Enqueued(key), Tracked(key), Counted(key)];
    return 200, effects;
  }

  /** upload: the request is checked step by step as `UploadOutcomeAsWritten` decides; an accepted
      body is written as `StoreAccepted` states, under its upload key; nothing is written
      for any other outcome. */
  method Upload(p: UserModels.Participant, fileName: Option<string>, decryption: Decryption,
                bucket: S3.Bucket, queue: DataAccessModels.FileToProcessQueue,
                tracking: ProfilingModels.UploadTracking, stats: ProfilingModels.ReceivedDataStats,
                studyPks: map<string, int>, trackedAt: int, countedAt: int, encrypt: (string, string) -> string)
    returns (status: int, effects: seq<Effect>)
    modifies bucket, queue, tracking, stats
    ensures var o := UploadOutcomeAsWritten(p.deviceId, fileName, decryption);
      !o.Accepted? ==> (status == Status(o) && effects == [] && bucket.objects == old(bucket.objects)
        && queue.rows == old(queue.rows) && tracking.rows == old(tracking.rows) && stats.rows == old(stats.rows))
    ensures var o := UploadOutcomeAsWritten(p.deviceId, fileName, decryption);
      o.Accepted? ==> var key := UploadKey(p.studyObjectId, o.fileName);
        (bucket.objects == old(bucket.objects)[key := encrypt(o.contents, p.studyObjectId)]
        && (p.studyObjectId !in studyPks ==> (status == 500 && effects == [Stored(key)]
          && queue.rows == old(queue.rows) && tracking.rows == old(tracking.rows) && stats.rows == old(stats.rows)))
        && (p.studyObjectId in studyPks ==>
          (queue.rows == old(queue.rows) + [DataAccessModels.FileToProcess(key, studyPks[p.studyObjectId], p.patientId)]
          && tracking.rows == old(tracking.rows) + [ProfilingModels.UploadRecord(key, |o.contents|, trackedAt, p.patientId)]))
        && (p.studyObjectId in studyPks && ProfilingModels.DataTypeOf(key).Err? ==>
          (status == 500 && effects == [Stored(key), Enqueued(key), Tracked(key)] && stats.rows == old(stats.rows)))
        && (p.studyObjectId in studyPks && ProfilingModels.DataTypeOf(key).Ok? ==>
          (status == 200 && effects == [Stored(key), Enqueued(key), Tracked(key), Counted(key)]
          && stats.rows == ProfilingModels.Recorded(old(stats.rows),
            ProfilingModels.StatsKey(p.patientId, ProfilingModels.DataTypeOf(key).value), |o.contents|, countedAt))))
  {
    effects := [];
    if p.deviceId == "" {
      return 200, effects;
    }
    if fileName.None? || fileName.value == "" {
      return 200, effects;
    }
    var name := fileName.value;
    if Contains(Lower(name), "crashlog") {
      return 200, effects;
    }
    if StartsWith(name, "rList-") {
      return 200, effects;
    }
    if !decryption.Decrypted? {
      return 200, effects;
    }
    var contents := decryption.contents;
    if contents != "" && ContainsValidExtension(name) {
      status, effects := StoreAccepted(p.studyObjectId, p.patientId, UploadKey(p.studyObjectId, name), contents,
                                       bucket, queue, tracking, stats, studyPks, trackedAt, countedAt, encrypt);
      return;
    }
    if contents == "" {
      return 200, effects;
    }
    var extension := GrabFileExtension(name);
    if extension.Err? {
      return 500, effects;
    }
    return 400, effects;
  }

  /** The device-identifiers header row. */
  const DeviceIdentifiersHeader := "patient_id,MAC,phone_number,device_id,device_os,os_version,product,brand,hardware_id,manufacturer,model,beiwe_version\n"

  /** Optional request values, in the order of the identifiers row (bluetooth_id is the MAC). */
  const OptionalKeys: seq<string> := ["device_os", "os_version", "product", "brand", "hardware_id", "manufacturer", "model", "beiwe_version"]

  /** A request value, or "none" when the phone did not send it. */
  function ValueOr(values: map<string, string>, key: string): string
  {
    if key in values then values[key] else "none"
  }

  /** The fields of a registration's identifiers row, in header order. */
  function IdentifiersRow(patientId: string, values: map<string, string>): seq<string>
    requires "phone_number" in values && "device_id" in values
  {
    [patientId, ValueOr(values, "bluetooth_id"), values["phone_number"], values["device_id"]]
      + seq(|OptionalKeys|, (i: int) requires 0 <= i < |OptionalKeys| => ValueOr(values, OptionalKeys[i]))
  }

  /** The identifiers file of a registration: the header, then one comma-separated row that
      reads back to the phone's values when none of them holds a comma. */
  function IdentifiersContents(patientId: string, values: map<string, string>): (r: string)
    requires "phone_number" in values && "device_id" in values
    ensures |r| >= |DeviceIdentifiersHeader| && r[..|DeviceIdentifiersHeader|] == DeviceIdentifiersHeader
    ensures var row := IdentifiersRow(patientId, values);
      (forall k :: 0 <= k < |row| ==> ',' !in row[k]) ==> Split(r[|DeviceIdentifiersHeader|..], ',') == row
  {
    var row := IdentifiersRow(patientId, values);
    var r := DeviceIdentifiersHeader + Join(row, ',');
    assert r[|DeviceIdentifiersHeader|..] == Join(row, ',');
    assert (forall k :: 0 <= k < |row| ==> ',' !in row[k]) ==> Split(Join(row, ','), ',') == row by {
      if forall k :: 0 <= k < |row| ==> ',' !in row[k] {
        SplitJoin(row, ',');
      }
    }
    r
  }

  /** The storage key of a registration's identifiers file. */
  function IdentifiersKey(studyObjectId: string, patientId: string, unixTime: nat): string
  {
    S3.RawDataPath(studyObjectId, patientId + "/identifiers_" + NatToString(unixTime) + ".csv")
  }

  /** Why registration is refused before anything changes: a missing required value (400),
      a different device already registered (405) or a different operating system already
      recorded (400). */
  function RegistrationRefusal(deviceId: string, osType: string, values: map<string, string>, osApi: string): (r: Option<int>)
    ensures r == Some(405) <==> ("phone_number" in values && "device_id" in values
      && deviceId != "" && deviceId != values["device_id"])
    ensures r == Some(400) <==> (("phone_number" !in values || "device_id" !in values)
      || ((deviceId == "" || deviceId == values["device_id"]) && osType != "" && osType != osApi))
    ensures r.Some? ==> r.value == 400 || r.value == 405
  {
    if "phone_number" !in values || "device_id" !in values then Some(400)
    else if deviceId != "" && deviceId != values["device_id"] then Some(405)
    else if osType != "" && osType != osApi then Some(400)
    else None
  }

  /** register_user: the refusals come before any change. Otherwise the identifiers file is
      stored and queued (a study missing from the study table raises, 500), then the device
      and operating system are set, and last the new password, whose absence from the
      request answers 400 after those changes. */
  method RegisterUser(p: UserModels.Participant, values: map<string, string>, osApi: string, unixTime: nat,
                      bucket: S3.Bucket, queue: DataAccessModels.FileToProcessQueue, studyPks: map<string, int>,
                      encrypt: (string, string) -> string, hashAndSalt: string -> (string, string))
    returns (status: int)
    modifies p, bucket, queue
    ensures var refusal := RegistrationRefusal(old(p.deviceId), old(p.osType), values, osApi);
      refusal.Some? ==> (status == refusal.value && bucket.objects == old(bucket.objects) && queue.rows == old(queue.rows)
        && p.deviceId == old(p.deviceId) && p.osType == old(p.osType)
        && p.password == old(p.password) && p.salt == old(p.salt))
    ensures var refusal := RegistrationRefusal(old(p.deviceId), old(p.osType), values, osApi);
      var key := IdentifiersKey(p.studyObjectId, p.patientId, unixTime);
      refusal.None? ==> (bucket.objects == old(bucket.objects)[key := encrypt(IdentifiersContents(p.patientId, values), p.studyObjectId)]
        && (p.studyObjectId !in studyPks ==> (status == 500 && queue.rows == old(queue.rows)
          && p.deviceId == old(p.deviceId) && p.osType == old(p.osType)))
        && (p.studyObjectId in studyPks ==>
          (queue.rows == old(queue.rows) + [DataAccessModels.FileToProcess(key, studyPks[p.studyObjectId], p.patientId)]
          && p.deviceId == values["device_id"] && p.osType == osApi
          && ("new_password" !in values ==> status == 400 && p.password == old(p.password) && p.salt == old(p.salt))
          && ("new_password" in values ==> (status == 200 && p.password == hashAndSalt(values["new_password"]).0
            && p.salt == hashAndSalt(values["new_password"]).1)))))
    ensures p.patientId == old(p.patientId) && p.studyObjectId == old(p.studyObjectId)
  {
    if "phone_number" !in values || "device_id" !in values {
      return 400;
    }
    var deviceId := values["device_id"];
    if p.deviceId != "" && p.deviceId != deviceId {
      return 405;
    }
    if p.osType != "" && p.osType != osApi {
      return 400;
    }
    var key := IdentifiersKey(p.studyObjectId, p.patientId, unixTime);
    bucket.Upload(key, IdentifiersContents(p.patientId, values), p.studyObjectId, true, encrypt);
    var queued := queue.AppendFileForProcessing(key, p.studyObjectId, p.patientId, studyPks);
    if queued.Err? {
      return 500;
    }
    p.SetDevice(deviceId);
    p.SetOsType(osApi);
    if "new_password" !in values {
      return 400;
    }
    p.SetPassword(values["new_password"], hashAndSalt);
    return 200;
  }

  /** The surveys of one participant, in order. */
  function ParticipantSurveys(surveys: seq<StudyModels.Survey>, patientId: string): (r: seq<StudyModels.Survey>)
    ensures forall s :: s in r <==> s in surveys && s.participant == Some(patientId)
  {
    if |surveys| == 0 then []
    else
      var last := surveys[|surveys| - 1];
      var init := ParticipantSurveys(surveys[..|surveys| - 1], patientId);
      assert surveys == surveys[..|surveys| - 1] + [last];
      init + (if last.participant == Some(patientId) then [last] else [])
  }

  /** get_surveys_for_participant: the participant's surveys are listed as a study's are. */
  method GetSurveysForParticipant(surveys: seq<StudyModels.Survey>, patientId: string, requestingOs: string)
    returns (list: seq<StudyModels.SurveyJson>)
    ensures list == StudyModels.SurveyListing(ParticipantSurveys(surveys, patientId), requestingOs)
  {
    list := [];
    var i := 0;
    while i < |surveys|
      invariant 0 <= i <= |surveys|
      invariant list == StudyModels.SurveyListing(ParticipantSurveys(surveys[..i], patientId), requestingOs)
    {
      var survey := surveys[i];
      ghost var before := ParticipantSurveys(surveys[..i], patientId);
      assert surveys[..i + 1][..i] == surveys[..i];
      if survey.participant == Some(patientId) {
        assert ParticipantSurveys(surveys[..i + 1], patientId) == before + [survey];
        assert (before + [survey])[..|before|] == before;
        if !survey.deleted && !(requestingOs == "ANDROID" && survey.surveyType == StudyModels.ImageSurvey) {
          list := list + [StudyModels.AsSurveyJson(survey)];
        }
      } else {
        assert ParticipantSurveys(surveys[..i + 1], patientId) == before + [];
        assert before + [] == before;
      }
      i := i + 1;
    }
    assert surveys[..|surveys|] == surveys;
  }
}
