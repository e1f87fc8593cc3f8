/** The constant tables of the backend: storage folder names, the three index layouts of a
    storage key, the data-stream names, the upload-name table and the chunkable set. */
module Constants {
  import opened Wrappers
  import opened PyStrings

  /** Retries the storage adapter makes after a failed retrieval when none is configured. */
  const DefaultS3Retries: nat := 1

  /** Extensions an uploaded or stored file may carry. */
  const AllowedExtensions: set<string> := {"csv", "json", "mp4", "wav", "txt", "jpg"}

  /** Positions of the fields in a '/'-split storage key; negative positions count from the end. */
  datatype IndexMapping = IndexMapping(
    studyId: int, patientId: int, dataType: int, surveyId: int,
    imageSurveyUserInstance: int, fileName: int)

  const ChunkPathMapping := IndexMapping(1, 2, 3, 4, 5, -1)
  const NewRawPathMapping := IndexMapping(1, 2, 3, 4, 5, -1)
  const OldRawPathMapping := IndexMapping(0, 1, 2, 3, 4, -1)

  /** Values of the `file_type` field of a parsed key. */
  const RawData := "RAW_DATA"
  const ChunkData := "CHUNK_DATA"
  const RegistrationMarker := "REGISTRATION_MARKER"

  /** Length in seconds of the time slice one chunk covers. */
  const ChunkTimesliceQuantum: nat := 3600

  /** Top-level storage folders. */
  const KeyFolder := "KEYS"
  const ChunksFolder := "CHUNKED_DATA"
  const PipelineFolder := "PIPELINE_DATA"
  const RawDataFolder := "RAW_DATA"

  /** Data-stream names. */
  const Accelerometer := "accelerometer"
  const AndroidLogFile := "app_log"
  const Bluetooth := "bluetooth"
  const CallLog := "calls"
  const Devicemotion := "devicemotion"
  const Gps := "gps"
  const Gyro := "gyro"
  const Identifiers := "identifiers"
  const IosLogFile := "ios_log"
  const PowerState := "power_state"
  const SurveyAnswers := "survey_answers"
  const SurveyTimings := "survey_timings"
  const TextsLog := "texts"
  const VoiceRecording := "audio_recordings"
  const ImageFile := "image_survey"
  const Wifi := "wifi"
  const Proximity := "proximity"
  const Magnetometer := "magnetometer"
  const Reachability := "reachability"

  const AllDataStreams: seq<string> := [
    Accelerometer, Bluetooth, CallLog, Gps, Identifiers, AndroidLogFile, PowerState,
    SurveyAnswers, SurveyTimings, TextsLog, VoiceRecording, Wifi, Proximity, Gyro,
    Magnetometer, Devicemotion, Reachability, IosLogFile, ImageFile]

  /** Membership in the stream list, spelled out. */
  predicate IsDataStream(d: string) {
    d == Accelerometer || d == Bluetooth || d == CallLog || d == Gps || d == Identifiers
    || d == AndroidLogFile || d == PowerState || d == SurveyAnswers || d == SurveyTimings
    || d == TextsLog || d == VoiceRecording || d == Wifi || d == Proximity || d == Gyro
    || d == Magnetometer || d == Devicemotion || d == Reachability || d == IosLogFile || d == ImageFile
  }

  lemma DataStreamCases(d: string)
    ensures d in AllDataStreams <==> IsDataStream(d)
  {
  }

  /** No stream name holds a '/', so a stream name is one segment of a storage key. */
  lemma StreamNameIsOneSegment(d: string)
    requires d in AllDataStreams
    ensures '/' !in d
  {
    DataStreamCases(d);
  }

  /** The name a phone gives a data stream in an upload, mapped to the stream. */
  const UploadFileTypeMapping: map<string, string> := map[
    "accel" := Accelerometer,
    "bluetoothLog" := Bluetooth,
    "callLog" := CallLog,
    "devicemotion" := Devicemotion,
    "gps" := Gps,
    "gyro" := Gyro,
    "logFile" := AndroidLogFile,
    "magnetometer" := Magnetometer,
    "powerState" := PowerState,
    "reachability" := Reachability,
    "surveyAnswers" := SurveyAnswers,
    "surveyTimings" := SurveyTimings,
    "textsLog" := TextsLog,
    "voiceRecording" := VoiceRecording,
    "wifiLog" := Wifi,
    "proximity" := Proximity,
    "ios_log" := IosLogFile,
    "imageSurvey" := ImageFile]

  /** Streams whose files are cut into hourly chunks. */
  const ChunkableFiles: set<string> := {
    Accelerometer, Bluetooth, CallLog, Gps, Identifiers, AndroidLogFile, PowerState,
    SurveyTimings, TextsLog, Wifi, Proximity, Gyro, Magnetometer, Devicemotion,
    Reachability, IosLogFile}

  /** The upload name of a data stream, as the if-chain is written: the image-survey branch
      evaluates its name without returning it, so that stream falls through to the error. */
  function DataStreamToS3FileNameString(dataType: string): (r: Result<string, string>)
    ensures r.Err? ==> r.error == "unknown data type: " + dataType
  {
    if dataType == Accelerometer then Ok("accel")
    else if dataType == Bluetooth then Ok("bluetoothLog")
    else if dataType == CallLog then Ok("callLog")
    else if dataType == Gps then Ok("gps")
    else if dataType == Identifiers then Ok("identifiers")
    else if dataType == AndroidLogFile then Ok("logFile")
    else if dataType == PowerState then Ok("powerState")
    else if dataType == SurveyAnswers then Ok("surveyAnswers")
    else if dataType == SurveyTimings then Ok("surveyTimings")
    else if dataType == TextsLog then Ok("textsLog")
    else if dataType == VoiceRecording then Ok("voiceRecording")
    else if dataType == Wifi then Ok("wifiLog")
    else if dataType == Proximity then Ok("proximity")
    else if dataType == Gyro then Ok("gyro")
    else if dataType == Magnetometer then Ok("magnetometer")
    else if dataType == Devicemotion then Ok("devicemotion")
    else if dataType == Reachability then Ok("reachability")
    else if dataType == IosLogFile then Ok("ios_log")
    else Err("unknown data type: " + dataType)
  }

  /** The same lookup with the image-survey branch returning its name. */
  function S3FileNameString(dataType: string): (r: Result<string, string>)
    ensures r.Ok? <==> dataType in AllDataStreams
  {
    DataStreamCases(dataType);
    if dataType == ImageFile then Ok("imageSurvey") else DataStreamToS3FileNameString(dataType)
  }

  /** The as-written lookup fails on the image-survey stream, which the corrected one names. */
  lemma ImageSurveyRaises()
    ensures DataStreamToS3FileNameString(ImageFile).Err?
    ensures S3FileNameString(ImageFile) == Ok("imageSurvey")
    ensures ImageFile in AllDataStreams
  {
    DataStreamCases(ImageFile);
  }

  /** Both lookups fail on a name that is not a data stream. */
  lemma UnknownTypeRaises(dataType: string)
    requires dataType !in AllDataStreams
    ensures DataStreamToS3FileNameString(dataType).Err?
    ensures S3FileNameString(dataType).Err?
  {
  }

  /** The two lookups agree on every stream but the image survey. */
  lemma LookupsAgree(dataType: string)
    requires dataType != ImageFile
    ensures DataStreamToS3FileNameString(dataType) == S3FileNameString(dataType)
  {
  }

  /** The inverse for the upload names "accel", "bluetoothLog", "callLog". */
  lemma UploadMappingInverseAccelBluetoothCalls(name: string)
    requires name == "accel" || name == "bluetoothLog" || name == "callLog"
    ensures name in UploadFileTypeMapping
    ensures S3FileNameString(UploadFileTypeMapping[name]) == Ok(name)
  {
    if name == "accel" {
      assert UploadFileTypeMapping["accel"] == Accelerometer;
      assert S3FileNameString(Accelerometer) == Ok("accel");
    } else if name == "bluetoothLog" {
      assert UploadFileTypeMapping["bluetoothLog"] == Bluetooth;
      assert S3FileNameString(Bluetooth) == Ok("bluetoothLog");
    } else if name == "callLog" {
      assert UploadFileTypeMapping["callLog"] == CallLog;
      assert S3FileNameString(CallLog) == Ok("callLog");
    }
  }

  /** The inverse for the upload names "devicemotion", "gps", "gyro". */
  lemma UploadMappingInverseMotionGpsGyro(name: string)
    requires name == "devicemotion" || name == "gps" || name == "gyro"
    ensures name in UploadFileTypeMapping
    ensures S3FileNameString(UploadFileTypeMapping[name]) == Ok(name)
  {
    if name == "devicemotion" {
      assert UploadFileTypeMapping["devicemotion"] == Devicemotion;
      assert S3FileNameString(Devicemotion) == Ok("devicemotion");
    } else if name == "gps" {
      assert UploadFileTypeMapping["gps"] == Gps;
      assert S3FileNameString(Gps) == Ok("gps");
    } else if name == "gyro" {
      assert UploadFileTypeMapping["gyro"] == Gyro;
      assert S3FileNameString(Gyro) == Ok("gyro");
    }
  }

  /** The inverse for the upload names "logFile", "magnetometer", "powerState". */
  lemma UploadMappingInverseLogMagnetometerPower(name: string)
    requires name == "logFile" || name == "magnetometer" || name == "powerState"
    ensures name in UploadFileTypeMapping
    ensures S3FileNameString(UploadFileTypeMapping[name]) == Ok(name)
  {
    if name == "logFile" {
      assert UploadFileTypeMapping["logFile"] == AndroidLogFile;
      assert S3FileNameString(AndroidLogFile) == Ok("logFile");
    } else if name == "magnetometer" {
      assert UploadFileTypeMapping["magnetometer"] == Magnetometer;
      assert S3FileNameString(Magnetometer) == Ok("magnetometer");
    } else if name == "powerState" {
      assert UploadFileTypeMapping["powerState"] == PowerState;
      assert S3FileNameString(PowerState) == Ok("powerState");
    }
  }

  /** The inverse for the upload names "reachability", "surveyAnswers", "surveyTimings". */
  lemma UploadMappingInverseReachabilitySurveys(name: string)
    requires name == "reachability" || name == "surveyAnswers" || name == "surveyTimings"
    ensures name in UploadFileTypeMapping
    ensures S3FileNameString(UploadFileTypeMapping[name]) == Ok(name)
  {
    if name == "reachability" {
      assert UploadFileTypeMapping["reachability"] == Reachability;
      assert S3FileNameString(Reachability) == Ok("reachability");
    } else if name == "surveyAnswers" {
      assert UploadFileTypeMapping["surveyAnswers"] == SurveyAnswers;
      assert S3FileNameString(SurveyAnswers) == Ok("surveyAnswers");
    } else if name == "surveyTimings" {
      assert UploadFileTypeMapping["surveyTimings"] == SurveyTimings;
      assert S3FileNameString(SurveyTimings) == Ok("surveyTimings");
    }
  }

  /** The inverse for the upload names "textsLog", "voiceRecording", "wifiLog". */
  lemma UploadMappingInverseTextsVoiceWifi(name: string)
    requires name == "textsLog" || name == "voiceRecording" || name == "wifiLog"
    ensures name in UploadFileTypeMapping
    ensures S3FileNameString(UploadFileTypeMapping[name]) == Ok(name)
  {
    if name == "textsLog" {
      assert UploadFileTypeMapping["textsLog"] == TextsLog;
      assert S3FileNameString(TextsLog) == Ok("textsLog");
    } else if name == "voiceRecording" {
      assert UploadFileTypeMapping["voiceRecording"] == VoiceRecording;
      assert S3FileNameString(VoiceRecording) == Ok("voiceRecording");
    } else if name == "wifiLog" {
      assert UploadFileTypeMapping["wifiLog"] == Wifi;
      assert S3FileNameString(Wifi) == Ok("wifiLog");
    }
  }

  /** The inverse for the upload names "proximity", "ios_log", "imageSurvey". */
  lemma UploadMappingInverseProximityIosImage(name: string)
    requires name == "proximity" || name == "ios_log" || name == "imageSurvey"
    ensures name in UploadFileTypeMapping
    ensures S3FileNameString(UploadFileTypeMapping[name]) == Ok(name)
  {
    if name == "proximity" {
      assert UploadFileTypeMapping["proximity"] == Proximity;
      assert S3FileNameString(Proximity) == Ok("proximity");
    } else if name == "ios_log" {
      assert UploadFileTypeMapping["ios_log"] == IosLogFile;
      assert S3FileNameString(IosLogFile) == Ok("ios_log");
    } else if name == "imageSurvey" {
      assert UploadFileTypeMapping["imageSurvey"] == ImageFile;
      assert S3FileNameString(ImageFile) == Ok("imageSurvey");
    }
  }

  /** The corrected lookup inverts the upload table. */
  lemma UploadMappingInverse(name: string)
    requires name in UploadFileTypeMapping
    ensures S3FileNameString(UploadFileTypeMapping[name]) == Ok(name)
  {
    if name == "accel" || name == "bluetoothLog" || name == "callLog" {
      UploadMappingInverseAccelBluetoothCalls(name);
    } else if name == "devicemotion" || name == "gps" || name == "gyro" {
      UploadMappingInverseMotionGpsGyro(name);
    } else if name == "logFile" || name == "magnetometer" || name == "powerState" {
      UploadMappingInverseLogMagnetometerPower(name);
    } else if name == "reachability" || name == "surveyAnswers" || name == "surveyTimings" {
      UploadMappingInverseReachabilitySurveys(name);
    } else if name == "textsLog" || name == "voiceRecording" || name == "wifiLog" {
      UploadMappingInverseTextsVoiceWifi(name);
    } else {
      UploadMappingInverseProximityIosImage(name);
    }
  }

  /** The round trip for the streams `Accelerometer`, `Bluetooth`, `CallLog`, `Gps`. */
  lemma S3FileNameRoundTripAccelBluetoothCallsGps(dataType: string)
    requires dataType == Accelerometer || dataType == Bluetooth || dataType == CallLog || dataType == Gps
    ensures S3FileNameString(dataType).Ok?
    ensures S3FileNameString(dataType).value in UploadFileTypeMapping
    ensures UploadFileTypeMapping[S3FileNameString(dataType).value] == dataType
  {
    if dataType == Accelerometer {
      assert UploadFileTypeMapping["accel"] == Accelerometer;
      assert S3FileNameString(Accelerometer) == Ok("accel");
    } else if dataType == Bluetooth {
      assert UploadFileTypeMapping["bluetoothLog"] == Bluetooth;
      assert S3FileNameString(Bluetooth) == Ok("bluetoothLog");
    } else if dataType == CallLog {
      assert UploadFileTypeMapping["callLog"] == CallLog;
      assert S3FileNameString(CallLog) == Ok("callLog");
    } else if dataType == Gps {
      assert UploadFileTypeMapping["gps"] == Gps;
      assert S3FileNameString(Gps) == Ok("gps");
    }
  }

  /** The round trip for the streams `AndroidLogFile`, `PowerState`, `SurveyAnswers`, `SurveyTimings`, `TextsLog`. */
  lemma S3FileNameRoundTripLogPowerSurveysTexts(dataType: string)
    requires dataType == AndroidLogFile || dataType == PowerState || dataType == SurveyAnswers || dataType == SurveyTimings || dataType == TextsLog
    ensures S3FileNameString(dataType).Ok?
    ensures S3FileNameString(dataType).value in UploadFileTypeMapping
    ensures UploadFileTypeMapping[S3FileNameString(dataType).value] == dataType
  {
    if dataType == AndroidLogFile {
      assert UploadFileTypeMapping["logFile"] == AndroidLogFile;
      assert S3FileNameString(AndroidLogFile) == Ok("logFile");
    } else if dataType == PowerState {
      assert UploadFileTypeMapping["powerState"] == PowerState;
      assert S3FileNameString(PowerState) == Ok("powerState");
    } else if dataType == SurveyAnswers {
      assert UploadFileTypeMapping["surveyAnswers"] == SurveyAnswers;
      assert S3FileNameString(SurveyAnswers) == Ok("surveyAnswers");
    } else if dataType == SurveyTimings {
      assert UploadFileTypeMapping["surveyTimings"] == SurveyTimings;
      assert S3FileNameString(SurveyTimings) == Ok("surveyTimings");
    } else if dataType == TextsLog {
      assert UploadFileTypeMapping["textsLog"] == TextsLog;
      assert S3FileNameString(TextsLog) == Ok("textsLog");
    }
  }

  /** The round trip for the streams `VoiceRecording`, `Wifi`, `Proximity`, `Gyro`, `Magnetometer`. */
  lemma S3FileNameRoundTripVoiceWifiProximityGyroMagnetometer(dataType: string)
    requires dataType == VoiceRecording || dataType == Wifi || dataType == Proximity || dataType == Gyro || dataType == Magnetometer
    ensures S3FileNameString(dataType).Ok?
    ensures S3FileNameString(dataType).value in UploadFileTypeMapping
    ensures UploadFileTypeMapping[S3FileNameString(dataType).value] == dataType
  {
    if dataType == VoiceRecording {
      assert UploadFileTypeMapping["voiceRecording"] == VoiceRecording;
      assert S3FileNameString(VoiceRecording) == Ok("voiceRecording");
    } else if dataType == Wifi {
      assert UploadFileTypeMapping["wifiLog"] == Wifi;
      assert S3FileNameString(Wifi) == Ok("wifiLog");
    } else if dataType == Proximity {
      assert UploadFileTypeMapping["proximity"] == Proximity;
      assert S3FileNameString(Proximity) == Ok("proximity");
    } else if dataType == Gyro {
      assert UploadFileTypeMapping["gyro"] == Gyro;
      assert S3FileNameString(Gyro) == Ok("gyro");
    } else if dataType == Magnetometer {
      assert UploadFileTypeMapping["magnetometer"] == Magnetometer;
      assert S3FileNameString(Magnetometer) == Ok("magnetometer");
    }
  }

  /** The round trip for the streams `Devicemotion`, `Reachability`, `IosLogFile`, `ImageFile`. */
  lemma S3FileNameRoundTripMotionReachabilityIosImage(dataType: string)
    requires dataType == Devicemotion || dataType == Reachability || dataType == IosLogFile || dataType == ImageFile
    ensures S3FileNameString(dataType).Ok?
    ensures S3FileNameString(dataType).value in UploadFileTypeMapping
    ensures UploadFileTypeMapping[S3FileNameString(dataType).value] == dataType
  {
    if dataType == Devicemotion {
      assert UploadFileTypeMapping["devicemotion"] == Devicemotion;
      assert S3FileNameString(Devicemotion) == Ok("devicemotion");
    } else if dataType == Reachability {
      assert UploadFileTypeMapping["reachability"] == Reachability;
      assert S3FileNameString(Reachability) == Ok("reachability");
    } else if dataType == IosLogFile {
      assert UploadFileTypeMapping["ios_log"] == IosLogFile;
      assert S3FileNameString(IosLogFile) == Ok("ios_log");
    } else if dataType == ImageFile {
      assert UploadFileTypeMapping["imageSurvey"] == ImageFile;
      assert S3FileNameString(ImageFile) == Ok("imageSurvey");
    }
  }

  /** Round trip: the upload name of every stream other than `identifiers` maps back to it
      through the upload table; the as-written lookup agrees except on the image survey. */
  lemma S3FileNameRoundTrip(dataType: string)
    requires dataType in AllDataStreams && dataType != Identifiers
    ensures S3FileNameString(dataType).Ok?
    ensures S3FileNameString(dataType).value in UploadFileTypeMapping
    ensures UploadFileTypeMapping[S3FileNameString(dataType).value] == dataType
    ensures dataType != ImageFile ==> DataStreamToS3FileNameString(dataType) == S3FileNameString(dataType)
  {
    DataStreamCases(dataType);
    if dataType == Accelerometer || dataType == Bluetooth || dataType == CallLog || dataType == Gps {
      S3FileNameRoundTripAccelBluetoothCallsGps(dataType);
    }
    if dataType == AndroidLogFile || dataType == PowerState || dataType == SurveyAnswers || dataType == SurveyTimings || dataType == TextsLog {
      S3FileNameRoundTripLogPowerSurveysTexts(dataType);
    }
    if dataType == VoiceRecording || dataType == Wifi || dataType == Proximity || dataType == Gyro || dataType == Magnetometer {
      S3FileNameRoundTripVoiceWifiProximityGyroMagnetometer(dataType);
    }
    if dataType == Devicemotion || dataType == Reachability || dataType == IosLogFile || dataType == ImageFile {
      S3FileNameRoundTripMotionReachabilityIosImage(dataType);
    }
  }

  /** No two upload names denote the same stream. */
  lemma UploadMappingInjective(a: string, b: string)
    requires a in UploadFileTypeMapping && b in UploadFileTypeMapping
    requires UploadFileTypeMapping[a] == UploadFileTypeMapping[b]
    ensures a == b
  {
    UploadMappingInverse(a);
    UploadMappingInverse(b);
  }

  /** The upload table's values are exactly the streams other than `identifiers`. */
  lemma UploadMappingValues(dataType: string)
    ensures dataType in UploadFileTypeMapping.Values <==> dataType in AllDataStreams && dataType != Identifiers
  {
    if dataType in AllDataStreams && dataType != Identifiers {
      S3FileNameRoundTrip(dataType);
    }
    if dataType in UploadFileTypeMapping.Values {
      var name :| name in UploadFileTypeMapping && UploadFileTypeMapping[name] == dataType;
      UploadMappingInverse(name);
      DataStreamCases(dataType);
    }
  }

  /** The three layouts: the chunk and new raw layouts coincide, the legacy layout sits one
      position earlier, and the file name is always the last segment. */
  lemma MappingsAgree()
    ensures ChunkPathMapping == NewRawPathMapping
    ensures NewRawPathMapping.studyId == OldRawPathMapping.studyId + 1
    ensures NewRawPathMapping.patientId == OldRawPathMapping.patientId + 1
    ensures NewRawPathMapping.dataType == OldRawPathMapping.dataType + 1
    ensures NewRawPathMapping.surveyId == OldRawPathMapping.surveyId + 1
    ensures NewRawPathMapping.imageSurveyUserInstance == OldRawPathMapping.imageSurveyUserInstance + 1
    ensures ChunkPathMapping.fileName == NewRawPathMapping.fileName == OldRawPathMapping.fileName == -1
  {
  }

  /** Every chunkable stream is a stream. */
  lemma ChunkableFilesAreStreams(d: string)
    requires d in ChunkableFiles
    ensures d in AllDataStreams
  {
    DataStreamCases(d);
  }

  /** Survey answers, audio recordings and image surveys are not chunked. */
  lemma UnchunkableStreams()
    ensures SurveyAnswers !in ChunkableFiles && VoiceRecording !in ChunkableFiles
    ensures ImageFile !in ChunkableFiles
  {
    assert SurveyAnswers[7] != SurveyTimings[7];
    assert ImageFile[0] != Magnetometer[0] && ImageFile[0] != Devicemotion[0] && ImageFile[0] != Reachability[0];
  }

  /** The parser's two substring tests on the streams `Accelerometer`, `Bluetooth`, `CallLog`, `Gps`, `Identifiers`. */
  lemma MarkersAccelBluetoothCallsGpsIdentifiers()
    ensures !Contains(Accelerometer, "identifiers")
    ensures !Contains(Accelerometer, "ios")
    ensures !Contains(Bluetooth, "identifiers")
    ensures !Contains(Bluetooth, "ios")
    ensures !Contains(CallLog, "identifiers")
    ensures !Contains(CallLog, "ios")
    ensures !Contains(Gps, "identifiers")
    ensures !Contains(Gps, "ios")
    ensures Contains(Identifiers, "identifiers")
    ensures !Contains(Identifiers, "ios")
  {
    NotContainsByChar(Accelerometer, "identifiers", 1);
    NotContainsByChar(Accelerometer, "ios", 0);
    NotContainsByChar(Bluetooth, "identifiers", 0);
    NotContainsByChar(Bluetooth, "ios", 0);
    NotContainsByChar(CallLog, "ios", 0);
    NotContainsByChar(Gps, "ios", 0);
    assert OccursAt(Identifiers, "identifiers", 0);
    NotContainsByChar(Identifiers, "ios", 1);
  }

  /** The parser's two substring tests on the streams `AndroidLogFile`, `PowerState`, `SurveyAnswers`, `SurveyTimings`, `TextsLog`. */
  lemma MarkersLogPowerSurveysTexts()
    ensures !Contains(AndroidLogFile, "identifiers")
    ensures !Contains(AndroidLogFile, "ios")
    ensures !Contains(PowerState, "identifiers")
    ensures !Contains(PowerState, "ios")
    ensures !Contains(SurveyAnswers, "identifiers")
    ensures !Contains(SurveyAnswers, "ios")
    ensures !Contains(SurveyTimings, "identifiers")
    ensures !Contains(SurveyTimings, "ios")
    ensures !Contains(TextsLog, "identifiers")
    ensures !Contains(TextsLog, "ios")
  {
    NotContainsByChar(AndroidLogFile, "ios", 0);
    NotContainsByChar(PowerState, "identifiers", 0);
    NotContainsByChar(PowerState, "ios", 0);
    NotContainsByChar(SurveyAnswers, "identifiers", 0);
    NotContainsByChar(SurveyAnswers, "ios", 0);
    NotContainsByChar(SurveyTimings, "identifiers", 1);
    NotContainsByChar(SurveyTimings, "ios", 1);
    NotContainsByChar(TextsLog, "ios", 0);
  }

  /** The parser's two substring tests on the streams `VoiceRecording`, `Wifi`, `Proximity`, `Gyro`, `Magnetometer`. */
  lemma MarkersVoiceWifiProximityGyroMagnetometer()
    ensures !Contains(VoiceRecording, "identifiers")
    ensures !Contains(VoiceRecording, "ios")
    ensures !Contains(Wifi, "identifiers")
    ensures !Contains(Wifi, "ios")
    ensures !Contains(Proximity, "identifiers")
    ensures !Contains(Proximity, "ios")
    ensures !Contains(Gyro, "identifiers")
    ensures !Contains(Gyro, "ios")
    ensures !Contains(Magnetometer, "identifiers")
    ensures !Contains(Magnetometer, "ios")
  {
    NotContainsByChar(VoiceRecording, "identifiers", 4);
    AudioRecordingsNoIos();
    NotContainsByChar(Wifi, "ios", 1);
    NotContainsByChar(Proximity, "ios", 2);
    NotContainsByChar(Gyro, "ios", 0);
    NotContainsByChar(Magnetometer, "identifiers", 0);
    NotContainsByChar(Magnetometer, "ios", 0);
  }

  /** The parser's two substring tests on the streams `Devicemotion`, `Reachability`. */
  lemma MarkersMotionReachability()
    ensures !Contains(Devicemotion, "identifiers")
    ensures !Contains(Devicemotion, "ios")
    ensures !Contains(Reachability, "identifiers")
    ensures !Contains(Reachability, "ios")
  {
    NotContainsByChar(Devicemotion, "identifiers", 6);
    NotContainsByChar(Devicemotion, "ios", 2);
    NotContainsByChar(Reachability, "identifiers", 1);
    NotContainsByChar(Reachability, "ios", 1);
  }

  /** The parser's two substring tests on the streams `IosLogFile`, `ImageFile`. */
  lemma MarkersIosImage()
    ensures !Contains(IosLogFile, "identifiers")
    ensures Contains(IosLogFile, "ios")
    ensures !Contains(ImageFile, "identifiers")
    ensures !Contains(ImageFile, "ios")
  {
    NotContainsByChar(IosLogFile, "identifiers", 1);
    assert OccursAt(IosLogFile, "ios", 0);
    NotContainsByChar(ImageFile, "identifiers", 1);
    NotContainsByChar(ImageFile, "ios", 1);
  }

  /** Among the streams only `identifiers` contains "identifiers" and only `ios_log`
      contains "ios": the parser's two substring tests on the data-type segment. */
  lemma StreamMarkers(d: string)
    requires d in AllDataStreams
    ensures Contains(d, "identifiers") <==> d == Identifiers
    ensures Contains(d, "ios") <==> d == IosLogFile
  {
    DataStreamCases(d);
    MarkersAccelBluetoothCallsGpsIdentifiers();
    MarkersLogPowerSurveysTexts();
    MarkersVoiceWifiProximityGyroMagnetometer();
    MarkersMotionReachability();
    MarkersIosImage();
  }

  /** "audio_recordings" holds 'i', 'o' and 's' but never "ios" in a row. */
  lemma AudioRecordingsNoIos()
    ensures !Contains(VoiceRecording, "ios")
  {
    assert VoiceRecording == "audio" + ['_'] + ("record" + "ings");
    NotContainsByChar("audio", "ios", 2);
    ContainsPrefix("record", "ings", "ios");
    NotContainsByChar("ings", "ios", 1);
    if Contains(VoiceRecording, "ios") {
      ContainsSeparated("audio", '_', "record" + "ings", "ios");
      assert false;
    }
  }
}
