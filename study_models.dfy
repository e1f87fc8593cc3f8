/** Studies, their surveys and their stored configurations: the survey listing sent to
    phones, creation with default settings, deletion by renaming, the study's plain-value
    view without its key, and the replacement of a study's configuration. */
module StudyModels {
  import opened Wrappers
  import opened CommonModels

  /** Survey types. */
  const AudioSurvey := "audio_survey"
  const TrackingSurvey := "tracking_survey"
  const DummySurvey := "dummy"
  const ImageSurvey := "image_survey"

  /** A survey row; a participant survey names its participant. The JSON text fields are
      kept as their text. */
  datatype Survey = Survey(
    id: int, objectId: string, name: string, deleted: bool, surveyType: string,
    content: string, settings: string, timings: string, participant: Option<string>)

  /** The dictionary a survey is sent as: its plain-value view without id, deleted and name,
      and with object_id renamed to _id (here `objectId`). */
  datatype SurveyJson = SurveyJson(objectId: string, content: string, surveyType: string,
                                   settings: string, timings: string)

  function AsSurveyJson(s: Survey): SurveyJson
  {
    SurveyJson(s.objectId, s.content, s.surveyType, s.settings, s.timings)
  }

  /** Whether a survey is sent to a phone: never when deleted, and image surveys not to the
      Android app. */
  predicate Listed(s: Survey, requestingOs: string)
  {
    !s.deleted && !(requestingOs == "ANDROID" && s.surveyType == ImageSurvey)
  }

  /** The listing of some surveys, in their order. */
  function SurveyListing(surveys: seq<Survey>, requestingOs: string): (r: seq<SurveyJson>)
    ensures |r| <= |surveys|
  {
    if |surveys| == 0 then []
    else
      var last := surveys[|surveys| - 1];
      SurveyListing(surveys[..|surveys| - 1], requestingOs) + (if Listed(last, requestingOs) then [AsSurveyJson(last)] else [])
  }

  /** The listing holds exactly the views of the listed surveys. */
  lemma {:induction false} SurveyListingMembers(surveys: seq<Survey>, requestingOs: string, x: SurveyJson)
    ensures x in SurveyListing(surveys, requestingOs)
      <==> exists s :: s in surveys && Listed(s, requestingOs) && x == AsSurveyJson(s)
    decreases |surveys|
  {
    if |surveys| > 0 {
      var init := surveys[..|surveys| - 1];
      var last := surveys[|surveys| - 1];
      SurveyListingMembers(init, requestingOs, x);
      assert surveys == init + [last];
      if x in SurveyListing(surveys, requestingOs) && x !in SurveyListing(init, requestingOs) {
        assert last in surveys && Listed(last, requestingOs) && x == AsSurveyJson(last);
      }
      if exists s :: s in surveys && Listed(s, requestingOs) && x == AsSurveyJson(s) {
        var s :| s in surveys && Listed(s, requestingOs) && x == AsSurveyJson(s);
        if s != last {
          assert s in init;
        }
      }
    }
  }

  /** The Android app is never sent an image survey. */
  lemma AndroidListingHasNoImageSurvey(surveys: seq<Survey>, x: SurveyJson)
    requires x in SurveyListing(surveys, "ANDROID")
    ensures x.surveyType != ImageSurvey
  {
    SurveyListingMembers(surveys, "ANDROID", x);
  }

  /** get_surveys_for_study: the surveys of the study are visited in order and the listed
      ones appended. */
  method GetSurveysForStudy(surveys: seq<Survey>, requestingOs: string) returns (list: seq<SurveyJson>)
    ensures list == SurveyListing(surveys, requestingOs)
  {
    list := [];
    var i := 0;
    while i < |surveys|
      invariant 0 <= i <= |surveys|
      invariant list == SurveyListing(surveys[..i], requestingOs)
    {
      assert surveys[..i + 1][..i] == surveys[..i];
      var survey := surveys[i];
      if !survey.deleted {
        if requestingOs == "ANDROID" && survey.surveyType == ImageSurvey {
        } else {
          list := list + [AsSurveyJson(survey)];
        }
      }
      i := i + 1;
    }
    assert surveys[..|surveys|] == surveys;
  }

  /** The settings a new survey is created with: the given settings when there are any,
      otherwise the audio or image defaults for those types, otherwise the field default. */
  function CreationSettings(surveyType: string, given: Option<string>, audioSettings: string, imageSettings: string): (r: string)
    ensures given.Some? ==> r == given.value
    ensures given.None? && surveyType == AudioSurvey ==> r == audioSettings
    ensures given.None? && surveyType == ImageSurvey ==> r == imageSettings
    ensures given.None? && surveyType != AudioSurvey && surveyType != ImageSurvey ==> r == "{}"
  {
    if surveyType == AudioSurvey && given.None? then audioSettings
    else if surveyType == ImageSurvey && given.None? then imageSettings
    else if given.Some? then given.value
    else "{}"
  }

  /** The object ids in use. */
  function ObjectIds(rows: seq<Survey>): set<string>
  {
    set i | 0 <= i < |rows| :: rows[i].objectId
  }

  /** The survey table (study surveys or participant surveys). */
  class SurveyTable {
    var rows: seq<Survey>

    constructor ()
      ensures rows == []
    {
      rows := [];
    }

    /** create_with_settings: settings are defaulted by type when not given, a fresh object
        id is generated and the survey is appended; an id failure leaves the table as it was. */
    method CreateWithSettings(surveyType: string, id: int, name: string, content: string, timings: string,
                              settings: Option<string>, participant: Option<string>,
                              audioSettings: string, imageSettings: string, allowed: string, choose: nat -> nat)
      returns (r: Result<Survey, string>)
      requires |allowed| > 0
      modifies this
      ensures r.Err? ==> rows == old(rows)
      ensures r.Ok? ==> rows == old(rows) + [r.value]
      ensures r.Ok? ==> IsObjectId(r.value.objectId) && r.value.objectId !in ObjectIds(old(rows))
      ensures r.Ok? ==> r.value == Survey(id, r.value.objectId, name, false, surveyType, content,
        CreationSettings(surveyType, settings, audioSettings, imageSettings), timings, participant)
    {
      var s := settings;
      if surveyType == AudioSurvey && s.None? {
        s := Some(audioSettings);
      } else if surveyType == ImageSurvey && s.None? {
        s := Some(imageSettings);
      }
      var objectId := GenerateObjectIdString(ObjectIds(rows), allowed, choose);
      if objectId.Err? {
        r := Err(objectId.error);
        return;
      }
      var survey := Survey(id, objectId.value, name, false, surveyType, content,
                           if s.Some? then s.value else "{}", timings, participant);
      rows := rows + [survey];
      r := Ok(survey);
    }

    /** mark_deleted of a survey: it is renamed "<name> Deleted <time>" and flagged deleted. */
    method MarkDeleted(i: nat, now: string)
      requires i < |rows|
      modifies this
      ensures rows == old(rows)[i := old(rows)[i].(name := old(rows)[i].name + " Deleted " + now, deleted := true)]
    {
      rows := rows[i := rows[i].(name := rows[i].name + " Deleted " + now, deleted := true)];
    }
  }

  /** Study.as_native_python: the plain-value view of the study without its encryption key
      (whose absence from the fields raises KeyError). */
  method StudyAsNativePython<J>(fields: seq<Field>, loads: string -> J) returns (r: Result<map<string, Value<J>>, string>)
    requires DistinctFields(fields)
    ensures r.Ok? ==> "encryption_key" !in r.value
    ensures r.Ok? <==> exists i :: 0 <= i < |fields| && fields[i].name == "encryption_key" && Reported(fields[i], true)
    ensures r.Ok? ==> forall i :: (0 <= i < |fields| && Reported(fields[i], true) && fields[i].name != "encryption_key"
      ==> fields[i].name in r.value && r.value[fields[i].name] == NativeValue(fields[i], loads))
  {
    var d := AsNativePython(fields, true, loads);
    if "encryption_key" !in d {
      r := Err("KeyError: encryption_key");
      return;
    }
    r := Ok(d - {"encryption_key"});
  }

  /** A stored study configuration. */
  datatype StudyConfig = StudyConfig(studyObjectId: string, configuration: map<string, string>, deleted: bool)

  /** The configurations after every one of study `id` was marked deleted. */
  function MarkedDeleted(rows: seq<StudyConfig>, id: string): (r: seq<StudyConfig>)
    ensures |r| == |rows|
  {
    seq(|rows|, (i: int) requires 0 <= i < |rows| => if rows[i].studyObjectId == id then rows[i].(deleted := true) else rows[i])
  }

  /** After marking, no configuration of the study is live and every other one is unchanged. */
  lemma MarkedDeletedLeavesNoLiveConfig(rows: seq<StudyConfig>, id: string, i: nat)
    requires i < |rows|
    ensures rows[i].studyObjectId == id ==> MarkedDeleted(rows, id)[i].deleted
    ensures MarkedDeleted(rows, id)[i].studyObjectId == rows[i].studyObjectId
    ensures MarkedDeleted(rows, id)[i].configuration == rows[i].configuration
    ensures rows[i].studyObjectId != id ==> MarkedDeleted(rows, id)[i] == rows[i]
  {
  }

  /** The stored configurations. */
  class StudyConfigTable {
    var rows: seq<StudyConfig>

    constructor ()
      ensures rows == []
    {
      rows := [];
    }

    /** create_from_file, on the already-read configuration: a configuration without
        STUDY_OBJECT_ID raises ValueError before anything changes; otherwise the live
        configurations of that study are marked deleted first, and only then is the id
        checked (ValueError unless 24 characters) and the study looked up (DoesNotExist);
        a known study gets the new configuration appended. */
    method CreateFromFile(configuration: map<string, string>, studies: set<string>) returns (r: Result<(), string>)
      modifies this
      ensures "STUDY_OBJECT_ID" !in configuration ==> r.Err? && rows == old(rows)
      ensures "STUDY_OBJECT_ID" in configuration ==>
        var id := configuration["STUDY_OBJECT_ID"];
        && (r.Ok? <==> IsObjectId(id) && id in studies)
        && (r.Err? ==> rows == MarkedDeleted(old(rows), id))
        && (r.Ok? ==> rows == MarkedDeleted(old(rows), id) + [StudyConfig(id, configuration, false)])
    {
      if "STUDY_OBJECT_ID" !in configuration {
        r := Err("ValueError: no STUDY_OBJECT_ID");
        return;
      }
      var id := configuration["STUDY_OBJECT_ID"];
      var i := 0;
      while i < |rows|
        invariant 0 <= i <= |rows| && |rows| == |old(rows)|
        invariant forall k :: 0 <= k < i ==> rows[k] == MarkedDeleted(old(rows), id)[k]
        invariant forall k :: i <= k < |rows| ==> rows[k] == old(rows)[k]
      {
        if !rows[i].deleted && rows[i].studyObjectId == id {
          rows := rows[i := rows[i].(deleted := true)];
        }
        i := i + 1;
      }
      assert rows == MarkedDeleted(old(rows), id);
      if !IsObjectId(id) {
        r := Err("ValueError: not a correct study object id");
        return;
      }
      if id !in studies {
        r := Err("DoesNotExist");
        return;
      }
      rows := rows + [StudyConfig(id, configuration, false)];
      r := Ok(());
    }
  }
}
