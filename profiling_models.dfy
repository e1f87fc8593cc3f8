/** Per-participant upload statistics: a counter row per (participant, data type) and an
    observation counter per (participant, data type, hour), each created on first use and
    incremented afterwards. */
module ProfilingModels {
  import opened Wrappers
  import opened ParseFilename

  /** The data type of an uploaded file's key; a key whose parse has no data type raises
      KeyError. */
  function DataTypeOf(filePath: string): (r: Result<string, ParseError>)
    ensures r.Ok? <==> ParseFilename.ParseFilename(filePath).Ok? && ParseFilename.ParseFilename(filePath).value.dataType.Some?
    ensures r.Ok? ==> Some(r.value) == ParseFilename.ParseFilename(filePath).value.dataType
  {
    match ParseFilename.ParseFilename(filePath)
    case Err(e) => Err(e)
    case Ok(p) => if p.dataType.None? then Err(KeyError("data_type")) else Ok(p.dataType.value)
  }

  /** The key of a statistics row; the map keyed by it makes rows unique per key. */
  datatype StatsKey = StatsKey(participant: string, dataType: string)

  /** One statistics row. */
  datatype Stats = Stats(lastUploadTimestamp: int, numberOfUploads: nat, numberBytesUploaded: int)

  /** The statistics after one upload of `fileSize` bytes at `timestamp`: a first upload
      creates the row; a later one counts the upload, adds the bytes and moves the last
      upload time forward only to a strictly later time. */
  function Recorded(rows: map<StatsKey, Stats>, key: StatsKey, fileSize: int, timestamp: int): map<StatsKey, Stats>
  {
    if key !in rows then rows[key := Stats(timestamp, 1, fileSize)]
    else
      var s := rows[key];
      rows[key := Stats(if timestamp > s.lastUploadTimestamp then timestamp else s.lastUploadTimestamp,
                        s.numberOfUploads + 1, s.numberBytesUploaded + fileSize)]
  }

  /** One upload to be counted. */
  datatype Upload = Upload(key: StatsKey, fileSize: int, timestamp: int)

  /** The statistics after a sequence of uploads, in order. */
  function RecordedAll(rows: map<StatsKey, Stats>, uploads: seq<Upload>): map<StatsKey, Stats>
  {
    if |uploads| == 0 then rows
    else
      var u := uploads[|uploads| - 1];
      Recorded(RecordedAll(rows, uploads[..|uploads| - 1]), u.key, u.fileSize, u.timestamp)
  }

  /** The uploads for one key. */
  function UploadsFor(uploads: seq<Upload>, key: StatsKey): seq<Upload>
  {
    if |uploads| == 0 then []
    else
      var last := uploads[|uploads| - 1];
      UploadsFor(uploads[..|uploads| - 1], key) + (if last.key == key then [last] else [])
  }

  /** Total size of some uploads. */
  function TotalSize(uploads: seq<Upload>): int
  {
    if |uploads| == 0 then 0 else TotalSize(uploads[..|uploads| - 1]) + uploads[|uploads| - 1].fileSize
  }

  /** Latest time among some uploads. */
  function LatestTime(uploads: seq<Upload>): int
    requires |uploads| > 0
  {
    if |uploads| == 1 then uploads[0].timestamp
    else
      var t := LatestTime(uploads[..|uploads| - 1]);
      if uploads[|uploads| - 1].timestamp > t then uploads[|uploads| - 1].timestamp else t
  }

  /** Recording one upload leaves every other key's row as it was. */
  lemma RecordedKeepsOtherKeys(rows: map<StatsKey, Stats>, key: StatsKey, fileSize: int, timestamp: int, other: StatsKey)
    requires other != key
    ensures other in Recorded(rows, key, fileSize, timestamp) <==> other in rows
    ensures other in rows ==> Recorded(rows, key, fileSize, timestamp)[other] == rows[other]
  {
  }

  /** After uploads for a key that had no row: the upload count is the number of its uploads,
      the byte count their total size and the last upload time their latest time, however they
      interleave with other keys' uploads; a key without uploads keeps its row. */
  lemma {:induction false} RecordedAllCounts(rows: map<StatsKey, Stats>, uploads: seq<Upload>, key: StatsKey)
    requires key !in rows
    ensures var mine := UploadsFor(uploads, key);
      (|mine| == 0 ==> key !in RecordedAll(rows, uploads))
      && (|mine| > 0 ==> (key in RecordedAll(rows, uploads)
          && RecordedAll(rows, uploads)[key] == Stats(LatestTime(mine), |mine|, TotalSize(mine))))
    decreases |uploads|
  {
    if |uploads| > 0 {
      var init := uploads[..|uploads| - 1];
      var u := uploads[|uploads| - 1];
      RecordedAllCounts(rows, init, key);
      var mine := UploadsFor(init, key);
      var before := RecordedAll(rows, init);
      assert RecordedAll(rows, uploads) == Recorded(before, u.key, u.fileSize, u.timestamp);
      if u.key == key {
        var all := mine + [u];
        assert UploadsFor(uploads, key) == all;
        assert all[..|all| - 1] == mine;
        assert TotalSize(all) == TotalSize(mine) + u.fileSize;
        if |mine| > 0 {
          assert LatestTime(all) == if u.timestamp > LatestTime(mine) then u.timestamp else LatestTime(mine);
        }
      } else {
        assert UploadsFor(uploads, key) == mine + [];
        assert mine + [] == mine;
        RecordedKeepsOtherKeys(before, u.key, u.fileSize, u.timestamp, key);
      }
    }
  }

  /** Rows of keys without uploads are untouched by any sequence of uploads. */
  lemma {:induction false} RecordedAllKeepsOtherKeys(rows: map<StatsKey, Stats>, uploads: seq<Upload>, key: StatsKey)
    requires key in rows && |UploadsFor(uploads, key)| == 0
    ensures key in RecordedAll(rows, uploads) && RecordedAll(rows, uploads)[key] == rows[key]
    decreases |uploads|
  {
    if |uploads| > 0 {
      var init := uploads[..|uploads| - 1];
      assert |UploadsFor(init, key)| == 0;
      RecordedAllKeepsOtherKeys(rows, init, key);
    }
  }

  /** The received-data statistics table. */
  class ReceivedDataStats {
    var rows: map<StatsKey, Stats>

    constructor ()
      ensures rows == map[]
    {
      rows := map[];
    }

    /** update_statistics: the data type comes from the key's parse; the row for
        (participant, data type) is created or updated. */
    method UpdateStatistics(filePath: string, participant: string, fileSize: int, timestamp: int)
      returns (r: Result<(), ParseError>)
      modifies this
      ensures DataTypeOf(filePath).Err? ==> r == Err(DataTypeOf(filePath).error) && rows == old(rows)
      ensures DataTypeOf(filePath).Ok? ==>
        r.Ok? && rows == Recorded(old(rows), StatsKey(participant, DataTypeOf(filePath).value), fileSize, timestamp)
    {
      var dataType :- DataTypeOf(filePath);
      Record(StatsKey(participant, dataType), fileSize, timestamp);
      r := Ok(());
    }

    /** The create-or-update step for one key. */
    method Record(key: StatsKey, fileSize: int, timestamp: int)
      modifies this
      ensures rows == Recorded(old(rows), key, fileSize, timestamp)
    {
      if key !in rows {
        rows := rows[key := Stats(timestamp, 1, fileSize)];
      } else {
        var s := rows[key];
        rows := rows[key := s.(numberOfUploads := s.numberOfUploads + 1,
                               numberBytesUploaded := s.numberBytesUploaded + fileSize)];
        if timestamp > s.lastUploadTimestamp {
          rows := rows[key := rows[key].(lastUploadTimestamp := timestamp)];
        }
      }
    }
  }

  /** The key of an hourly row. */
  datatype HourlyKey = HourlyKey(participant: string, dataType: string, dataCollectionHour: int)

  /** A time in seconds truncated to the start of its hour. */
  function HourOf(timestamp: int): (h: int)
    ensures h <= timestamp < h + 3600 && h % 3600 == 0
  {
    timestamp - timestamp % 3600
  }

  /** The hourly counters after one upload of `numberOfObservations` observations. */
  function RecordedHourly(rows: map<HourlyKey, int>, key: HourlyKey, numberOfObservations: int): map<HourlyKey, int>
  {
    if key !in rows then rows[key := numberOfObservations] else rows[key := rows[key] + numberOfObservations]
  }

  /** Two times in the same hour count in the same row. */
  lemma SameHourSameRow(t1: int, t2: int)
    requires t1 / 3600 == t2 / 3600
    ensures HourOf(t1) == HourOf(t2)
  {
  }

  /** A new hourly row starts at the given count, and an existing one grows by it. */
  lemma RecordedHourlyAdds(rows: map<HourlyKey, int>, key: HourlyKey, n: int, other: HourlyKey)
    ensures key in RecordedHourly(rows, key, n)
    ensures RecordedHourly(rows, key, n)[key] == (if key in rows then rows[key] else 0) + n
    ensures other != key ==> (other in RecordedHourly(rows, key, n) <==> other in rows)
    ensures other != key && other in rows ==> RecordedHourly(rows, key, n)[other] == rows[other]
  {
  }

  /** The hourly statistics table. */
  class ReceivedDataStatsHourly {
    var rows: map<HourlyKey, int>

    constructor ()
      ensures rows == map[]
    {
      rows := map[];
    }

    /** update_statistics: the time is truncated to its hour; the row for
        (participant, data type, hour) is created with the count or incremented by it. */
    method UpdateStatistics(filePath: string, participant: string, numberOfObservations: nat, timestamp: int)
      returns (r: Result<(), ParseError>)
      modifies this
      ensures DataTypeOf(filePath).Err? ==> r == Err(DataTypeOf(filePath).error) && rows == old(rows)
      ensures DataTypeOf(filePath).Ok? ==> r.Ok? && rows == RecordedHourly(old(rows),
        HourlyKey(participant, DataTypeOf(filePath).value, HourOf(timestamp)), numberOfObservations)
    {
      var dataType :- DataTypeOf(filePath);
      Record(HourlyKey(participant, dataType, HourOf(timestamp)), numberOfObservations);
      r := Ok(());
    }

    /** The create-or-increment step for one key. */
    method Record(key: HourlyKey, numberOfObservations: nat)
      modifies this
      ensures rows == RecordedHourly(old(rows), key, numberOfObservations)
    {
      if key !in rows {
        rows := rows[key := numberOfObservations];
      } else {
        rows := rows[key := rows[key] + numberOfObservations];
      }
    }
  }

  /** One tracked upload. */
  datatype UploadRecord = UploadRecord(filePath: string, fileSize: nat, timestamp: int, participant: string)

  /** The upload tracking table: one row per accepted upload. */
  class UploadTracking {
    var rows: seq<UploadRecord>

    constructor ()
      ensures rows == []
    {
      rows := [];
    }

    /** objects.create: the row is appended. */
    method Create(filePath: string, fileSize: nat, timestamp: int, participant: string)
      modifies this
      ensures rows == old(rows) + [UploadRecord(filePath, fileSize, timestamp, participant)]
    {
      rows := rows + [UploadRecord(filePath, fileSize, timestamp, participant)];
    }
  }
}
