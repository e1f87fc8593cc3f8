/** The chunker's observation-count backfill (`--set_num_obs`): the chunks without a count
    are selected, and each one's count is set from its stored content. */
module RunChunker {
  import opened Wrappers
  import opened PyStrings
  import opened Constants
  import opened DataAccessModels
  import S3

  /** The count a chunk is given: one for a voice recording, otherwise the line breaks of
      its content before the trailing newlines (the header line excluded). */
  function CheckedCount(dataType: string, contents: string): (n: int)
    ensures n >= 0
    ensures dataType == VoiceRecording ==> n == 1
    ensures dataType != VoiceRecording ==> n == Count(RStrip(contents, {'\n'}), '\n')
  {
    if dataType == VoiceRecording then 1
    else
      ObservationCount(contents)
  }

  /** However many trailing newlines the stored content has, the count is the same. */
  lemma CheckedCountIgnoresTrailingNewlines(dataType: string, contents: string, newlines: string)
    requires forall k :: 0 <= k < |newlines| ==> newlines[k] == '\n'
    ensures CheckedCount(dataType, contents + newlines) == CheckedCount(dataType, contents)
  {
    TrailingNewlinesIgnored(contents, newlines);
  }

  /** The count a chunk can be given from the bucket: a voice recording needs no content;
      any other chunk needs its path stored (under the path itself, a raw path), whose body
      is decrypted for the chunk's study. */
  function NewCount(c: Chunk, objects: map<string, string>, studyObjectId: int -> string,
                    decrypt: (string, string) -> string): (n: Option<int>)
    ensures c.dataType == VoiceRecording ==> n == Some(1)
    ensures c.dataType != VoiceRecording ==> (n.Some? <==> c.chunkPath in objects)
  {
    if c.dataType == VoiceRecording then Some(1)
    else if c.chunkPath !in objects then None
    else Some(CheckedCount(c.dataType, decrypt(objects[c.chunkPath], studyObjectId(c.studyId))))
  }

  /** Whether a chunk can be counted when its retrieval meets the service errors
      `transient`: a voice recording always, any other chunk when its path is stored and
      some attempt meets no service error. */
  predicate Countable(c: Chunk, objects: map<string, string>, transient: nat -> bool)
  {
    c.dataType == VoiceRecording || (c.chunkPath in objects && S3.SomeAttemptClear(DefaultS3Retries, transient))
  }

  /** A countable chunk has a count to be given. */
  lemma CountableHasCount(c: Chunk, objects: map<string, string>, transient: nat -> bool,
                          studyObjectId: int -> string, decrypt: (string, string) -> string)
    requires Countable(c, objects, transient)
    ensures NewCount(c, objects, studyObjectId, decrypt).Some?
  {
  }

  /** check_and_update_number_of_observations on row `i`: a voice recording gets 1 without
      any retrieval; any other chunk's content is retrieved (a failed retrieval raises and
      changes nothing) and counted. Only the count of row `i` changes, and the call succeeds
      exactly when the chunk is countable. */
  method CheckAndUpdateNumberOfObservations(registry: ChunkRegistry, i: nat, bucket: S3.Bucket,
                                            studyObjectId: int -> string, transient: nat -> bool,
                                            decrypt: (string, string) -> string)
    returns (r: Result<(), string>)
    requires i < |registry.rows|
    modifies registry
    ensures r.Err? ==> registry.rows == old(registry.rows)
    ensures r.Ok? ==> (NewCount(old(registry.rows)[i], bucket.objects, studyObjectId, decrypt).Some?
      && registry.rows == old(registry.rows)[i := old(registry.rows)[i].(numberOfObservations :=
           NewCount(old(registry.rows)[i], bucket.objects, studyObjectId, decrypt))])
    ensures r.Ok? <==> Countable(old(registry.rows)[i], bucket.objects, transient)
  {
    var chunk := registry.rows[i];
    if chunk.dataType == VoiceRecording {
      registry.rows := registry.rows[i := chunk.(numberOfObservations := Some(1))];
      r := Ok(());
      return;
    }
    var fileContents, _ := bucket.Retrieve(chunk.chunkPath, studyObjectId(chunk.studyId), true, DefaultS3Retries, transient, decrypt);
    if fileContents.Err? {
      r := Err(fileContents.error);
      return;
    }
    var contents := RStrip(fileContents.value, {'\n'}) + "\n";
    registry.rows := registry.rows[i := chunk.(numberOfObservations := Some(Count(contents, '\n') - 1))];
    r := Ok(());
  }

  /** The rows without a count, by position in the table, in table order. */
  function Uncounted(rows: seq<Chunk>): (r: seq<nat>)
    ensures forall k :: 0 <= k < |r| ==> r[k] < |rows| && rows[r[k]].numberOfObservations.None?
    ensures forall k, l :: 0 <= k < l < |r| ==> r[k] < r[l]
    ensures forall j :: 0 <= j < |rows| && rows[j].numberOfObservations.None? ==> j in r
  {
    if |rows| == 0 then []
    else
      var init := rows[..|rows| - 1];
      Uncounted(init) + (if rows[|rows| - 1].numberOfObservations.None? then [|rows| - 1] else [])
  }

  /** The chunks `--set_num_obs` selects: the uncounted ones, only the first `numToProcess`
      of them when that is positive. */
  function ChunksToFix(rows: seq<Chunk>, numToProcess: int): seq<nat>
  {
    var all := Uncounted(rows);
    if 0 < numToProcess < |all| then all[..numToProcess] else all
  }

  /** The selection holds only uncounted rows, each once and in table order; it holds every
      one of them unless `numToProcess` is positive, and then at most that many with no
      uncounted row skipped before the last one selected. */
  lemma ChunksToFixSelects(rows: seq<Chunk>, numToProcess: int)
    ensures var sel := ChunksToFix(rows, numToProcess);
      (forall k :: 0 <= k < |sel| ==> sel[k] < |rows| && rows[sel[k]].numberOfObservations.None?)
      && (forall k, l :: 0 <= k < l < |sel| ==> sel[k] < sel[l])
      && (numToProcess > 0 ==> |sel| <= numToProcess)
      && ((numToProcess <= 0 || |sel| < numToProcess) ==>
            forall j :: 0 <= j < |rows| && rows[j].numberOfObservations.None? ==> j in sel)
      && (forall j, k :: 0 <= j < |rows| && rows[j].numberOfObservations.None? && 0 <= k < |sel| && j < sel[k] ==> j in sel)
  {
    var all := Uncounted(rows);
    var sel := ChunksToFix(rows, numToProcess);
    if 0 < numToProcess < |all| {
      assert |sel| == numToProcess;
    } else {
      assert sel == all;
    }
    assert forall k :: 0 <= k < |sel| ==> sel[k] == all[k];
    forall j, k | 0 <= j < |rows| && rows[j].numberOfObservations.None? && 0 <= k < |sel| && j < sel[k]
      ensures j in sel
    {
      var m :| 0 <= m < |all| && all[m] == j;
      assert m < k;
      assert sel[m] == j;
    }
  }

  /** The rows after the first `done` selected chunks were counted. */
  function Backfilled(rows: seq<Chunk>, sel: seq<nat>, done: nat, objects: map<string, string>,
                      studyObjectId: int -> string, decrypt: (string, string) -> string): (r: seq<Chunk>)
    requires done <= |sel|
    ensures |r| == |rows|
  {
    seq(|rows|, (j: int) requires 0 <= j < |rows| =>
      if j in sel[..done] && NewCount(rows[j], objects, studyObjectId, decrypt).Some?
      then rows[j].(numberOfObservations := NewCount(rows[j], objects, studyObjectId, decrypt))
      else rows[j])
  }

  /** Counting the next selected chunk changes only its row, which was still untouched. */
  lemma BackfilledStep(rows: seq<Chunk>, sel: seq<nat>, done: nat, objects: map<string, string>,
                       studyObjectId: int -> string, decrypt: (string, string) -> string)
    requires done < |sel| && sel[done] < |rows|
    requires forall k, l :: 0 <= k < l < |sel| ==> sel[k] < sel[l]
    ensures Backfilled(rows, sel, done, objects, studyObjectId, decrypt)[sel[done]] == rows[sel[done]]
    ensures NewCount(rows[sel[done]], objects, studyObjectId, decrypt).Some? ==>
      Backfilled(rows, sel, done + 1, objects, studyObjectId, decrypt)
        == Backfilled(rows, sel, done, objects, studyObjectId, decrypt)[sel[done] :=
             rows[sel[done]].(numberOfObservations := NewCount(rows[sel[done]], objects, studyObjectId, decrypt))]
  {
    var i := sel[done];
    assert i !in sel[..done] by {
      forall k | 0 <= k < done
        ensures sel[..done][k] != i
      {
        assert sel[k] < sel[done];
      }
    }
    assert sel[..done + 1] == sel[..done] + [i];
  }

  /** The service errors met by the `k`-th retrieval of a run: `transient(k, j)` holds when
      its attempt `j` fails. */
  function RetrievalErrors(transient: (nat, nat) -> bool, k: nat): (t: nat -> bool)
    ensures forall j: nat :: t(j) == transient(k, j)
  {
    (j: nat) => transient(k, j)
  }

  /** The first `done` selected chunks were countable, each with its own retrieval's
      service errors. */
  predicate CountedPrefix(rows: seq<Chunk>, sel: seq<nat>, done: nat, objects: map<string, string>,
                          transient: (nat, nat) -> bool)
  {
    done <= |sel|
    && forall k :: 0 <= k < done ==>
         sel[k] < |rows| && Countable(rows[sel[k]], objects, RetrievalErrors(transient, k))
  }

  /** One more countable chunk extends the prefix. */
  lemma CountedPrefixStep(rows: seq<Chunk>, sel: seq<nat>, done: nat, objects: map<string, string>,
                          transient: (nat, nat) -> bool)
    requires CountedPrefix(rows, sel, done, objects, transient) && done < |sel| && sel[done] < |rows|
    requires Countable(rows[sel[done]], objects, RetrievalErrors(transient, done))
    ensures CountedPrefix(rows, sel, done + 1, objects, transient)
  {
  }

  /** Every chunk of a countable prefix had a count to be given. */
  lemma CountedHaveCounts(rows: seq<Chunk>, sel: seq<nat>, done: nat, objects: map<string, string>,
                          transient: (nat, nat) -> bool, studyObjectId: int -> string,
                          decrypt: (string, string) -> string)
    requires CountedPrefix(rows, sel, done, objects, transient)
    ensures forall k :: 0 <= k < done ==> Countable(rows[sel[k]], objects, RetrievalErrors(transient, k))
    ensures forall k :: 0 <= k < done ==> NewCount(rows[sel[k]], objects, studyObjectId, decrypt).Some?
  {
    forall k | 0 <= k < done
      ensures NewCount(rows[sel[k]], objects, studyObjectId, decrypt).Some?
    {
      CountableHasCount(rows[sel[k]], objects, RetrievalErrors(transient, k), studyObjectId, decrypt);
    }
  }

  /** `--set_num_obs --run_serially`: the selected chunks are counted one after another; a
      failed retrieval raises and stops the run with the chunks before it already counted.
      The run succeeds exactly when every selected chunk is countable, and otherwise stops
      at the first one that is not. */
  method SetNumObs(registry: ChunkRegistry, numToProcess: int, bucket: S3.Bucket,
                   studyObjectId: int -> string, transient: (nat, nat) -> bool, decrypt: (string, string) -> string)
    returns (r: Result<(), string>, done: nat)
    modifies registry
    ensures var sel := ChunksToFix(old(registry.rows), numToProcess);
      done <= |sel| && (r.Ok? ==> done == |sel|)
      && (r.Err? ==> done < |sel| && !Countable(old(registry.rows)[sel[done]], bucket.objects, RetrievalErrors(transient, done)))
      && (forall k :: 0 <= k < done ==> Countable(old(registry.rows)[sel[k]], bucket.objects, RetrievalErrors(transient, k)))
      && (forall k :: 0 <= k < done ==> NewCount(old(registry.rows)[sel[k]], bucket.objects, studyObjectId, decrypt).Some?)
      && registry.rows == Backfilled(old(registry.rows), sel, done, bucket.objects, studyObjectId, decrypt)
  {
    ghost var rows0 := registry.rows;
    var chunksToFix := ChunksToFix(registry.rows, numToProcess);
    assert (forall k :: 0 <= k < |chunksToFix| ==> chunksToFix[k] < |rows0|)
      && (forall k, l :: 0 <= k < l < |chunksToFix| ==> chunksToFix[k] < chunksToFix[l]) by {
      ChunksToFixSelects(rows0, numToProcess);
    }
    done := 0;
    while done < |chunksToFix|
      invariant done <= |chunksToFix| && |registry.rows| == |rows0|
      invariant CountedPrefix(rows0, chunksToFix, done, bucket.objects, transient)
      invariant registry.rows == Backfilled(rows0, chunksToFix, done, bucket.objects, studyObjectId, decrypt)
    {
      var i := chunksToFix[done];
      BackfilledStep(rows0, chunksToFix, done, bucket.objects, studyObjectId, decrypt);
      var errors := RetrievalErrors(transient, done);
      r := CheckAndUpdateNumberOfObservations(registry, i, bucket, studyObjectId, errors, decrypt);
      if r.Err? {
        CountedHaveCounts(rows0, chunksToFix, done, bucket.objects, transient, studyObjectId, decrypt);
        return;
      }
      CountedPrefixStep(rows0, chunksToFix, done, bucket.objects, transient);
      done := done + 1;
    }
    CountedHaveCounts(rows0, chunksToFix, done, bucket.objects, transient, studyObjectId, decrypt);
    r := Ok(());
  }
}
