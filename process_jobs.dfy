/** The background job runner: `processSingleJob` moves one `course_jobs`
    row to "processing", then to "completed" or "failed", storing the
    transcript chunks, retrieving the relevant ones and inserting the
    generated summary and quiz on the way.  Every outside call is an input
    of the run (a `JobWorld`). */
module ProcessJobs {
  import opened JsText
  import opened JsValue
  import opened Store
  import opened Embeddings
  import opened GptHandlers

  /** The one retrieval query the job runner asks. */
  const JobQuery: string := "What is this video about? What are the key ideas and important moments?"

  /** What the outside world answers during one run. */
  datatype JobWorld = JobWorld(
    jobQueryFails: bool,
    videoQueryFails: bool,
    processingWrite: WriteOutcome,
    finalWrite: WriteOutcome,
    chunkOutcome: nat -> ChunkOutcome,
    queryOutcome: nat -> QueryOutcome,
    llm: (string, real) -> Option<string>,
    quizApi: (string, real, string) -> QuizReply,
    summaryInsert: WriteOutcome,
    quizInsert: WriteOutcome)

  /** Why a run ended in "failed". */
  datatype FailReason = VideoNotFound | NoTranscript | RetrievalThrew | QuizThrew | NotGenerated

  /** How a run ends. */
  datatype JobEnd = NoSuchJob | Completed | Failed(reason: FailReason)

  /** A run: how it ends, the writes it attempts in order, and the rows it
      adds to the chunk, summary and quiz tables. */
  datatype JobRun = JobRun(end: JobEnd, writes: seq<Write>, chunkRows: seq<ChunkRow>,
                           summaryRows: seq<SummaryRow>, quizRows: seq<QuizRow>)

  /** The status a run ends with. */
  function FinalStatus(end: JobEnd): string
  {
    if end == Completed then "completed" else "failed"
  }

  /** The transcript of the `.single()` video row: `video.transcript || ""`. */
  function TranscriptOf(video: VideoRow): string
  {
    if video.transcript.Some? then video.transcript.value else ""
  }

  /** What retrieval and generation came to: the retrieval or the quiz
      request threw, a generator answered nothing, or both produced. */
  datatype Generation = RetrievalFailed | QuizFailed | NothingGenerated | Generated(summary: string, quiz: seq<Json>)

  /** `getRelevantChunks` with the one query, the chunks rendered for the
      prompts, and the two generators on that text. */
  function Generate(videoId: string, transcript: string,
                    detail: real, questionCount: real, difficulty: real, w: JobWorld): Generation
  {
    var retrieval := Retrieve([JobQuery], videoId, transcript, w.queryOutcome).0;
    if retrieval.RetrievalThrows? then RetrievalFailed
    else
      var text := FormatChunks(retrieval.chunks);
      var summary := GenerateSummary(text, detail, w.llm);
      var quiz := QuizResult(text, difficulty, questionCount, w.quizApi);
      if quiz == QuizException then QuizFailed
      else if summary.None? || quiz == NullQuiz then NothingGenerated
      else Generated(summary.value, quiz.questions)
  }

  /** How the run ends once retrieval and generation are done. */
  function EndOf(g: Generation): JobEnd
  {
    match g
    case RetrievalFailed => Failed(RetrievalThrew)
    case QuizFailed => Failed(QuizThrew)
    case NothingGenerated => Failed(NotGenerated)
    case Generated(_, _) => Completed
  }

  /** The writes after the chunk inserts: the two inserts when both parts
      were generated, then the final status. */
  function TailWrites(jobId: string, videoId: string, g: Generation): seq<Write>
  {
    if g.Generated? then [SummaryInsert(videoId), QuizInsert(videoId), JobStatusWrite(jobId, "completed")]
    else [JobStatusWrite(jobId, "failed")]
  }

  /** The run after the video row was found: what follows
      `update({ status: "processing" })`, up to and including the final status
      write. */
  function RunWithVideo(jobId: string, videoId: string, transcript: string,
                        detail: real, questionCount: real, difficulty: real, w: JobWorld): (run: JobRun)
  {
    var chunks := WordChunks(Split(transcript, ' '), 400);
    var g := Generate(videoId, transcript, detail, questionCount, difficulty, w);
    JobRun(EndOf(g),
           ChunkWrites(videoId, chunks, w.chunkOutcome) + TailWrites(jobId, videoId, g),
           StoredRows(videoId, chunks, w.chunkOutcome),
           if g.Generated? && w.summaryInsert == Written then [SummaryRow(videoId, g.summary)] else [],
           if g.Generated? && w.quizInsert == Written then [QuizRow(videoId, g.quiz)] else [])
  }

  /** The video row the job names, as `.single()` answers it. */
  function JobVideo(job: JobRow, videos: seq<VideoRow>, w: JobWorld): Option<VideoRow>
  {
    if w.videoQueryFails then None else Single(videos, (v: VideoRow) => v.videoId == job.videoId)
  }

  /** What the video lookup gives the run: the transcript to go on with, or
      why the job fails right away. */
  datatype Lookup = Missing(reason: FailReason) | Found(transcript: string)

  function LookupVideo(job: JobRow, videos: seq<VideoRow>, w: JobWorld): Lookup
  {
    var video := JobVideo(job, videos, w);
    if video.None? then Missing(VideoNotFound)
    else if TranscriptOf(video.value) == "" then Missing(NoTranscript)
    else Found(TranscriptOf(video.value))
  }

  /** The run after the "processing" write: the "failed" write for a missing
      video or transcript, the run on the transcript otherwise. */
  function AfterLookup(jobId: string, videoId: string, lookup: Lookup,
                       detail: real, questionCount: real, difficulty: real, w: JobWorld): JobRun
  {
    match lookup
    case Missing(reason) => JobRun(Failed(reason), [JobStatusWrite(jobId, "failed")], [], [], [])
    case Found(transcript) => RunWithVideo(jobId, videoId, transcript, detail, questionCount, difficulty, w)
  }

  /** `processSingleJob(jobId, summary_detail, questionCount, difficulty)` on
      the given job and video tables. */
  function JobRunOf(jobs: map<string, JobRow>, videos: seq<VideoRow>, jobId: string,
                    detail: real, questionCount: real, difficulty: real, w: JobWorld): (run: JobRun)
  {
    if w.jobQueryFails || jobId !in jobs then JobRun(NoSuchJob, [], [], [], [])
    else
      var rest := AfterLookup(jobId, jobs[jobId].videoId, LookupVideo(jobs[jobId], videos, w),
                              detail, questionCount, difficulty, w);
      rest.(writes := [JobStatusWrite(jobId, "processing")] + rest.writes)
  }

  /** The job table after a run: the "processing" update, then the final
      one, each applied when it goes through. */
  function JobsAfter(jobs: map<string, JobRow>, jobId: string, run: JobRun, w: JobWorld): map<string, JobRow>
  {
    if run.end == NoSuchJob then jobs
    else WithStatus(WithStatus(jobs, jobId, "processing", w.processingWrite), jobId, FinalStatus(run.end), w.finalWrite)
  }

  /** `adminSummary` / `adminQuiz`: the insert mapped to "success" or
      "failed". */
  method AdminSummary(db: Database, videoId: string, text: string, outcome: WriteOutcome) returns (status: string)
    modifies db`summaries, db`log
    ensures status == InsertStatus(outcome)
    ensures db.log == old(db.log) + [SummaryInsert(videoId)]
    ensures db.summaries == if outcome == Written then old(db.summaries) + [SummaryRow(videoId, text)] else old(db.summaries)
  {
    status := db.InsertSummary(videoId, text, outcome);
  }

  method AdminQuiz(db: Database, videoId: string, quiz: seq<Json>, outcome: WriteOutcome) returns (status: string)
    modifies db`quizzes, db`log
    ensures status == InsertStatus(outcome)
    ensures db.log == old(db.log) + [QuizInsert(videoId)]
    ensures db.quizzes == if outcome == Written then old(db.quizzes) + [QuizRow(videoId, quiz)] else old(db.quizzes)
  {
    status := db.InsertQuiz(videoId, quiz, outcome);
  }

  /** `processSingleJob`: the job-status state machine over the database. */
  method ProcessSingleJob(db: Database, jobId: string, detail: real, questionCount: real, difficulty: real, w: JobWorld)
    modifies db`jobs, db`chunks, db`summaries, db`quizzes, db`log
    ensures db.log == old(db.log) + JobRunOf(old(db.jobs), old(db.videos), jobId, detail, questionCount, difficulty, w).writes
    ensures db.jobs == JobsAfter(old(db.jobs), jobId, JobRunOf(old(db.jobs), old(db.videos), jobId, detail, questionCount, difficulty, w), w)
    ensures db.chunks == old(db.chunks) + JobRunOf(old(db.jobs), old(db.videos), jobId, detail, questionCount, difficulty, w).chunkRows
    ensures db.summaries == old(db.summaries) + JobRunOf(old(db.jobs), old(db.videos), jobId, detail, questionCount, difficulty, w).summaryRows
    ensures db.quizzes == old(db.quizzes) + JobRunOf(old(db.jobs), old(db.videos), jobId, detail, questionCount, difficulty, w).quizRows
  {
    if w.jobQueryFails || jobId !in db.jobs {
      return;
    }
    var job, videos := db.jobs[jobId], db.videos;
    db.UpdateJobStatus(jobId, "processing", w.processingWrite);
    var lookup := LookupVideo(job, videos, w);
    AfterLookupEnds(jobId, job.videoId, lookup, detail, questionCount, difficulty, w);
    ProcessLookup(db, jobId, job.videoId, lookup, detail, questionCount, difficulty, w);
    AppendAssoc(old(db.log), [JobStatusWrite(jobId, "processing")],
              AfterLookup(jobId, job.videoId, lookup, detail, questionCount, difficulty, w).writes);
  }

  /** The run after the "processing" write always ends in a final status. */
  lemma AfterLookupEnds(jobId: string, videoId: string, lookup: Lookup,
                        detail: real, questionCount: real, difficulty: real, w: JobWorld)
    ensures AfterLookup(jobId, videoId, lookup, detail, questionCount, difficulty, w).end != NoSuchJob
  {
    if lookup.Found? {
      var g := Generate(videoId, lookup.transcript, detail, questionCount, difficulty, w);
      assert EndOf(g) != NoSuchJob;
    }
  }

  /** What `processSingleJob` does after the "processing" update. */
  method ProcessLookup(db: Database, jobId: string, videoId: string, lookup: Lookup,
                       detail: real, questionCount: real, difficulty: real, w: JobWorld)
    modifies db`jobs, db`chunks, db`summaries, db`quizzes, db`log
    ensures db.log == old(db.log) + AfterLookup(jobId, videoId, lookup, detail, questionCount, difficulty, w).writes
    ensures db.jobs == WithStatus(old(db.jobs), jobId,
      FinalStatus(AfterLookup(jobId, videoId, lookup, detail, questionCount, difficulty, w).end), w.finalWrite)
    ensures db.chunks == old(db.chunks) + AfterLookup(jobId, videoId, lookup, detail, questionCount, difficulty, w).chunkRows
    ensures db.summaries == old(db.summaries) + AfterLookup(jobId, videoId, lookup, detail, questionCount, difficulty, w).summaryRows
    ensures db.quizzes == old(db.quizzes) + AfterLookup(jobId, videoId, lookup, detail, questionCount, difficulty, w).quizRows
  {
    if lookup.Missing? {
      db.UpdateJobStatus(jobId, "failed", w.finalWrite);
    } else {
      ProcessVideo(db, jobId, videoId, lookup.transcript, detail, questionCount, difficulty, w);
    }
  }

  /** The `try` block of `processSingleJob` from `storeChunksInSupabase` on:
      store, retrieve, generate, insert, and the final status update (the
      `catch` writes "failed"). */
  method ProcessVideo(db: Database, jobId: string, videoId: string, transcript: string,
                      detail: real, questionCount: real, difficulty: real, w: JobWorld)
    modifies db`jobs, db`chunks, db`summaries, db`quizzes, db`log
    ensures db.log == old(db.log) + RunWithVideo(jobId, videoId, transcript, detail, questionCount, difficulty, w).writes
    ensures db.jobs == WithStatus(old(db.jobs), jobId, FinalStatus(RunWithVideo(jobId, videoId, transcript, detail, questionCount, difficulty, w).end), w.finalWrite)
    ensures db.chunks == old(db.chunks) + RunWithVideo(jobId, videoId, transcript, detail, questionCount, difficulty, w).chunkRows
    ensures db.summaries == old(db.summaries) + RunWithVideo(jobId, videoId, transcript, detail, questionCount, difficulty, w).summaryRows
    ensures db.quizzes == old(db.quizzes) + RunWithVideo(jobId, videoId, transcript, detail, questionCount, difficulty, w).quizRows
  {
    StoreChunks(db, videoId, transcript, w.chunkOutcome);
    var gen := GenerateMethod(videoId, transcript, detail, questionCount, difficulty, w);
    FinishRun(db, jobId, videoId, gen, w);
    AppendAssoc(old(db.log), ChunkWrites(videoId, WordChunks(Split(transcript, ' '), 400), w.chunkOutcome),
              TailWrites(jobId, videoId, gen));
  }

  /** The end of the `try` block: the two inserts when both parts were
      generated, then the final status update. */
  method FinishRun(db: Database, jobId: string, videoId: string, gen: Generation, w: JobWorld)
    modifies db`jobs, db`summaries, db`quizzes, db`log
    ensures db.log == old(db.log) + TailWrites(jobId, videoId, gen)
    ensures db.jobs == WithStatus(old(db.jobs), jobId, FinalStatus(EndOf(gen)), w.finalWrite)
    ensures db.summaries == old(db.summaries) +
      if gen.Generated? && w.summaryInsert == Written then [SummaryRow(videoId, gen.summary)] else []
    ensures db.quizzes == old(db.quizzes) +
      if gen.Generated? && w.quizInsert == Written then [QuizRow(videoId, gen.quiz)] else []
  {
    if !gen.Generated? {
      db.UpdateJobStatus(jobId, "failed", w.finalWrite);
      return;
    }
    var _ := AdminSummary(db, videoId, gen.summary, w.summaryInsert);
    var _ := AdminQuiz(db, videoId, gen.quiz, w.quizInsert);
    db.UpdateJobStatus(jobId, "completed", w.finalWrite);
  }

  /** Retrieval and the two generators, as `processSingleJob` runs them. */
  method GenerateMethod(videoId: string, transcript: string,
                        detail: real, questionCount: real, difficulty: real, w: JobWorld)
    returns (gen: Generation)
    ensures gen == Generate(videoId, transcript, detail, questionCount, difficulty, w)
  {
    var retrieval, _ := GetRelevantChunks([JobQuery], videoId, transcript, w.queryOutcome);
    if retrieval.RetrievalThrows? {
      return RetrievalFailed;
    }
    var text := FormatChunks(retrieval.chunks);
    var summary := GenerateSummary(text, detail, w.llm);
    var quiz := GenerateQuiz(text, difficulty, questionCount, w.quizApi);
    if quiz == QuizException {
      return QuizFailed;
    }
    if summary.None? || quiz == NullQuiz {
      return NothingGenerated;
    }
    return Generated(summary.value, quiz.questions);
  }

  // ---------------------------------------------------------- properties

  /** A job lookup that fails or finds nothing ends the run without
      writing anything. */
  lemma NoJobNoWrites(jobs: map<string, JobRow>, videos: seq<VideoRow>, jobId: string,
                      detail: real, questionCount: real, difficulty: real, w: JobWorld)
    requires w.jobQueryFails || jobId !in jobs
    ensures JobRunOf(jobs, videos, jobId, detail, questionCount, difficulty, w).end == NoSuchJob
    ensures JobRunOf(jobs, videos, jobId, detail, questionCount, difficulty, w).writes == []
    ensures JobsAfter(jobs, jobId, JobRunOf(jobs, videos, jobId, detail, questionCount, difficulty, w), w) == jobs
  {
  }

  /** The status writes of a run. */
  function StatusWrites(writes: seq<Write>): seq<Write>
  {
    if |writes| == 0 then []
    else (if writes[0].JobStatusWrite? then [writes[0]] else []) + StatusWrites(writes[1..])
  }

  lemma {:induction false} StatusWritesAppend(a: seq<Write>, b: seq<Write>)
    ensures StatusWrites(a + b) == StatusWrites(a) + StatusWrites(b)
  {
    if |a| == 0 {
      assert a + b == b;
    } else {
      assert (a + b)[1..] == a[1..] + b;
      StatusWritesAppend(a[1..], b);
    }
  }

  lemma {:induction false} ChunkWritesHaveNoStatus(videoId: string, cs: seq<string>, outcome: nat -> ChunkOutcome)
    ensures StatusWrites(ChunkWrites(videoId, cs, outcome)) == []
    decreases |cs|
  {
    if |cs| > 0 {
      var n := |cs| - 1;
      ChunkWritesHaveNoStatus(videoId, cs[..n], outcome);
      var tail: seq<Write> := if outcome(n).Insert? then [ChunkInsert(videoId, n)] else [];
      StatusWritesAppend(ChunkWrites(videoId, cs[..n], outcome), tail);
      if outcome(n).Insert? {
        assert StatusWrites(tail) == [] + StatusWrites(tail[1..]);
      }
    }
  }

  /** The writes after the chunk inserts hold one status, the final one. */
  lemma TailStatus(jobId: string, videoId: string, g: Generation)
    ensures StatusWrites(TailWrites(jobId, videoId, g)) == [JobStatusWrite(jobId, FinalStatus(EndOf(g)))]
  {
    var t := TailWrites(jobId, videoId, g);
    if g.Generated? {
      assert t[1..][1..][1..] == [];
      assert StatusWrites(t[1..][1..]) == [t[2]];
      assert StatusWrites(t[1..]) == [t[2]];
    } else {
      assert t[1..] == [];
    }
  }

  /** After the video is found the run writes one status, the final one, as
      its last write. */
  lemma RunWithVideoStatus(jobId: string, videoId: string, transcript: string,
                           detail: real, questionCount: real, difficulty: real, w: JobWorld)
    ensures var run := RunWithVideo(jobId, videoId, transcript, detail, questionCount, difficulty, w);
      && run.end != NoSuchJob
      && StatusWrites(run.writes) == [JobStatusWrite(jobId, FinalStatus(run.end))]
      && run.writes[|run.writes| - 1] == JobStatusWrite(jobId, FinalStatus(run.end))
  {
    var g := Generate(videoId, transcript, detail, questionCount, difficulty, w);
    var cs := WordChunks(Split(transcript, ' '), 400);
    var cws := ChunkWrites(videoId, cs, w.chunkOutcome);
    var tail := TailWrites(jobId, videoId, g);
    assert StatusWrites(cws + tail) == [JobStatusWrite(jobId, FinalStatus(EndOf(g)))] by {
      ChunkWritesHaveNoStatus(videoId, cs, w.chunkOutcome);
      TailStatus(jobId, videoId, g);
      StatusWritesAppend(cws, tail);
    }
  }

  /** Once the job is found, the run writes exactly two statuses: first
      "processing", as its first write, and last "completed" or "failed"
      ("completed" exactly when the run completed), as its last write. */
  lemma StatusSequence(jobs: map<string, JobRow>, videos: seq<VideoRow>, jobId: string,
                       detail: real, questionCount: real, difficulty: real, w: JobWorld)
    requires !w.jobQueryFails && jobId in jobs
    ensures var run := JobRunOf(jobs, videos, jobId, detail, questionCount, difficulty, w);
      && run.end != NoSuchJob
      && StatusWrites(run.writes) == [JobStatusWrite(jobId, "processing"), JobStatusWrite(jobId, FinalStatus(run.end))]
      && run.writes[0] == JobStatusWrite(jobId, "processing")
      && run.writes[|run.writes| - 1] == JobStatusWrite(jobId, FinalStatus(run.end))
  {
    var start := [JobStatusWrite(jobId, "processing")];
    var rest := AfterLookup(jobId, jobs[jobId].videoId, LookupVideo(jobs[jobId], videos, w),
                            detail, questionCount, difficulty, w);
    AfterLookupStatus(jobId, jobs[jobId].videoId, LookupVideo(jobs[jobId], videos, w),
                      detail, questionCount, difficulty, w);
    assert StatusWrites(start) == start;
    StatusWritesAppend(start, rest.writes);
  }

  /** After the "processing" write the run writes one status, the final one,
      as its last write. */
  lemma AfterLookupStatus(jobId: string, videoId: string, lookup: Lookup,
                          detail: real, questionCount: real, difficulty: real, w: JobWorld)
    ensures var rest := AfterLookup(jobId, videoId, lookup, detail, questionCount, difficulty, w);
      && rest.end != NoSuchJob
      && StatusWrites(rest.writes) == [JobStatusWrite(jobId, FinalStatus(rest.end))]
      && rest.writes[|rest.writes| - 1] == JobStatusWrite(jobId, FinalStatus(rest.end))
  {
    if lookup.Missing? {
      var rest := AfterLookup(jobId, videoId, lookup, detail, questionCount, difficulty, w);
      assert StatusWrites(rest.writes) == rest.writes;
    } else {
      RunWithVideoStatus(jobId, videoId, lookup.transcript, detail, questionCount, difficulty, w);
    }
  }

  /** A missing video, or a video without transcript, fails the job right
      after "processing". */
  lemma MissingVideoOrTranscriptFails(jobs: map<string, JobRow>, videos: seq<VideoRow>, jobId: string,
                                      detail: real, questionCount: real, difficulty: real, w: JobWorld)
    requires !w.jobQueryFails && jobId in jobs
    requires var vid := jobs[jobId].videoId;
      w.videoQueryFails ||
      (forall i :: 0 <= i < |videos| ==> videos[i].videoId != vid) ||
      (forall i :: 0 <= i < |videos| && videos[i].videoId == vid ==> TranscriptOf(videos[i]) == "")
    ensures JobRunOf(jobs, videos, jobId, detail, questionCount, difficulty, w).writes ==
      [JobStatusWrite(jobId, "processing"), JobStatusWrite(jobId, "failed")]
    ensures JobRunOf(jobs, videos, jobId, detail, questionCount, difficulty, w).end.Failed?
  {
    var video := JobVideo(jobs[jobId], videos, w);
    if video.Some? {
      var i :| 0 <= i < |videos| && videos[i] == video.value;
    }
  }

  /** "completed" is reached only when a summary and a quiz were both
      generated from the retrieved chunks, and both inserts were attempted
      just before the final write. */
  lemma CompletedOnlyWhenGenerated(jobs: map<string, JobRow>, videos: seq<VideoRow>, jobId: string,
                                   detail: real, questionCount: real, difficulty: real, w: JobWorld)
    requires JobRunOf(jobs, videos, jobId, detail, questionCount, difficulty, w).end == Completed
    ensures jobId in jobs
    ensures var run := JobRunOf(jobs, videos, jobId, detail, questionCount, difficulty, w);
      var n := |run.writes|;
      var vid := jobs[jobId].videoId;
      && n >= 4
      && run.writes[n - 3] == SummaryInsert(vid) && run.writes[n - 2] == QuizInsert(vid)
      && run.writes[n - 1] == JobStatusWrite(jobId, "completed")
    ensures var video := JobVideo(jobs[jobId], videos, w);
      video.Some? && TranscriptOf(video.value) != "" &&
      var retrieval := Retrieve([JobQuery], jobs[jobId].videoId, TranscriptOf(video.value), w.queryOutcome).0;
      retrieval.Retrieved? &&
      GenerateSummary(FormatChunks(retrieval.chunks), detail, w.llm).Some? &&
      QuizResult(FormatChunks(retrieval.chunks), difficulty, questionCount, w.quizApi).QuizOk?
  {
  }

  /** Nothing retrieved means an empty text for the generators, so no quiz
      and a failed job. */
  lemma NothingRetrievedFails(jobId: string, videoId: string, transcript: string,
                              detail: real, questionCount: real, difficulty: real, w: JobWorld)
    requires Retrieve([JobQuery], videoId, transcript, w.queryOutcome).0 == Retrieved([])
    ensures RunWithVideo(jobId, videoId, transcript, detail, questionCount, difficulty, w).end == Failed(NotGenerated)
  {
  }

  /** The insert results are ignored: whatever the summary and quiz inserts
      answer, the run ends the same way and writes the same; only the rows
      that reach the tables differ. */
  lemma InsertFailuresIgnored(jobs: map<string, JobRow>, videos: seq<VideoRow>, jobId: string,
                              detail: real, questionCount: real, difficulty: real, w: JobWorld,
                              summaryInsert: WriteOutcome, quizInsert: WriteOutcome)
    ensures var w' := w.(summaryInsert := summaryInsert, quizInsert := quizInsert);
      var run := JobRunOf(jobs, videos, jobId, detail, questionCount, difficulty, w);
      var run' := JobRunOf(jobs, videos, jobId, detail, questionCount, difficulty, w');
      run'.end == run.end && run'.writes == run.writes
  {
    var w' := w.(summaryInsert := summaryInsert, quizInsert := quizInsert);
    if !w.jobQueryFails && jobId in jobs {
      var job := jobs[jobId];
      assert JobVideo(job, videos, w') == JobVideo(job, videos, w);
      assert LookupVideo(job, videos, w') == LookupVideo(job, videos, w);
      match LookupVideo(job, videos, w)
      case Missing(_) =>
      case Found(transcript) =>
        assert Generate(job.videoId, transcript, detail, questionCount, difficulty, w') ==
               Generate(job.videoId, transcript, detail, questionCount, difficulty, w);
    }
  }

  /** With the final status write going through, the job row ends as
      "completed" or "failed", matching how the run ended, and no other row
      changes. */
  lemma FinalStatusStored(jobs: map<string, JobRow>, videos: seq<VideoRow>, jobId: string,
                          detail: real, questionCount: real, difficulty: real, w: JobWorld)
    requires !w.jobQueryFails && jobId in jobs && w.finalWrite == Written
    ensures var run := JobRunOf(jobs, videos, jobId, detail, questionCount, difficulty, w);
      var after := JobsAfter(jobs, jobId, run, w);
      && after.Keys == jobs.Keys
      && after[jobId] == jobs[jobId].(status := FinalStatus(run.end))
      && forall k :: k in jobs && k != jobId ==> after[k] == jobs[k]
  {
  }
}
