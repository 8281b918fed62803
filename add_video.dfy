/** Adding a YouTube video to a course: `addVideoToDb` (summary of the whole
    transcript) and `addVideoToDbUsingEmbedding` (chunks stored first, the
    summary and the quiz written from the chunks retrieved by five fixed
    questions).  Both insert the video row, generate a summary and a quiz,
    store them, and link the video into the course at its position.  The
    YouTube data, the channel thumbnail and the captions are inputs; every
    other outside answer is part of an `IngestWorld`. */
module AddVideo {
  import opened JsText
  import opened JsValue
  import opened Store
  import opened Embeddings
  import opened GptHandlers

  // ------------------------------------------------------------ video row

  /** `snippet.thumbnails`: the `url` of each size (`None` when the size or
      its `url` is missing). */
  datatype Thumbnails = Thumbnails(maxres: Option<string>, standard: Option<string>, defaultSize: Option<string>)

  /** The `snippet` of a YouTube video resource, each part `None` when
      missing. */
  datatype Snippet = Snippet(
    title: Option<string>,
    channelTitle: Option<string>,
    description: Option<string>,
    publishedAt: Option<string>,
    thumbnails: Thumbnails,
    tags: Json)

  /** One element of `videoData.items`: its snippet, `contentDetails.duration`
      and `statistics.viewCount`. */
  datatype VideoItem = VideoItem(snippet: Option<Snippet>, duration: Option<string>, viewCount: Option<string>)

  /** `videoData.items[0]?.snippet`. */
  function FirstSnippet(items: seq<VideoItem>): Option<Snippet>
  {
    if |items| == 0 then None else items[0].snippet
  }

  /** `a ?? b`: only a missing value falls through. */
  function Nullish(a: Option<string>, b: Option<string>): Option<string>
  {
    if a.Some? then a else b
  }

  /** `v || d` on a string: a missing value and the empty string fall through. */
  function OrElse(v: Option<string>, d: string): string
  {
    if v.Some? && v.value != "" then v.value else d
  }

  /** The first size that is present, in the order given: a reference for
      the chain of `??`. */
  function FirstPresent(xs: seq<Option<string>>): (r: Option<string>)
    ensures r.Some? <==> exists i :: 0 <= i < |xs| && xs[i].Some?
  {
    if |xs| == 0 then None
    else if xs[0].Some? then xs[0]
    else
      var r := FirstPresent(xs[1..]);
      assert forall i :: 1 <= i < |xs| ==> xs[i] == xs[1..][i - 1];
      r
  }

  /** `maxres?.url ?? standard?.url ?? default?.url`. */
  function ThumbnailUrl(items: seq<VideoItem>): Option<string>
  {
    var snippet := FirstSnippet(items);
    if snippet.None? then None
    else
      var t := snippet.value.thumbnails;
      Nullish(t.maxres, Nullish(t.standard, t.defaultSize))
  }

  /** The thumbnail is the largest size present, and a present size is
      taken even when its url is the empty string. */
  lemma ThumbnailIsLargestPresent(items: seq<VideoItem>)
    ensures var s := FirstSnippet(items);
      s.Some? ==>
        var t := s.value.thumbnails;
        ThumbnailUrl(items) == FirstPresent([t.maxres, t.standard, t.defaultSize])
    ensures FirstSnippet(items).None? ==> ThumbnailUrl(items) == None
    ensures var s := FirstSnippet(items);
      s.Some? && s.value.thumbnails.maxres == Some("") ==> ThumbnailUrl(items) == Some("")
  {
    var s := FirstSnippet(items);
    if s.Some? {
      var t := s.value.thumbnails;
      var xs := [t.maxres, t.standard, t.defaultSize];
      assert xs[1..] == [t.standard, t.defaultSize];
      assert xs[1..][1..] == [t.defaultSize];
      assert xs[1..][1..][1..] == [];
      assert FirstPresent([t.defaultSize]) == t.defaultSize;
      assert FirstPresent([t.standard, t.defaultSize]) == Nullish(t.standard, t.defaultSize);
    }
  }

  /** With `||` in place of `??` an empty maxres url would have fallen
      through to the next size; the code keeps it. */
  lemma EmptyMaxresIsKept()
    ensures var t := Thumbnails(Some(""), Some("s"), None);
      var items := [VideoItem(Some(Snippet(None, None, None, None, t, JNull)), None, None)];
      ThumbnailUrl(items) == Some("") &&
      Some(OrElse(t.maxres, OrElse(t.standard, ""))) == Some("s")
  {
  }

  /** `snippet?.tags || []`. */
  function TagsOf(items: seq<VideoItem>): Json
  {
    var snippet := FirstSnippet(items);
    var tags := if snippet.Some? then snippet.value.tags else JNull;
    if Truthy(tags) then tags else JArr([])
  }

  /** The tags stored are always truthy: the snippet's own tags when they
      are, an empty array otherwise. */
  lemma TagsDefault(items: seq<VideoItem>)
    ensures Truthy(TagsOf(items))
    ensures var s := FirstSnippet(items);
      s.Some? && Truthy(s.value.tags) ==> TagsOf(items) == s.value.tags
    ensures var s := FirstSnippet(items);
      s.None? || !Truthy(s.value.tags) ==> TagsOf(items) == JArr([])
  {
  }

  /** The row `addVideo` inserts under the fresh id: the ingestion code
      defaults the view count to "0", `addVideo` defaults it again and
      defaults the channel title to ""; no transcript is passed. */
  function VideoRowFor(videoId: string, youtubeId: string, items: seq<VideoItem>, channelThumbnail: string): VideoRow
  {
    var snippet := FirstSnippet(items);
    var viewCount := if |items| == 0 then None else items[0].viewCount;
    VideoRow(
      videoId,
      youtubeId,
      if snippet.Some? then snippet.value.title else None,
      OrElse(if snippet.Some? then snippet.value.channelTitle else None, ""),
      if snippet.Some? then snippet.value.description else None,
      if |items| == 0 then None else items[0].duration,
      if snippet.Some? then snippet.value.publishedAt else None,
      ThumbnailUrl(items),
      TagsOf(items),
      channelThumbnail,
      OrElse(Some(OrElse(viewCount, "0")), "0"),
      None)
  }

  /** The stored row carries the two ids, a non-empty view count that is the
      video's own when it has one (the second default never changes it), and
      no transcript. */
  lemma VideoRowFacts(videoId: string, youtubeId: string, items: seq<VideoItem>, channelThumbnail: string)
    ensures var r := VideoRowFor(videoId, youtubeId, items, channelThumbnail);
      r.videoId == videoId && r.youtubeId == youtubeId && r.transcript == None
    ensures VideoRowFor(videoId, youtubeId, items, channelThumbnail).viewCount != ""
    ensures |items| > 0 && items[0].viewCount.Some? && items[0].viewCount.value != "" ==>
      VideoRowFor(videoId, youtubeId, items, channelThumbnail).viewCount == items[0].viewCount.value
    ensures (|items| == 0 || items[0].viewCount.None? || items[0].viewCount.value == "") ==>
      VideoRowFor(videoId, youtubeId, items, channelThumbnail).viewCount == "0"
    ensures Truthy(VideoRowFor(videoId, youtubeId, items, channelThumbnail).tags)
  {
    TagsDefault(items);
  }

  // ------------------------------------------------------------ ingestion

  /** The caller's arguments: the YouTube id, the course, the video's
      position in it, and the generation settings. */
  datatype Request = Request(youtubeId: string, courseId: string, order: nat,
                             difficulty: real, questionCount: real, detail: real)

  /** What was fetched before the insert: `videoData.items`, the channel
      thumbnail and the captions. */
  datatype Fetched = Fetched(items: seq<VideoItem>, channelThumbnail: string, transcript: string)

  /** What the outside world answers during one ingestion. */
  datatype IngestWorld = IngestWorld(
    newVideoId: string,
    videoInsert: WriteOutcome,
    tokenCount: nat,
    llm: (string, real) -> Option<string>,
    quizApi: (string, real, string) -> QuizReply,
    chunkOutcome: nat -> ChunkOutcome,
    queryOutcome: nat -> QueryOutcome,
    summaryInsert: WriteOutcome,
    quizInsert: WriteOutcome,
    linkInsert: WriteOutcome)

  /** The error an ingestion throws. */
  datatype IngestFailure = VideoNotAdded | RetrievalThrew | QuizThrew | NoSummary | NoQuiz | LinkNotAdded

  /** How an ingestion ends: `{ status: "success", video_id }`, or thrown. */
  datatype IngestEnd = Added(videoId: string) | Threw(reason: IngestFailure)

  /** What the two generators came to once both settled. */
  datatype Drafts = DraftsThrew(reason: IngestFailure) | Drafts(summary: string, quiz: seq<Json>)

  /** `Promise.all([summary, quiz])` and the two checks after it: the quiz
      request's exception rejects the pair whatever the summary; then a
      missing summary, then a missing quiz.  A summary is never `""` (the
      generator maps it to `null`); an empty question array is truthy and
      accepted. */
  function Decide(summary: Option<string>, quiz: QuizOutcome): Drafts
  {
    if quiz == QuizException then DraftsThrew(QuizThrew)
    else if summary.None? then DraftsThrew(NoSummary)
    else if quiz == NullQuiz then DraftsThrew(NoQuiz)
    else Drafts(summary.value, quiz.questions)
  }

  /** Both parts are stored exactly when both were produced; a throwing quiz
      request wins over a missing summary; an empty quiz goes through. */
  lemma DecideMeaning(summary: Option<string>, quiz: QuizOutcome)
    ensures Decide(summary, quiz).Drafts? <==> summary.Some? && quiz.QuizOk?
    ensures Decide(summary, quiz).Drafts? ==>
      Decide(summary, quiz) == Drafts(summary.value, quiz.questions)
    ensures quiz == QuizException ==> Decide(summary, quiz) == DraftsThrew(QuizThrew)
    ensures summary.Some? ==> Decide(summary, QuizOk([])) == Drafts(summary.value, [])
  {
  }

  /** One ingestion: how it ends, the writes it attempts in order, the rows
      it adds to each table, and the similarity RPCs it issues. */
  datatype IngestRun = IngestRun(end: IngestEnd, writes: seq<Write>, videoRows: seq<VideoRow>,
                                 chunkRows: seq<ChunkRow>, summaryRows: seq<SummaryRow>,
                                 quizRows: seq<QuizRow>, linkRows: seq<CourseVideoRow>,
                                 calls: seq<RpcCall>)

  /** The five questions the embedding variant retrieves chunks for. */
  const GeneralQueries: seq<string> := [
    "What is this video about?",
    "What are the key ideas explained?",
    "What are the most important moments?",
    "What should someone remember from this?",
    "What steps, terms, or frameworks are discussed?"]

  /** `addVideoToDb`'s generators: the final summary of the whole
      transcript and the quiz on it. */
  function PlainDrafts(req: Request, transcript: string, w: IngestWorld): Drafts
  {
    Decide(FinalSummary(transcript, req.detail, w.tokenCount, w.llm).result,
           QuizResult(transcript, req.difficulty, req.questionCount, w.quizApi))
  }

  /** `addVideoToDbUsingEmbedding`'s generators: retrieval with the five
      questions (its exception propagates), then the smart summary and the
      quiz on the rendered chunks. */
  function EmbeddingDrafts(req: Request, videoId: string, transcript: string, w: IngestWorld): Drafts
  {
    var retrieval := Retrieve(GeneralQueries, videoId, transcript, w.queryOutcome).0;
    if retrieval.RetrievalThrows? then DraftsThrew(RetrievalThrew)
    else
      var text := FormatChunks(retrieval.chunks);
      Decide(GenerateSummary(text, req.detail, w.llm),
             QuizResult(text, req.difficulty, req.questionCount, w.quizApi))
  }

  function EndOf(videoId: string, d: Drafts): IngestEnd
  {
    if d.Drafts? then Added(videoId) else Threw(d.reason)
  }

  /** The writes after generation: summary, quiz, then the course link, and
      none of them when generation failed. */
  function TailWrites(req: Request, videoId: string, d: Drafts): seq<Write>
  {
    if d.Drafts? then [SummaryInsert(videoId), QuizInsert(videoId), CourseVideoInsert(req.courseId, videoId, req.order)]
    else []
  }

  function SummaryRowsOf(videoId: string, d: Drafts, w: IngestWorld): seq<SummaryRow>
  {
    if d.Drafts? && w.summaryInsert == Written then [SummaryRow(videoId, d.summary)] else []
  }

  function QuizRowsOf(videoId: string, d: Drafts, w: IngestWorld): seq<QuizRow>
  {
    if d.Drafts? && w.quizInsert == Written then [QuizRow(videoId, d.quiz)] else []
  }

  function LinkRowsOf(req: Request, videoId: string, d: Drafts, w: IngestWorld): seq<CourseVideoRow>
  {
    if d.Drafts? && w.linkInsert == Written then [CourseVideoRow(req.courseId, videoId, req.order)] else []
  }

  /** A run that stops at the failed video insert. */
  function NotAdded(videoId: string): IngestRun
  {
    IngestRun(Threw(VideoNotAdded), [VideoInsert(videoId)], [], [], [], [], [], [])
  }

  /** `addVideoToDb(youtube_id, courseId, order, difficulty, questionCount,
      summary_detail)` on the fetched data. */
  function PlainRun(req: Request, f: Fetched, w: IngestWorld): IngestRun
  {
    var id := w.newVideoId;
    if w.videoInsert != Written then NotAdded(id)
    else
      var d := PlainDrafts(req, f.transcript, w);
      IngestRun(EndOf(id, d), [VideoInsert(id)] + TailWrites(req, id, d),
                [VideoRowFor(id, req.youtubeId, f.items, f.channelThumbnail)], [],
                SummaryRowsOf(id, d, w), QuizRowsOf(id, d, w), LinkRowsOf(req, id, d, w), [])
  }

  /** The chunks `storeChunksInSupabase` cuts the transcript into. */
  function StoredChunks(transcript: string): seq<string>
  {
    WordChunks(Split(transcript, ' '), 400)
  }

  /** `addVideoToDbUsingEmbedding(...)` on the given video data, channel
      thumbnail and transcript. */
  function EmbeddingRun(req: Request, f: Fetched, w: IngestWorld): IngestRun
  {
    var id := w.newVideoId;
    if w.videoInsert != Written then NotAdded(id)
    else
      var d := EmbeddingDrafts(req, id, f.transcript, w);
      IngestRun(EndOf(id, d),
                [VideoInsert(id)] + (ChunkWrites(id, StoredChunks(f.transcript), w.chunkOutcome) + TailWrites(req, id, d)),
                [VideoRowFor(id, req.youtubeId, f.items, f.channelThumbnail)],
                StoredRows(id, StoredChunks(f.transcript), w.chunkOutcome),
                SummaryRowsOf(id, d, w), QuizRowsOf(id, d, w), LinkRowsOf(req, id, d, w),
                Retrieve(GeneralQueries, id, f.transcript, w.queryOutcome).1)
  }

  /** The drafts stored and the course link, in that order; nothing when
      generation failed. */
  method FinishIngest(db: Database, req: Request, videoId: string, d: Drafts, w: IngestWorld) returns (end: IngestEnd)
    modifies db`summaries, db`quizzes, db`courseVideos, db`log
    ensures end == EndOf(videoId, d)
    ensures db.log == old(db.log) + TailWrites(req, videoId, d)
    ensures db.summaries == old(db.summaries) + SummaryRowsOf(videoId, d, w)
    ensures db.quizzes == old(db.quizzes) + QuizRowsOf(videoId, d, w)
    ensures db.courseVideos == old(db.courseVideos) + LinkRowsOf(req, videoId, d, w)
  {
    if d.DraftsThrew? {
      return Threw(d.reason);
    }
    var _ := db.InsertSummary(videoId, d.summary, w.summaryInsert);
    var _ := db.InsertQuiz(videoId, d.quiz, w.quizInsert);
    db.InsertCourseVideo(CourseVideoRow(req.courseId, videoId, req.order), w.linkInsert);
    return Added(videoId);
  }

  /** `addVideoToDb`. */
  method AddVideoToDb(db: Database, req: Request, f: Fetched, w: IngestWorld) returns (end: IngestEnd)
    modifies db`videos, db`summaries, db`quizzes, db`courseVideos, db`log
    ensures end == PlainRun(req, f, w).end
    ensures db.log == old(db.log) + PlainRun(req, f, w).writes
    ensures db.videos == old(db.videos) + PlainRun(req, f, w).videoRows
    ensures db.summaries == old(db.summaries) + PlainRun(req, f, w).summaryRows
    ensures db.quizzes == old(db.quizzes) + PlainRun(req, f, w).quizRows
    ensures db.courseVideos == old(db.courseVideos) + PlainRun(req, f, w).linkRows
  {
    var row := VideoRowFor(w.newVideoId, req.youtubeId, f.items, f.channelThumbnail);
    var id := db.InsertVideo(row, w.videoInsert);
    if id.None? {
      return Threw(VideoNotAdded);
    }
    var summary := FinalSummary(f.transcript, req.detail, w.tokenCount, w.llm).result;
    var quiz := GenerateQuiz(f.transcript, req.difficulty, req.questionCount, w.quizApi);
    var d := Decide(summary, quiz);
    assert d == PlainDrafts(req, f.transcript, w);
    end := FinishIngest(db, req, id.value, d, w);
    AppendAssoc(old(db.log), [VideoInsert(id.value)], TailWrites(req, id.value, d));
  }

  /** `addVideoToDbUsingEmbedding`. */
  method AddVideoToDbUsingEmbedding(db: Database, req: Request, f: Fetched, w: IngestWorld)
    returns (end: IngestEnd, calls: seq<RpcCall>)
    modifies db`videos, db`chunks, db`summaries, db`quizzes, db`courseVideos, db`log
    ensures end == EmbeddingRun(req, f, w).end
    ensures calls == EmbeddingRun(req, f, w).calls
    ensures db.log == old(db.log) + EmbeddingRun(req, f, w).writes
    ensures db.videos == old(db.videos) + EmbeddingRun(req, f, w).videoRows
    ensures db.chunks == old(db.chunks) + EmbeddingRun(req, f, w).chunkRows
    ensures db.summaries == old(db.summaries) + EmbeddingRun(req, f, w).summaryRows
    ensures db.quizzes == old(db.quizzes) + EmbeddingRun(req, f, w).quizRows
    ensures db.courseVideos == old(db.courseVideos) + EmbeddingRun(req, f, w).linkRows
  {
    var row := VideoRowFor(w.newVideoId, req.youtubeId, f.items, f.channelThumbnail);
    var id := db.InsertVideo(row, w.videoInsert);
    if id.None? {
      return Threw(VideoNotAdded), [];
    }
    var videoId := id.value;
    end, calls := IngestAfterVideo(db, req, videoId, f.transcript, w);
    AppendAssoc(old(db.log), [VideoInsert(videoId)],
              ChunkWrites(videoId, StoredChunks(f.transcript), w.chunkOutcome) +
              TailWrites(req, videoId, EmbeddingDrafts(req, videoId, f.transcript, w)));
  }

  /** What `addVideoToDbUsingEmbedding` does once the video row is in: the
      chunks, the retrieval and generation, then the drafts and the link. */
  method IngestAfterVideo(db: Database, req: Request, videoId: string, transcript: string, w: IngestWorld)
    returns (end: IngestEnd, calls: seq<RpcCall>)
    modifies db`chunks, db`summaries, db`quizzes, db`courseVideos, db`log
    ensures var d := EmbeddingDrafts(req, videoId, transcript, w);
      end == EndOf(videoId, d) &&
      calls == Retrieve(GeneralQueries, videoId, transcript, w.queryOutcome).1 &&
      db.log == old(db.log) + (ChunkWrites(videoId, StoredChunks(transcript), w.chunkOutcome) + TailWrites(req, videoId, d)) &&
      db.chunks == old(db.chunks) + StoredRows(videoId, StoredChunks(transcript), w.chunkOutcome) &&
      db.summaries == old(db.summaries) + SummaryRowsOf(videoId, d, w) &&
      db.quizzes == old(db.quizzes) + QuizRowsOf(videoId, d, w) &&
      db.courseVideos == old(db.courseVideos) + LinkRowsOf(req, videoId, d, w)
  {
    StoreChunks(db, videoId, transcript, w.chunkOutcome);
    var d;
    d, calls := EmbeddingGenerate(req, videoId, transcript, w);
    end := FinishIngest(db, req, videoId, d, w);
    AppendAssoc(old(db.log), ChunkWrites(videoId, StoredChunks(transcript), w.chunkOutcome),
              TailWrites(req, videoId, d));
  }

  /** Retrieval with the five questions and the two generators on the
      rendered chunks. */
  method EmbeddingGenerate(req: Request, videoId: string, transcript: string, w: IngestWorld)
    returns (d: Drafts, calls: seq<RpcCall>)
    ensures d == EmbeddingDrafts(req, videoId, transcript, w)
    ensures calls == Retrieve(GeneralQueries, videoId, transcript, w.queryOutcome).1
  {
    var retrieval;
    retrieval, calls := GetRelevantChunks(GeneralQueries, videoId, transcript, w.queryOutcome);
    if retrieval.RetrievalThrows? {
      return DraftsThrew(RetrievalThrew), calls;
    }
    var text := FormatChunks(retrieval.chunks);
    var summary := GenerateSummary(text, req.detail, w.llm);
    var quiz := GenerateQuiz(text, req.difficulty, req.questionCount, w.quizApi);
    d := Decide(summary, quiz);
  }

  // ---------------------------------------------------------- properties

  /** A failed video insert ends either ingestion before anything else is
      written, generated or linked. */
  lemma VideoFailureStops(req: Request, f: Fetched, w: IngestWorld)
    requires w.videoInsert != Written
    ensures PlainRun(req, f, w) == NotAdded(w.newVideoId)
    ensures EmbeddingRun(req, f, w) == NotAdded(w.newVideoId)
    ensures NotAdded(w.newVideoId).writes == [VideoInsert(w.newVideoId)]
    ensures NotAdded(w.newVideoId).end == Threw(VideoNotAdded)
  {
  }

  /** The plain ingestion succeeds exactly when the video row went in and
      both generators produced, and then it answers the row's id. */
  lemma PlainAddedExactly(req: Request, f: Fetched, w: IngestWorld)
    ensures PlainRun(req, f, w).end.Added? <==>
      w.videoInsert == Written &&
      FinalSummary(f.transcript, req.detail, w.tokenCount, w.llm).result.Some? &&
      QuizResult(f.transcript, req.difficulty, req.questionCount, w.quizApi).QuizOk?
    ensures PlainRun(req, f, w).end.Added? ==> PlainRun(req, f, w).end.videoId == w.newVideoId
  {
    DecideMeaning(FinalSummary(f.transcript, req.detail, w.tokenCount, w.llm).result,
                  QuizResult(f.transcript, req.difficulty, req.questionCount, w.quizApi));
  }

  /** Whatever the inserts of the summary, the quiz and the course link come
      back with, the ingestion ends the same way and attempts the same
      writes: their failures are swallowed. */
  lemma InsertOutcomesIgnored(req: Request, f: Fetched, w: IngestWorld, s: WriteOutcome, q: WriteOutcome, l: WriteOutcome)
    ensures var w' := w.(summaryInsert := s, quizInsert := q, linkInsert := l);
      PlainRun(req, f, w').end == PlainRun(req, f, w).end &&
      PlainRun(req, f, w').writes == PlainRun(req, f, w).writes
    ensures var w' := w.(summaryInsert := s, quizInsert := q, linkInsert := l);
      EmbeddingRun(req, f, w').end == EmbeddingRun(req, f, w).end &&
      EmbeddingRun(req, f, w').writes == EmbeddingRun(req, f, w).writes
  {
    var w' := w.(summaryInsert := s, quizInsert := q, linkInsert := l);
    assert PlainDrafts(req, f.transcript, w') == PlainDrafts(req, f.transcript, w);
    assert EmbeddingDrafts(req, w.newVideoId, f.transcript, w') == EmbeddingDrafts(req, w.newVideoId, f.transcript, w);
  }

  /** Storing chunks issues only chunk inserts for the video. */
  lemma {:induction false} ChunkWritesAreChunkInserts(videoId: string, cs: seq<string>, outcome: nat -> ChunkOutcome)
    ensures forall x :: x in ChunkWrites(videoId, cs, outcome) ==> x.ChunkInsert? && x.videoId == videoId
    decreases |cs|
  {
    if |cs| > 0 {
      ChunkWritesAreChunkInserts(videoId, cs[..|cs| - 1], outcome);
    }
  }

  /** A successful plain ingestion writes the video row, the summary, the
      quiz and the course link, in that order; one that throws never links
      the video or stores a summary or quiz. */
  lemma PlainLinkLast(req: Request, f: Fetched, w: IngestWorld)
    ensures var run := PlainRun(req, f, w);
      run.end.Added? ==>
        run.writes == [VideoInsert(run.end.videoId), SummaryInsert(run.end.videoId), QuizInsert(run.end.videoId),
                       CourseVideoInsert(req.courseId, run.end.videoId, req.order)]
    ensures var run := PlainRun(req, f, w);
      run.end.Threw? ==> run.writes == [VideoInsert(w.newVideoId)]
  {
  }

  /** A successful embedding ingestion ends with the summary, the quiz and the
      course link, in that order, after the video row and the chunks; one
      that throws never links the video or stores a summary or quiz. */
  lemma EmbeddingLinkLast(req: Request, f: Fetched, w: IngestWorld)
    ensures var run := EmbeddingRun(req, f, w);
      run.end.Added? ==>
        (|run.writes| >= 4 &&
         run.writes[|run.writes| - 3..] == [SummaryInsert(run.end.videoId), QuizInsert(run.end.videoId),
                                            CourseVideoInsert(req.courseId, run.end.videoId, req.order)])
    ensures var run := EmbeddingRun(req, f, w);
      run.end.Threw? ==> forall x :: x in run.writes ==> !x.CourseVideoInsert? && !x.SummaryInsert? && !x.QuizInsert?
  {
    var id := w.newVideoId;
    if w.videoInsert == Written {
      ChunkWritesAreChunkInserts(id, StoredChunks(f.transcript), w.chunkOutcome);
      EmbeddingWritesShape(req, id, ChunkWrites(id, StoredChunks(f.transcript), w.chunkOutcome),
                           EmbeddingDrafts(req, id, f.transcript, w));
    }
  }

  /** The writes of an embedding ingestion past the video row, for any chunk
      inserts and any outcome of generation. */
  lemma EmbeddingWritesShape(req: Request, id: string, cw: seq<Write>, d: Drafts)
    requires forall x :: x in cw ==> x.ChunkInsert?
    ensures var writes := [VideoInsert(id)] + (cw + TailWrites(req, id, d));
      (d.Drafts? ==>
         |writes| >= 4 &&
         writes[|writes| - 3..] == [SummaryInsert(id), QuizInsert(id), CourseVideoInsert(req.courseId, id, req.order)]) &&
      (d.DraftsThrew? ==> forall x :: x in writes ==> !x.CourseVideoInsert? && !x.SummaryInsert? && !x.QuizInsert?)
  {
    var front := [VideoInsert(id)] + cw;
    var tail := TailWrites(req, id, d);
    assert [VideoInsert(id)] + (cw + tail) == front + tail;
    if d.Drafts? {
      assert (front + tail)[|front|..] == tail;
    } else {
      assert front + tail == front;
    }
  }

  /** Rows reach the summary, quiz and course-link tables only in a run that
      succeeds. */
  lemma RowsOnlyOnSuccess(req: Request, f: Fetched, w: IngestWorld)
    ensures var run := PlainRun(req, f, w);
      run.end.Threw? ==> run.summaryRows == [] && run.quizRows == [] && run.linkRows == []
    ensures var run := EmbeddingRun(req, f, w);
      run.end.Threw? ==> run.summaryRows == [] && run.quizRows == [] && run.linkRows == []
  {
  }

  /** When the video row went in and no embedding request throws, the
      embedding variant asks the similarity RPC the five general questions,
      in order, each for the transcript's number of chunks, for the new
      video; if one throws, the chunks stay stored and nothing else is
      written. */
  lemma GeneralQueriesAsked(req: Request, f: Fetched, w: IngestWorld)
    requires w.videoInsert == Written
    ensures (forall i :: 0 <= i < 5 ==> w.queryOutcome(i) != EmbeddingThrows) ==>
      EmbeddingRun(req, f, w).calls ==
        CallsFor(GeneralQueries, NumChunksToRetrieve(f.transcript), w.newVideoId)
    ensures (exists i :: 0 <= i < 5 && w.queryOutcome(i) == EmbeddingThrows) ==>
      EmbeddingRun(req, f, w).end == Threw(RetrievalThrew) &&
      EmbeddingRun(req, f, w).writes ==
        [VideoInsert(w.newVideoId)] + ChunkWrites(w.newVideoId, StoredChunks(f.transcript), w.chunkOutcome)
  {
    var os := OutcomesOf(GeneralQueries, w.queryOutcome);
    var k := FirstThrow(os);
    if forall i :: 0 <= i < 5 ==> w.queryOutcome(i) != EmbeddingThrows {
      assert k == 5;
      assert GeneralQueries[..k] == GeneralQueries;
    } else {
      assert k < 5;
      var cw := ChunkWrites(w.newVideoId, StoredChunks(f.transcript), w.chunkOutcome);
      assert cw + [] == cw;
    }
  }

  /** The embedding variant summarizes the retrieved chunks, not the
      transcript: a stored summary is the model's reply for the rendered
      chunks. */
  lemma EmbeddingSummarizesChunks(req: Request, f: Fetched, w: IngestWorld)
    requires EmbeddingRun(req, f, w).summaryRows != []
    ensures var r := Retrieve(GeneralQueries, w.newVideoId, f.transcript, w.queryOutcome).0;
      r.Retrieved? &&
      EmbeddingRun(req, f, w).summaryRows ==
        [SummaryRow(w.newVideoId, w.llm(FormatChunks(r.chunks), ClampLevel(req.detail)).value)]
  {
  }

  // ---------------------------------------------------------- course link

  /** As written, the `!res` guard after the course-link insert can never
      fire: the client answers an object even when the insert fails, so a
      failed link still reports success and the video is missing from the
      course. */
  lemma LinkFailureReportsSuccess(req: Request, f: Fetched, w: IngestWorld)
    requires w.videoInsert == Written && w.linkInsert == WriteError
    requires PlainDrafts(req, f.transcript, w).Drafts?
    ensures PlainRun(req, f, w).end == Added(w.newVideoId)
    ensures PlainRun(req, f, w).linkRows == []
  {
  }

  /** How the ingestion ends when the link insert's error is checked, as the
      guard intends: a failed link throws. */
  function CheckedEnd(videoId: string, d: Drafts, linkInsert: WriteOutcome): IngestEnd
  {
    if d.DraftsThrew? then Threw(d.reason)
    else if linkInsert != Written then Threw(LinkNotAdded)
    else Added(videoId)
  }

  /** With the check, success means the video is linked into the course at
      its position, and a generation failure ends the same way as before. */
  lemma CheckedEndMeansLinked(req: Request, videoId: string, d: Drafts, w: IngestWorld)
    ensures CheckedEnd(videoId, d, w.linkInsert).Added? <==> LinkRowsOf(req, videoId, d, w) != []
    ensures CheckedEnd(videoId, d, w.linkInsert).Added? ==>
      LinkRowsOf(req, videoId, d, w) == [CourseVideoRow(req.courseId, videoId, req.order)]
    ensures d.DraftsThrew? ==> CheckedEnd(videoId, d, w.linkInsert) == EndOf(videoId, d)
  {
  }
}
