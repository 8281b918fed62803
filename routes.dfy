/** The decision rules of the HTTP server: bearer-token extraction and the
    course-creation handler with its field checks, its credit gate and the
    separation of the per-video results.  Token verification, the user
    lookup and the YouTube fetches are inputs. */
module Routes {
  import opened JsText
  import opened JsValue
  import opened Store
  import opened Embeddings
  import opened GptHandlers
  import opened AddVideo

  // ------------------------------------------------------ authentication

  /** `authHeader?.startsWith("Bearer ") ? authHeader.split(" ")[1] : null`. */
  function ExtractToken(header: Option<string>): Option<string>
  {
    if header.Some? && |header.value| >= 7 && header.value[..7] == "Bearer " then
      var h := header.value;
      assert h == "Bearer" + [' '] + h[7..];
      SplitAtFirst("Bearer", h[7..], ' ');
      Some(Split(h, ' ')[1])
    else None
  }

  /** The token is the text after `"Bearer "` up to the next space (all of
      it when there is none), and there is no token without the prefix. */
  lemma TokenIsFirstWord(header: Option<string>)
    ensures ExtractToken(header).Some? <==>
      header.Some? && |header.value| >= 7 && header.value[..7] == "Bearer "
    ensures ExtractToken(header).Some? ==>
      ExtractToken(header).value == Split(header.value[7..], ' ')[0] &&
      ' ' !in ExtractToken(header).value
    ensures header.Some? && |header.value| >= 7 && header.value[..7] == "Bearer " && ' ' !in header.value[7..] ==>
      ExtractToken(header) == Some(header.value[7..])
  {
    if header.Some? && |header.value| >= 7 && header.value[..7] == "Bearer " {
      var h := header.value;
      assert h == "Bearer" + [' '] + h[7..];
      SplitAtFirst("Bearer", h[7..], ' ');
      if ' ' !in h[7..] {
        SplitNoSeparator(h[7..], ' ');
      }
    }
  }

  /** What `authenticateToken` decides. */
  datatype AuthOutcome = TokenRequired | InvalidToken | Authenticated(token: string)

  function AuthStatus(a: AuthOutcome): int
  {
    match a
    case TokenRequired => 401
    case InvalidToken => 403
    case Authenticated(_) => 200
  }

  /** `authenticateToken`, with the JWT check as a parameter: no token or an
      empty one is refused with 401 before any verification, a token that
      does not verify with 403. */
  function Authenticate(header: Option<string>, verifies: string -> bool): AuthOutcome
  {
    var token := ExtractToken(header);
    if token.None? || token.value == "" then TokenRequired
    else if !verifies(token.value) then InvalidToken
    else Authenticated(token.value)
  }

  /** A request passes exactly with a non-empty bearer token that verifies,
      and carries that token on; without one the verifier is never
      consulted. */
  lemma AuthenticateMeaning(header: Option<string>, verifies: string -> bool, other: string -> bool)
    ensures Authenticate(header, verifies).Authenticated? <==>
      ExtractToken(header).Some? && ExtractToken(header).value != "" && verifies(ExtractToken(header).value)
    ensures Authenticate(header, verifies).Authenticated? ==>
      Authenticate(header, verifies).token == ExtractToken(header).value
    ensures Authenticate(header, verifies) == TokenRequired ==> Authenticate(header, other) == TokenRequired
  {
  }

  /** `"Bearer  x"` (two spaces) carries the empty token and is refused. */
  lemma DoubleSpaceRefused(verifies: string -> bool)
    ensures ExtractToken(Some("Bearer  x")) == Some("")
    ensures Authenticate(Some("Bearer  x"), verifies) == TokenRequired
  {
    var h := "Bearer  x";
    assert |h| >= 7 && h[..7] == "Bearer " && h[7..] == " x";
    TokenIsFirstWord(Some(h));
    EmptyFirstWord("x");
  }

  /** Text that starts with a space has the empty string as first word. */
  lemma EmptyFirstWord(t: string)
    ensures Split([' '] + t, ' ')[0] == ""
  {
    assert [' '] + t == "" + [' '] + t;
    SplitAtFirst("", t, ' ');
  }

  // ----------------------------------------------------- course creation

  /** The JSON body of `/create_course_embed`, each field `None` when
      missing. */
  datatype CourseBody = CourseBody(
    title: Option<string>,
    description: Option<string>,
    youtubeIds: Option<seq<string>>,
    userId: Option<string>,
    difficulty: Option<real>,
    questionCount: Option<real>,
    summaryDetail: Option<real>,
    isPublic: Option<bool>)

  /** `!!s` for a string field. */
  predicate Given(s: Option<string>)
  {
    s.Some? && s.value != ""
  }

  /** `!!n` for a number field. */
  predicate NonZero(n: Option<real>)
  {
    n.Some? && n.value != 0.0
  }

  /** The `400 Missing required fields` condition; `is_public` is not among
      the fields checked. */
  predicate FieldsMissing(b: CourseBody)
  {
    || !Given(b.title)
    || !Given(b.description)
    || b.youtubeIds.None?
    || !Given(b.userId)
    || |b.youtubeIds.value| == 0
    || !NonZero(b.difficulty)
    || !NonZero(b.questionCount)
    || !NonZero(b.summaryDetail)
  }

  /** The generation settings passed to every ingestion. */
  datatype Settings = Settings(difficulty: real, questionCount: real, detail: real)

  /** What the outside world answers during one course creation. */
  datatype CourseWorld = CourseWorld(
    userQueryFails: bool,
    fetched: string -> Option<Fetched>,
    newCourseId: string,
    courseInsert: WriteOutcome,
    ingest: nat -> IngestWorld,
    creditsWrite: WriteOutcome)

  /** The handler's answers. */
  datatype CourseReply =
    | InvalidBody
    | TokenMissing
    | UserNotFound
    | NotEnoughCredits
    | MissingFields
    | FetchFailed(failedIds: seq<string>)
    | ServerError
    | CreatedWithFailures(courseId: string, failedToAdd: seq<string>)
    | Created(courseId: string)

  function CourseStatusCode(r: CourseReply): int
  {
    match r
    case InvalidBody => 400
    case TokenMissing => 401
    case UserNotFound => 401
    case NotEnoughCredits => 401
    case MissingFields => 400
    case FetchFailed(_) => 400
    case ServerError => 500
    case CreatedWithFailures(_, _) => 200
    case Created(_) => 201
  }

  /** `.from("users").select("*").eq("id", body.user_id).single()`; a
      missing `user_id` matches no row. */
  function UserOf(users: seq<UserRow>, userId: Option<string>, w: CourseWorld): Option<UserRow>
  {
    if w.userQueryFails || userId.None? then None
    else Single(users, (u: UserRow) => u.id == userId.value)
  }

  /** The ids whose data could not be fetched, in request order. */
  function FailedFetches(ids: seq<string>, fetched: string -> Option<Fetched>): (bad: seq<string>)
    ensures forall x :: x in bad <==> x in ids && fetched(x).None?
  {
    if |ids| == 0 then []
    else
      var front := FailedFetches(ids[..|ids| - 1], fetched);
      var x := ids[|ids| - 1];
      assert forall y :: y in ids <==> y in ids[..|ids| - 1] || y == x;
      if fetched(x).None? then front + [x] else front
  }

  /** How far the request gets before the course insert. */
  datatype Admission =
    | Refused(reply: CourseReply)
    | Admitted(user: UserRow, userId: string, ids: seq<string>, settings: Settings, row: CourseRow)

  /** The checks of `/create_course_embed`, in their order: the body, the
      token, the user (looked up with the body's `user_id` before the fields
      are validated), the credits, the fields, and the fetches. */
  function Admit(body: Option<CourseBody>, token: Option<string>, users: seq<UserRow>, w: CourseWorld): Admission
  {
    if body.None? then Refused(InvalidBody)
    else if token.None? || token.value == "" then Refused(TokenMissing)
    else
      var b := body.value;
      var user := UserOf(users, b.userId, w);
      if user.None? then Refused(UserNotFound)
      else if user.value.credits < 1 then Refused(NotEnoughCredits)
      else if FieldsMissing(b) then Refused(MissingFields)
      else
        var bad := FailedFetches(b.youtubeIds.value, w.fetched);
        if bad != [] then Refused(FetchFailed(bad))
        else
          Admitted(user.value, b.userId.value, b.youtubeIds.value,
                   Settings(b.difficulty.value, b.questionCount.value, b.summaryDetail.value),
                   CourseRow(w.newCourseId, b.title.value, b.description.value, b.userId.value,
                             b.difficulty.value, b.summaryDetail.value, b.isPublic))
  }

  /** The fetched data of a video ( `youtubeVideoData[youtube_id]` ). */
  function FetchedOf(f: Option<Fetched>): Fetched
  {
    if f.Some? then f.value else Fetched([], "", "")
  }

  /** The ingestion of the `i`-th video: linked at position `i`. */
  function RunAt(ids: seq<string>, courseId: string, s: Settings, w: CourseWorld, i: nat): IngestRun
    requires i < |ids|
  {
    EmbeddingRun(Request(ids[i], courseId, i, s.difficulty, s.questionCount, s.detail),
                 FetchedOf(w.fetched(ids[i])), w.ingest(i))
  }

  function Runs(ids: seq<string>, courseId: string, s: Settings, w: CourseWorld): (runs: seq<IngestRun>)
    ensures |runs| == |ids|
    ensures forall i :: 0 <= i < |ids| ==> runs[i] == RunAt(ids, courseId, s, w, i)
  {
    seq(|ids|, i requires 0 <= i < |ids| => RunAt(ids, courseId, s, w, i))
  }

  /** `{ youtube_id, status: "success" | "failed" }` of one task. */
  datatype TaskResult = TaskResult(youtubeId: string, succeeded: bool)

  /** The task results of the runs, in task order: each video's id, with
      whether its run ended with the video added. */
  function ResultsOf(ids: seq<string>, runs: seq<IngestRun>): (rs: seq<TaskResult>)
    requires |runs| == |ids|
    ensures |rs| == |ids|
    decreases |ids|
  {
    if |ids| == 0 then []
    else ResultsOf(ids[..|ids| - 1], runs[..|runs| - 1]) + [TaskResult(ids[|ids| - 1], runs[|runs| - 1].end.Added?)]
  }

  /** The result of one more task. */
  lemma ResultsOfStep(ids: seq<string>, runs: seq<IngestRun>, i: nat)
    requires |runs| == |ids| && i < |ids|
    ensures ResultsOf(ids[..i + 1], runs[..i + 1]) == ResultsOf(ids[..i], runs[..i]) + [TaskResult(ids[i], runs[i].end.Added?)]
  {
    assert ids[..i + 1][..i] == ids[..i];
    assert runs[..i + 1][..i] == runs[..i];
  }

  function Results(ids: seq<string>, courseId: string, s: Settings, w: CourseWorld): (rs: seq<TaskResult>)
    ensures |rs| == |ids|
  {
    ResultsOf(ids, Runs(ids, courseId, s, w))
  }

  /** The part of one ingestion run that lands in one table or in the log. */
  function WritesPart(r: IngestRun): seq<Write> { r.writes }
  function VideosPart(r: IngestRun): seq<VideoRow> { r.videoRows }
  function ChunksPart(r: IngestRun): seq<ChunkRow> { r.chunkRows }
  function SummariesPart(r: IngestRun): seq<SummaryRow> { r.summaryRows }
  function QuizzesPart(r: IngestRun): seq<QuizRow> { r.quizRows }
  function LinksPart(r: IngestRun): seq<CourseVideoRow> { r.linkRows }

  /** One part of the runs, in run order. */
  function Gather<T>(runs: seq<IngestRun>, part: IngestRun -> seq<T>): seq<T>
  {
    if |runs| == 0 then [] else Gather(runs[..|runs| - 1], part) + part(runs[|runs| - 1])
  }

  /** The ids of the succeeded and of the failed tasks, in task order. */
  function Succeeded(rs: seq<TaskResult>): seq<string>
  {
    if |rs| == 0 then []
    else Succeeded(rs[..|rs| - 1]) + (if rs[|rs| - 1].succeeded then [rs[|rs| - 1].youtubeId] else [])
  }

  function FailedTasks(rs: seq<TaskResult>): seq<string>
  {
    if |rs| == 0 then []
    else FailedTasks(rs[..|rs| - 1]) + (if rs[|rs| - 1].succeeded then [] else [rs[|rs| - 1].youtubeId])
  }

  function TaskIds(rs: seq<TaskResult>): multiset<string>
  {
    if |rs| == 0 then multiset{} else TaskIds(rs[..|rs| - 1]) + multiset{rs[|rs| - 1].youtubeId}
  }

  /** `results.forEach(...)`: every task lands in exactly one of the two
      lists. */
  lemma {:induction false} SeparatePartition(rs: seq<TaskResult>)
    ensures multiset(Succeeded(rs)) + multiset(FailedTasks(rs)) == TaskIds(rs)
  {
    if |rs| > 0 {
      SeparatePartition(rs[..|rs| - 1]);
    }
  }

  /** The failed list is empty exactly when every task succeeded, and it
      names only tasks that failed. */
  lemma {:induction false} FailedTasksMeaning(rs: seq<TaskResult>)
    ensures FailedTasks(rs) == [] <==> forall i :: 0 <= i < |rs| ==> rs[i].succeeded
    ensures forall x :: x in FailedTasks(rs) ==> exists i :: 0 <= i < |rs| && rs[i].youtubeId == x && !rs[i].succeeded
  {
    if |rs| > 0 {
      var front := rs[..|rs| - 1];
      FailedTasksMeaning(front);
      assert forall i :: 0 <= i < |front| ==> front[i] == rs[i];
      if !rs[|rs| - 1].succeeded {
        assert FailedTasks(rs) != [];
      }
    }
  }

  /** The `forEach` that separates the task results. */
  method Separate(rs: seq<TaskResult>) returns (success: seq<string>, failed: seq<string>)
    ensures success == Succeeded(rs)
    ensures failed == FailedTasks(rs)
  {
    success, failed := [], [];
    for i := 0 to |rs|
      invariant success == Succeeded(rs[..i])
      invariant failed == FailedTasks(rs[..i])
    {
      assert rs[..i + 1][..i] == rs[..i];
      if rs[i].succeeded {
        success := success + [rs[i].youtubeId];
      } else {
        failed := failed + [rs[i].youtubeId];
      }
    }
    assert rs[..|rs|] == rs;
  }

  /** The runs of the ingestions, once the course row went in. */
  function CourseRuns(a: Admission, w: CourseWorld): seq<IngestRun>
  {
    if a.Admitted? && w.courseInsert == Written then Runs(a.ids, a.row.courseId, a.settings, w) else []
  }

  /** The answer once every task has settled: 200 naming the failed videos,
      or 201 when none failed. */
  function Verdict(courseId: string, failed: seq<string>): (reply: CourseReply)
    ensures reply.Created? <==> failed == []
    ensures reply.CreatedWithFailures? <==> failed != []
  {
    if failed != [] then CreatedWithFailures(courseId, failed) else Created(courseId)
  }

  lemma VerdictStatus(courseId: string, failed: seq<string>)
    ensures CourseStatusCode(Verdict(courseId, failed)) == if failed == [] then 201 else 200
  {
  }

  /** The answer of `/create_course_embed`. */
  function CourseReplyOf(a: Admission, w: CourseWorld): CourseReply
  {
    if a.Refused? then a.reply
    else if w.courseInsert != Written then ServerError
    else Verdict(a.row.courseId, FailedTasks(Results(a.ids, a.row.courseId, a.settings, w)))
  }

  /** The credit update for an answer: one credit off the balance read at
      the start, only with 201. */
  function CreditsTaken(a: Admission, reply: CourseReply): seq<Write>
  {
    if a.Admitted? && reply.Created? then [CreditsUpdate(a.userId, a.user.credits - 1)] else []
  }

  /** The credit update: one credit off, only after every video was added. */
  function CreditWrites(a: Admission, w: CourseWorld): seq<Write>
  {
    CreditsTaken(a, CourseReplyOf(a, w))
  }

  /** Every write of the handler, in order. */
  function CourseWrites(a: Admission, w: CourseWorld): seq<Write>
  {
    if a.Refused? then []
    else [CourseInsert(a.row.courseId)] + (Gather(CourseRuns(a, w), WritesPart) + CreditWrites(a, w))
  }

  /** The users table after the credit update of an answer, when it went in. */
  function UsersTaken(users: seq<UserRow>, a: Admission, reply: CourseReply, outcome: WriteOutcome): seq<UserRow>
  {
    if a.Admitted? && reply.Created? && outcome == Written then WithCredits(users, a.userId, a.user.credits - 1)
    else users
  }

  function UsersAfter(users: seq<UserRow>, a: Admission, w: CourseWorld): seq<UserRow>
  {
    UsersTaken(users, a, CourseReplyOf(a, w), w.creditsWrite)
  }

  function CourseRowsOf(a: Admission, w: CourseWorld): seq<CourseRow>
  {
    if a.Admitted? && w.courseInsert == Written then [a.row] else []
  }

  /** The tables one ingestion adds rows to, and the log. */
  datatype Tables = Tables(log: seq<Write>, videos: seq<VideoRow>, chunks: seq<ChunkRow>,
                           summaries: seq<SummaryRow>, quizzes: seq<QuizRow>, links: seq<CourseVideoRow>)

  ghost function TablesOf(db: Database): Tables
    reads db
  {
    Tables(db.log, db.videos, db.chunks, db.summaries, db.quizzes, db.courseVideos)
  }

  /** The tables after one more run. */
  function WithRun(t: Tables, r: IngestRun): Tables
  {
    Tables(t.log + r.writes, t.videos + r.videoRows, t.chunks + r.chunkRows,
           t.summaries + r.summaryRows, t.quizzes + r.quizRows, t.links + r.linkRows)
  }

  /** The tables after the runs, one after the other. */
  function WithRuns(t: Tables, runs: seq<IngestRun>): Tables
  {
    if |runs| == 0 then t else WithRun(WithRuns(t, runs[..|runs| - 1]), runs[|runs| - 1])
  }

  /** One more run of a sequence of runs. */
  lemma WithRunsStep(t: Tables, runs: seq<IngestRun>, i: nat)
    requires i < |runs|
    ensures WithRuns(t, runs[..i + 1]) == WithRun(WithRuns(t, runs[..i]), runs[i])
  {
    assert runs[..i + 1][..i] == runs[..i];
  }

  /** After the runs every table holds its old rows and then each run's
      rows, run by run. */
  lemma {:induction false} WithRunsGathers(t: Tables, runs: seq<IngestRun>)
    ensures WithRuns(t, runs) ==
      Tables(t.log + Gather(runs, WritesPart), t.videos + Gather(runs, VideosPart),
             t.chunks + Gather(runs, ChunksPart), t.summaries + Gather(runs, SummariesPart),
             t.quizzes + Gather(runs, QuizzesPart), t.links + Gather(runs, LinksPart))
  {
    if |runs| > 0 {
      var front := runs[..|runs| - 1];
      var r := runs[|runs| - 1];
      WithRunsGathers(t, front);
      AppendAssoc(t.log, Gather(front, WritesPart), r.writes);
      AppendAssoc(t.videos, Gather(front, VideosPart), r.videoRows);
      AppendAssoc(t.chunks, Gather(front, ChunksPart), r.chunkRows);
      AppendAssoc(t.summaries, Gather(front, SummariesPart), r.summaryRows);
      AppendAssoc(t.quizzes, Gather(front, QuizzesPart), r.quizRows);
      AppendAssoc(t.links, Gather(front, LinksPart), r.linkRows);
    }
  }

  /** The ingestion loop: each video added with the embedding variant, at
      its position, and its result recorded. */
  method IngestAll(db: Database, ids: seq<string>, courseId: string, s: Settings, w: CourseWorld)
    returns (results: seq<TaskResult>)
    modifies db`videos, db`chunks, db`summaries, db`quizzes, db`courseVideos, db`log
    ensures results == Results(ids, courseId, s, w)
    ensures TablesOf(db) == WithRuns(old(TablesOf(db)), Runs(ids, courseId, s, w))
  {
    ghost var runs := Runs(ids, courseId, s, w);
    ghost var t0 := TablesOf(db);
    results := [];
    for i := 0 to |ids|
      invariant results == ResultsOf(ids[..i], runs[..i])
      invariant TablesOf(db) == WithRuns(t0, runs[..i])
    {
      var end := IngestOne(db, ids, courseId, s, w, i);
      results := results + [TaskResult(ids[i], end.Added?)];
      ResultsOfStep(ids, runs, i);
      WithRunsStep(t0, runs, i);
    }
    assert ids[..|ids|] == ids;
    assert runs[..|ids|] == runs;
  }

  /** One task of the loop, with the run it adds appended to every table. */
  method IngestOne(db: Database, ids: seq<string>, courseId: string, s: Settings, w: CourseWorld, i: nat)
    returns (end: IngestEnd)
    requires i < |ids|
    modifies db`videos, db`chunks, db`summaries, db`quizzes, db`courseVideos, db`log
    ensures end == RunAt(ids, courseId, s, w, i).end
    ensures TablesOf(db) == WithRun(old(TablesOf(db)), RunAt(ids, courseId, s, w, i))
  {
    var req := Request(ids[i], courseId, i, s.difficulty, s.questionCount, s.detail);
    var calls;
    end, calls := AddVideoToDbUsingEmbedding(db, req, FetchedOf(w.fetched(ids[i])), w.ingest(i));
  }

  /** `/create_course_embed`: the checks, the course insert, the
      ingestions, and the credit update when every video was added (an
      exception inside the handler is the 500). */
  method CreateCourseEmbed(db: Database, body: Option<CourseBody>, token: Option<string>, w: CourseWorld)
    returns (reply: CourseReply)
    modifies db`users, db`courses, db`videos, db`chunks, db`summaries, db`quizzes, db`courseVideos, db`log
    ensures reply == CourseReplyOf(Admit(body, token, old(db.users), w), w)
    ensures db.log == old(db.log) + CourseWrites(Admit(body, token, old(db.users), w), w)
    ensures db.users == UsersAfter(old(db.users), Admit(body, token, old(db.users), w), w)
    ensures db.courses == old(db.courses) + CourseRowsOf(Admit(body, token, old(db.users), w), w)
    ensures db.videos == old(db.videos) + Gather(CourseRuns(Admit(body, token, old(db.users), w), w), VideosPart)
    ensures db.chunks == old(db.chunks) + Gather(CourseRuns(Admit(body, token, old(db.users), w), w), ChunksPart)
    ensures db.summaries == old(db.summaries) + Gather(CourseRuns(Admit(body, token, old(db.users), w), w), SummariesPart)
    ensures db.quizzes == old(db.quizzes) + Gather(CourseRuns(Admit(body, token, old(db.users), w), w), QuizzesPart)
    ensures db.courseVideos == old(db.courseVideos) + Gather(CourseRuns(Admit(body, token, old(db.users), w), w), LinksPart)
  {
    var a := Admit(body, token, db.users, w);
    if a.Refused? {
      return a.reply;
    }
    reply := CreateAdmitted(db, a, w);
  }

  /** Past the checks: the course insert (its failure is the 500), then the
      ingestions and the credit update. */
  method CreateAdmitted(db: Database, a: Admission, w: CourseWorld) returns (reply: CourseReply)
    requires a.Admitted?
    modifies db`users, db`courses, db`videos, db`chunks, db`summaries, db`quizzes, db`courseVideos, db`log
    ensures reply == CourseReplyOf(a, w)
    ensures db.log == old(db.log) + CourseWrites(a, w)
    ensures db.users == UsersAfter(old(db.users), a, w)
    ensures db.courses == old(db.courses) + CourseRowsOf(a, w)
    ensures db.videos == old(db.videos) + Gather(CourseRuns(a, w), VideosPart)
    ensures db.chunks == old(db.chunks) + Gather(CourseRuns(a, w), ChunksPart)
    ensures db.summaries == old(db.summaries) + Gather(CourseRuns(a, w), SummariesPart)
    ensures db.quizzes == old(db.quizzes) + Gather(CourseRuns(a, w), QuizzesPart)
    ensures db.courseVideos == old(db.courseVideos) + Gather(CourseRuns(a, w), LinksPart)
  {
    var id := db.InsertCourse(a.row, w.courseInsert);
    if id.None? {
      return ServerError;
    }
    reply := IngestAndSettle(db, a, w);
    AppendAssoc(old(db.log), [CourseInsert(a.row.courseId)], Gather(CourseRuns(a, w), WritesPart) + CreditWrites(a, w));
  }

  /** After the course row went in: every ingestion, the separation of the
      results, and the answer with its credit update. */
  method IngestAndSettle(db: Database, a: Admission, w: CourseWorld) returns (reply: CourseReply)
    requires a.Admitted? && w.courseInsert == Written
    modifies db`users, db`videos, db`chunks, db`summaries, db`quizzes, db`courseVideos, db`log
    ensures reply == CourseReplyOf(a, w)
    ensures db.log == old(db.log) + (Gather(CourseRuns(a, w), WritesPart) + CreditWrites(a, w))
    ensures db.users == UsersAfter(old(db.users), a, w)
    ensures db.videos == old(db.videos) + Gather(CourseRuns(a, w), VideosPart)
    ensures db.chunks == old(db.chunks) + Gather(CourseRuns(a, w), ChunksPart)
    ensures db.summaries == old(db.summaries) + Gather(CourseRuns(a, w), SummariesPart)
    ensures db.quizzes == old(db.quizzes) + Gather(CourseRuns(a, w), QuizzesPart)
    ensures db.courseVideos == old(db.courseVideos) + Gather(CourseRuns(a, w), LinksPart)
  {
    var courseId := a.row.courseId;
    ghost var runs := Runs(a.ids, courseId, a.settings, w);
    var results := IngestAll(db, a.ids, courseId, a.settings, w);
    WithRunsGathers(old(TablesOf(db)), runs);
    reply := Settle(db, a, results, w.creditsWrite);
    AppendAssoc(old(db.log), Gather(runs, WritesPart), CreditWrites(a, w));
  }

  /** The separation of the results and the answer, with one credit taken
      off the balance read at the start when no video failed. */
  method Settle(db: Database, a: Admission, results: seq<TaskResult>, creditsWrite: WriteOutcome)
    returns (reply: CourseReply)
    requires a.Admitted?
    modifies db`users, db`log
    ensures reply == Verdict(a.row.courseId, FailedTasks(results))
    ensures db.log == old(db.log) + CreditsTaken(a, reply)
    ensures db.users == UsersTaken(old(db.users), a, reply, creditsWrite)
  {
    var success, failed := Separate(results);
    if |failed| > 0 {
      return CreatedWithFailures(a.row.courseId, failed);
    }
    db.SetCredits(a.userId, a.user.credits - 1, creditsWrite);
    reply := Created(a.row.courseId);
  }

  // --------------------------------------------- course creation: properties

  /** A refused request writes nothing: no course, no video, no credit. */
  lemma RefusedWritesNothing(body: Option<CourseBody>, token: Option<string>, users: seq<UserRow>, w: CourseWorld)
    requires Admit(body, token, users, w).Refused?
    ensures CourseWrites(Admit(body, token, users, w), w) == []
    ensures CourseRuns(Admit(body, token, users, w), w) == []
    ensures CourseRowsOf(Admit(body, token, users, w), w) == []
    ensures UsersAfter(users, Admit(body, token, users, w), w) == users
  {
  }

  /** The user is looked up before the fields are validated: without a
      `user_id`, or with a user short of credits, the answer is 401 however
      many fields are missing. */
  lemma UserCheckedBeforeFields(b: CourseBody, token: string, users: seq<UserRow>, w: CourseWorld)
    requires token != ""
    ensures b.userId.None? ==> Admit(Some(b), Some(token), users, w) == Refused(UserNotFound)
    ensures var u := UserOf(users, b.userId, w);
      u.Some? && u.value.credits < 1 ==> Admit(Some(b), Some(token), users, w) == Refused(NotEnoughCredits)
    ensures CourseStatusCode(UserNotFound) == 401 && CourseStatusCode(NotEnoughCredits) == 401
  {
  }

  /** Past the user checks, the request is refused with 400 exactly when one
      of the seven fields is falsy or the id list is empty; `is_public`
      plays no part in the answer. */
  lemma FieldsRule(b: CourseBody, token: string, users: seq<UserRow>, w: CourseWorld, isPublic: Option<bool>)
    requires token != ""
    requires var u := UserOf(users, b.userId, w); u.Some? && u.value.credits >= 1
    ensures Admit(Some(b), Some(token), users, w) == Refused(MissingFields) <==> FieldsMissing(b)
    ensures FieldsMissing(b) <==>
      !Given(b.title) || !Given(b.description) || !Given(b.userId) ||
      b.youtubeIds.None? || b.youtubeIds.value == [] ||
      !NonZero(b.difficulty) || !NonZero(b.questionCount) || !NonZero(b.summaryDetail)
    ensures CourseReplyOf(Admit(Some(b.(isPublic := isPublic)), Some(token), users, w), w) ==
            CourseReplyOf(Admit(Some(b), Some(token), users, w), w)
  {
    var a := Admit(Some(b), Some(token), users, w);
    var a' := Admit(Some(b.(isPublic := isPublic)), Some(token), users, w);
    if a.Admitted? {
      assert a'.ids == a.ids && a'.settings == a.settings && a'.row.courseId == a.row.courseId;
      assert Results(a'.ids, a'.row.courseId, a'.settings, w) == Results(a.ids, a.row.courseId, a.settings, w);
    }
  }

  /** A failed fetch refuses the request with the ids that failed, before
      any course is created. */
  lemma FetchFailureRefuses(b: CourseBody, token: string, users: seq<UserRow>, w: CourseWorld)
    requires token != "" && !FieldsMissing(b)
    requires var u := UserOf(users, b.userId, w); u.Some? && u.value.credits >= 1
    requires exists i :: 0 <= i < |b.youtubeIds.value| && w.fetched(b.youtubeIds.value[i]).None?
    ensures Admit(Some(b), Some(token), users, w) == Refused(FetchFailed(FailedFetches(b.youtubeIds.value, w.fetched)))
    ensures forall x :: x in FailedFetches(b.youtubeIds.value, w.fetched) <==>
      x in b.youtubeIds.value && w.fetched(x).None?
  {
    var i :| 0 <= i < |b.youtubeIds.value| && w.fetched(b.youtubeIds.value[i]).None?;
    assert b.youtubeIds.value[i] in FailedFetches(b.youtubeIds.value, w.fetched);
  }

  /** Each task result records whether its run ended with the video added. */
  lemma {:induction false} ResultsOfRecordRuns(ids: seq<string>, runs: seq<IngestRun>)
    requires |runs| == |ids|
    ensures forall i :: 0 <= i < |ids| ==>
      ResultsOf(ids, runs)[i].youtubeId == ids[i] && (ResultsOf(ids, runs)[i].succeeded <==> runs[i].end.Added?)
    decreases |ids|
  {
    if |ids| > 0 {
      ResultsOfRecordRuns(ids[..|ids| - 1], runs[..|runs| - 1]);
    }
  }

  lemma ResultsRecordRuns(ids: seq<string>, courseId: string, s: Settings, w: CourseWorld)
    ensures forall i :: 0 <= i < |ids| ==>
      Results(ids, courseId, s, w)[i].youtubeId == ids[i] &&
      (Results(ids, courseId, s, w)[i].succeeded <==> RunAt(ids, courseId, s, w, i).end.Added?)
  {
    ResultsOfRecordRuns(ids, Runs(ids, courseId, s, w));
  }

  /** Credits are taken exactly when every task succeeded (each task's
      result records whether its video was added, `ResultsRecordRuns`): then
      one credit off the balance read at the start, as the last write, with
      201; otherwise 200 naming exactly the videos that failed, and no credit
      write. */
  lemma CreditRule(a: Admission, w: CourseWorld)
    requires a.Admitted? && w.courseInsert == Written
    ensures var rs := Results(a.ids, a.row.courseId, a.settings, w);
      CourseReplyOf(a, w).Created? <==> forall i :: 0 <= i < |rs| ==> rs[i].succeeded
    ensures CourseReplyOf(a, w).Created? ==>
      CreditWrites(a, w) == [CreditsUpdate(a.userId, a.user.credits - 1)] &&
      CourseStatusCode(CourseReplyOf(a, w)) == 201
    ensures var rs := Results(a.ids, a.row.courseId, a.settings, w);
      CourseReplyOf(a, w).CreatedWithFailures? ==>
      CreditWrites(a, w) == [] && CourseStatusCode(CourseReplyOf(a, w)) == 200 &&
      CourseReplyOf(a, w).failedToAdd != [] &&
      forall x :: x in CourseReplyOf(a, w).failedToAdd ==>
        exists i :: 0 <= i < |rs| && rs[i].youtubeId == x && !rs[i].succeeded
  {
    var rs := Results(a.ids, a.row.courseId, a.settings, w);
    assert CourseReplyOf(a, w) == Verdict(a.row.courseId, FailedTasks(rs));
    VerdictRule(a, rs);
  }

  /** The answer and the credit update for any task results. */
  lemma VerdictRule(a: Admission, rs: seq<TaskResult>)
    requires a.Admitted?
    ensures var reply := Verdict(a.row.courseId, FailedTasks(rs));
      reply.Created? <==> forall i :: 0 <= i < |rs| ==> rs[i].succeeded
    ensures var reply := Verdict(a.row.courseId, FailedTasks(rs));
      reply.Created? ==>
      CreditsTaken(a, reply) == [CreditsUpdate(a.userId, a.user.credits - 1)] && CourseStatusCode(reply) == 201
    ensures var reply := Verdict(a.row.courseId, FailedTasks(rs));
      reply.CreatedWithFailures? ==>
      CreditsTaken(a, reply) == [] && CourseStatusCode(reply) == 200 && reply.failedToAdd != [] &&
      forall x :: x in reply.failedToAdd ==> exists i :: 0 <= i < |rs| && rs[i].youtubeId == x && !rs[i].succeeded
  {
    FailedTasksMeaning(rs);
    VerdictStatus(a.row.courseId, FailedTasks(rs));
  }
}
