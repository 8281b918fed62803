/** The rows of the hosted database that the core reads and writes, and the
    single-row inserts and updates it issues.  Every write may fail; the
    outcome is a parameter.  A ghost log records every write that was
    attempted, in order, so that the ordering of an ingestion or of a job
    run can be stated. */
module Store {
  import opened JsValue

  /** What an insert or update came back with: success or an `{ error }`
      result.  The client answers a failed write with an error value rather
      than by rejecting, so there is no third outcome. */
  datatype WriteOutcome = Written | WriteError

  /** A `course_jobs` row. */
  datatype JobRow = JobRow(id: string, courseId: string, videoId: string, status: string)

  /** A `videos` row as written by the ingestion code. */
  datatype VideoRow = VideoRow(
    videoId: string,
    youtubeId: string,
    title: Option<string>,
    channelTitle: string,
    description: Option<string>,
    duration: Option<string>,
    publishedAt: Option<string>,
    thumbnailUrl: Option<string>,
    tags: Json,
    channelThumbnail: string,
    viewCount: string,
    transcript: Option<string>)

  /** A `transcript_chunks` row (its embedding vector is not modelled). */
  datatype ChunkRow = ChunkRow(videoId: string, chunkIndex: nat, content: string)

  /** A `summaries` row. */
  datatype SummaryRow = SummaryRow(videoId: string, summaryText: string)

  /** A `quizzes` row. */
  datatype QuizRow = QuizRow(videoId: string, quiz: seq<Json>)

  /** A `course_videos` row linking a video into a course at a position. */
  datatype CourseVideoRow = CourseVideoRow(courseId: string, videoId: string, order: nat)

  /** A `courses` row as `addCourse` writes it. */
  datatype CourseRow = CourseRow(courseId: string, title: string, description: string, authorId: string,
                                 difficulty: real, detailLevel: real, isPublic: Option<bool>)

  /** A `users` row. */
  datatype UserRow = UserRow(id: string, credits: int, paid: bool, stripeCustomerId: Option<string>)

  /** One attempted write. */
  datatype Write =
    | JobStatusWrite(jobId: string, status: string)
    | VideoInsert(videoId: string)
    | ChunkInsert(videoId: string, chunkIndex: nat)
    | SummaryInsert(videoId: string)
    | QuizInsert(videoId: string)
    | CourseVideoInsert(courseId: string, videoId: string, order: nat)
    | CourseInsert(courseId: string)
    | CreditsUpdate(userId: string, credits: int)
    | PaidCreditsUpdate(stripeCustomerId: string, credits: int)

  /** `"success"` when the insert went through, `"failed"` on an error
      result: the mapping of `adminSummary`/`adminQuiz` (and of
      `addSummary`/`addQuiz`, which behave the same). */
  function InsertStatus(outcome: WriteOutcome): (r: string)
    ensures r == "success" <==> outcome == Written
    ensures r == "success" || r == "failed"
  {
    if outcome == Written then "success" else "failed"
  }

  class Database {
    var jobs: map<string, JobRow>
    var videos: seq<VideoRow>
    var chunks: seq<ChunkRow>
    var summaries: seq<SummaryRow>
    var quizzes: seq<QuizRow>
    var courseVideos: seq<CourseVideoRow>
    var courses: seq<CourseRow>
    var users: seq<UserRow>
    ghost var log: seq<Write>

    constructor (jobs0: map<string, JobRow>, videos0: seq<VideoRow>, users0: seq<UserRow>)
      ensures jobs == jobs0 && videos == videos0 && users == users0
      ensures chunks == [] && summaries == [] && quizzes == [] && courseVideos == [] && courses == [] && log == []
    {
      jobs, videos, users := jobs0, videos0, users0;
      chunks, summaries, quizzes, courseVideos, courses := [], [], [], [], [];
      log := [];
    }

    /** `update({ status }).eq("id", jobId)`: the row's status changes when
        the update goes through and the row exists. */
    method UpdateJobStatus(jobId: string, status: string, outcome: WriteOutcome)
      modifies this`jobs, this`log
      ensures log == old(log) + [JobStatusWrite(jobId, status)]
      ensures jobs == WithStatus(old(jobs), jobId, status, outcome)
    {
      log := log + [JobStatusWrite(jobId, status)];
      if outcome == Written && jobId in jobs {
        jobs := jobs[jobId := jobs[jobId].(status := status)];
      }
    }

    /** `addVideo`: inserts the row and answers its id, or null on failure. */
    method InsertVideo(row: VideoRow, outcome: WriteOutcome) returns (id: Option<string>)
      modifies this`videos, this`log
      ensures log == old(log) + [VideoInsert(row.videoId)]
      ensures id.Some? <==> outcome == Written
      ensures id.Some? ==> id.value == row.videoId
      ensures videos == if outcome == Written then old(videos) + [row] else old(videos)
    {
      log := log + [VideoInsert(row.videoId)];
      if outcome == Written {
        videos := videos + [row];
        id := Some(row.videoId);
      } else {
        id := None;
      }
    }

    /** One `transcript_chunks` insert; its error is only logged. */
    method InsertChunk(row: ChunkRow, outcome: WriteOutcome)
      modifies this`chunks, this`log
      ensures log == old(log) + [ChunkInsert(row.videoId, row.chunkIndex)]
      ensures chunks == if outcome == Written then old(chunks) + [row] else old(chunks)
    {
      log := log + [ChunkInsert(row.videoId, row.chunkIndex)];
      if outcome == Written {
        chunks := chunks + [row];
      }
    }

    /** `adminSummary` / `addSummary`. */
    method InsertSummary(videoId: string, text: string, outcome: WriteOutcome) returns (status: string)
      modifies this`summaries, this`log
      ensures log == old(log) + [SummaryInsert(videoId)]
      ensures status == InsertStatus(outcome)
      ensures summaries == if outcome == Written then old(summaries) + [SummaryRow(videoId, text)] else old(summaries)
    {
      log := log + [SummaryInsert(videoId)];
      if outcome == Written {
        summaries := summaries + [SummaryRow(videoId, text)];
      }
      status := InsertStatus(outcome);
    }

    /** `adminQuiz` / `addQuiz`. */
    method InsertQuiz(videoId: string, quiz: seq<Json>, outcome: WriteOutcome) returns (status: string)
      modifies this`quizzes, this`log
      ensures log == old(log) + [QuizInsert(videoId)]
      ensures status == InsertStatus(outcome)
      ensures quizzes == if outcome == Written then old(quizzes) + [QuizRow(videoId, quiz)] else old(quizzes)
    {
      log := log + [QuizInsert(videoId)];
      if outcome == Written {
        quizzes := quizzes + [QuizRow(videoId, quiz)];
      }
      status := InsertStatus(outcome);
    }

    /** The `course_videos` insert; the client always answers an object, so
        nothing about its outcome reaches the caller. */
    method InsertCourseVideo(row: CourseVideoRow, outcome: WriteOutcome)
      modifies this`courseVideos, this`log
      ensures log == old(log) + [CourseVideoInsert(row.courseId, row.videoId, row.order)]
      ensures courseVideos == if outcome == Written then old(courseVideos) + [row] else old(courseVideos)
    {
      log := log + [CourseVideoInsert(row.courseId, row.videoId, row.order)];
      if outcome == Written {
        courseVideos := courseVideos + [row];
      }
    }

    /** `addCourse`: inserts the row under its fresh id and answers the id,
        or no id (`status: "error"`) when the insert fails or throws. */
    method InsertCourse(row: CourseRow, outcome: WriteOutcome) returns (id: Option<string>)
      modifies this`courses, this`log
      ensures log == old(log) + [CourseInsert(row.courseId)]
      ensures id.Some? <==> outcome == Written
      ensures id.Some? ==> id.value == row.courseId
      ensures courses == if outcome == Written then old(courses) + [row] else old(courses)
    {
      log := log + [CourseInsert(row.courseId)];
      if outcome == Written {
        courses := courses + [row];
        id := Some(row.courseId);
      } else {
        id := None;
      }
    }

    /** `update({ credits }).eq("id", userId)`. */
    method SetCredits(userId: string, credits: int, outcome: WriteOutcome)
      modifies this`users, this`log
      ensures log == old(log) + [CreditsUpdate(userId, credits)]
      ensures users == if outcome == Written then WithCredits(old(users), userId, credits) else old(users)
    {
      log := log + [CreditsUpdate(userId, credits)];
      if outcome == Written {
        users := WithCredits(users, userId, credits);
      }
    }

    /** `update({ credits, paid: true }).eq("stripe_customer_id", customerId)`. */
    method SetPaidCredits(customerId: string, credits: int, outcome: WriteOutcome)
      modifies this`users, this`log
      ensures log == old(log) + [PaidCreditsUpdate(customerId, credits)]
      ensures users == if outcome == Written then WithPaidCredits(old(users), customerId, credits) else old(users)
    {
      log := log + [PaidCreditsUpdate(customerId, credits)];
      if outcome == Written {
        users := WithPaidCredits(users, customerId, credits);
      }
    }
  }

  /** The job table after a status update with this outcome: only the row
      `jobId`, and only its status, changes, and only when the update goes
      through. */
  function WithStatus(jobs: map<string, JobRow>, jobId: string, status: string, outcome: WriteOutcome): (r: map<string, JobRow>)
    ensures r.Keys == jobs.Keys
    ensures forall k :: k in jobs && k != jobId ==> r[k] == jobs[k]
    ensures jobId in jobs ==> r[jobId] == if outcome == Written then jobs[jobId].(status := status) else jobs[jobId]
  {
    if outcome == Written && jobId in jobs then jobs[jobId := jobs[jobId].(status := status)] else jobs
  }

  /** Every row whose `id` is `userId` gets `credits`; the others are untouched. */
  function WithCredits(users: seq<UserRow>, userId: string, credits: int): (r: seq<UserRow>)
    ensures |r| == |users|
    ensures forall i :: 0 <= i < |r| ==>
      r[i] == if users[i].id == userId then users[i].(credits := credits) else users[i]
  {
    seq(|users|, i requires 0 <= i < |users| =>
      if users[i].id == userId then users[i].(credits := credits) else users[i])
  }

  /** Every row whose `stripe_customer_id` is `customerId` gets `credits` and
      `paid = true`; the others are untouched. */
  function WithPaidCredits(users: seq<UserRow>, customerId: string, credits: int): (r: seq<UserRow>)
    ensures |r| == |users|
    ensures forall i :: 0 <= i < |r| ==>
      r[i] == if users[i].stripeCustomerId == Some(customerId)
              then users[i].(credits := credits, paid := true) else users[i]
  {
    seq(|users|, i requires 0 <= i < |users| =>
      if users[i].stripeCustomerId == Some(customerId)
      then users[i].(credits := credits, paid := true) else users[i])
  }

  /** Rows or writes appended in two steps are the two runs, in order. */
  lemma AppendAssoc<T>(log: seq<T>, a: seq<T>, b: seq<T>)
    ensures log + a + b == log + (a + b)
  {
  }

  /** `.select(...).eq(...).single()`: the one row matching, or no data when
      zero or several rows match. */
  function Single<T>(rows: seq<T>, matches: T -> bool): (r: Option<T>)
    ensures r.Some? ==> r.value in rows && matches(r.value)
  {
    var hits := Matching(rows, matches);
    if |hits| == 1 then Some(rows[hits[0]]) else None
  }

  /** `.single()` finds a row exactly when one row matches: when it answers
      a row, no two rows match; when it answers nothing, every matching row
      has a second one beside it. */
  lemma SingleMeaning<T>(rows: seq<T>, matches: T -> bool)
    ensures Single(rows, matches).Some? ==>
      forall i, j :: 0 <= i < j < |rows| ==> !(matches(rows[i]) && matches(rows[j]))
    ensures Single(rows, matches).None? ==>
      forall i :: 0 <= i < |rows| && matches(rows[i]) ==>
        exists j :: 0 <= j < |rows| && j != i && matches(rows[j])
  {
    if |Matching(rows, matches)| == 1 {
      MatchingUnique(rows, matches);
    } else {
      MatchingNotSingle(rows, matches);
    }
  }

  /** The indices of the rows that match, ascending. */
  function Matching<T>(rows: seq<T>, matches: T -> bool): (idx: seq<nat>)
    ensures forall k :: 0 <= k < |idx| ==> idx[k] < |rows| && matches(rows[idx[k]])
    ensures forall k, l :: 0 <= k < l < |idx| ==> idx[k] < idx[l]
    decreases |rows|
  {
    if |rows| == 0 then []
    else
      var front := Matching(rows[..|rows| - 1], matches);
      if matches(rows[|rows| - 1]) then front + [|rows| - 1] else front
  }

  lemma {:induction false} MatchingComplete<T>(rows: seq<T>, matches: T -> bool)
    ensures forall i :: 0 <= i < |rows| && matches(rows[i]) ==> i in Matching(rows, matches)
    decreases |rows|
  {
    if |rows| > 0 {
      MatchingComplete(rows[..|rows| - 1], matches);
      forall i | 0 <= i < |rows| - 1 && matches(rows[i])
        ensures i in Matching(rows[..|rows| - 1], matches)
      {
        assert rows[..|rows| - 1][i] == rows[i];
      }
    }
  }

  lemma MatchingUnique<T>(rows: seq<T>, matches: T -> bool)
    requires |Matching(rows, matches)| == 1
    ensures forall i, j :: 0 <= i < j < |rows| ==> !(matches(rows[i]) && matches(rows[j]))
  {
    MatchingComplete(rows, matches);
  }

  lemma MatchingNotSingle<T>(rows: seq<T>, matches: T -> bool)
    requires |Matching(rows, matches)| != 1
    ensures forall i :: 0 <= i < |rows| && matches(rows[i]) ==>
      exists j :: 0 <= j < |rows| && j != i && matches(rows[j])
  {
    MatchingComplete(rows, matches);
    var idx := Matching(rows, matches);
    forall i | 0 <= i < |rows| && matches(rows[i])
      ensures exists j :: 0 <= j < |rows| && j != i && matches(rows[j])
    {
      assert i in idx;
      var j := if idx[0] == i then idx[1] else idx[0];
      assert j != i && matches(rows[j]);
    }
  }

  /** Rows that match exactly where other rows match give the same hits. */
  lemma {:induction false} MatchingSameHits<T>(a: seq<T>, b: seq<T>, matches: T -> bool)
    requires |a| == |b|
    requires forall i :: 0 <= i < |a| ==> matches(a[i]) == matches(b[i])
    ensures Matching(a, matches) == Matching(b, matches)
    decreases |a|
  {
    if |a| > 0 {
      var a', b' := a[..|a| - 1], b[..|b| - 1];
      assert forall i :: 0 <= i < |a'| ==> a'[i] == a[i] && b'[i] == b[i];
      MatchingSameHits(a', b', matches);
    }
  }
}
