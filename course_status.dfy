/** `courseStatusHandler`: the status of a course's generation, decided from
    the latest job of the course, the course's video links and the summary
    rows of those videos.  Query errors are only logged, so an erroring
    query is the same as one without data (`None`). */
module CourseStatus {
  import opened JsValue

  /** The HTTP status code and the `status` field of the JSON body (`None`
      for the 400 error body). */
  datatype Reply = Reply(code: int, status: Option<string>)

  /** `video_id` of the `course_videos` rows, without the nulls. */
  function NonNullIds(links: seq<Option<string>>): (ids: seq<string>)
    ensures |ids| <= |links|
    ensures forall id :: id in ids <==> Some(id) in links
  {
    if |links| == 0 then []
    else (if links[0].Some? then [links[0].value] else []) + NonNullIds(links[1..])
  }

  /** `.from("summaries").select("video_id").in("video_id", ids)` over the
      `video_id` column of the summaries table: the rows whose video is
      among `ids`, or no data when the query fails. */
  function SummariesOf(table: Option<seq<Option<string>>>, ids: seq<string>): (rows: Option<seq<string>>)
    ensures rows.Some? <==> table.Some?
    ensures rows.Some? ==> forall v :: v in rows.value <==> v in ids && Some(v) in table.value
  {
    if table.None? then None else Some(RowsIn(table.value, ids))
  }

  function RowsIn(table: seq<Option<string>>, ids: seq<string>): (rows: seq<string>)
    ensures forall v :: v in rows <==> v in ids && Some(v) in table
    ensures |rows| <= |table|
  {
    if |table| == 0 then []
    else (if table[0].Some? && table[0].value in ids then [table[0].value] else []) + RowsIn(table[1..], ids)
  }

  /** The summaries query answered, with as many rows for the linked
      videos as there are non-null linked video ids. */
  predicate CountsMatch(links: seq<Option<string>>, summaries: Option<seq<Option<string>>>)
  {
    summaries.Some? && |RowsIn(summaries.value, NonNullIds(links))| == |NonNullIds(links)|
  }

  /** `courseStatusHandler` for the `courseId` query parameter, the latest
      job's status, the course's links and the summaries table, as the code
      is written: "completed" when there are as many summary rows as non-null
      video ids. */
  function CourseStatus(courseId: Option<string>, latestJob: Option<string>,
                        courseVideos: Option<seq<Option<string>>>,
                        summaries: Option<seq<Option<string>>>): (r: Reply)
    ensures courseId.None? || courseId == Some("") <==> r == Reply(400, None)
    ensures r.code == 200 <==> courseId.Some? && courseId != Some("")
    ensures r.code == 200 ==> r.status.Some?
    ensures r.code == 200 && latestJob.Some? && latestJob.value != "completed" ==>
      r.status == latestJob
    ensures (r.code == 200 && (latestJob.None? || latestJob == Some("completed")) &&
             (courseVideos.None? || |courseVideos.value| == 0)) ==>
      r.status == Some("failed")
    ensures (r.code == 200 && (latestJob.None? || latestJob == Some("completed")) &&
             courseVideos.Some? && |courseVideos.value| > 0) ==>
        (r.status == Some("completed") <==> CountsMatch(courseVideos.value, summaries)) &&
        (r.status == Some("processing") <==> !CountsMatch(courseVideos.value, summaries))
  {
    if courseId.None? || courseId.value == "" then Reply(400, None)
    else if latestJob.Some? && latestJob.value != "completed" then Reply(200, latestJob)
    else if courseVideos.None? || |courseVideos.value| == 0 then Reply(200, Some("failed"))
    else
      var ids := NonNullIds(courseVideos.value);
      var rows := SummariesOf(summaries, ids);
      if rows.Some? && |rows.value| == |ids| then Reply(200, Some("completed"))
      else Reply(200, Some("processing"))
  }

  /** A course without links is "failed", even when its latest job says
      "completed". */
  lemma NoLinksFailed(courseId: string, summaries: Option<seq<Option<string>>>)
    requires courseId != ""
    ensures CourseStatus(Some(courseId), Some("completed"), Some([]), summaries) == Reply(200, Some("failed"))
    ensures CourseStatus(Some(courseId), None, None, summaries) == Reply(200, Some("failed"))
  {
  }

  /** Null video ids are dropped before counting: adding a null link to a
      non-empty list of links changes nothing. */
  lemma {:induction false} NullLinksIgnored(links: seq<Option<string>>)
    ensures NonNullIds(links + [None]) == NonNullIds(links)
  {
    if |links| > 0 {
      assert (links + [None])[1..] == links[1..] + [None];
      NullLinksIgnored(links[1..]);
    } else {
      assert NonNullIds([None]) == [] + NonNullIds([None][1..]);
    }
  }

  lemma NullLinkIgnoredInStatus(courseId: Option<string>, latestJob: Option<string>,
                                links: seq<Option<string>>, summaries: Option<seq<Option<string>>>)
    requires |links| > 0
    ensures CourseStatus(courseId, latestJob, Some(links + [None]), summaries) ==
            CourseStatus(courseId, latestJob, Some(links), summaries)
  {
    NullLinksIgnored(links);
  }

  /** A course whose every link has a null video id counts as completed:
      there are no ids, and no summary rows among them. */
  lemma AllNullLinksCompleted(courseId: string, table: seq<Option<string>>)
    requires courseId != ""
    ensures CourseStatus(Some(courseId), None, Some([None]), Some(table)) == Reply(200, Some("completed"))
  {
    assert NonNullIds([None]) == [] + NonNullIds([None][1..]);
    RowsInNothing(table);
  }

  lemma {:induction false} RowsInNothing(table: seq<Option<string>>)
    ensures RowsIn(table, []) == []
  {
    if |table| > 0 {
      RowsInNothing(table[1..]);
    }
  }

  // ------------------------------------------------------- coverage check

  /** What the comment above the fallback check says it is for: every
      (non-null) video of the course has a summary. */
  ghost predicate AllSummarized(links: seq<Option<string>>, summaries: seq<Option<string>>)
  {
    forall id :: Some(id) in links ==> Some(id) in summaries
  }

  /** Comparing counts is not that check: two summaries of video `"a"` and
      none of `"b"` give "completed". */
  lemma CountsAreNotCoverage()
    ensures CourseStatus(Some("c"), None, Some([Some("a"), Some("b")]), Some([Some("a"), Some("a")])) ==
            Reply(200, Some("completed"))
    ensures !AllSummarized([Some("a"), Some("b")], [Some("a"), Some("a")])
  {
    var links := [Some("a"), Some("b")];
    assert NonNullIds(links) == ["a"] + NonNullIds(links[1..]);
    assert NonNullIds(links[1..]) == ["b"] + NonNullIds(links[1..][1..]);
    assert NonNullIds(links) == ["a", "b"];
    var table := [Some("a"), Some("a")];
    assert RowsIn(table, ["a", "b"]) == ["a"] + RowsIn(table[1..], ["a", "b"]);
    assert RowsIn(table[1..], ["a", "b"]) == ["a"] + RowsIn(table[1..][1..], ["a", "b"]);
    assert Some("b") !in table;
  }

  /** The other way round: a video linked twice and summarized once stays
      "processing" for ever. */
  lemma DuplicateLinkNeverCompletes()
    ensures CourseStatus(Some("c"), None, Some([Some("a"), Some("a")]), Some([Some("a")])) ==
            Reply(200, Some("processing"))
    ensures AllSummarized([Some("a"), Some("a")], [Some("a")])
  {
    var links := [Some("a"), Some("a")];
    assert NonNullIds(links) == ["a"] + NonNullIds(links[1..]);
    assert NonNullIds(links[1..]) == ["a"] + NonNullIds(links[1..][1..]);
    var table := [Some("a")];
    assert RowsIn(table, ["a", "a"]) == ["a"] + RowsIn(table[1..], ["a", "a"]);
  }

  /** The fallback decided by coverage: "completed" exactly when every
      non-null video id of the course has a summary row. */
  function CourseStatusByCoverage(courseId: Option<string>, latestJob: Option<string>,
                                  courseVideos: Option<seq<Option<string>>>,
                                  summaries: Option<seq<Option<string>>>): (r: Reply)
    ensures r.code == 200 <==> courseId.Some? && courseId != Some("")
    ensures courseId.Some? && courseId != Some("") && latestJob.Some? && latestJob.value != "completed" ==>
      r.status == latestJob
    ensures r.status == Some("completed") && (latestJob.None? || latestJob == Some("completed")) ==>
      courseVideos.Some? && summaries.Some? && AllSummarized(courseVideos.value, summaries.value)
  {
    if courseId.None? || courseId.value == "" then Reply(400, None)
    else if latestJob.Some? && latestJob.value != "completed" then Reply(200, latestJob)
    else if courseVideos.None? || |courseVideos.value| == 0 then Reply(200, Some("failed"))
    else
      var ids := NonNullIds(courseVideos.value);
      var rows := SummariesOf(summaries, ids);
      if rows.Some? && forall i :: 0 <= i < |ids| ==> ids[i] in rows.value then Reply(200, Some("completed"))
      else Reply(200, Some("processing"))
  }

  /** With at least one link, the coverage version answers "completed"
      exactly when all linked videos are summarized. */
  lemma CoverageCompletesIffSummarized(courseId: string, latestJob: Option<string>,
                                       links: seq<Option<string>>, table: seq<Option<string>>)
    requires courseId != "" && |links| > 0
    requires latestJob.None? || latestJob == Some("completed")
    ensures CourseStatusByCoverage(Some(courseId), latestJob, Some(links), Some(table)) == Reply(200, Some("completed"))
      <==> AllSummarized(links, table)
  {
    var ids := NonNullIds(links);
    var rows := RowsIn(table, ids);
    if AllSummarized(links, table) {
      forall i | 0 <= i < |ids| ensures ids[i] in rows {
        assert ids[i] in ids;
      }
    }
  }

  /** The two versions agree whenever neither videos nor summaries repeat. */
  lemma VersionsAgreeWithoutRepeats(courseId: Option<string>, latestJob: Option<string>,
                                    links: seq<Option<string>>, table: seq<Option<string>>)
    requires forall i, j :: 0 <= i < j < |links| && links[i].Some? ==> links[i] != links[j]
    requires forall i, j :: 0 <= i < j < |table| && table[i].Some? ==> table[i] != table[j]
    ensures CourseStatusByCoverage(courseId, latestJob, Some(links), Some(table)) ==
            CourseStatus(courseId, latestJob, Some(links), Some(table))
  {
    var ids := NonNullIds(links);
    var rows := RowsIn(table, ids);
    NonNullIdsDistinct(links);
    RowsInDistinct(table, ids);
    CoverageIffSameCount(ids, rows);
  }

  /** Distinct rows taken from distinct ids cover them exactly when there
      are as many rows as ids. */
  lemma CoverageIffSameCount(ids: seq<string>, rows: seq<string>)
    requires Distinct(ids) && Distinct(rows)
    requires forall v :: v in rows ==> v in ids
    ensures (forall i :: 0 <= i < |ids| ==> ids[i] in rows) <==> |rows| == |ids|
  {
    forall i | 0 <= i < |rows| ensures rows[i] in ids {
      assert rows[i] in rows;
    }
    SubsetCount(rows, ids);
    if forall i :: 0 <= i < |ids| ==> ids[i] in rows {
      SubsetCount(ids, rows);
    } else {
      var i :| 0 <= i < |ids| && ids[i] !in rows;
      assert ids[i] in ids;
      StrictSubsetCount(rows, ids, ids[i]);
    }
  }

  ghost predicate Distinct(xs: seq<string>)
  {
    forall i, j :: 0 <= i < j < |xs| ==> xs[i] != xs[j]
  }

  lemma {:induction false} NonNullIdsDistinct(links: seq<Option<string>>)
    requires forall i, j :: 0 <= i < j < |links| && links[i].Some? ==> links[i] != links[j]
    ensures Distinct(NonNullIds(links))
    decreases |links|
  {
    if |links| > 0 {
      var rest := links[1..];
      assert forall i, j :: 0 <= i < j < |rest| && rest[i].Some? ==> rest[i] != rest[j] by {
        forall i, j | 0 <= i < j < |rest| && rest[i].Some? ensures rest[i] != rest[j] {
          assert rest[i] == links[i + 1] && rest[j] == links[j + 1];
        }
      }
      NonNullIdsDistinct(rest);
      if links[0].Some? {
        assert Some(links[0].value) !in rest by {
          forall j | 0 <= j < |rest| ensures rest[j] != links[0] {
            assert rest[j] == links[j + 1];
          }
        }
      }
    }
  }

  lemma {:induction false} RowsInDistinct(table: seq<Option<string>>, ids: seq<string>)
    requires forall i, j :: 0 <= i < j < |table| && table[i].Some? ==> table[i] != table[j]
    ensures Distinct(RowsIn(table, ids))
    decreases |table|
  {
    if |table| > 0 {
      var rest := table[1..];
      assert forall i, j :: 0 <= i < j < |rest| && rest[i].Some? ==> rest[i] != rest[j] by {
        forall i, j | 0 <= i < j < |rest| && rest[i].Some? ensures rest[i] != rest[j] {
          assert rest[i] == table[i + 1] && rest[j] == table[j + 1];
        }
      }
      RowsInDistinct(rest, ids);
      if table[0].Some? {
        assert Some(table[0].value) !in rest by {
          forall j | 0 <= j < |rest| ensures rest[j] != table[0] {
            assert rest[j] == table[j + 1];
          }
        }
      }
    }
  }

  /** A distinct list whose elements all occur in a distinct list is no
      longer than it. */
  lemma SubsetCount(small: seq<string>, big: seq<string>)
    requires Distinct(small) && Distinct(big)
    requires forall i :: 0 <= i < |small| ==> small[i] in big
    ensures |small| <= |big|
  {
    DistinctCard(small);
    DistinctCard(big);
    assert Elems(small) <= Elems(big);
    SubsetCard(Elems(small), Elems(big));
  }

  lemma StrictSubsetCount(small: seq<string>, big: seq<string>, extra: string)
    requires Distinct(small) && Distinct(big)
    requires forall i :: 0 <= i < |small| ==> small[i] in big
    requires extra in big && extra !in small
    ensures |small| < |big|
  {
    DistinctCard(small);
    DistinctCard(big);
    assert Elems(small) <= Elems(big) - {extra};
    SubsetCard(Elems(small), Elems(big) - {extra});
  }

  lemma SubsetCard(a: set<string>, b: set<string>)
    requires a <= b
    ensures |a| <= |b|
  {
    assert b == a + (b - a);
  }

  ghost function Elems(xs: seq<string>): set<string>
  {
    set i | 0 <= i < |xs| :: xs[i]
  }

  lemma {:induction false} DistinctCard(xs: seq<string>)
    requires Distinct(xs)
    ensures |Elems(xs)| == |xs|
    decreases |xs|
  {
    if |xs| > 0 {
      var rest := xs[1..];
      assert Distinct(rest) by {
        forall i, j | 0 <= i < j < |rest| ensures rest[i] != rest[j] {
          assert rest[i] == xs[i + 1] && rest[j] == xs[j + 1];
        }
      }
      DistinctCard(rest);
      assert Elems(xs) == {xs[0]} + Elems(rest) by {
        forall v | v in Elems(xs) ensures v in {xs[0]} + Elems(rest) {
          var i :| 0 <= i < |xs| && xs[i] == v;
          if i > 0 { assert rest[i - 1] == v; }
        }
        forall v | v in Elems(rest) ensures v in Elems(xs) {
          var i :| 0 <= i < |rest| && rest[i] == v;
          assert xs[i + 1] == v;
        }
      }
      assert xs[0] !in Elems(rest) by {
        forall i | 0 <= i < |rest| ensures rest[i] != xs[0] {
          assert rest[i] == xs[i + 1];
        }
      }
    }
  }
}
