# course-craft-backend, modelled in Dafny

course-craft-backend turns a list of YouTube videos into a course. For each
video it stores a row and the transcript cut into embedded chunks. It then
retrieves the most relevant chunks and has a language model write a summary
and a quiz from them. Finally it links the video into the course.

Around that pipeline sit:

- a job runner that walks one `course_jobs` row through its statuses;
- a status endpoint that reports how far a course has got;
- the HTTP routes, which check the bearer token, gate course creation on the
  user's credits, cut text for speech synthesis and sell credit packages
  through Stripe.

This project models the deterministic logic inside that glue. Every call to
the outside world becomes an input: an outcome value, or a function from the
request to its answer. This covers the model, the tokenizer, the embeddings,
Supabase, Stripe and YouTube.

| module | file | models |
|---|---|---|
| `JsText` | `js_text.dfy` | JavaScript `split(" ")`, `join`, `trim` and their laws |
| `JsValue` | `js_value.dfy` | parsed JSON values and JavaScript truthiness |
| `Store` | `store.dfy` | class `Database`: the Supabase tables the core touches, with a log of attempted writes |
| `Embeddings` | `embeddings.dfy` | `embeddings.ts` |
| `GptHandlers` | `gpt_handlers.dfy` | `gptHandlers.ts` |
| `CourseStatus` | `course_status.dfy` | `courseStatusHandler.ts` |
| `ProcessJobs` | `process_jobs.dfy` | `process_jobs.ts` |
| `AddVideo` | `add_video.dfy` | `add_video_to_db.ts` |
| `Routes` | `routes.dfy` | `main.ts`: `authenticateToken` and `/create_course_embed` |
| `Speech` | `speech.dfy` | `main.ts`: `splitTextByLength` and the audio buffer combine |
| `Payments` | `payments.dfy` | `main.ts`: `/create_payment_intent` and `/api/webhook/stripe` |

Code that updates state step by step is modelled with imperative Dafny:

- the loops become methods with invariants, proved equal to a specification
  function;
- the database writes become methods of `Store.Database`, with `modifies`
  clauses;
- the audio combine keeps its preallocated `array`.

The route decisions, the status handler and the helpers are functions. The
lemmas beside them state what the code promises.

Three modelling choices apply everywhere:

- Each write the handlers attempt is appended to the ghost `log`. This lets
  lemmas speak about order ("the link is the last write") as well as about
  the rows that land.
- `Promise.all` over videos, chunks or the two generators is modelled in
  index order.
- A throw is an `end` value of the run that the caller inspects.

## Model

| member | source | states |
|---|---|---|
| JsText.Split | embeddings.ts:6 | `split(" ")` always answers at least one piece, and no piece contains the separator |
| JsText.SplitJoin | embeddings.ts:6-9 | joining the pieces of `split(c)` with `c` gives back the string |
| JsText.JoinSplit | embeddings.ts:6-9 | splitting a join of separator-free words gives back exactly those words |
| JsText.SplitAtFirst | main.ts:44-45 | a string split at its first separator is the first word followed by the split of the rest |
| JsText.ConcatLength | main.ts:661 | the concatenation of pieces is as long as the sum of their lengths |
| JsText.TrimStart | process_jobs.ts:209 | `trimStart` removes exactly the leading JavaScript whitespace and leaves a suffix |
| JsText.TrimEnd | process_jobs.ts:209 | `trimEnd` removes exactly the trailing whitespace and leaves a prefix |
| JsText.Trim | process_jobs.ts:209 | `trim` is an infix of the string with no whitespace at either end |
| JsValue.Get | gptHandlers.ts:224-233 | a property read answers the field of an object that has it, and `null`/`undefined` otherwise |
| Store.InsertStatus | process_jobs.ts:110-120 | an insert is reported "success" exactly when it went through, and "failed" otherwise |
| Store.Database.UpdateJobStatus | process_jobs.ts:179-182 | logs the status update; only the named job's status changes, and only when the update goes through |
| Store.Database.InsertVideo | database.ts:34-65 | logs the insert; answers the new id exactly when the row went in, and appends the row then |
| Store.Database.InsertChunk | embeddings.ts:59-66 | logs the insert of chunk `i`; the row lands only when the insert goes through |
| Store.Database.InsertSummary | database.ts:75-97 | logs the insert; the row lands and "success" is answered exactly when it goes through |
| Store.Database.InsertQuiz | database.ts:104-126 | logs the insert; the row lands and "success" is answered exactly when it goes through |
| Store.Database.InsertCourseVideo | add_video_to_db.ts:177-187 | logs the link with its course, video and order; the row lands only when the insert goes through |
| Store.Database.InsertCourse | database.ts:144-161 | logs the insert; answers the course id exactly when the row went in |
| Store.Database.SetCredits | main.ts:307-310 | logs the credit update; only the user with that id gets the new balance |
| Store.Database.SetPaidCredits | main.ts:843-849 | logs the update; every user with that Stripe customer id gets the balance and `paid` |
| Store.WithStatus | process_jobs.ts:226-229 | the job table keeps its keys, and every row but the named one is unchanged |
| Store.Single | process_jobs.ts:164-168 | `.single()` answers only a row that matches |
| Store.SingleMeaning | process_jobs.ts:164-168 | `.single()` answers a row exactly when one row matches, and then it is that row |
| Store.MatchingComplete | main.ts:831-835 | the matching positions of a filter miss no matching row |
| Store.MatchingSameHits | main.ts:843-849 | two tables that match at the same positions have the same matching positions |
| Embeddings.CeilDiv | embeddings.ts:20 | `Math.ceil(n / d)`: the least `q` with `q * d >= n` |
| Embeddings.ChunkTranscript | embeddings.ts:5-12 | the loop's chunks are the word groups; joined with `" "` they give back the text; there are `ceil(words / maxWords)` of them, at least one |
| Embeddings.ChunksMeaning | embeddings.ts:5-12 | the chunks of any text rejoin to it, and their number is the ceiling of words over `maxWords`, at least 1 |
| Embeddings.WordChunksJoin | embeddings.ts:8-9 | joining the chunks with `" "` is joining the words with `" "` |
| Embeddings.ChunkCount | embeddings.ts:8 | there are `ceil(|words| / maxWords)` chunks |
| Embeddings.ChunkAt | embeddings.ts:8-9 | chunk `k` is the `k`-th group of `maxWords` words joined with `" "`; the last group may be shorter |
| Embeddings.PiecesPerChunk | embeddings.ts:8-9 | every chunk but the last holds exactly `maxWords` space-separated pieces; the last holds between 1 and `maxWords` |
| Embeddings.EmptyTranscriptChunks | embeddings.ts:6-10 | the empty transcript is one empty chunk |
| Embeddings.FiveWordsInPairs | embeddings.ts:8-9 | "a b c d e" in pairs is "a b", "c d", "e" |
| Embeddings.NumChunksToRetrieve | embeddings.ts:15-23 | 30 % of the estimated chunk count, rounded up and capped at `maxChunks`; at least 1 for a positive cap; the cap when `chunkSize` is 0 |
| Embeddings.FourThousandWords | embeddings.ts:15-23 | a 4000-word transcript gives 3 |
| Embeddings.FirstIndex | embeddings.ts:109-111 | the first position carrying an id, or the length when there is none |
| Embeddings.LastIndex | embeddings.ts:109-111 | the last position carrying an id, or -1 when there is none |
| Embeddings.MapSetStep | embeddings.ts:110 | one `map.set` keeps the deduplication characterisation when its record is appended to the input |
| Embeddings.DedupIsDedup | embeddings.ts:109-111 | the deduplicated list has pairwise distinct ids and the same ids as the input, in first-occurrence order, each entry being the last input record with its id |
| Embeddings.DedupOfDistinct | embeddings.ts:109-111 | a list whose ids are already distinct is its own deduplication |
| Embeddings.DedupShortensAndIsIdempotent | embeddings.ts:109-113 | deduplication never lengthens the list, and doing it twice changes nothing |
| Embeddings.GatheredAppend | embeddings.ts:88-106 | the accumulated rows of consecutive query runs are the concatenation of each run's rows |
| Embeddings.FailedQueryContributesNothing | embeddings.ts:97-105 | a query whose RPC errors, or answers no data, adds no rows |
| Embeddings.FirstThrow | embeddings.ts:88-89 | the number of queries answered before the first embedding that throws |
| Embeddings.GetRelevantChunks | embeddings.ts:80-114 | one RPC per query, in order, each for `getNumChunksToRetrieve(transcript)` matches of the video; succeeds exactly when no embedding throws, and then answers the deduplicated rows of the queries that did not error |
| Embeddings.Rendered | process_jobs.ts:208-209 | each chunk becomes `"- "` followed by its trimmed content |
| Embeddings.FormatChunks | add_video_to_db.ts:153-155 | the rendered chunks joined with blank lines: empty exactly when no chunk was retrieved, and starting with `"- "` otherwise |
| Embeddings.StoredRowsExact | embeddings.ts:52-76 | every stored row for chunk `i` has `chunk_index = i` and the chunk's content; a chunk is stored exactly when its own embedding and insert succeeded, whatever happened to the others |
| Embeddings.StoreChunks | embeddings.ts:48-77 | the chunk table grows by exactly the stored rows of the 400-word chunks, and one insert per chunk that got its embedding is attempted |
| Embeddings.StoreChunkList | embeddings.ts:54-77 | over any list of chunks, the chunk table grows by exactly their stored rows and the log by one insert per chunk whose embedding succeeded, in chunk order |
| Embeddings.StoreOne | embeddings.ts:55-74 | one chunk: no write when its embedding fails, else one insert of `{ video_id, chunk_index: i, content }`, whose row lands only when the insert succeeds |
| GptHandlers.ClampLevel | gptHandlers.ts:36 | `min(max(x, 1), 5)`: within [1, 5], the identity inside it, a bound outside it |
| GptHandlers.QuestionRange | gptHandlers.ts:157-158 | "0-4" exactly for 1, "4-7" exactly for 2, "7-10" for every other value |
| GptHandlers.WsRun | gptHandlers.ts:10 | the maximal JavaScript whitespace run at a position |
| GptHandlers.SentencesFromShape | gptHandlers.ts:10 | the split pieces cover the text: each ends in a terminator or is the last piece, and no piece hides a split point |
| GptHandlers.SplitSentencesShape | gptHandlers.ts:10 | `split(/(?<=[.?!])\s+/)` answers pieces that are separated exactly at whitespace runs after a terminator |
| GptHandlers.NoBreakOneSentence | gptHandlers.ts:10 | a text with no whitespace after a terminator is one piece |
| GptHandlers.TwoSentences | gptHandlers.ts:10 | "Hi. Yo" splits into "Hi." and "Yo" |
| GptHandlers.ChunkText | gptHandlers.ts:9-29 | the loop answers the greedy packing of the sentence pieces |
| GptHandlers.PackAllInvariant | gptHandlers.ts:14-24 | the loop keeps every pushed chunk non-empty, and each chunk, the current one included, is within the limit or one whole sentence |
| GptHandlers.PackedChunksBounded | gptHandlers.ts:16-27 | `chunkText` never answers an empty chunk, and a chunk longer than the limit is a single sentence |
| GptHandlers.PackAllJoin | gptHandlers.ts:14-28 | over non-empty sentences, the chunks joined with `" "` are the sentences joined with `" "` |
| GptHandlers.PackJoinLast | gptHandlers.ts:9-29 | for pieces of which only the last may be empty: the chunks joined with `" "` equal the pieces joined with `" "`, except when an empty last piece follows a chunk that reached the limit; then the last chunk is that full chunk and only the final separator is missing |
| GptHandlers.ChunkTextKeepsSentences | gptHandlers.ts:9-29 | for every text, order and content are kept: the chunks joined with `" "` equal the sentence pieces joined with `" "`, except when the text ends in a terminator and white space and the chunk before that empty last piece was full; then the sentences' join is the chunks' join plus one `" "` |
| GptHandlers.TrailingEmptySentence | gptHandlers.ts:17-27 | an empty trailing piece is dropped, so the rejoined chunks lose the trailing space |
| GptHandlers.GenerateSummary | gptHandlers.ts:30-95 | a summary exactly when the model answers non-empty text for the clamped level, and then it is that text |
| GptHandlers.NonEmpty | gptHandlers.ts:132-134 | the kept summaries are non-empty members of the input |
| GptHandlers.FilteredAreProduced | gptHandlers.ts:124-134 | mapping a null summary to `""` and then dropping empties leaves exactly the summaries the model produced, in chunk order |
| GptHandlers.FinalSummary | gptHandlers.ts:106-146 | the answer is a summary of the last text handed to the model |
| GptHandlers.FinalSummaryCalls | gptHandlers.ts:114-145 | below 125000 tokens there is exactly one summary call, on the transcript; otherwise every chunk is summarized, then the produced summaries joined with `"\n\n"` are summarized once more |
| GptHandlers.QuizResultMeaning | gptHandlers.ts:148-244 | `null` for an empty transcript; the questions exactly when the reply parses to an array whose every element validates, and then they are that array; the request's exception is passed on |
| GptHandlers.GenerateQuiz | gptHandlers.ts:218-243 | the validation loop with its early exit answers the all-or-nothing quiz result |
| GptHandlers.DifficultyNotMatched | gptHandlers.ts:223-237 | the difficulty is only range-checked, while a correct answer outside the choices is refused |
| CourseStatus.NonNullIds | courseStatusHandler.ts:56-58 | the video ids without the nulls: no longer than the links, and exactly their non-null ids |
| CourseStatus.SummariesOf | courseStatusHandler.ts:60-63 | summary rows come back exactly when the query does, and they are the rows whose video is among the ids |
| CourseStatus.CourseStatus | courseStatusHandler.ts:4-79 | 400 without a status exactly for a missing `courseId`, 200 otherwise; an unfinished job's own status; "failed" without links; with links, "completed" exactly when the summaries query answered as many rows for the linked videos as there are non-null linked ids (`CountsMatch`), and "processing" exactly otherwise |
| CourseStatus.NoLinksFailed | courseStatusHandler.ts:50-54 | a course without links is "failed", even when its latest job is "completed" |
| CourseStatus.NullLinksIgnored | courseStatusHandler.ts:56-58 | a null link adds no id |
| CourseStatus.NullLinkIgnoredInStatus | courseStatusHandler.ts:56-73 | adding a null link to a non-empty list never changes the answer |
| CourseStatus.AllNullLinksCompleted | courseStatusHandler.ts:56-73 | a course whose only link has a null video counts as "completed" |
| CourseStatus.CountsAreNotCoverage | courseStatusHandler.ts:69-73 | as written: two summaries of one video and none of the other give "completed" |
| CourseStatus.DuplicateLinkNeverCompletes | courseStatusHandler.ts:69-73 | as written: a video linked twice and summarized once stays "processing" |
| CourseStatus.CourseStatusByCoverage | courseStatusHandler.ts:37-73 | the status decided by coverage: "completed" only when every linked video has a summary |
| CourseStatus.CoverageCompletesIffSummarized | courseStatusHandler.ts:37-73 | with links, the coverage version says "completed" exactly when every linked video is summarized |
| CourseStatus.VersionsAgreeWithoutRepeats | courseStatusHandler.ts:69-73 | without repeated videos or summaries the counting and the coverage versions agree |
| ProcessJobs.AdminSummary | process_jobs.ts:93-121 | one summary insert: logged; the row lands and "success" is answered exactly when it goes through |
| ProcessJobs.AdminQuiz | process_jobs.ts:123-152 | one quiz insert: logged; the row lands and "success" is answered exactly when it goes through |
| ProcessJobs.ProcessSingleJob | process_jobs.ts:154-239 | the database changes by exactly the run's writes and rows, and the job table by its two status updates |
| ProcessJobs.ProcessLookup | process_jobs.ts:185-238 | after "processing": the run for the found video, or the "failed" write |
| ProcessJobs.ProcessVideo | process_jobs.ts:196-237 | store, retrieve, generate, insert, then the final status, as `RunWithVideo` describes |
| ProcessJobs.FinishRun | process_jobs.ts:217-237 | both inserts only when both parts were generated, then the final status |
| ProcessJobs.GenerateMethod | process_jobs.ts:199-215 | retrieval with the one query, and both generators on the rendered chunks |
| ProcessJobs.AfterLookupEnds | process_jobs.ts:175-238 | once the job is found the run always ends in a final status |
| ProcessJobs.NoJobNoWrites | process_jobs.ts:164-173 | a failed or empty job lookup ends the run with no write and an unchanged job table |
| ProcessJobs.StatusSequence | process_jobs.ts:175-238 | a found job gets exactly two status writes: "processing" first, then "completed" or "failed" as the last write |
| ProcessJobs.RunWithVideoStatus | process_jobs.ts:196-237 | after the video is found, exactly one status is written, the final one, as the last write |
| ProcessJobs.MissingVideoOrTranscriptFails | process_jobs.ts:185-194 | a missing video or an empty transcript writes "processing" then "failed", and nothing else |
| ProcessJobs.CompletedOnlyWhenGenerated | process_jobs.ts:212-229 | "completed" only when the video had a transcript, retrieval succeeded and both summary and quiz were generated; the summary and quiz inserts come just before the final write |
| ProcessJobs.NothingRetrievedFails | process_jobs.ts:200-218 | when nothing is retrieved the generators see empty text and the job fails |
| ProcessJobs.InsertFailuresIgnored | process_jobs.ts:221-229 | whatever the two inserts answer, the run ends the same way and attempts the same writes |
| ProcessJobs.FinalStatusStored | process_jobs.ts:226-237 | when the final update goes through the job row ends "completed" or "failed", matching the run, and no other row changes |
| ProcessJobs.TailStatus | process_jobs.ts:217-237 | the writes after the chunk inserts hold one status, the final one |
| ProcessJobs.ChunkWritesHaveNoStatus | embeddings.ts:55-76 | storing chunks writes no job status |
| AddVideo.FirstPresent | add_video_to_db.ts:32-35 | the first present size, or none when no size is present |
| AddVideo.ThumbnailIsLargestPresent | add_video_to_db.ts:32-35 | the thumbnail is maxres, else standard, else default, whichever is present first; a present empty url is kept |
| AddVideo.EmptyMaxresIsKept | add_video_to_db.ts:118-121 | `??` keeps an empty maxres url that `\|\|` would have passed over |
| AddVideo.TagsDefault | add_video_to_db.ts:46 | the stored tags are always truthy: the video's own when truthy, `[]` otherwise |
| AddVideo.VideoRowFacts | add_video_to_db.ts:38-49 | the row carries both ids and no transcript; the view count is the video's own when non-empty, "0" otherwise |
| AddVideo.DecideMeaning | add_video_to_db.ts:55-66 | summary and quiz are stored exactly when both were produced; a throwing quiz request wins; an empty quiz array passes |
| AddVideo.FinishIngest | add_video_to_db.ts:68-89 | the summary, the quiz and the course link inserts, in that order, only when both parts exist |
| AddVideo.AddVideoToDb | add_video_to_db.ts:15-90 | the database changes by exactly the plain run's writes and rows |
| AddVideo.AddVideoToDbUsingEmbedding | add_video_to_db.ts:106-192 | the database changes by exactly the embedding run's writes, rows and RPC calls |
| AddVideo.IngestAfterVideo | add_video_to_db.ts:141-189 | past the video row: the chunk writes, then the summary, quiz and link writes exactly when both drafts exist; the chunk, summary, quiz and link rows the outcomes let in; the retrieval's RPC calls |
| AddVideo.EmbeddingGenerate | add_video_to_db.ts:141-164 | retrieval with the five questions, then both generators on the rendered chunks |
| AddVideo.VideoFailureStops | add_video_to_db.ts:51-53 | a failed video insert ends either ingestion after that one write, before any chunk, summary, quiz or link |
| AddVideo.PlainAddedExactly | add_video_to_db.ts:15-90 | the plain ingestion succeeds exactly when the video row went in and both generators produced, and then it answers the new id |
| AddVideo.InsertOutcomesIgnored | add_video_to_db.ts:68-89 | the answers of the summary, quiz and link inserts change neither how the ingestion ends nor what it writes |
| AddVideo.ChunkWritesAreChunkInserts | embeddings.ts:59-66 | storing chunks writes only chunk inserts for the video |
| AddVideo.PlainLinkLast | add_video_to_db.ts:38-89 | a successful plain ingestion writes the video, the summary, the quiz and the link with its `order`, in that order; one that throws wrote only the video row |
| AddVideo.EmbeddingLinkLast | add_video_to_db.ts:124-189 | a successful embedding ingestion ends with the summary, the quiz and the link; one that throws writes none of them |
| AddVideo.RowsOnlyOnSuccess | add_video_to_db.ts:60-89 | summary, quiz and link rows land only in a run that succeeds |
| AddVideo.GeneralQueriesAsked | add_video_to_db.ts:141-151 | past the video row, retrieval asks the five questions in order for the new video; a throwing embedding leaves only the chunk writes |
| AddVideo.EmbeddingSummarizesChunks | add_video_to_db.ts:151-176 | the stored summary is the model's reply for the rendered retrieved chunks |
| AddVideo.LinkFailureReportsSuccess | add_video_to_db.ts:77-89 | as written: a failed link insert still ends in success, with no link row |
| AddVideo.CheckedEndMeansLinked | add_video_to_db.ts:77-89 | with the check, success means exactly that the video is linked into the course at its position |
| Routes.TokenIsFirstWord | main.ts:42-46 | a token exactly for a header starting "Bearer "; it is the text up to the next space, all of the rest when there is none |
| Routes.AuthenticateMeaning | main.ts:42-66 | a request passes exactly with a non-empty bearer token that verifies; without a token the verifier is never consulted |
| Routes.DoubleSpaceRefused | main.ts:44-53 | "Bearer  x" carries the empty token and is refused with 401 |
| Routes.FailedFetches | main.ts:213-230 | the failed ids are exactly the requested ids whose fetch failed |
| Routes.Runs | main.ts:255-276 | one ingestion per requested video, linked at its own position |
| Routes.SeparatePartition | main.ts:281-296 | the successes and the failures together are the task ids, as a multiset |
| Routes.FailedTasksMeaning | main.ts:284-296 | no failures exactly when every task succeeded; every failed id is a task that did not succeed |
| Routes.Separate | main.ts:281-296 | the `forEach` loop pushes exactly the successes and the failures |
| Routes.Verdict | main.ts:298-317 | "created" exactly when nothing failed, "created with failures" exactly when something did |
| Routes.VerdictStatus | main.ts:298-317 | 201 when nothing failed, 200 otherwise |
| Routes.IngestAll | main.ts:255-278 | the results are each video's outcome, in request order, and the tables change by every run |
| Routes.IngestOne | main.ts:256-275 | one video's ingestion at its position |
| Routes.Settle | main.ts:298-317 | the reply follows the failed tasks; one credit off the balance read at the start only when none failed |
| Routes.CreateCourseEmbed | main.ts:135-323 | the reply, the writes in order and every table afterwards are those of the admission checks followed by the course, the runs and the credit rule |
| Routes.CreateAdmitted | main.ts:241-317 | past the checks: the course insert, the ingestions, then the verdict and the credit update |
| Routes.IngestAndSettle | main.ts:255-317 | the runs' writes, then the credit update; the tables change by every run |
| Routes.RefusedWritesNothing | main.ts:144-239 | a refused request writes nothing: no course, no video, no credit |
| Routes.UserCheckedBeforeFields | main.ts:159-175 | without `user_id`, or with less than one credit, the answer is 401 however many fields are missing |
| Routes.FieldsRule | main.ts:189-202 | past the user checks, 400 exactly when one of the seven fields is falsy or the id list is empty; `is_public` never changes the answer |
| Routes.FetchFailureRefuses | main.ts:213-239 | a failed fetch refuses the request, naming exactly the ids that failed, before any course is created |
| Routes.ResultsRecordRuns | main.ts:255-278 | task `i` carries the `i`-th id, and succeeds exactly when its video was added |
| Routes.CreditRule | main.ts:284-317 | credits are taken exactly when every task succeeded: one credit off, as the only credit write, with 201; otherwise 200 naming only failed videos, with no credit write |
| Routes.VerdictRule | main.ts:298-317 | the same reply and credit rule, for any task results |
| Speech.RunLength | main.ts:620 | the maximal run at the start of a text of terminators, or of other characters |
| Speech.MatchEnd | main.ts:620 | a match ends after its whole terminator run |
| Speech.RegexSentencesShape | main.ts:620 | every match of `[^.!?]+[.!?]+` starts with a non-terminator and ends with a terminator run |
| Speech.TrailingTextDropped | main.ts:620 | text after the last terminator is never matched |
| Speech.RegexSentencesConcat | main.ts:620 | for a text starting with a non-terminator and ending with a terminator, the matches put back together are the text |
| Speech.TtsSentences | main.ts:620 | the matches when there are any; otherwise the whole text as one sentence |
| Speech.SplitTextByLength | main.ts:619-635 | the loop answers the length packing of the sentences |
| Speech.LengthPackConcat | main.ts:624-631 | the pushed chunks followed by the current one are the sentences so far, concatenated |
| Speech.SplitByLengthConcat | main.ts:619-635 | the chunks concatenated are the sentences concatenated |
| Speech.LengthPackBounded | main.ts:624-631 | every chunk is within the limit or is one sentence |
| Speech.SplitByLengthBounded | main.ts:619-635 | a chunk longer than the limit is a single sentence, so a chunk of two or more sentences fits |
| Speech.LengthPackEmpties | main.ts:624-631 | over non-empty sentences, only the first pushed chunk can be empty, and it is empty exactly when the first sentence exceeds the limit |
| Speech.LeadingEmptyChunk | main.ts:619-635 | the answer starts with `""` exactly when the first sentence alone exceeds the limit, and holds no other empty chunk |
| Speech.NoMatchFallback | main.ts:620-634 | a text without a match gives nothing when empty, `["", text]` when over the limit, `[text]` otherwise |
| Speech.SplitByLengthDropsTail | main.ts:619-635 | text after the last terminator never reaches the speech service |
| Speech.CombineAudio | main.ts:661-667 | the buffer is as long as the pieces together and holds their concatenation, in order |
| Payments.PackageAmountMeaning | main.ts:695-716 | "required" exactly for a falsy package or "free"; priced exactly for one of the three packages, at 499, 999 or 1999 cents; "invalid" otherwise |
| Payments.CurrencyOf | main.ts:692-693 | the currency asked for, US dollars when none is given |
| Payments.IntentOnlyForPackages | main.ts:690-733 | an intent is created, with 201 and Stripe's client secret, exactly for a priced package that Stripe accepts; "required" is 400 |
| Payments.PriceIdOf | main.ts:814-817 | the metadata price id when it is truthy, the first line item's otherwise |
| Payments.FindPlan | main.ts:819 | a plan with that price id, or none when no plan has it |
| Payments.FindPlanFirst | main.ts:819 | `find` answers the first plan with the price id |
| Payments.CreditRule | main.ts:799-855 | a user is credited exactly for a paid, completed checkout with a plan, a working lookup and exactly one user with the customer id; the new balance is theirs plus the plan's tokens |
| Payments.StripeWebhook | main.ts:774-862 | the reply follows the signature checks; the credit update is logged and applied to the customer's rows when it goes through |
| Payments.UnverifiedNeverCredits | main.ts:779-797 | without a verified event nobody is credited and the answer is 400 |
| Payments.CreditedUsersAreMatched | main.ts:843-849 | the update touches only that customer's rows, setting the balance and `paid` |
| Payments.RepeatedEventCreditsAgain | main.ts:799-855 | nothing records a handled event: delivering it again credits the plan's tokens a second time |

## Left out

- Network and database I/O: every OpenAI, YouTube, Supabase, Stripe and Polly
  call is an input. It is either an outcome value (`WriteOutcome`,
  `ChunkOutcome`, `QueryOutcome`) or a function from the request to the
  answer.
- Concurrency: `Promise.all`, `Promise.allSettled` and the chunk `map` run in
  index order. `failedIds` is listed in request order rather than in
  completion order.
- The embedding vectors, their string form and the similarity search. The
  rows each query matches are an input.
- tiktoken: the token count is a parameter of `FinalSummary`.
- JWT verification (main.ts:55-66) and the Stripe signature check
  (main.ts:786-797) are parameters: `verifies` and `construct`.
- The `/text_to_speech` route itself: the Polly synthesis, the async audio
  stream and the JSON encoding of the buffers. `splitTextByLength` and the
  buffer combine are modelled.
- The routes `/create_course`, `/delete_course`, `/create_checkout_session`,
  `/create_stripe_user` and the others in main.ts are not part of this model.
  The same goes for the legacy `generateQuiz` (main.ts:79-111), which makes
  an unvalidated model call, and for `autoGenerateTitleDescription`.
- `getVideoDataTranscriptThumbnail` and the YouTube wrappers: a fetch either
  answers the video data or fails.
- `Routes.CreateCourseEmbed`: the 500 of the top-level `catch` is modelled only
  for the failed course insert. Exceptions thrown by the user lookup or by
  the runtime are left out.
- `Payments.StripeWebhook`: when the handler sets no status the framework
  answers by default; that default is not modelled (`Processed` carries no
  status code). The empty top-level `catch` (main.ts:861) is not modelled
  either.
- `Payments.PackageAmount`: the values of `TokenPackages` and
  `tokenPackages` live in a file that is not part of this model. They are
  inputs (`PackageKeys`, the plan list), and the enum values are taken to be
  strings.
- `Payments.CreditFor`: a session without a customer is treated as matching
  no user.
- `Speech.SplitByLengthBounded`, `Speech.LengthPackBounded`,
  `Speech.LengthPackEmpties`, `Speech.LeadingEmptyChunk` and
  `Speech.NoMatchFallback` require a non-negative limit. The only caller uses
  2800.
- String lengths count characters, not UTF-16 code units. JSON numbers are
  reals, without NaN or Infinity, and `null` and `undefined` are one value.
- `Embeddings.NumChunksToRetrieve`: the floating-point product `estimate * 0.3`
  is taken as the exact `3 * estimate / 10`, which has the same ceiling.
- Timestamps, UUIDs and log messages are not modelled. The new ids are inputs.
- The `order` of a course link is a natural number, the video's index in the
  request.
- Supabase writes do not reject: the client answers a failed insert or
  update with an `{ error }` value. A write therefore has two outcomes,
  `Written` and `WriteError`, at every call site, including `addCourse`
  (`Store.Database.InsertCourse`), the link insert of `addVideoToDb`, the job
  status updates of `processSingleJob` and the credit update of the webhook.
  A transport failure that surfaces as an exception is not modelled.

### Where the code and its documentation differ (the model follows the code)

- The word chunker splits on a single `" "`, not on any whitespace, and
  turns the empty transcript into one empty chunk.
- In `getRelevantChunks` only an RPC error skips a query. An exception from
  `getEmbedding` ends the whole retrieval. There is no concurrency limiter;
  embeddings.ts:54 is a comment.
- The retrieval count has no explicit lower bound. It is at least 1 because
  `split` always answers a piece.
- The quiz validator does not check that a question's difficulty is the one
  requested, and it accepts an empty array.
- Neither ingestion passes the transcript to `addVideo`, so video rows are
  stored without one. `processSingleJob` then fails on such a video.

## Findings

| source | as written | input that shows it | evidently intended | confidence | as-written member | corrected member |
|---|---|---|---|---|---|---|
| add_video_to_db.ts:77-89 | `if (!res)` tests the insert's response object, which is always present, so a failed `course_videos` insert is reported as success | link insert answers an error: the run ends `Added` and no link row exists | throw when the insert answers an error | not executed | AddVideo.LinkFailureReportsSuccess | AddVideo.CheckedEndMeansLinked |
| courseStatusHandler.ts:69-73 | "completed" when the number of summary rows equals the number of non-null video ids | links `[a, b]` with summaries `[a, a]` give "completed"; links `[a, a]` with summaries `[a]` stay "processing" | "completed" exactly when every linked video has a summary | not executed | CourseStatus.CountsAreNotCoverage | CourseStatus.CoverageCompletesIffSummarized |

The ingestion and status models keep the code's behaviour, because the
routes built on them answer what the code answers. The corrected versions
sit beside them:

- `AddVideo.CheckedEnd` is the ingestion with the link checked;
- `CourseStatus.CourseStatusByCoverage` is the status decided by coverage.

`CourseStatus.VersionsAgreeWithoutRepeats` proves that the two status
versions agree whenever no video or summary repeats.
