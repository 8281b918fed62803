/** The language-model handlers: the level clamps and the question-count
    tier, the sentence segmentation and greedy packing of `chunkText`, the
    map-reduce composition of `generateFinalSummary`, and the all-or-nothing
    validation of a generated quiz.  The model's replies are parameters. */
module GptHandlers {
  import opened JsText
  import opened JsValue

  /** `Math.min(Math.max(x, 1), 5)`. */
  function ClampLevel(x: real): (r: real)
    ensures 1.0 <= r <= 5.0
    ensures 1.0 <= x <= 5.0 ==> r == x
    ensures x < 1.0 ==> r == 1.0
    ensures x > 5.0 ==> r == 5.0
  {
    if x < 1.0 then 1.0 else if x > 5.0 then 5.0 else x
  }

  /** The question-count tier passed to the quiz prompt. */
  function QuestionRange(questionCount: real): (r: string)
    ensures r == "0-4" <==> questionCount == 1.0
    ensures r == "4-7" <==> questionCount == 2.0
    ensures r == "7-10" <==> questionCount != 1.0 && questionCount != 2.0
  {
    if questionCount == 1.0 then "0-4" else if questionCount == 2.0 then "4-7" else "7-10"
  }

  // ------------------------------------------------------ sentence splitting

  predicate IsTerminator(ch: char)
  {
    ch == '.' || ch == '?' || ch == '!'
  }

  /** The length of the white-space run starting at `q` (greedy `\s+`). */
  function WsRun(s: string, q: nat): (n: nat)
    requires q <= |s|
    ensures q + n <= |s|
    ensures forall k :: q <= k < q + n ==> IsJsWhitespace(s[k])
    ensures q + n == |s| || !IsJsWhitespace(s[q + n])
    decreases |s| - q
  {
    if q < |s| && IsJsWhitespace(s[q]) then 1 + WsRun(s, q + 1) else 0
  }

  /** `/(?<=[.?!])\s+/` matches at `q`: a white-space character right after
      a sentence terminator. */
  predicate BreaksAt(s: string, q: int)
  {
    1 <= q < |s| && IsTerminator(s[q - 1]) && IsJsWhitespace(s[q])
  }

  /** `s.split(/(?<=[.?!])\s+/)` from the piece starting at `p`, scanning at
      `q`: at each match the piece so far is emitted and the whole
      white-space run is skipped; the text after the last match is the last
      piece. */
  function SentencesFrom(s: string, p: nat, q: nat): (r: seq<string>)
    requires p <= q <= |s|
    ensures |r| >= 1
    ensures |r[0]| <= |s| - p && r[0] == s[p..p + |r[0]|]
    decreases |s| - q
  {
    if q >= |s| then [s[p..]]
    else if BreaksAt(s, q) && p < q then
      var e := q + WsRun(s, q);
      [s[p..q]] + SentencesFrom(s, e, e)
    else
      SentencesFrom(s, p, q + 1)
  }

  /** `text.split(/(?<=[.?!])\s+/)`; `""` splits into `[""]`. */
  function SplitSentences(text: string): (r: seq<string>)
    ensures |r| >= 1
  {
    SentencesFrom(text, 0, 0)
  }

  /** A piece other than the last ends a sentence. */
  predicate SentenceEnd(x: string)
  {
    |x| > 0 && IsTerminator(x[|x| - 1])
  }

  /** A piece other than the first starts after the skipped white space. */
  predicate StartsNonWs(x: string)
  {
    x == "" || !IsJsWhitespace(x[0])
  }

  /** No terminator followed by white space inside a piece. */
  ghost predicate NoBreakIn(x: string)
  {
    forall k :: 1 <= k < |x| ==> !(IsTerminator(x[k - 1]) && IsJsWhitespace(x[k]))
  }

  /** What a split into sentences looks like: every piece but the last is
      non-empty and ends with `.`, `?` or `!`; every piece but the first is
      empty or starts with a non-white-space character; no piece holds a
      terminator followed by white space. */
  ghost predicate WellSplit(r: seq<string>)
  {
    && |r| >= 1
    && (forall i :: 0 <= i < |r| - 1 ==> SentenceEnd(r[i]))
    && (forall i :: 1 <= i < |r| ==> StartsNonWs(r[i]))
    && (forall i :: 0 <= i < |r| ==> NoBreakIn(r[i]))
  }

  /** A stretch with no match inside has no terminator followed by white
      space. */
  lemma NoBreakInside(s: string, p: nat, q: nat)
    requires p <= q <= |s|
    requires forall k :: p < k < q ==> !BreaksAt(s, k)
    ensures NoBreakIn(s[p..q])
  {
    forall k | 1 <= k < q - p
      ensures !(IsTerminator(s[p..q][k - 1]) && IsJsWhitespace(s[p..q][k]))
    {
      assert !BreaksAt(s, p + k);
    }
  }

  /** A finished sentence in front of a well-split rest. */
  lemma ConsWellSplit(x: string, rest: seq<string>)
    requires SentenceEnd(x) && NoBreakIn(x)
    requires WellSplit(rest) && StartsNonWs(rest[0])
    ensures WellSplit([x] + rest)
  {
    var r := [x] + rest;
    forall i | 1 <= i < |r| ensures r[i] == rest[i - 1] {
    }
  }

  /** The piece emitted at a match, in front of well-split pieces of which
      the first starts after the skipped white space. */
  lemma BreakStep(s: string, p: nat, q: nat, rest: seq<string>)
    requires p < q < |s| && BreaksAt(s, q)
    requires forall k :: p < k < q ==> !BreaksAt(s, k)
    requires WellSplit(rest) && StartsNonWs(rest[0])
    ensures WellSplit([s[p..q]] + rest)
  {
    NoBreakInside(s, p, q);
    assert SentenceEnd(s[p..q]);
    ConsWellSplit(s[p..q], rest);
  }

  /** The text after the last match is a well-split single piece. */
  lemma LastPiece(s: string, p: nat)
    requires p <= |s|
    requires forall k :: p < k < |s| ==> !BreaksAt(s, k)
    ensures WellSplit([s[p..]])
  {
    NoBreakInside(s, p, |s|);
    assert s[p..] == s[p..|s|];
  }

  /** The pieces from a position that is not white space start with a
      non-white-space character or are empty. */
  lemma FirstPieceStart(s: string, e: nat)
    requires e <= |s| && (e == |s| || !IsJsWhitespace(s[e]))
    ensures StartsNonWs(SentencesFrom(s, e, e)[0])
  {
    var x := SentencesFrom(s, e, e)[0];
    assert x == "" || x[0] == s[e];
  }

  /** The sentences from `p` scanning at `q`, when no match lies between. */
  lemma {:induction false} SentencesFromShape(s: string, p: nat, q: nat)
    requires p <= q <= |s|
    requires p == 0 || IsJsWhitespace(s[p - 1])
    requires forall k :: p < k < q ==> !BreaksAt(s, k)
    ensures WellSplit(SentencesFrom(s, p, q))
    decreases |s| - q
  {
    if q >= |s| {
      LastPiece(s, p);
    } else if BreaksAt(s, q) && p < q {
      var e := q + WsRun(s, q);
      var rest := SentencesFrom(s, e, e);
      assert IsJsWhitespace(s[e - 1]);
      SentencesFromShape(s, e, e);
      FirstPieceStart(s, e);
      BreakStep(s, p, q, rest);
      assert SentencesFrom(s, p, q) == [s[p..q]] + rest;
    } else {
      assert q == p || !BreaksAt(s, q);
      SentencesFromShape(s, p, q + 1);
      assert SentencesFrom(s, p, q) == SentencesFrom(s, p, q + 1);
    }
  }

  /** The sentences of any text have the shape `WellSplit` describes. */
  lemma SplitSentencesShape(text: string)
    ensures WellSplit(SplitSentences(text))
  {
    SentencesFromShape(text, 0, 0);
  }

  /** A text without a terminator followed by white space is one sentence. */
  lemma {:induction false} NoBreakOneSentence(s: string, p: nat, q: nat)
    requires p <= q <= |s|
    requires forall k :: q <= k < |s| ==> !BreaksAt(s, k)
    ensures SentencesFrom(s, p, q) == [s[p..]]
    decreases |s| - q
  {
    if q < |s| {
      NoBreakOneSentence(s, p, q + 1);
    }
  }

  /** `"Hi. Yo"` splits into `["Hi.", "Yo"]`. */
  lemma TwoSentences()
    ensures SplitSentences("Hi. Yo") == ["Hi.", "Yo"]
  {
    var s := "Hi. Yo";
    assert !BreaksAt(s, 0) && !BreaksAt(s, 1) && !BreaksAt(s, 2) && BreaksAt(s, 3);
    assert WsRun(s, 5) == 0 && WsRun(s, 4) == 0;
    assert WsRun(s, 3) == 1;
    NoBreakOneSentence(s, 4, 4);
    assert s[4..] == "Yo" && s[0..3] == "Hi.";
    assert SentencesFrom(s, 0, 3) == ["Hi."] + SentencesFrom(s, 4, 4);
  }

  // ------------------------------------------------------------- packing

  /** The loop state of `chunkText`: the chunks pushed so far and
      `currentChunk`. */
  datatype Packing = Packing(chunks: seq<string>, current: string)

  /** One iteration of the `chunkText` loop. */
  function PackStep(st: Packing, sentence: string, maxChunkLength: int): Packing
  {
    if |st.current| + |sentence| + 1 > maxChunkLength then
      Packing(if st.current != "" then st.chunks + [st.current] else st.chunks, sentence)
    else
      Packing(st.chunks, st.current + (if st.current != "" then " " else "") + sentence)
  }

  /** The loop state after the given sentences. */
  function PackAll(sentences: seq<string>, maxChunkLength: int): Packing
  {
    if |sentences| == 0 then Packing([], "")
    else PackStep(PackAll(sentences[..|sentences| - 1], maxChunkLength), sentences[|sentences| - 1], maxChunkLength)
  }

  /** The chunks with a non-empty `currentChunk` pushed at the end. */
  function Flush(st: Packing): seq<string>
  {
    if st.current != "" then st.chunks + [st.current] else st.chunks
  }

  /** What `chunkText` answers for a sentence sequence. */
  function PackedChunks(sentences: seq<string>, maxChunkLength: int): seq<string>
  {
    Flush(PackAll(sentences, maxChunkLength))
  }

  /** `chunkText(text, maxChunkLength)`. */
  method ChunkText(text: string, maxChunkLength: int) returns (chunks: seq<string>)
    ensures chunks == PackedChunks(SplitSentences(text), maxChunkLength)
  {
    var sentences := SplitSentences(text);
    chunks := [];
    var current := "";
    for i := 0 to |sentences|
      invariant Packing(chunks, current) == PackAll(sentences[..i], maxChunkLength)
    {
      assert sentences[..i + 1][..i] == sentences[..i];
      var sentence := sentences[i];
      if |current| + |sentence| + 1 > maxChunkLength {
        if current != "" {
          chunks := chunks + [current];
        }
        current := sentence;
      } else {
        current := current + (if current != "" then " " else "") + sentence;
      }
    }
    assert sentences[..|sentences|] == sentences;
    if current != "" {
      chunks := chunks + [current];
    }
  }

  /** The loop keeps every pushed chunk non-empty, and every pushed chunk as
      well as `currentChunk` is either within the limit or one whole
      sentence. */
  lemma {:induction false} PackAllInvariant(sentences: seq<string>, maxChunkLength: int)
    ensures var st := PackAll(sentences, maxChunkLength);
      (forall c :: c in st.chunks ==> c != "" && (|c| <= maxChunkLength || c in sentences)) &&
      (st.current == "" || |st.current| <= maxChunkLength || st.current in sentences)
  {
    if |sentences| > 0 {
      var front := sentences[..|sentences| - 1];
      var x := sentences[|sentences| - 1];
      PackAllInvariant(front, maxChunkLength);
      var st := PackAll(front, maxChunkLength);
      assert forall c :: c in front ==> c in sentences;
      assert x in sentences;
      assert st.current in sentences ==> st.current in sentences;
      var st' := PackAll(sentences, maxChunkLength);
      if |st.current| + |x| + 1 > maxChunkLength {
        assert st' == Packing(Flush(st), x);
        forall c | c in st'.chunks ensures c != "" && (|c| <= maxChunkLength || c in sentences) {
          if c !in st.chunks {
            assert c == st.current;
          }
        }
      } else {
        assert st'.chunks == st.chunks;
        assert |st'.current| <= maxChunkLength;
      }
    }
  }

  /** `chunkText` never answers an empty chunk, and a chunk longer than
      `maxChunkLength` is one sentence on its own: a chunk assembled from
      two or more sentences is within the limit. */
  lemma PackedChunksBounded(sentences: seq<string>, maxChunkLength: int)
    ensures forall c :: c in PackedChunks(sentences, maxChunkLength) ==>
      c != "" && (|c| <= maxChunkLength || c in sentences)
  {
    PackAllInvariant(sentences, maxChunkLength);
  }

  /** With non-empty sentences, the chunks joined with `" "` are the
      sentences joined with `" "`: order and content are kept. */
  lemma {:induction false} PackAllJoin(sentences: seq<string>, maxChunkLength: int)
    requires forall i :: 0 <= i < |sentences| ==> sentences[i] != ""
    ensures var st := PackAll(sentences, maxChunkLength);
      (|sentences| == 0 <==> Flush(st) == []) &&
      (|sentences| > 0 ==> st.current != "") &&
      Join(Flush(st), " ") == Join(sentences, " ")
  {
    if |sentences| > 0 {
      var front := sentences[..|sentences| - 1];
      var x := sentences[|sentences| - 1];
      PackAllJoin(front, maxChunkLength);
      assert sentences == front + [x];
      var st := PackAll(front, maxChunkLength);
      if |front| > 0 {
        JoinSnoc(front, x, " ");
        if |st.current| + |x| + 1 > maxChunkLength {
          JoinSnoc(Flush(st), x, " ");
        } else {
          JoinLastExtended(st.chunks, st.current, x);
        }
      }
    }
  }

  /** Extending the last of the joined pieces by `" " + x`. */
  lemma JoinLastExtended(cs: seq<string>, a: string, x: string)
    ensures Join(cs + [a + " " + x], " ") == Join(cs + [a], " ") + " " + x
  {
    if |cs| > 0 {
      JoinSnoc(cs, a + " " + x, " ");
      JoinSnoc(cs, a, " ");
    }
  }

  /** Packing pieces of which only the last may be empty.  The joins agree
      unless the last piece is empty, follows at least one other piece, and
      the chunk in progress before it has reached the limit: then the empty
      piece is dropped, the last chunk is that full chunk, and the pieces'
      join is the chunks' join plus the one separator that was lost. */
  lemma PackJoinLast(ss: seq<string>, maxChunkLength: int)
    requires |ss| >= 1
    requires forall i :: 0 <= i < |ss| - 1 ==> ss[i] != ""
    ensures var cs := PackedChunks(ss, maxChunkLength);
      var dropped := |ss| > 1 && ss[|ss| - 1] == "" &&
        |PackAll(ss[..|ss| - 1], maxChunkLength).current| >= maxChunkLength;
      (!dropped ==> Join(cs, " ") == Join(ss, " ")) &&
      (dropped ==>
         |cs| > 0 && |cs[|cs| - 1]| >= maxChunkLength &&
         Join(ss, " ") == Join(cs, " ") + " ")
  {
    var front := ss[..|ss| - 1];
    var x := ss[|ss| - 1];
    assert ss == front + [x];
    if x != "" {
      PackAllJoin(ss, maxChunkLength);
    } else if |front| == 0 {
      assert PackAll(ss, maxChunkLength) == PackStep(Packing([], ""), "", maxChunkLength);
    } else {
      PackAllJoin(front, maxChunkLength);
      var st := PackAll(front, maxChunkLength);
      assert PackAll(ss, maxChunkLength) == PackStep(st, x, maxChunkLength);
      JoinSnoc(front, x, " ");
      if |st.current| + 1 <= maxChunkLength {
        JoinLastExtended(st.chunks, st.current, x);
      }
    }
  }

  /** The round trip of `chunkText` on every text: the chunks joined with
      `" "` are the sentences joined with `" "`, except when the text ends
      in a terminator followed by white space (an empty last sentence) and
      the chunk before it was full; then only that trailing separator is
      missing. */
  lemma ChunkTextKeepsSentences(text: string, maxChunkLength: int)
    ensures var ss := SplitSentences(text);
      var cs := PackedChunks(ss, maxChunkLength);
      var dropped := |ss| > 1 && ss[|ss| - 1] == "" &&
        |PackAll(ss[..|ss| - 1], maxChunkLength).current| >= maxChunkLength;
      (!dropped ==> Join(cs, " ") == Join(ss, " ")) &&
      (dropped ==>
         |cs| > 0 && |cs[|cs| - 1]| >= maxChunkLength &&
         Join(ss, " ") == Join(cs, " ") + " ")
  {
    var ss := SplitSentences(text);
    SplitSentencesShape(text);
    assert forall i :: 0 <= i < |ss| - 1 ==> SentenceEnd(ss[i]);
    PackJoinLast(ss, maxChunkLength);
  }

  /** With a trailing empty sentence the packing may drop the last separator:
      `["ab.", ""]` packed at 3 is `["ab."]`. */
  lemma TrailingEmptySentence()
    ensures PackedChunks(["ab.", ""], 3) == ["ab."]
    ensures Join(["ab.", ""], " ") == "ab. "
  {
    assert ["ab.", ""][..1] == ["ab."];
    assert ["ab."][..0] == [];
  }

  // -------------------------------------------------------------- summaries

  /** `generateSummary(transcript, detail)` given the model's reply for the
      transcript at the clamped detail level (`None` when the call throws or
      the reply has no content): `summary || null`, so an empty reply is
      also `null`. */
  function GenerateSummary(transcript: string, detail: real,
                           llm: (string, real) -> Option<string>): (r: Option<string>)
    ensures r.Some? <==> llm(transcript, ClampLevel(detail)).Some? && llm(transcript, ClampLevel(detail)).value != ""
    ensures r.Some? ==> r.value == llm(transcript, ClampLevel(detail)).value
  {
    var reply := llm(transcript, ClampLevel(detail));
    if reply.Some? && reply.value != "" then reply else None
  }

  /** The longest text `generateFinalSummary` summarizes in one piece, in
      tokens, and the character limit of its chunks. */
  const MaxChunkLength: int := 125000

  /** `summary || ""` for each chunk. */
  function Intermediate(chunks: seq<string>, detail: real, llm: (string, real) -> Option<string>): (r: seq<string>)
    ensures |r| == |chunks|
  {
    if |chunks| == 0 then []
    else
      var s := GenerateSummary(chunks[0], detail, llm);
      [if s.Some? then s.value else ""] + Intermediate(chunks[1..], detail, llm)
  }

  /** `.filter((summary) => summary.length > 0)`. */
  function NonEmpty(xs: seq<string>): (r: seq<string>)
    ensures forall i :: 0 <= i < |r| ==> r[i] != "" && r[i] in xs
    ensures |r| <= |xs|
  {
    if |xs| == 0 then []
    else (if xs[0] != "" then [xs[0]] else []) + NonEmpty(xs[1..])
  }

  /** The summaries that came back, in chunk order: an independent
      description of the filtered list. */
  function Produced(chunks: seq<string>, detail: real, llm: (string, real) -> Option<string>): seq<string>
  {
    if |chunks| == 0 then []
    else
      var s := GenerateSummary(chunks[0], detail, llm);
      (if s.Some? then [s.value] else []) + Produced(chunks[1..], detail, llm)
  }

  /** Mapping the failures to `""` and filtering the empties out gives
      exactly the summaries that were produced. */
  lemma {:induction false} FilteredAreProduced(chunks: seq<string>, detail: real, llm: (string, real) -> Option<string>)
    ensures NonEmpty(Intermediate(chunks, detail, llm)) == Produced(chunks, detail, llm)
  {
    if |chunks| > 0 {
      FilteredAreProduced(chunks[1..], detail, llm);
      var xs := Intermediate(chunks, detail, llm);
      assert xs[1..] == Intermediate(chunks[1..], detail, llm);
    }
  }

  /** One run of `generateFinalSummary`: the texts handed to
      `generateSummary`, in order, and the answer. */
  datatype SummaryRun = SummaryRun(inputs: seq<string>, result: Option<string>)

  /** `generateFinalSummary(transcript, detail)` with the tokenizer's count
      as a parameter. */
  function FinalSummary(transcript: string, detail: real, tokenCount: nat,
                        llm: (string, real) -> Option<string>): (run: SummaryRun)
    ensures |run.inputs| >= 1
    ensures run.result == GenerateSummary(run.inputs[|run.inputs| - 1], detail, llm)
  {
    if tokenCount < MaxChunkLength then
      SummaryRun([transcript], GenerateSummary(transcript, detail, llm))
    else
      var chunks := PackedChunks(SplitSentences(transcript), MaxChunkLength);
      var combined := Join(NonEmpty(Intermediate(chunks, detail, llm)), "\n\n");
      SummaryRun(chunks + [combined], GenerateSummary(combined, detail, llm))
  }

  /** Below the threshold there is exactly one summary call, on the whole
      transcript; at or above it every chunk is summarized and then the
      produced summaries, joined with blank lines, are summarized once more. */
  lemma FinalSummaryCalls(transcript: string, detail: real, tokenCount: nat,
                          llm: (string, real) -> Option<string>)
    ensures var run := FinalSummary(transcript, detail, tokenCount, llm);
      tokenCount < MaxChunkLength ==> run.inputs == [transcript]
    ensures var run := FinalSummary(transcript, detail, tokenCount, llm);
      var chunks := PackedChunks(SplitSentences(transcript), MaxChunkLength);
      tokenCount >= MaxChunkLength ==>
        run.inputs[..|run.inputs| - 1] == chunks &&
        run.inputs[|run.inputs| - 1] == Join(Produced(chunks, detail, llm), "\n\n")
  {
    var chunks := PackedChunks(SplitSentences(transcript), MaxChunkLength);
    FilteredAreProduced(chunks, detail, llm);
    var run := FinalSummary(transcript, detail, tokenCount, llm);
    if tokenCount >= MaxChunkLength {
      assert run.inputs == chunks + [Join(Produced(chunks, detail, llm), "\n\n")];
      assert run.inputs[..|run.inputs| - 1] == chunks;
    }
  }

  // ------------------------------------------------------------------ quiz

  /** One question as the validator accepts it. */
  predicate ValidQuestion(q: Json)
  {
    && Get(q, "id").JStr?
    && Get(q, "question").JStr?
    && Get(q, "choices").JArr?
    && |Get(q, "choices").elems| == 4
    && Get(q, "correctAnswer").JStr?
    && Get(q, "correctAnswer") in Get(q, "choices").elems
    && Get(q, "difficulty").JNum?
    && 1.0 <= Get(q, "difficulty").n <= 5.0
  }

  /** What the chat-completions request came back with: `fetch` or
      `response.json()` threw (this is outside the `try` and propagates), no
      `choices`, or the first choice's content, parsed (`None` when parsing or
      reading it throws). */
  datatype QuizReply = QuizThrows | NoChoices | Content(parsed: Option<Json>)

  /** The answer of `generateQuiz`. */
  datatype QuizOutcome = QuizOk(questions: seq<Json>) | NullQuiz | QuizException

  /** What `generateQuiz(transcript, difficulty, questionCount)` answers,
      given the model's reply to the prompt built from the clamped difficulty
      and the question-count tier: the parsed array only when every element
      is a valid question, `null` otherwise, and the exception of the request
      itself passed on. */
  function QuizResult(transcript: string, difficulty: real, questionCount: real,
                      api: (string, real, string) -> QuizReply): QuizOutcome
  {
    if transcript == "" then NullQuiz
    else
      var reply := api(transcript, ClampLevel(difficulty), QuestionRange(questionCount));
      match reply
      case QuizThrows => QuizException
      case NoChoices => NullQuiz
      case Content(parsed) =>
        if parsed.Some? && parsed.value.JArr? &&
           forall i :: 0 <= i < |parsed.value.elems| ==> ValidQuestion(parsed.value.elems[i])
        then QuizOk(parsed.value.elems)
        else NullQuiz
  }

  /** The answer read off the reply: no quiz for an empty transcript; the
      questions exactly when the reply parsed to an array of valid questions,
      and then they are that array; the exception exactly when the request
      threw. */
  lemma QuizResultMeaning(transcript: string, difficulty: real, questionCount: real,
                          api: (string, real, string) -> QuizReply)
    ensures var r := QuizResult(transcript, difficulty, questionCount, api);
      transcript == "" ==> r == NullQuiz
    ensures var r := QuizResult(transcript, difficulty, questionCount, api);
      var reply := api(transcript, ClampLevel(difficulty), QuestionRange(questionCount));
      r.QuizOk? <==>
        transcript != "" && reply.Content? && reply.parsed.Some? && reply.parsed.value.JArr? &&
        forall i :: 0 <= i < |reply.parsed.value.elems| ==> ValidQuestion(reply.parsed.value.elems[i])
    ensures var r := QuizResult(transcript, difficulty, questionCount, api);
      r.QuizOk? ==>
      api(transcript, ClampLevel(difficulty), QuestionRange(questionCount)) == Content(Some(JArr(r.questions)))
    ensures var r := QuizResult(transcript, difficulty, questionCount, api);
      r == QuizException <==>
      transcript != "" && api(transcript, ClampLevel(difficulty), QuestionRange(questionCount)) == QuizThrows
  {
  }

  /** `generateQuiz`: the validation loop over the parsed questions, leaving
      with `null` at the first invalid one. */
  method GenerateQuiz(transcript: string, difficulty: real, questionCount: real,
                      api: (string, real, string) -> QuizReply)
    returns (r: QuizOutcome)
    ensures r == QuizResult(transcript, difficulty, questionCount, api)
  {
    if transcript == "" {
      return NullQuiz;
    }
    var reply := api(transcript, ClampLevel(difficulty), QuestionRange(questionCount));
    if reply == QuizThrows {
      return QuizException;
    }
    if reply == NoChoices || reply.parsed.None? || !reply.parsed.value.JArr? {
      return NullQuiz;
    }
    var questions := reply.parsed.value.elems;
    for i := 0 to |questions|
      invariant forall j :: 0 <= j < i ==> ValidQuestion(questions[j])
    {
      if !ValidQuestion(questions[i]) {
        return NullQuiz;
      }
    }
    return QuizOk(questions);
  }

  /** The difficulty of a question is only range-checked: a question of
      difficulty 2 is valid whatever difficulty was requested. */
  lemma DifficultyNotMatched()
    ensures ValidQuestion(JObj(map[
      "id" := JStr("q1"), "question" := JStr("Why?"),
      "choices" := JArr([JStr("a"), JStr("b"), JStr("c"), JStr("d")]),
      "correctAnswer" := JStr("b"), "difficulty" := JNum(2.0)]))
    ensures !ValidQuestion(JObj(map[
      "id" := JStr("q1"), "question" := JStr("Why?"),
      "choices" := JArr([JStr("a"), JStr("b"), JStr("c"), JStr("d")]),
      "correctAnswer" := JStr("e"), "difficulty" := JNum(2.0)]))
  {
    var choices := [JStr("a"), JStr("b"), JStr("c"), JStr("d")];
    assert JStr("b") == choices[1];
    assert JStr("e") !in choices;
  }
}
