/** Text to speech: the sentence matcher and the length packer that cut the
    text into pieces for the speech service, and the concatenation of the
    audio pieces it streams back into one byte buffer. */
module Speech {
  import opened JsText
  import opened JsValue
  import opened GptHandlers

  // ----------------------------------------------------- sentence matching

  /** The length of the run at the start of `s` whose characters are
      terminators (`term`) or non-terminators (`!term`). */
  function RunLength(s: string, term: bool): (n: nat)
    ensures n <= |s|
    ensures forall k :: 0 <= k < n ==> IsTerminator(s[k]) == term
    ensures n < |s| ==> IsTerminator(s[n]) != term
  {
    if |s| == 0 || IsTerminator(s[0]) != term then 0 else 1 + RunLength(s[1..], term)
  }

  /** Where the match starting at a non-terminator run ends: after the whole
      run of terminators that follows it. */
  function MatchEnd(s: string): (m: nat)
    requires RunLength(s, false) < |s|
    ensures RunLength(s, false) < m <= |s|
    ensures m < |s| ==> !IsTerminator(s[m])
  {
    var n := RunLength(s, false);
    n + RunLength(s[n..], true)
  }

  /** `s.match(/[^\.!\?]+[\.!\?]+/g)` as a list (`[]` for `null`): from the
      start of the text, skip terminators; a run of non-terminators that
      reaches the end of the text matches nothing; otherwise it is a match
      together with the whole run of terminators after it. */
  function RegexSentences(s: string): (r: seq<string>)
    decreases |s|
  {
    if |s| == 0 then []
    else if IsTerminator(s[0]) then RegexSentences(s[1..])
    else if RunLength(s, false) == |s| then []
    else [s[..MatchEnd(s)]] + RegexSentences(s[MatchEnd(s)..])
  }

  /** What one match of `[^\.!\?]+[\.!\?]+` looks like: it starts with a
      non-terminator, ends with a terminator, and no terminator in it is
      followed by a non-terminator. */
  predicate SentenceShape(x: string)
  {
    |x| >= 2 && !IsTerminator(x[0]) && IsTerminator(x[|x| - 1]) &&
    forall k :: 1 <= k < |x| ==> IsTerminator(x[k - 1]) ==> IsTerminator(x[k])
  }

  /** Every match has the shape of the pattern. */
  lemma {:induction false} RegexSentencesShape(s: string)
    ensures forall i :: 0 <= i < |RegexSentences(s)| ==> SentenceShape(RegexSentences(s)[i])
    decreases |s|
  {
    if |s| > 0 {
      if IsTerminator(s[0]) {
        RegexSentencesShape(s[1..]);
      } else {
        var n := RunLength(s, false);
        if n < |s| {
          var t := RunLength(s[n..], true);
          var m := MatchEnd(s);
          RegexSentencesShape(s[m..]);
          var x := s[..m];
          forall k | 1 <= k < |x| && IsTerminator(x[k - 1]) ensures IsTerminator(x[k]) {
            assert k - 1 >= n;
            assert x[k] == s[n..][k - n];
          }
          assert x[m - 1] == s[n..][t - 1];
          assert SentenceShape(x);
        }
      }
    }
  }

  /** A run of one kind in front of more text: the run stops inside the first
      part, or spans it and continues into the second. */
  lemma {:induction false} RunLengthAppend(u: string, t: string, term: bool)
    ensures RunLength(u + t, term) ==
      if RunLength(u, term) < |u| then RunLength(u, term) else |u| + RunLength(t, term)
    decreases |u|
  {
    if |u| > 0 {
      assert (u + t)[0] == u[0];
      if IsTerminator(u[0]) == term {
        assert (u + t)[1..] == u[1..] + t;
        RunLengthAppend(u[1..], t, term);
      }
    } else {
      assert u + t == t;
    }
  }

  /** The first match of a text reaching a terminator ends where it ends
      once text without a terminator is appended. */
  lemma FirstMatchAppend(s: string, t: string)
    requires |s| > 0 && !IsTerminator(s[0]) && IsTerminator(s[|s| - 1])
    requires forall k :: 0 <= k < |t| ==> !IsTerminator(t[k])
    ensures RunLength(s, false) < |s| && RunLength(s + t, false) == RunLength(s, false)
    ensures MatchEnd(s + t) == MatchEnd(s)
  {
    var n := RunLength(s, false);
    assert n < |s|;
    RunLengthAppend(s, t, false);
    assert (s + t)[n..] == s[n..] + t;
    RunLengthAppend(s[n..], t, true);
    if |t| > 0 {
      assert RunLength(t, true) == 0;
    }
  }

  /** Text after the last terminator is dropped: appending text without a
      terminator to a text that is empty or ends with one adds no match. */
  lemma {:induction false} TrailingTextDropped(s: string, t: string)
    requires s == "" || IsTerminator(s[|s| - 1])
    requires forall k :: 0 <= k < |t| ==> !IsTerminator(t[k])
    ensures RegexSentences(s + t) == RegexSentences(s)
    decreases |s|
  {
    if |s| == 0 {
      assert s + t == t;
      if |t| > 0 {
        assert RunLength(t, false) == |t|;
      }
    } else if IsTerminator(s[0]) {
      assert (s + t)[0] == s[0];
      assert (s + t)[1..] == s[1..] + t;
      TrailingTextDropped(s[1..], t);
    } else {
      assert (s + t)[0] == s[0];
      FirstMatchAppend(s, t);
      var m := MatchEnd(s);
      assert (s + t)[..m] == s[..m];
      assert (s + t)[m..] == s[m..] + t;
      assert s[m..] == "" || IsTerminator(s[m..][|s[m..]| - 1]) by {
        if m < |s| {
          assert s[m..][|s[m..]| - 1] == s[|s| - 1];
        }
      }
      TrailingTextDropped(s[m..], t);
    }
  }

  /** What is left after the first match of such a text is again such a
      text. */
  lemma RestAfterMatch(s: string)
    requires |s| > 0 && !IsTerminator(s[0]) && IsTerminator(s[|s| - 1])
    ensures RunLength(s, false) < |s|
    ensures var rest := s[MatchEnd(s)..]; rest == "" || (!IsTerminator(rest[0]) && IsTerminator(rest[|rest| - 1]))
  {
    var n := RunLength(s, false);
    assert n < |s|;
    var rest := s[MatchEnd(s)..];
    if |rest| > 0 {
      assert rest[|rest| - 1] == s[|s| - 1];
    }
  }

  /** A first piece in front of pieces that put back together give the
      rest of the text. */
  lemma ConcatFront(s: string, m: nat, ms: seq<string>)
    requires m <= |s| && Concat(ms) == s[m..]
    ensures Concat([s[..m]] + ms) == s
  {
    assert ([s[..m]] + ms)[1..] == ms;
    assert s[..m] + s[m..] == s;
  }

  /** The matches put back together give the text, when it starts with a
      non-terminator and ends with a terminator. */
  lemma {:induction false} RegexSentencesConcat(s: string)
    requires s == "" || (!IsTerminator(s[0]) && IsTerminator(s[|s| - 1]))
    ensures Concat(RegexSentences(s)) == s
    decreases |s|
  {
    if |s| > 0 {
      RestAfterMatch(s);
      var m := MatchEnd(s);
      var rest := s[m..];
      RegexSentencesConcat(rest);
      var ms := RegexSentences(rest);
      assert RegexSentences(s) == [s[..m]] + ms;
      ConcatFront(s, m, ms);
    }
  }

  /** `text.match(...) || [text]`: a text without any match is one
      sentence. */
  function TtsSentences(text: string): (r: seq<string>)
    ensures |r| >= 1
    ensures RegexSentences(text) != [] ==> r == RegexSentences(text)
    ensures RegexSentences(text) == [] ==> r == [text]
  {
    var matched := RegexSentences(text);
    if matched != [] then matched else [text]
  }

  // -------------------------------------------------------- length packing

  /** One iteration of the `splitTextByLength` loop: when the sentence does
      not fit behind the current chunk, the current chunk is pushed (even
      when it is empty) and the sentence starts the next one. */
  function LengthStep(st: Packing, sentence: string, maxChunkLength: int): Packing
  {
    if |st.current + sentence| > maxChunkLength then Packing(st.chunks + [st.current], sentence)
    else Packing(st.chunks, st.current + sentence)
  }

  /** The loop state after the given sentences. */
  function LengthPackAll(sentences: seq<string>, maxChunkLength: int): Packing
  {
    if |sentences| == 0 then Packing([], "")
    else LengthStep(LengthPackAll(sentences[..|sentences| - 1], maxChunkLength),
                    sentences[|sentences| - 1], maxChunkLength)
  }

  /** What `splitTextByLength(text, maxChunkLength)` answers: the packed
      sentences, and the current chunk when it is not empty. */
  function SplitByLength(text: string, maxChunkLength: int): seq<string>
  {
    Flush(LengthPackAll(TtsSentences(text), maxChunkLength))
  }

  /** `splitTextByLength(text, maxChunkLength = 2800)`. */
  method SplitTextByLength(text: string, maxChunkLength: int := 2800) returns (chunks: seq<string>)
    ensures chunks == SplitByLength(text, maxChunkLength)
  {
    var sentences := TtsSentences(text);
    chunks := [];
    var current := "";
    for i := 0 to |sentences|
      invariant Packing(chunks, current) == LengthPackAll(sentences[..i], maxChunkLength)
    {
      assert sentences[..i + 1][..i] == sentences[..i];
      var sentence := sentences[i];
      if |current + sentence| > maxChunkLength {
        chunks := chunks + [current];
        current := sentence;
      } else {
        current := current + sentence;
      }
    }
    assert sentences[..|sentences|] == sentences;
    if current != "" {
      chunks := chunks + [current];
    }
  }

  /** The pushed chunks followed by the current one are the sentences so far,
      in order. */
  lemma {:induction false} LengthPackConcat(sentences: seq<string>, maxChunkLength: int)
    ensures var st := LengthPackAll(sentences, maxChunkLength);
      Concat(st.chunks) + st.current == Concat(sentences)
  {
    if |sentences| > 0 {
      var front := sentences[..|sentences| - 1];
      var x := sentences[|sentences| - 1];
      LengthPackConcat(front, maxChunkLength);
      var st := LengthPackAll(front, maxChunkLength);
      assert sentences == front + [x];
      ConcatAppend(front, [x]);
      assert Concat([x]) == x;
      if |st.current + x| > maxChunkLength {
        ConcatAppend(st.chunks, [st.current]);
        assert Concat([st.current]) == st.current;
      }
    }
  }

  /** The chunks put back together are the sentences put back together: the
      packing keeps order and content. */
  lemma SplitByLengthConcat(text: string, maxChunkLength: int)
    ensures Concat(SplitByLength(text, maxChunkLength)) == Concat(TtsSentences(text))
  {
    var st := LengthPackAll(TtsSentences(text), maxChunkLength);
    LengthPackConcat(TtsSentences(text), maxChunkLength);
    if st.current != "" {
      ConcatAppend(st.chunks, [st.current]);
      assert Concat([st.current]) == st.current;
    }
  }

  /** Every pushed chunk, and the current one, is within the limit or is one
      whole sentence. */
  lemma {:induction false} LengthPackBounded(sentences: seq<string>, maxChunkLength: int)
    requires maxChunkLength >= 0
    ensures var st := LengthPackAll(sentences, maxChunkLength);
      (forall c :: c in st.chunks ==> |c| <= maxChunkLength || c in sentences) &&
      (|st.current| <= maxChunkLength || st.current in sentences)
  {
    if |sentences| > 0 {
      var front := sentences[..|sentences| - 1];
      var x := sentences[|sentences| - 1];
      LengthPackBounded(front, maxChunkLength);
      var st := LengthPackAll(front, maxChunkLength);
      assert forall c :: c in front ==> c in sentences;
      assert x in sentences;
      var st' := LengthPackAll(sentences, maxChunkLength);
      if |st.current + x| > maxChunkLength {
        assert st' == Packing(st.chunks + [st.current], x);
        forall c | c in st'.chunks ensures |c| <= maxChunkLength || c in sentences {
          if c !in st.chunks {
            assert c == st.current;
          }
        }
      }
    }
  }

  /** A chunk longer than the limit is one sentence on its own: a chunk
      assembled from two or more sentences is within the limit. */
  lemma SplitByLengthBounded(text: string, maxChunkLength: int)
    requires maxChunkLength >= 0
    ensures forall c :: c in SplitByLength(text, maxChunkLength) ==>
      |c| <= maxChunkLength || c in TtsSentences(text)
  {
    LengthPackBounded(TtsSentences(text), maxChunkLength);
  }

  /** Over non-empty sentences the current chunk is never empty, no pushed
      chunk but the first is empty, and the first is the empty one exactly
      when the first sentence alone is over the limit. */
  lemma {:induction false} LengthPackEmpties(sentences: seq<string>, maxChunkLength: int)
    requires maxChunkLength >= 0
    requires |sentences| > 0
    requires forall i :: 0 <= i < |sentences| ==> sentences[i] != ""
    ensures var st := LengthPackAll(sentences, maxChunkLength);
      st.current != "" &&
      (forall i :: 0 < i < |st.chunks| ==> st.chunks[i] != "") &&
      (|sentences[0]| > maxChunkLength <==> |st.chunks| > 0 && st.chunks[0] == "")
  {
    var front := sentences[..|sentences| - 1];
    var x := sentences[|sentences| - 1];
    if |front| == 0 {
      assert LengthPackAll(front, maxChunkLength) == Packing([], "");
      assert "" + x == x;
    } else {
      assert forall i :: 0 <= i < |front| ==> front[i] == sentences[i];
      LengthPackEmpties(front, maxChunkLength);
    }
  }

  /** `splitTextByLength` on a text with at least one match: the answer is
      empty never; a first chunk `""` appears exactly when the first sentence
      alone is over the limit, and no other chunk is empty. */
  lemma LeadingEmptyChunk(text: string, maxChunkLength: int)
    requires maxChunkLength >= 0
    requires RegexSentences(text) != []
    ensures var cs := SplitByLength(text, maxChunkLength);
      |cs| > 0 &&
      (cs[0] == "" <==> |RegexSentences(text)[0]| > maxChunkLength) &&
      forall i :: 0 < i < |cs| ==> cs[i] != ""
  {
    var ss := RegexSentences(text);
    RegexSentencesShape(text);
    LengthPackEmpties(ss, maxChunkLength);
  }

  /** Packing a single sentence: nothing for the empty text, else the text,
      behind an empty chunk when it is over the limit. */
  lemma PackOne(text: string, maxChunkLength: int)
    requires maxChunkLength >= 0
    ensures Flush(LengthPackAll([text], maxChunkLength)) ==
      if text == "" then [] else if |text| > maxChunkLength then ["", text] else [text]
  {
    assert [text][..0] == [];
    assert LengthPackAll([text], maxChunkLength) == LengthStep(Packing([], ""), text, maxChunkLength);
    assert "" + text == text;
  }

  /** A text without a match is one sentence: nothing for the empty text,
      else the text, behind an empty chunk when it is over the limit. */
  lemma NoMatchFallback(text: string, maxChunkLength: int)
    requires maxChunkLength >= 0
    requires RegexSentences(text) == []
    ensures SplitByLength(text, maxChunkLength) ==
      if text == "" then [] else if |text| > maxChunkLength then ["", text] else [text]
  {
    assert TtsSentences(text) == [text];
    PackOne(text, maxChunkLength);
  }

  /** The text after the last terminator never reaches the speech service. */
  lemma SplitByLengthDropsTail(s: string, t: string, maxChunkLength: int)
    requires s == "" || IsTerminator(s[|s| - 1])
    requires forall k :: 0 <= k < |t| ==> !IsTerminator(t[k])
    requires RegexSentences(s) != []
    ensures SplitByLength(s + t, maxChunkLength) == SplitByLength(s, maxChunkLength)
  {
    TrailingTextDropped(s, t);
  }

  // ------------------------------------------------------- audio buffers

  /** The pieces of one audio stream put into one preallocated buffer, each
      at the offset where the previous one ended. */
  method CombineAudio(pieces: seq<seq<bv8>>) returns (buffer: array<bv8>)
    ensures buffer.Length == TotalLength(pieces)
    ensures buffer[..] == Concat(pieces)
  {
    var totalLength := 0;
    for i := 0 to |pieces|
      invariant totalLength == |Concat(pieces[..i])|
    {
      ConcatAppend(pieces[..i], [pieces[i]]);
      assert Concat([pieces[i]]) == pieces[i];
      assert pieces[..i + 1] == pieces[..i] + [pieces[i]];
      totalLength := totalLength + |pieces[i]|;
    }
    assert pieces[..|pieces|] == pieces;
    ConcatLength(pieces);
    buffer := new bv8[totalLength];
    var offset := 0;
    for i := 0 to |pieces|
      invariant offset == |Concat(pieces[..i])|
      invariant offset <= buffer.Length
      invariant buffer[..offset] == Concat(pieces[..i])
    {
      var piece := pieces[i];
      ConcatAppend(pieces[..i], [piece]);
      assert Concat([piece]) == piece;
      assert pieces[..i + 1] == pieces[..i] + [piece];
      assert pieces == pieces[..i + 1] + pieces[i + 1..];
      ConcatAppend(pieces[..i + 1], pieces[i + 1..]);
      forall k | 0 <= k < |piece| {
        buffer[offset + k] := piece[k];
      }
      assert buffer[..offset + |piece|] == Concat(pieces[..i]) + piece;
      offset := offset + |piece|;
    }
    assert buffer[..] == buffer[..offset];
  }
}
