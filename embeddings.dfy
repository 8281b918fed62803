/** Transcript chunking, the retrieval-count estimate, deduplication of the
    similarity-search results by chunk id, the per-query accumulation loop
    and the per-chunk store.  Embedding vectors and the similarity search are
    external: their outcomes are parameters. */
module Embeddings {
  import opened JsText
  import opened JsValue
  import opened Store

  function Min(a: int, b: int): (m: int)
    ensures m <= a && m <= b && (m == a || m == b)
  {
    if a <= b then a else b
  }

  /** `Math.ceil(n / d)` for whole numbers. */
  function CeilDiv(n: nat, d: nat): (q: nat)
    requires d > 0
    ensures q * d >= n
    ensures q > 0 ==> (q - 1) * d < n
    ensures q == 0 <==> n == 0
    decreases n
  {
    if n == 0 then 0
    else if n <= d then 1
    else
      var q' := CeilDiv(n - d, d);
      assert (q' + 1) * d == q' * d + d;
      q' + 1
  }

  // ---------------------------------------------------------------- chunking

  /** The chunks `chunkTranscript` builds from a word list: consecutive
      groups of `maxWords` words, the last one possibly shorter, each joined
      with single spaces. */
  function WordChunks(words: seq<string>, maxWords: nat): seq<string>
    requires maxWords > 0
    decreases |words|
  {
    if |words| == 0 then []
    else if |words| <= maxWords then [Join(words, " ")]
    else [Join(words[..maxWords], " ")] + WordChunks(words[maxWords..], maxWords)
  }

  /** Peeling off the group that starts at word `i`. */
  lemma WordChunksFrom(words: seq<string>, maxWords: nat, i: nat)
    requires maxWords > 0 && i < |words|
    ensures WordChunks(words[i..], maxWords) ==
      [Join(words[i..Min(i + maxWords, |words|)], " ")] + WordChunks(words[Min(i + maxWords, |words|)..], maxWords)
  {
    var rest := words[i..];
    if |rest| <= maxWords {
      assert rest == words[i..|words|];
      assert words[|words|..] == [];
    } else {
      assert rest[..maxWords] == words[i..i + maxWords];
      assert rest[maxWords..] == words[i + maxWords..];
    }
  }

  /** `chunkTranscript(text, maxWords)`: split on single spaces, then a loop
      that slices `maxWords` words at a time and joins each slice with `" "`.
      Joining the chunks with `" "` gives back `text`. */
  method ChunkTranscript(text: string, maxWords: nat := 400) returns (chunks: seq<string>)
    requires maxWords > 0
    ensures chunks == WordChunks(Split(text, ' '), maxWords)
    ensures Join(chunks, " ") == text
    ensures |chunks| == CeilDiv(|Split(text, ' ')|, maxWords) && |chunks| >= 1
  {
    var words := Split(text, ' ');
    chunks := [];
    var i := 0;
    while i < |words|
      invariant chunks + WordChunks(words[Min(i, |words|)..], maxWords) == WordChunks(words, maxWords)
    {
      WordChunksFrom(words, maxWords, i);
      var end := Min(i + maxWords, |words|);
      var piece := Join(words[i..end], " ");
      AppendAssoc(chunks, [piece], WordChunks(words[end..], maxWords));
      chunks := chunks + [piece];
      i := i + maxWords;
      assert Min(i, |words|) == end;
    }
    assert words[Min(i, |words|)..] == [];
    assert chunks == WordChunks(words, maxWords);
    ChunksMeaning(text, maxWords);
  }

  /** What the chunks of a text are: they join back to it, and there are
      as many as the word groups, at least one. */
  lemma ChunksMeaning(text: string, maxWords: nat)
    requires maxWords > 0
    ensures Join(WordChunks(Split(text, ' '), maxWords), " ") == text
    ensures |WordChunks(Split(text, ' '), maxWords)| == CeilDiv(|Split(text, ' ')|, maxWords) >= 1
  {
    ChunksRejoin(text, maxWords);
    ChunkCount(Split(text, ' '), maxWords);
  }

  /** Joining the chunks with `" "` joins the words with `" "`. */
  lemma {:induction false} WordChunksJoin(words: seq<string>, maxWords: nat)
    requires maxWords > 0
    ensures Join(WordChunks(words, maxWords), " ") == Join(words, " ")
    decreases |words|
  {
    if |words| > maxWords {
      WordChunksJoin(words[maxWords..], maxWords);
      assert words == words[..maxWords] + words[maxWords..];
      JoinAppend(words[..maxWords], words[maxWords..], " ");
      var tail := WordChunks(words[maxWords..], maxWords);
      assert |tail| > 0;
      JoinAppend([Join(words[..maxWords], " ")], tail, " ");
    }
  }

  /** The round trip: the chunks of `text`, joined with `" "`, are `text`. */
  lemma ChunksRejoin(text: string, maxWords: nat)
    requires maxWords > 0
    ensures Join(WordChunks(Split(text, ' '), maxWords), " ") == text
  {
    WordChunksJoin(Split(text, ' '), maxWords);
    SplitJoin(text, ' ');
  }

  /** There are `ceil(|words| / maxWords)` chunks. */
  lemma {:induction false} ChunkCount(words: seq<string>, maxWords: nat)
    requires maxWords > 0
    ensures |WordChunks(words, maxWords)| == CeilDiv(|words|, maxWords)
    decreases |words|
  {
    if |words| > maxWords {
      ChunkCount(words[maxWords..], maxWords);
    }
  }

  /** Chunk `k` is the `k`-th group of `maxWords` words (the last group may
      be shorter). */
  lemma {:induction false} ChunkAt(words: seq<string>, maxWords: nat, k: nat)
    requires maxWords > 0
    requires k < |WordChunks(words, maxWords)|
    ensures k * maxWords < |words|
    ensures WordChunks(words, maxWords)[k] ==
      Join(words[k * maxWords..Min(k * maxWords + maxWords, |words|)], " ")
    decreases |words|
  {
    if |words| > maxWords && k > 0 {
      var rest := words[maxWords..];
      ChunkAt(rest, maxWords, k - 1);
      var a := (k - 1) * maxWords;
      MulPred(k, maxWords);
      var b := Min(a + maxWords, |rest|);
      SliceShift(words, maxWords, a, b);
    } else if |words| <= maxWords {
      assert words[0..|words|] == words;
    }
  }

  /** A run of separator-free words, joined with `" "`, splits back into
      that run. */
  lemma GroupSplits(words: seq<string>, lo: int, hi: int)
    requires 0 <= lo < hi <= |words|
    requires forall i :: 0 <= i < |words| ==> ' ' !in words[i]
    ensures Split(Join(words[lo..hi], " "), ' ') == words[lo..hi]
  {
    var group := words[lo..hi];
    assert forall i :: 0 <= i < |group| ==> group[i] == words[lo + i];
    JoinSplit(group, ' ');
  }

  /** The chunks of separator-free words: chunk `k` splits back into its
      group of words, which is full unless it is the last. */
  lemma ChunkPieces(words: seq<string>, maxWords: nat, k: nat)
    requires maxWords > 0
    requires k < |WordChunks(words, maxWords)|
    requires forall i :: 0 <= i < |words| ==> ' ' !in words[i]
    ensures k * maxWords < |words|
    ensures Split(WordChunks(words, maxWords)[k], ' ') == words[k * maxWords..Min(k * maxWords + maxWords, |words|)]
    ensures var pieces := |Split(WordChunks(words, maxWords)[k], ' ')|;
      (k < |WordChunks(words, maxWords)| - 1 ==> pieces == maxWords) && 1 <= pieces <= maxWords
  {
    var lo := k * maxWords;
    var hi := Min(lo + maxWords, |words|);
    ChunkAt(words, maxWords, k);
    NatProduct(k, maxWords);
    GroupSplits(words, lo, hi);
    if k < |WordChunks(words, maxWords)| - 1 {
      ChunkAt(words, maxWords, k + 1);
      assert (k + 1) * maxWords == lo + maxWords;
    }
  }

  lemma MulPred(k: nat, m: nat)
    requires k > 0
    ensures (k - 1) * m + m == k * m
  {
  }

  /** A slice of a suffix is a slice of the whole. */
  lemma SliceShift<T>(xs: seq<T>, m: nat, a: nat, b: nat)
    requires m <= |xs| && a <= b <= |xs| - m
    ensures xs[m..][a..b] == xs[m + a..m + b]
  {
  }

  lemma NatProduct(a: nat, b: nat)
    ensures a * b >= 0
  {
  }

  /** Every chunk except the last holds exactly `maxWords` space-separated
      pieces and the last holds between 1 and `maxWords`; splitting chunk `k`
      on `" "` gives back exactly its words. */
  lemma PiecesPerChunk(text: string, maxWords: nat, k: nat)
    requires maxWords > 0
    requires k < |WordChunks(Split(text, ' '), maxWords)|
    ensures k * maxWords < |Split(text, ' ')|
    ensures var words := Split(text, ' ');
      Split(WordChunks(words, maxWords)[k], ' ') == words[k * maxWords..Min(k * maxWords + maxWords, |words|)]
    ensures var n := |WordChunks(Split(text, ' '), maxWords)|;
      var pieces := |Split(WordChunks(Split(text, ' '), maxWords)[k], ' ')|;
      (k < n - 1 ==> pieces == maxWords) && 1 <= pieces <= maxWords
  {
    ChunkPieces(Split(text, ' '), maxWords, k);
  }

  /** An empty transcript is one empty chunk. */
  lemma EmptyTranscriptChunks()
    ensures WordChunks(Split("", ' '), 400) == [""]
  {
    assert Split("", ' ') == [""];
  }

  /** The words of "a b c d e". */
  lemma FiveWords()
    ensures Split("a b c d e", ' ') == ["a", "b", "c", "d", "e"]
  {
    var words := ["a", "b", "c", "d", "e"];
    assert Join(words, [' ']) == "a b c d e";
    JoinSplit(words, ' ');
  }

  /** `"a b c d e"` in chunks of two words is `["a b", "c d", "e"]`. */
  lemma FiveWordsInPairs()
    ensures WordChunks(Split("a b c d e", ' '), 2) == ["a b", "c d", "e"]
  {
    FiveWords();
    PairsOfFive(["a", "b", "c", "d", "e"]);
  }

  lemma PairsOfFive(words: seq<string>)
    requires words == ["a", "b", "c", "d", "e"]
    ensures WordChunks(words, 2) == ["a b", "c d", "e"]
  {
    assert words[..2] == ["a", "b"] && words[2..] == ["c", "d", "e"];
    assert Join(["a", "b"], " ") == "a b";
    LastThreeInPairs();
  }

  lemma LastThreeInPairs()
    ensures WordChunks(["c", "d", "e"], 2) == ["c d", "e"]
  {
    assert ["c", "d", "e"][..2] == ["c", "d"] && ["c", "d", "e"][2..] == ["e"];
    assert WordChunks(["e"], 2) == ["e"];
    assert Join(["c", "d"], " ") == "c d";
  }

  // ------------------------------------------------------- retrieval count

  /** `getNumChunksToRetrieve(transcript, chunkSize, maxChunks)`: about 30 %
      of the estimated number of chunks, rounded up, capped at `maxChunks`.
      With `chunkSize == 0` the estimate is `Infinity` and the cap is
      answered.  The floating-point product `estimate * 0.3` is taken as the
      exact `3 * estimate / 10`, which it rounds to a value with the same
      ceiling. */
  function NumChunksToRetrieve(transcript: string, chunkSize: nat := 400, maxChunks: int := 30): (r: int)
    ensures r <= maxChunks
    ensures maxChunks >= 1 ==> r >= 1
    ensures chunkSize == 0 ==> r == maxChunks
    ensures chunkSize > 0 ==>
      var estimate := CeilDiv(|Split(transcript, ' ')|, chunkSize);
      (r < maxChunks ==> 10 * r >= 3 * estimate && 10 * (r - 1) < 3 * estimate) &&
      (r == maxChunks ==> 10 * (maxChunks - 1) < 3 * estimate)
  {
    if chunkSize == 0 then maxChunks
    else
      var estimate := CeilDiv(|Split(transcript, ' ')|, chunkSize);
      Min(CeilDiv(3 * estimate, 10), maxChunks)
  }

  /** A 4000-word transcript is estimated at 10 chunks and 3 are retrieved. */
  lemma FourThousandWords(transcript: string)
    requires |Split(transcript, ' ')| == 4000
    ensures NumChunksToRetrieve(transcript) == 3
  {
  }

  // ----------------------------------------------------------- deduplication

  /** A row answered by the `match_transcript_chunks` search. */
  datatype ChunkMatch = ChunkMatch(id: string, content: string, similarity: real)

  /** The first position holding `id`, or `|xs|` when there is none. */
  function FirstIndex(xs: seq<ChunkMatch>, id: string): (k: nat)
    ensures k <= |xs|
    ensures k < |xs| ==> xs[k].id == id
    ensures forall j :: 0 <= j < k ==> xs[j].id != id
  {
    if |xs| == 0 then 0
    else if xs[0].id == id then 0
    else 1 + FirstIndex(xs[1..], id)
  }

  /** The last position holding `id`, or `-1` when there is none. */
  function LastIndex(xs: seq<ChunkMatch>, id: string): (k: int)
    ensures -1 <= k < |xs|
    ensures k >= 0 ==> xs[k].id == id
    ensures forall j :: k < j < |xs| ==> xs[j].id != id
  {
    if |xs| == 0 then -1
    else if xs[|xs| - 1].id == id then |xs| - 1
    else LastIndex(xs[..|xs| - 1], id)
  }

  /** `map.set(c.id, c)` on a JavaScript `Map` seen as its entry list: an
      existing key keeps its position and takes the new value, a new key is
      appended. */
  function MapSet(entries: seq<ChunkMatch>, c: ChunkMatch): seq<ChunkMatch>
  {
    var k := FirstIndex(entries, c.id);
    if k < |entries| then entries[k := c] else entries + [c]
  }

  /** `Array.from(new Map(xs.map(c => [c.id, c])).values())`. */
  function DedupById(xs: seq<ChunkMatch>): seq<ChunkMatch>
  {
    if |xs| == 0 then []
    else MapSet(DedupById(xs[..|xs| - 1]), xs[|xs| - 1])
  }

  ghost predicate DistinctIds(xs: seq<ChunkMatch>)
  {
    forall i, j :: 0 <= i < j < |xs| ==> xs[i].id != xs[j].id
  }

  ghost function Ids(xs: seq<ChunkMatch>): set<string>
  {
    set i | 0 <= i < |xs| :: xs[i].id
  }

  /** What the deduplicated list is: ids pairwise distinct, the same ids as
      the input, listed in the order of their first occurrence, each entry
      the LAST input record carrying its id. */
  ghost predicate IsDedupOf(out: seq<ChunkMatch>, xs: seq<ChunkMatch>)
  {
    DistinctIds(out) && Ids(out) == Ids(xs) && FirstOccurrenceOrder(out, xs) && LastRecords(out, xs)
  }

  /** Entries appear in the order in which their ids first occur in `xs`. */
  ghost predicate FirstOccurrenceOrder(out: seq<ChunkMatch>, xs: seq<ChunkMatch>)
  {
    forall i, j :: 0 <= i < j < |out| ==> FirstIndex(xs, out[i].id) < FirstIndex(xs, out[j].id)
  }

  /** Each entry is the last record of `xs` that carries its id. */
  ghost predicate LastRecords(out: seq<ChunkMatch>, xs: seq<ChunkMatch>)
  {
    forall i :: 0 <= i < |out| ==> 0 <= LastIndex(xs, out[i].id) && out[i] == xs[LastIndex(xs, out[i].id)]
  }

  /** Where `id` first occurs once `c` is appended. */
  lemma {:induction false} FirstIndexSnoc(xs: seq<ChunkMatch>, c: ChunkMatch, id: string)
    ensures FirstIndex(xs + [c], id) ==
      if FirstIndex(xs, id) < |xs| then FirstIndex(xs, id)
      else if c.id == id then |xs| else |xs| + 1
    decreases |xs|
  {
    if |xs| > 0 {
      assert (xs + [c])[0] == xs[0];
      assert (xs + [c])[1..] == xs[1..] + [c];
      FirstIndexSnoc(xs[1..], c, id);
    }
  }

  lemma LastIndexSnoc(xs: seq<ChunkMatch>, c: ChunkMatch, id: string)
    ensures LastIndex(xs + [c], id) == if id == c.id then |xs| else LastIndex(xs, id)
  {
    assert (xs + [c])[..|xs|] == xs;
  }

  lemma IdsSnoc(xs: seq<ChunkMatch>, c: ChunkMatch)
    ensures Ids(xs + [c]) == Ids(xs) + {c.id}
  {
    var ys := xs + [c];
    forall id | id in Ids(ys) ensures id in Ids(xs) + {c.id} {
      var i :| 0 <= i < |ys| && ys[i].id == id;
      if i < |xs| { assert xs[i] == ys[i]; }
    }
    forall id | id in Ids(xs) ensures id in Ids(ys) {
      var i :| 0 <= i < |xs| && xs[i].id == id;
      assert ys[i] == xs[i];
    }
    assert ys[|xs|] == c;
  }

  /** Lists with the same id at every position have the same ids. */
  lemma IdsPointwise(a: seq<ChunkMatch>, b: seq<ChunkMatch>)
    requires |a| == |b| && forall i :: 0 <= i < |a| ==> a[i].id == b[i].id
    ensures Ids(a) == Ids(b)
  {
    forall id | id in Ids(a) ensures id in Ids(b) {
      var i :| 0 <= i < |a| && a[i].id == id;
      assert b[i].id == id;
    }
    forall id | id in Ids(b) ensures id in Ids(a) {
      var i :| 0 <= i < |b| && b[i].id == id;
      assert a[i].id == id;
    }
  }

  lemma IdInIds(xs: seq<ChunkMatch>, id: string)
    ensures id in Ids(xs) <==> FirstIndex(xs, id) < |xs|
  {
    if FirstIndex(xs, id) < |xs| {
      assert xs[FirstIndex(xs, id)].id == id;
    }
  }

  /** An id already present: its entry takes the new record in place. */
  lemma MapSetExisting(out: seq<ChunkMatch>, xs: seq<ChunkMatch>, c: ChunkMatch)
    requires IsDedupOf(out, xs)
    requires FirstIndex(out, c.id) < |out|
    ensures IsDedupOf(MapSet(out, c), xs + [c])
  {
    var k := FirstIndex(out, c.id);
    assert MapSet(out, c) == out[k := c];
    assert forall i :: 0 <= i < |out| ==> out[k := c][i].id == out[i].id;
    ExistingIds(out, xs, c);
    ExistingOrder(out, xs, c);
    ExistingLast(out, xs, c);
  }

  lemma ExistingIds(out: seq<ChunkMatch>, xs: seq<ChunkMatch>, c: ChunkMatch)
    requires IsDedupOf(out, xs)
    requires FirstIndex(out, c.id) < |out|
    ensures Ids(out[FirstIndex(out, c.id) := c]) == Ids(xs + [c])
  {
    var out' := out[FirstIndex(out, c.id) := c];
    IdsPointwise(out, out');
    IdsSnoc(xs, c);
    assert c.id in Ids(out);
  }

  lemma ExistingOrder(out: seq<ChunkMatch>, xs: seq<ChunkMatch>, c: ChunkMatch)
    requires IsDedupOf(out, xs)
    requires FirstIndex(out, c.id) < |out|
    ensures FirstOccurrenceOrder(out[FirstIndex(out, c.id) := c], xs + [c])
  {
    var out' := out[FirstIndex(out, c.id) := c];
    forall i | 0 <= i < |out| ensures FirstIndex(xs + [c], out'[i].id) == FirstIndex(xs, out[i].id) {
      assert out'[i].id == out[i].id;
      assert out[i].id in Ids(out);
      IdInIds(xs, out[i].id);
      FirstIndexSnoc(xs, c, out[i].id);
    }
  }

  lemma ExistingLast(out: seq<ChunkMatch>, xs: seq<ChunkMatch>, c: ChunkMatch)
    requires IsDedupOf(out, xs)
    requires FirstIndex(out, c.id) < |out|
    ensures LastRecords(out[FirstIndex(out, c.id) := c], xs + [c])
  {
    var k := FirstIndex(out, c.id);
    var out' := out[k := c];
    var ys := xs + [c];
    forall i | 0 <= i < |out'|
      ensures 0 <= LastIndex(ys, out'[i].id) && out'[i] == ys[LastIndex(ys, out'[i].id)]
    {
      LastIndexSnoc(xs, c, out'[i].id);
      if i != k {
        assert out[i].id != out[k].id;
      }
    }
  }

  /** A new id: its record is appended. */
  lemma MapSetNew(out: seq<ChunkMatch>, xs: seq<ChunkMatch>, c: ChunkMatch)
    requires IsDedupOf(out, xs)
    requires FirstIndex(out, c.id) == |out|
    ensures IsDedupOf(MapSet(out, c), xs + [c])
  {
    assert MapSet(out, c) == out + [c];
    assert c.id !in Ids(xs) by { IdInIds(out, c.id); }
    assert Ids(out + [c]) == Ids(xs + [c]) by {
      IdsSnoc(xs, c);
      IdsSnoc(out, c);
    }
    NewOrder(out, xs, c);
    NewLast(out, xs, c);
    NewDistinct(out, xs, c);
  }

  lemma NewOrder(out: seq<ChunkMatch>, xs: seq<ChunkMatch>, c: ChunkMatch)
    requires IsDedupOf(out, xs)
    requires c.id !in Ids(xs)
    ensures FirstOccurrenceOrder(out + [c], xs + [c])
  {
    var out' := out + [c];
    IdInIds(xs, c.id);
    FirstIndexSnoc(xs, c, c.id);
    forall i | 0 <= i < |out| ensures FirstIndex(xs + [c], out'[i].id) == FirstIndex(xs, out[i].id) < |xs| {
      assert out'[i] == out[i];
      assert out[i].id in Ids(out);
      IdInIds(xs, out[i].id);
      FirstIndexSnoc(xs, c, out[i].id);
    }
  }

  lemma NewLast(out: seq<ChunkMatch>, xs: seq<ChunkMatch>, c: ChunkMatch)
    requires IsDedupOf(out, xs)
    requires c.id !in Ids(xs)
    ensures LastRecords(out + [c], xs + [c])
  {
    var out' := out + [c];
    var ys := xs + [c];
    forall i | 0 <= i < |out'|
      ensures 0 <= LastIndex(ys, out'[i].id) && out'[i] == ys[LastIndex(ys, out'[i].id)]
    {
      LastIndexSnoc(xs, c, out'[i].id);
      if i < |out| {
        assert out'[i] == out[i];
        assert out[i].id in Ids(out);
      }
    }
  }

  lemma NewDistinct(out: seq<ChunkMatch>, xs: seq<ChunkMatch>, c: ChunkMatch)
    requires IsDedupOf(out, xs)
    requires c.id !in Ids(xs)
    ensures DistinctIds(out + [c])
  {
    var out' := out + [c];
    forall i, j | 0 <= i < j < |out'| ensures out'[i].id != out'[j].id {
      if j == |out| {
        assert out'[i] == out[i];
        assert out[i].id in Ids(out);
      } else {
        assert out'[i] == out[i] && out'[j] == out[j];
      }
    }
  }

  /** The deduplication step keeps the characterisation. */
  lemma MapSetStep(out: seq<ChunkMatch>, xs: seq<ChunkMatch>, c: ChunkMatch)
    requires IsDedupOf(out, xs)
    ensures IsDedupOf(MapSet(out, c), xs + [c])
  {
    if FirstIndex(out, c.id) < |out| {
      MapSetExisting(out, xs, c);
    } else {
      MapSetNew(out, xs, c);
    }
  }

  /** The deduplication is exactly what `IsDedupOf` describes. */
  lemma {:induction false} DedupIsDedup(xs: seq<ChunkMatch>)
    ensures IsDedupOf(DedupById(xs), xs)
    decreases |xs|
  {
    if |xs| == 0 {
    } else {
      var front := xs[..|xs| - 1];
      DedupIsDedup(front);
      MapSetStep(DedupById(front), front, xs[|xs| - 1]);
      assert front + [xs[|xs| - 1]] == xs;
    }
  }

  /** Dropping the last entry of a list with distinct ids keeps them
      distinct, and the last id is not among the others. */
  lemma DistinctFront(xs: seq<ChunkMatch>)
    requires |xs| > 0 && DistinctIds(xs)
    ensures DistinctIds(xs[..|xs| - 1]) && xs[|xs| - 1].id !in Ids(xs[..|xs| - 1])
  {
    var front := xs[..|xs| - 1];
    forall i, j | 0 <= i < j < |front| ensures front[i].id != front[j].id {
      assert front[i] == xs[i] && front[j] == xs[j];
    }
    forall i | 0 <= i < |front| ensures front[i].id != xs[|xs| - 1].id {
      assert front[i] == xs[i];
    }
  }

  lemma {:induction false} DistinctSize(xs: seq<ChunkMatch>)
    requires DistinctIds(xs)
    ensures |Ids(xs)| == |xs|
    decreases |xs|
  {
    if |xs| > 0 {
      var front := xs[..|xs| - 1];
      DistinctFront(xs);
      DistinctSize(front);
      IdsSnoc(front, xs[|xs| - 1]);
      assert front + [xs[|xs| - 1]] == xs;
    }
  }

  /** A list with distinct ids is its own deduplication. */
  lemma {:induction false} DedupOfDistinct(xs: seq<ChunkMatch>)
    requires DistinctIds(xs)
    ensures DedupById(xs) == xs
    decreases |xs|
  {
    if |xs| > 0 {
      var front := xs[..|xs| - 1];
      var c := xs[|xs| - 1];
      assert DistinctIds(front) by {
        forall i, j | 0 <= i < j < |front| ensures front[i].id != front[j].id {
          assert front[i] == xs[i] && front[j] == xs[j];
        }
      }
      DedupOfDistinct(front);
      forall i | 0 <= i < |front| ensures front[i].id != c.id {
        assert front[i] == xs[i];
      }
      assert front + [c] == xs;
    }
  }

  /** Deduplication never lengthens the list, and doing it twice changes
      nothing. */
  lemma DedupShortensAndIsIdempotent(xs: seq<ChunkMatch>)
    ensures |DedupById(xs)| <= |xs|
    ensures DedupById(DedupById(xs)) == DedupById(xs)
  {
    DedupIsDedup(xs);
    var out := DedupById(xs);
    DistinctSize(out);
    assert Ids(xs) <= set i | 0 <= i < |xs| :: xs[i].id;
    IdsBound(xs);
    DedupOfDistinct(out);
  }

  lemma IdsBound(xs: seq<ChunkMatch>)
    ensures |Ids(xs)| <= |xs|
    decreases |xs|
  {
    if |xs| > 0 {
      var front := xs[..|xs| - 1];
      IdsBound(front);
      IdsSnoc(front, xs[|xs| - 1]);
      assert front + [xs[|xs| - 1]] == xs;
    }
  }

  // --------------------------------------------------- query accumulation

  /** What one query of `getRelevantChunks` ran into: its embedding call
      threw (the exception propagates out of the loop), the similarity RPC
      answered an error (logged, query skipped), or it answered rows
      (possibly `null`). */
  datatype QueryOutcome = EmbeddingThrows | RpcError | RpcData(rows: Option<seq<ChunkMatch>>)

  /** One `match_transcript_chunks` call as issued. */
  datatype RpcCall = RpcCall(query: string, matchCount: int, videoId: string)

  /** The retrieval's result: the deduplicated rows, or the exception. */
  datatype Retrieval = Retrieved(chunks: seq<ChunkMatch>) | RetrievalThrows

  function RowsOf(o: QueryOutcome): seq<ChunkMatch>
  {
    if o.RpcData? && o.rows.Some? then o.rows.value else []
  }

  /** The rows pushed into `allChunks`, in query order. */
  function Gathered(outcomes: seq<QueryOutcome>): seq<ChunkMatch>
  {
    if |outcomes| == 0 then []
    else Gathered(outcomes[..|outcomes| - 1]) + RowsOf(outcomes[|outcomes| - 1])
  }

  /** Accumulation distributes over consecutive runs of queries. */
  lemma {:induction false} GatheredAppend(a: seq<QueryOutcome>, b: seq<QueryOutcome>)
    ensures Gathered(a + b) == Gathered(a) + Gathered(b)
    decreases |b|
  {
    if |b| > 0 {
      GatheredAppend(a, b[..|b| - 1]);
      assert (a + b)[..|a + b| - 1] == a + b[..|b| - 1];
    } else {
      assert a + b == a;
    }
  }

  /** A query whose RPC errors, or answers no data, contributes nothing. */
  lemma FailedQueryContributesNothing(a: seq<QueryOutcome>, o: QueryOutcome, b: seq<QueryOutcome>)
    requires o == RpcError || o == RpcData(None)
    ensures Gathered(a + [o] + b) == Gathered(a) + Gathered(b)
  {
    assert Gathered([o]) == [] by {
      assert [o][..0] == [];
    }
    GatheredAppend(a, [o]);
    assert Gathered(a + [o]) == Gathered(a);
    GatheredAppend(a + [o], b);
  }

  /** The outcomes of the queries, in order. */
  function OutcomesOf(queries: seq<string>, outcome: nat -> QueryOutcome): (os: seq<QueryOutcome>)
    ensures |os| == |queries| && forall i :: 0 <= i < |os| ==> os[i] == outcome(i)
  {
    seq(|queries|, (i: int) requires 0 <= i => outcome(i))
  }

  /** The number of queries before the first one whose embedding throws. */
  function FirstThrow(os: seq<QueryOutcome>): (k: nat)
    ensures k <= |os|
    ensures forall j :: 0 <= j < k ==> os[j] != EmbeddingThrows
    ensures k < |os| ==> os[k] == EmbeddingThrows
  {
    if |os| == 0 then 0
    else if os[0] == EmbeddingThrows then 0
    else 1 + FirstThrow(os[1..])
  }

  function CallsFor(queries: seq<string>, matchCount: int, videoId: string): (calls: seq<RpcCall>)
    ensures |calls| == |queries|
    ensures forall i :: 0 <= i < |calls| ==> calls[i] == RpcCall(queries[i], matchCount, videoId)
  {
    seq(|queries|, i requires 0 <= i < |queries| => RpcCall(queries[i], matchCount, videoId))
  }

  /** `getRelevantChunks` as a function of the per-query outcomes: the RPC
      calls it issues, and what it answers. */
  function Retrieve(queries: seq<string>, videoId: string, transcript: string,
                    outcome: nat -> QueryOutcome): (Retrieval, seq<RpcCall>)
  {
    var os := OutcomesOf(queries, outcome);
    var k := FirstThrow(os);
    var calls := CallsFor(queries[..k], NumChunksToRetrieve(transcript), videoId);
    if k < |queries| then (RetrievalThrows, calls)
    else (Retrieved(DedupById(Gathered(os))), calls)
  }

  /** `getRelevantChunks(queries, videoId, transcript)`: one embedding and
      one similarity RPC per query, in order, each asking for
      `getNumChunksToRetrieve(transcript)` matches; RPC errors skip the
      query, an embedding exception ends the whole retrieval; the gathered
      rows are deduplicated by id. */
  method GetRelevantChunks(queries: seq<string>, videoId: string, transcript: string,
                           outcome: nat -> QueryOutcome)
    returns (r: Retrieval, calls: seq<RpcCall>)
    ensures (r, calls) == Retrieve(queries, videoId, transcript, outcome)
    ensures r.Retrieved? <==> forall i :: 0 <= i < |queries| ==> outcome(i) != EmbeddingThrows
    ensures r.Retrieved? ==> r.chunks == DedupById(Gathered(OutcomesOf(queries, outcome)))
    ensures forall i :: 0 <= i < |calls| ==>
      calls[i] == RpcCall(queries[i], NumChunksToRetrieve(transcript), videoId)
    ensures r.Retrieved? ==> |calls| == |queries|
  {
    ghost var os := OutcomesOf(queries, outcome);
    var numChunks := NumChunksToRetrieve(transcript);
    var all: seq<ChunkMatch> := [];
    calls := [];
    var i := 0;
    while i < |queries|
      invariant 0 <= i <= |queries|
      invariant forall j :: 0 <= j < i ==> outcome(j) != EmbeddingThrows
      invariant all == Gathered(os[..i])
      invariant calls == CallsFor(queries[..i], numChunks, videoId)
    {
      var o := outcome(i);
      if o == EmbeddingThrows {
        assert FirstThrow(os) == i by {
          assert forall j :: 0 <= j < i ==> os[j] != EmbeddingThrows;
        }
        r := RetrievalThrows;
        return;
      }
      calls := calls + [RpcCall(queries[i], numChunks, videoId)];
      if o.RpcData? && o.rows.Some? {
        all := all + o.rows.value;
      }
      assert os[..i + 1][..i] == os[..i];
      i := i + 1;
    }
    assert os[..i] == os;
    assert queries[..i] == queries;
    assert FirstThrow(os) == |queries| by {
      assert forall j :: 0 <= j < |queries| ==> os[j] != EmbeddingThrows;
    }
    r := Retrieved(DedupById(all));
  }

  /** Each retrieved chunk as a list item: `"- " + content.trim()`. */
  function Rendered(cs: seq<ChunkMatch>): (lines: seq<string>)
    ensures |lines| == |cs|
    ensures forall i :: 0 <= i < |cs| ==> lines[i] == "- " + Trim(cs[i].content)
  {
    seq(|cs|, i requires 0 <= i < |cs| => "- " + Trim(cs[i].content))
  }

  /** `chunks.map((c) => `- ${c.content.trim()}`).join("\n\n")`, the text the
      generators see: empty exactly when nothing was retrieved. */
  function FormatChunks(cs: seq<ChunkMatch>): (r: string)
    ensures r == "" <==> |cs| == 0
    ensures |cs| > 0 ==> |r| >= 2 && r[..2] == "- "
  {
    var lines := Rendered(cs);
    if |lines| == 0 then ""
    else
      assert lines[0][..2] == "- ";
      JoinStartsWithFirst(lines, "\n\n");
      Join(lines, "\n\n")
  }

  // ------------------------------------------------------------ chunk store

  /** What happened to one chunk in `storeChunksInSupabase`: its embedding
      failed (no insert is issued), or it was inserted with this outcome. */
  datatype ChunkOutcome = EmbeddingFailed | Insert(outcome: WriteOutcome)

  /** The rows that reach `transcript_chunks` for the chunks `cs`. */
  function StoredRows(videoId: string, cs: seq<string>, outcome: nat -> ChunkOutcome): seq<ChunkRow>
  {
    if |cs| == 0 then []
    else
      var i := |cs| - 1;
      StoredRows(videoId, cs[..i], outcome) +
        (if outcome(i) == Insert(Written) then [ChunkRow(videoId, i, cs[i])] else [])
  }

  /** The inserts issued for the chunks `cs`. */
  function ChunkWrites(videoId: string, cs: seq<string>, outcome: nat -> ChunkOutcome): seq<Write>
  {
    if |cs| == 0 then []
    else
      var i := |cs| - 1;
      ChunkWrites(videoId, cs[..i], outcome) +
        (if outcome(i).Insert? then [ChunkInsert(videoId, i)] else [])
  }

  /** The rows and the writes of one more chunk. */
  lemma StoreStep(videoId: string, cs: seq<string>, outcome: nat -> ChunkOutcome, i: nat)
    requires i < |cs|
    ensures StoredRows(videoId, cs[..i + 1], outcome) == StoredRows(videoId, cs[..i], outcome) +
      (if outcome(i) == Insert(Written) then [ChunkRow(videoId, i, cs[i])] else [])
    ensures ChunkWrites(videoId, cs[..i + 1], outcome) == ChunkWrites(videoId, cs[..i], outcome) +
      (if outcome(i).Insert? then [ChunkInsert(videoId, i)] else [])
  {
    assert cs[..i + 1][..i] == cs[..i];
  }

  /** Every stored row for chunk `i` has `chunk_index = i` and
      `content = chunks[i]`, and a chunk is stored exactly when its own
      embedding and insert succeeded, whatever happened to the others. */
  lemma {:induction false} StoredRowsExact(videoId: string, cs: seq<string>, outcome: nat -> ChunkOutcome)
    ensures forall r :: r in StoredRows(videoId, cs, outcome) ==>
      r.videoId == videoId && r.chunkIndex < |cs| && r.content == cs[r.chunkIndex] &&
      outcome(r.chunkIndex) == Insert(Written)
    ensures forall i :: 0 <= i < |cs| && outcome(i) == Insert(Written) ==>
      ChunkRow(videoId, i, cs[i]) in StoredRows(videoId, cs, outcome)
    decreases |cs|
  {
    if |cs| > 0 {
      var n := |cs| - 1;
      StoredRowsExact(videoId, cs[..n], outcome);
      forall i | 0 <= i < n ensures cs[..n][i] == cs[i] { }
    }
  }

  /** `storeChunksInSupabase(videoId, transcript)`: chunk the transcript
      (400 words each) and, for each chunk `i`, embed it and insert
      `{ video_id, chunk_index: i, content }`; a failure on one chunk is
      caught and does not stop the others.  Chunks are handled in index
      order here; the source runs them concurrently. */
  method StoreChunks(db: Database, videoId: string, transcript: string, outcome: nat -> ChunkOutcome)
    modifies db`chunks, db`log
    ensures db.chunks == old(db.chunks) + StoredRows(videoId, WordChunks(Split(transcript, ' '), 400), outcome)
    ensures db.log == old(db.log) + ChunkWrites(videoId, WordChunks(Split(transcript, ' '), 400), outcome)
  {
    var chunks := ChunkTranscript(transcript);
    StoreChunkList(db, videoId, chunks, outcome);
  }

  /** One chunk of `storeChunksInSupabase`: its insert, unless its
      embedding failed; the row lands when the insert succeeds. */
  method StoreOne(db: Database, videoId: string, chunks: seq<string>, outcome: nat -> ChunkOutcome, i: nat)
    requires i < |chunks|
    modifies db`chunks, db`log
    ensures db.chunks == old(db.chunks) +
      (if outcome(i) == Insert(Written) then [ChunkRow(videoId, i, chunks[i])] else [])
    ensures db.log == old(db.log) + (if outcome(i).Insert? then [ChunkInsert(videoId, i)] else [])
  {
    var o := outcome(i);
    if o.Insert? {
      db.InsertChunk(ChunkRow(videoId, i, chunks[i]), o.outcome);
    }
  }

  /** The loop of `storeChunksInSupabase` over the chunks. */
  method StoreChunkList(db: Database, videoId: string, chunks: seq<string>, outcome: nat -> ChunkOutcome)
    modifies db`chunks, db`log
    ensures db.chunks == old(db.chunks) + StoredRows(videoId, chunks, outcome)
    ensures db.log == old(db.log) + ChunkWrites(videoId, chunks, outcome)
  {
    for i := 0 to |chunks|
      invariant db.chunks == old(db.chunks) + StoredRows(videoId, chunks[..i], outcome)
      invariant db.log == old(db.log) + ChunkWrites(videoId, chunks[..i], outcome)
    {
      StoreOne(db, videoId, chunks, outcome, i);
      StoreStep(videoId, chunks, outcome, i);
    }
    assert chunks[..|chunks|] == chunks;
  }
}
