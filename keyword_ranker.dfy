/**
 * The keyword retriever of the chat route, `findRelevantChunksKeyword`
 * (frontend/app/api/chat/route.ts): score every chunk against the query,
 * stable-sort the scores in descending order and keep the first `k` chunks.
 *
 * `query.toLowerCase().split()` is called without a separator, which in
 * JavaScript yields the one-element array `[query.toLowerCase()]`. The
 * score of a chunk is therefore 1 when the lowercased chunk contains the
 * whole lowercased query and 0 otherwise, and the ranking is a stable
 * partition: matching chunks first, in input order, then the others.
 */
module KeywordRanker {
  import opened Text

  datatype ScoredChunk = ScoredChunk(chunk: string, score: nat)

  /** `query.toLowerCase().split()`: a single "word", the whole lowercased query. */
  function QueryWords(query: string): seq<string>
  {
    [ToLower(query)]
  }

  /** The `reduce` of the route: how many of `words` occur in `chunkLower`. */
  function Score(words: seq<string>, chunkLower: string): (n: nat)
    ensures n <= |words|
  {
    if words == [] then 0
    else Score(words[..|words| - 1], chunkLower)
         + (if Contains(chunkLower, words[|words| - 1]) then 1 else 0)
  }

  /** The whole-query containment test the score amounts to. */
  predicate Matches(query: string, chunk: string)
  {
    Contains(ToLower(chunk), ToLower(query))
  }

  /** The score the route gives one chunk: 1 if it contains the query, else 0. */
  function ChunkScore(query: string, chunk: string): (n: nat)
    ensures n <= 1
    ensures n == 1 <==> Matches(query, chunk)
  {
    Score(QueryWords(query), ToLower(chunk))
  }

  /** An empty query is contained in every chunk, so every chunk matches it. */
  lemma EmptyQueryMatchesAll(chunk: string)
    ensures Matches("", chunk)
  {
    ContainsEmpty(ToLower(chunk));
  }

  // ---------------------------------------------------------------------------
  // `chunkScores.sort((a, b) => b.score - a.score)`: the stable library sort,
  // here a stable insertion sort on scores, largest first.

  /** Insert `x` into `t`, before the first element whose score is not larger. */
  function Insert(x: ScoredChunk, t: seq<ScoredChunk>): (r: seq<ScoredChunk>)
    ensures |r| == |t| + 1
    ensures multiset(r) == multiset(t) + multiset{x}
  {
    if t == [] || x.score >= t[0].score then [x] + t
    else
      assert t == [t[0]] + t[1..];
      [t[0]] + Insert(x, t[1..])
  }

  /** Inserting into a sorted sequence keeps it sorted. */
  lemma {:induction false} InsertSorted(x: ScoredChunk, t: seq<ScoredChunk>)
    requires SortedDesc(t)
    ensures SortedDesc(Insert(x, t))
  {
    if !(t == [] || x.score >= t[0].score) {
      var rest := Insert(x, t[1..]);
      InsertSorted(x, t[1..]);
      assert rest[0] == x || rest[0] == t[1];
      var r := Insert(x, t);
      assert r == [t[0]] + rest;
      forall i, j | 0 <= i < j < |r|
        ensures r[i].score >= r[j].score
      {
        assert r[j] == rest[j - 1];
        if i == 0 {
          assert rest[0].score >= rest[j - 1].score;
        } else {
          assert r[i] == rest[i - 1];
        }
      }
    }
  }

  /**
   * Inserting into a sorted sequence puts `x` before every element of its
   * score: for each score, the order is that of `[x] + t`. Since the sort
   * inserts each head into its sorted tail, elements that share a score keep
   * their input order.
   */
  lemma {:induction false} InsertStable(x: ScoredChunk, t: seq<ScoredChunk>)
    requires SortedDesc(t)
    ensures forall v :: WithScore(Insert(x, t), v) == WithScore([x] + t, v)
  {
    if !(t == [] || x.score >= t[0].score) {
      InsertStable(x, t[1..]);
      var r := Insert(x, t);
      assert r == [t[0]] + Insert(x, t[1..]);
      forall v ensures WithScore(r, v) == WithScore([x] + t, v) {
        assert r[1..] == Insert(x, t[1..]);
        assert ([x] + t)[1..] == t;
        assert ([x] + t[1..])[1..] == t[1..];
      }
    }
  }

  /** Scores never increase from left to right. */
  predicate SortedDesc(s: seq<ScoredChunk>)
  {
    forall i, j :: 0 <= i < j < |s| ==> s[i].score >= s[j].score
  }

  /** The elements of `s` whose score is `v`, in their order in `s`. */
  function WithScore(s: seq<ScoredChunk>, v: nat): seq<ScoredChunk>
  {
    if s == [] then []
    else (if s[0].score == v then [s[0]] else []) + WithScore(s[1..], v)
  }

  /**
   * The stable descending sort: the result is ordered by score, is a
   * permutation of the input, and for every score keeps the elements that
   * share it in their input order.
   */
  function StableSortDesc(s: seq<ScoredChunk>): (r: seq<ScoredChunk>)
    ensures |r| == |s|
    ensures SortedDesc(r)
    ensures multiset(r) == multiset(s)
    ensures forall v :: WithScore(r, v) == WithScore(s, v)
  {
    if s == [] then []
    else
      assert s == [s[0]] + s[1..];
      var sorted := StableSortDesc(s[1..]);
      InsertSorted(s[0], sorted);
      InsertStable(s[0], sorted);
      Insert(s[0], sorted)
  }

  /** The chunks of the scored entries, in order: `.map(item => item.chunk)`. */
  function ChunksOf(s: seq<ScoredChunk>): (r: seq<string>)
    ensures |r| == |s|
    ensures forall i :: 0 <= i < |s| ==> r[i] == s[i].chunk
  {
    if s == [] then [] else [s[0].chunk] + ChunksOf(s[1..])
  }

  lemma ChunksOfAppend(a: seq<ScoredChunk>, b: seq<ScoredChunk>)
    ensures ChunksOf(a + b) == ChunksOf(a) + ChunksOf(b)
  {
  }

  /** A sorted sequence of scores 0 and 1 is its 1-entries followed by its 0-entries. */
  lemma {:induction false} SortedBinarySplits(r: seq<ScoredChunk>)
    requires SortedDesc(r)
    requires forall i :: 0 <= i < |r| ==> r[i].score <= 1
    ensures r == WithScore(r, 1) + WithScore(r, 0)
  {
    if r != [] {
      SortedBinarySplits(r[1..]);
      if r[0].score == 0 {
        AllZero(r);
      }
    }
  }

  lemma {:induction false} AllZero(r: seq<ScoredChunk>)
    requires forall i :: 0 <= i < |r| ==> r[i].score == 0
    ensures WithScore(r, 1) == [] && WithScore(r, 0) == r
  {
    if r != [] {
      AllZero(r[1..]);
    }
  }

  // ---------------------------------------------------------------------------
  // The reference definition of the ranking.

  /** The chunks that contain the query, in input order. */
  function Matching(query: string, chunks: seq<string>): (r: seq<string>)
    ensures forall i :: 0 <= i < |r| ==> r[i] in chunks && Matches(query, r[i])
  {
    if chunks == [] then []
    else (if Matches(query, chunks[0]) then [chunks[0]] else []) + Matching(query, chunks[1..])
  }

  /** The chunks that do not contain the query, in input order. */
  function NonMatching(query: string, chunks: seq<string>): (r: seq<string>)
    ensures forall i :: 0 <= i < |r| ==> r[i] in chunks && !Matches(query, r[i])
  {
    if chunks == [] then []
    else (if Matches(query, chunks[0]) then [] else [chunks[0]]) + NonMatching(query, chunks[1..])
  }

  /** Every chunk lands in exactly one of the two groups. */
  lemma {:induction false} PartitionSize(query: string, chunks: seq<string>)
    ensures |Matching(query, chunks)| + |NonMatching(query, chunks)| == |chunks|
  {
    if chunks != [] {
      PartitionSize(query, chunks[1..]);
    }
  }

  /** The end index of `slice(0, k)` on an array of length `n`, as JavaScript computes it. */
  function SliceEnd(n: nat, k: int): (e: nat)
    ensures e <= n
  {
    if k < 0 then (if n + k > 0 then n + k else 0) else if k < n then k else n
  }

  /**
   * What `findRelevantChunksKeyword(query, chunks, k)` returns, stated without
   * a sort: the matching chunks, then the others, each group in input order,
   * cut to the first `k` (JavaScript `slice(0, k)`).
   */
  function TopK(query: string, chunks: seq<string>, k: int): (r: seq<string>)
    ensures |r| == SliceEnd(|chunks|, k)
  {
    PartitionSize(query, chunks);
    (Matching(query, chunks) + NonMatching(query, chunks))[..SliceEnd(|chunks|, k)]
  }

  /** The scored entries that the route's `for` loop builds. */
  function ScoreAll(query: string, chunks: seq<string>): (s: seq<ScoredChunk>)
    ensures |s| == |chunks|
    ensures forall i :: 0 <= i < |chunks| ==> s[i] == ScoredChunk(chunks[i], ChunkScore(query, chunks[i]))
  {
    if chunks == [] then [] else [ScoredChunk(chunks[0], ChunkScore(query, chunks[0]))] + ScoreAll(query, chunks[1..])
  }

  /** Picking the 1-scored entries of the scored list is picking the matching chunks. */
  lemma {:induction false} ScoreAllSplits(query: string, chunks: seq<string>)
    ensures ChunksOf(WithScore(ScoreAll(query, chunks), 1)) == Matching(query, chunks)
    ensures ChunksOf(WithScore(ScoreAll(query, chunks), 0)) == NonMatching(query, chunks)
  {
    if chunks != [] {
      var s := ScoreAll(query, chunks);
      assert s[1..] == ScoreAll(query, chunks[1..]);
      ScoreAllSplits(query, chunks[1..]);
      ChunksOfAppend(if s[0].score == 1 then [s[0]] else [], WithScore(s[1..], 1));
      ChunksOfAppend(if s[0].score == 0 then [s[0]] else [], WithScore(s[1..], 0));
    }
  }

  /** Sorting the scored list and dropping the scores gives the matching chunks, then the others. */
  lemma SortedChunks(query: string, chunks: seq<string>)
    ensures ChunksOf(StableSortDesc(ScoreAll(query, chunks)))
            == Matching(query, chunks) + NonMatching(query, chunks)
  {
    var s := ScoreAll(query, chunks);
    var r := StableSortDesc(s);
    assert forall i :: 0 <= i < |r| ==> r[i].score <= 1 by {
      forall i | 0 <= i < |r| ensures r[i].score <= 1 {
        assert r[i] in multiset(s);
      }
    }
    SortedBinarySplits(r);
    ChunksOfAppend(WithScore(r, 1), WithScore(r, 0));
    ScoreAllSplits(query, chunks);
  }

  /**
   * `findRelevantChunksKeyword`: the `for` loop pushes one scored entry per
   * chunk; the entries are then sorted, cut with `slice(0, k)` and mapped
   * back to their chunks.
   */
  method FindRelevantChunksKeyword(query: string, chunks: seq<string>, k: int) returns (top: seq<string>)
    ensures top == TopK(query, chunks, k)
  {
    var queryWords := QueryWords(query);
    var chunkScores: seq<ScoredChunk> := [];
    for i := 0 to |chunks|
      invariant |chunkScores| == i
      invariant forall j :: 0 <= j < i ==> chunkScores[j] == ScoredChunk(chunks[j], ChunkScore(query, chunks[j]))
    {
      var chunkLower := ToLower(chunks[i]);
      var score := Score(queryWords, chunkLower);
      chunkScores := chunkScores + [ScoredChunk(chunks[i], score)];
    }
    assert chunkScores == ScoreAll(query, chunks);
    chunkScores := StableSortDesc(chunkScores);
    var end := SliceEnd(|chunkScores|, k);
    top := ChunksOf(chunkScores[..end]);
    ChunksOfPrefix(chunkScores, end);
    SortedChunks(query, chunks);
    TopKIsPrefix(query, chunks, k);
  }

  lemma ChunksOfPrefix(s: seq<ScoredChunk>, n: nat)
    requires n <= |s|
    ensures ChunksOf(s[..n]) == ChunksOf(s)[..n]
  {
  }

  lemma TopKIsPrefix(query: string, chunks: seq<string>, k: int)
    ensures |Matching(query, chunks) + NonMatching(query, chunks)| == |chunks|
    ensures TopK(query, chunks, k) == (Matching(query, chunks) + NonMatching(query, chunks))[..SliceEnd(|chunks|, k)]
  {
    PartitionSize(query, chunks);
  }

  // ---------------------------------------------------------------------------
  // Properties of the ranking.

  /** With `k >= 0` the result has exactly `min(k, |chunks|)` chunks, each one drawn from `chunks`. */
  lemma TopKSizeAndOrigin(query: string, chunks: seq<string>, k: nat)
    ensures |TopK(query, chunks, k)| == if k < |chunks| then k else |chunks|
    ensures forall i :: 0 <= i < |TopK(query, chunks, k)| ==> TopK(query, chunks, k)[i] in chunks
  {
    var all := Matching(query, chunks) + NonMatching(query, chunks);
    TopKIsPrefix(query, chunks, k);
    assert forall i :: 0 <= i < |all| ==> all[i] in chunks;
  }

  /** Matching chunks always come before non-matching ones in the result. */
  lemma TopKMatchesFirst(query: string, chunks: seq<string>, k: int, i: nat, j: nat)
    requires i < j < |TopK(query, chunks, k)|
    requires Matches(query, TopK(query, chunks, k)[j])
    ensures Matches(query, TopK(query, chunks, k)[i])
  {
    var m := Matching(query, chunks);
    var all := m + NonMatching(query, chunks);
    TopKIsPrefix(query, chunks, k);
    assert TopK(query, chunks, k)[j] == all[j];
    assert j < |m|;
  }

  /** An empty query selects the first `k` chunks in input order. */
  lemma {:induction false} EmptyQueryTakesPrefix(chunks: seq<string>, k: int)
    ensures TopK("", chunks, k) == chunks[..SliceEnd(|chunks|, k)]
  {
    AllMatch(chunks);
  }

  lemma {:induction false} AllMatch(chunks: seq<string>)
    ensures Matching("", chunks) == chunks && NonMatching("", chunks) == []
  {
    if chunks != [] {
      EmptyQueryMatchesAll(chunks[0]);
      AllMatch(chunks[1..]);
    }
  }

  /** No chunks, no result, whatever the query and `k`. */
  lemma NoChunksNoResult(query: string, k: int)
    ensures TopK(query, [], k) == []
  {
  }

  /** The first entries of the ranking are the matching chunks, in input order. */
  lemma {:induction false} TopKStable(query: string, chunks: seq<string>, k: int)
    requires SliceEnd(|chunks|, k) <= |Matching(query, chunks)|
    ensures TopK(query, chunks, k) == Matching(query, chunks)[..SliceEnd(|chunks|, k)]
  {
  }
}
