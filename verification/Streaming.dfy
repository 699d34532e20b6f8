/** The streamed answer (corpus/handlers/ttchunked.go) over the answers of the chunks' workers: what the
    client reads, in terms of the hits. */
module Streaming {
  import opened FanIn
  import opened FanInMessages
  import opened FreqRows
  import opened LastMessage
  import opened Permutations
  import opened Pipeline
  import opened SplitCorpus

  lemma AnswerNonNegative(
    hits: seq<Hit>, c: Chunk, freqLimit: int, maxItems: nat, norms: map<Word, int>, ans: seq<Row>)
    requires 0 < |norms| && maxItems > 0 && forall h | h in hits :: h.value in norms
    requires ChunkAnswer(hits, c, freqLimit, maxItems, norms, ans)
    ensures NonNegative(ans)
  {
    ChunkWellFormed(hits, c, freqLimit, maxItems, norms, ans);
    forall i | 0 <= i < |ans| ensures ans[i].freq >= 0 {
      ChunkBound(hits, c, freqLimit, maxItems, norms, ans, ans[i].word);
      TotalIsFreq(ans, i);
    }
  }

  lemma AnswersNonNegative(
    hits: seq<Hit>, size: nat, chunkSize: nat, freqLimit: int, maxItems: nat, norms: map<Word, int>,
    lists: seq<seq<Row>>)
    requires Corpus(hits, size, norms) && 0 < |norms| && maxItems > 0
    requires Answers(hits, size, chunkSize, freqLimit, maxItems, norms, lists)
    ensures forall i | 0 <= i < |lists| :: NonNegative(lists[i])
  {
    forall i | 0 <= i < |lists| ensures NonNegative(lists[i]) {
      AnswerNonNegative(hits, ChunkAt(size, chunkSize, i), freqLimit, maxItems, norms, lists[i]);
    }
  }

  lemma NobodyCounts(lists: seq<seq<Row>>, norms: map<Word, int>, w: Word)
    requires w !in norms && forall i | 0 <= i < |lists| :: BasesFrom(lists[i], norms)
    ensures TotalOfAll(lists, w) == 0
  {
    var count := (l: seq<Row>) => Total(l, w);
    forall i | 0 <= i < |lists| ensures count(lists[i]) == 0 {
      TotalOfAbsent(lists[i], w);
    }
    AllZero(count, lists);
  }

  /** If nothing is cut, each worker's list names every norm, so that the last message of every run without
      failures is read complete. */
  lemma UncutStreamIsWhole(
    hits: seq<Hit>, size: nat, chunkSize: nat, freqLimit: int, maxItems: nat, norms: map<Word, int>,
    lists: seq<seq<Row>>)
    requires Corpus(hits, size, norms) && 0 < |norms| <= maxItems && size > 0
    requires Answers(hits, size, chunkSize, freqLimit, maxItems, norms, lists)
    ensures LastIsAlwaysWhole(lists)
  {
    AnswersNonNegative(hits, size, chunkSize, freqLimit, maxItems, norms, lists);
    forall i | 0 <= i < |lists|
      ensures BasesFrom(lists[i], norms) && forall w | w in norms :: Has(lists[i], w)
    {
      ChunkWellFormed(hits, ChunkAt(size, chunkSize, i), freqLimit, maxItems, norms, lists[i]);
    }
    forall i, w | 0 <= i < |lists| && TotalOfAll(lists, w) != 0 ensures Has(lists[i], w) {
      if w !in norms {
        NobodyCounts(lists, norms, w);
      }
    }
    LastMessageCondition(lists);
  }

  /** With the default frequency limit as well, the client reads the true counts in it. */
  lemma LastMessageIsTrue(
    hits: seq<Hit>, size: nat, chunkSize: nat, freqLimit: int, maxItems: nat, norms: map<Word, int>,
    lists: seq<seq<Row>>, s: State, w: Word)
    requires Corpus(hits, size, norms) && 0 < |norms| <= maxItems && size > 0 && freqLimit <= 1
    requires Answers(hits, size, chunkSize, freqLimit, maxItems, norms, lists) && CompleteRun(lists, s)
    requires w in norms && norms[w] > 0
    ensures LastIsWhole(lists, s)
    ensures Total(Received(s, Last(s)), w) == Count(hits, Chunk(0, size), w)
  {
    UncutStreamIsWhole(hits, size, chunkSize, freqLimit, maxItems, norms, lists);
    ExactUnlessBelowLimit(hits, size, chunkSize, freqLimit, maxItems, norms, lists, lists, w);
    MergeAllAddsTotals(lists, w);
  }

  /** Whatever is cut, and whenever a message is read: no value is read with more than its true count, and
      if every chunk succeeds one of the messages misses no more of it than the chunks' cuts may hide. */
  lemma StreamErrorBound(
    hits: seq<Hit>, size: nat, chunkSize: nat, freqLimit: int, maxItems: nat, norms: map<Word, int>,
    lists: seq<seq<Row>>, s: State, w: Word) returns (k: nat)
    requires Corpus(hits, size, norms) && 0 < |norms| && maxItems > 0 && size > 0
    requires Answers(hits, size, chunkSize, freqLimit, maxItems, norms, lists) && CompleteRun(lists, s)
    requires w in norms && norms[w] > 0
    ensures k < |s.messages| && s.messages[k].Entries?
    ensures Count(hits, Chunk(0, size), w) - LossOfAll(lists, freqLimit, norms) <= Total(s.messages[k].entries, w)
    ensures forall j | 0 <= j < |s.messages| && s.messages[j].Entries? ::
              && |s.messages[j].entries| <= |s.result|
              && Total(Received(s, s.messages[j]), w) <= Count(hits, Chunk(0, size), w)
  {
    TopKErrorBound(hits, size, chunkSize, freqLimit, maxItems, norms, lists, lists, w);
    k := SomeMessageIsTheWholeMerge(lists, s);
    AnswersNonNegative(hits, size, chunkSize, freqLimit, maxItems, norms, lists);
    MergeAllAddsTotals(lists, w);
    forall j | 0 <= j < |s.messages| && s.messages[j].Entries?
      ensures |s.messages[j].entries| <= |s.result|
      ensures Total(Received(s, s.messages[j]), w) <= Count(hits, Chunk(0, size), w)
    {
      ReceivedCoversItsChunk(lists, s, j, w);
    }
  }
}
