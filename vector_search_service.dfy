/**
 * Retrieval (`VectorSearchService`): the question is embedded, then the stored chunks
 * that have an embedding are ranked by their distance to it, the `topK` nearest are
 * kept, and each is reported with similarity `1 - distance`.
 *
 * The store's `CosineDistance` is a parameter of the service: the model relies only on
 * it being a function of the two vectors.
 */
module VectorSearch {
  import opened Wrappers
  import opened Sequences
  import opened Sorting
  import opened Entities
  import VoyageEmbedding

  /** The default `topK` of `IVectorSearchService.SearchAsync`. */
  const DefaultTopK := 5

  /** The store's distance between a chunk's embedding and the query's. */
  type Distance = (Vector, Vector) -> real

  /** A row of the query's projection: the chunk's document, its text and its distance to the query. */
  datatype Candidate = Candidate(documentId: Guid, chunkText: string, distance: real)

  /** `c` is the projection of the embedded chunk `chunk`. */
  predicate CandidateOf(c: Candidate, chunk: DocumentChunk, query: Vector, distance: Distance)
  {
    chunk.embedding.Some? && c == Candidate(chunk.documentId, chunk.chunkText, distance(chunk.embedding.value, query))
  }

  /** The sort key of `OrderBy(x => x.Distance)`. */
  function DistanceKey(c: Candidate): real
  {
    c.distance
  }

  /** `Where(c => c.Embedding != null).Select(...)`: the chunks without an embedding are skipped, the rest keep their order. */
  function Candidates(chunks: seq<DocumentChunk>, query: Vector, distance: Distance): (cs: seq<Candidate>)
    ensures |cs| <= |chunks|
  {
    if chunks == [] then []
    else
      var head := chunks[0];
      var rest := Candidates(chunks[1..], query, distance);
      if head.embedding.Some? then
        [Candidate(head.documentId, head.chunkText, distance(head.embedding.value, query))] + rest
      else
        rest
  }

  /** The candidates are exactly the projections of the embedded chunks. */
  lemma {:induction false} CandidatesAreEmbeddedChunks(chunks: seq<DocumentChunk>, query: Vector, distance: Distance)
    ensures forall c :: c in Candidates(chunks, query, distance) <==>
      exists chunk :: chunk in chunks && CandidateOf(c, chunk, query, distance)
  {
    if chunks != [] {
      CandidatesAreEmbeddedChunks(chunks[1..], query, distance);
      assert chunks == [chunks[0]] + chunks[1..];
      var cs := Candidates(chunks, query, distance);
      forall c | c in cs
        ensures exists chunk :: chunk in chunks && CandidateOf(c, chunk, query, distance)
      {
        if !CandidateOf(c, chunks[0], query, distance) {
          assert c in Candidates(chunks[1..], query, distance);
          var chunk :| chunk in chunks[1..] && CandidateOf(c, chunk, query, distance);
          assert chunk in chunks;
        }
      }
      forall c, chunk | chunk in chunks && CandidateOf(c, chunk, query, distance)
        ensures c in cs
      {
        if chunk != chunks[0] {
          assert chunk in chunks[1..];
        }
      }
    }
  }

  /** The reported form of a candidate: `Similarity = 1 - Distance`. */
  function ToRelevant(c: Candidate): RelevantChunk
  {
    RelevantChunk(c.documentId, c.chunkText, 1.0 - c.distance)
  }

  /** The candidates `OrderBy(Distance).Take(topK)` keeps: as many as `topK` allows, nearest first. */
  function Picked(chunks: seq<DocumentChunk>, query: Vector, distance: Distance, topK: int): (r: seq<Candidate>)
    ensures |r| == Max(0, Min(topK, |Candidates(chunks, query, distance)|))
    ensures forall i, j :: 0 <= i < j < |r| ==> r[i].distance <= r[j].distance
  {
    Take(SortBy(Candidates(chunks, query, distance), DistanceKey), topK)
  }

  /**
   * The result of `SearchAsync` for an embedded query: as many chunks as `topK` allows
   * (none when `topK` is not positive), most similar first.
   */
  function Search(chunks: seq<DocumentChunk>, query: Vector, distance: Distance, topK: int): (r: seq<RelevantChunk>)
    ensures |r| == Max(0, Min(topK, |Candidates(chunks, query, distance)|))
    ensures forall i, j :: 0 <= i < j < |r| ==> r[i].similarity >= r[j].similarity
  {
    var picked := Picked(chunks, query, distance, topK);
    var ranked := SortBy(Candidates(chunks, query, distance), DistanceKey);
    assert forall i :: 0 <= i < |picked| ==> picked[i] == ranked[i];
    seq(|picked|, i requires 0 <= i < |picked| => ToRelevant(picked[i]))
  }

  /** In a list sorted by distance, nothing after position k is nearer than anything before it. */
  lemma SortedSplit(ranked: seq<Candidate>, k: nat)
    requires SortedBy(ranked, DistanceKey) && k <= |ranked|
    ensures forall p, c :: p in ranked[..k] && c in ranked[k..] ==> p.distance <= c.distance
  {
    forall p, c | p in ranked[..k] && c in ranked[k..]
      ensures p.distance <= c.distance
    {
      var i :| 0 <= i < k && ranked[..k][i] == p;
      var j :| 0 <= j < |ranked| - k && ranked[k..][j] == c;
      assert DistanceKey(ranked[i]) <= DistanceKey(ranked[k + j]);
    }
  }

  /** A prefix of a list sorted by distance is some of its elements, none farther than the rest. */
  lemma PrefixIsNearest(ranked: seq<Candidate>, cs: seq<Candidate>, k: nat)
    requires SortedBy(ranked, DistanceKey) && multiset(ranked) == multiset(cs) && k <= |ranked|
    ensures multiset(ranked[..k]) <= multiset(cs)
    ensures forall p, c :: p in ranked[..k] && c in multiset(cs) - multiset(ranked[..k]) ==> p.distance <= c.distance
  {
    assert ranked == ranked[..k] + ranked[k..];
    assert multiset(cs) - multiset(ranked[..k]) == multiset(ranked[k..]);
    SortedSplit(ranked, k);
  }

  /**
   * Top-k selection: the kept candidates are some of the candidates, and none of the
   * candidates left out is nearer than any kept one. When `topK` covers them all, all are kept.
   */
  lemma PickedAreNearest(chunks: seq<DocumentChunk>, query: Vector, distance: Distance, topK: int)
    ensures var cs := Candidates(chunks, query, distance);
      var picked := Picked(chunks, query, distance, topK);
      && multiset(picked) <= multiset(cs)
      && (forall p, c :: p in picked && c in multiset(cs) - multiset(picked) ==> p.distance <= c.distance)
      && (topK >= |cs| ==> multiset(picked) == multiset(cs))
  {
    var cs := Candidates(chunks, query, distance);
    var ranked := SortBy(cs, DistanceKey);
    var picked := Picked(chunks, query, distance, topK);
    assert picked == ranked[..|picked|];
    PrefixIsNearest(ranked, cs, |picked|);
    if topK >= |cs| {
      assert picked == ranked;
    }
  }

  /** Position i of the search result reports the i-th kept candidate. */
  lemma SearchAt(chunks: seq<DocumentChunk>, query: Vector, distance: Distance, topK: int, i: nat)
    requires i < |Search(chunks, query, distance, topK)|
    ensures i < |Picked(chunks, query, distance, topK)|
    ensures Search(chunks, query, distance, topK)[i] == ToRelevant(Picked(chunks, query, distance, topK)[i])
  {
  }

  /** Every kept candidate is a candidate. */
  lemma PickedAreCandidates(chunks: seq<DocumentChunk>, query: Vector, distance: Distance, topK: int)
    ensures forall p :: p in Picked(chunks, query, distance, topK) ==> p in Candidates(chunks, query, distance)
  {
    var cs := Candidates(chunks, query, distance);
    var ranked := SortBy(cs, DistanceKey);
    forall p | p in Picked(chunks, query, distance, topK)
      ensures p in cs
    {
      assert p in ranked;
      assert p in multiset(ranked);
    }
  }

  /** What the store could report for `query`: each embedded chunk with its document, its text and similarity 1 - distance. */
  function Reportable(chunks: seq<DocumentChunk>, query: Vector, distance: Distance): set<RelevantChunk>
  {
    set chunk | chunk in chunks && chunk.embedding.Some? ::
      RelevantChunk(chunk.documentId, chunk.chunkText, 1.0 - distance(chunk.embedding.value, query))
  }

  lemma ReportableHas(chunks: seq<DocumentChunk>, query: Vector, distance: Distance, chunk: DocumentChunk)
    requires chunk in chunks && chunk.embedding.Some?
    ensures RelevantChunk(chunk.documentId, chunk.chunkText, 1.0 - distance(chunk.embedding.value, query)) in Reportable(chunks, query, distance)
  {
  }

  /** Every reported chunk reports an embedded stored chunk. */
  lemma SearchReportsEmbeddedChunks(chunks: seq<DocumentChunk>, query: Vector, distance: Distance, topK: int)
    ensures forall x :: x in Search(chunks, query, distance, topK) ==> x in Reportable(chunks, query, distance)
  {
    var r := Search(chunks, query, distance, topK);
    var picked := Picked(chunks, query, distance, topK);
    PickedAreCandidates(chunks, query, distance, topK);
    CandidatesAreEmbeddedChunks(chunks, query, distance);
    forall x | x in r
      ensures x in Reportable(chunks, query, distance)
    {
      var i :| 0 <= i < |r| && r[i] == x;
      SearchAt(chunks, query, distance, topK, i);
      assert picked[i] in picked;
      var chunk :| chunk in chunks && CandidateOf(picked[i], chunk, query, distance);
      ReportableHas(chunks, query, distance, chunk);
    }
  }

  /**
   * Embedding one question either fails or yields at least one vector, so `First()` on
   * the service's result never throws.
   */
  lemma QueryAlwaysEmbedded(respond: VoyageEmbedding.Provider, firstCall: nat, query: string)
    ensures var e := VoyageEmbedding.Embed(respond, firstCall, [query]);
      e.result.Success? ==> e.result.value != []
  {
    var batch := [query];
    assert batch[..Min(VoyageEmbedding.MaxBatchSize, 1)] == batch && batch[1..] == [];
    assert VoyageEmbedding.Batches(batch) == [batch];
    VoyageEmbedding.RetryShape(respond, firstCall, batch);
    var t := VoyageEmbedding.BatchWithRetry(respond, firstCall, batch);
    assert VoyageEmbedding.Runner(respond)(firstCall, batch) == t;
    if t.result.Success? {
      assert t.result == VoyageEmbedding.ParseResponse(respond(firstCall + (t.attempts - 1), batch));
      assert [batch][1..] == [];
      var rest := VoyageEmbedding.EmbedBatches(VoyageEmbedding.Runner(respond), firstCall + t.attempts, []);
      assert rest.result == Success([]);
      assert VoyageEmbedding.EmbedBatches(VoyageEmbedding.Runner(respond), firstCall, [batch])
        == VoyageEmbedding.Prepend(t.result.value, Repeat(batch, t.attempts), t.waits + [], rest);
      assert VoyageEmbedding.Embed(respond, firstCall, batch).result == Success(t.result.value + []);
    }
  }

  /** The message of `First()` on an empty list. */
  const NoElements := "Sequence contains no elements"

  /**
   * What `SearchAsync(query, topK)` returns when the embedding client has made `firstCall`
   * calls: the embedding run's failure, or the ranking against the run's first vector.
   */
  function Retrieve(respond: VoyageEmbedding.Provider, firstCall: nat, query: string,
                    chunks: seq<DocumentChunk>, distance: Distance, topK: int): Result<seq<RelevantChunk>, Error>
  {
    var e := VoyageEmbedding.Embed(respond, firstCall, [query]);
    if e.result.Failure? then Failure(e.result.error)
    else if e.result.value == [] then Failure(InvalidOperation(NoElements))
    else Success(Search(chunks, e.result.value[0], distance, topK))
  }

  /** A search fails only when embedding the question fails, and then with that error. */
  lemma RetrieveFailsOnlyByEmbedding(respond: VoyageEmbedding.Provider, firstCall: nat, query: string,
                                     chunks: seq<DocumentChunk>, distance: Distance, topK: int)
    ensures var e := VoyageEmbedding.Embed(respond, firstCall, [query]);
      var r := Retrieve(respond, firstCall, query, chunks, distance, topK);
      && (r.Failure? <==> e.result.Failure?)
      && (r.Failure? ==> r.error == e.result.error)
      && (r.Success? ==> |r.value| <= Max(0, topK))
  {
    QueryAlwaysEmbedded(respond, firstCall, query);
  }

  class VectorSearchService {
    const context: AppDbContext
    const embeddingService: VoyageEmbedding.VoyageEmbeddingService
    /** The store's `CosineDistance`. */
    const distance: Distance

    constructor (context: AppDbContext, embeddingService: VoyageEmbedding.VoyageEmbeddingService, distance: Distance)
      ensures this.context == context && this.embeddingService == embeddingService && this.distance == distance
    {
      this.context := context;
      this.embeddingService := embeddingService;
      this.distance := distance;
    }

    /**
     * `SearchAsync(query, topK)`: one embedding run over `[query]`; its failure is the
     * search's failure; otherwise the ranking of the stored chunks against its first vector.
     */
    method SearchAsync(query: string, topK: int) returns (result: Result<seq<RelevantChunk>, Error>)
      requires embeddingService.Valid()
      modifies embeddingService.client`requests, embeddingService.client`delays
      ensures var e := VoyageEmbedding.Embed(embeddingService.client.respond, |old(embeddingService.client.requests)|, [query]);
        && embeddingService.client.requests == old(embeddingService.client.requests) + e.requests
        && embeddingService.client.delays == old(embeddingService.client.delays) + e.delays
      ensures result == Retrieve(embeddingService.client.respond, |old(embeddingService.client.requests)|, query,
                                 context.documentChunks, distance, topK)
    {
      var embeddings := embeddingService.GenerateEmbeddings([query]);
      if embeddings.Failure? {
        return Failure(embeddings.error);
      }
      if embeddings.value == [] {
        return Failure(InvalidOperation(NoElements));
      }
      var queryEmbedding := embeddings.value[0];
      result := Success(Search(context.documentChunks, queryEmbedding, distance, topK));
    }
  }
}
