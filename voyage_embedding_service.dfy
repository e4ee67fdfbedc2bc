/**
 * The embedding batcher (`VoyageEmbeddingService`): texts are sent to the provider in
 * consecutive batches of at most 128, strictly one after another with a 500 ms pause
 * between batches; each batch is retried on rate-limit failures only, with a linear
 * backoff; each response is validated and re-ordered by the provider's `index`.
 *
 * The HTTP endpoint is an oracle: the response to the k-th call (counting from 0 over the
 * client's lifetime) for input `input` is `respond(k, input)`. Waits are recorded, not slept.
 */
module VoyageEmbedding {
  import opened Wrappers
  import opened Sequences
  import opened Text
  import opened Sorting
  import opened Entities

  const MaxBatchSize := 128
  const RateLimitDelayMs := 500
  const MaxRetries := 3
  /** Backoff after failed attempt `a` is `a * RetryBaseDelayMs`. */
  const RetryBaseDelayMs := 30000

  /** One element of the provider's `data` array. */
  datatype EmbeddingData = EmbeddingData(index: int, embedding: Vector)

  /** What one POST to the embeddings endpoint yields: status, raw body, and the deserialized `data` (null as None). */
  datatype VoyageResponse = VoyageResponse(success: bool, statusCode: string, body: string, data: Option<seq<EmbeddingData>>)

  type Provider = (nat, seq<string>) -> VoyageResponse

  // ---------------------------------------------------------------------------
  // Partition into batches
  // ---------------------------------------------------------------------------

  /** ceil(n / MaxBatchSize), the `totalBatches` the source logs. */
  function NumBatches(n: nat): nat
  {
    (n + MaxBatchSize - 1) / MaxBatchSize
  }

  /** The batches `texts.Skip(i).Take(MaxBatchSize)` for i = 0, 128, 256, ... */
  function Batches(texts: seq<string>): seq<seq<string>>
    decreases |texts|
  {
    if texts == [] then []
    else
      var k := Min(MaxBatchSize, |texts|);
      [texts[..k]] + Batches(texts[k..])
  }

  /** Batch `k` exists exactly when offset 128 * k is inside the input. */
  lemma NumBatchesBound(n: nat, k: nat)
    ensures k * MaxBatchSize < n <==> k < NumBatches(n)
  {
  }

  /** There are ceil(n/128) batches. */
  lemma {:induction false} BatchCount(texts: seq<string>)
    ensures |Batches(texts)| == NumBatches(|texts|)
    decreases |texts|
  {
    if texts != [] {
      BatchCount(texts[Min(MaxBatchSize, |texts|)..]);
    }
  }

  /** The batches cover the input in order, each holds 1..128 texts, and there are ceil(n/128) of them. */
  lemma {:induction false} BatchesPartition(texts: seq<string>)
    ensures Flatten(Batches(texts)) == texts
    ensures |Batches(texts)| == NumBatches(|texts|)
    ensures forall b :: b in Batches(texts) ==> 0 < |b| <= MaxBatchSize
    decreases |texts|
  {
    if texts != [] {
      var k := Min(MaxBatchSize, |texts|);
      BatchesPartition(texts[k..]);
      assert Batches(texts)[1..] == Batches(texts[k..]);
      assert texts == texts[..k] + texts[k..];
    }
  }

  /** Batch `j` is exactly the slice starting at offset 128 * j. */
  lemma {:induction false} BatchAt(texts: seq<string>, j: nat)
    requires j < |Batches(texts)|
    ensures j * MaxBatchSize < |texts|
    ensures Batches(texts)[j] == texts[j * MaxBatchSize .. Min(j * MaxBatchSize + MaxBatchSize, |texts|)]
  {
    var k := Min(MaxBatchSize, |texts|);
    if j > 0 {
      BatchAt(texts[k..], j - 1);
      assert k == MaxBatchSize;
      assert texts[k..][(j - 1) * MaxBatchSize .. Min((j - 1) * MaxBatchSize + MaxBatchSize, |texts| - k)]
          == texts[j * MaxBatchSize .. Min(j * MaxBatchSize + MaxBatchSize, |texts|)];
    }
  }

  // ---------------------------------------------------------------------------
  // One provider call: validation and re-ordering
  // ---------------------------------------------------------------------------

  /** The sort key of `OrderBy(d => d.Index)`. */
  function IndexKey(d: EmbeddingData): real
  {
    d.index as real
  }

  function SortByIndex(data: seq<EmbeddingData>): seq<EmbeddingData>
  {
    SortBy(data, IndexKey)
  }

  function Embeddings(data: seq<EmbeddingData>): (vs: seq<Vector>)
    ensures |vs| == |data| && forall i :: 0 <= i < |data| ==> vs[i] == data[i].embedding
  {
    seq(|data|, i requires 0 <= i < |data| => data[i].embedding)
  }

  function ErrorMessage(resp: VoyageResponse): string
  {
    "Voyage AI error: " + resp.statusCode + " - " + resp.body
  }

  /**
   * The validation in `GenerateBatchEmbeddingsAsync`: a non-success status is an
   * `HttpRequestException`, a null or empty `data` an `InvalidOperationException`,
   * otherwise the vectors ordered by ascending `index`.
   */
  function ParseResponse(resp: VoyageResponse): (r: Result<seq<Vector>, Error>)
    ensures !resp.success ==> r == Failure(HttpRequest(ErrorMessage(resp)))
    ensures resp.success && (resp.data.None? || resp.data.value == []) ==> r.Failure? && r.error.InvalidOperation?
    ensures r.Success? ==> resp.success && resp.data.Some? && |r.value| == |resp.data.value| > 0
  {
    if !resp.success then
      Failure(HttpRequest(ErrorMessage(resp)))
    else if resp.data.None? || |resp.data.value| == 0 then
      Failure(InvalidOperation("Invalid response from Voyage AI: " + resp.body))
    else
      Success(Embeddings(SortByIndex(resp.data.value)))
  }

  /** The exception filter of the retry loop: an `HttpRequestException` whose message mentions TooManyRequests. */
  predicate IsRateLimited(e: Error)
  {
    e.HttpRequest? && Contains(e.message, "TooManyRequests")
  }

  predicate Retryable(r: Result<seq<Vector>, Error>)
  {
    r.Failure? && IsRateLimited(r.error)
  }

  /** A 429 response (status name TooManyRequests) is classified as retryable. */
  lemma TooManyRequestsIsRetryable(resp: VoyageResponse)
    requires !resp.success && resp.statusCode == "TooManyRequests"
    ensures Retryable(ParseResponse(resp))
  {
    var m := ErrorMessage(resp);
    assert OccursAt(m, "TooManyRequests", 17);
    ContainsIffOccurs(m, "TooManyRequests");
  }

  /** Malformed responses and successes are never retried. */
  lemma OnlyHttpFailuresRetryable(resp: VoyageResponse)
    requires resp.success
    ensures !Retryable(ParseResponse(resp))
  {
  }

  /** The vectors of a successful response are its `data` sorted by ascending `index`, each element used once. */
  lemma ParsedInIndexOrder(resp: VoyageResponse)
    requires ParseResponse(resp).Success?
    ensures var sorted := SortByIndex(resp.data.value);
      && SortedBy(sorted, IndexKey)
      && multiset(sorted) == multiset(resp.data.value)
      && ParseResponse(resp).value == Embeddings(sorted)
  {
  }

  /** Distinct indices determine the result whatever order the provider lists the elements in. */
  lemma ResponseOrderIrrelevant(resp1: VoyageResponse, resp2: VoyageResponse)
    requires resp1.success && resp2.success && resp1.data.Some? && resp2.data.Some? && resp1.data.value != []
    requires multiset(resp1.data.value) == multiset(resp2.data.value)
    requires KeyInjective(multiset(resp1.data.value), IndexKey)
    ensures ParseResponse(resp1) == ParseResponse(resp2)
  {
    assert |resp1.data.value| == |multiset(resp1.data.value)| == |resp2.data.value|;
    SortByIgnoresInputOrder(resp1.data.value, resp2.data.value, IndexKey);
  }

  // ---------------------------------------------------------------------------
  // Retry of one batch
  // ---------------------------------------------------------------------------

  /** What one batch's calls produced: the outcome, how many calls were made, and the backoff waits. */
  datatype BatchTrace = BatchTrace(result: Result<seq<Vector>, Error>, attempts: nat, waits: seq<nat>)

  /** What the calls of one batch yield: `outcome(k)` is the outcome of attempt k + 1. */
  type Outcomes = nat -> Result<seq<Vector>, Error>

  function CallOutcomes(respond: Provider, firstCall: nat, batch: seq<string>): Outcomes
  {
    (k: nat) => ParseResponse(respond(firstCall + k, batch))
  }

  /** Attempts `attempt`..MaxRetries of `GenerateBatchWithRetryAsync`. */
  function RetryFrom(outcome: Outcomes, attempt: nat): BatchTrace
    requires 1 <= attempt <= MaxRetries
    decreases MaxRetries - attempt
  {
    var r := outcome(attempt - 1);
    if Retryable(r) && attempt < MaxRetries then
      var rest := RetryFrom(outcome, attempt + 1);
      rest.(waits := [attempt * RetryBaseDelayMs] + rest.waits)
    else
      BatchTrace(r, attempt, [])
  }

  function BatchWithRetry(respond: Provider, firstCall: nat, batch: seq<string>): BatchTrace
  {
    RetryFrom(CallOutcomes(respond, firstCall, batch), 1)
  }

  /** The waits after failed attempts from..to-1: attempt a waits a * 30 s. */
  function Backoff(from: nat, to: nat): (w: seq<nat>)
    requires from <= to
    ensures |w| == to - from && forall j :: 0 <= j < |w| ==> w[j] == (from + j) * RetryBaseDelayMs
  {
    seq(to - from, j requires 0 <= j < to - from => (from + j) * RetryBaseDelayMs)
  }

  lemma {:induction false} RetryFromShape(outcome: Outcomes, attempt: nat)
    requires 1 <= attempt <= MaxRetries
    ensures var t := RetryFrom(outcome, attempt);
      && attempt <= t.attempts <= MaxRetries
      && t.result == outcome(t.attempts - 1)
      && (forall k :: attempt - 1 <= k < t.attempts - 1 ==> Retryable(outcome(k)))
      && (Retryable(t.result) ==> t.attempts == MaxRetries)
      && t.waits == Backoff(attempt, t.attempts)
    decreases MaxRetries - attempt
  {
    if Retryable(outcome(attempt - 1)) && attempt < MaxRetries {
      RetryFromShape(outcome, attempt + 1);
      var rest := RetryFrom(outcome, attempt + 1);
      assert [attempt * RetryBaseDelayMs] + Backoff(attempt + 1, rest.attempts) == Backoff(attempt, rest.attempts);
    }
  }

  /**
   * A batch gets 1 to 3 calls. Every call before the last one failed with a rate limit;
   * the last call's outcome is the batch's outcome, and if that is a rate limit too it
   * was the third. Attempt a is followed by a wait of a * 30 s before attempt a + 1.
   */
  lemma RetryShape(respond: Provider, firstCall: nat, batch: seq<string>)
    ensures var t := BatchWithRetry(respond, firstCall, batch);
      var outcome := CallOutcomes(respond, firstCall, batch);
      && 1 <= t.attempts <= MaxRetries
      && t.result == outcome(t.attempts - 1)
      && (forall k :: 0 <= k < t.attempts - 1 ==> Retryable(outcome(k)))
      && (Retryable(t.result) ==> t.attempts == MaxRetries)
      && t.waits == Backoff(1, t.attempts)
  {
    RetryFromShape(CallOutcomes(respond, firstCall, batch), 1);
  }

  /**
   * If calls 0..n-2 of a batch are rate limited and call n - 1 is not (or n is the last
   * allowed attempt), the batch ends after exactly n calls with call n - 1's outcome and
   * n - 1 waits.
   */
  lemma RetryStopsAt(respond: Provider, firstCall: nat, batch: seq<string>, n: nat)
    requires 1 <= n <= MaxRetries
    requires forall k :: 0 <= k < n - 1 ==> Retryable(CallOutcomes(respond, firstCall, batch)(k))
    requires n < MaxRetries ==> !Retryable(CallOutcomes(respond, firstCall, batch)(n - 1))
    ensures BatchWithRetry(respond, firstCall, batch) == BatchTrace(CallOutcomes(respond, firstCall, batch)(n - 1), n, Backoff(1, n))
  {
    RetryShape(respond, firstCall, batch);
  }

  lemma CountOfBackoff(w: seq<nat>, from: nat, to: nat)
    requires 1 <= from <= to && w == Backoff(from, to)
    ensures CountOf(w, RateLimitDelayMs) == 0
    decreases |w|
  {
    if w != [] {
      CountOfBackoff(w[1..], from + 1, to);
    }
  }

  /** A batch makes 1 to 3 calls and none of its waits is the 500 ms pause between batches. */
  lemma RetryBounds(respond: Provider, firstCall: nat, batch: seq<string>)
    ensures var t := BatchWithRetry(respond, firstCall, batch);
      1 <= t.attempts <= MaxRetries && CountOf(t.waits, RateLimitDelayMs) == 0
  {
    RetryShape(respond, firstCall, batch);
    var t := BatchWithRetry(respond, firstCall, batch);
    CountOfBackoff(t.waits, 1, t.attempts);
  }

  // ---------------------------------------------------------------------------
  // All batches
  // ---------------------------------------------------------------------------

  /** What a whole run produced: the outcome, every request posted in order, every wait in order. */
  datatype EmbedTrace = EmbedTrace(result: Result<seq<Vector>, Error>, requests: seq<seq<string>>, delays: seq<nat>)

  /** Puts the vectors, requests and delays of earlier batches in front of a run of the later ones. */
  function Prepend(vectors: seq<Vector>, requests: seq<seq<string>>, delays: seq<nat>, rest: EmbedTrace): EmbedTrace
  {
    EmbedTrace(
      if rest.result.Success? then Success(vectors + rest.result.value) else rest.result,
      requests + rest.requests,
      delays + rest.delays)
  }

  /** How one batch is handled: from the number of calls made so far and the batch, what that batch does. */
  type BatchRunner = (nat, seq<string>) -> BatchTrace

  /** The batch handler of the service: `GenerateBatchWithRetryAsync` against provider `respond`. */
  function Runner(respond: Provider): BatchRunner
  {
    (c: nat, b: seq<string>) => BatchWithRetry(respond, c, b)
  }

  /** Processes `batches` in order with `run`; the first failure ends the run. */
  function EmbedBatches(run: BatchRunner, firstCall: nat, batches: seq<seq<string>>): EmbedTrace
    decreases |batches|
  {
    if batches == [] then EmbedTrace(Success([]), [], [])
    else
      var t := run(firstCall, batches[0]);
      var sent := Repeat(batches[0], t.attempts);
      if t.result.Failure? then EmbedTrace(t.result, sent, t.waits)
      else
        var gap := if |batches| > 1 then [RateLimitDelayMs] else [];
        Prepend(t.result.value, sent, t.waits + gap, EmbedBatches(run, firstCall + t.attempts, batches[1..]))
  }

  /** `GenerateEmbeddingsAsync(texts)` when the client has already made `firstCall` calls. */
  function Embed(respond: Provider, firstCall: nat, texts: seq<string>): EmbedTrace
  {
    EmbedBatches(Runner(respond), firstCall, Batches(texts))
  }

  lemma PrependPrepend(v1: seq<Vector>, r1: seq<seq<string>>, d1: seq<nat>, v2: seq<Vector>, r2: seq<seq<string>>, d2: seq<nat>, rest: EmbedTrace)
    ensures Prepend(v1, r1, d1, Prepend(v2, r2, d2, rest)) == Prepend(v1 + v2, r1 + r2, d1 + d2, rest)
  {
    if rest.result.Success? {
      assert v1 + (v2 + rest.result.value) == (v1 + v2) + rest.result.value;
    }
    assert r1 + (r2 + rest.requests) == (r1 + r2) + rest.requests;
    assert d1 + (d2 + rest.delays) == (d1 + d2) + rest.delays;
  }

  lemma PrependDone(vectors: seq<Vector>, requests: seq<seq<string>>, delays: seq<nat>)
    ensures Prepend(vectors, requests, delays, EmbedTrace(Success([]), [], [])) == EmbedTrace(Success(vectors), requests, delays)
  {
    assert vectors + [] == vectors && requests + [] == requests && delays + [] == delays;
  }

  /**
   * After a successful batch `k`, its vectors, requests and waits (and the pause, if
   * batch k + 1 exists) move in front of the run over the batches after it.
   */
  lemma EmbedBatchesStep(run: BatchRunner, spec: EmbedTrace, firstCall: nat, batches: seq<seq<string>>, k: nat,
                         vectors: seq<Vector>, requests: seq<seq<string>>, delays: seq<nat>, v: seq<Vector>, gap: seq<nat>)
    requires k < |batches|
    requires spec == Prepend(vectors, requests, delays, EmbedBatches(run, firstCall, batches[k..]))
    requires run(firstCall, batches[k]).result == Success(v)
    requires gap == if k + 1 < |batches| then [RateLimitDelayMs] else []
    ensures var t := run(firstCall, batches[k]);
      spec == Prepend(vectors + v, requests + Repeat(batches[k], t.attempts), delays + (t.waits + gap),
        EmbedBatches(run, firstCall + t.attempts, batches[k + 1..]))
  {
    var t := run(firstCall, batches[k]);
    SliceCons(batches, k);
    assert batches[k..][1..] == batches[k + 1..];
    PrependPrepend(vectors, requests, delays, v, Repeat(batches[k], t.attempts), t.waits + gap,
      EmbedBatches(run, firstCall + t.attempts, batches[k + 1..]));
  }

  /** A failing batch `k` ends the run with its own error. */
  lemma EmbedBatchesStop(run: BatchRunner, spec: EmbedTrace, firstCall: nat, batches: seq<seq<string>>, k: nat,
                         vectors: seq<Vector>, requests: seq<seq<string>>, delays: seq<nat>)
    requires k < |batches|
    requires spec == Prepend(vectors, requests, delays, EmbedBatches(run, firstCall, batches[k..]))
    requires run(firstCall, batches[k]).result.Failure?
    ensures var t := run(firstCall, batches[k]);
      spec == EmbedTrace(t.result, requests + Repeat(batches[k], t.attempts), delays + t.waits)
  {
    SliceCons(batches, k);
  }

  lemma PrependNothing(rest: EmbedTrace)
    ensures Prepend([], [], [], rest) == rest
  {
    if rest.result.Success? {
      assert [] + rest.result.value == rest.result.value;
    }
    assert [] + rest.requests == rest.requests;
    assert [] + rest.delays == rest.delays;
  }

  /** No text, no call, no wait, no vector. */
  lemma EmbedEmpty(respond: Provider, firstCall: nat)
    ensures Embed(respond, firstCall, []) == EmbedTrace(Success([]), [], [])
  {
  }

  /**
   * `run` behaves as the service's batch handler against `respond`. The equation is
   * instantiated only where `BatchWithRetry` itself is mentioned, so proofs about the batch
   * loop see the handler as a black box.
   */
  ghost predicate Implements(run: BatchRunner, respond: Provider)
  {
    forall c: nat, b: seq<string> {:trigger BatchWithRetry(respond, c, b)} :: run(c, b) == BatchWithRetry(respond, c, b)
  }

  lemma RunnerImplements(respond: Provider)
    ensures Implements(Runner(respond), respond)
  {
  }

  /** Two batch handlers that agree on every call give the same run. */
  lemma {:induction false} EmbedBatchesAgree(run1: BatchRunner, run2: BatchRunner, firstCall: nat, batches: seq<seq<string>>)
    requires forall c: nat, b: seq<string> :: run1(c, b) == run2(c, b)
    ensures EmbedBatches(run1, firstCall, batches) == EmbedBatches(run2, firstCall, batches)
    decreases |batches|
  {
    if batches != [] {
      EmbedBatchesAgree(run1, run2, firstCall + run1(firstCall, batches[0]).attempts, batches[1..]);
    }
  }

  /** Any handler that implements the service's gives the same run as `Embed`. */
  lemma EmbedBatchesImplements(run: BatchRunner, respond: Provider, firstCall: nat, batches: seq<seq<string>>)
    requires Implements(run, respond)
    ensures EmbedBatches(run, firstCall, batches) == EmbedBatches(Runner(respond), firstCall, batches)
  {
    forall c: nat, b: seq<string>
      ensures run(c, b) == Runner(respond)(c, b)
    {
      assert run(c, b) == BatchWithRetry(respond, c, b);
    }
    EmbedBatchesAgree(run, Runner(respond), firstCall, batches);
  }

  /** A batch handler that makes 1 to 3 calls per batch and never waits the inter-batch pause itself. */
  ghost predicate WellBehaved(run: BatchRunner)
  {
    forall c: nat, b: seq<string> ::
      1 <= run(c, b).attempts <= MaxRetries && CountOf(run(c, b).waits, RateLimitDelayMs) == 0
  }

  lemma RunnerWellBehaved(respond: Provider)
    ensures WellBehaved(Runner(respond))
  {
    forall c: nat, b: seq<string> ensures
      1 <= Runner(respond)(c, b).attempts <= MaxRetries && CountOf(Runner(respond)(c, b).waits, RateLimitDelayMs) == 0
    {
      RetryBounds(respond, c, b);
    }
  }

  /** Every request posted is one of the batches. */
  lemma {:induction false} EmbedBatchesRequestsAreBatches(run: BatchRunner, firstCall: nat, batches: seq<seq<string>>)
    ensures forall r :: r in EmbedBatches(run, firstCall, batches).requests ==> r in batches
    decreases |batches|
  {
    if batches != [] {
      var t := run(firstCall, batches[0]);
      var sent := Repeat(batches[0], t.attempts);
      assert forall r :: r in sent ==> r == batches[0];
      if t.result.Success? {
        EmbedBatchesRequestsAreBatches(run, firstCall + t.attempts, batches[1..]);
        var rest := EmbedBatches(run, firstCall + t.attempts, batches[1..]);
        assert forall r :: r in rest.requests ==> r in batches[1..];
      }
    }
  }

  /** No batch is posted more than 3 times, and each batch of a successful run at least once. */
  lemma {:induction false} EmbedBatchesRequestCount(run: BatchRunner, firstCall: nat, batches: seq<seq<string>>)
    requires WellBehaved(run)
    ensures var e := EmbedBatches(run, firstCall, batches);
      && |e.requests| <= MaxRetries * |batches|
      && (e.result.Success? ==> |e.requests| >= |batches|)
    decreases |batches|
  {
    if batches != [] {
      var t := run(firstCall, batches[0]);
      if t.result.Success? {
        EmbedBatchesRequestCount(run, firstCall + t.attempts, batches[1..]);
      }
    }
  }

  /**
   * Every request carries 1 to 128 texts; a run makes at most 3 calls per batch, and a
   * successful run at least one per batch.
   */
  lemma EmbedRequests(respond: Provider, firstCall: nat, texts: seq<string>)
    ensures var e := Embed(respond, firstCall, texts);
      && (forall r :: r in e.requests ==> 0 < |r| <= MaxBatchSize)
      && |e.requests| <= MaxRetries * NumBatches(|texts|)
      && (e.result.Success? ==> |e.requests| >= NumBatches(|texts|))
  {
    BatchesPartition(texts);
    RunnerWellBehaved(respond);
    EmbedBatchesRequestsAreBatches(Runner(respond), firstCall, Batches(texts));
    EmbedBatchesRequestCount(Runner(respond), firstCall, Batches(texts));
  }

  /** A successful run over n >= 1 batches paused between batches exactly n - 1 times. */
  lemma {:induction false} EmbedBatchesPauses(run: BatchRunner, firstCall: nat, batches: seq<seq<string>>)
    requires WellBehaved(run) && batches != []
    ensures var e := EmbedBatches(run, firstCall, batches);
      e.result.Success? ==> CountOf(e.delays, RateLimitDelayMs) == |batches| - 1
    decreases |batches|
  {
    var t := run(firstCall, batches[0]);
    if t.result.Success? {
      var gap := if |batches| > 1 then [RateLimitDelayMs] else [];
      var rest := EmbedBatches(run, firstCall + t.attempts, batches[1..]);
      CountOfAppend(t.waits, gap, RateLimitDelayMs);
      CountOfAppend(t.waits + gap, rest.delays, RateLimitDelayMs);
      if |batches| > 1 {
        EmbedBatchesPauses(run, firstCall + t.attempts, batches[1..]);
      }
    }
  }

  /**
   * A successful run over n texts paused 500 ms exactly ceil(n / 128) - 1 times, once
   * between each two batches and never after the last: its waits are the batches'
   * backoff waits (attempt a of a batch waits a * 30 s) joined by the pauses.
   */
  lemma EmbedPauses(respond: Provider, firstCall: nat, texts: seq<string>)
    requires texts != []
    ensures var e, ws := Embed(respond, firstCall, texts), BatchWaits(Runner(respond), firstCall, Batches(texts));
      e.result.Success? ==>
        && CountOf(e.delays, RateLimitDelayMs) == NumBatches(|texts|) - 1
        && |ws| == NumBatches(|texts|)
        && e.delays == JoinPauses(ws)
        && (forall j :: 0 <= j < |ws| ==> CountOf(ws[j], RateLimitDelayMs) == 0)
  {
    BatchesPartition(texts);
    RunnerWellBehaved(respond);
    EmbedBatchesPauses(Runner(respond), firstCall, Batches(texts));
    EmbedBatchesPauseBetween(Runner(respond), firstCall, Batches(texts));
  }

  /** The backoff waits of each batch of a run, in batch order, as long as the batches succeed. */
  function BatchWaits(run: BatchRunner, firstCall: nat, batches: seq<seq<string>>): seq<seq<nat>>
    decreases |batches|
  {
    if batches == [] then []
    else
      var t := run(firstCall, batches[0]);
      [t.waits] + (if t.result.Success? then BatchWaits(run, firstCall + t.attempts, batches[1..]) else [])
  }

  /** Wait lists joined by the 500 ms pause: `w0 + [500] + w1 + ... + [500] + wk`. */
  function JoinPauses(ws: seq<seq<nat>>): seq<nat>
    decreases |ws|
  {
    if ws == [] then []
    else if |ws| == 1 then ws[0]
    else ws[0] + [RateLimitDelayMs] + JoinPauses(ws[1..])
  }

  /**
   * The waits of a successful run are each batch's own backoff waits, joined by one
   * 500 ms pause between consecutive batches: no pause before the first batch or after
   * the last, and no other 500 ms wait.
   */
  lemma {:induction false} EmbedBatchesPauseBetween(run: BatchRunner, firstCall: nat, batches: seq<seq<string>>)
    requires WellBehaved(run)
    ensures var e, ws := EmbedBatches(run, firstCall, batches), BatchWaits(run, firstCall, batches);
      e.result.Success? ==>
        && |ws| == |batches|
        && e.delays == JoinPauses(ws)
        && (forall j :: 0 <= j < |ws| ==> CountOf(ws[j], RateLimitDelayMs) == 0)
    decreases |batches|
  {
    if batches != [] {
      var t := run(firstCall, batches[0]);
      if t.result.Success? {
        var rest := EmbedBatches(run, firstCall + t.attempts, batches[1..]);
        var ws := BatchWaits(run, firstCall + t.attempts, batches[1..]);
        EmbedBatchesPauseBetween(run, firstCall + t.attempts, batches[1..]);
        if |batches| == 1 {
          assert batches[1..] == [];
          assert t.waits + [] + rest.delays == t.waits;
        } else {
          assert ([t.waits] + ws)[1..] == ws;
          AppendAssoc(t.waits + [RateLimitDelayMs], [], rest.delays);
        }
      }
    }
  }

  // ---------------------------------------------------------------------------
  // Order and length of the result
  // ---------------------------------------------------------------------------

  /** The vectors a faithful provider owes for `input`: one per text, indexed by position. */
  function Indexed(input: seq<string>, embed: string -> Vector): (d: seq<EmbeddingData>)
    ensures |d| == |input| && forall j :: 0 <= j < |d| ==> d[j] == EmbeddingData(j, embed(input[j]))
  {
    seq(|input|, j requires 0 <= j < |input| => EmbeddingData(j, embed(input[j])))
  }

  /** A provider whose successful responses list exactly one vector per input text, in any order. */
  ghost predicate Faithful(respond: Provider, embed: string -> Vector)
  {
    forall k: nat, input: seq<string> ::
      respond(k, input).success && respond(k, input).data.Some? ==>
        multiset(respond(k, input).data.value) == multiset(Indexed(input, embed))
  }

  function MapEmbed(texts: seq<string>, embed: string -> Vector): (vs: seq<Vector>)
    ensures |vs| == |texts| && forall i :: 0 <= i < |texts| ==> vs[i] == embed(texts[i])
  {
    seq(|texts|, i requires 0 <= i < |texts| => embed(texts[i]))
  }

  lemma IndexedInjective(input: seq<string>, embed: string -> Vector)
    ensures KeyInjective(multiset(Indexed(input, embed)), IndexKey)
  {
    var ix := Indexed(input, embed);
    forall u, v | u in multiset(ix) && v in multiset(ix) && IndexKey(u) == IndexKey(v) ensures u == v {
      assert u in ix && v in ix;
    }
  }

  lemma IndexedSorted(input: seq<string>, embed: string -> Vector)
    ensures SortByIndex(Indexed(input, embed)) == Indexed(input, embed)
  {
    var ix := Indexed(input, embed);
    IndexedInjective(input, embed);
    assert SortedBy(ix, IndexKey);
    SortedArrangementUnique(SortByIndex(ix), ix, IndexKey);
  }

  /** A response listing one vector per text, in any order, parses to the vectors in text order. */
  lemma ParseFaithful(resp: VoyageResponse, input: seq<string>, embed: string -> Vector)
    requires resp.success && resp.data.Some? && multiset(resp.data.value) == multiset(Indexed(input, embed))
    requires ParseResponse(resp).Success?
    ensures ParseResponse(resp).value == MapEmbed(input, embed)
  {
    var ix := Indexed(input, embed);
    IndexedInjective(input, embed);
    SortByIgnoresInputOrder(resp.data.value, ix, IndexKey);
    IndexedSorted(input, embed);
    assert SortByIndex(resp.data.value) == ix;
  }

  /** A batch handler whose successful batches yield `embed` of each text, in order. */
  ghost predicate RunsFaithfully(run: BatchRunner, embed: string -> Vector)
  {
    forall c: nat, b: seq<string> :: run(c, b).result.Success? ==> run(c, b).result.value == MapEmbed(b, embed)
  }

  lemma RunnerFaithful(respond: Provider, embed: string -> Vector)
    requires Faithful(respond, embed)
    ensures RunsFaithfully(Runner(respond), embed)
  {
    forall c: nat, b: seq<string> | Runner(respond)(c, b).result.Success?
      ensures Runner(respond)(c, b).result.value == MapEmbed(b, embed)
    {
      var t := BatchWithRetry(respond, c, b);
      RetryShape(respond, c, b);
      var resp := respond(c + (t.attempts - 1), b);
      assert t.result == ParseResponse(resp);
      ParseFaithful(resp, b, embed);
    }
  }

  lemma {:induction false} EmbedBatchesFaithful(run: BatchRunner, embed: string -> Vector, firstCall: nat, batches: seq<seq<string>>)
    requires RunsFaithfully(run, embed)
    ensures var e := EmbedBatches(run, firstCall, batches);
      e.result.Success? ==> e.result.value == MapEmbed(Flatten(batches), embed)
    decreases |batches|
  {
    if batches != [] {
      var t := run(firstCall, batches[0]);
      if t.result.Success? {
        EmbedBatchesFaithful(run, embed, firstCall + t.attempts, batches[1..]);
        assert MapEmbed(Flatten(batches), embed) == MapEmbed(batches[0], embed) + MapEmbed(Flatten(batches[1..]), embed);
      }
    }
  }

  /**
   * With a provider that returns one vector per text, in whatever order, a successful run
   * yields exactly one vector per input text, in input order.
   */
  lemma EmbedPreservesOrder(respond: Provider, embed: string -> Vector, firstCall: nat, texts: seq<string>)
    requires Faithful(respond, embed)
    ensures var e := Embed(respond, firstCall, texts);
      e.result.Success? ==> e.result.value == MapEmbed(texts, embed)
  {
    BatchesPartition(texts);
    RunnerFaithful(respond, embed);
    EmbedBatchesFaithful(Runner(respond), embed, firstCall, Batches(texts));
  }

  /** An input of at most 128 texts is one batch. */
  lemma OneBatch(texts: seq<string>)
    requires 0 < |texts| <= MaxBatchSize
    ensures Batches(texts) == [texts]
  {
    assert texts[..Min(MaxBatchSize, |texts|)] == texts && texts[|texts|..] == [];
  }

  /** A first attempt that succeeds ends the batch: one call, no wait. */
  lemma FirstAttemptAccepted(respond: Provider, firstCall: nat, batch: seq<string>, v: seq<Vector>)
    requires ParseResponse(respond(firstCall, batch)) == Success(v)
    ensures BatchWithRetry(respond, firstCall, batch) == BatchTrace(Success(v), 1, [])
  {
    assert CallOutcomes(respond, firstCall, batch)(0) == Success(v);
  }

  /** A run over a single batch that succeeds is that batch's trace, with no pause after it. */
  lemma EmbedLoneBatch(run: BatchRunner, firstCall: nat, batch: seq<string>)
    requires run(firstCall, batch).result.Success?
    ensures var t := run(firstCall, batch);
      EmbedBatches(run, firstCall, [batch]) == EmbedTrace(t.result, Repeat(batch, t.attempts), t.waits)
  {
    var t := run(firstCall, batch);
    assert [batch][1..] == [];
    var rest := EmbedBatches(run, firstCall + t.attempts, []);
    assert EmbedBatches(run, firstCall, [batch]) == Prepend(t.result.value, Repeat(batch, t.attempts), t.waits + [], rest);
    assert t.result.value + [] == t.result.value && t.waits + [] == t.waits;
  }

  /** An input of at most 128 texts whose first response is accepted takes one call and no pause. */
  lemma SingleBatch(respond: Provider, firstCall: nat, texts: seq<string>, v: seq<Vector>)
    requires 0 < |texts| <= MaxBatchSize
    requires ParseResponse(respond(firstCall, texts)) == Success(v)
    ensures Embed(respond, firstCall, texts) == EmbedTrace(Success(v), [texts], [])
  {
    OneBatch(texts);
    FirstAttemptAccepted(respond, firstCall, texts, v);
    assert Runner(respond)(firstCall, texts) == BatchTrace(Success(v), 1, []);
    EmbedLoneBatch(Runner(respond), firstCall, texts);
    assert Repeat(texts, 1) == [texts];
  }

  /** `OrderBy(d => d.Index)` puts `[{index 1: vb}, {index 0: va}]` in index order. */
  lemma SortTwo(va: Vector, vb: Vector)
    ensures SortByIndex([EmbeddingData(1, vb), EmbeddingData(0, va)]) == [EmbeddingData(0, va), EmbeddingData(1, vb)]
  {
    var d0, d1 := EmbeddingData(0, va), EmbeddingData(1, vb);
    assert [d1, d0][..1] == [d1] && [d1][..0] == [];
    assert SortBy([d1], IndexKey) == [d1];
  }

  /** Responses `[{index 1: vb}, {index 0: va}]` for inputs ["a", "b"] give `[va, vb]`. */
  lemma ReorderExample(va: Vector, vb: Vector)
    ensures var respond := (k: nat, input: seq<string>) =>
        VoyageResponse(true, "OK", "", Some([EmbeddingData(1, vb), EmbeddingData(0, va)]));
      Embed(respond, 0, ["a", "b"]).result == Success([va, vb])
  {
    var respond := (k: nat, input: seq<string>) =>
        VoyageResponse(true, "OK", "", Some([EmbeddingData(1, vb), EmbeddingData(0, va)]));
    SortTwo(va, vb);
    assert Embeddings([EmbeddingData(0, va), EmbeddingData(1, vb)]) == [va, vb];
    assert ParseResponse(respond(0, ["a", "b"])) == Success([va, vb]);
    SingleBatch(respond, 0, ["a", "b"], [va, vb]);
  }

  /** Nothing checks the count: a provider that returns one vector for two texts makes the run succeed with one. */
  lemma ShortResponseAccepted(v: Vector)
    ensures var respond := (k: nat, input: seq<string>) => VoyageResponse(true, "OK", "", Some([EmbeddingData(0, v)]));
      Embed(respond, 0, ["a", "b"]).result == Success([v])
  {
    var respond := (k: nat, input: seq<string>) => VoyageResponse(true, "OK", "", Some([EmbeddingData(0, v)]));
    assert [EmbeddingData(0, v)][..0] == [];
    assert SortByIndex([EmbeddingData(0, v)]) == [EmbeddingData(0, v)];
    assert Embeddings([EmbeddingData(0, v)]) == [v];
    assert ParseResponse(respond(0, ["a", "b"])) == Success([v]);
    SingleBatch(respond, 0, ["a", "b"], [v]);
  }

  // ---------------------------------------------------------------------------
  // The client and the service
  // ---------------------------------------------------------------------------

  /** The HTTP client: posts batches to the embeddings endpoint and waits when told to. */
  class VoyageClient {
    const respond: Provider
    /** Every batch posted, in order. */
    var requests: seq<seq<string>>
    /** Every `Task.Delay`, in milliseconds, in order. */
    ghost var delays: seq<nat>

    constructor (respond: Provider)
      ensures this.respond == respond && requests == [] && delays == []
    {
      this.respond := respond;
      requests := [];
      delays := [];
    }

    method Post(input: seq<string>) returns (resp: VoyageResponse)
      modifies this`requests
      ensures requests == old(requests) + [input]
      ensures resp == respond(|old(requests)|, input)
    {
      resp := respond(|requests|, input);
      requests := requests + [input];
    }

    method Delay(ms: nat)
      modifies this`delays
      ensures delays == old(delays) + [ms]
    {
      delays := delays + [ms];
    }
  }

  class VoyageEmbeddingService {
    const client: VoyageClient
    /** What `GenerateBatchWithRetry` does to one batch, given the number of calls made before it. */
    ghost const run: BatchRunner

    ghost predicate Valid()
    {
      Implements(run, client.respond)
    }

    constructor (client: VoyageClient)
      ensures this.client == client && Valid()
    {
      this.client := client;
      run := Runner(client.respond);
      new;
      RunnerImplements(client.respond);
    }

    /** `GenerateBatchEmbeddingsAsync`: one POST, then validation and re-ordering. */
    method GenerateBatchEmbeddings(texts: seq<string>) returns (r: Result<seq<Vector>, Error>)
      modifies client`requests
      ensures client.requests == old(client.requests) + [texts]
      ensures r == ParseResponse(client.respond(|old(client.requests)|, texts))
    {
      var resp := client.Post(texts);
      r := ParseResponse(resp);
    }

    /** `GenerateBatchWithRetryAsync`. */
    method GenerateBatchWithRetry(texts: seq<string>) returns (result: Result<seq<Vector>, Error>)
      requires Valid()
      modifies client`requests, client`delays
      ensures var t := run(|old(client.requests)|, texts);
        && result == t.result
        && client.requests == old(client.requests) + Repeat(texts, t.attempts)
        && client.delays == old(client.delays) + t.waits
    {
      ghost var firstCall := |client.requests|;
      ghost var outcome := CallOutcomes(client.respond, firstCall, texts);
      for attempt := 1 to MaxRetries + 1
        invariant attempt <= MaxRetries
        invariant client.requests == old(client.requests) + Repeat(texts, attempt - 1)
        invariant client.delays == old(client.delays) + Backoff(1, attempt)
        invariant forall k :: 0 <= k < attempt - 1 ==> Retryable(outcome(k))
      {
        var r := GenerateBatchEmbeddings(texts);
        assert r == outcome(attempt - 1);
        if r.Success? {
          RetryStopsAt(client.respond, firstCall, texts, attempt);
          return r;
        }
        if IsRateLimited(r.error) && attempt < MaxRetries {
          client.Delay(attempt * RetryBaseDelayMs);
          assert Backoff(1, attempt) + [attempt * RetryBaseDelayMs] == Backoff(1, attempt + 1);
        } else {
          RetryStopsAt(client.respond, firstCall, texts, attempt);
          return r;
        }
      }
      // The filter lets the third failure escape, so the final unguarded call after the loop is never reached.
      assert false;
    }

    /** `GenerateEmbeddingsAsync`. */
    method GenerateEmbeddings(texts: seq<string>) returns (result: Result<seq<Vector>, Error>)
      requires Valid()
      modifies client`requests, client`delays
      ensures var e := Embed(client.respond, |old(client.requests)|, texts);
        && result == e.result
        && client.requests == old(client.requests) + e.requests
        && client.delays == old(client.delays) + e.delays
    {
      ghost var spec := EmbedBatches(run, |client.requests|, Batches(texts));
      ghost var batches := Batches(texts);
      BatchCount(texts);
      ghost var k := 0;
      ghost var calls := |client.requests|;
      ghost var sent: seq<seq<string>> := [];
      ghost var waited: seq<nat> := [];
      var allEmbeddings: seq<Vector> := [];
      var i := 0;
      PrependNothing(spec);
      while i < |texts|
        invariant i == k * MaxBatchSize && k <= |batches|
        invariant i < |texts| <==> k < |batches|
        invariant client.requests == old(client.requests) + sent
        invariant client.delays == old(client.delays) + waited
        invariant calls == |client.requests|
        invariant spec == Prepend(allEmbeddings, sent, waited, EmbedBatches(run, calls, batches[k..]))
        decreases |texts| - i
      {
        var batch := texts[i .. Min(i + MaxBatchSize, |texts|)];
        BatchAt(texts, k);
        assert batch == batches[k];
        NumBatchesBound(|texts|, k + 1);
        var batchEmbeddings := GenerateBatchWithRetry(batch);
        ghost var t := run(calls, batch);
        AppendAssoc(old(client.requests), sent, Repeat(batch, t.attempts));
        AppendAssoc(old(client.delays), waited, t.waits);
        if batchEmbeddings.Failure? {
          EmbedBatchesStop(run, spec, calls, batches, k, allEmbeddings, sent, waited);
          result := batchEmbeddings;
          EmbedBatchesImplements(run, client.respond, |old(client.requests)|, Batches(texts));
          return;
        }
        ghost var afterBatch := client.delays;
        ghost var gap: seq<nat> := [];
        if i + MaxBatchSize < |texts| {
          client.Delay(RateLimitDelayMs);
          gap := [RateLimitDelayMs];
        }
        EmbedBatchesStep(run, spec, calls, batches, k, allEmbeddings, sent, waited, batchEmbeddings.value, gap);
        assert |client.requests| == calls + t.attempts;
        AppendAssoc(old(client.delays), waited + t.waits, gap);
        AppendAssoc(waited, t.waits, gap);
        allEmbeddings := allEmbeddings + batchEmbeddings.value;
        sent := sent + Repeat(batch, t.attempts);
        waited := waited + (t.waits + gap);
        calls := calls + t.attempts;
        i := i + MaxBatchSize;
        k := k + 1;
      }
      PrependDone(allEmbeddings, sent, waited);
      result := Success(allEmbeddings);
      EmbedBatchesImplements(run, client.respond, |old(client.requests)|, Batches(texts));
    }
  }
}
