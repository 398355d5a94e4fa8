/** The completion dispatcher `dispatchOpenAIRequests` (nextjs_app/utils/evaluate.js): per-model
    rate ceilings, the rate bookkeeping of `handleRateLimit` (a token counter and a queue of request
    timestamps), batches of 32 prompts, up to four attempts per prompt, and the concatenation of the
    batch results.

    The source runs the prompts of one batch concurrently and sleeps for the computed delays. Here
    every prompt is handled in order, the delays are returned instead of slept, the clock is a
    timestamp per prompt, the tokenizer is a function from prompt to token count, and the
    completion client is a function giving the outcome of attempt `k` for prompt `i`. */
module Evaluate {
  import opened Common

  const Turbo := "gpt-3.5-turbo"
  const BatchSize := 32
  const NumRequestRetries := 3
  /** One minute in milliseconds. */
  const Minute := 60000

  function Min(a: int, b: int): int
  {
    if a <= b then a else b
  }

  // ----- Rate ceilings -----------------------------------------------------------------------

  datatype Ceilings = Ceilings(requestsPerMinute: nat, tokensPerMinute: nat)

  /** Half of the provider's published limits, chosen by the model name alone. */
  function CeilingsFor(model: string): (c: Ceilings)
    ensures c.requestsPerMinute == (if model == Turbo then 1750 else 1500)
    ensures c.tokensPerMinute == (if model == Turbo then 45000 else 125000)
  {
    if model == Turbo then Ceilings(3500 / 2, 90000 / 2) else Ceilings(3000 / 2, 250000 / 2)
  }

  // ----- Rate bookkeeping --------------------------------------------------------------------

  /** One pushed element of `requestQueue`. */
  datatype Entry = Entry(prompt: string, timestamp: int)

  /** The closure state of one `dispatchOpenAIRequests` call. */
  datatype Limiter = Limiter(tokensUsed: int, requestQueue: seq<Entry>)

  /** `num / den` milliseconds. */
  datatype Ratio = Ratio(num: int, den: int)

  /** The delays one `handleRateLimit` call waits: the token wait and the request-queue wait. */
  datatype Admission = Admission(tokenDelay: Option<Ratio>, queueDelay: Option<int>)

  const Fresh := Limiter(0, [])

  /** The queue after pushing the current request, before any shift. */
  function Pushed(s: Limiter, prompt: string, now: int): seq<Entry>
  {
    s.requestQueue + [Entry(prompt, now)]
  }

  /** One `handleRateLimit(prompt)` call at time `now` for a prompt of `promptTokens` tokens. */
  function RateStep(c: Ceilings, s: Limiter, prompt: string, promptTokens: nat, now: int): (r: (Limiter, Admission))
    // the token wait happens exactly when the new charge passes the ceiling; its length is the
    // share of the ceiling the earlier usage left, scaled to one minute
    ensures r.1.tokenDelay.Some? <==> s.tokensUsed + promptTokens > c.tokensPerMinute
    ensures r.1.tokenDelay.Some? ==>
      r.1.tokenDelay.value.den == c.tokensPerMinute &&
      r.1.tokenDelay.value.num == (c.tokensPerMinute - s.tokensUsed) * Minute
    // the queue wait happens exactly when the queue is over the ceiling and its oldest entry is
    // younger than a minute; only then is an entry shifted off
    ensures var q := Pushed(s, prompt, now);
      (r.1.queueDelay.Some? <==> |q| > c.requestsPerMinute && now - q[0].timestamp < Minute) &&
      (r.1.queueDelay.Some? ==> r.1.queueDelay.value == Minute - (now - q[0].timestamp) > 0 && r.0.requestQueue == q[1..]) &&
      (r.1.queueDelay.None? ==> r.0.requestQueue == q)
    // the charge stays only when no token wait happened; the queue wait takes it off once more
    ensures r.0.tokensUsed ==
      s.tokensUsed + (if r.1.tokenDelay.None? then promptTokens else 0) - (if r.1.queueDelay.Some? then promptTokens else 0)
    ensures s.tokensUsed <= c.tokensPerMinute ==> r.0.tokensUsed <= c.tokensPerMinute
  {
    var charged := s.tokensUsed + promptTokens;
    var tokenDelay :=
      if charged > c.tokensPerMinute
      then Some(Ratio((c.tokensPerMinute - (charged - promptTokens)) * Minute, c.tokensPerMinute))
      else None;
    var used := if charged > c.tokensPerMinute then charged - promptTokens else charged;
    var queue := Pushed(s, prompt, now);
    var elapsed := now - queue[0].timestamp;
    if |queue| > c.requestsPerMinute && elapsed < Minute then
      (Limiter(used - promptTokens, queue[1..]), Admission(tokenDelay, Some(Minute - elapsed)))
    else
      (Limiter(used, queue), Admission(tokenDelay, None))
  }

  /** While the counter is within its ceiling, the token delay lies between zero and a minute
      exactly when the counter is not negative. */
  lemma TokenDelayBounds(c: Ceilings, s: Limiter, prompt: string, promptTokens: nat, now: int)
    requires 0 < c.tokensPerMinute && s.tokensUsed <= c.tokensPerMinute
    ensures var d := RateStep(c, s, prompt, promptTokens, now).1.tokenDelay;
      d.Some? ==> 0 <= d.value.num && (d.value.num <= Minute * d.value.den <==> 0 <= s.tokensUsed)
  {
  }

  /** With a clock that never runs backwards, a queue wait is at most one minute. */
  lemma QueueDelayAtMostMinute(c: Ceilings, s: Limiter, prompt: string, promptTokens: nat, now: int)
    requires forall k :: 0 <= k < |s.requestQueue| ==> s.requestQueue[k].timestamp <= now
    ensures var d := RateStep(c, s, prompt, promptTokens, now).1.queueDelay;
      d.Some? ==> 0 < d.value <= Minute
  {
    var q := Pushed(s, prompt, now);
    assert q[0].timestamp <= now by {
      if |s.requestQueue| > 0 { assert q[0] == s.requestQueue[0]; }
    }
  }

  /** The rate steps of prompts handled in order: the final state and the delays of each step. */
  function AdmitAll(c: Ceilings, s: Limiter, prompts: seq<string>, tokens: string -> nat, clock: seq<int>): (r: (Limiter, seq<Admission>))
    requires |clock| == |prompts|
    ensures |r.1| == |prompts|
    decreases |prompts|
  {
    if prompts == [] then (s, [])
    else
      var n := |prompts| - 1;
      var before := AdmitAll(c, s, prompts[..n], tokens, clock[..n]);
      var step := RateStep(c, before.0, prompts[n], tokens(prompts[n]), clock[n]);
      (step.0, before.1 + [step.1])
  }

  /** The token counter never ends above its ceiling, however many prompts are handled. */
  lemma {:induction false} AdmitAllKeepsBudget(c: Ceilings, s: Limiter, prompts: seq<string>, tokens: string -> nat, clock: seq<int>)
    requires |clock| == |prompts|
    requires s.tokensUsed <= c.tokensPerMinute
    ensures AdmitAll(c, s, prompts, tokens, clock).0.tokensUsed <= c.tokensPerMinute
    decreases |prompts|
  {
    if prompts != [] {
      var n := |prompts| - 1;
      AdmitAllKeepsBudget(c, s, prompts[..n], tokens, clock[..n]);
    }
  }

  /** The queue is only shifted when a wait happens, and a wait needs an oldest entry younger than
      a minute: once the oldest entry is a minute old, no later call ever waits on the queue, no
      entry is ever shifted again, and every call just appends. */
  lemma {:induction false} StaleHeadNeverWaits(c: Ceilings, s: Limiter, prompts: seq<string>, tokens: string -> nat, clock: seq<int>)
    requires |clock| == |prompts|
    requires s.requestQueue != []
    requires forall k :: 0 <= k < |clock| ==> clock[k] - s.requestQueue[0].timestamp >= Minute
    ensures var r := AdmitAll(c, s, prompts, tokens, clock);
      && r.0.requestQueue == s.requestQueue + seq(|prompts|, k requires 0 <= k < |prompts| => Entry(prompts[k], clock[k]))
      && forall k :: 0 <= k < |r.1| ==> r.1[k].queueDelay.None?
    decreases |prompts|
  {
    if prompts != [] {
      var n := |prompts| - 1;
      StaleHeadNeverWaits(c, s, prompts[..n], tokens, clock[..n]);
      var before := AdmitAll(c, s, prompts[..n], tokens, clock[..n]);
      var q := Pushed(before.0, prompts[n], clock[n]);
      assert q[0] == s.requestQueue[0];
      assert seq(|prompts|, k requires 0 <= k < |prompts| => Entry(prompts[k], clock[k]))
          == seq(n, k requires 0 <= k < n => Entry(prompts[..n][k], clock[..n][k])) + [Entry(prompts[n], clock[n])];
    }
  }

  /** The closure state of `dispatchOpenAIRequests`: the ceilings fixed at the start, and the token
      counter and request queue that `handleRateLimit` updates. */
  class RateLimiter {
    const model: string
    const ceilings: Ceilings
    var tokensUsed: int
    var requestQueue: seq<Entry>

    ghost predicate Valid()
      reads this
    {
      ceilings == CeilingsFor(model) && tokensUsed <= ceilings.tokensPerMinute
    }

    function State(): Limiter
      reads this
    {
      Limiter(tokensUsed, requestQueue)
    }

    constructor (model: string)
      ensures this.model == model && Valid() && State() == Fresh
    {
      this.model := model;
      ceilings := CeilingsFor(model);
      tokensUsed := 0;
      requestQueue := [];
    }

    /** `handleRateLimit(prompt)`, returning the delays it would sleep. */
    method HandleRateLimit(prompt: string, promptTokens: nat, now: int) returns (admission: Admission)
      requires Valid()
      modifies this
      ensures Valid()
      ensures (State(), admission) == RateStep(ceilings, old(State()), prompt, promptTokens, now)
    {
      var tokenDelay: Option<Ratio> := None;
      tokensUsed := tokensUsed + promptTokens;
      if tokensUsed > ceilings.tokensPerMinute {
        var remainingTokens := ceilings.tokensPerMinute - (tokensUsed - promptTokens);
        tokenDelay := Some(Ratio(remainingTokens * Minute, ceilings.tokensPerMinute));
        tokensUsed := tokensUsed - promptTokens;
      }
      requestQueue := requestQueue + [Entry(prompt, now)];
      var queueDelay: Option<int> := None;
      if |requestQueue| > ceilings.requestsPerMinute {
        var elapsedTime := now - requestQueue[0].timestamp;
        if elapsedTime < Minute {
          queueDelay := Some(Minute - elapsedTime);
          requestQueue := requestQueue[1..];
          tokensUsed := tokensUsed - promptTokens;
        }
      }
      admission := Admission(tokenDelay, queueDelay);
    }
  }

  // ----- Batches -----------------------------------------------------------------------------

  /** `Math.ceil(n / 32)`. */
  function NumBatches(n: nat): (b: nat)
    ensures BatchSize * b >= n
    ensures b > 0 ==> BatchSize * (b - 1) < n
  {
    (n + BatchSize - 1) / BatchSize
  }

  /** `prompts.slice(32 * i, Math.min(32 * (i + 1), prompts.length))`. */
  function Batch(prompts: seq<string>, i: nat): (b: seq<string>)
    requires i < NumBatches(|prompts|)
    ensures 0 < |b| <= BatchSize
  {
    prompts[i * BatchSize .. Min((i + 1) * BatchSize, |prompts|)]
  }

  function Batches(prompts: seq<string>): seq<seq<string>>
  {
    seq(NumBatches(|prompts|), i requires 0 <= i < NumBatches(|prompts|) => Batch(prompts, i))
  }

  function Flatten(bs: seq<seq<string>>): seq<string>
    decreases |bs|
  {
    if bs == [] then [] else Flatten(bs[..|bs| - 1]) + bs[|bs| - 1]
  }

  /** The first `k` batches are exactly the first `min(32 k, n)` prompts. */
  lemma {:induction false} FlattenBatchesPrefix(prompts: seq<string>, k: nat)
    requires k <= NumBatches(|prompts|)
    ensures Flatten(Batches(prompts)[..k]) == prompts[..Min(k * BatchSize, |prompts|)]
  {
    if k > 0 {
      FlattenBatchesPrefix(prompts, k - 1);
      var bs := Batches(prompts)[..k];
      assert bs[..k - 1] == Batches(prompts)[..k - 1];
      assert bs[k - 1] == Batch(prompts, k - 1);
    }
  }

  /** `ceil(n / 32)` batches of 1 to 32 prompts, batch `i` covering indexes `[32 i, min(32 (i + 1), n))`,
      whose concatenation is the prompt list in its order. */
  lemma BatchesPartitionPrompts(prompts: seq<string>)
    ensures var bs := Batches(prompts);
      && |bs| == NumBatches(|prompts|)
      && (forall i :: 0 <= i < |bs| ==>
            0 < |bs[i]| <= BatchSize && bs[i] == prompts[i * BatchSize .. Min((i + 1) * BatchSize, |prompts|)])
      && Flatten(bs) == prompts
  {
    var bs := Batches(prompts);
    FlattenBatchesPrefix(prompts, |bs|);
    assert bs[..|bs|] == bs;
  }

  // ----- Attempts ----------------------------------------------------------------------------

  /** What an awaited client call gives: the response (possibly `null`), or a thrown error. */
  datatype Reply = NullReply | Completion(text: string)
  datatype CallOutcome = Returned(reply: Reply) | Threw

  /** The value a prompt's async function ends with: `undefined` after four failures, the response,
      or (on the unawaited `gpt-3.5-turbo` path) a promise that rejects. */
  datatype Slot = Undefined | Settled(reply: Reply) | Rejected

  /** The client's behaviour: `call(i, k)` is the outcome of attempt `k` for prompt `i`. */
  type Client = (nat, nat) -> CallOutcome

  /** The retry loop from `retryCount` on: the value and the number of attempts made in all. */
  function RetryFrom(call: Client, i: nat, retryCount: nat): (r: (Slot, nat))
    requires retryCount <= NumRequestRetries + 1
    ensures retryCount <= r.1 <= NumRequestRetries + 1
    ensures r.0 != Rejected
    decreases NumRequestRetries + 1 - retryCount
  {
    if retryCount > NumRequestRetries then (Undefined, retryCount)
    else
      match call(i, retryCount)
      case Returned(reply) => (Settled(reply), retryCount + 1)
      case Threw => RetryFrom(call, i, retryCount + 1)
  }

  /** The retry loop stops at the first attempt that returns and gives its response; the value
      stays `undefined` exactly when all four attempts throw. */
  lemma {:induction false} RetryOutcome(call: Client, i: nat, retryCount: nat)
    requires retryCount <= NumRequestRetries + 1
    ensures var r := RetryFrom(call, i, retryCount);
      && (r.0 == Undefined <==> forall k :: retryCount <= k <= NumRequestRetries ==> call(i, k) == Threw)
      && (r.0 == Undefined ==> r.1 == NumRequestRetries + 1)
      && (r.0.Settled? ==> retryCount < r.1 && call(i, r.1 - 1) == Returned(r.0.reply))
      && (forall k :: retryCount <= k && k + 1 < r.1 ==> call(i, k) == Threw)
    decreases NumRequestRetries + 1 - retryCount
  {
    if retryCount <= NumRequestRetries && call(i, retryCount) == Threw {
      RetryOutcome(call, i, retryCount + 1);
    }
  }

  /** The value of prompt `i`'s async function and the number of client calls it made. */
  function PromptOutcome(model: string, call: Client, i: nat): (r: (Slot, nat))
    ensures 1 <= r.1 <= NumRequestRetries + 1
    ensures model == Turbo ==> r.1 == 1
    ensures model == Turbo ==> (r.0 == Rejected <==> call(i, 0) == Threw)
  {
    if model == Turbo then
      (match call(i, 0) case Returned(reply) => Settled(reply) case Threw => Rejected, 1)
    else
      var r := RetryFrom(call, i, 0);
      assert call(i, 0) == Threw ==> r.1 > 0;
      r
  }

  /** The attempt loop for prompt `i`. */
  method SendWithRetries(model: string, call: Client, i: nat) returns (result: Slot, attempts: nat)
    ensures (result, attempts) == PromptOutcome(model, call, i)
  {
    result := Undefined;
    var retryCount := 0;
    while retryCount <= NumRequestRetries
      invariant retryCount <= NumRequestRetries + 1
      invariant model == Turbo ==> retryCount == 0
      invariant model != Turbo ==> RetryFrom(call, i, retryCount) == RetryFrom(call, i, 0)
    {
      if model == Turbo {
        // the chat call is not awaited: nothing is caught and the loop always breaks
        result := match call(i, 0) case Returned(reply) => Settled(reply) case Threw => Rejected;
        attempts := 1;
        return;
      } else {
        match call(i, retryCount)
        case Returned(reply) =>
          result, attempts := Settled(reply), retryCount + 1;
          return;
        case Threw =>
          retryCount := retryCount + 1;
      }
    }
    attempts := retryCount;
  }

  // ----- Result assembly ---------------------------------------------------------------------

  /** `results.filter(result => result !== null)`: drops `null` responses, keeps `undefined`. */
  function DropNull(s: seq<Slot>): (r: seq<Slot>)
    ensures forall k :: 0 <= k < |r| ==> r[k] != Settled(NullReply)
    decreases |s|
  {
    if s == [] then []
    else
      var n := |s| - 1;
      DropNull(s[..n]) + (if s[n] == Settled(NullReply) then [] else [s[n]])
  }

  lemma {:induction false} DropNullAppend(a: seq<Slot>, b: seq<Slot>)
    ensures DropNull(a + b) == DropNull(a) + DropNull(b)
    decreases |b|
  {
    if b == [] {
      assert a + b == a;
    } else {
      var n := |b| - 1;
      assert (a + b)[..|a + b| - 1] == a + b[..n];
      assert (a + b)[|a + b| - 1] == b[n];
      DropNullAppend(a, b[..n]);
    }
  }

  /** Without `null` responses nothing is dropped. */
  lemma {:induction false} DropNullKeepsAll(s: seq<Slot>)
    requires forall k :: 0 <= k < |s| ==> s[k] != Settled(NullReply)
    ensures DropNull(s) == s
    decreases |s|
  {
    if s != [] {
      var n := |s| - 1;
      DropNullKeepsAll(s[..n]);
      assert s[..n] + [s[n]] == s;
    }
  }

  function FirstRejectedFrom(s: seq<Slot>, from: nat): (r: Option<nat>)
    ensures r.Some? ==> from <= r.value < |s| && s[r.value] == Rejected
    ensures r.Some? ==> forall k :: from <= k < r.value ==> s[k] != Rejected
    ensures r.None? ==> forall k :: from <= k < |s| ==> s[k] != Rejected
    decreases |s| - from
  {
    if from >= |s| then None
    else if s[from] == Rejected then Some(from)
    else FirstRejectedFrom(s, from + 1)
  }

  /** The value of every prompt's async function, in prompt order. */
  function Slots(model: string, call: Client, n: nat): (s: seq<Slot>)
    ensures |s| == n
  {
    seq(n, i requires 0 <= i < n => PromptOutcome(model, call, i).0)
  }

  /** What `dispatchOpenAIRequests` ends with: the concatenated results, or a rejection when a
      batch's `Promise.all` rejects. */
  datatype Dispatched = Results(results: seq<Slot>) | Rejection

  /** The number of prompts handled when the prompt at index `j` rejects: its whole batch. */
  function HandledUpTo(n: nat, j: nat): nat
  {
    Min(n, (j / BatchSize + 1) * BatchSize)
  }

  /** The outcome of the whole call and the delays of every `handleRateLimit` call made. */
  function Dispatch(model: string, prompts: seq<string>, tokens: string -> nat, clock: seq<int>, call: Client): (r: (Dispatched, seq<Admission>))
    requires |clock| == |prompts|
  {
    var c := CeilingsFor(model);
    var slots := Slots(model, call, |prompts|);
    match FirstRejectedFrom(slots, 0)
    case None => (Results(DropNull(slots)), AdmitAll(c, Fresh, prompts, tokens, clock).1)
    case Some(j) =>
      var handled := HandledUpTo(|prompts|, j);
      (Rejection, AdmitAll(c, Fresh, prompts[..handled], tokens, clock[..handled]).1)
  }

  /** When no prompt ends with a rejection or a `null` response, there is one result per prompt
      and result `i` is prompt `i`'s: the first successful attempt's response, or `undefined`
      when all four attempts failed. Every prompt was rate-checked exactly once, whatever its
      number of attempts. */
  lemma DispatchKeepsOrder(model: string, prompts: seq<string>, tokens: string -> nat, clock: seq<int>, call: Client)
    requires |clock| == |prompts|
    requires forall i :: 0 <= i < |prompts| ==> PromptOutcome(model, call, i).0 !in {Rejected, Settled(NullReply)}
    ensures var r := Dispatch(model, prompts, tokens, clock, call);
      && r.0.Results?
      && |r.0.results| == |prompts|
      && (forall i :: 0 <= i < |prompts| ==> r.0.results[i] == PromptOutcome(model, call, i).0)
      && r.1 == AdmitAll(CeilingsFor(model), Fresh, prompts, tokens, clock).1
  {
    var slots := Slots(model, call, |prompts|);
    assert forall k :: 0 <= k < |slots| ==> slots[k] != Rejected && slots[k] != Settled(NullReply);
    DropNullKeepsAll(slots);
  }

  /** Except on the `gpt-3.5-turbo` path, the call never rejects: failures become `undefined`. */
  lemma OtherModelsNeverReject(model: string, prompts: seq<string>, tokens: string -> nat, clock: seq<int>, call: Client)
    requires |clock| == |prompts| && model != Turbo
    ensures Dispatch(model, prompts, tokens, clock, call).0.Results?
  {
    var slots := Slots(model, call, |prompts|);
    assert forall k :: 0 <= k < |slots| ==> slots[k] == RetryFrom(call, k, 0).0;
  }

  /** One more prompt handled in order extends the rate steps by that prompt's step. */
  lemma AdmitAllPrefixStep(c: Ceilings, prompts: seq<string>, tokens: string -> nat, clock: seq<int>, k: nat)
    requires |clock| == |prompts| && k < |prompts|
    ensures var before := AdmitAll(c, Fresh, prompts[..k], tokens, clock[..k]);
      var step := RateStep(c, before.0, prompts[k], tokens(prompts[k]), clock[k]);
      AdmitAll(c, Fresh, prompts[..k + 1], tokens, clock[..k + 1]) == (step.0, before.1 + [step.1])
  {
    assert prompts[..k + 1][..k] == prompts[..k];
    assert clock[..k + 1][..k] == clock[..k];
  }

  /** The closure state and the delays after rate-checking the first `k` prompts in order. */
  ghost predicate Admitted(c: Ceilings, prompts: seq<string>, tokens: string -> nat, clock: seq<int>, k: nat,
                           state: Limiter, admissions: seq<Admission>)
    requires k <= |prompts| == |clock|
  {
    AdmitAll(c, Fresh, prompts[..k], tokens, clock[..k]) == (state, admissions)
  }

  /** The async function of the prompt at index `k`: `handleRateLimit`, after the prompts before
      it, then the attempt loop. Its delays and its result are appended to those before it. */
  method HandlePrompt(limiter: RateLimiter, model: string, prompts: seq<string>, tokens: string -> nat, clock: seq<int>,
                      call: Client, start: nat, k: nat, ghost earlier: seq<Admission>, admissions: seq<Admission>, results: seq<Slot>)
    returns (admissions': seq<Admission>, results': seq<Slot>)
    requires start <= k < |prompts| == |clock|
    requires limiter.Valid()
    requires Admitted(limiter.ceilings, prompts, tokens, clock, k, limiter.State(), earlier + admissions)
    requires results == Outcomes(model, call, start, k)
    modifies limiter
    ensures limiter.Valid()
    ensures Admitted(limiter.ceilings, prompts, tokens, clock, k + 1, limiter.State(), earlier + admissions')
    ensures results' == Outcomes(model, call, start, k + 1)
  {
    AdmitAllPrefixStep(limiter.ceilings, prompts, tokens, clock, k);
    var admission := limiter.HandleRateLimit(prompts[k], tokens(prompts[k]), clock[k]);
    admissions' := admissions + [admission];
    assert earlier + admissions' == (earlier + admissions) + [admission];
    var result, _ := SendWithRetries(model, call, k);
    results' := results + [result];
  }

  /** The prompts `batchStart .. batchEnd` of one batch: each is rate-checked once, then sent. */
  method RunBatch(limiter: RateLimiter, model: string, prompts: seq<string>, tokens: string -> nat, clock: seq<int>, call: Client,
                  batchStart: nat, batchEnd: nat, ghost before: seq<Admission>)
    returns (batchResults: seq<Slot>, batchAdmissions: seq<Admission>)
    requires batchStart <= batchEnd <= |prompts| == |clock|
    requires limiter.Valid()
    requires Admitted(limiter.ceilings, prompts, tokens, clock, batchStart, limiter.State(), before)
    modifies limiter
    ensures limiter.Valid()
    ensures Admitted(limiter.ceilings, prompts, tokens, clock, batchEnd, limiter.State(), before + batchAdmissions)
    ensures batchResults == Outcomes(model, call, batchStart, batchEnd)
  {
    var c := limiter.ceilings;
    batchResults, batchAdmissions := [], [];
    assert before + batchAdmissions == before;
    var k := batchStart;
    while k < batchEnd
      invariant batchStart <= k <= batchEnd
      invariant limiter.Valid()
      invariant Admitted(c, prompts, tokens, clock, k, limiter.State(), before + batchAdmissions)
      invariant batchResults == Outcomes(model, call, batchStart, k)
    {
      batchAdmissions, batchResults :=
        HandlePrompt(limiter, model, prompts, tokens, clock, call, batchStart, k, before, batchAdmissions, batchResults);
      k := k + 1;
    }
  }

  /** The results of the prompts from `start` up to `end`, in order. */
  function Outcomes(model: string, call: Client, start: nat, end: nat): (rs: seq<Slot>)
    requires start <= end
    ensures |rs| == end - start
    decreases end - start
  {
    if end == start then [] else Outcomes(model, call, start, end - 1) + [PromptOutcome(model, call, end - 1).0]
  }

  lemma SliceStep<T>(s: seq<T>, a: nat, b: nat)
    requires a < b <= |s|
    ensures s[a..b] == s[a..b - 1] + [s[b - 1]]
  {
  }

  /** The results of a run of prompts are that slice of the slots. */
  lemma {:induction false} SlotsSlice(model: string, call: Client, n: nat, start: nat, end: nat)
    requires start <= end <= n
    ensures Outcomes(model, call, start, end) == Slots(model, call, n)[start..end]
    decreases end - start
  {
    if end > start {
      SlotsSlice(model, call, n, start, end - 1);
      SliceStep(Slots(model, call, n), start, end);
    }
  }

  /** What handling the first `done` prompts without a rejection leaves: the closure state, the
      delays so far and the concatenated results. */
  ghost predicate Progress(model: string, prompts: seq<string>, tokens: string -> nat, clock: seq<int>, call: Client,
                           done: nat, state: Limiter, results: seq<Slot>, admissions: seq<Admission>)
    requires |clock| == |prompts|
  {
    && done <= |prompts|
    && Admitted(CeilingsFor(model), prompts, tokens, clock, done, state, admissions)
    && (forall k :: 0 <= k < done ==> Slots(model, call, |prompts|)[k] != Rejected)
    && results == DropNull(Slots(model, call, |prompts|)[..done])
  }

  /** Batch `[batchStart, batchEnd)`: rate-check and send each prompt, then either reject or append
      the batch's results. */
  method DispatchBatch(limiter: RateLimiter, model: string, prompts: seq<string>, tokens: string -> nat, clock: seq<int>, call: Client,
                       batchStart: nat, batchEnd: nat, results: seq<Slot>, admissions: seq<Admission>)
    returns (rejected: bool, results': seq<Slot>, admissions': seq<Admission>)
    requires |clock| == |prompts|
    requires batchStart % BatchSize == 0 && batchEnd == Min(batchStart + BatchSize, |prompts|) && batchStart < batchEnd
    requires limiter.Valid() && limiter.model == model
    requires Progress(model, prompts, tokens, clock, call, batchStart, limiter.State(), results, admissions)
    modifies limiter
    ensures limiter.Valid()
    ensures rejected ==> Dispatch(model, prompts, tokens, clock, call) == (Rejection, admissions')
    ensures !rejected ==> Progress(model, prompts, tokens, clock, call, batchEnd, limiter.State(), results', admissions')
  {
    ghost var before := limiter.State();
    var batchResults, batchAdmissions := RunBatch(limiter, model, prompts, tokens, clock, call, batchStart, batchEnd, admissions);
    admissions' := admissions + batchAdmissions;
    rejected := Rejected in batchResults;
    if rejected {
      // `Promise.all` rejects and so does the whole call
      BatchRejects(model, prompts, tokens, clock, call, batchStart, batchEnd, before, limiter.State(), results, admissions, batchResults, batchAdmissions);
      results' := results;
    } else {
      BatchAppends(model, prompts, tokens, clock, call, batchStart, batchEnd, before, limiter.State(), results, admissions, batchResults, batchAdmissions);
      results' := results + DropNull(batchResults);
    }
  }

  /** A batch whose results hold a rejection ends the call with the delays up to the batch end. */
  lemma BatchRejects(model: string, prompts: seq<string>, tokens: string -> nat, clock: seq<int>, call: Client,
                     batchStart: nat, batchEnd: nat, state: Limiter, state': Limiter, results: seq<Slot>, admissions: seq<Admission>,
                     batchResults: seq<Slot>, batchAdmissions: seq<Admission>)
    requires |clock| == |prompts|
    requires batchStart % BatchSize == 0 && batchEnd == Min(batchStart + BatchSize, |prompts|) && batchStart < batchEnd
    requires Progress(model, prompts, tokens, clock, call, batchStart, state, results, admissions)
    requires Admitted(CeilingsFor(model), prompts, tokens, clock, batchEnd, state', admissions + batchAdmissions)
    requires batchResults == Outcomes(model, call, batchStart, batchEnd) && Rejected in batchResults
    ensures Dispatch(model, prompts, tokens, clock, call) == (Rejection, admissions + batchAdmissions)
  {
    SlotsSlice(model, call, |prompts|, batchStart, batchEnd);
    DispatchRejects(model, prompts, tokens, clock, call, batchStart, batchEnd);
  }

  /** A batch without a rejection moves the progress to the batch end, its filtered results
      appended. */
  lemma BatchAppends(model: string, prompts: seq<string>, tokens: string -> nat, clock: seq<int>, call: Client,
                     batchStart: nat, batchEnd: nat, before: Limiter, state: Limiter, results: seq<Slot>, admissions: seq<Admission>,
                     batchResults: seq<Slot>, batchAdmissions: seq<Admission>)
    requires |clock| == |prompts|
    requires batchStart <= batchEnd <= |prompts|
    requires Progress(model, prompts, tokens, clock, call, batchStart, before, results, admissions)
    requires Admitted(CeilingsFor(model), prompts, tokens, clock, batchEnd, state, admissions + batchAdmissions)
    requires batchResults == Outcomes(model, call, batchStart, batchEnd) && Rejected !in batchResults
    ensures Progress(model, prompts, tokens, clock, call, batchEnd, state, results + DropNull(batchResults), admissions + batchAdmissions)
  {
    var slots := Slots(model, call, |prompts|);
    SlotsSlice(model, call, |prompts|, batchStart, batchEnd);
    forall k | 0 <= k < batchEnd ensures slots[k] != Rejected {
      if k >= batchStart { assert slots[k] == batchResults[k - batchStart]; }
    }
    ResultsGrowByBatch(slots, batchStart, batchEnd, batchResults);
  }

  /** Batch `i` starts on a multiple of the batch size, before the end, and spans up to one batch. */
  lemma BatchWindow(n: nat, i: nat)
    requires i < NumBatches(n)
    ensures i * BatchSize < n && (i * BatchSize) % BatchSize == 0 && Min(i * BatchSize, n) == i * BatchSize
    ensures Min((i + 1) * BatchSize, n) == Min(i * BatchSize + BatchSize, n)
  {
  }

  /** The prompts the dispatch loop hands over in round `i` are batch `i` of the partition. */
  lemma DispatchedBatch(prompts: seq<string>, i: nat, batchStart: nat, batchEnd: nat)
    requires i < NumBatches(|prompts|)
    requires batchStart == i * BatchSize && batchEnd == Min((i + 1) * BatchSize, |prompts|)
    ensures batchStart < batchEnd <= |prompts| && prompts[batchStart..batchEnd] == Batches(prompts)[i]
  {
  }

  /** `dispatchOpenAIRequests`, run with a fresh closure state. */
  method DispatchOpenAIRequests(prompts: seq<string>, model: string, tokens: string -> nat, clock: seq<int>, call: Client)
    returns (outcome: Dispatched, admissions: seq<Admission>)
    requires |clock| == |prompts|
    ensures (outcome, admissions) == Dispatch(model, prompts, tokens, clock, call)
  {
    var limiter := new RateLimiter(model);
    var n := |prompts|;
    var numBatches := NumBatches(n);
    var results: seq<Slot> := [];
    admissions := [];
    var i := 0;
    while i < numBatches
      invariant 0 <= i <= numBatches
      invariant fresh(limiter) && limiter.Valid() && limiter.model == model
      invariant Progress(model, prompts, tokens, clock, call, Min(i * BatchSize, n), limiter.State(), results, admissions)
    {
      var batchStart := i * BatchSize;
      var batchEnd := Min((i + 1) * BatchSize, n);
      BatchWindow(n, i);
      DispatchedBatch(prompts, i, batchStart, batchEnd);
      var rejected;
      rejected, results, admissions := DispatchBatch(limiter, model, prompts, tokens, clock, call, batchStart, batchEnd, results, admissions);
      if rejected {
        outcome := Rejection;
        return;
      }
      i := i + 1;
    }
    DispatchCompletes(model, prompts, tokens, clock, call, limiter.State(), results, admissions);
    outcome := Results(results);
  }

  lemma ResultsGrowByBatch(slots: seq<Slot>, batchStart: nat, batchEnd: nat, batchResults: seq<Slot>)
    requires batchStart <= batchEnd <= |slots| && batchResults == slots[batchStart..batchEnd]
    ensures DropNull(slots[..batchEnd]) == DropNull(slots[..batchStart]) + DropNull(batchResults)
  {
    assert slots[..batchEnd] == slots[..batchStart] + batchResults;
    DropNullAppend(slots[..batchStart], batchResults);
  }

  lemma DispatchRejects(model: string, prompts: seq<string>, tokens: string -> nat, clock: seq<int>, call: Client, batchStart: nat, batchEnd: nat)
    requires |clock| == |prompts|
    requires batchStart % BatchSize == 0 && batchEnd == Min(batchStart + BatchSize, |prompts|) && batchStart < batchEnd
    requires var slots := Slots(model, call, |prompts|);
      (forall k :: 0 <= k < batchStart ==> slots[k] != Rejected) && Rejected in slots[batchStart..batchEnd]
    ensures Dispatch(model, prompts, tokens, clock, call)
         == (Rejection, AdmitAll(CeilingsFor(model), Fresh, prompts[..batchEnd], tokens, clock[..batchEnd]).1)
  {
    RejectionInBatch(Slots(model, call, |prompts|), batchStart, batchEnd, |prompts|);
  }

  lemma DispatchCompletes(model: string, prompts: seq<string>, tokens: string -> nat, clock: seq<int>, call: Client,
                          state: Limiter, results: seq<Slot>, admissions: seq<Admission>)
    requires |clock| == |prompts|
    requires Progress(model, prompts, tokens, clock, call, |prompts|, state, results, admissions)
    ensures Dispatch(model, prompts, tokens, clock, call) == (Results(results), admissions)
  {
    var slots := Slots(model, call, |prompts|);
    assert prompts[..|prompts|] == prompts && clock[..|clock|] == clock && slots[..|slots|] == slots;
    assert FirstRejectedFrom(slots, 0).None?;
  }

  /** A rejection first seen in the batch `[batchStart, batchEnd)` ends the call after that batch. */
  lemma RejectionInBatch(slots: seq<Slot>, batchStart: nat, batchEnd: nat, n: nat)
    requires |slots| == n && batchStart % BatchSize == 0
    requires batchEnd == Min(batchStart + BatchSize, n) && batchStart < batchEnd
    requires forall k :: 0 <= k < batchStart ==> slots[k] != Rejected
    requires Rejected in slots[batchStart..batchEnd]
    ensures FirstRejectedFrom(slots, 0).Some?
    ensures HandledUpTo(n, FirstRejectedFrom(slots, 0).value) == batchEnd
  {
    var k :| batchStart <= k < batchEnd && slots[k] == Rejected;
    var j := FirstRejectedFrom(slots, 0).value;
    assert batchStart <= j <= k;
    assert j / BatchSize == batchStart / BatchSize;
  }
}
