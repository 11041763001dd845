// The instrumented Google GenAI stream: an iterator around the SDK's, with
// deferred finalization.
module GoogleStream {
  import opened Types
  import opened Sequences
  import opened Streaming
  import opened Stream

  datatype Part = Part(text: string)

  // A part list, a candidate and a response may each hold nil elements.
  datatype Candidate = Candidate(content: Option<seq<Option<Part>>>, finishReason: string)

  datatype UsageMetadata = UsageMetadata(promptTokens: int, candidatesTokens: int, cachedTokens: int, thoughtsTokens: int)

  datatype GenerateResponse = GenerateResponse(
    modelVersion: string, responseID: string, candidates: seq<Option<Candidate>>, usage: Option<UsageMetadata>)

  function MapUsageMetadata(u: Option<UsageMetadata>): (usage: Usage)
    ensures u.None? ==> usage == NO_USAGE
    ensures u.Some? ==>
              && usage.inputTokens == u.value.promptTokens && usage.outputTokens == u.value.candidatesTokens
              && usage.cacheReadTokens == u.value.cachedTokens && usage.reasoningTokens == u.value.thoughtsTokens
              && usage.cacheWriteTokens == 0
  {
    match u
    case None => NO_USAGE
    case Some(um) => Usage(um.promptTokens, um.candidatesTokens, um.cachedTokens, 0, um.thoughtsTokens)
  }

  // ---- Finish reasons, de-duplicated in candidate order ----

  predicate Reports(c: Option<Candidate>, reason: string) {
    c.Some? && c.value.finishReason == reason && reason != ""
  }

  function FinishReasons(cs: seq<Option<Candidate>>, n: nat): seq<string>
    requires n <= |cs|
  {
    if n == 0 then []
    else
      var before, c := FinishReasons(cs, n - 1), cs[n - 1];
      if c.None? || c.value.finishReason == "" || c.value.finishReason in before then before
      else before + [c.value.finishReason]
  }

  // Candidate i is the first that reports this reason.
  predicate FirstReport(cs: seq<Option<Candidate>>, i: nat, reason: string)
    requires i < |cs|
  {
    Reports(cs[i], reason) && forall j | 0 <= j < i :: !Reports(cs[j], reason)
  }

  // No duplicates, exactly the non-empty reasons of non-nil candidates, in
  // the order of their first report.
  ghost predicate OrderedDistinct(cs: seq<Option<Candidate>>, n: nat, reasons: seq<string>)
    requires n <= |cs|
  {
    && (forall a, b | 0 <= a < b < |reasons| :: reasons[a] != reasons[b])
    && (forall reason :: reason in reasons <==> exists i | 0 <= i < n :: Reports(cs[i], reason))
    && (forall a, b, i: nat, j: nat | 0 <= a < b < |reasons| && i < n && j < n
          && FirstReport(cs, i, reasons[a]) && FirstReport(cs, j, reasons[b]) :: i < j)
  }

  lemma NothingNewOrdered(cs: seq<Option<Candidate>>, n: nat, reasons: seq<string>)
    requires 0 < n <= |cs| && OrderedDistinct(cs, n - 1, reasons)
    requires forall reason :: Reports(cs[n - 1], reason) ==> reason in reasons
    ensures OrderedDistinct(cs, n, reasons)
  {
    forall a | 0 <= a < |reasons| ensures !FirstReport(cs, n - 1, reasons[a]) {
      assert reasons[a] in reasons;
    }
  }

  lemma NewReasonOrdered(cs: seq<Option<Candidate>>, n: nat, reasons: seq<string>, reason: string)
    requires 0 < n <= |cs| && OrderedDistinct(cs, n - 1, reasons)
    requires Reports(cs[n - 1], reason) && reason !in reasons
    ensures OrderedDistinct(cs, n, reasons + [reason])
  {
    var more := reasons + [reason];
    forall r ensures r in more <==> exists i | 0 <= i < n :: Reports(cs[i], r) {
      assert r in more <==> r in reasons || r == reason;
    }
    forall a | 0 <= a < |reasons| ensures more[a] == reasons[a] && !FirstReport(cs, n - 1, reasons[a]) {
      assert reasons[a] in reasons;
    }
  }

  lemma {:induction false} FinishReasonsOrdered(cs: seq<Option<Candidate>>, n: nat)
    requires n <= |cs|
    ensures OrderedDistinct(cs, n, FinishReasons(cs, n))
  {
    if n == 0 {
    } else {
      var before := FinishReasons(cs, n - 1);
      FinishReasonsOrdered(cs, n - 1);
      if FinishReasons(cs, n) == before {
        NothingNewOrdered(cs, n, before);
      } else {
        NewReasonOrdered(cs, n, before, cs[n - 1].value.finishReason);
      }
    }
  }

  lemma {:induction false} FirstReportExists(cs: seq<Option<Candidate>>, i: nat, reason: string) returns (first: nat)
    requires i < |cs| && Reports(cs[i], reason)
    ensures first <= i && FirstReport(cs, first, reason)
  {
    first := i;
    if j :| 0 <= j < i && Reports(cs[j], reason) {
      first := FirstReportExists(cs, j, reason);
    }
  }

  // Nothing else is an ordered list of the distinct reasons.
  lemma {:induction false} FinishReasonsUnique(cs: seq<Option<Candidate>>, n: nat, reasons: seq<string>)
    requires n <= |cs| && OrderedDistinct(cs, n, reasons)
    ensures reasons == FinishReasons(cs, n)
  {
    if n == 0 {
      NoReasons(cs, reasons);
    } else if FinishReasons(cs, n) == FinishReasons(cs, n - 1) {
      NothingNew(cs, n, reasons);
      FinishReasonsUnique(cs, n - 1, reasons);
    } else {
      var most, last := NewIsLast(cs, n, reasons);
      FinishReasonsUnique(cs, n - 1, most);
    }
  }

  lemma NoReasons(cs: seq<Option<Candidate>>, reasons: seq<string>)
    requires OrderedDistinct(cs, 0, reasons)
    ensures reasons == []
  {
    HasAMember(reasons);
  }

  lemma NothingNew(cs: seq<Option<Candidate>>, n: nat, reasons: seq<string>)
    requires 0 < n <= |cs| && OrderedDistinct(cs, n, reasons)
    requires FinishReasons(cs, n) == FinishReasons(cs, n - 1)
    ensures OrderedDistinct(cs, n - 1, reasons)
  {
    FinishReasonsOrdered(cs, n - 1);
    forall reason ensures reason in reasons <==> exists i | 0 <= i < n - 1 :: Reports(cs[i], reason) {
      if reason in reasons {
        var i :| 0 <= i < n && Reports(cs[i], reason);
      }
    }
  }

  lemma NewIsLast(cs: seq<Option<Candidate>>, n: nat, reasons: seq<string>) returns (most: seq<string>, last: string)
    requires 0 < n <= |cs| && OrderedDistinct(cs, n, reasons) && FinishReasons(cs, n) != FinishReasons(cs, n - 1)
    ensures reasons == most + [last] && OrderedDistinct(cs, n - 1, most)
    ensures FinishReasons(cs, n) == FinishReasons(cs, n - 1) + [last]
  {
    FinishReasonsOrdered(cs, n - 1);
    assert FirstReport(cs, n - 1, cs[n - 1].value.finishReason);
    LastIsNew(cs, n, reasons);
    WithoutLast(cs, n, reasons);
    most, last := reasons[..|reasons| - 1], reasons[|reasons| - 1];
  }

  lemma LastIsNew(cs: seq<Option<Candidate>>, n: nat, reasons: seq<string>)
    requires 0 < n <= |cs| && OrderedDistinct(cs, n, reasons) && cs[n - 1].Some?
    requires FirstReport(cs, n - 1, cs[n - 1].value.finishReason)
    ensures reasons != [] && reasons[|reasons| - 1] == cs[n - 1].value.finishReason
  {
    var reason := cs[n - 1].value.finishReason;
    assert Reports(cs[n - 1], reason) && reason in reasons;
    var last := reasons[|reasons| - 1];
    assert last in reasons;
    var i :| 0 <= i < n && Reports(cs[i], last);
    var first := FirstReportExists(cs, i, last);
  }

  lemma WithoutLast(cs: seq<Option<Candidate>>, n: nat, reasons: seq<string>)
    requires 0 < n <= |cs| && OrderedDistinct(cs, n, reasons) && cs[n - 1].Some?
    requires FirstReport(cs, n - 1, cs[n - 1].value.finishReason)
    requires reasons != [] && reasons[|reasons| - 1] == cs[n - 1].value.finishReason
    ensures OrderedDistinct(cs, n - 1, reasons[..|reasons| - 1])
  {
    var most, reason := reasons[..|reasons| - 1], cs[n - 1].value.finishReason;
    forall r ensures r in most <==> exists i | 0 <= i < n - 1 :: Reports(cs[i], r) {
      assert r in most <==> r in reasons && r != reason;
    }
  }

  function Mapped(r: Option<GenerateResponse>): (resp: Response)
    ensures r.None? ==> resp == NO_RESPONSE
    ensures r.Some? ==>
              && resp.model == r.value.modelVersion && resp.id == r.value.responseID
              && resp.finishReasons == FinishReasons(r.value.candidates, |r.value.candidates|)
              && resp.usage == MapUsageMetadata(r.value.usage)
  {
    match r
    case None => NO_RESPONSE
    case Some(g) => Response(g.modelVersion, g.responseID, FinishReasons(g.candidates, |g.candidates|), MapUsageMetadata(g.usage))
  }

  method MapResponse(r: Option<GenerateResponse>) returns (resp: Response)
    ensures resp == Mapped(r)
  {
    if r.None? {
      return NO_RESPONSE;
    }
    var cs := r.value.candidates;
    var seen: set<string> := {};
    var reasons: seq<string> := [];
    for i := 0 to |cs|
      invariant reasons == FinishReasons(cs, i)
      invariant forall reason :: reason in seen <==> reason in reasons
    {
      if cs[i].None? {
        continue;
      }
      var reason := cs[i].value.finishReason;
      if reason == "" || reason in seen {
        continue;
      }
      seen := seen + {reason};
      reasons := reasons + [reason];
    }
    resp := Response(r.value.modelVersion, r.value.responseID, reasons, MapUsageMetadata(r.value.usage));
  }

  // The response has at least one non-empty text part.
  ghost predicate HasText(r: Option<GenerateResponse>) {
    r.Some? && exists i, j ::
      && 0 <= i < |r.value.candidates| && r.value.candidates[i].Some? && r.value.candidates[i].value.content.Some?
      && 0 <= j < |r.value.candidates[i].value.content.value| && TextPart(r.value.candidates[i].value.content.value[j])
  }

  predicate TextPart(p: Option<Part>) {
    p.Some? && p.value.text != ""
  }

  method HasGeneratedOutput(r: Option<GenerateResponse>) returns (found: bool)
    ensures found == HasText(r)
  {
    if r.None? {
      return false;
    }
    var cs := r.value.candidates;
    for i := 0 to |cs|
      invariant forall i', j | 0 <= i' < i && cs[i'].Some? && cs[i'].value.content.Some? && 0 <= j < |cs[i'].value.content.value| ::
          !TextPart(cs[i'].value.content.value[j])
    {
      if cs[i].None? || cs[i].value.content.None? {
        continue;
      }
      var parts := cs[i].value.content.value;
      for j := 0 to |parts|
        invariant forall j' | 0 <= j' < j :: !TextPart(parts[j'])
      {
        if parts[j].None? {
          continue;
        }
        if parts[j].value.text != "" {
          assert TextPart(cs[i].value.content.value[j]);
          return true;
        }
      }
    }
    return false;
  }

  // Some candidate of the response has a finish reason.
  predicate HasFinishReason(r: Option<GenerateResponse>) {
    r.Some? && exists i | 0 <= i < |r.value.candidates| ::
      r.value.candidates[i].Some? && r.value.candidates[i].value.finishReason != ""
  }

  method FindFinishReason(r: Option<GenerateResponse>) returns (found: bool)
    ensures found == HasFinishReason(r)
  {
    if r.None? {
      return false;
    }
    var cs := r.value.candidates;
    for i := 0 to |cs|
      invariant forall j | 0 <= j < i && cs[j].Some? :: cs[j].value.finishReason == ""
    {
      if cs[i].Some? && cs[i].value.finishReason != "" {
        return true;
      }
    }
    return false;
  }

  // ---- The iterator ----

  datatype Pair = Pair(resp: Option<GenerateResponse>, err: Option<string>)

  // Whether the consumer asks for more, given everything it has received.
  type Consumer = seq<Pair> -> bool

  // The iteration goes on after pair i.
  predicate Continues(inner: seq<Pair>, consumer: Consumer, i: nat)
    requires i < |inner|
  {
    inner[i].err.None? && consumer(inner[..i + 1])
  }

  // k is how many pairs are served: the longest prefix of the inner sequence
  // that ends at its first error or where the consumer stops.
  predicate Served(inner: seq<Pair>, consumer: Consumer, k: nat) {
    && k <= |inner|
    && (forall i: nat | i + 1 < k :: Continues(inner, consumer, i))
    && (k < |inner| ==> k > 0 && !Continues(inner, consumer, k - 1))
  }

  predicate Failed(inner: seq<Pair>, k: nat)
    requires k <= |inner|
  {
    k > 0 && inner[k - 1].err.Some?
  }

  predicate ConsumerStopped(inner: seq<Pair>, consumer: Consumer, k: nat)
    requires k <= |inner|
  {
    k > 0 && inner[k - 1].err.None? && !consumer(inner[..k])
  }

  predicate SawFinishReason(inner: seq<Pair>, k: nat)
    requires k <= |inner|
  {
    exists i | 0 <= i < k :: inner[i].err.None? && HasFinishReason(inner[i].resp)
  }

  // The last response received without an error, if any.
  function LastResponse(inner: seq<Pair>, k: nat): Response
    requires k <= |inner|
  {
    if k == 0 then NO_RESPONSE
    else if inner[k - 1].err.None? then Mapped(inner[k - 1].resp)
    else LastResponse(inner, k - 1)
  }

  ghost function ObservedOutput(m: Shared, inner: seq<Pair>, clock: nat -> Time, k: nat): (r: Shared)
    requires k <= |inner|
    ensures r.start == m.start && r.streaming == m.streaming
    ensures r.finalized == m.finalized && r.opFinalized == m.opFinalized
  {
    if k == 0 then m
    else
      var before := ObservedOutput(m, inner, clock, k - 1);
      if inner[k - 1].err.None? && HasText(inner[k - 1].resp) then Observe(before, true, clock(k - 1)) else before
  }

  // The stream's telemetry after k pairs were served: finalized once.
  ghost function Telemetry(m: Shared, inner: seq<Pair>, consumer: Consumer, clock: nat -> Time, end: Time, k: nat): Shared
    requires k <= |inner|
  {
    Finalized(ObservedOutput(m, inner, clock, k),
              Failed(inner, k) || SawFinishReason(inner, k) || !ConsumerStopped(inner, consumer, k),
              LastResponse(inner, k),
              if Failed(inner, k) then Some(Provider(inner[k - 1].err.value)) else None, end)
  }

  // What the loop body does with a response that came without an error.
  method ObserveResponse(state: StreamState?, resp: Option<GenerateResponse>, seen: bool, now: Time)
    returns (accumResp: Response, terminal: bool)
    modifies Footprint(state)
    ensures state != null ==> state.View() == if HasText(resp) then Observe(old(state.View()), true, now) else old(state.View())
    ensures accumResp == Mapped(resp) && terminal == (seen || HasFinishReason(resp))
  {
    var output := HasGeneratedOutput(resp);
    if output {
      Stream.ObserveChunk(state, true, now);
    }
    accumResp := MapResponse(resp);
    terminal := FindFinishReason(resp);
    if seen {
      terminal := true;
    }
  }

  // The deferred finalization adds to what the loop leaves, unless an error
  // has finalized the stream already.
  lemma LastFinalization(m: Shared, inner: seq<Pair>, consumer: Consumer, clock: nat -> Time, end: Time, k: nat, stopped: bool)
    requires k <= |inner| && stopped == (k > 0 && !Continues(inner, consumer, k - 1))
    ensures var streamErr := if Failed(inner, k) then Some(Provider(inner[k - 1].err.value)) else None;
            Finalized(if Failed(inner, k) then Telemetry(m, inner, consumer, clock, end, k) else ObservedOutput(m, inner, clock, k),
                      Failed(inner, k) || SawFinishReason(inner, k) || !stopped, LastResponse(inner, k), streamErr, end) ==
            Telemetry(m, inner, consumer, clock, end, k)
  {
    if k > 0 {
      assert ConsumerStopped(inner, consumer, k) == (stopped && !Failed(inner, k));
    }
  }

  method GenerateContentStream(inner: seq<Pair>, consumer: Consumer, op: InferenceOperation?, clock: nat -> Time, end: Time)
    returns (yielded: seq<Pair>, state: StreamState?)
    requires op != null ==> !op.finalized && !op.hasFirstChunk && op.firstChunkTime == 0 && op.log == []
    modifies op
    ensures yielded <= inner && Served(inner, consumer, |yielded|)
    ensures (state == null) == (op == null)
    ensures op != null ==> fresh(state) && state.op == op
    ensures op != null ==> state.View() == Telemetry(New(op.startTime, op.streaming), inner, consumer, clock, end, |yielded|)
  {
    state := NewStreamState(op);
    var accumResp, terminal, streamErr := NO_RESPONSE, false, None;
    yielded := [];
    var stopped := false;
    ghost var m := New(if op == null then 0 else op.startTime, op != null && op.streaming);
    while |yielded| < |inner| && !stopped
      invariant yielded <= inner
      invariant forall i: nat | i + 1 < |yielded| :: Continues(inner, consumer, i)
      invariant stopped == (yielded != [] && !Continues(inner, consumer, |yielded| - 1))
      invariant accumResp == LastResponse(inner, |yielded|)
      invariant streamErr == if Failed(inner, |yielded|) then Some(Provider(inner[|yielded| - 1].err.value)) else None
      invariant terminal == (Failed(inner, |yielded|) || SawFinishReason(inner, |yielded|))
      invariant op != null ==> state.Valid() && state.op == op
      invariant op != null ==>
                  state.View() == (if Failed(inner, |yielded|) then Telemetry(m, inner, consumer, clock, end, |yielded|)
                                   else ObservedOutput(m, inner, clock, |yielded|))
      decreases |inner| - |yielded|, !stopped
    {
      var k := |yielded|;
      var resp, err := inner[k].resp, inner[k].err;
      if err.Some? {
        streamErr, terminal := Some(Provider(err.value)), true;
        Stream.FinalizeStream(state, terminal, accumResp, streamErr, end);
        yielded := yielded + [inner[k]];
        stopped := true;
      } else {
        accumResp, terminal := ObserveResponse(state, resp, terminal, clock(k));
        yielded := yielded + [inner[k]];
        assert yielded == inner[..k + 1];
        stopped := !consumer(yielded);
      }
    }
    LastFinalization(m, inner, consumer, clock, end, |yielded|, stopped);
    if !stopped {
      terminal := true;
    }
    Stream.FinalizeStream(state, terminal, accumResp, streamErr, end);
  }

  lemma {:induction false} ObservingRecordsIntervals(m: Shared, inner: seq<Pair>, clock: nat -> Time, k: nat)
    requires k <= |inner| && OnlyIntervals(m.log)
    ensures OnlyIntervals(ObservedOutput(m, inner, clock, k).log)
  {
    if k == 0 {
    } else {
      ObservingRecordsIntervals(m, inner, clock, k - 1);
    }
  }

  // When the responses that generated text came.
  ghost function TextTimes(inner: seq<Pair>, clock: nat -> Time, k: nat): seq<Time>
    requires k <= |inner|
  {
    if k == 0 then []
    else TextTimes(inner, clock, k - 1) + if inner[k - 1].err.None? && HasText(inner[k - 1].resp) then [clock(k - 1)] else []
  }

  lemma {:induction false} TextHeard(start: Time, streaming: bool, inner: seq<Pair>, clock: nat -> Time, k: nat)
    requires k <= |inner|
    ensures Heard(ObservedOutput(New(start, streaming), inner, clock, k), TextTimes(inner, clock, k))
  {
    if k == 0 {
    } else {
      TextHeard(start, streaming, inner, clock, k - 1);
      var m, times := ObservedOutput(New(start, streaming), inner, clock, k - 1), TextTimes(inner, clock, k - 1);
      assert times + [] == times;
      if inner[k - 1].err.None? && HasText(inner[k - 1].resp) {
        ObserveHeard(m, times, clock(k - 1));
      }
    }
  }

  // The whole telemetry of an iteration: the intervals between the responses
  // that generated text, the time to the first of them, and one outcome.
  lemma TextIsObserved(start: Time, streaming: bool, inner: seq<Pair>, consumer: Consumer, clock: nat -> Time, end: Time, k: nat)
    requires Served(inner, consumer, k)
    ensures var early := ConsumerStopped(inner, consumer, k) && !SawFinishReason(inner, k);
            Telemetry(New(start, streaming), inner, consumer, clock, end, k).log ==
            WholeLog(start, streaming, TextTimes(inner, clock, k),
              if early then LastResponse(inner, k).(finishReasons := ["error"]) else LastResponse(inner, k),
              if early then Some(ClosedEarly)
              else if Failed(inner, k) then Some(Provider(inner[k - 1].err.value)) else None, end)
  {
    TextHeard(start, streaming, inner, clock, k);
    FinalizedLog(ObservedOutput(New(start, streaming), inner, clock, k), TextTimes(inner, clock, k),
                 Failed(inner, k) || SawFinishReason(inner, k) || !ConsumerStopped(inner, consumer, k),
                 LastResponse(inner, k), if Failed(inner, k) then Some(Provider(inner[k - 1].err.value)) else None, end);
  }

  // On every normal exit the operation has one outcome and its span ends
  // once, last of all. It is an early close exactly if the consumer stopped
  // before any finish reason was seen; only then is the finish reason
  // replaced. Any further finalization has no effect.
  lemma StreamOutcome(start: Time, streaming: bool, inner: seq<Pair>, consumer: Consumer, clock: nat -> Time, end: Time, k: nat)
    returns (j: nat, resp: Response, err: Option<StreamError>)
    requires Served(inner, consumer, k)
    ensures var m := Telemetry(New(start, streaming), inner, consumer, clock, end, k);
            var early := ConsumerStopped(inner, consumer, k) && !SawFinishReason(inner, k);
            && OneOutcome(m.log, j, resp, err)
            && (err == Some(ClosedEarly) <==> early)
            && (err.None? <==> !Failed(inner, k) && !early)
            && resp == (if early then LastResponse(inner, k).(finishReasons := ["error"]) else LastResponse(inner, k))
            && forall terminal, resp, err, now :: Finalized(m, terminal, resp, err, now) == m
  {
    var m := New(start, streaming);
    var terminal := Failed(inner, k) || SawFinishReason(inner, k) || !ConsumerStopped(inner, consumer, k);
    var streamErr := if Failed(inner, k) then Some(Provider(inner[k - 1].err.value)) else None;
    resp, err := FinalResponse(terminal, LastResponse(inner, k)), FinalError(terminal, streamErr);
    ObservingRecordsIntervals(m, inner, clock, k);
    j := FinalizedShape(ObservedOutput(m, inner, clock, k), terminal, LastResponse(inner, k), streamErr, end);
  }
}
