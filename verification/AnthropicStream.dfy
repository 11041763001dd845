// The instrumented Anthropic message stream: a fold over the SDK's events,
// finalized at the end of the stream or by Close, whichever comes first.
module AnthropicStream {
  import opened Types
  import opened Streaming
  import opened Stream

  datatype Event =
    | MessageStart(model: string, id: string)
    | MessageDelta(usage: Usage, stopReason: string)
    | ContentBlockDelta
    | OtherEvent(kind: string)

  // What the SDK stream answers when it is advanced.
  datatype Advance = More(event: Event) | Exhausted(err: Option<string>)

  // A call on the wrapper, with the SDK's answer.
  datatype Use = Next(answer: Advance) | Close(err: Option<string>)

  // What the wrapper accumulates.
  datatype Fold = Fold(accumResp: Response, hasResp: bool, terminal: bool)

  const START := Fold(NO_RESPONSE, false, false)

  function Accumulate(f: Fold, e: Event): Fold {
    match e
    case MessageStart(model, id) => f.(accumResp := f.accumResp.(model := model, id := id), hasResp := true)
    case MessageDelta(usage, stopReason) =>
      var reasons := if stopReason != "" then [stopReason] else f.accumResp.finishReasons;
      f.(accumResp := f.accumResp.(usage := usage, finishReasons := reasons), hasResp := true, terminal := true)
    case _ => f
  }

  function Reported(err: Option<string>): Option<StreamError> {
    match err
    case None => None
    case Some(name) => Some(Provider(name))
  }

  predicate Finalizes(u: Use) {
    u.Close? || u.answer.Exhausted?
  }

  function ErrorOf(u: Use): Option<string>
    requires Finalizes(u)
  {
    if u.Close? then u.err else u.answer.err
  }

  // One call, on the telemetry and on the fold.
  function Step(m: Shared, f: Fold, u: Use, now: Time): (Shared, Fold) {
    if Finalizes(u) then
      (Finalized(m, f.terminal, if f.hasResp then f.accumResp else NO_RESPONSE, Reported(ErrorOf(u)), now), f)
    else
      (if u.answer.event.ContentBlockDelta? then Observe(m, true, now) else m, Accumulate(f, u.answer.event))
  }

  ghost function After(m: Shared, uses: seq<Use>, clock: nat -> Time, n: nat): (Shared, Fold)
    requires n <= |uses|
  {
    if n == 0 then (m, START)
    else
      var (before, f) := After(m, uses, clock, n - 1);
      Step(before, f, uses[n - 1], clock(n - 1))
  }

  // ---- The fold, declaratively ----

  predicate Delivers(u: Use) {
    u.Next? && u.answer.More?
  }

  predicate DeliversDelta(u: Use) {
    Delivers(u) && u.answer.event.MessageDelta?
  }

  predicate DeliversStart(u: Use) {
    Delivers(u) && u.answer.event.MessageStart?
  }

  // A message_delta came among the first n.
  predicate SawDelta(uses: seq<Use>, n: nat)
    requires n <= |uses|
  {
    exists i | 0 <= i < n :: DeliversDelta(uses[i])
  }

  function LastUsage(uses: seq<Use>, n: nat): Usage
    requires n <= |uses|
  {
    if n == 0 then NO_USAGE
    else if DeliversDelta(uses[n - 1]) then uses[n - 1].answer.event.usage
    else LastUsage(uses, n - 1)
  }

  function LastStart(uses: seq<Use>, n: nat): (string, string)
    requires n <= |uses|
  {
    if n == 0 then ("", "")
    else if DeliversStart(uses[n - 1]) then (uses[n - 1].answer.event.model, uses[n - 1].answer.event.id)
    else LastStart(uses, n - 1)
  }

  // The last non-empty stop reason, if any.
  function LastStop(uses: seq<Use>, n: nat): seq<string>
    requires n <= |uses|
  {
    if n == 0 then []
    else if DeliversDelta(uses[n - 1]) && uses[n - 1].answer.event.stopReason != "" then [uses[n - 1].answer.event.stopReason]
    else LastStop(uses, n - 1)
  }

  function Described(uses: seq<Use>, n: nat): Response
    requires n <= |uses|
  {
    Response(LastStart(uses, n).0, LastStart(uses, n).1, LastStop(uses, n), LastUsage(uses, n))
  }

  lemma {:induction false} FoldDescribes(m: Shared, uses: seq<Use>, clock: nat -> Time, n: nat)
    requires n <= |uses|
    ensures var f := After(m, uses, clock, n).1;
            && f.accumResp == Described(uses, n) && f.terminal == SawDelta(uses, n)
            && (!f.hasResp ==> f.accumResp == NO_RESPONSE)
  {
    if n == 0 {
    } else {
      FoldDescribes(m, uses, clock, n - 1);
    }
  }

  // Until the first finalizing call nothing but intervals is recorded.
  lemma {:induction false} NotFinalizedYet(start: Time, streaming: bool, uses: seq<Use>, clock: nat -> Time, n: nat)
    requires n <= |uses| && forall i | 0 <= i < n :: !Finalizes(uses[i])
    ensures var m := After(New(start, streaming), uses, clock, n).0; !m.finalized && !m.opFinalized && OnlyIntervals(m.log)
  {
    if n == 0 {
    } else {
      NotFinalizedYet(start, streaming, uses, clock, n - 1);
    }
  }

  // After it nothing is recorded any more.
  lemma {:induction false} FinalizedForGood(m: Shared, uses: seq<Use>, clock: nat -> Time, i: nat, n: nat)
    requires i <= n <= |uses| && After(m, uses, clock, i).0.finalized
    ensures After(m, uses, clock, n).0 == After(m, uses, clock, i).0
  {
    if i == n {
    } else {
      FinalizedForGood(m, uses, clock, i, n - 1);
    }
  }

  lemma FirstFinalization(start: Time, streaming: bool, uses: seq<Use>, clock: nat -> Time, f: nat) returns (j: nat)
    requires f < |uses| && Finalizes(uses[f]) && forall i | 0 <= i < f :: !Finalizes(uses[i])
    ensures var m := After(New(start, streaming), uses, clock, f + 1).0;
            var terminal, err := SawDelta(uses, f), Reported(ErrorOf(uses[f]));
            && m.finalized && OnlyIntervals(After(New(start, streaming), uses, clock, f).0.log)
            && OneOutcome(m.log, j,
                 Response(LastStart(uses, f).0, LastStart(uses, f).1,
                          if terminal then LastStop(uses, f) else ["error"], LastUsage(uses, f)),
                 if terminal || err.Some? then err else Some(ClosedEarly))
  {
    var m0 := New(start, streaming);
    var (m, fold) := After(m0, uses, clock, f);
    FoldDescribes(m0, uses, clock, f);
    NotFinalizedYet(start, streaming, uses, clock, f);
    j := FinalizedShape(m, fold.terminal, if fold.hasResp then fold.accumResp else NO_RESPONSE, Reported(ErrorOf(uses[f])), clock(f));
  }

  // For every sequence of calls, the first one that reaches the end of the
  // stream or closes it finalizes the telemetry, once: terminal exactly if a
  // message_delta was delivered before it, with the usage of the last such
  // event, model and ID of the last message_start, and the last non-empty
  // stop reason, or "error" if not terminal. Before it there is no outcome.
  lemma EffectiveFinalization(start: Time, streaming: bool, uses: seq<Use>, clock: nat -> Time, f: nat, n: nat) returns (j: nat)
    requires f < n <= |uses| && Finalizes(uses[f]) && forall i | 0 <= i < f :: !Finalizes(uses[i])
    ensures var m := After(New(start, streaming), uses, clock, n).0;
            var terminal, err := SawDelta(uses, f), Reported(ErrorOf(uses[f]));
            && OnlyIntervals(After(New(start, streaming), uses, clock, f).0.log)
            && OneOutcome(m.log, j,
                 Response(LastStart(uses, f).0, LastStart(uses, f).1,
                          if terminal then LastStop(uses, f) else ["error"], LastUsage(uses, f)),
                 if terminal || err.Some? then err else Some(ClosedEarly))
  {
    j := FirstFinalization(start, streaming, uses, clock, f);
    FinalizedForGood(New(start, streaming), uses, clock, f + 1, n);
  }

  predicate DeliversContent(u: Use) {
    Delivers(u) && u.answer.event.ContentBlockDelta?
  }

  // When the content deltas among the first n calls came.
  ghost function ContentTimes(uses: seq<Use>, clock: nat -> Time, n: nat): seq<Time>
    requires n <= |uses|
  {
    if n == 0 then []
    else ContentTimes(uses, clock, n - 1) + if DeliversContent(uses[n - 1]) then [clock(n - 1)] else []
  }

  lemma {:induction false} ContentHeard(start: Time, streaming: bool, uses: seq<Use>, clock: nat -> Time, n: nat)
    requires n <= |uses| && forall i | 0 <= i < n :: !Finalizes(uses[i])
    ensures var m := After(New(start, streaming), uses, clock, n).0;
            m.start == start && m.streaming == streaming && Heard(m, ContentTimes(uses, clock, n))
  {
    if n == 0 {
    } else {
      ContentHeard(start, streaming, uses, clock, n - 1);
      var (m, times) := (After(New(start, streaming), uses, clock, n - 1).0, ContentTimes(uses, clock, n - 1));
      assert times + [] == times;
      if DeliversContent(uses[n - 1]) {
        ObserveHeard(m, times, clock(n - 1));
      }
    }
  }

  lemma FirstContent(start: Time, streaming: bool, uses: seq<Use>, clock: nat -> Time, f: nat, resp: Response, err: Option<StreamError>)
    requires f < |uses| && Finalizes(uses[f]) && forall i | 0 <= i < f :: !Finalizes(uses[i])
    requires var fold := After(New(start, streaming), uses, clock, f).1;
             && resp == FinalResponse(fold.terminal, if fold.hasResp then fold.accumResp else NO_RESPONSE)
             && err == FinalError(fold.terminal, Reported(ErrorOf(uses[f])))
    ensures var m := After(New(start, streaming), uses, clock, f + 1).0;
            m.finalized && m.log == WholeLog(start, streaming, ContentTimes(uses, clock, f), resp, err, clock(f))
  {
    var (m, fold) := After(New(start, streaming), uses, clock, f);
    ContentHeard(start, streaming, uses, clock, f);
    FinalizedLog(m, ContentTimes(uses, clock, f), fold.terminal,
                 if fold.hasResp then fold.accumResp else NO_RESPONSE, Reported(ErrorOf(uses[f])), clock(f));
  }

  // For every sequence of calls, once one of them has finalized the stream
  // the telemetry is the intervals between the content deltas delivered
  // before that call, the time to the first of them, and that call's
  // outcome, and later calls add nothing.
  lemma ContentIsObserved(start: Time, streaming: bool, uses: seq<Use>, clock: nat -> Time, f: nat, n: nat)
    requires f < n <= |uses| && Finalizes(uses[f]) && forall i | 0 <= i < f :: !Finalizes(uses[i])
    ensures var terminal, err := SawDelta(uses, f), Reported(ErrorOf(uses[f]));
            After(New(start, streaming), uses, clock, n).0.log ==
            WholeLog(start, streaming, ContentTimes(uses, clock, f),
              Response(LastStart(uses, f).0, LastStart(uses, f).1,
                       if terminal then LastStop(uses, f) else ["error"], LastUsage(uses, f)),
              if terminal || err.Some? then err else Some(ClosedEarly), clock(f))
  {
    var terminal, err := SawDelta(uses, f), Reported(ErrorOf(uses[f]));
    FoldDescribes(New(start, streaming), uses, clock, f);
    FirstContent(start, streaming, uses, clock, f,
      Response(LastStart(uses, f).0, LastStart(uses, f).1, if terminal then LastStop(uses, f) else ["error"], LastUsage(uses, f)),
      if terminal || err.Some? then err else Some(ClosedEarly));
    FinalizedForGood(New(start, streaming), uses, clock, f + 1, n);
  }

  // ---- The wrapper object ----

  class MessageStream {
    const state: StreamState?
    var accumResp: Response
    var hasResp: bool
    var terminal: bool

    constructor (op: InferenceOperation?)
      ensures Valid() && Accumulated() == START
      ensures (state == null) == (op == null)
      ensures op != null ==> fresh(state) && state.op == op
      ensures op != null && !op.finalized && !op.hasFirstChunk && op.firstChunkTime == 0 && op.log == [] ==>
                state.View() == New(op.startTime, op.streaming)
    {
      var s := NewStreamState(op);
      state := s;
      accumResp, hasResp, terminal := NO_RESPONSE, false, false;
    }

    ghost predicate Valid() {
      state != null ==> state.Valid()
    }

    function Accumulated(): Fold
      reads this
    {
      Fold(accumResp, hasResp, terminal)
    }

    method Next(answer: Advance, now: Time) returns (more: bool)
      requires Valid()
      modifies this, Footprint(state)
      ensures more == answer.More?
      ensures Accumulated() == Step(New(0, false), old(Accumulated()), Use.Next(answer), now).1
      ensures state != null ==> state.View() == Step(old(state.View()), old(Accumulated()), Use.Next(answer), now).0
    {
      if answer.Exhausted? {
        Finalize(terminal, answer.err, now);
        return false;
      }
      var event := answer.event;
      if event.ContentBlockDelta? {
        Stream.ObserveChunk(state, true, now);
      }
      if event.MessageStart? {
        accumResp := accumResp.(model := event.model, id := event.id);
        hasResp := true;
      }
      if event.MessageDelta? {
        accumResp := accumResp.(usage := event.usage);
        if event.stopReason != "" {
          accumResp := accumResp.(finishReasons := [event.stopReason]);
        }
        hasResp := true;
        terminal := true;
      }
      more := true;
    }

    method Close(err: Option<string>, now: Time)
      requires Valid()
      modifies Footprint(state)
      ensures state != null ==> state.View() == Step(old(state.View()), old(Accumulated()), Use.Close(err), now).0
    {
      Finalize(terminal, err, now);
    }

    method Finalize(terminal: bool, err: Option<string>, now: Time)
      requires Valid()
      modifies Footprint(state)
      ensures state != null ==>
                state.View() == Finalized(old(state.View()), terminal, if hasResp then accumResp else NO_RESPONSE, Reported(err), now)
    {
      var resp := NO_RESPONSE;
      if hasResp {
        resp := accumResp;
      }
      Stream.FinalizeStream(state, terminal, resp, Reported(err), now);
    }

    // Any sequence of calls.
    method Replay(uses: seq<Use>, clock: nat -> Time)
      requires Valid() && Accumulated() == START
      modifies this, Footprint(state)
      ensures state == null || (state.View(), Accumulated()) == After(old(state.View()), uses, clock, |uses|)
      ensures Accumulated() == After(New(0, false), uses, clock, |uses|).1
    {
      for i := 0 to |uses|
        invariant state == null || (state.View(), Accumulated()) == After(old(state.View()), uses, clock, i)
        invariant Accumulated() == After(New(0, false), uses, clock, i).1
      {
        match uses[i]
        case Next(answer) => var _ := Next(answer, clock(i));
        case Close(err) => Close(err, clock(i));
      }
    }
  }
}
