// The inference-details event when the callbacks of one agent key are
// serialized: what it reports, in terms of the callbacks alone.
module Details {
  import opened Types
  import opened RegistrySpec
  import opened Sequences
  import opened Callbacks

  // ---- What the callbacks, taken one after the other, must report ----

  // The callbacks that concern the model operations of this key.
  predicate ModelCallback(cb: Callback, key: AgentKey) {
    ((cb.BeforeModel? || cb.AfterModel?) && cb.key == key) || (cb.AfterRun? && cb.invocationID == key.invocationID)
  }

  predicate AllModelCallbacks(cbs: seq<Callback>, key: AgentKey) {
    forall i | 0 <= i < |cbs| :: ModelCallback(cbs[i], key)
  }

  // A response that is followed by others.
  predicate MoreToCome(cb: Callback) {
    cb.AfterModel? && cb.resp.Some? && cb.resp.value.partial
  }

  // The response, or an error, that ends an operation.
  predicate Final(cb: Callback) {
    cb.AfterModel? && (!MoreToCome(cb) || cb.err.Some?)
  }

  // The callback leaves no operation open.
  predicate Closes(cb: Callback) {
    cb.AfterRun? || Final(cb)
  }

  // Which callback opened the operation that is open after the first n: the
  // first beforeModel since the last callback that closed one.
  function Opening(cbs: seq<Callback>, n: nat): (b: Option<nat>)
    requires n <= |cbs|
    ensures b.Some? ==> b.value < n && cbs[b.value].BeforeModel?
    ensures b.Some? ==> forall i | b.value <= i < n :: !Closes(cbs[i])
    ensures b.Some? ==> forall i | 0 <= i < b.value && cbs[i].BeforeModel? :: exists j | i < j < b.value :: Closes(cbs[j])
    ensures b.None? ==> forall i | 0 <= i < n && cbs[i].BeforeModel? :: exists j | i < j < n :: Closes(cbs[j])
  {
    if n == 0 then None
    else if Closes(cbs[n - 1]) then None
    else if Opening(cbs, n - 1).None? && cbs[n - 1].BeforeModel? then Some(n - 1)
    else Opening(cbs, n - 1)
  }

  // The last non-nil usage reported by callbacks after b and before n.
  function LastUsage(cbs: seq<Callback>, b: nat, n: nat): Usage
    requires n <= |cbs|
  {
    if n <= b + 1 then NO_USAGE
    else if cbs[n - 1].AfterModel? && cbs[n - 1].resp.Some? && cbs[n - 1].resp.value.usage.Some?
    then MapUsageMetadata(cbs[n - 1].resp.value.usage.value)
    else LastUsage(cbs, b, n - 1)
  }

  predicate SomePartial(cbs: seq<Callback>, b: nat, n: nat)
    requires n <= |cbs|
  {
    exists i | b < i < n :: MoreToCome(cbs[i])
  }

  // The request content that a beforeModel captures, with its provider.
  function Captured(req: RequestInput): (string, ProjectedContent, ProjectedContent) {
    var p := ResolveProvider(req.resolver, req.provider);
    if req.eventsEnabled && p.Some? then (p.value, req.sys, req.input) else ("", NoContent, NoContent)
  }

  // The operation opened by callback b, as the callbacks up to n describe it.
  function Described(cbs: seq<Callback>, key: AgentKey, b: nat, n: nat): ModelRecord
    requires b < n <= |cbs| && cbs[b].BeforeModel?
  {
    var (provider, sys, input) := Captured(cbs[b].request);
    ModelRecord(
      serial := 0, agentKey := key, start := 0, terminalized := false,
      model := cbs[b].model, usage := LastUsage(cbs, b, n), streaming := SomePartial(cbs, b, n),
      provider := provider, systemInstructions := sys, inputMessages := input)
  }

  // The details event of the operation that callback b opens and callback
  // n - 1 ends, field by field.
  function ReportedDetails(cbs: seq<Callback>, b: nat, n: nat): Details
    requires b < n <= |cbs| && cbs[b].BeforeModel? && Final(cbs[n - 1])
  {
    var opening, closing := cbs[b], cbs[n - 1];
    Details(
      provider := Captured(opening.request).0,
      requestModel := opening.model,
      sys := Captured(opening.request).1,
      input := Captured(opening.request).2,
      streaming := SomePartial(cbs, b, n),
      usage := LastUsage(cbs, b, n),
      output := match closing.resp { case Some(r) => r.output case None => NoContent },
      responseModel := match closing.resp { case Some(r) => r.modelVersion case None => "" },
      finishReasons := match closing.resp { case Some(r) => if r.finishReason == "" then [] else [r.finishReason] case None => [] },
      errorType := match closing.err { case Some(e) => Known(e.second) case None => ERROR_NONE })
  }

  // The details event that callback n - 1 must emit: one if it ends an
  // operation that has a provider.
  function ExpectedFrom(cbs: seq<Callback>, n: nat): seq<Details>
    requires 0 < n <= |cbs|
  {
    var open := Opening(cbs, n - 1);
    if open.Some? && Final(cbs[n - 1]) && Captured(cbs[open.value].request).0 != ""
    then [ReportedDetails(cbs, open.value, n)] else []
  }

  function Expected(cbs: seq<Callback>, n: nat): seq<Details>
    requires n <= |cbs|
  {
    if n == 0 then [] else Expected(cbs, n - 1) + ExpectedFrom(cbs, n)
  }

  // ---- What one callback does when it runs alone ----

  // A model state without what tells one operation from the next.
  function Anonymous(st: ModelRecord): ModelRecord {
    st.(serial := 0, start := 0, terminalized := false)
  }

  function Slot(m: Memory, key: AgentKey): Option<ModelRecord> {
    if key in m.reg.models then Some(Anonymous(m.reg.models[key])) else None
  }

  function Report(cb: Callback, st: ModelRecord): seq<Details>
    requires cb.AfterModel?
  {
    if st.provider == "" then [] else [DetailsFor(cb, st)]
  }

  function ThenEnd(slot: Option<ModelRecord>, cb: Callback): (Option<ModelRecord>, seq<Details>)
    requires cb.AfterModel?
  {
    if slot.None? then (None, []) else (None, Report(cb, slot.value))
  }

  function ThenUpdate(slot: Option<ModelRecord>, cb: Callback, usage: Usage, streaming: bool): (Option<ModelRecord>, seq<Details>)
    requires cb.AfterModel?
  {
    var updated := if slot.None? then None
                   else Some(slot.value.(usage := usage, streaming := slot.value.streaming || streaming));
    if IsTerminal(cb.resp, cb.err) then ThenEnd(updated, cb) else (updated, [])
  }

  function ThenRequest(slot: Option<ModelRecord>, cb: Callback, provider: string): (Option<ModelRecord>, seq<Details>)
    requires cb.BeforeModel?
  {
    if slot.None? then (None, [])
    else (Some(slot.value.(provider := provider, systemInstructions := cb.request.sys, inputMessages := cb.request.input)), [])
  }

  function ThenStart(slot: Option<ModelRecord>, cb: Callback): (Option<ModelRecord>, seq<Details>)
    requires cb.BeforeModel?
  {
    if slot.Some? then (slot, [])
    else
      var started := Some(ModelRecord(0, cb.key, 0, cb.model, NO_USAGE, false, false, "", NoContent, NoContent));
      var pc := AfterModelStart(cb.request, 0).0;
      if pc.ToUpdateRequest? then ThenRequest(started, cb, pc.provider) else (started, [])
  }

  function Whole(slot: Option<ModelRecord>, cb: Callback): (Option<ModelRecord>, seq<Details>) {
    match cb
    case BeforeModel(_, _, _) => ThenStart(slot, cb)
    case AfterModel(_, resp, _) =>
      if slot.None? then (None, [])
      else if resp.Some? && resp.value.usage.Some? then
        ThenUpdate(slot, cb, MapUsageMetadata(resp.value.usage.value), resp.value.partial)
      else if IsPartial(resp) then ThenUpdate(slot, cb, slot.value.usage, true)
      else ThenEnd(slot, cb)
    case _ => (None, [])
  }

  // What a callback's steps still do from where it stands.
  function Remaining(slot: Option<ModelRecord>, t: Thread): (Option<ModelRecord>, seq<Details>)
    requires WellFormed(t)
  {
    match t.pc
    case Begin => Whole(slot, t.cb)
    case ToStartModel => ThenStart(slot, t.cb)
    case ToUpdateRequest(_, p) => ThenRequest(slot, t.cb, p)
    case ToReadUsage(_) => if slot.None? then (None, []) else ThenUpdate(slot, t.cb, slot.value.usage, true)
    case ToUpdateUsage(_, u, b) => ThenUpdate(slot, t.cb, u, b)
    case ToEndModel(_) => ThenEnd(slot, t.cb)
    case ToCountInference(st) => (slot, Report(t.cb, Anonymous(st)))
    case ToMarkModel(st) => (slot, Report(t.cb, Anonymous(st)))
    case _ => (slot, [])
  }

  // ---- One callback after the other ----

  function FinalSlot(cbs: seq<Callback>, n: nat): Option<ModelRecord>
    requires n <= |cbs|
  {
    if n == 0 then None else Whole(FinalSlot(cbs, n - 1), cbs[n - 1]).0
  }

  function AllDetails(cbs: seq<Callback>, n: nat): seq<Details>
    requires n <= |cbs|
  {
    if n == 0 then [] else AllDetails(cbs, n - 1) + Whole(FinalSlot(cbs, n - 1), cbs[n - 1]).1
  }

  lemma {:induction false} SlotAsDescribed(cbs: seq<Callback>, key: AgentKey, n: nat)
    requires n <= |cbs| && AllModelCallbacks(cbs, key)
    ensures FinalSlot(cbs, n) ==
            if Opening(cbs, n).None? then None else Some(Described(cbs, key, Opening(cbs, n).value, n))
  {
    if n == 0 {
    } else {
      SlotAsDescribed(cbs, key, n - 1);
      if Opening(cbs, n - 1).Some? {
        DescribedGrows(cbs, key, Opening(cbs, n - 1).value, n);
      }
    }
  }

  lemma DescribedGrows(cbs: seq<Callback>, key: AgentKey, b: nat, n: nat)
    requires b < n - 1 < |cbs| && cbs[b].BeforeModel?
    ensures var cb := cbs[n - 1];
            Described(cbs, key, b, n) ==
            Described(cbs, key, b, n - 1).(
              usage := if cb.AfterModel? && cb.resp.Some? && cb.resp.value.usage.Some?
                       then MapUsageMetadata(cb.resp.value.usage.value) else LastUsage(cbs, b, n - 1),
              streaming := SomePartial(cbs, b, n - 1) || (cb.AfterModel? && IsPartial(cb.resp)))
  {
  }

  lemma WholeAsExpected(cbs: seq<Callback>, key: AgentKey, n: nat)
    requires 0 < n <= |cbs| && AllModelCallbacks(cbs, key)
    ensures Whole(FinalSlot(cbs, n - 1), cbs[n - 1]).1 == ExpectedFrom(cbs, n)
  {
    SlotAsDescribed(cbs, key, n - 1);
    if Opening(cbs, n - 1).Some? {
      WholeOfOpen(cbs, key, Opening(cbs, n - 1).value, n);
    }
  }

  // What callback n - 1 reports of the operation that callback b opened.
  lemma WholeOfOpen(cbs: seq<Callback>, key: AgentKey, b: nat, n: nat)
    requires b < n - 1 < |cbs| && cbs[b].BeforeModel?
    ensures Whole(Some(Described(cbs, key, b, n - 1)), cbs[n - 1]).1 ==
            if Final(cbs[n - 1]) && Captured(cbs[b].request).0 != "" then [ReportedDetails(cbs, b, n)] else []
  {
    DescribedGrows(cbs, key, b, n);
  }

  lemma {:induction false} DetailsAsExpected(cbs: seq<Callback>, key: AgentKey, n: nat)
    requires n <= |cbs| && AllModelCallbacks(cbs, key)
    ensures AllDetails(cbs, n) == Expected(cbs, n)
  {
    if n == 0 {
    } else {
      DetailsAsExpected(cbs, key, n - 1);
      WholeAsExpected(cbs, key, n);
      OneMore(cbs, n);
    }
  }

  lemma OneMore(cbs: seq<Callback>, n: nat)
    requires 0 < n <= |cbs| && AllDetails(cbs, n - 1) == Expected(cbs, n - 1)
    requires Whole(FinalSlot(cbs, n - 1), cbs[n - 1]).1 == ExpectedFrom(cbs, n)
    ensures AllDetails(cbs, n) == Expected(cbs, n)
  {
  }

  // ---- Under interleaving ----

  // The model callback reads the usage of the operation that is still live.
  predicate ReadsLive(m: Memory, t: Thread, key: AgentKey) {
    t.pc.ToReadUsage? ==> key in m.reg.models && m.reg.models[key].serial == t.pc.serial
  }

  function DetailsOf(events: seq<Event>, key: AgentKey): seq<Details> {
    if events == [] then []
    else DetailsOf(events[..|events| - 1], key) + DetailsIn(events[|events| - 1], key)
  }

  function DetailsIn(e: Event, key: AgentKey): seq<Details> {
    if e.InferenceDetails? && e.key == key then [e.details] else []
  }

  lemma FewDetails(events: seq<Event>, key: AgentKey)
    ensures |events| == 0 ==> DetailsOf(events, key) == []
    ensures |events| == 1 ==> DetailsOf(events, key) == DetailsIn(events[0], key)
    ensures |events| == 2 ==> DetailsOf(events, key) == DetailsIn(events[0], key) + DetailsIn(events[1], key)
    ensures |events| == 3 ==> DetailsOf(events, key) == DetailsIn(events[0], key) + DetailsIn(events[1], key) + DetailsIn(events[2], key)
  {
    if 1 <= |events| <= 3 {
      assert events[..|events| - 1][..0] == [];
      if |events| == 3 {
        assert events[..2][..1] == events[..1];
      }
    }
  }

  lemma {:induction false} DetailsAppend(a: seq<Event>, b: seq<Event>, key: AgentKey)
    ensures DetailsOf(a + b, key) == DetailsOf(a, key) + DetailsOf(b, key)
  {
    if b == [] {
      assert a + b == a;
    } else {
      var n := |b| - 1;
      DetailsAppend(a, b[..n], key);
      assert (a + b)[..|a| + n] == a + b[..n];
      Regroup(DetailsOf(a, key), DetailsOf(b[..n], key), DetailsIn(b[n], key));
    }
  }

  // The first of the calls to be made, and the others.
  lemma DetailsFirst(unsent: seq<Event>, key: AgentKey)
    requires unsent != []
    ensures DetailsOf(unsent, key) == DetailsOf([unsent[0]], key) + DetailsOf(unsent[1..], key)
  {
    DetailsAppend([unsent[0]], unsent[1..], key);
    assert [unsent[0]] + unsent[1..] == unsent;
  }

  // What is left of a callback: the details among the calls it still has to
  // make, and what its steps still do.
  function Left(slot: Option<ModelRecord>, t: Thread, key: AgentKey): (Option<ModelRecord>, seq<Details>)
    requires WellFormed(t)
  {
    (Remaining(slot, t).0, DetailsOf(t.unsent, key) + Remaining(slot, t).1)
  }

  // Other callbacks leave the operation of this key alone and emit none of
  // its details events.
  lemma OtherAdvance(m: Memory, t: Thread, now: Time, key: AgentKey)
    requires WellFormed(t) && !ModelCallback(t.cb, key)
    ensures var (m', pc, events) := Advance(m, t, now);
            && (key in m'.reg.models <==> key in m.reg.models)
            && (key in m.reg.models ==> m'.reg.models[key] == m.reg.models[key])
            && DetailsOf(events, key) == []
  {
    OtherEvents(m, t, now, key);
    if NextStep(t, now).Some? {
      OtherNextStep(t, now, key);
      OtherStep(m.reg, NextStep(t, now).value, key);
    }
  }

  predicate ModelStep(s: Step, key: AgentKey) {
    ((s.SStartModel? || s.SUpdateRequest? || s.SUpdateUsage? || s.SEndModel?) && s.key == key)
    || (s.SCleanup? && s.invocationID == key.invocationID)
  }

  lemma OtherStep(r: Reg, s: Step, key: AgentKey)
    requires !ModelStep(s, key)
    ensures key in Apply(r, s).0.models <==> key in r.models
    ensures key in r.models ==> Apply(r, s).0.models[key] == r.models[key]
  {
  }

  lemma OtherNextStep(t: Thread, now: Time, key: AgentKey)
    requires WellFormed(t) && !ModelCallback(t.cb, key) && NextStep(t, now).Some?
    ensures !ModelStep(NextStep(t, now).value, key)
  {
  }

  lemma OtherEvents(m: Memory, t: Thread, now: Time, key: AgentKey)
    requires WellFormed(t) && !ModelCallback(t.cb, key)
    ensures DetailsOf(Advance(m, t, now).2, key) == []
  {
    FewDetails(Advance(m, t, now).2, key);
  }

  // What the callback does next is the first part of what remains of it.
  predicate Progresses(m: Memory, t: Thread, now: Time, key: AgentKey)
    requires WellFormed(t)
  {
    var (m', pc, events) := Advance(m, t, now);
    var t' := t.(pc := pc);
    && WellFormed(t') && ReadsLive(m', t', key)
    && Remaining(Slot(m, key), t).0 == Remaining(Slot(m', key), t').0
    && Remaining(Slot(m, key), t).1 == DetailsOf(events, key) + Remaining(Slot(m', key), t').1
  }

  lemma BeforeModelProgresses(m: Memory, t: Thread, now: Time, key: AgentKey)
    requires WellFormed(t) && t.cb.BeforeModel? && t.cb.key == key && t.pc.Begin?
    ensures Progresses(m, t, now, key)
  {
    AdvanceKeepsWellFormed(m, t, now);
    FewDetails(Advance(m, t, now).2, key);
  }

  lemma StartModelProgresses(m: Memory, t: Thread, now: Time, key: AgentKey)
    requires WellFormed(t) && t.cb.BeforeModel? && t.cb.key == key && t.pc.ToStartModel? && Consistent(m.reg)
    ensures Progresses(m, t, now, key)
  {
    if key in m.reg.models {
      StartModelRefused(m, t, now, key);
    } else {
      StartModelAnew(m, t, now, key);
    }
  }

  lemma StartModelAnew(m: Memory, t: Thread, now: Time, key: AgentKey)
    requires WellFormed(t) && t.cb.BeforeModel? && t.cb.key == key && t.pc.ToStartModel? && key !in m.reg.models
    ensures Progresses(m, t, now, key)
  {
    AdvanceKeepsWellFormed(m, t, now);
    FewDetails(Advance(m, t, now).2, key);
  }

  lemma StartModelRefused(m: Memory, t: Thread, now: Time, key: AgentKey)
    requires WellFormed(t) && t.cb.BeforeModel? && t.cb.key == key && t.pc.ToStartModel? && Consistent(m.reg)
    requires key in m.reg.models
    ensures Progresses(m, t, now, key)
  {
    AdvanceKeepsWellFormed(m, t, now);
    FewDetails(Advance(m, t, now).2, key);
    assert Advance(m, t, now).0.reg == m.reg && Advance(m, t, now).1.Done?;
  }

  lemma UpdateRequestProgresses(m: Memory, t: Thread, now: Time, key: AgentKey)
    requires WellFormed(t) && t.cb.BeforeModel? && t.cb.key == key && !t.pc.Begin? && !t.pc.ToStartModel? && Consistent(m.reg)
    ensures Progresses(m, t, now, key)
  {
    AdvanceKeepsWellFormed(m, t, now);
    FewDetails(Advance(m, t, now).2, key);
  }

  lemma AfterModelProgresses(m: Memory, t: Thread, now: Time, key: AgentKey)
    requires WellFormed(t) && t.cb.AfterModel? && t.cb.key == key && Consistent(m.reg) && ReadsLive(m, t, key)
    requires t.pc.Begin? || t.pc.ToReadUsage?
    ensures Progresses(m, t, now, key)
  {
    AdvanceKeepsWellFormed(m, t, now);
    FewDetails(Advance(m, t, now).2, key);
  }

  lemma AfterModelUsageProgresses(m: Memory, t: Thread, now: Time, key: AgentKey)
    requires WellFormed(t) && t.cb.AfterModel? && t.cb.key == key && Consistent(m.reg)
    requires t.pc.ToUpdateUsage?
    ensures Progresses(m, t, now, key)
  {
    AdvanceKeepsWellFormed(m, t, now);
    FewDetails(Advance(m, t, now).2, key);
  }

  lemma AfterModelEndProgresses(m: Memory, t: Thread, now: Time, key: AgentKey)
    requires WellFormed(t) && t.cb.AfterModel? && t.cb.key == key && Consistent(m.reg)
    requires t.pc.ToEndModel?
    ensures Progresses(m, t, now, key)
  {
    AdvanceKeepsWellFormed(m, t, now);
    FewDetails(Advance(m, t, now).2, key);
  }

  lemma AfterModelCountProgresses(m: Memory, t: Thread, now: Time, key: AgentKey)
    requires WellFormed(t) && t.cb.AfterModel? && t.cb.key == key
    requires t.pc.ToCountInference? || t.pc.Done?
    ensures Progresses(m, t, now, key)
  {
    AdvanceKeepsWellFormed(m, t, now);
    FewDetails(Advance(m, t, now).2, key);
  }

  lemma AfterModelReportProgresses(m: Memory, t: Thread, now: Time, key: AgentKey)
    requires WellFormed(t) && t.cb.AfterModel? && t.cb.key == key && t.pc.ToMarkModel?
    ensures Progresses(m, t, now, key)
  {
    AdvanceKeepsWellFormed(m, t, now);
    FewDetails(Advance(m, t, now).2, key);
  }

  lemma AfterRunProgresses(m: Memory, t: Thread, now: Time, key: AgentKey)
    requires WellFormed(t) && t.cb.AfterRun? && t.cb.invocationID == key.invocationID
    ensures Progresses(m, t, now, key)
  {
    AdvanceKeepsWellFormed(m, t, now);
    FewDetails(Advance(m, t, now).2, key);
  }

  predicate InProgress(t: Thread) {
    !t.pc.Begin? && !Through(t)
  }

  // The model callback of this key, if any, that this tick starts.
  function Starting(sys: System, tick: Tick, key: AgentKey): seq<Callback> {
    if tick.tid < |sys.threads| && sys.threads[tick.tid].pc.Begin? && ModelCallback(sys.threads[tick.tid].cb, key)
    then [sys.threads[tick.tid].cb] else []
  }

  // No model callback of this key is in progress.
  predicate Idle(sys: System, key: AgentKey) {
    forall i | 0 <= i < |sys.threads| && ModelCallback(sys.threads[i].cb, key) :: !InProgress(sys.threads[i])
  }

  // A model callback of this key starts only when no other is in progress.
  ghost predicate Serialized(sys: System, schedule: seq<Tick>, key: AgentKey)
    requires AllWellFormed(sys.threads)
    decreases |schedule|
  {
    if schedule == [] then true
    else
      TickKeepsWellFormed(sys, schedule[0]);
      && (Starting(sys, schedule[0], key) != [] ==> Idle(sys, key))
      && Serialized(TickSystem(sys, schedule[0]), schedule[1..], key)
  }

  // The model callbacks of this key, in the order they start.
  ghost function Order(sys: System, schedule: seq<Tick>, key: AgentKey): seq<Callback>
    requires AllWellFormed(sys.threads)
    decreases |schedule|
  {
    if schedule == [] then []
    else
      TickKeepsWellFormed(sys, schedule[0]);
      Starting(sys, schedule[0], key) + Order(TickSystem(sys, schedule[0]), schedule[1..], key)
  }

  function LoggedDetails(log: seq<Entry>, key: AgentKey): seq<Details> {
    if log == [] then []
    else LoggedDetails(log[..|log| - 1], key) + DetailsIn(log[|log| - 1].event, key)
  }

  lemma LoggedOneMore(log: seq<Entry>, e: Entry, key: AgentKey)
    ensures LoggedDetails(log + [e], key) == LoggedDetails(log, key) + DetailsIn(e.event, key)
  {
    assert (log + [e])[..|log|] == log;
  }

  lemma {:induction false} LoggedTagged(log: seq<Entry>, tid: nat, events: seq<Event>, key: AgentKey)
    ensures LoggedDetails(log + Tag(tid, events), key) == LoggedDetails(log, key) + DetailsOf(events, key)
  {
    if events == [] {
      assert log + Tag(tid, events) == log;
    } else {
      var n := |events| - 1;
      LoggedTagged(log, tid, events[..n], key);
      TagLast(log, tid, events);
      LoggedOneMore(log + Tag(tid, events[..n]), Entry(tid, events[n]), key);
    }
  }

  // The model callback of this key that is in progress, or the last one.
  ghost predicate IsCurrent(sys: System, who: Option<nat>, key: AgentKey) {
    && (forall i | 0 <= i < |sys.threads| && ModelCallback(sys.threads[i].cb, key) && InProgress(sys.threads[i]) :: who == Some(i))
    && (who.Some? ==>
          && who.value < |sys.threads| && ModelCallback(sys.threads[who.value].cb, key)
          && ReadsLive(sys.mem, sys.threads[who.value], key))
  }

  function Rest(sys: System, who: Option<nat>, key: AgentKey): (Option<ModelRecord>, seq<Details>)
    requires who.Some? ==> who.value < |sys.threads| && WellFormed(sys.threads[who.value])
  {
    if who.None? then (Slot(sys.mem, key), []) else Left(Slot(sys.mem, key), sys.threads[who.value], key)
  }

  // The other callbacks have no details of this key to report.
  ghost predicate OthersSilent(sys: System, key: AgentKey) {
    forall i | 0 <= i < |sys.threads| && !ModelCallback(sys.threads[i].cb, key) :: DetailsOf(sys.threads[i].unsent, key) == []
  }

  // The callbacks so far, in their order, account for the slot and the log,
  // up to what the current one still has to do.
  ghost predicate Accounts(sys: System, who: Option<nat>, cbs: seq<Callback>, key: AgentKey) {
    && AllWellFormed(sys.threads) && Consistent(sys.mem.reg) && IsCurrent(sys, who, key) && OthersSilent(sys, key)
    && Rest(sys, who, key).0 == FinalSlot(cbs, |cbs|)
    && LoggedDetails(sys.log, key) + Rest(sys, who, key).1 == AllDetails(cbs, |cbs|)
  }

  lemma OtherMove(m: Memory, t: Thread, now: Time, key: AgentKey)
    requires WellFormed(t) && !ModelCallback(t.cb, key) && DetailsOf(t.unsent, key) == []
    ensures var moved := Move(m, t, now);
            && (key in moved.mem.reg.models <==> key in m.reg.models)
            && (key in m.reg.models ==> moved.mem.reg.models[key] == m.reg.models[key])
            && DetailsOf(moved.sent, key) == DetailsOf(moved.thread.unsent, key) == []
  {
    if t.unsent == [] {
      OtherAdvance(m, t, now, key);
    } else {
      DetailsFirst(t.unsent, key);
    }
  }

  lemma OtherTick(sys: System, tick: Tick, who: Option<nat>, key: AgentKey)
    requires AllWellFormed(sys.threads) && IsCurrent(sys, who, key) && OthersSilent(sys, key)
    requires tick.tid < |sys.threads| && !ModelCallback(sys.threads[tick.tid].cb, key)
    ensures IsCurrent(TickSystem(sys, tick), who, key) && OthersSilent(TickSystem(sys, tick), key)
    ensures Slot(TickSystem(sys, tick).mem, key) == Slot(sys.mem, key)
  {
    OtherMove(sys.mem, sys.threads[tick.tid], tick.now, key);
  }

  lemma OtherTickRest(sys: System, tick: Tick, who: Option<nat>, key: AgentKey)
    requires AllWellFormed(sys.threads) && IsCurrent(sys, who, key) && OthersSilent(sys, key)
    requires tick.tid < |sys.threads| && !ModelCallback(sys.threads[tick.tid].cb, key)
    ensures Rest(TickSystem(sys, tick), who, key) == Rest(sys, who, key)
    ensures LoggedDetails(TickSystem(sys, tick).log, key) == LoggedDetails(sys.log, key)
  {
    var t := sys.threads[tick.tid];
    OtherTick(sys, tick, who, key);
    OtherMove(sys.mem, t, tick.now, key);
    LoggedTagged(sys.log, tick.tid, Move(sys.mem, t, tick.now).sent, key);
  }

  lemma ModelCallbackProgresses(m: Memory, t: Thread, now: Time, key: AgentKey)
    requires WellFormed(t) && ModelCallback(t.cb, key) && Consistent(m.reg) && ReadsLive(m, t, key)
    ensures Progresses(m, t, now, key)
  {
    match t.cb
    case BeforeModel(_, _, _) =>
      if t.pc.Begin? {
        BeforeModelProgresses(m, t, now, key);
      } else if !t.pc.ToStartModel? {
        UpdateRequestProgresses(m, t, now, key);
      } else {
        StartModelProgresses(m, t, now, key);
      }
    case AfterRun(_) => AfterRunProgresses(m, t, now, key);
    case AfterModel(_, _, _) =>
      if t.pc.Begin? || t.pc.ToReadUsage? {
        AfterModelProgresses(m, t, now, key);
      } else if t.pc.ToUpdateUsage? {
        AfterModelUsageProgresses(m, t, now, key);
      } else if t.pc.ToEndModel? {
        AfterModelEndProgresses(m, t, now, key);
      } else if t.pc.ToMarkModel? {
        AfterModelReportProgresses(m, t, now, key);
      } else {
        AfterModelCountProgresses(m, t, now, key);
      }
  }

  // One turn of a model callback takes the first part of what is left of it.
  ghost predicate MovesOn(m: Memory, t: Thread, now: Time, key: AgentKey)
    requires WellFormed(t)
  {
    var moved := Move(m, t, now);
    && WellFormed(moved.thread) && ReadsLive(moved.mem, moved.thread, key)
    && Left(Slot(m, key), t, key).0 == Left(Slot(moved.mem, key), moved.thread, key).0
    && Left(Slot(m, key), t, key).1 == DetailsOf(moved.sent, key) + Left(Slot(moved.mem, key), moved.thread, key).1
  }

  lemma SendsOn(m: Memory, t: Thread, now: Time, key: AgentKey)
    requires WellFormed(t) && t.unsent != [] && ReadsLive(m, t, key)
    ensures MovesOn(m, t, now, key)
  {
    var t' := t.(unsent := t.unsent[1..]);
    SameRemaining(Slot(m, key), t, t');
    DetailsFirst(t.unsent, key);
    Regroup(DetailsOf([t.unsent[0]], key), DetailsOf(t'.unsent, key), Remaining(Slot(m, key), t).1);
  }

  lemma StepsOn(m: Memory, t: Thread, now: Time, key: AgentKey)
    requires WellFormed(t) && t.unsent == [] && Progresses(m, t, now, key)
    ensures MovesOn(m, t, now, key)
  {
    var (m', pc, events) := Advance(m, t, now);
    MoveBegins(m, t, now);
    SameRemaining(Slot(m', key), t.(pc := pc), t.(pc := pc, unsent := events));
    assert [] + Remaining(Slot(m, key), t).1 == Remaining(Slot(m, key), t).1;
    var left := Left(Slot(m', key), t.(pc := pc, unsent := events), key).1;
    assert [] + left == left;
  }

  lemma MoveBegins(m: Memory, t: Thread, now: Time)
    requires WellFormed(t)
    ensures !Move(m, t, now).thread.pc.Begin?
  {
  }

  lemma ModelCallbackMovesOn(m: Memory, t: Thread, now: Time, key: AgentKey)
    requires WellFormed(t) && ModelCallback(t.cb, key) && Consistent(m.reg) && ReadsLive(m, t, key)
    ensures MovesOn(m, t, now, key)
  {
    if t.unsent == [] {
      ModelCallbackProgresses(m, t, now, key);
      StepsOn(m, t, now, key);
    } else {
      SendsOn(m, t, now, key);
    }
  }

  lemma SameRemaining(slot: Option<ModelRecord>, t: Thread, t': Thread)
    requires WellFormed(t) && t' == t.(unsent := t'.unsent) && !t.pc.Begin?
    ensures WellFormed(t') && Remaining(slot, t) == Remaining(slot, t')
  {
  }

  lemma CurrentTick(sys: System, tick: Tick, key: AgentKey)
    requires AllWellFormed(sys.threads) && Consistent(sys.mem.reg) && tick.tid < |sys.threads|
    requires IsCurrent(sys, Some(tick.tid), key)
    ensures var sys' := TickSystem(sys, tick);
            && WellFormed(sys'.threads[tick.tid]) && IsCurrent(sys', Some(tick.tid), key) && Begun(sys', Some(tick.tid))
  {
    ModelCallbackMovesOn(sys.mem, sys.threads[tick.tid], tick.now, key);
    MoveBegins(sys.mem, sys.threads[tick.tid], tick.now);
  }

  lemma CurrentTickRest(sys: System, tick: Tick, key: AgentKey)
    requires AllWellFormed(sys.threads) && Consistent(sys.mem.reg) && tick.tid < |sys.threads|
    requires IsCurrent(sys, Some(tick.tid), key) && WellFormed(TickSystem(sys, tick).threads[tick.tid])
    ensures var sys' := TickSystem(sys, tick);
            var who := Some(tick.tid);
            && Rest(sys', who, key).0 == Rest(sys, who, key).0
            && LoggedDetails(sys'.log, key) + Rest(sys', who, key).1 == LoggedDetails(sys.log, key) + Rest(sys, who, key).1
  {
    var t := sys.threads[tick.tid];
    var sys' := TickSystem(sys, tick);
    var sent := Move(sys.mem, t, tick.now).sent;
    var after := Left(Slot(sys'.mem, key), sys'.threads[tick.tid], key).1;
    ModelCallbackMovesOn(sys.mem, t, tick.now, key);
    LoggedTagged(sys.log, tick.tid, sent, key);
    Regroup(LoggedDetails(sys.log, key), DetailsOf(sent, key), after);
  }

  lemma TickKeepsConsistent(sys: System, tick: Tick)
    requires AllWellFormed(sys.threads) && Consistent(sys.mem.reg)
    ensures Consistent(TickSystem(sys, tick).mem.reg)
  {
    if tick.tid < |sys.threads| {
      var s := Move(sys.mem, sys.threads[tick.tid], tick.now).step;
      if s.Some? {
        StepKeepsConsistent(sys.mem.reg, s.value);
      }
    }
  }

  // Who is current after this tick.
  function Next(sys: System, tick: Tick, who: Option<nat>, key: AgentKey): Option<nat> {
    if Starting(sys, tick, key) != [] then Some(tick.tid) else who
  }

  lemma StartingRest(sys: System, tick: Tick, key: AgentKey)
    requires AllWellFormed(sys.threads) && Starting(sys, tick, key) != [] && Idle(sys, key)
    ensures IsCurrent(sys, Some(tick.tid), key)
    ensures Rest(sys, Some(tick.tid), key) == Whole(Slot(sys.mem, key), sys.threads[tick.tid].cb)
  {
    var whole := Whole(Slot(sys.mem, key), sys.threads[tick.tid].cb).1;
    assert [] + whole == whole;
  }

  predicate Begun(sys: System, who: Option<nat>) {
    who.Some? ==> who.value < |sys.threads| && !sys.threads[who.value].pc.Begin?
  }

  lemma IdleRest(sys: System, who: Option<nat>, key: AgentKey)
    requires AllWellFormed(sys.threads) && IsCurrent(sys, who, key) && Begun(sys, who)
    requires Idle(sys, key)
    ensures Rest(sys, who, key) == (Slot(sys.mem, key), [])
  {
    if who.Some? {
      var t := sys.threads[who.value];
      assert Through(t) && DetailsOf(t.unsent, key) + Remaining(Slot(sys.mem, key), t).1 == [];
    }
  }

  lemma OneMoreAccounted(cbs: seq<Callback>, cb: Callback, slot: Option<ModelRecord>, logged: seq<Details>)
    requires FinalSlot(cbs, |cbs|) == slot && AllDetails(cbs, |cbs|) == logged
    ensures var more := cbs + [cb];
            FinalSlot(more, |more|) == Whole(slot, cb).0 && AllDetails(more, |more|) == logged + Whole(slot, cb).1
  {
    SamePrefix(cbs, cb, |cbs|);
  }

  lemma IdleAccounts(sys: System, who: Option<nat>, cbs: seq<Callback>, key: AgentKey)
    requires Accounts(sys, who, cbs, key) && Begun(sys, who) && Idle(sys, key)
    ensures FinalSlot(cbs, |cbs|) == Slot(sys.mem, key) && AllDetails(cbs, |cbs|) == LoggedDetails(sys.log, key)
  {
    var logged := LoggedDetails(sys.log, key);
    IdleRest(sys, who, key);
    assert logged + [] == logged;
  }

  lemma StartIsCurrent(sys: System, tick: Tick, who: Option<nat>, cbs: seq<Callback>, key: AgentKey)
    requires Accounts(sys, who, cbs, key) && Begun(sys, who) && Starting(sys, tick, key) != []
    requires Idle(sys, key)
    ensures Accounts(sys, Some(tick.tid), cbs + Starting(sys, tick, key), key)
  {
    var cb := sys.threads[tick.tid].cb;
    assert Starting(sys, tick, key) == [cb];
    StartingRest(sys, tick, key);
    IdleAccounts(sys, who, cbs, key);
    OneMoreAccounted(cbs, cb, Slot(sys.mem, key), LoggedDetails(sys.log, key));
  }

  lemma {:induction false} SamePrefix(cbs: seq<Callback>, cb: Callback, n: nat)
    requires n <= |cbs|
    ensures FinalSlot(cbs + [cb], n) == FinalSlot(cbs, n) && AllDetails(cbs + [cb], n) == AllDetails(cbs, n)
  {
    if n == 0 {
    } else {
      SamePrefix(cbs, cb, n - 1);
    }
  }

  lemma OtherTickAccounts(sys: System, tick: Tick, who: Option<nat>, cbs: seq<Callback>, key: AgentKey)
    requires Accounts(sys, who, cbs, key) && Begun(sys, who)
    requires tick.tid < |sys.threads| && !ModelCallback(sys.threads[tick.tid].cb, key)
    ensures Accounts(TickSystem(sys, tick), who, cbs, key) && Begun(TickSystem(sys, tick), who)
  {
    TickKeepsWellFormed(sys, tick);
    TickKeepsConsistent(sys, tick);
    OtherTick(sys, tick, who, key);
    OtherTickRest(sys, tick, who, key);
  }

  lemma CurrentTickAccounts(sys: System, tick: Tick, cbs: seq<Callback>, key: AgentKey)
    requires Accounts(sys, Some(tick.tid), cbs, key)
    ensures Accounts(TickSystem(sys, tick), Some(tick.tid), cbs, key) && Begun(TickSystem(sys, tick), Some(tick.tid))
  {
    TickKeepsWellFormed(sys, tick);
    TickKeepsConsistent(sys, tick);
    CurrentTick(sys, tick, key);
    CurrentTickRest(sys, tick, key);
  }

  lemma ThroughTick(sys: System, tick: Tick)
    requires AllWellFormed(sys.threads) && tick.tid < |sys.threads| && Through(sys.threads[tick.tid])
    ensures TickSystem(sys, tick) == sys
  {
    assert TickSystem(sys, tick).threads == sys.threads;
    assert sys.log + Tag(tick.tid, []) == sys.log && sys.trace + [] == sys.trace;
  }

  lemma TickKeepsAccounts(sys: System, tick: Tick, who: Option<nat>, cbs: seq<Callback>, key: AgentKey)
    requires Accounts(sys, who, cbs, key) && Begun(sys, who)
    requires Starting(sys, tick, key) != [] ==> Idle(sys, key)
    ensures Accounts(TickSystem(sys, tick), Next(sys, tick, who, key), cbs + Starting(sys, tick, key), key)
    ensures Begun(TickSystem(sys, tick), Next(sys, tick, who, key))
  {
    assert cbs + [] == cbs;
    if tick.tid < |sys.threads| {
      var t := sys.threads[tick.tid];
      if !ModelCallback(t.cb, key) {
        OtherTickAccounts(sys, tick, who, cbs, key);
      } else if Through(t) {
        ThroughTick(sys, tick);
      } else {
        if t.pc.Begin? {
          StartIsCurrent(sys, tick, who, cbs, key);
        }
        CurrentTickAccounts(sys, tick, cbs + Starting(sys, tick, key), key);
      }
    }
  }

  lemma {:induction false} RunKeepsAccounts(sys: System, schedule: seq<Tick>, who: Option<nat>, cbs: seq<Callback>, key: AgentKey)
    returns (last: Option<nat>)
    requires Accounts(sys, who, cbs, key) && Begun(sys, who) && Serialized(sys, schedule, key)
    ensures Accounts(Execute(sys, schedule), last, cbs + Order(sys, schedule, key), key)
    ensures Begun(Execute(sys, schedule), last)
    decreases |schedule|
  {
    if schedule == [] {
      assert cbs + [] == cbs;
      return who;
    }
    var tick := schedule[0];
    TickKeepsAccounts(sys, tick, who, cbs, key);
    var started := Starting(sys, tick, key);
    last := RunKeepsAccounts(TickSystem(sys, tick), schedule[1..], Next(sys, tick, who, key), cbs + started, key);
    Regroup(cbs, started, Order(TickSystem(sys, tick), schedule[1..], key));
  }

  lemma {:induction false} OrderedModelCallbacks(sys: System, schedule: seq<Tick>, key: AgentKey)
    requires AllWellFormed(sys.threads)
    ensures AllModelCallbacks(Order(sys, schedule, key), key)
    decreases |schedule|
  {
    if schedule == [] {
    } else {
      TickKeepsWellFormed(sys, schedule[0]);
      OrderedModelCallbacks(TickSystem(sys, schedule[0]), schedule[1..], key);
      assert AllModelCallbacks(Starting(sys, schedule[0], key), key);
    }
  }

  lemma FromNothing(sys: System, schedule: seq<Tick>, key: AgentKey) returns (last: Option<nat>)
    requires Accounts(sys, None, [], key) && Begun(sys, None) && Serialized(sys, schedule, key)
    ensures Accounts(Execute(sys, schedule), last, Order(sys, schedule, key), key)
    ensures Begun(Execute(sys, schedule), last)
  {
    var order := Order(sys, schedule, key);
    assert [] + order == order;
    last := RunKeepsAccounts(sys, schedule, None, [], key);
  }

  lemma RunAccounts(cbs: seq<Callback>, schedule: seq<Tick>, key: AgentKey) returns (last: Option<nat>)
    requires Serialized(Initial(cbs), schedule, key)
    ensures Accounts(Execute(Initial(cbs), schedule), last, Order(Initial(cbs), schedule, key), key)
    ensures Begun(Execute(Initial(cbs), schedule), last)
  {
    InitialAccounts(cbs, key);
    last := FromNothing(Initial(cbs), schedule, key);
  }

  // For every interleaving in which the model callbacks of this key do not
  // overlap, whatever the other callbacks do: the details events logged for
  // the key are, in order, those of the model operations its callbacks
  // describe, except for the one a callback still in progress will add.
  lemma DetailsDescribeOperations(cbs: seq<Callback>, schedule: seq<Tick>, key: AgentKey)
    requires Serialized(Initial(cbs), schedule, key)
    ensures var sys := Execute(Initial(cbs), schedule);
            var order := Order(Initial(cbs), schedule, key);
            var expected := Expected(order, |order|);
            && LoggedDetails(sys.log, key) <= expected
            && (Idle(sys, key) ==>
                  LoggedDetails(sys.log, key) == expected)
  {
    var order := Order(Initial(cbs), schedule, key);
    var last := RunAccounts(cbs, schedule, key);
    WhatIsLogged(Execute(Initial(cbs), schedule), last, order, key);
    OrderedModelCallbacks(Initial(cbs), schedule, key);
    DetailsAsExpected(order, key, |order|);
  }

  lemma InitialAccounts(cbs: seq<Callback>, key: AgentKey)
    ensures Accounts(Initial(cbs), None, [], key) && Begun(Initial(cbs), None)
  {
  }

  lemma WhatIsLogged(sys: System, who: Option<nat>, cbs: seq<Callback>, key: AgentKey)
    requires Accounts(sys, who, cbs, key) && Begun(sys, who)
    ensures LoggedDetails(sys.log, key) <= AllDetails(cbs, |cbs|)
    ensures Idle(sys, key) ==>
              LoggedDetails(sys.log, key) == AllDetails(cbs, |cbs|)
  {
    if Idle(sys, key) {
      IdleRest(sys, who, key);
    }
  }
}
