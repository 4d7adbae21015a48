/** Code Mode: explicit tool calls encoded as ordinary provider output, in two
    wire forms that the accumulator decodes to the same calls. */
module CodeMode {
  import opened SessionEvents
  import opened Sessions
  import opened Accumulators

  const MAX_CODE_MODE_CALLS: nat := 256
  const MAX_U16: nat := 0xffff
  const MAX_U32: nat := 0xffff_ffff

  datatype ScheduleError = Empty | TooLarge | DuplicateCallId | UnselectedCall

  /** One call, with its arguments already in their JSON text. */
  type Call = LoggedCall

  predicate Acceptable(calls: seq<Call>, selected: set<string>) {
    && 0 < |calls| <= MAX_CODE_MODE_CALLS
    && (forall i, j :: 0 <= i < j < |calls| ==> calls[i].id != calls[j].id)
    && (forall i :: 0 <= i < |calls| ==> calls[i].name in selected)
  }

  method NewSchedule(calls: seq<Call>, selected: set<string>) returns (r: Result<seq<Call>, ScheduleError>)
    ensures r.Ok? <==> Acceptable(calls, selected)
    ensures r.Ok? ==> r.value == calls
    ensures calls == [] <==> r == Err(Empty)
    ensures |calls| > MAX_CODE_MODE_CALLS <==> r == Err(TooLarge)
  {
    if calls == [] {
      return Err(Empty);
    }
    if |calls| > MAX_CODE_MODE_CALLS {
      return Err(TooLarge);
    }
    var ids: set<string> := {};
    for i := 0 to |calls|
      invariant ids == set j | 0 <= j < i :: calls[j].id
      invariant forall j, k :: 0 <= j < k < i ==> calls[j].id != calls[k].id
      invariant forall j :: 0 <= j < i ==> calls[j].name in selected
    {
      if calls[i].id in ids {
        return Err(DuplicateCallId);
      }
      ids := ids + {calls[i].id};
      if calls[i].name !in selected {
        return Err(UnselectedCall);
      }
    }
    r := Ok(calls);
  }

  // ---- the two encodings ----

  function Capped(index: nat, limit: nat): nat {
    if index <= limit then index else limit
  }

  function Deltas(calls: seq<Call>): seq<StreamChunk> {
    seq(|calls|, i requires 0 <= i < |calls| =>
      ToolCallDelta(Capped(i, MAX_U16), Some(calls[i].id), Some(calls[i].name), calls[i].arguments))
  }

  function ChunksOf(calls: seq<Call>): seq<StreamChunk> {
    Deltas(calls) + [Finish(FinishToolCalls)]
  }

  method StreamChunks(calls: seq<Call>) returns (chunks: seq<StreamChunk>)
    ensures chunks == ChunksOf(calls)
  {
    chunks := [];
    for index := 0 to |calls|
      invariant |chunks| == index && forall i :: 0 <= i < index ==> chunks[i] == Deltas(calls)[i]
    {
      var call := calls[index];
      chunks := chunks + [ToolCallDelta(Capped(index, MAX_U16), Some(call.id), Some(call.name), call.arguments)];
    }
    chunks := chunks + [Finish(FinishToolCalls)];
  }

  function CallEvents(calls: seq<Call>): seq<InferenceEvent> {
    if calls == [] then []
    else
      CallEvents(calls[..|calls| - 1]) + [Marker, LastEvent(calls), Marker]
  }

  function EventsOf(calls: seq<Call>): seq<InferenceEvent> {
    [Marker] + CallEvents(calls) + [Marker, FinishEvent(FinishToolCalls)]
  }

  method InferenceEvents(calls: seq<Call>) returns (events: seq<InferenceEvent>)
    ensures events == EventsOf(calls)
  {
    events := [Marker];
    for index := 0 to |calls|
      invariant events == [Marker] + CallEvents(calls[..index])
    {
      var call := calls[index];
      events := events
        + [Marker, CallEvent(Capped(index, MAX_U32), Some(call.id), Some(call.name), call.arguments), Marker];
      assert calls[..index + 1][..index] == calls[..index];
    }
    assert calls[..|calls|] == calls;
    events := events + [Marker, FinishEvent(FinishToolCalls)];
  }

  // ---- decoding ----

  function Slots(calls: seq<Call>): seq<Slot> {
    seq(|calls|, i requires 0 <= i < |calls| => Slot(i, Some(calls[i].id), Some(calls[i].name), calls[i].arguments))
  }

  lemma {:induction false} DeltasSlots(calls: seq<Call>)
    requires |calls| <= MAX_U16 + 1
    ensures |Indices(Deltas(calls))| == |calls|
    ensures forall i :: 0 <= i < |calls| ==>
              Indices(Deltas(calls))[i] == i && SlotOf(Deltas(calls), i) == Slots(calls)[i]
    decreases |calls|
  {
    if calls != [] {
      var init, last := calls[..|calls| - 1], Deltas(calls)[|calls| - 1];
      DeltasSlots(init);
      assert Deltas(calls) == Deltas(init) + [last];
      IndicesAppend(Deltas(init), last);
      SlotAbsent(Deltas(init), |init|);
      forall i | 0 <= i < |calls| ensures SlotOf(Deltas(calls), i) == Slots(calls)[i] {
        SlotAppend(Deltas(init), last, i);
      }
    }
  }

  /** Decoding the chunks of a schedule gives back exactly its calls, in order. */
  lemma ChunksRoundTrip(calls: seq<Call>)
    requires |calls| <= MAX_U16 + 1
    ensures CallsOf(ChunksOf(calls)) == calls
  {
    DeltasSlots(calls);
    SlotsKept(Deltas(calls), Finish(FinishToolCalls));
    assert SlotsOf(Deltas(calls)) == Slots(calls);
    assert CallsOf(ChunksOf(calls)) == calls;
  }

  /** Past the index type two calls would share a slot: the bound on a schedule
      is what makes the encoding faithful. */
  lemma ChunksRoundTripOnlyThen(calls: seq<Call>)
    requires |calls| > MAX_U16 + 1
    ensures CallsOf(ChunksOf(calls)) != calls
  {
    IndicesBelow(Deltas(calls), MAX_U16);
    SlotsKept(Deltas(calls), Finish(FinishToolCalls));
    assert |CallsOf(ChunksOf(calls))| == |Indices(Deltas(calls))|;
  }

  lemma {:induction false} IndicesBelow(chunks: seq<StreamChunk>, limit: nat)
    requires forall c :: c in chunks && c.ToolCallDelta? ==> c.index <= limit
    ensures |Indices(chunks)| <= limit + 1
  {
    IndicesDistinct(chunks);
    IndicesFrom(chunks, limit);
    DistinctFit(Indices(chunks), limit + 1);
  }

  lemma {:induction false} IndicesFrom(chunks: seq<StreamChunk>, limit: nat)
    requires forall c :: c in chunks && c.ToolCallDelta? ==> c.index <= limit
    ensures forall i :: 0 <= i < |Indices(chunks)| ==> Indices(chunks)[i] <= limit
    decreases |chunks|
  {
    if chunks != [] {
      assert forall c :: c in chunks[..|chunks| - 1] ==> c in chunks;
      assert chunks[|chunks| - 1] in chunks;
      IndicesFrom(chunks[..|chunks| - 1], limit);
    }
  }

  /** Distinct naturals below a bound are at most that many. */
  lemma {:induction false} DistinctFit(s: seq<nat>, bound: nat)
    requires forall i :: 0 <= i < |s| ==> s[i] < bound
    requires forall i, j :: 0 <= i < j < |s| ==> s[i] != s[j]
    ensures |s| <= bound
  {
    if |s| > 0 {
      assert s[0] < bound;
      if k :| 0 <= k < |s| && s[k] == bound - 1 {
        DistinctFit(s[..k] + s[k + 1..], bound - 1);
      } else {
        DistinctFit(s, bound - 1);
      }
    }
  }

  function Flatten(events: seq<InferenceEvent>): seq<StreamChunk> {
    if events == [] then []
    else Flatten(events[..|events| - 1]) + ChunksFor(events[|events| - 1])
  }

  lemma FlattenAppend(events: seq<InferenceEvent>, event: InferenceEvent)
    ensures Flatten(events + [event]) == Flatten(events) + ChunksFor(event)
  {
    assert (events + [event])[..|events|] == events;
  }

  lemma {:induction false} FlattenCalls(calls: seq<Call>)
    requires |calls| <= MAX_U16 + 1
    ensures Flatten([Marker] + CallEvents(calls)) == Deltas(calls)
    decreases |calls|
  {
    if calls == [] {
      FlattenAppend([], Marker);
      assert [Marker] + CallEvents([]) == [] + [Marker];
    } else {
      var init, delta := calls[..|calls| - 1], LastEvent(calls);
      var before := [Marker] + CallEvents(init);
      FlattenCalls(init);
      DeltasStep(calls);
      hide Flatten, Deltas;
      assert [Marker] + CallEvents(calls) == before + [Marker] + [delta] + [Marker];
      hide CallEvents, ChunksFor;
      FlattenAppend(before, Marker);
      FlattenAppend(before + [Marker], delta);
      FlattenAppend(before + [Marker] + [delta], Marker);
      NoChunks(Flatten(before));
      NoChunks(Flatten(before + [Marker] + [delta]));
    }
  }

  function LastEvent(calls: seq<Call>): InferenceEvent
    requires calls != []
  {
    var last := calls[|calls| - 1];
    CallEvent(Capped(|calls| - 1, MAX_U32), Some(last.id), Some(last.name), last.arguments)
  }

  lemma DeltasStep(calls: seq<Call>)
    requires 0 < |calls| <= MAX_U16 + 1
    ensures Deltas(calls) == Deltas(calls[..|calls| - 1]) + ChunksFor(LastEvent(calls))
  {
  }

  lemma NoChunks(chunks: seq<StreamChunk>)
    ensures chunks + ChunksFor(Marker) == chunks
  {
  }

  /** Both encodings carry the same chunks. */
  lemma EncodingsAgree(calls: seq<Call>)
    requires |calls| <= MAX_U16 + 1
    ensures Flatten(EventsOf(calls)) == ChunksOf(calls)
  {
    var before := [Marker] + CallEvents(calls);
    FlattenCalls(calls);
    assert EventsOf(calls) == before + [Marker] + [FinishEvent(FinishToolCalls)];
    FlattenAppend(before, Marker);
    FlattenAppend(before + [Marker], FinishEvent(FinishToolCalls));
    assert Deltas(calls) + [] == Deltas(calls);
  }

  // ---- through the accumulator ----

  method AbsorbChunks(session: Session, turn: nat, step: nat, chunks: seq<StreamChunk>)
    returns (ok: bool, calls: seq<Call>)
    requires session.Valid()
    modifies session
    ensures session.Valid() && (ok ==> calls == CallsOf(chunks))
    ensures (forall c :: c in chunks ==> !c.TextDelta? && !c.ReasoningDelta?) ==>
              ok && session.events == old(session.events)
  {
    hide SlotsOf, Indices, TextOf, ReasoningOf, FinishOf, CallsOf, WellFormed, I.Project;
    var turnState := new AccumulatedTurn();
    ok, calls := true, [];
    for i := 0 to |chunks|
      invariant session.Valid() && turnState.Valid() && turnState.absorbed == chunks[..i]
      invariant (forall c :: c in chunks ==> !c.TextDelta? && !c.ReasoningDelta?) ==>
                session.events == old(session.events)
    {
      assert chunks[..i + 1] == chunks[..i] + [chunks[i]];
      ok := turnState.Absorb(session, turn, step, chunks[i]);
      if !ok {
        return;
      }
    }
    ok := true;
    assert chunks[..|chunks|] == chunks;
    calls := turnState.ToToolCalls();
  }

  /** What needs no write: markers, calls of a supported index, and the finish. */
  predicate CallOnly(event: InferenceEvent) {
    event.Marker? || event.FinishEvent? || (event.CallEvent? && event.outputIndex <= MAX_CALL_INDEX)
  }

  lemma {:induction false} EventsAreCalls(calls: seq<Call>)
    requires |calls| <= MAX_U16 + 1
    ensures forall e :: e in CallEvents(calls) ==> CallOnly(e)
    decreases |calls|
  {
    if calls != [] {
      EventsAreCalls(calls[..|calls| - 1]);
    }
  }

  method AbsorbEvents(session: Session, turn: nat, step: nat, events: seq<InferenceEvent>)
    returns (ok: bool, calls: seq<Call>)
    requires session.Valid()
    modifies session
    ensures session.Valid() && (ok ==> calls == CallsOf(Flatten(events)))
    ensures (forall e :: e in events ==> CallOnly(e)) ==>
              ok && session.events == old(session.events) && session.writes == old(session.writes)
  {
    hide SlotsOf, Indices, TextOf, ReasoningOf, FinishOf, CallsOf, WellFormed, I.Project, ChunksFor;
    var turnState := new AccumulatedTurn();
    ok, calls := true, [];
    for i := 0 to |events|
      invariant session.Valid() && turnState.Valid() && turnState.absorbed == Flatten(events[..i])
      invariant (forall e :: e in events ==> CallOnly(e)) ==>
                  && turnState.pending == []
                  && session.events == old(session.events)
                  && session.writes == old(session.writes)
    {
      assert events[..i + 1] == events[..i] + [events[i]];
      FlattenAppend(events[..i], events[i]);
      assert events[i] in events;
      ok := turnState.AbsorbInference(session, turn, step, events[i], true);
      if !ok {
        return;
      }
    }
    assert events[..|events|] == events;
    calls := turnState.ToToolCalls();
  }

  /** What a Code Mode provider streams is exactly what the agent will run. */
  method Decode(session: Session, turn: nat, step: nat, calls: seq<Call>, selected: set<string>, strict: bool)
    returns (r: Result<seq<Call>, ScheduleError>, ok: bool)
    requires session.Valid()
    modifies session
    ensures session.Valid() && (r.Ok? <==> Acceptable(calls, selected))
    ensures r.Ok? ==> ok && r.value == calls && session.events == old(session.events)
  {
    ok := true;
    r := NewSchedule(calls, selected);
    if r.Err? {
      return;
    }
    ChunksRoundTrip(calls);
    EncodingsAgree(calls);
    var decoded;
    if strict {
      var events := InferenceEvents(r.value);
      EventsAreCalls(calls);
      ok, decoded := AbsorbEvents(session, turn, step, events);
    } else {
      var chunks := StreamChunks(r.value);
      ok, decoded := AbsorbChunks(session, turn, step, chunks);
    }
    r := Ok(decoded);
  }
}
