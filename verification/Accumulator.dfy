/** The stream accumulator: provider chunks become logged text, one assistant
    message and grouped tool calls. Code Mode schedules are encoded as the same
    chunks, and the accumulator gives them back. */
module Accumulators {
  import opened SessionEvents
  import opened Sessions
  import opened Decimals
  import I = InboxProjection

  datatype FinishReason = FinishStop | FinishToolCalls | FinishLength | FinishPause

  datatype StreamChunk =
    | TextDelta(text: string)
    | ReasoningDelta(text: string)
    | ToolCallDelta(index: nat, id: Option<string>, name: Option<string>, arguments: string)
    | Usage(usage: nat)
    | Finish(reason: FinishReason)

  datatype Slot = Slot(index: nat, id: Option<string>, name: Option<string>, arguments: string)

  const MAX_CALL_INDEX: nat := 0xffff

  /** What a strict adapter streams. Validation of provider payloads is part of
      the event: an invalid one carries `valid == false`. */
  datatype InferenceEvent =
    | TextEvent(text: string)
    | ReasoningEvent(text: string)
    | CallEvent(outputIndex: nat, id: Option<string>, name: Option<string>, arguments: string)
    | StateEvent(valid: bool, onRoute: bool)
    | MetadataEvent(valid: bool, cached: Option<nat>)
    | ServerCallEvent(valid: bool)
    | ServerDetailEvent(valid: bool)
    | UsageEvent(usage: nat)
    | FinishEvent(reason: FinishReason)
    | Marker

  /** Adapter facts held back until the terminal finish commits them together. */
  datatype Pending = PendingState | PendingMetadata(cached: Option<nat>) | PendingServerCall | PendingDetail

  /** The chunk an adapter event stands for, if it stands for one. */
  function ChunksFor(event: InferenceEvent): seq<StreamChunk> {
    match event
    case TextEvent(text) => [TextDelta(text)]
    case ReasoningEvent(text) => [ReasoningDelta(text)]
    case CallEvent(index, id, name, arguments) => [ToolCallDelta(index, id, name, arguments)]
    case UsageEvent(usage) => [Usage(usage)]
    case FinishEvent(reason) => [Finish(reason)]
    case _ => []
  }

  /** What is held back after an adapter event was absorbed. */
  function HeldAfter(held: seq<Pending>, event: InferenceEvent): seq<Pending> {
    match event
    case StateEvent(_, _) => held + [PendingState]
    case MetadataEvent(_, cached) => held + [PendingMetadata(cached)]
    case ServerCallEvent(_) => held + [PendingServerCall]
    case ServerDetailEvent(_) => held + [PendingDetail]
    case FinishEvent(_) => []
    case _ => held
  }

  /** Held-back metadata needs the normalized usage, and may not disagree with it. */
  predicate Agreeing(held: seq<Pending>, usage: Option<nat>) {
    forall m :: m in held && m.PendingMetadata? ==> usage.Some? && (m.cached.Some? ==> m.cached == usage)
  }

  function PendingKind(pending: Pending, turn: nat, step: nat): Kind {
    match pending
    case PendingState => ProviderItem(turn, step)
    case PendingServerCall => ServerToolCall(turn, step)
    case _ => Other
  }

  /** What a stream may log inside its open step. */
  predicate StepContent(kind: Kind, turn: nat, step: nat) {
    || kind.Other?
    || ((kind.AssistantChunk? || kind.ProviderItem? || kind.ServerToolCall?) && kind.turn == turn && kind.step == step)
  }

  // ---- what a chunk sequence means ----

  function TextOf(chunks: seq<StreamChunk>): string {
    if chunks == [] then ""
    else
      var last := chunks[|chunks| - 1];
      TextOf(chunks[..|chunks| - 1]) + (if last.TextDelta? then last.text else "")
  }

  function ReasoningOf(chunks: seq<StreamChunk>): string {
    if chunks == [] then ""
    else
      var last := chunks[|chunks| - 1];
      ReasoningOf(chunks[..|chunks| - 1]) + (if last.ReasoningDelta? then last.text else "")
  }

  function FinishOf(chunks: seq<StreamChunk>): Option<FinishReason> {
    if chunks == [] then None
    else
      var last := chunks[|chunks| - 1];
      if last.Finish? then Some(last.reason) else FinishOf(chunks[..|chunks| - 1])
  }

  /** The call indices, in the order of their first appearance. */
  function Indices(chunks: seq<StreamChunk>): seq<nat> {
    if chunks == [] then []
    else
      var before := Indices(chunks[..|chunks| - 1]);
      var last := chunks[|chunks| - 1];
      if last.ToolCallDelta? && last.index !in before then before + [last.index] else before
  }

  function FirstId(chunks: seq<StreamChunk>, index: nat): Option<string> {
    if chunks == [] then None
    else if chunks[0].ToolCallDelta? && chunks[0].index == index && chunks[0].id.Some? then chunks[0].id
    else FirstId(chunks[1..], index)
  }

  function FirstName(chunks: seq<StreamChunk>, index: nat): Option<string> {
    if chunks == [] then None
    else if chunks[0].ToolCallDelta? && chunks[0].index == index && chunks[0].name.Some? then chunks[0].name
    else FirstName(chunks[1..], index)
  }

  function ArgumentsOf(chunks: seq<StreamChunk>, index: nat): string {
    if chunks == [] then ""
    else
      (if chunks[0].ToolCallDelta? && chunks[0].index == index then chunks[0].arguments else "")
      + ArgumentsOf(chunks[1..], index)
  }

  function SlotOf(chunks: seq<StreamChunk>, index: nat): Slot {
    Slot(index, FirstId(chunks, index), FirstName(chunks, index), ArgumentsOf(chunks, index))
  }

  function SlotsOf(chunks: seq<StreamChunk>): seq<Slot> {
    var indices := Indices(chunks);
    seq(|indices|, i requires 0 <= i < |indices| => SlotOf(chunks, indices[i]))
  }

  function CallOf(slot: Slot): LoggedCall {
    LoggedCall(
      if slot.id.Some? then slot.id.value else "call_" + Render(slot.index),
      if slot.name.Some? then slot.name.value else "",
      slot.arguments)
  }

  /** The tool calls of a chunk sequence: grouped by index, in order of first
      appearance, first given id and name, all arguments concatenated. */
  function CallsOf(chunks: seq<StreamChunk>): seq<LoggedCall> {
    var slots := SlotsOf(chunks);
    seq(|slots|, i requires 0 <= i < |slots| => CallOf(slots[i]))
  }

  // ---- one more chunk ----

  lemma TextAppend(chunks: seq<StreamChunk>, chunk: StreamChunk)
    ensures TextOf(chunks + [chunk]) == TextOf(chunks) + (if chunk.TextDelta? then chunk.text else "")
    ensures FinishOf(chunks + [chunk]) == if chunk.Finish? then Some(chunk.reason) else FinishOf(chunks)
    ensures ReasoningOf(chunks + [chunk]) == ReasoningOf(chunks) + (if chunk.ReasoningDelta? then chunk.text else "")
  {
    assert (chunks + [chunk])[..|chunks|] == chunks;
  }

  lemma IndicesAppend(chunks: seq<StreamChunk>, chunk: StreamChunk)
    ensures Indices(chunks + [chunk]) ==
            if chunk.ToolCallDelta? && chunk.index !in Indices(chunks) then Indices(chunks) + [chunk.index]
              else Indices(chunks)
  {
    assert (chunks + [chunk])[..|chunks|] == chunks;
  }

  lemma {:induction false} IndicesDistinct(chunks: seq<StreamChunk>)
    ensures forall i, j :: 0 <= i < j < |Indices(chunks)| ==> Indices(chunks)[i] != Indices(chunks)[j]
    ensures forall c :: c in chunks && c.ToolCallDelta? ==> c.index in Indices(chunks)
    decreases |chunks|
  {
    if chunks != [] {
      IndicesDistinct(chunks[..|chunks| - 1]);
      assert forall c :: c in chunks ==> c in chunks[..|chunks| - 1] || c == chunks[|chunks| - 1];
    }
  }

  lemma {:induction false} SlotAppend(chunks: seq<StreamChunk>, chunk: StreamChunk, index: nat)
    ensures var before, after := SlotOf(chunks, index), SlotOf(chunks + [chunk], index);
            if chunk.ToolCallDelta? && chunk.index == index
            then after == Slot(index, if before.id.Some? then before.id else chunk.id,
                               if before.name.Some? then before.name else chunk.name,
                               before.arguments + chunk.arguments)
            else after == before
    decreases |chunks|
  {
    var all := chunks + [chunk];
    if chunks == [] {
      assert all[1..] == [];
    } else {
      assert all[1..] == chunks[1..] + [chunk];
      SlotAppend(chunks[1..], chunk, index);
    }
  }

  /** An index that has not appeared yet has an empty slot. */
  lemma {:induction false} SlotAbsent(chunks: seq<StreamChunk>, index: nat)
    requires forall c :: c in chunks && c.ToolCallDelta? ==> c.index != index
    ensures SlotOf(chunks, index) == Slot(index, None, None, "")
    decreases |chunks|
  {
    if chunks != [] {
      assert chunks[0] in chunks && forall c :: c in chunks[1..] ==> c in chunks;
      SlotAbsent(chunks[1..], index);
    }
  }

  // ---- the logged text of one step ----

  function LoggedText(events: seq<Event>, turn: nat, step: nat): string {
    if events == [] then ""
    else
      var kind := events[|events| - 1].kind;
      LoggedText(events[..|events| - 1], turn, step)
      + (if kind.AssistantChunk? && kind.turn == turn && kind.step == step && kind.content.Some? then kind.content.value
        else "")
  }

  lemma LoggedTextAppend(events: seq<Event>, event: Event, turn: nat, step: nat)
    ensures LoggedText(events + [event], turn, step) == LoggedText(events, turn, step)
            + (if event.kind.AssistantChunk? && event.kind.turn == turn && event.kind.step == step
              && event.kind.content.Some?
               then event.kind.content.value else "")
  {
    assert (events + [event])[..|events|] == events;
  }

  class AccumulatedTurn {
    var content: string
    var reasoning: string
    var calls: seq<Slot>
    var order: seq<nat>
    var finish: Option<FinishReason>
    var usage: Option<nat>
    var finished: bool
    var pending: seq<Pending>
    var providerStateSeen: bool
    var metadataSeen: bool
    ghost var absorbed: seq<StreamChunk>

    ghost predicate Valid()
      reads this
    {
      && content == TextOf(absorbed) && reasoning == ReasoningOf(absorbed)
      && order == Indices(absorbed) && calls == SlotsOf(absorbed)
      && finish == FinishOf(absorbed) && finished == finish.Some?
    }

    constructor ()
      ensures Valid() && absorbed == [] && !finished && finish == None && pending == [] && !providerStateSeen
    {
      pending, providerStateSeen, metadataSeen := [], false, false;
      content, reasoning, calls, order, finish, usage, finished, absorbed := "", "", [], [], None, None, false, [];
    }

    /** Take one chunk in. Text is logged as it arrives; a refused append leaves
        text in the accumulator that the log does not have. */
    method Absorb(session: Session, turn: nat, step: nat, chunk: StreamChunk) returns (ok: bool)
      requires Valid() && session.Valid()
      modifies this, session
      ensures Valid() && session.Valid() && session.durable == old(session.durable)
      ensures old(session.clock) <= session.clock
      ensures absorbed == old(absorbed) + [chunk] && pending == old(pending)
      ensures usage == if chunk.Usage? then Some(chunk.usage) else old(usage)
      ensures session.writes == old(session.writes) + (if chunk.TextDelta? || chunk.ReasoningDelta? then 1 else 0)
      ensures ok <==> Accepted(session, old(session.writes))
      ensures providerStateSeen == old(providerStateSeen) && metadataSeen == old(metadataSeen)
      ensures finished == (old(finished) || chunk.Finish?)
      ensures finish == if chunk.Finish? then Some(chunk.reason) else old(finish)
      ensures session.events == old(session.events) || session.events == old(session.events)
                + [Event(|old(session.events)|, session.clock, ChunkEvent(turn, step, chunk))]
      ensures !(chunk.TextDelta? || chunk.ReasoningDelta?) ==> ok && session.events == old(session.events)
      ensures ok && (chunk.TextDelta? || chunk.ReasoningDelta?) ==> session.events != old(session.events)
      ensures ok ==>
                (old(content) == old(LoggedText(session.events, turn, step)) ==>
                  content == LoggedText(session.events, turn, step))
    {
      hide SlotsOf, Indices, TextOf, ReasoningOf, FinishOf, LoggedText, I.Apply, I.Project, I.Admissible, WellFormed;
      ok := true;
      I.AdmissionKeeps(session.inbox, ChunkEvent(turn, step, chunk));
      ghost var events := session.events;
      ghost var before := absorbed;
      TextAppend(before, chunk);
      absorbed := absorbed + [chunk];
      match chunk
      case TextDelta(text) =>
        SlotsKept(before, chunk);
        content := content + text;
        ok := session.Append(ChunkEvent(turn, step, chunk));
        LoggedTextAppend(events, Event(|events|, session.clock, ChunkEvent(turn, step, chunk)), turn, step);
      case ReasoningDelta(text) =>
        SlotsKept(before, chunk);
        reasoning := reasoning + text;
        ok := session.Append(ChunkEvent(turn, step, chunk));
        LoggedTextAppend(events, Event(|events|, session.clock, ChunkEvent(turn, step, chunk)), turn, step);
      case ToolCallDelta(index, id, name, arguments) =>
        Group(before, chunk);
      case Usage(tokens) =>
        SlotsKept(before, chunk);
        usage := Some(tokens);
      case Finish(reason) =>
        SlotsKept(before, chunk);
        finish, finished := Some(reason), true;
    }

    /** Put one call delta into the slot of its index. */
    method Group(ghost before: seq<StreamChunk>, chunk: StreamChunk)
      requires chunk.ToolCallDelta?
      requires order == Indices(before) && calls == SlotsOf(before)
      modifies this`calls, this`order
      ensures order == Indices(before + [chunk]) && calls == SlotsOf(before + [chunk])
    {
      IndicesDistinct(before);
      IndicesAppend(before, chunk);
      hide Indices, FirstId, FirstName, ArgumentsOf;
      var position := 0;
      while position < |calls| && calls[position].index != chunk.index
        invariant 0 <= position <= |calls|
        invariant forall i :: 0 <= i < position ==> calls[i].index != chunk.index
      {
        position := position + 1;
      }
      if position == |calls| {
        assert chunk.index !in Indices(before) by {
          assert forall i :: 0 <= i < |order| ==> order[i] == calls[i].index;
        }
        SlotAbsent(before, chunk.index);
        order := order + [chunk.index];
        calls := calls + [Slot(chunk.index, None, None, "")];
      }
      var slot := calls[position];
      calls := calls[position := Slot(
        slot.index,
        if slot.id.Some? then slot.id else chunk.id,
        if slot.name.Some? then slot.name else chunk.name,
        slot.arguments + chunk.arguments)];
      forall i | 0 <= i < |calls| ensures calls[i] == SlotOf(before + [chunk], order[i]) {
        SlotAppend(before, chunk, order[i]);
      }
      assert calls == SlotsOf(before + [chunk]);
    }

    /** Commit the held-back facts, all checked before the first is appended. */
    method CommitPending(session: Session, turn: nat, step: nat, projects: bool) returns (ok: bool)
      requires Valid() && session.Valid()
      modifies this`pending, session
      ensures Valid() && session.Valid() && session.durable == old(session.durable)
      ensures old(session.clock) <= session.clock
      ensures pending == [] && old(session.events) <= session.events
      ensures forall i :: |old(session.events)| <= i < |session.events| ==>
                i - |old(session.events)| < |old(pending)|
                && session.events[i].kind == PendingKind(old(pending)[i - |old(session.events)|], turn, step)
      ensures LoggedText(session.events, turn, step) == old(LoggedText(session.events, turn, step))
      ensures ok ==> |session.events| == |old(session.events)| + |old(pending)|
      ensures !projects || !Agreeing(old(pending), usage) ==>
                session.events == old(session.events) && session.writes == old(session.writes)
      ensures old(session.writes) <= session.writes <= old(session.writes) + |old(pending)|
      ensures ok <==> projects && Agreeing(old(pending), usage) && Accepted(session, old(session.writes))
    {
      hide LoggedText, I.Apply, I.Project, I.Admissible, WellFormed, SlotsOf, Indices, TextOf, ReasoningOf, FinishOf;
      var held := pending;
      pending := [];
      var n := |session.events|;
      var i := 0;
      while i < |held|
        invariant 0 <= i <= |held|
        invariant Agreeing(held[..i], usage)
      {
        if held[i].PendingMetadata? && (usage.None? || (held[i].cached.Some? && held[i].cached != usage)) {
          assert held[i] in held;
          return false;
        }
        assert held[..i + 1] == held[..i] + [held[i]];
        i := i + 1;
      }
      assert held[..i] == held;
      if !projects {
        return false;
      }
      for k := 0 to |held|
        invariant session.Valid() && session.durable == old(session.durable) && old(session.clock) <= session.clock
        invariant session.writes == old(session.writes) + k && Accepted(session, old(session.writes))
        invariant pending == [] && |session.events| == n + k && old(session.events) <= session.events
        invariant forall i :: n <= i < n + k ==> session.events[i].kind == PendingKind(held[i - n], turn, step)
        invariant LoggedText(session.events, turn, step) == old(LoggedText(session.events, turn, step))
      {
        ghost var events := session.events;
        I.AdmissionKeeps(session.inbox, PendingKind(held[k], turn, step));
        ok := session.Append(PendingKind(held[k], turn, step));
        if !ok {
          return;
        }
        LoggedTextAppend(events, session.events[n + k], turn, step);
      }
      ok := true;
    }

    /** What a strict adapter may send now. */
    predicate Permits(event: InferenceEvent, projects: bool)
      reads this
    {
      match event
      case CallEvent(index, _, _, _) => index <= MAX_CALL_INDEX
      case StateEvent(valid, onRoute) => valid && onRoute
      case MetadataEvent(valid, _) => valid && !metadataSeen
      case ServerCallEvent(valid) => valid
      case ServerDetailEvent(valid) => valid
      case FinishEvent(_) => projects && Agreeing(pending, usage)
      case _ => true
    }

    method AbsorbInference(session: Session, turn: nat, step: nat, event: InferenceEvent, projects: bool)
      returns (ok: bool)
      requires Valid() && session.Valid()
      modifies this, session
      ensures Valid() && session.Valid() && session.durable == old(session.durable)
      ensures old(session.clock) <= session.clock
      ensures old(session.events) <= session.events
      ensures forall i :: |old(session.events)| <= i < |session.events| ==>
                StepContent(session.events[i].kind, turn, step)
      ensures absorbed == old(absorbed) || absorbed == old(absorbed) + ChunksFor(event)
      ensures ok ==> absorbed == old(absorbed) + ChunksFor(event)
      ensures old(session.writes) <= session.writes
      ensures ok <==> old(Permits(event, projects)) && Accepted(session, old(session.writes))
      ensures ok ==> pending == HeldAfter(old(pending), event)
      ensures event.CallEvent? || event.Marker? ==>
                session.events == old(session.events) && session.writes == old(session.writes)
      ensures event.FinishEvent? && old(pending) == [] ==>
                session.events == old(session.events) && session.writes == old(session.writes)
      ensures providerStateSeen == (old(providerStateSeen) || (event.StateEvent? && event.valid && event.onRoute))
      ensures ok && event.FinishEvent? ==> pending == [] && finished && finish == Some(event.reason)
      ensures !event.FinishEvent? ==> finished == old(finished) && finish == old(finish)
      ensures ok ==>
                (old(content) == old(LoggedText(session.events, turn, step)) ==>
                  content == LoggedText(session.events, turn, step))
    {
      hide LoggedText, I.Apply, I.Project, I.Admissible, WellFormed, SlotsOf, Indices, TextOf, ReasoningOf, FinishOf;
      match event {
        case TextEvent(text) => ok := Absorb(session, turn, step, TextDelta(text));
        case ReasoningEvent(text) => ok := Absorb(session, turn, step, ReasoningDelta(text));
        case CallEvent(index, id, name, arguments) =>
          if index > MAX_CALL_INDEX {
            return false;
          }
          ok := Absorb(session, turn, step, ToolCallDelta(index, id, name, arguments));
        case StateEvent(valid, onRoute) =>
          if !valid || !onRoute {
            return false;
          }
          providerStateSeen, pending, ok := true, pending + [PendingState], true;
        case MetadataEvent(valid, cached) =>
          if !valid || metadataSeen {
            return false;
          }
          metadataSeen, pending, ok := true, pending + [PendingMetadata(cached)], true;
        case ServerCallEvent(valid) =>
          if !valid {
            return false;
          }
          pending, ok := pending + [PendingServerCall], true;
        case ServerDetailEvent(valid) =>
          if !valid {
            return false;
          }
          pending, ok := pending + [PendingDetail], true;
        case UsageEvent(tokens) => ok := Absorb(session, turn, step, Usage(tokens));
        case FinishEvent(reason) =>
          ok := CommitPending(session, turn, step, projects);
          assert old(pending) == [] ==> |session.events| == |old(session.events)|;
          if ok {
            ok := Absorb(session, turn, step, Finish(reason));
          }
        case Marker => ok := true;
      }
    }

    /** The calls in the form the log and the tool batch take. */
    method ToToolCalls() returns (r: seq<LoggedCall>)
      requires Valid()
      ensures r == CallsOf(absorbed)
    {
      IndicesDistinct(absorbed);
      r := [];
      for i := 0 to |order|
        invariant |r| == i && forall j :: 0 <= j < i ==> r[j] == CallOf(SlotsOf(absorbed)[j])
      {
        var position := 0;
        while position < |calls| && calls[position].index != order[i]
          invariant 0 <= position <= i
        {
          position := position + 1;
        }
        if position < |calls| {
          r := r + [CallOf(calls[position])];
        }
      }
    }
  }

  function ChunkEvent(turn: nat, step: nat, chunk: StreamChunk): Kind {
    AssistantChunk(turn, step,
                   if chunk.TextDelta? then Some(chunk.text) else None,
                   if chunk.ReasoningDelta? then Some(chunk.text) else None)
  }

  lemma SlotsKept(chunks: seq<StreamChunk>, chunk: StreamChunk)
    requires !chunk.ToolCallDelta?
    ensures Indices(chunks + [chunk]) == Indices(chunks) && SlotsOf(chunks + [chunk]) == SlotsOf(chunks)
  {
    IndicesAppend(chunks, chunk);
    var indices := Indices(chunks);
    forall i | 0 <= i < |indices| ensures SlotOf(chunks + [chunk], indices[i]) == SlotOf(chunks, indices[i]) {
      SlotAppend(chunks, chunk, indices[i]);
    }
  }
}
