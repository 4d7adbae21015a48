/** The turn loop: whatever a provider, its tools and the log do, each turn leaves
    a bracketed log, unless the last write it asks for or a record is refused. */
module Turns {
  import opened SessionEvents
  import opened Sessions
  import opened Accumulators
  import opened TurnBrackets
  import I = InboxProjection

  // ---- fallback ----

  datatype ErrorClass =
    | RateLimited
    | Overloaded
    | Server
    | Network
    | Timeout
    | Authentication
    | Protocol
    | InvalidRequest

  datatype Origin = Http | ProviderEvent | Transport | Local

  datatype Failure = Failure(provider: bool, retryAdvice: Option<bool>, errorClass: ErrorClass, origin: Origin)

  predicate MayFallback(failure: Failure, outputSeen: bool, toolsDispatched: bool) {
    && failure.provider && !outputSeen && !toolsDispatched && failure.retryAdvice != Some(false)
    && failure.errorClass in {RateLimited, Overloaded, Server}
    && failure.origin in {Http, ProviderEvent}
  }

  /** The provider is at its limits for now, says so itself, and does not advise
      against a retry. */
  predicate Transient(failure: Failure) {
    && failure.provider
    && (failure.errorClass == RateLimited || failure.errorClass == Overloaded || failure.errorClass == Server)
    && (failure.origin == Http || failure.origin == ProviderEvent)
    && (failure.retryAdvice.Some? ==> failure.retryAdvice.value)
  }

  /** Another provider would not help, or may not be asked. */
  predicate Terminal(failure: Failure) {
    || !failure.provider || (failure.retryAdvice.Some? && !failure.retryAdvice.value)
    || failure.errorClass in {Network, Timeout, Authentication, Protocol, InvalidRequest}
    || failure.origin == Transport || failure.origin == Local
  }

  lemma Classified(failure: Failure)
    ensures Terminal(failure) <==> !Transient(failure)
    ensures MayFallback(failure, false, false) <==> Transient(failure)
    ensures forall seen, tools :: MayFallback(failure, seen, tools) ==> Transient(failure) && !seen && !tools
  {
    if failure.retryAdvice.Some? {
      assert failure.retryAdvice == Some(failure.retryAdvice.value);
    }
  }

  // ---- what one step meets ----

  /** How the request of a step was prepared. `Escaped` is a failed clock reading,
      output-limit conversion or task-record update, which the loop propagates. */
  datatype Preparation = Ready(adapter: bool, replaySafe: bool) | Skipped | Refused | Escapes

  datatype Item =
    | Legacy(chunk: StreamChunk)
    | Adapter(event: InferenceEvent, projects: bool)
    | Intercepted
    | Withdrawn

  datatype Ending = EndOfStream | ProviderFailed(failure: Failure) | LocalFailure | Interrupted

  datatype Handler = NoHandler | Applies | Declines

  datatype StepPlan = StepPlan(
    stop: Option<TurnEndReason>,
    preparation: Preparation,
    items: seq<Item>,
    ending: Ending,
    canceled: bool,
    handler: Handler,
    usageRecorded: bool,
    redrained: Option<bool>,
    tools: seq<bool>,
    toolsFail: bool)

  /** The chunks that stream items stand for. */
  function Delivered(items: seq<Item>): seq<StreamChunk> {
    if items == [] then []
    else
      Delivered(items[..|items| - 1])
      + match items[|items| - 1] {
          case Legacy(chunk) => [chunk]
          case Adapter(event, _) => ChunksFor(event)
          case _ => []
        }
  }

  lemma DeliveredNext(items: seq<Item>, n: nat)
    requires n < |items|
    ensures Delivered(items[..n + 1]) == Delivered(items[..n])
            + match items[n] {
                case Legacy(chunk) => [chunk]
                case Adapter(event, _) => ChunksFor(event)
                case _ => []
              }
  {
    assert items[..n + 1][..n] == items[..n];
  }

  /** An item that the accumulator takes whatever came before it, if the store
      accepts its text: nothing intercepted, and no facts held back. */
  predicate Plain(item: Item) {
    match item
    case Legacy(_) => true
    case Adapter(event, projects) =>
      match event {
        case TextEvent(_) => true
        case ReasoningEvent(_) => true
        case UsageEvent(_) => true
        case Marker => true
        case CallEvent(index, _, _, _) => index <= MAX_CALL_INDEX
        case FinishEvent(_) => projects
        case _ => false
      }
    case _ => false
  }

  /** A step in which nothing goes wrong but, perhaps, a write. */
  predicate Smooth(plan: StepPlan) {
    && plan.stop.None? && plan.preparation.Ready? && !plan.canceled && plan.ending.EndOfStream?
    && (forall item :: item in plan.items ==> Plain(item))
    && (plan.preparation.adapter ==> FinishOf(Delivered(plan.items)).Some?)
    && FinishOf(Delivered(plan.items)) != Some(FinishPause)
    && plan.usageRecorded && plan.redrained.Some? && !plan.toolsFail
  }

  /** The step asked for tools, or input arrived before the turn could settle. */
  predicate Owes(plan: StepPlan) {
    CallsOf(Delivered(plan.items)) != [] || plan.redrained == Some(true)
  }

  /** The step logged one message: the text and the calls of its whole stream. */
  ghost predicate SaidAll(events: seq<Event>, turn: nat, step: nat, items: seq<Item>) {
    exists n :: 0 <= n < |events|
      && events[n].kind == AssistantMessage(turn, step, TextOf(Delivered(items)), CallsOf(Delivered(items)))
  }

  datatype Site =
    | StartRefused
    | Preparing
    | Fallback
    | Aborting
    | AbortUsage
    | Settling
    | SettledUsage
    | Closing
    | FailureClosing

  datatype Outcome =
    | Settled(reason: TurnEndReason)
    | AbortedTurn
    | Failed(reason: TurnEndReason)
    | Escaped(site: Site)
    | Unfinished

  /** The early returns that leave the turn open in the log. */
  predicate LeavesOpen(outcome: Outcome) {
    outcome.Unfinished? || (outcome.Escaped? && outcome.site !in {StartRefused, AbortUsage})
  }

  /** What an escape leaves of its turn: which of the closing appends are missing. */
  predicate Remains(outcome: Outcome, turn: nat, shape: Shape) {
    match outcome
    case Escaped(Preparing) => shape.open == Some(turn) && shape.inStep && !shape.spoke && !shape.heard
    case Escaped(Fallback) => shape.open == Some(turn) && shape.inStep && !shape.spoke && !shape.heard
    case Escaped(Settling) => shape.open == Some(turn) && shape.inStep
    case Escaped(SettledUsage) => shape.open == Some(turn) && !shape.inStep && shape.spoke
    case Escaped(Closing) => shape.open == Some(turn) && !shape.inStep && shape.spoke
    case Escaped(AbortUsage) => shape.open.None? && shape.spoke
    case Escaped(_) => true
    case Settled(_) => shape.open.None? && shape.spoke
    case AbortedTurn => shape.open.None? && shape.spoke
    case _ => true
  }

  /** Whether the step's own environment leaves the loop no early return. */
  predicate Steady(plan: StepPlan) {
    !plan.preparation.Escapes? && plan.usageRecorded
  }

  /** The last write that the run asked for was accepted. */
  ghost predicate LastAccepted(session: Session, from: nat)
    reads session
  {
    from < session.writes && session.store(session.writes - 1)
  }

  ghost predicate LastRefused(session: Session, from: nat)
    reads session
  {
    from < session.writes && !session.store(session.writes - 1)
  }

  /** Why a turn is over: it escapes exactly where a closing append is refused, its
      preparation escapes, or its usage is not recorded. */
  ghost predicate Blamed(session: Session, from: nat, plan: StepPlan, outcome: Outcome)
    reads session
  {
    match outcome
    case Escaped(Preparing) => plan.stop.None? && plan.preparation.Escapes?
    case Escaped(AbortUsage) => !plan.usageRecorded && LastAccepted(session, from)
    case Escaped(SettledUsage) => !plan.usageRecorded && LastAccepted(session, from)
    case Escaped(_) => LastRefused(session, from)
    case Failed(_) => LastAccepted(session, from)
    case Unfinished => true
    case _ => plan.usageRecorded && LastAccepted(session, from)
  }

  datatype Flow = Again(fellBack: bool) | Done(outcome: Outcome)

  /** The log is bracketed up to a shape, and says what it heard. */
  ghost predicate Track(session: Session, shape: Shape)
    reads session
  {
    session.Valid() && ShapeOf(session.events) == Some(shape) && Faithful(session.events)
  }

  /** The log was only appended to. */
  ghost predicate Grown(session: Session, events: seq<Event>, writes: nat)
    reads session
  {
    events <= session.events && writes <= session.writes
  }

  predicate EndsWith(events: seq<Event>, kind: Kind) {
    events != [] && events[|events| - 1].kind == kind
  }

  /** The log closes the turn with the reason the caller is told. */
  predicate ClosedAs(events: seq<Event>, turn: nat, outcome: Outcome) {
    match outcome
    case Settled(reason) => EndsWith(events, TurnEnd(turn, reason)) && (reason.Stop? || reason.MaxTokens?)
    case AbortedTurn => EndsWith(events, TurnEnd(turn, Aborted))
    case Failed(reason) => EndsWith(events, TurnEnd(turn, reason))
    case _ => true
  }

  method AppendTo(session: Session, kind: Kind, ghost shape: Shape) returns (ok: bool)
    requires Track(session, shape) && Next(shape, kind).Some? && !kind.InboxSplice?
    requires kind.AssistantMessage? ==> kind.message == LoggedText(session.events, kind.turn, kind.step)
    modifies session
    ensures Track(session, if ok then Next(shape, kind).value else shape)
    ensures ok == session.store(old(session.writes)) && session.writes == old(session.writes) + 1
    ensures old(session.events) <= session.events && |session.events| == |old(session.events)| + (if ok then 1 else 0)
    ensures ok ==> EndsWith(session.events, kind)
  {
    hide Faithful, ShapeOf, LoggedText, Next, I.Apply, I.Project, WellFormed;
    ghost var events := session.events;
    I.AdmissionKeeps(session.inbox, kind);
    ok := session.Append(kind);
    if ok {
      ShapeAppend(events, session.events[|events|]);
      FaithfulAppend(events, session.events[|events|]);
    }
  }

  /** Other owners of the session: inbox, schedules, goals, compaction. */
  method Others(session: Session, ghost shape: Shape)
    requires Track(session, shape)
    modifies session
    ensures Track(session, shape) && old(session.events) <= session.events && old(session.writes) <= session.writes
    ensures forall turn, step :: LoggedText(session.events, turn, step) == old(LoggedText(session.events, turn, step))
  {
    hide Faithful, ShapeOf, LoggedText, I.Apply, I.Project, WellFormed;
    ghost var events := session.events;
    session.Interleave(kind => Outside(kind));
    OutsideKeeps(events, session.events);
  }

  // ---- closing ----

  /** Close every scope that the failed stage left open. */
  method FailRequest(session: Session, turn: nat, step: nat, openStep: bool, reason: TurnEndReason, ghost shape: Shape)
    returns (outcome: Outcome, ghost after: Shape)
    requires Track(session, shape) && shape.open == Some(turn)
    requires (if openStep then InStep(shape, turn, step) else !shape.inStep)
    modifies session
    ensures Track(session, after) && after.last == shape.last && old(session.events) <= session.events
    ensures after.left == shape.left && after.step == shape.step && old(session.writes) <= session.writes
    ensures outcome == Failed(reason) || outcome == Escaped(FailureClosing)
    ensures after.open.Some? <==> outcome.Escaped?
    ensures if outcome.Escaped? then LastRefused(session, old(session.writes))
            else LastAccepted(session, old(session.writes))
    ensures ClosedAs(session.events, turn, outcome)
  {
    hide Track, Faithful, ShapeOf;
    after := shape;
    Others(session, after);
    if openStep {
      var ok := AppendTo(session, StepEnd(turn, step), after);
      if !ok {
        return Escaped(FailureClosing), after;
      }
      after := Next(after, StepEnd(turn, step)).value;
    }
    var ok := AppendTo(session, TurnEnd(turn, reason), after);
    if !ok {
      return Escaped(FailureClosing), after;
    }
    after := Next(after, TurnEnd(turn, reason)).value;
    outcome := Failed(reason);
  }

  // ---- the stream ----

  datatype StreamEnd = StreamEnd(failure: Option<Failure>, broken: bool, canceled: bool, outputSeen: bool)

  ghost predicate Streaming(session: Session, turn: nat, step: nat, acc: AccumulatedTurn, shape: Shape)
    reads session, acc
  {
    && Track(session, shape) && InStep(shape, turn, step) && !shape.spoke && acc.Valid()
  }

  method AbsorbItem(session: Session, turn: nat, step: nat, acc: AccumulatedTurn, item: Item, ghost shape: Shape)
    returns (ok: bool, ghost after: Shape)
    requires Streaming(session, turn, step, acc, shape)
    requires acc.content == LoggedText(session.events, turn, step)
    modifies session, acc
    ensures Streaming(session, turn, step, acc, after) && SameStep(shape, after)
    ensures Grown(session, old(session.events), old(session.writes))
    ensures ok ==> acc.content == LoggedText(session.events, turn, step)
    ensures ok ==> acc.absorbed == old(acc.absorbed)
                   + match item {
                       case Legacy(chunk) => [chunk]
                       case Adapter(event, _) => ChunksFor(event)
                       case _ => []
                     }
    ensures Plain(item) && old(acc.pending) == [] && Accepted(session, old(session.writes)) ==> ok && acc.pending == []
    ensures item.Intercepted? || item.Withdrawn? ==> !ok
  {
    hide Faithful, ShapeOf, LoggedText, I.Apply, I.Project, WellFormed, TextOf, ReasoningOf, FinishOf, SlotsOf, Indices;
    ghost var events := session.events;
    match item {
      case Legacy(chunk) =>
        ok := acc.Absorb(session, turn, step, chunk);
      case Adapter(event, projects) =>
        ok := acc.AbsorbInference(session, turn, step, event, projects);
      case _ =>
        ok := false;
    }
    StreamKeeps(events, session.events, turn, step);
    after := ShapeOf(session.events).value;
  }

  /** Take in what the stream delivers, until it ends, fails or is cancelled. */
  method Drive(session: Session, turn: nat, step: nat, plan: StepPlan, acc: AccumulatedTurn, ghost shape: Shape)
    returns (end: StreamEnd, ghost after: Shape)
    requires plan.preparation.Ready? && Streaming(session, turn, step, acc, shape) && acc.absorbed == []
    requires acc.pending == []
    requires acc.content == LoggedText(session.events, turn, step)
    modifies session, acc
    ensures Streaming(session, turn, step, acc, after) && SameStep(shape, after)
    ensures Grown(session, old(session.events), old(session.writes))
    ensures !end.broken ==> acc.content == LoggedText(session.events, turn, step)
    ensures plan.items == [] && plan.ending.ProviderFailed? ==>
              end == StreamEnd(Some(plan.ending.failure), false, false, false)
    ensures !end.outputSeen ==> after == shape && plan.items == []
    ensures !end.broken && (end.canceled ==> Withdrawn !in plan.items) ==> acc.absorbed == Delivered(plan.items)
    ensures Smooth(plan) && Accepted(session, old(session.writes)) ==>
              !end.broken && end.failure.None? && acc.absorbed == Delivered(plan.items)
    ensures end.failure.Some? ==> plan.ending == ProviderFailed(end.failure.value) && !end.broken
    ensures BreaksOff(plan) ==> end.broken && end.failure.None?
  {
    hide Track, Faithful, ShapeOf, LoggedText, Streaming;
    after := shape;
    end := StreamEnd(None, false, false, false);
    for i := 0 to |plan.items|
      invariant Streaming(session, turn, step, acc, after) && SameStep(shape, after)
      invariant Grown(session, old(session.events), old(session.writes))
      invariant acc.content == LoggedText(session.events, turn, step)
      invariant !end.broken && end.failure.None? && !end.canceled && end.outputSeen == (i > 0)
      invariant i == 0 ==> after == shape
      invariant acc.absorbed == Delivered(plan.items[..i])
      invariant Smooth(plan) && Accepted(session, old(session.writes)) ==> acc.pending == []
    {
      WhileStreaming(session, turn, step, acc, after);
      end := end.(outputSeen := true);
      assert plan.items[i] in plan.items;
      DeliveredNext(plan.items, i);
      if plan.items[i].Withdrawn? {
        return end.(canceled := true), after;
      }
      var ok;
      ok, after := AbsorbItem(session, turn, step, acc, plan.items[i], after);
      if !ok {
        return end.(broken := true), after;
      }
    }
    assert plan.items[..|plan.items|] == plan.items;
    FinishKnown(session, turn, step, acc, after);
    match plan.ending {
      case EndOfStream =>
        if plan.preparation.adapter && !acc.finished {
          end := end.(broken := true);
        }
      case ProviderFailed(failure) => end := end.(failure := Some(failure));
      case LocalFailure => end := end.(broken := true);
      case Interrupted => end := end.(canceled := true);
    }
  }

  lemma FinishKnown(session: Session, turn: nat, step: nat, acc: AccumulatedTurn, shape: Shape)
    requires Streaming(session, turn, step, acc, shape)
    ensures acc.finish == FinishOf(acc.absorbed) && acc.finished == acc.finish.Some?
  {
  }

  method WhileStreaming(session: Session, turn: nat, step: nat, acc: AccumulatedTurn, ghost shape: Shape)
    requires Streaming(session, turn, step, acc, shape) && acc.content == LoggedText(session.events, turn, step)
    modifies session
    ensures Streaming(session, turn, step, acc, shape) && acc.content == LoggedText(session.events, turn, step)
    ensures Grown(session, old(session.events), old(session.writes))
  {
    hide Faithful, ShapeOf, LoggedText, TextOf, ReasoningOf, FinishOf, SlotsOf, Indices, I.Project, WellFormed;
    Others(session, shape);
  }

  // ---- one step ----

  /** Between two steps of an open turn. */
  predicate Between(shape: Shape, turn: nat, step: nat, fallbackUsed: bool) {
    && shape.open == Some(turn) && shape.last == turn && !shape.inStep && shape.step == step
    && MayStart(shape) && shape.silent <= (if fallbackUsed then 1 else 0)
  }

  /** What a step that ends the turn leaves. */
  predicate Over(outcome: Outcome, turn: nat, before: Shape, after: Shape) {
    && after.last == turn
    && (after.open.Some? <==> LeavesOpen(outcome))
    && !outcome.Unfinished?
    && outcome != Escaped(StartRefused)
    && Remains(outcome, turn, after) && after.left == before.left
    && (outcome.Settled? || outcome.AbortedTurn? ==> after.silent == before.silent)
  }

  method RunStep(
    session: Session, turn: nat, step: nat, plan: StepPlan, native: nat, fallbackUsed: bool, ghost shape: Shape)
    returns (flow: Flow, continuations: nat, used: bool, ghost after: Shape)
    requires step > 0 && Track(session, shape) && Between(shape, turn, step - 1, fallbackUsed)
    modifies session
    ensures Track(session, after) && Grown(session, old(session.events), old(session.writes))
    ensures after.left == shape.left
    ensures flow.Again? ==> Between(after, turn, step, used) && (fallbackUsed ==> used)
    ensures flow.Again? ==>
              after.silent == shape.silent + (if flow.fellBack then 1 else 0) && after.spoke == !flow.fellBack
    ensures flow.Again? && flow.fellBack ==> FellBack(plan, shape, fallbackUsed) && used && native == 0
    ensures flow.Again? && flow.fellBack ==> WentQuiet(session.events, turn, step)
    ensures flow.Again? && !flow.fellBack ==> Steady(plan)
    ensures (flow == Again(false) || (flow.Done? && flow.outcome.Settled?)) && plan.preparation.Ready?
            && Withdrawn !in plan.items ==>
              SaidAll(session.events, turn, step, plan.items)
    ensures flow == Again(true) ==> FallsBack(plan)
    ensures plan.stop.None? && BreaksOff(plan) ==>
              flow == Done(Failed(Error)) || flow == Done(Escaped(FailureClosing))
    ensures flow == Done(AbortedTurn) ==> CutShort(plan)
    ensures FailsQuietly(plan) && Accepted(session, old(session.writes)) ==>
              flow == if FallsBack(plan) && !fallbackUsed && !shape.tools && native == 0
                      then Again(true) else Done(Failed(Error))
    ensures Smooth(plan) && Accepted(session, old(session.writes)) ==>
              flow == if Owes(plan) then Again(false) else Done(Settled(EndReason(FinishOf(Delivered(plan.items)))))
    ensures native <= continuations <= native + 1
    ensures flow.Done? ==> Over(flow.outcome, turn, shape, after) && ClosedAs(session.events, turn, flow.outcome)
    ensures flow.Done? ==> Blamed(session, old(session.writes), plan, flow.outcome) && step - 1 <= after.step <= step
    ensures flow.Done? && (flow.outcome.Settled? || flow.outcome.AbortedTurn?) ==>
              after.step == step && !plan.preparation.Escapes?
    ensures plan.stop.None? && plan.preparation.Escapes? && Accepted(session, old(session.writes)) ==>
              flow == Done(Escaped(Preparing))
  {
    hide MayFallback, FallsBack, Track, Faithful, ShapeOf, LoggedText;
    continuations, used, after := native, fallbackUsed, shape;
    var outcome;
    if plan.stop.Some? {
      outcome, after := FailRequest(session, turn, step, false, plan.stop.value, after);
      return Done(outcome), continuations, used, after;
    }
    Others(session, after);
    var ok := AppendTo(session, StepStart(turn, step), after);
    if !ok {
      outcome, after := FailRequest(session, turn, step, false, Error, after);
      return Done(outcome), continuations, used, after;
    }
    after := Next(after, StepStart(turn, step)).value;
    Others(session, after);
    if plan.preparation.Escapes? {
      return Done(Escaped(Preparing)), continuations, used, after;
    }
    if plan.preparation.Refused? {
      outcome, after := FailRequest(session, turn, step, true, Error, after);
      return Done(outcome), continuations, used, after;
    }
    flow, continuations, used, after := Respond(session, turn, step, plan, native, fallbackUsed, after);
  }

  /** What a step must have met for the turn to fall back after it. */
  predicate FallbackStep(plan: StepPlan) {
    && plan.items == [] && plan.handler.Applies? && !plan.canceled
    && plan.preparation.Ready? && plan.preparation.replaySafe
    && plan.ending.ProviderFailed? && MayFallback(plan.ending.failure, false, false)
  }

  /** The only way a step may end in silence and the turn go on. */
  predicate FellBack(plan: StepPlan, shape: Shape, fallbackUsed: bool) {
    !fallbackUsed && !shape.tools && FallbackStep(plan)
  }

  /** The provider fails before it says anything. */
  predicate FailsQuietly(plan: StepPlan) {
    plan.stop.None? && plan.preparation.Ready? && plan.items == [] && plan.ending.ProviderFailed?
  }

  predicate FallsBack(plan: StepPlan) {
    && plan.ending.ProviderFailed? && Transient(plan.ending.failure) && plan.preparation.Ready?
    && plan.preparation.replaySafe && !plan.canceled && plan.handler.Applies?
  }

  /** The stream stops for a reason of the agent's own, or an adapter's ends before
      it told why it ends. */
  predicate BreaksOff(plan: StepPlan) {
    && plan.preparation.Ready? && Withdrawn !in plan.items
    && (plan.ending.LocalFailure?
        || (plan.ending.EndOfStream? && plan.preparation.adapter && FinishOf(Delivered(plan.items)).None?))
  }

  /** The turn is cancelled before the stream told why it ends. */
  predicate CutShort(plan: StepPlan) {
    plan.canceled && (plan.preparation.Ready? && Withdrawn !in plan.items ==> FinishOf(Delivered(plan.items)).None?)
  }

  lemma CutShortHere(plan: StepPlan, absorbed: seq<StreamChunk>)
    requires plan.canceled && FinishOf(absorbed).None?
    requires plan.preparation.Ready? && Withdrawn !in plan.items ==> absorbed == Delivered(plan.items)
    ensures CutShort(plan)
  {
  }

  /** Position k ends a step in which nothing was heard, of a turn that had called
      no tool until then. */
  predicate QuietAt(events: seq<Event>, k: int, turn: nat, step: nat) {
    && 0 <= k < |events|
    && events[k].kind == StepEnd(turn, step)
    && StepOutput(events[..k], turn, step) == 0
    && !ToolsLogged(events[..k], turn)
  }

  ghost predicate WentQuiet(events: seq<Event>, turn: nat, step: nat) {
    exists k :: QuietAt(events, k, turn, step)
  }

  /** The step from its dispatch on. */
  method Respond(
    session: Session, turn: nat, step: nat, plan: StepPlan, native: nat, fallbackUsed: bool, ghost shape: Shape)
    returns (flow: Flow, continuations: nat, used: bool, ghost after: Shape)
    requires plan.preparation.Ready? || plan.preparation.Skipped?
    requires Track(session, shape) && InStep(shape, turn, step) && shape.last == turn && !shape.spoke && !shape.heard
    requires shape.silent <= (if fallbackUsed then 1 else 0)
    modifies session
    ensures Track(session, after) && Grown(session, old(session.events), old(session.writes))
    ensures after.left == shape.left
    ensures flow.Again? ==> Between(after, turn, step, used) && (fallbackUsed ==> used)
    ensures flow.Again? ==>
              after.silent == shape.silent + (if flow.fellBack then 1 else 0) && after.spoke == !flow.fellBack
    ensures flow.Again? && flow.fellBack ==> FellBack(plan, shape, fallbackUsed) && used && native == 0
    ensures flow.Again? && flow.fellBack ==> WentQuiet(session.events, turn, step)
    ensures flow.Again? && !flow.fellBack ==> plan.usageRecorded
    ensures (flow == Again(false) || (flow.Done? && flow.outcome.Settled?)) && plan.preparation.Ready?
            && Withdrawn !in plan.items ==>
              SaidAll(session.events, turn, step, plan.items)
    ensures flow == Again(true) ==> FallsBack(plan)
    ensures BreaksOff(plan) ==> flow == Done(Failed(Error)) || flow == Done(Escaped(FailureClosing))
    ensures flow == Done(AbortedTurn) ==> CutShort(plan)
    ensures FailsQuietly(plan) && Accepted(session, old(session.writes)) ==>
              flow == if FallsBack(plan) && !fallbackUsed && !shape.tools && native == 0
                      then Again(true) else Done(Failed(Error))
    ensures Smooth(plan) && Accepted(session, old(session.writes)) ==>
              flow == if Owes(plan) then Again(false) else Done(Settled(EndReason(FinishOf(Delivered(plan.items)))))
    ensures native <= continuations <= native + 1
    ensures flow.Done? ==> Over(flow.outcome, turn, shape, after) && ClosedAs(session.events, turn, flow.outcome)
    ensures flow.Done? ==> Blamed(session, old(session.writes), plan, flow.outcome) && after.step == step
  {
    hide FallsBack, BreaksOff, CutShort, Transient, Terminal, Track, Faithful, ShapeOf, LoggedText, MayFallback,
      TextOf, ReasoningOf, FinishOf, SlotsOf, Indices, Delivered, Owes, EndReason, WentQuiet, CallsOf, Smooth,
      FailsQuietly, FellBack, Blamed, Remains, ClosedAs, LastAccepted, LastRefused, SaidAll,
      AccumulatedTurn.Valid;
    continuations, used := native, fallbackUsed;
    var outcome;
    var acc := new AccumulatedTurn();
    var end;
    end, after := Stream(session, turn, step, plan, acc, shape);
    ghost var from := session.writes;
    if end.failure.Some? {
      flow, used, after := MeetFailure(session, turn, step, plan, native, fallbackUsed, end, after);
    } else if end.broken || (plan.canceled && !acc.finished) {
      outcome, after := CloseEarly(session, turn, step, plan, end, acc, after);
      flow := Done(outcome);
    } else {
      flow, continuations, after := Conclude(session, turn, step, plan, native, acc, after);
    }
    if flow.Done? {
      BlamedEarlier(session, old(session.writes), from, plan, flow.outcome);
    }
  }

  /** A stream that broke, or that is cancelled before it told why it ends. */
  method CloseEarly(
    session: Session, turn: nat, step: nat, plan: StepPlan, end: StreamEnd, acc: AccumulatedTurn, ghost shape: Shape)
    returns (outcome: Outcome, ghost after: Shape)
    requires Streaming(session, turn, step, acc, shape) && shape.last == turn && !shape.spoke
    requires end.broken || (plan.canceled && !acc.finished && acc.content == LoggedText(session.events, turn, step))
    requires !end.broken && plan.preparation.Ready? && Withdrawn !in plan.items ==>
               acc.absorbed == Delivered(plan.items)
    modifies session
    ensures Track(session, after) && Grown(session, old(session.events), old(session.writes))
    ensures Over(outcome, turn, shape, after) && ClosedAs(session.events, turn, outcome) && after.step == step
    ensures Blamed(session, old(session.writes), plan, outcome) && !outcome.Settled?
    ensures end.broken ==> outcome == Failed(Error) || outcome == Escaped(FailureClosing)
    ensures outcome == AbortedTurn ==> CutShort(plan)
  {
    hide Track, Faithful, ShapeOf, LoggedText, CutShort, FinishOf, Delivered, TextOf, Indices, SlotsOf, ReasoningOf;
    FinishKnown(session, turn, step, acc, shape);
    if end.broken {
      outcome, after := FailRequest(session, turn, step, true, Error, shape);
    } else {
      CutShortHere(plan, acc.absorbed);
      outcome, after := Abort(session, turn, step, plan, acc.content, shape);
    }
  }

  /** A stream that was heard to its end. */
  method Conclude(
    session: Session, turn: nat, step: nat, plan: StepPlan, native: nat, acc: AccumulatedTurn, ghost shape: Shape)
    returns (flow: Flow, continuations: nat, ghost after: Shape)
    requires Streaming(session, turn, step, acc, shape) && shape.last == turn && shape.silent <= 1
    requires acc.content == LoggedText(session.events, turn, step) && acc.content == TextOf(acc.absorbed)
    modifies session
    ensures Track(session, after) && Grown(session, old(session.events), old(session.writes))
    ensures after.left == shape.left && flow != Again(true) && flow != Done(AbortedTurn)
    ensures flow.Again? ==>
              Between(after, turn, step, true) && after.silent == shape.silent && after.spoke && plan.usageRecorded
    ensures (flow.Again? || flow.outcome.Settled?) && old(acc.absorbed) == Delivered(plan.items) ==>
              SaidAll(session.events, turn, step, plan.items)
    ensures Smooth(plan) && old(acc.absorbed) == Delivered(plan.items) && Accepted(session, old(session.writes)) ==>
              flow == if Owes(plan) then Again(false) else Done(Settled(EndReason(FinishOf(Delivered(plan.items)))))
    ensures native <= continuations <= native + 1
    ensures flow.Done? ==>
              && Blamed(session, old(session.writes), plan, flow.outcome) && after.step == step
              && Over(flow.outcome, turn, shape, after) && ClosedAs(session.events, turn, flow.outcome)
  {
    hide Track, Faithful, ShapeOf, LoggedText, TextOf, ReasoningOf, FinishOf, SlotsOf, Indices, Delivered, Owes, Smooth,
      EndReason, CallsOf, Between, ClosedAs, Blamed, AccumulatedTurn.Valid;
    flow, continuations, after := Speak(session, turn, step, plan, native, acc, shape);
  }

  lemma BlamedEarlier(session: Session, from: nat, later: nat, plan: StepPlan, outcome: Outcome)
    requires from <= later && Blamed(session, later, plan, outcome)
    ensures Blamed(session, from, plan, outcome)
  {
  }

  /** A provider failure: fall back once, if nothing was heard and nothing ran. */
  method MeetFailure(
    session: Session, turn: nat, step: nat, plan: StepPlan, native: nat, fallbackUsed: bool, end: StreamEnd,
    ghost shape: Shape)
    returns (flow: Flow, used: bool, ghost after: Shape)
    requires plan.preparation.Ready? && end.failure.Some? && plan.ending == ProviderFailed(end.failure.value)
    requires Track(session, shape) && InStep(shape, turn, step) && shape.last == turn && !shape.spoke
    requires !end.outputSeen ==> !shape.heard && plan.items == []
    requires shape.silent <= (if fallbackUsed then 1 else 0)
    modifies session
    ensures Track(session, after) && Grown(session, old(session.events), old(session.writes))
    ensures after.left == shape.left
    ensures flow.Again? ==> flow.fellBack && used && !end.outputSeen && Between(after, turn, step, used)
    ensures flow.Again? ==>
              after.silent == shape.silent + 1 && !after.spoke && FellBack(plan, shape, fallbackUsed) && native == 0
    ensures flow.Again? ==> WentQuiet(session.events, turn, step)
    ensures flow.Done? ==> Blamed(session, old(session.writes), plan, flow.outcome) && after.step == step
    ensures flow.Done? ==> Over(flow.outcome, turn, shape, after) && ClosedAs(session.events, turn, flow.outcome)
    ensures flow.Again? ==> FallsBack(plan)
    ensures Terminal(end.failure.value) ==>
              flow == Done(Failed(Error)) || flow == Done(Escaped(FailureClosing))
    ensures Accepted(session, old(session.writes)) ==>
              flow == if FallsBack(plan) && !end.outputSeen && !fallbackUsed && !shape.tools && native == 0
                      then Again(true) else Done(Failed(Error))
    ensures flow.Done? ==> flow.outcome.Failed? || flow.outcome.Escaped?
    ensures (FellBack(plan, shape, fallbackUsed) && !end.outputSeen && native == 0
             && Accepted(session, old(session.writes))) ==>
              flow == Again(true)
    ensures fallbackUsed ==> used
  {
    hide Track, Faithful, ShapeOf, LoggedText, MayFallback, ToolsLogged;
    used, after := fallbackUsed, shape;
    Classified(end.failure.value);
    ToolsKnown(session, turn, after);
    var toolsDispatched := native > 0 || ToolsLogged(session.events, turn);
    if !fallbackUsed && plan.preparation.replaySafe && !plan.canceled
       && MayFallback(end.failure.value, end.outputSeen, toolsDispatched) && !plan.handler.NoHandler? {
      used := true;
      if plan.handler.Applies? {
        Others(session, after);
        QuietSoFar(session, turn, step, after);
        ghost var events := session.events;
        var ok := AppendTo(session, StepEnd(turn, step), after);
        if !ok {
          return Done(Escaped(Fallback)), used, after;
        }
        after := Next(after, StepEnd(turn, step)).value;
        assert session.events[..|events|] == events && QuietAt(session.events, |events|, turn, step);
        return Again(true), used, after;
      }
    }
    var outcome;
    outcome, after := FailRequest(session, turn, step, true, Error, after);
    flow := Done(outcome);
  }

  /** The two appends that close a step which was heard to its end. */
  method Say(session: Session, turn: nat, step: nat, acc: AccumulatedTurn, ghost shape: Shape)
    returns (calls: seq<LoggedCall>, ok: bool, ghost after: Shape)
    requires Streaming(session, turn, step, acc, shape) && shape.last == turn && shape.silent <= 1
    requires acc.content == LoggedText(session.events, turn, step)
    modifies session
    ensures Track(session, after) && Grown(session, old(session.events), old(session.writes))
    ensures calls == CallsOf(old(acc.absorbed))
    ensures if ok then LastAccepted(session, old(session.writes)) else LastRefused(session, old(session.writes))
    ensures ok ==>
              && after == shape.(inStep := false, spoke := true)
              && exists n :: |old(session.events)| <= n < |session.events|
                   && session.events[n].kind == AssistantMessage(turn, step, old(acc.content), calls)
    ensures !ok ==> after == shape || after == shape.(spoke := true)
  {
    hide Track, Faithful, ShapeOf, LoggedText, TextOf, ReasoningOf, FinishOf, SlotsOf, Indices, CallsOf;
    after := shape;
    calls := Calls(acc, session, turn, step, after);
    WhileStreaming(session, turn, step, acc, after);
    ghost var n := |session.events|;
    ok := AppendTo(session, AssistantMessage(turn, step, acc.content, calls), after);
    if ok {
      assert session.events[n].kind == AssistantMessage(turn, step, acc.content, calls);
      after := Next(after, AssistantMessage(turn, step, acc.content, calls)).value;
      ok := AppendTo(session, StepEnd(turn, step), after);
    }
    if ok {
      after := Next(after, StepEnd(turn, step)).value;
    }
  }

  /** Log the message of a step that was heard to its end, and close the step. */
  method Speak(
    session: Session, turn: nat, step: nat, plan: StepPlan, native: nat, acc: AccumulatedTurn, ghost shape: Shape)
    returns (flow: Flow, continuations: nat, ghost after: Shape)
    requires Streaming(session, turn, step, acc, shape) && shape.last == turn && shape.silent <= 1
    requires acc.content == LoggedText(session.events, turn, step)
    modifies session
    ensures Track(session, after) && Grown(session, old(session.events), old(session.writes))
    ensures after.left == shape.left
    ensures flow.Again? ==>
              && !flow.fellBack
              && Between(after, turn, step, true)
              && after.silent == shape.silent
              && after.spoke
              && plan.usageRecorded
    ensures flow == Done(Escaped(Settling)) ||
              exists n :: |old(session.events)| <= n < |session.events|
                && session.events[n].kind == AssistantMessage(turn, step, old(acc.content), CallsOf(old(acc.absorbed)))
    ensures Smooth(plan) && old(acc.absorbed) == Delivered(plan.items) && Accepted(session, old(session.writes)) ==>
              flow == if Owes(plan) then Again(false) else Done(Settled(EndReason(FinishOf(Delivered(plan.items)))))
    ensures flow.Done? ==> Blamed(session, old(session.writes), plan, flow.outcome) && after.step == step
    ensures continuations == native + (if flow.Again? && old(acc.finish) == Some(FinishPause) then 1 else 0)
    ensures old(acc.finish) == Some(FinishPause) ==>
              var mayGoOn := && plan.preparation.Ready? && plan.preparation.adapter && old(acc.providerStateSeen)
                             && CallsOf(old(acc.absorbed)) == [];
              && (flow.Again? ==> mayGoOn)
              && (Accepted(session, old(session.writes)) && plan.usageRecorded ==>
                    flow == if mayGoOn then Again(false) else Done(Failed(Error)))
    ensures flow != Done(AbortedTurn)
    ensures flow.Done? ==> Over(flow.outcome, turn, shape, after) && ClosedAs(session.events, turn, flow.outcome)
  {
    hide Track, Faithful, ShapeOf, LoggedText, TextOf, ReasoningOf, FinishOf, SlotsOf, Indices, Delivered, EndReason;
    continuations := native;
    var calls, ok;
    calls, ok, after := Say(session, turn, step, acc, shape);
    if !ok {
      return Done(Escaped(Settling)), continuations, after;
    }
    var outcome;
    if !plan.usageRecorded {
      return Done(Escaped(SettledUsage)), continuations, after;
    }
    if acc.finish == Some(FinishPause) {
      if !plan.preparation.Ready? || !plan.preparation.adapter || !acc.providerStateSeen || calls != [] {
        outcome, after := FailRequest(session, turn, step, false, Error, after);
        return Done(outcome), continuations, after;
      }
      return Again(false), native + 1, after;
    }
    flow, after := Settle(session, turn, step, plan, acc.finish, calls, after);
  }

  lemma QuietSoFar(session: Session, turn: nat, step: nat, shape: Shape)
    requires Track(session, shape) && InStep(shape, turn, step) && shape.last == turn && !shape.heard && !shape.tools
    ensures StepOutput(session.events, turn, step) == 0 && !ToolsLogged(session.events, turn)
  {
    StepSoFar(session.events, turn, step);
    ToolsAreLogged(session.events, turn);
  }

  lemma ToolsKnown(session: Session, turn: nat, shape: Shape)
    requires Track(session, shape) && shape.last == turn
    ensures ToolsLogged(session.events, turn) <==> shape.tools
  {
    ToolsAreLogged(session.events, turn);
  }

  method Calls(acc: AccumulatedTurn, session: Session, turn: nat, step: nat, ghost shape: Shape)
    returns (calls: seq<LoggedCall>)
    requires Streaming(session, turn, step, acc, shape)
    ensures calls == CallsOf(acc.absorbed)
  {
    calls := acc.ToToolCalls();
  }

  method Stream(session: Session, turn: nat, step: nat, plan: StepPlan, acc: AccumulatedTurn, ghost shape: Shape)
    returns (end: StreamEnd, ghost after: Shape)
    requires plan.preparation.Ready? || plan.preparation.Skipped?
    requires Track(session, shape) && InStep(shape, turn, step) && shape.last == turn && !shape.spoke && !shape.heard
    requires acc.Valid() && acc.absorbed == [] && acc.pending == []
    modifies session, acc
    ensures Streaming(session, turn, step, acc, after) && SameStep(shape, after)
    ensures Grown(session, old(session.events), old(session.writes))
    ensures !end.broken ==> acc.content == LoggedText(session.events, turn, step) && acc.content == TextOf(acc.absorbed)
    ensures FailsQuietly(plan) ==> end == StreamEnd(Some(plan.ending.failure), false, false, false)
    ensures !end.outputSeen ==> after == shape && (end.failure.Some? ==> plan.items == [])
    ensures !end.broken && plan.preparation.Ready? && Withdrawn !in plan.items ==> acc.absorbed == Delivered(plan.items)
    ensures Smooth(plan) && Accepted(session, old(session.writes)) ==>
              !end.broken && end.failure.None? && acc.absorbed == Delivered(plan.items)
    ensures end.failure.Some? ==>
              plan.preparation.Ready? && plan.ending == ProviderFailed(end.failure.value) && !end.broken
    ensures BreaksOff(plan) ==> end.broken && end.failure.None?
    ensures Smooth(plan) ==> !plan.canceled && plan.preparation.Ready? && Withdrawn !in plan.items
  {
    hide Faithful, ShapeOf, LoggedText, ReasoningOf, FinishOf, SlotsOf, Indices;
    StepIsSilent(session, turn, step, shape);
    if plan.preparation.Skipped? {
      return StreamEnd(None, false, true, false), shape;
    }
    end, after := Drive(session, turn, step, plan, acc, shape);
  }

  method Abort(session: Session, turn: nat, step: nat, plan: StepPlan, content: string, ghost shape: Shape)
    returns (outcome: Outcome, ghost after: Shape)
    requires Track(session, shape) && InStep(shape, turn, step) && shape.last == turn && !shape.spoke
    requires content == LoggedText(session.events, turn, step)
    modifies session
    ensures Track(session, after) && Over(outcome, turn, shape, after) && !outcome.Settled? && !outcome.Failed?
    ensures Grown(session, old(session.events), old(session.writes)) && after.step == step
    ensures Blamed(session, old(session.writes), plan, outcome)
    ensures ClosedAs(session.events, turn, outcome)
  {
    hide Track, Faithful, ShapeOf, LoggedText;
    after := shape;
    Others(session, after);
    var kinds := [AssistantMessage(turn, step, content, []), StepEnd(turn, step), TurnEnd(turn, Aborted)];
    var ok := AppendTo(session, kinds[0], after);
    if ok {
      after := Next(after, kinds[0]).value;
      ok := AppendTo(session, kinds[1], after);
    }
    if ok {
      after := Next(after, kinds[1]).value;
      ok := AppendTo(session, kinds[2], after);
    }
    if !ok {
      return Escaped(Aborting), after;
    }
    after := Next(after, kinds[2]).value;
    outcome := if plan.usageRecorded then AbortedTurn else Escaped(AbortUsage);
  }

  function EndReason(finish: Option<FinishReason>): TurnEndReason {
    match finish
    case Some(FinishLength) => MaxTokens
    case Some(FinishPause) => Error
    case _ => Stop
  }

  /** A closed step either settles the turn, or owes another step to input that
      arrived meanwhile or to the tools it asked for. */
  method Settle(
    session: Session, turn: nat, step: nat, plan: StepPlan, finish: Option<FinishReason>, calls: seq<LoggedCall>,
    ghost shape: Shape)
    returns (flow: Flow, ghost after: Shape)
    requires Track(session, shape) && shape.open == Some(turn) && shape.last == turn && !shape.inStep
    requires shape.step == step && shape.spoke
    requires finish != Some(FinishPause) && plan.usageRecorded
    modifies session
    ensures Track(session, after)
    ensures flow.Again? ==> !flow.fellBack && SameStep(shape, after)
    ensures plan.redrained.Some? && !plan.toolsFail && Accepted(session, old(session.writes)) ==>
              flow == if calls != [] || plan.redrained.value then Again(false) else Done(Settled(EndReason(finish)))
    ensures Grown(session, old(session.events), old(session.writes)) && after.left == shape.left && after.step == step
    ensures flow.Done? ==> Blamed(session, old(session.writes), plan, flow.outcome)
    ensures flow != Done(AbortedTurn)
    ensures flow.Done? ==> Over(flow.outcome, turn, shape, after) && ClosedAs(session.events, turn, flow.outcome)
  {
    hide Track, Faithful, ShapeOf, LoggedText;
    after := shape;
    var outcome;
    if calls == [] {
      Others(session, after);
      if plan.redrained.None? {
        outcome, after := FailRequest(session, turn, step, false, Error, after);
        return Done(outcome), after;
      }
      if plan.redrained.value {
        return Again(false), after;
      }
      Others(session, after);
      var ok := AppendTo(session, TurnEnd(turn, EndReason(finish)), after);
      if !ok {
        return Done(Escaped(Closing)), after;
      }
      after := Next(after, TurnEnd(turn, EndReason(finish))).value;
      return Done(Settled(EndReason(finish))), after;
    }
    var ok := true;
    for i := 0 to |plan.tools|
      invariant Track(session, after) && SameStep(shape, after)
      invariant Grown(session, old(session.events), old(session.writes))
      invariant ok
    {
      Others(session, after);
      var kind := if plan.tools[i] then ToolCall(turn) else ToolResult(turn);
      ok := AppendTo(session, kind, after);
      if !ok {
        break;
      }
      after := Next(after, kind).value;
    }
    if !ok || plan.toolsFail {
      outcome, after := FailRequest(session, turn, step, false, Error, after);
      return Done(outcome), after;
    }
    flow := Again(false);
  }

  lemma StepIsSilent(session: Session, turn: nat, step: nat, shape: Shape)
    requires Track(session, shape) && InStep(shape, turn, step) && shape.last == turn && !shape.spoke && !shape.heard
    ensures LoggedText(session.events, turn, step) == ""
  {
    QuietStep(session.events, turn, step);
  }

  // ---- a whole turn ----

  /** The number of the next turn is read, and its start appended, in two sections. */
  method StartTurn(session: Session, ghost shape: Shape) returns (turn: nat, ok: bool, ghost after: Shape)
    requires Track(session, shape)
    modifies session
    ensures Track(session, after) && Grown(session, old(session.events), old(session.writes)) && turn == shape.last + 1
    ensures !ok ==> after == shape && LastRefused(session, old(session.writes))
    ensures ok ==> LastAccepted(session, old(session.writes))
    ensures ok ==> Between(after, turn, 0, false) && after.silent == 0 && !after.tools && after.left == Unclosed(shape)
  {
    hide Track, Faithful, ShapeOf, LoggedText;
    Others(session, shape);
    NextNumber(session, shape);
    turn := MaxTurn(session.events) + 1;
    Others(session, shape);
    after := shape;
    ok := AppendTo(session, TurnStart(turn), after);
    if ok {
      after := Next(after, TurnStart(turn)).value;
    }
  }

  predicate EscapesAtOnce(script: seq<StepPlan>) {
    script != [] && script[0].stop.None? && script[0].preparation.Escapes?
  }

  predicate AllSmooth(script: seq<StepPlan>) {
    forall i :: 0 <= i < |script| ==> Smooth(script[i])
  }

  /** A turn settles at its first step that owes nothing, for that step's reason. */
  predicate RunsSmoothly(script: seq<StepPlan>, outcome: Outcome, went: nat) {
    && went <= |script| && (forall i :: 0 <= i < went ==> Owes(script[i]))
    && (outcome.Unfinished? <==> went == |script|)
    && (went < |script| ==>
          !Owes(script[went]) && outcome == Settled(EndReason(FinishOf(Delivered(script[went].items)))))
  }

  /** What the log has of the first n steps of a turn, all of which it went on from:
      one message each, except the one that fell back. */
  ghost predicate WentOn(events: seq<Event>, turn: nat, script: seq<StepPlan>, n: nat, fellBack: Option<nat>) {
    && n <= |script|
    && (fellBack.Some? ==>
          fellBack.value < n && FallbackStep(script[fellBack.value]) && WentQuiet(events, turn, fellBack.value + 1))
    && (forall i :: 0 <= i < n ==>
          && StepMessages(events, turn, i + 1) == (if fellBack == Some(i) then 0 else 1)
          && (fellBack == Some(i) || Steady(script[i])))
  }

  /** Run one turn over everything its steps meet, or over a beginning of it. The
      last turn of the log may still be open; it then stays so. The turn went on
      from the first `went` steps. */
  method RunTurn(session: Session, script: seq<StepPlan>, ghost shape: Shape)
    returns (outcome: Outcome, fellBack: Option<nat>, went: nat, ghost after: Shape)
    requires Track(session, shape)
    modifies session
    ensures Track(session, after) && Grown(session, old(session.events), old(session.writes))
    ensures outcome == Escaped(StartRefused) ==> after == shape && LastRefused(session, old(session.writes))
    ensures outcome != Escaped(StartRefused) ==>
              && after.last == shape.last + 1 && after.left == Unclosed(shape)
              && (after.open.Some? <==> LeavesOpen(outcome))
              && WentOn(session.events, after.last, script, went, fellBack)
    ensures !outcome.Unfinished? && outcome != Escaped(StartRefused) ==>
              && went < |script| && went <= after.step <= went + 1
              && Remains(outcome, after.last, after) && ClosedAs(session.events, after.last, outcome)
              && Blamed(session, old(session.writes), script[went], outcome)
    ensures outcome.Unfinished? ==> went == |script|
    ensures went < |script| && outcome != Escaped(StartRefused) && Smooth(script[went])
            && Accepted(session, old(session.writes)) ==>
              !Owes(script[went]) && outcome == Settled(EndReason(FinishOf(Delivered(script[went].items))))
    ensures (forall plan :: plan in script ==> Steady(plan)) && !outcome.Unfinished? ==>
              (outcome.Escaped? <==> LastRefused(session, old(session.writes)))
    ensures EscapesAtOnce(script) && Accepted(session, old(session.writes)) ==> outcome == Escaped(Preparing)
    ensures fellBack.Some? ==> fellBack.value < |script| && FallsBack(script[fellBack.value])
    ensures script != [] && FailsQuietly(script[0]) && Accepted(session, old(session.writes)) ==>
              if FallsBack(script[0])
              then fellBack == Some(0) && went > 0 else outcome == Failed(Error) && went == 0
    ensures AllSmooth(script) && Accepted(session, old(session.writes)) ==>
              fellBack.None? && RunsSmoothly(script, outcome, went)
    ensures outcome.Settled? || outcome.AbortedTurn? ==>
              && after.step == went + 1 && Steady(script[went])
              && Messages(session.events, after.last) + (if fellBack.Some? then 1 else 0) == after.step
    ensures outcome.Settled? && script[went].preparation.Ready? && Withdrawn !in script[went].items ==>
              SaidAll(session.events, after.last, went + 1, script[went].items)
  {
    hide FallsBack, Transient, Track, Faithful, ShapeOf, LoggedText, WentOn, WentQuiet, Messages, FallbackStep,
      MayFallback, Remains, Smooth, Owes, SaidAll, Delivered, EndReason, Blamed, Next, MayStart, FinishOf, ClosedAs;
    fellBack, went := None, 0;
    var turn, ok;
    turn, ok, after := StartTurn(session, shape);
    if !ok {
      return Escaped(StartRefused), fellBack, went, after;
    }
    var native, used := 0, false;
    ghost var begun := session.writes;
    WentNowhere(session, turn, script);
    while went < |script|
      invariant 0 <= went <= |script| && WentOn(session.events, turn, script, went, fellBack)
      invariant Track(session, after) && Between(after, turn, went, used) && after.left == Unclosed(shape)
      invariant Grown(session, old(session.events), begun) && begun > old(session.writes)
      invariant after.silent == if fellBack.Some? then 1 else 0
      invariant fellBack.Some? ==> fellBack.value < went && FallsBack(script[fellBack.value])
      invariant went == 0 ==> !after.tools && native == 0 && !used
      invariant went > 0 && FailsQuietly(script[0]) && Accepted(session, old(session.writes)) ==> fellBack == Some(0)
      invariant went > 0 && EscapesAtOnce(script) ==> !Accepted(session, old(session.writes))
      invariant AllSmooth(script) && Accepted(session, old(session.writes)) ==>
                  fellBack.None? && forall j :: 0 <= j < went ==> Owes(script[j])
    {
      ghost var events, before, writes := session.events, after, session.writes;
      Tracked(session, after);
      var flow;
      flow, native, used, after := RunStep(session, turn, went + 1, script[went], native, used, after);
      StillWentOn(session, after, events, before, turn, script, went, fellBack);
      if flow.Done? {
        BlamedSince(session, old(session.writes), writes, script[went], flow.outcome);
        assert script[went] in script;
        if flow.outcome.Settled? || flow.outcome.AbortedTurn? {
          EachStepSpoke(session, after);
        }
        return flow.outcome, fellBack, went, after;
      }
      GoesOn(session, after, turn, script, went, fellBack, flow.fellBack);
      if flow.fellBack {
        fellBack := Some(went);
      }
      went := went + 1;
    }
    outcome := Unfinished;
  }

  lemma BlamedSince(session: Session, from: nat, since: nat, plan: StepPlan, outcome: Outcome)
    requires from <= since && Blamed(session, since, plan, outcome) && !outcome.Unfinished?
    ensures Blamed(session, from, plan, outcome)
    ensures Steady(plan) ==> (outcome.Escaped? <==> LastRefused(session, from))
    ensures outcome.Settled? || outcome.AbortedTurn? ==> plan.usageRecorded
  {
  }

  lemma Tracked(session: Session, shape: Shape)
    requires Track(session, shape)
    ensures ShapeOf(session.events) == Some(shape)
  {
  }

  lemma WentNowhere(session: Session, turn: nat, script: seq<StepPlan>)
    ensures WentOn(session.events, turn, script, 0, None)
  {
  }

  /** Later events change nothing about what the closed steps said. */
  lemma StillWentOn(
    session: Session, shape: Shape, events: seq<Event>, before: Shape, turn: nat, script: seq<StepPlan>, n: nat,
    fellBack: Option<nat>)
    requires Track(session, shape) && events <= session.events && ShapeOf(events) == Some(before)
    requires before.last == turn && before.step == n && !before.inStep && WentOn(events, turn, script, n, fellBack)
    ensures WentOn(session.events, turn, script, n, fellBack)
  {
    hide ToolsLogged, StepOutput, StepMessages, ShapeOf, FallbackStep, Steady;
    assert session.events[..|events|] == events;
    Tracked(session, shape);
    forall step | 1 <= step <= n ensures StepMessages(session.events, turn, step) == StepMessages(events, turn, step) {
      PastIsQuiet(session.events, |events|, turn, step);
    }
    if fellBack.Some? {
      var k :| QuietAt(events, k, turn, fellBack.value + 1);
      assert session.events[..k] == events[..k];
      assert QuietAt(session.events, k, turn, fellBack.value + 1);
    }
  }

  lemma GoesOn(
    session: Session, shape: Shape, turn: nat, script: seq<StepPlan>, n: nat, fellBack: Option<nat>, fell: bool)
    requires Track(session, shape) && shape.last == turn && shape.step == n + 1 && shape.spoke == !fell
    requires n < |script| && WentOn(session.events, turn, script, n, fellBack)
    requires if fell then fellBack.None? && FallbackStep(script[n]) && WentQuiet(session.events, turn, n + 1)
            else Steady(script[n])
    ensures WentOn(session.events, turn, script, n + 1, if fell then Some(n) else fellBack)
  {
    StepSoFar(session.events, turn, n + 1);
  }

  lemma NextNumber(session: Session, shape: Shape)
    requires Track(session, shape)
    ensures MaxTurn(session.events) == shape.last
  {
    MaxTurnIsLast(session.events);
  }

  lemma EachStepSpoke(session: Session, shape: Shape)
    requires Track(session, shape) && shape.open.None?
    ensures Messages(session.events, shape.last) + shape.silent == shape.step
  {
    MessagesCounted(session.events, shape.last);
    NotInStep(session.events);
  }

  // ---- turn ownership ----

  datatype LeaseError = ShutDown | Concurrent

  /** One turn at a time: the lease names its turn, and only that lease ends it. */
  class AgentCancellation {
    var active: Option<nat>
    var canceled: set<nat>
    var shutdown: bool
    var issued: nat

    ghost predicate Valid()
      reads this
    {
      && (active.Some? ==> active.value < issued)
      && (forall lease :: lease in canceled ==> lease < issued)
    }

    constructor ()
      ensures Valid() && active.None? && canceled == {} && !shutdown && issued == 0
    {
      active, canceled, shutdown, issued := None, {}, false, 0;
    }

    method BeginTurn() returns (lease: Result<nat, LeaseError>)
      requires Valid()
      modifies this
      ensures Valid() && shutdown == old(shutdown) && canceled == old(canceled)
      ensures lease.Ok? <==> !old(shutdown) && old(active).None?
      ensures lease.Ok? ==> active == Some(lease.value) && lease.value == old(issued) && issued == old(issued) + 1
      ensures lease.Err? ==> active == old(active) && issued == old(issued) && (lease.error.ShutDown? <==> shutdown)
    {
      if shutdown {
        return Err(ShutDown);
      }
      if active.Some? {
        return Err(Concurrent);
      }
      active := Some(issued);
      lease := Ok(issued);
      issued := issued + 1;
    }

    /** Dropping a lease frees the slot only while it is still that turn's. */
    method EndTurn(lease: nat)
      requires Valid()
      modifies this`active
      ensures Valid() && active == if old(active) == Some(lease) then None else old(active)
    {
      if active == Some(lease) {
        active := None;
      }
    }

    /** The second half of a cancellation, after it read the active turn's token. */
    method CancelToken(token: nat)
      requires Valid() && token < issued
      modifies this`canceled
      ensures Valid() && canceled == old(canceled) + {token}
    {
      canceled := canceled + {token};
    }

    method Shutdown()
      requires Valid()
      modifies this`shutdown
      ensures Valid() && shutdown
    {
      shutdown := true;
    }

    predicate IsCanceled()
      reads this
    {
      shutdown || (active.Some? && active.value in canceled)
    }
  }

  datatype LeaseStep = Begin | End(lease: nat) | AskCancel | DeliverCancel(request: nat) | ShutDownAgent

  /** Which lease is held after some steps, and how many were given out. */
  datatype Holder = Holder(active: Option<nat>, issued: nat, shutdown: bool)

  function HolderAfter(steps: seq<LeaseStep>): Holder {
    if steps == [] then Holder(None, 0, false)
    else
      var before := HolderAfter(steps[..|steps| - 1]);
      match steps[|steps| - 1]
      case Begin =>
        if before.shutdown || before.active.Some? then before else Holder(Some(before.issued), before.issued + 1, false)
      case End(lease) => if before.active == Some(lease) then before.(active := None) else before
      case ShutDownAgent => before.(shutdown := true)
      case _ => before
  }

  /** A cancellation was asked for while this turn held the agent. */
  ghost predicate AskedDuring(steps: seq<LeaseStep>, lease: nat) {
    exists i :: 0 <= i < |steps| && steps[i].AskCancel? && HolderAfter(steps[..i]).active == Some(lease)
  }

  /** The turns whose token a cancellation request has read, request by request. */
  function Asked(steps: seq<LeaseStep>): seq<nat> {
    if steps == [] then []
    else
      var before := steps[..|steps| - 1];
      var held := HolderAfter(before).active;
      Asked(before) + (if steps[|steps| - 1].AskCancel? && held.Some? then [held.value] else [])
  }

  /** The n-th step delivers a cancellation that was asked for before, to this turn. */
  ghost predicate Delivers(steps: seq<LeaseStep>, n: int, lease: nat) {
    && 0 <= n < |steps| && steps[n].DeliverCancel?
    && var asked := Asked(steps[..n]); steps[n].request < |asked| && asked[steps[n].request] == lease
  }

  /** A cancellation of this turn was delivered. */
  ghost predicate Told(steps: seq<LeaseStep>, lease: nat) {
    exists n :: Delivers(steps, n, lease)
  }

  lemma ToldStep(steps: seq<LeaseStep>, n: nat)
    requires n < |steps|
    ensures forall lease: nat :: Told(steps[..n + 1], lease) <==> Told(steps[..n], lease) || Delivers(steps, n, lease)
    ensures var held := HolderAfter(steps[..n]).active;
            Asked(steps[..n + 1])
            == Asked(steps[..n]) + (if steps[n].AskCancel? && held.Some? then [held.value] else [])
  {
    hide HolderAfter;
    var longer := steps[..n + 1];
    assert longer[..n] == steps[..n];
    hide Asked;
    forall lease: nat ensures Told(longer, lease) <==> Told(steps[..n], lease) || Delivers(steps, n, lease) {
      forall k: nat | k <= n ensures Delivers(longer, k, lease) <==> Delivers(steps, k, lease) {
        assert longer[..k] == steps[..k];
      }
      forall k: nat | k < n ensures Delivers(steps[..n], k, lease) <==> Delivers(steps, k, lease) {
        assert steps[..n][..k] == steps[..k];
      }
    }
  }

  lemma {:induction false} LeasesGrow(steps: seq<LeaseStep>, k: nat)
    requires k <= |steps|
    ensures HolderAfter(steps[..k]).issued <= HolderAfter(steps).issued
    ensures var held := HolderAfter(steps).active; held.Some? ==> held.value < HolderAfter(steps).issued
    decreases |steps|
  {
    if k < |steps| {
      assert steps[..|steps| - 1][..k] == steps[..k];
      LeasesGrow(steps[..|steps| - 1], k);
    } else {
      assert steps[..k] == steps;
      if steps != [] {
        LeasesGrow(steps[..|steps| - 1], |steps| - 1);
      }
    }
  }

  /** A lease is held over one stretch: once its turn is over, no later turn has it. */
  lemma {:induction false} LeaseIsOneStretch(steps: seq<LeaseStep>, i: nat, k: nat, lease: nat)
    requires i <= k <= |steps| && HolderAfter(steps[..i]).active == Some(lease)
    requires HolderAfter(steps).active == Some(lease)
    ensures HolderAfter(steps[..k]).active == Some(lease)
    decreases |steps|
  {
    if k == |steps| {
      assert steps[..k] == steps;
    } else {
      var shorter := steps[..|steps| - 1];
      assert shorter[..i] == steps[..i] && shorter[..k] == steps[..k];
      LeasesGrow(shorter, i);
      LeasesGrow(steps[..i], i);
      LeaseIsOneStretch(shorter, i, k, lease);
    }
  }

  /** In every order of beginning, ending and cancelling turns, exactly those turns
      are told to stop of which a delivered request had read the token, and that was
      while they held the agent. */
  method RunLeases(agent: AgentCancellation, steps: seq<LeaseStep>)
    requires agent.Valid() && agent.active.None? && agent.canceled == {} && !agent.shutdown && agent.issued == 0
    modifies agent
    ensures agent.Valid() && Holder(agent.active, agent.issued, agent.shutdown) == HolderAfter(steps)
    ensures forall lease :: lease in agent.canceled ==> AskedDuring(steps, lease)
    ensures forall lease :: lease in agent.canceled <==> Told(steps, lease)
    ensures agent.IsCanceled() <==> agent.shutdown || (agent.active.Some? && Told(steps, agent.active.value))
  {
    hide HolderAfter, Told, Asked;
    var tokens: seq<nat> := [];
    HolderNone();
    NoneTold();
    for n := 0 to |steps|
      invariant agent.Valid() && Holder(agent.active, agent.issued, agent.shutdown) == HolderAfter(steps[..n])
      invariant forall token :: token in tokens || token in agent.canceled ==>
                token < agent.issued && AskedDuring(steps[..n], token)
      invariant tokens == Asked(steps[..n]) && forall lease :: lease in agent.canceled <==> Told(steps[..n], lease)
    {
      HolderStep(steps, n);
      ToldStep(steps, n);
      ghost var before := HolderAfter(steps[..n]);
      match steps[n] {
        case Begin => var lease := agent.BeginTurn();
        case End(lease) => agent.EndTurn(lease);
        case AskCancel =>
          if agent.active.Some? {
            tokens := tokens + [agent.active.value];
            assert AskedDuring(steps[..n + 1], agent.active.value) by {
              assert steps[..n + 1][n].AskCancel? && steps[..n + 1][..n] == steps[..n];
            }
          }
        case DeliverCancel(request) =>
          if request < |tokens| {
            assert tokens[request] in tokens;
            agent.CancelToken(tokens[request]);
          }
        case ShutDownAgent => agent.Shutdown();
      }
    }
    assert steps[..|steps|] == steps;
  }

  lemma NoneTold()
    ensures Asked([]) == [] && forall lease: nat :: !Told([], lease)
  {
  }

  lemma HolderNone()
    ensures HolderAfter([]) == Holder(None, 0, false)
  {
  }

  lemma HolderStep(steps: seq<LeaseStep>, n: nat)
    requires n < |steps|
    ensures HolderAfter(steps[..n + 1]) ==
            var before := HolderAfter(steps[..n]);
            match steps[n]
            case Begin =>
              if before.shutdown || before.active.Some? then before
                else Holder(Some(before.issued), before.issued + 1, false)
            case End(lease) => if before.active == Some(lease) then before.(active := None) else before
            case ShutDownAgent => before.(shutdown := true)
            case _ => before
    ensures forall lease: nat :: AskedDuring(steps[..n], lease) ==> AskedDuring(steps[..n + 1], lease)
  {
    var longer := steps[..n + 1];
    assert longer[..n] == steps[..n];
    forall lease: nat | AskedDuring(steps[..n], lease) ensures AskedDuring(longer, lease) {
      var i :| 0 <= i < n && steps[..n][i].AskCancel? && HolderAfter(steps[..n][..i]).active == Some(lease);
      assert steps[..n][..i] == longer[..i] && longer[i].AskCancel?;
    }
  }

  // ---- turn after turn ----

  type Turned = Result<Outcome, LeaseError>

  predicate LeftOpen(turned: Turned) {
    turned.Ok? && LeavesOpen(turned.value)
  }

  /** The turn has its start in the log. */
  predicate Began(turned: Turned) {
    turned.Ok? && turned.value != Escaped(StartRefused)
  }

  function TurnsBegun(outcomes: seq<Turned>): nat {
    if outcomes == [] then 0
    else TurnsBegun(outcomes[..|outcomes| - 1]) + (if Began(outcomes[|outcomes| - 1]) then 1 else 0)
  }

  /** A turn was left open, and another one started after it. */
  ghost predicate Overrun(open: bool, outcomes: seq<Turned>) {
    exists j :: 0 <= j < |outcomes| && Began(outcomes[j]) && (open || exists i :: 0 <= i < j && LeftOpen(outcomes[i]))
  }

  /** What an admitted turn does over a store that accepts: it begins, and it ends as
      its script says. */
  ghost predicate AsPromised(script: seq<StepPlan>, outcome: Outcome) {
    && outcome != Escaped(StartRefused)
    && ((forall plan :: plan in script ==> Steady(plan)) ==> !outcome.Escaped?)
    && (EscapesAtOnce(script) ==> outcome == Escaped(Preparing))
    && (AllSmooth(script) ==> exists went :: RunsSmoothly(script, outcome, went))
  }

  /** Take the agent for one turn, and give it back however the turn ends. */
  method RunNext(agent: AgentCancellation, session: Session, script: seq<StepPlan>, ghost shape: Shape)
    returns (turned: Turned, ghost after: Shape)
    requires agent.Valid() && Track(session, shape)
    modifies agent, session
    ensures agent.Valid() && agent.active == old(agent.active) && agent.shutdown == old(agent.shutdown)
    ensures Track(session, after) && old(session.writes) <= session.writes
    ensures turned.Err? <==> old(agent.shutdown) || old(agent.active).Some?
    ensures after.last == shape.last + (if Began(turned) then 1 else 0)
    ensures after.left == if Began(turned) then Unclosed(shape) else shape.left
    ensures Unclosed(after) == {} <==> Unclosed(shape) == {} && !LeftOpen(turned)
    ensures Accepting(session, old(session.writes)) && turned.Ok? ==> AsPromised(script, turned.value)
  {
    hide Track, ClosedAs, Remains, Blamed, WentOn, SaidAll, Messages, Steady, EscapesAtOnce, AllSmooth, RunsSmoothly;
    Others(session, shape);
    after := shape;
    var lease := agent.BeginTurn();
    if lease.Err? {
      return Err(lease.error), after;
    }
    var outcome, fellBack, went;
    outcome, fellBack, went, after := RunTurn(session, script, shape);
    NoneUnclosed(shape);
    NoneUnclosed(after);
    agent.EndTurn(lease.value);
    turned := Ok(outcome);
  }

  /** Whatever the agent is asked to run, turn after turn. Nothing stops it after
      an escape: the next turn starts inside the one left open, so the log has all
      its ends exactly when no turn escaped in the open, and its turns are disjoint
      exactly when none that did was followed by another. */
  method RunAll(agent: AgentCancellation, session: Session, scripts: seq<seq<StepPlan>>, ghost shape: Shape)
    returns (outcomes: seq<Turned>, ghost after: Shape)
    requires agent.Valid() && Track(session, shape)
    modifies agent, session
    ensures agent.Valid() && Track(session, after) && agent.active == old(agent.active)
    ensures |outcomes| == |scripts|
    ensures forall i :: 0 <= i < |outcomes| ==> (outcomes[i].Err? <==> old(agent.shutdown) || old(agent.active).Some?)
    ensures MaxTurn(session.events) == MaxTurn(old(session.events)) + TurnsBegun(outcomes)
    ensures forall turn :: Ends(session.events, turn) <= Starts(session.events, turn) <= 1
    ensures (forall turn :: Starts(session.events, turn) == Ends(session.events, turn))
              <==> Unclosed(shape) == {} && forall i :: 0 <= i < |outcomes| ==> !LeftOpen(outcomes[i])
    ensures Sequential(session.events) <==> Sequential(old(session.events)) && !Overrun(shape.open.Some?, outcomes)
    ensures Accepting(session, old(session.writes)) ==>
              forall i :: 0 <= i < |outcomes| && outcomes[i].Ok? ==> AsPromised(scripts[i], outcomes[i].value)
  {
    hide Track, Starts, Ends, Sequential, LeavesOpen, Began, AsPromised, Unclosed, MaxTurn;
    NextNumber(session, shape);
    outcomes, after := [], shape;
    ghost var accepting := Accepting(session, session.writes);
    WhetherSequential(session, shape);
    NoneUnclosed(shape);
    for n := 0 to |scripts|
      invariant agent.Valid() && Track(session, after) && |outcomes| == n && session.writes >= old(session.writes)
      invariant after.last == shape.last + TurnsBegun(outcomes)
      invariant agent.active == old(agent.active) && agent.shutdown == old(agent.shutdown)
      invariant forall i :: 0 <= i < n ==> (outcomes[i].Err? <==> agent.shutdown || agent.active.Some?)
      invariant after.left == {} || Unclosed(after) != {}
      invariant Unclosed(after) == {} <==> Unclosed(shape) == {} && forall i :: 0 <= i < n ==> !LeftOpen(outcomes[i])
      invariant after.left == {} <==> shape.left == {} && !Overrun(shape.open.Some?, outcomes)
      invariant accepting ==> forall i :: 0 <= i < n && outcomes[i].Ok? ==> AsPromised(scripts[i], outcomes[i].value)
    {
      var turned;
      turned, after := RunNext(agent, session, scripts[n], after);
      NoneUnclosed(after);
      OverrunAppend(shape.open.Some?, outcomes, turned);
      assert (outcomes + [turned])[..n] == outcomes;
      outcomes := outcomes + [turned];
    }
    NextNumber(session, after);
    WhetherSequential(session, after);
    WhetherClosed(session, after);
  }

  lemma NoneUnclosed(shape: Shape)
    ensures Unclosed(shape) == {} <==> shape.left == {} && shape.open.None?
  {
    if shape.open.Some? {
      assert shape.open.value in Unclosed(shape);
    }
  }

  lemma OverrunAppend(open: bool, outcomes: seq<Turned>, turned: Turned)
    ensures Overrun(open, outcomes + [turned]) <==>
            Overrun(open, outcomes)
              || (Began(turned) && (open || exists i :: 0 <= i < |outcomes| && LeftOpen(outcomes[i])))
    ensures (forall i :: 0 <= i <= |outcomes| ==> !LeftOpen((outcomes + [turned])[i])) <==>
            (forall i :: 0 <= i < |outcomes| ==> !LeftOpen(outcomes[i])) && !LeftOpen(turned)
  {
    var all := outcomes + [turned];
    assert all[|outcomes|] == turned && forall i :: 0 <= i < |outcomes| ==> all[i] == outcomes[i];
    if Overrun(open, outcomes) {
      var j :| 0 <= j < |outcomes| && Began(outcomes[j]) && (open || exists i :: 0 <= i < j && LeftOpen(outcomes[i]));
      assert Began(all[j]);
      if !open {
        var i :| 0 <= i < j && LeftOpen(outcomes[i]);
        assert LeftOpen(all[i]);
      }
    }
    if Began(turned) {
      assert all[|outcomes|] == turned;
      if i :| 0 <= i < |outcomes| && LeftOpen(outcomes[i]) {
        assert LeftOpen(all[i]);
      }
    }
  }

  lemma WhetherSequential(session: Session, shape: Shape)
    requires Track(session, shape)
    ensures Sequential(session.events) <==> shape.left == {}
  {
    SequentialUnlessLeft(session.events);
  }

  lemma WhetherClosed(session: Session, shape: Shape)
    requires Track(session, shape)
    ensures forall turn :: Ends(session.events, turn) <= Starts(session.events, turn) <= 1
    ensures (forall turn :: Starts(session.events, turn) == Ends(session.events, turn)) <==> Unclosed(shape) == {}
  {
    hide Track, Starts, Ends, Unclosed;
    forall turn: nat
      ensures Starts(session.events, turn) <= 1
      ensures Starts(session.events, turn) == Ends(session.events, turn) + (if turn in Unclosed(shape) then 1 else 0)
    {
      ClosedUnless(session, shape, turn);
    }
    if turn: nat :| turn in Unclosed(shape) {
      assert Starts(session.events, turn) != Ends(session.events, turn);
    } else {
      assert Unclosed(shape) == {};
    }
  }

  lemma ClosedUnless(session: Session, shape: Shape, turn: nat)
    requires Track(session, shape)
    ensures Starts(session.events, turn) <= 1
    ensures Starts(session.events, turn) == Ends(session.events, turn) + (if turn in Unclosed(shape) then 1 else 0)
  {
    TurnsBracketed(session.events, turn);
  }

  /** Two turns over a store that refuses nothing: the first one's clock reading
      fails, and the second starts inside it. */
  method OpenTurnOverrun(second: seq<StepPlan>)
    returns (session: Session, turned: seq<Turned>)
    ensures |turned| == 2 && turned[0] == Ok(Escaped(Preparing))
    ensures session.Valid() && exists turn :: Starts(session.events, turn) == 1 && Ends(session.events, turn) == 0
    ensures turned[1].Ok? && Began(turned[1]) && !Sequential(session.events)
  {
    session := new Session(n => true);
    var agent := new AgentCancellation();
    ghost var after;
    turned, after := RunAll(agent, session,
      [[StepPlan(None, Escapes, [], EndOfStream, false, NoHandler, true, None, [], false)], second], NO_TURNS);
    assert AsPromised([[StepPlan(None, Escapes, [], EndOfStream, false, NoHandler, true, None, [], false)], second][0],
                      turned[0].value);
    assert LeftOpen(turned[0]);
  }

  // ---- adapter preparation ----

  datatype Prepared = Dispatchable | Withheld | Pressure

  datatype Compacted = Folded(rebuilt: bool) | NothingToFold | CompactionFailed | CompactionCanceled

  /** Two attempts with one compaction after each: the caller never sees pressure. */
  method PrepareAdapterDispatch(once: nat -> Option<Prepared>, compact: nat -> Compacted) returns (r: Option<Prepared>)
    ensures r.Some? ==> !r.value.Pressure?
    ensures once(0) == Some(Pressure) && compact(0) == Folded(true) && once(1) != Some(Pressure) ==> r == once(1)
    ensures once(0) != Some(Pressure) ==> r == once(0)
    ensures (once(0) == Some(Pressure) && once(1) == Some(Pressure)
             && !compact(0).CompactionCanceled? && !compact(1).CompactionCanceled?) ==>
              r == None
  {
    for attempt := 0 to 2
      invariant forall i :: 0 <= i < attempt ==>
                once(i) == Some(Pressure) && (compact(i).NothingToFold? || compact(i) == Folded(true))
    {
      var prepared := once(attempt);
      if prepared != Some(Pressure) {
        return prepared;
      }
      match compact(attempt)
      case Folded(rebuilt) =>
        if !rebuilt {
          return None;
        }
      case NothingToFold =>
      case CompactionFailed => return None;
      case CompactionCanceled => return Some(Withheld);
    }
    r := None;
  }
}
