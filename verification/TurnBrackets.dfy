/** The shape every session log has: turns in increasing order, each closed unless
    it was left open, steps numbered within them, and what each step said. */
module TurnBrackets {
  import opened SessionEvents
  import opened Accumulators

  /** What a log prefix leaves open. `silent` counts the closed steps of the last
      turn that have no assistant message; `heard` and `tools` say whether the
      current step logged provider output and the turn logged a tool call. The
      turns in `left` were still open when a later one started. */
  datatype Shape = Shape(
    last: nat, open: Option<nat>, step: nat, inStep: bool, spoke: bool, heard: bool, silent: nat, tools: bool,
    left: set<nat>)

  const NO_TURNS := Shape(0, None, 0, false, false, false, 0, false, {})

  /** Every turn that the log leaves without an end. */
  function Unclosed(shape: Shape): set<nat> {
    shape.left + (if shape.open.Some? then {shape.open.value} else {})
  }

  /** A step may follow one that said nothing only once in a turn, and only when
      the silent step heard nothing and the turn ran no tool. */
  predicate MayStart(shape: Shape) {
    shape.step == 0 || shape.spoke || (shape.silent == 1 && !shape.heard && !shape.tools)
  }

  predicate InStep(shape: Shape, turn: nat, step: nat) {
    shape.open == Some(turn) && shape.inStep && shape.step == step
  }

  function Next(shape: Shape, kind: Kind): Option<Shape> {
    match kind
    case TurnStart(turn) =>
      if turn > shape.last
      then Some(Shape(turn, Some(turn), 0, false, false, false, 0, false, Unclosed(shape)))
      else None
    case TurnEnd(turn, _) =>
      if shape.open == Some(turn) && !shape.inStep then Some(shape.(open := None)) else None
    case StepStart(turn, step) =>
      if shape.open == Some(turn) && !shape.inStep && step == shape.step + 1 && MayStart(shape)
      then Some(shape.(step := step, inStep := true, spoke := false, heard := false)) else None
    case StepEnd(turn, step) =>
      if InStep(shape, turn, step)
      then Some(shape.(inStep := false, silent := if shape.spoke then shape.silent else shape.silent + 1)) else None
    case AssistantMessage(turn, step, _, _) =>
      if InStep(shape, turn, step) && !shape.spoke then Some(shape.(spoke := true)) else None
    case AssistantChunk(turn, step, _, _) =>
      if InStep(shape, turn, step) && !shape.spoke then Some(shape.(heard := true)) else None
    case ProviderItem(turn, step) =>
      if InStep(shape, turn, step) && !shape.spoke then Some(shape.(heard := true)) else None
    case ServerToolCall(turn, step) =>
      if InStep(shape, turn, step) && !shape.spoke then Some(shape.(heard := true, tools := true)) else None
    case ToolCall(turn) =>
      if shape.open == Some(turn) && !shape.inStep then Some(shape.(tools := true)) else None
    case ToolResult(turn) =>
      if shape.open == Some(turn) && !shape.inStep then Some(shape) else None
    case _ => Some(shape)
  }

  function ShapeOf(events: seq<Event>): Option<Shape> {
    if events == [] then Some(NO_TURNS)
    else
      var before := ShapeOf(events[..|events| - 1]);
      if before.None? then None else Next(before.value, events[|events| - 1].kind)
  }

  lemma ShapeAppend(events: seq<Event>, event: Event)
    ensures ShapeOf(events + [event]) == if ShapeOf(events).None? then None else Next(ShapeOf(events).value, event.kind)
  {
    assert (events + [event])[..|events|] == events;
  }

  /** Kinds that belong to no turn. */
  predicate Outside(kind: Kind) {
    && !kind.TurnStart? && !kind.TurnEnd? && !kind.StepStart? && !kind.StepEnd?
    && !kind.AssistantChunk? && !kind.AssistantMessage? && !kind.ProviderItem? && !kind.ServerToolCall?
    && !kind.ToolCall? && !kind.ToolResult?
  }

  predicate SameStep(before: Shape, after: Shape) {
    after == before.(heard := after.heard, tools := after.tools)
  }

  // ---- what the assistant says is what was streamed ----

  predicate SaysWhatItHeard(events: seq<Event>, i: nat)
    requires i < |events|
  {
    var kind := events[i].kind;
    kind.AssistantMessage? ==> kind.message == LoggedText(events[..i], kind.turn, kind.step)
  }

  /** Every assistant message repeats the text chunks logged in its step. */
  ghost predicate Faithful(events: seq<Event>) {
    forall i :: 0 <= i < |events| ==> SaysWhatItHeard(events, i)
  }

  lemma FaithfulAppend(events: seq<Event>, event: Event)
    requires Faithful(events)
    requires event.kind.AssistantMessage? ==> event.kind.message == LoggedText(events, event.kind.turn, event.kind.step)
    ensures Faithful(events + [event])
  {
    var all := events + [event];
    forall i | 0 <= i < |all| ensures SaysWhatItHeard(all, i) {
      if i < |events| {
        assert all[..i] == events[..i] && SaysWhatItHeard(events, i);
      } else {
        assert all[..i] == events;
      }
    }
  }

  /** Nothing of a step is logged before the step starts. */
  lemma {:induction false} StepStartsSilent(events: seq<Event>, turn: nat, step: nat)
    requires ShapeOf(events).Some?
    requires var shape := ShapeOf(events).value;
             turn > shape.last || (turn == shape.last && step > shape.step)
    ensures LoggedText(events, turn, step) == ""
    decreases |events|
  {
    hide MayStart;
    if events != [] {
      var shorter, last := events[..|events| - 1], events[|events| - 1];
      OpenIsLast(shorter);
      StepStartsSilent(shorter, turn, step);
    }
  }

  /** A step that heard nothing has no text. */
  lemma {:induction false} QuietStep(events: seq<Event>, turn: nat, step: nat)
    requires ShapeOf(events).Some? && InStep(ShapeOf(events).value, turn, step) && !ShapeOf(events).value.heard
    ensures LoggedText(events, turn, step) == ""
    decreases |events|
  {
    if events != [] {
      var shorter, last := events[..|events| - 1], events[|events| - 1];
      if last.kind == StepStart(turn, step) {
        OpenIsLast(shorter);
        StepStartsSilent(shorter, turn, step);
      } else {
        QuietStep(shorter, turn, step);
      }
    }
  }

  lemma {:induction false} OpenIsLast(events: seq<Event>)
    requires ShapeOf(events).Some?
    ensures var shape := ShapeOf(events).value;
            && (shape.open.Some? ==> shape.open == Some(shape.last))
            && (forall turn :: turn in shape.left ==> turn < shape.last)
    decreases |events|
  {
    if events != [] {
      OpenIsLast(events[..|events| - 1]);
    }
  }

  // ---- what the log says of a turn ----

  /** A tool call or a provider-run tool call of this turn is in the log. */
  function ToolsLogged(events: seq<Event>, turn: nat): bool {
    if events == [] then false
    else
      var kind := events[|events| - 1].kind;
      ToolsLogged(events[..|events| - 1], turn)
      || ((kind.ToolCall? || kind.ServerToolCall?) && kind.turn == turn)
  }

  lemma {:induction false} ToolsAreLogged(events: seq<Event>, turn: nat)
    requires ShapeOf(events).Some? && turn >= ShapeOf(events).value.last
    ensures ToolsLogged(events, turn) <==> turn == ShapeOf(events).value.last && ShapeOf(events).value.tools
    decreases |events|
  {
    if events != [] {
      OpenIsLast(events[..|events| - 1]);
      ToolsAreLogged(events[..|events| - 1], turn);
    }
  }

  /** The number of the next turn: one more than the greatest logged one. */
  function MaxTurn(events: seq<Event>): nat {
    if events == [] then 0
    else
      var before, kind := MaxTurn(events[..|events| - 1]), events[|events| - 1].kind;
      if kind.TurnStart? && kind.turn > before then kind.turn else before
  }

  lemma {:induction false} MaxTurnIsLast(events: seq<Event>)
    requires ShapeOf(events).Some?
    ensures MaxTurn(events) == ShapeOf(events).value.last
    decreases |events|
  {
    if events != [] {
      MaxTurnIsLast(events[..|events| - 1]);
    }
  }

  // ---- appends by others, and by a stream ----

  lemma {:induction false} OutsideKeeps(before: seq<Event>, after: seq<Event>)
    requires before <= after && ShapeOf(before).Some? && Faithful(before)
    requires forall i :: |before| <= i < |after| ==> Outside(after[i].kind)
    ensures ShapeOf(after) == ShapeOf(before) && Faithful(after)
    ensures forall turn, step :: LoggedText(after, turn, step) == LoggedText(before, turn, step)
    decreases |after|
  {
    if |after| == |before| {
      assert after == before;
    } else {
      var shorter, last := after[..|after| - 1], after[|after| - 1];
      OutsideKeeps(before, shorter);
      FaithfulAppend(shorter, last);
      assert shorter + [last] == after;
    }
  }

  lemma {:induction false} StreamKeeps(before: seq<Event>, after: seq<Event>, turn: nat, step: nat)
    requires before <= after && ShapeOf(before).Some? && Faithful(before)
    requires InStep(ShapeOf(before).value, turn, step) && !ShapeOf(before).value.spoke
    requires forall i :: |before| <= i < |after| ==> StepContent(after[i].kind, turn, step)
    ensures ShapeOf(after).Some? && SameStep(ShapeOf(before).value, ShapeOf(after).value) && Faithful(after)
    decreases |after|
  {
    if |after| == |before| {
      assert after == before;
    } else {
      var shorter, last := after[..|after| - 1], after[|after| - 1];
      StreamKeeps(before, shorter, turn, step);
      FaithfulAppend(shorter, last);
      assert shorter + [last] == after;
    }
  }

  // ---- the shape in terms of positions ----

  function Starts(events: seq<Event>, turn: nat): nat {
    if events == [] then 0
    else Starts(events[..|events| - 1], turn) + (if events[|events| - 1].kind == TurnStart(turn) then 1 else 0)
  }

  function Ends(events: seq<Event>, turn: nat): nat {
    if events == [] then 0
    else
      var kind := events[|events| - 1].kind;
      Ends(events[..|events| - 1], turn) + (if kind.TurnEnd? && kind.turn == turn then 1 else 0)
  }

  function StepStarts(events: seq<Event>, turn: nat, step: nat): nat {
    if events == [] then 0
    else
      StepStarts(events[..|events| - 1], turn, step)
      + (if events[|events| - 1].kind == StepStart(turn, step) then 1 else 0)
  }

  function StepEnds(events: seq<Event>, turn: nat, step: nat): nat {
    if events == [] then 0
    else
      StepEnds(events[..|events| - 1], turn, step)
      + (if events[|events| - 1].kind == StepEnd(turn, step) then 1 else 0)
  }

  /** Each turn that started has exactly one end, except those left open. */
  lemma {:induction false} TurnsBracketed(events: seq<Event>, turn: nat)
    requires ShapeOf(events).Some?
    ensures Starts(events, turn) <= 1
    ensures Starts(events, turn) == Ends(events, turn) + (if turn in Unclosed(ShapeOf(events).value) then 1 else 0)
    ensures turn > ShapeOf(events).value.last ==> Starts(events, turn) == 0
    decreases |events|
  {
    hide MayStart;
    if events != [] {
      OpenIsLast(events[..|events| - 1]);
      TurnsBracketed(events[..|events| - 1], turn);
    }
  }

  lemma {:induction false} StepsBracketed(events: seq<Event>, turn: nat, step: nat)
    requires ShapeOf(events).Some?
    ensures var shape := ShapeOf(events).value;
            && StepEnds(events, turn, step) <= StepStarts(events, turn, step) <= 1
            && (turn !in shape.left ==>
                  StepStarts(events, turn, step)
                    == StepEnds(events, turn, step) + (if InStep(shape, turn, step) then 1 else 0))
            && (turn > shape.last || (turn == shape.last && step > shape.step) ==> StepStarts(events, turn, step) == 0)
            && (turn == shape.last && 1 <= step <= shape.step ==> StepStarts(events, turn, step) == 1)
    decreases |events|
  {
    hide MayStart;
    if events != [] {
      OpenIsLast(events[..|events| - 1]);
      StepsBracketed(events[..|events| - 1], turn, step);
      ShapeStepped(events[..|events| - 1]);
    }
  }

  lemma {:induction false} ShapeStepped(events: seq<Event>)
    requires ShapeOf(events).Some?
    ensures ShapeOf(events).value.inStep ==> ShapeOf(events).value.open.Some? && ShapeOf(events).value.step > 0
    ensures ShapeOf(events).value.last == 0 ==> ShapeOf(events).value.step == 0 && ShapeOf(events).value.open.None?
    decreases |events|
  {
    if events != [] {
      ShapeStepped(events[..|events| - 1]);
    }
  }

  lemma NotInStep(events: seq<Event>)
    requires ShapeOf(events).Some? && ShapeOf(events).value.open.None?
    ensures !ShapeOf(events).value.inStep
  {
    ShapeStepped(events);
  }

  predicate IsOutput(kind: Kind) {
    kind.AssistantChunk? || kind.ProviderItem? || kind.ServerToolCall?
  }

  predicate SamePlace(before: Shape, after: Shape) {
    after.last == before.last && after.step == before.step
  }

  /** What one event does to a step's message and output. */
  lemma StepNext(shape: Shape, kind: Kind)
    requires Next(shape, kind).Some?
    ensures var next := Next(shape, kind).value;
            && next.last >= shape.last && (next.last == shape.last ==> next.step >= shape.step)
            && (IsOutput(kind) ==> InStep(shape, kind.turn, kind.step) && SamePlace(shape, next) && next.heard)
            && (!IsOutput(kind) ==> next.heard == (shape.heard && SamePlace(shape, next)))
            && (kind.AssistantMessage? ==>
                  InStep(shape, kind.turn, kind.step) && SamePlace(shape, next) && !shape.spoke && next.spoke)
            && (!kind.AssistantMessage? ==> next.spoke == (shape.spoke && SamePlace(shape, next)))
  {
    hide MayStart;
  }

  /** What one event does to the count of silent steps. */
  lemma SilentNext(shape: Shape, kind: Kind)
    requires Next(shape, kind).Some?
    ensures var next := Next(shape, kind).value;
            match kind
            case TurnStart(turn) => next.last > shape.last && next.step == 0 && !next.inStep && next.silent == 0
            case StepStart(_, _) =>
              && next.last == shape.last
              && next.step == shape.step + 1
              && !shape.inStep
              && next.inStep
              && next.silent == shape.silent
            case StepEnd(turn, step) =>
              && InStep(shape, turn, step) && SamePlace(shape, next) && !next.inStep
              && next.silent == shape.silent + (if shape.spoke then 0 else 1)
            case _ => SamePlace(shape, next) && next.inStep == shape.inStep && next.silent == shape.silent
  {
    hide MayStart;
  }

  function Messages(events: seq<Event>, turn: nat): nat {
    if events == [] then 0
    else
      var kind := events[|events| - 1].kind;
      Messages(events[..|events| - 1], turn) + (if kind.AssistantMessage? && kind.turn == turn then 1 else 0)
  }

  /** The last turn has one assistant message for each step that is not silent. */
  lemma {:induction false} MessagesCounted(events: seq<Event>, turn: nat)
    requires ShapeOf(events).Some? && turn >= ShapeOf(events).value.last
    ensures var shape := ShapeOf(events).value;
            if turn > shape.last then Messages(events, turn) == 0
            else Messages(events, turn) + shape.silent + (if shape.inStep && !shape.spoke then 1 else 0) == shape.step
    decreases |events|
  {
    hide MayStart, Next;
    if events != [] {
      OpenIsLast(events[..|events| - 1]);
      StepNext(ShapeOf(events[..|events| - 1]).value, events[|events| - 1].kind);
      SilentNext(ShapeOf(events[..|events| - 1]).value, events[|events| - 1].kind);
      ShapeStepped(events[..|events| - 1]);
      MessagesCounted(events[..|events| - 1], turn);
    }
  }

  // ---- whether turns overlap ----

  /** Whenever a turn starts, every turn before it has its end. */
  ghost predicate Sequential(events: seq<Event>) {
    forall j, turn :: 0 <= j < |events| && events[j].kind.TurnStart? ==>
      Starts(events[..j], turn) == Ends(events[..j], turn)
  }

  /** Turns overlap exactly when one was left open and another one started. */
  lemma {:induction false} SequentialUnlessLeft(events: seq<Event>)
    requires ShapeOf(events).Some?
    ensures Sequential(events) <==> ShapeOf(events).value.left == {}
    decreases |events|
  {
    if events != [] {
      var n := |events| - 1;
      var shorter, last := events[..n], events[n];
      SequentialUnlessLeft(shorter);
      forall j | 0 <= j < n ensures events[..j] == shorter[..j] && events[j] == shorter[j] {
      }
      assert Sequential(events) ==> Sequential(shorter);
      forall turn ensures Starts(shorter, turn) == Ends(shorter, turn) <==> turn !in Unclosed(ShapeOf(shorter).value) {
        TurnsBracketed(shorter, turn);
      }
      if last.kind.TurnStart? {
        var open := Unclosed(ShapeOf(shorter).value);
        if turn :| turn in open {
          assert Starts(events[..n], turn) != Ends(events[..n], turn);
        } else {
          assert open == {};
        }
      }
    }
  }

  // ---- steps that said nothing ----

  function StepMessages(events: seq<Event>, turn: nat, step: nat): nat {
    if events == [] then 0
    else
      var kind := events[|events| - 1].kind;
      StepMessages(events[..|events| - 1], turn, step)
      + (if kind.AssistantMessage? && kind.turn == turn && kind.step == step then 1 else 0)
  }

  /** How much provider output a step logged: chunks, items and provider-run calls. */
  function StepOutput(events: seq<Event>, turn: nat, step: nat): nat {
    if events == [] then 0
    else
      var kind := events[|events| - 1].kind;
      StepOutput(events[..|events| - 1], turn, step)
      + (if IsOutput(kind) && kind.turn == turn && kind.step == step then 1 else 0)
  }

  lemma {:induction false} SaidSoFar(events: seq<Event>, turn: nat, step: nat)
    requires ShapeOf(events).Some? && turn >= ShapeOf(events).value.last
    requires turn == ShapeOf(events).value.last ==> step >= ShapeOf(events).value.step
    ensures var shape := ShapeOf(events).value;
            StepMessages(events, turn, step)
            == if turn == shape.last && step == shape.step && step > 0 && shape.spoke then 1 else 0
    decreases |events|
  {
    hide MayStart, Next;
    if events != [] {
      OpenIsLast(events[..|events| - 1]);
      StepNext(ShapeOf(events[..|events| - 1]).value, events[|events| - 1].kind);
      ShapeStepped(events[..|events| - 1]);
      SaidSoFar(events[..|events| - 1], turn, step);
    }
  }

  lemma {:induction false} HeardSoFar(events: seq<Event>, turn: nat, step: nat)
    requires ShapeOf(events).Some? && turn >= ShapeOf(events).value.last
    requires turn == ShapeOf(events).value.last ==> step >= ShapeOf(events).value.step
    ensures var shape := ShapeOf(events).value;
            StepOutput(events, turn, step) > 0 <==> turn == shape.last && step == shape.step && step > 0 && shape.heard
    decreases |events|
  {
    hide MayStart, Next;
    if events != [] {
      OpenIsLast(events[..|events| - 1]);
      StepNext(ShapeOf(events[..|events| - 1]).value, events[|events| - 1].kind);
      ShapeStepped(events[..|events| - 1]);
      HeardSoFar(events[..|events| - 1], turn, step);
    }
  }

  /** What the current step said and heard is what the log has of it, and nothing
      is logged of later ones. */
  lemma StepSoFar(events: seq<Event>, turn: nat, step: nat)
    requires ShapeOf(events).Some? && turn >= ShapeOf(events).value.last
    requires turn == ShapeOf(events).value.last ==> step >= ShapeOf(events).value.step
    ensures var shape := ShapeOf(events).value;
            if turn == shape.last && step == shape.step && step > 0 then
              && StepMessages(events, turn, step) == (if shape.spoke then 1 else 0)
              && (StepOutput(events, turn, step) > 0 <==> shape.heard)
            else StepMessages(events, turn, step) == 0 && StepOutput(events, turn, step) == 0
  {
    SaidSoFar(events, turn, step);
    HeardSoFar(events, turn, step);
  }

  predicate StepClosed(shape: Shape, step: nat) {
    1 <= step <= shape.step && (shape.inStep ==> step < shape.step)
  }

  /** The silent steps of the last turn are among those the shape counts. */
  lemma {:induction false} SilentCounted(events: seq<Event>, first: nat, second: nat)
    requires ShapeOf(events).Some? && first <= second
    requires var shape := ShapeOf(events).value;
             && StepClosed(shape, first) && StepClosed(shape, second)
             && StepMessages(events, shape.last, first) == 0 && StepMessages(events, shape.last, second) == 0
    ensures ShapeOf(events).value.silent >= (if first < second then 2 else 1)
    decreases |events|, second
  {
    hide MayStart, Next;
    var shorter, last, shape := events[..|events| - 1], events[|events| - 1], ShapeOf(events).value;
    StepNext(ShapeOf(shorter).value, last.kind);
    SilentNext(ShapeOf(shorter).value, last.kind);
    if last.kind.StepEnd? && second == shape.step {
      StepSoFar(events, shape.last, second);
      OpenIsLast(shorter);
      if first < second {
        SilentCounted(shorter, first, first);
      }
    } else {
      SilentCounted(shorter, first, second);
    }
  }

  lemma {:induction false} ShapeOfPrefix(events: seq<Event>, k: nat)
    requires ShapeOf(events).Some? && k <= |events|
    ensures ShapeOf(events[..k]).Some?
    decreases |events|
  {
    if k < |events| {
      ShapeOfPrefix(events[..|events| - 1], k);
      assert events[..|events| - 1][..k] == events[..k];
    } else {
      assert events[..k] == events;
    }
  }

  lemma {:induction false} MessagesOfPrefix(events: seq<Event>, k: nat, turn: nat, step: nat)
    requires k <= |events|
    ensures StepMessages(events[..k], turn, step) <= StepMessages(events, turn, step)
    decreases |events|
  {
    if k < |events| {
      MessagesOfPrefix(events[..|events| - 1], k, turn, step);
      assert events[..|events| - 1][..k] == events[..k];
    } else {
      assert events[..k] == events;
    }
  }

  predicate StepPast(shape: Shape, turn: nat, step: nat) {
    turn < shape.last || (turn == shape.last && StepClosed(shape, step))
  }

  lemma {:induction false} PastStaysPast(events: seq<Event>, k: nat, turn: nat, step: nat)
    requires ShapeOf(events).Some? && k <= |events| && ShapeOf(events[..k]).Some?
    requires StepPast(ShapeOf(events[..k]).value, turn, step)
    ensures StepPast(ShapeOf(events).value, turn, step)
    decreases |events|
  {
    hide MayStart, Next;
    if k < |events| {
      StepNext(ShapeOf(events[..|events| - 1]).value, events[|events| - 1].kind);
      SilentNext(ShapeOf(events[..|events| - 1]).value, events[|events| - 1].kind);
      assert events[..|events| - 1][..k] == events[..k];
      PastStaysPast(events[..|events| - 1], k, turn, step);
    } else {
      assert events[..k] == events;
    }
  }

  /** A step that is over logs no more output and no more messages. */
  lemma {:induction false} PastIsQuiet(events: seq<Event>, k: nat, turn: nat, step: nat)
    requires ShapeOf(events).Some? && k <= |events| && ShapeOf(events[..k]).Some?
    requires StepPast(ShapeOf(events[..k]).value, turn, step)
    ensures StepOutput(events, turn, step) == StepOutput(events[..k], turn, step)
    ensures StepMessages(events, turn, step) == StepMessages(events[..k], turn, step)
    decreases |events|
  {
    hide MayStart, Next;
    if k < |events| {
      StepNext(ShapeOf(events[..|events| - 1]).value, events[|events| - 1].kind);
      SilentNext(ShapeOf(events[..|events| - 1]).value, events[|events| - 1].kind);
      var shorter := events[..|events| - 1];
      assert shorter[..k] == events[..k];
      PastIsQuiet(shorter, k, turn, step);
      PastStaysPast(shorter, k, turn, step);
      OpenIsLast(shorter);
    } else {
      assert events[..k] == events;
    }
  }

  /** Position j starts the step after one that has no message. */
  predicate AfterSilence(events: seq<Event>, j: nat, turn: nat, step: nat) {
    j < |events| && step > 0 && events[j].kind == StepStart(turn, step + 1) && StepMessages(events, turn, step) == 0
  }

  lemma BeforeNextStep(events: seq<Event>, j: nat, turn: nat, step: nat)
    requires ShapeOf(events).Some? && AfterSilence(events, j, turn, step)
    ensures ShapeOf(events[..j]).Some?
    ensures var shape := ShapeOf(events[..j]).value;
            && shape.open == Some(turn) && shape.last == turn && shape.step == step && !shape.inStep
            && !shape.spoke && shape.silent == 1 && !shape.heard && !shape.tools
  {
    ShapeOfPrefix(events, j + 1);
    assert events[..j + 1][..j] == events[..j];
    OpenIsLast(events[..j]);
    MessagesOfPrefix(events, j, turn, step);
    StepSoFar(events[..j], turn, step);
  }

  /** A turn goes on after a step without message only if nothing was heard in
      that step, ever, and the turn had logged no tool call by then. */
  lemma SilentStepHeardNothing(events: seq<Event>, j: nat, turn: nat, step: nat)
    requires ShapeOf(events).Some? && AfterSilence(events, j, turn, step)
    ensures StepOutput(events, turn, step) == 0 && !ToolsLogged(events[..j], turn)
  {
    BeforeNextStep(events, j, turn, step);
    StepSoFar(events[..j], turn, step);
    PastIsQuiet(events, j, turn, step);
    ToolsAreLogged(events[..j], turn);
  }

  /** And it does so at most once. */
  lemma OneSilentStep(events: seq<Event>, i: nat, j: nat, turn: nat, first: nat, second: nat)
    requires ShapeOf(events).Some?
    requires AfterSilence(events, i, turn, first) && AfterSilence(events, j, turn, second)
    ensures first == second
  {
    if first != second {
      var k := if first < second then j else i;
      var late, early := if first < second then second else first, if first < second then first else second;
      BeforeNextStep(events, k, turn, late);
      MessagesOfPrefix(events, k, turn, early);
      MessagesOfPrefix(events, k, turn, late);
      SilentCounted(events[..k], early, late);
      assert false;
    }
  }
}
