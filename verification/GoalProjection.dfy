/** Replay of the goal domain: revisions under compare-and-swap, lifecycle
    transitions, and rounds that are admitted when the inbox hands them over. */
module GoalProjection {
  import opened SessionEvents
  import I = InboxProjection

  const MAX_ROUNDS: nat := 1_000_000

  datatype View = View(goal: Goal, roundsStarted: nat, createdAt: int, updatedAt: int)

  datatype Round = Round(text: Text, id: Id, revision: nat, round: nat)

  /** `admission` is a claimed round whose user message must come next. */
  datatype State = State(current: Option<View>, seen: set<Id>, admission: Option<Round>)

  const NO_GOAL := State(None, {}, None)

  function Raise(revision: nat): nat {
    if revision < U64_MAX then revision + 1 else revision
  }

  predicate ValidGoal(goal: Goal) {
    goal.revision >= 1 && goal.maxRounds <= MAX_ROUNDS && (goal.phase.Blocked? <==> goal.reason.Some?)
  }

  predicate SameDefinition(first: Goal, second: Goal) {
    first.objective == second.objective && first.maxRounds == second.maxRounds
  }

  predicate Transition(current: View, action: GoalAction, next: Goal) {
    var previous := current.goal;
    match action
    case CreateGoal => false
    case EditGoal => next.phase == previous.phase && next.reason == previous.reason
    case PauseGoal => SameDefinition(previous, next) && previous.phase.Active? && next.phase.Paused?
    case ResumeGoal =>
      SameDefinition(previous, next) && !previous.phase.Complete? && next.phase.Active?
      && !(next.maxRounds != 0 && current.roundsStarted >= next.maxRounds)
    case CompleteGoal => SameDefinition(previous, next) && !previous.phase.Complete? && next.phase.Complete?
    case BlockGoal => SameDefinition(previous, next) && previous.phase.Active? && next.phase.Blocked?
  }

  predicate Creates(state: State, edit: GoalEdit)
    requires edit.Snapshot?
  {
    && edit.goal.revision == 1 && edit.roundsStarted == 0 && edit.createdAt == edit.updatedAt && edit.goal.phase.Active?
    && edit.goal.id !in state.seen && (state.current.Some? ==> state.current.value.goal.phase.Complete?)
  }

  predicate Mutates(current: View, edit: GoalEdit)
    requires edit.Snapshot?
  {
    && edit.goal.id == current.goal.id && edit.goal.revision == Raise(current.goal.revision)
    && edit.roundsStarted == current.roundsStarted
    && edit.createdAt == current.createdAt
    && edit.updatedAt >= current.updatedAt
    && Transition(current, edit.action, edit.goal)
  }

  function ApplyEdit(state: State, edit: GoalEdit): Option<State> {
    match edit
    case Snapshot(action, goal, roundsStarted, createdAt, updatedAt) =>
      if !ValidGoal(goal) then None
      else if action.CreateGoal? then
        (if Creates(state, edit)
          then Some(state.(current := Some(View(goal, 0, createdAt, updatedAt)), seen := state.seen + {goal.id}))
          else None)
      else if state.current.Some? && Mutates(state.current.value, edit)
      then Some(state.(current := Some(View(goal, roundsStarted, createdAt, updatedAt)))) else None
    case Clear(cleared, clearedAt) =>
      if state.current.Some? && cleared.id == state.current.value.goal.id
         && cleared.revision == Raise(state.current.value.goal.revision) && clearedAt >= state.current.value.updatedAt
      then Some(state.(current := None)) else None
  }

  /** A round may start: it is the next one of the current revision. */
  predicate MayStart(state: State, id: Id, revision: nat, round: nat) {
    && state.current.Some? && state.current.value.goal.id == id && state.current.value.goal.revision == revision
    && round == state.current.value.roundsStarted + 1
    && (state.current.value.goal.maxRounds != 0 ==> round <= state.current.value.goal.maxRounds)
  }

  function Admit(state: State, kind: Kind): Option<State> {
    if state.admission.None? then Some(state)
    else
      var r := state.admission.value;
      if kind == UserMessage(r.text) && MayStart(state, r.id, r.revision, r.round)
      then Some(state.(current := Some(state.current.value.(roundsStarted := r.round)), admission := None)) else None
  }

  function GoalRounds(messages: seq<Message>): seq<Round> {
    if messages == [] then []
    else
      var last := messages[|messages| - 1];
      GoalRounds(messages[..|messages| - 1])
      + (if last.source.GoalRound? then [Round(last.text, last.source.goalId, last.source.revision, last.source.round)]
        else [])
  }

  /** The rounds that an event takes out of the inbox for the agent. */
  function Claimed(inbox: I.Inbox, kind: Kind): seq<Round>
    requires I.Admissible(inbox, kind)
  {
    if kind.InboxSplice? && !kind.canceled
    then GoalRounds(inbox.Queue(kind.target)[kind.start..kind.start + I.Removed(kind)])
    else []
  }

  function Step(state: State, inbox: I.Inbox, kind: Kind): Option<State>
    requires I.Admissible(inbox, kind)
  {
    var admitted := Admit(state, kind);
    if admitted.None? then None else
    var changed := if kind.GoalChange? then ApplyEdit(admitted.value, kind.goal) else admitted;
    if changed.None? then None else
    var claims := Claimed(inbox, kind);
    if |claims| > 1 then None
    else if |claims| == 1 then Some(changed.value.(admission := Some(claims[0])))
    else changed
  }

  function Replay(events: seq<Event>): Option<State> {
    if events == [] then Some(NO_GOAL)
    else
      var init, kind := events[..|events| - 1], events[|events| - 1].kind;
      var before, inbox := Replay(init), I.Project(init);
      if before.None? || inbox.None? || !I.Admissible(inbox.value, kind) then None
        else Step(before.value, inbox.value, kind)
  }

  lemma ReplayAppend(events: seq<Event>, event: Event)
    ensures Replay(events + [event]) ==
            if Replay(events).None? || I.Project(events).None? || !I.Admissible(I.Project(events).value, event.kind)
              then None
            else Step(Replay(events).value, I.Project(events).value, event.kind)
  {
    assert (events + [event])[..|events|] == events;
  }

  /** The goal history of a log, unless a claimed round still waits for its message. */
  function ProjectGoal(events: seq<Event>): Option<State> {
    var state := Replay(events);
    if state.Some? && state.value.admission.None? then state else None
  }

  // ---- one mutation per revision ----

  function RefOf(edit: GoalEdit): GoalRef {
    match edit
    case Snapshot(_, goal, _, _, _) => goal.Reference()
    case Clear(cleared, _) => cleared
  }

  /** How many logged changes produced a revision. */
  function Changes(events: seq<Event>, reference: GoalRef): nat {
    if events == [] then 0
    else
      var kind := events[|events| - 1].kind;
      Changes(events[..|events| - 1], reference) + (if kind.GoalChange? && RefOf(kind.goal) == reference then 1 else 0)
  }

  ghost predicate OncePerRevision(events: seq<Event>) {
    forall reference: GoalRef :: reference.revision < U64_MAX ==> Changes(events, reference) <= 1
  }

  lemma ReadableIsOnce(events: seq<Event>)
    requires Replay(events).Some?
    ensures OncePerRevision(events)
  {
    hide Replay, Changes;
    forall reference: GoalRef | reference.revision < U64_MAX ensures Changes(events, reference) <= 1 {
      OneChangePerRevision(events, reference);
    }
  }

  lemma OnceKept(events: seq<Event>, event: Event)
    requires OncePerRevision(events) && !event.kind.GoalChange?
    ensures OncePerRevision(events + [event])
  {
    assert (events + [event])[..|events|] == events;
    assert forall reference: GoalRef :: Changes(events + [event], reference) == Changes(events, reference);
  }

  predicate Ahead(state: State, reference: GoalRef) {
    && state.current.Some?
    && state.current.value.goal.id == reference.id
    && reference.revision > state.current.value.goal.revision
  }

  /** Each revision of each goal is produced by at most one change; the counter
      saturates only at the end of 64 bits. */
  lemma {:induction false} OneChangePerRevision(events: seq<Event>, reference: GoalRef)
    requires Replay(events).Some? && reference.revision < U64_MAX
    ensures var state := Replay(events).value;
            && Changes(events, reference) <= 1
            && (state.current.Some? ==> state.current.value.goal.id in state.seen)
            && (reference.id !in state.seen ==> Changes(events, reference) == 0)
            && (Ahead(state, reference) ==> Changes(events, reference) == 0)
    decreases |events|
  {
    if events != [] {
      var init, kind := events[..|events| - 1], events[|events| - 1].kind;
      OneChangePerRevision(init, reference);
      AdmitKeeps(Replay(init).value, kind);
    }
  }

  lemma AdmitKeeps(state: State, kind: Kind)
    requires Admit(state, kind).Some?
    ensures var next := Admit(state, kind).value;
            && next.seen == state.seen && (next.current.Some? <==> state.current.Some?)
            && (next.current.Some? ==> next.current.value.goal == state.current.value.goal)
  {
  }

  /** A replayed goal is well formed, and its id is taken. */
  lemma {:induction false} CurrentIsWellFormed(events: seq<Event>)
    requires Replay(events).Some?
    ensures var state := Replay(events).value;
            state.current.Some? ==> ValidGoal(state.current.value.goal) && state.current.value.goal.id in state.seen
    decreases |events|
  {
    if events != [] {
      hide Claimed, GoalRounds, I.Project, I.Admissible, Transition;
      CurrentIsWellFormed(events[..|events| - 1]);
      AdmitKeeps(Replay(events[..|events| - 1]).value, events[|events| - 1].kind);
    }
  }

  // ---- the life of a goal ----

  /** The moves between phases that a change of each kind can make. */
  const MOVES: set<(GoalAction, Phase, Phase)> := {
    (PauseGoal, Active, Paused), (BlockGoal, Active, Blocked),
    (ResumeGoal, Active, Active), (ResumeGoal, Paused, Active), (ResumeGoal, Blocked, Active),
    (CompleteGoal, Active, Complete), (CompleteGoal, Paused, Complete), (CompleteGoal, Blocked, Complete),
    (EditGoal, Active, Active), (EditGoal, Paused, Paused), (EditGoal, Blocked, Blocked),
    (EditGoal, Complete, Complete)
  }

  /** A change of the current goal is accepted exactly if it makes one of the moves
      to the next revision, with counters that do not go back; an edit keeps the
      reason, any other change keeps the definition, and nothing resumes a goal
      whose rounds are used up. */
  lemma AcceptedChange(
    state: State, action: GoalAction, goal: Goal, roundsStarted: nat, createdAt: int, updatedAt: int)
    requires state.current.Some? && !action.CreateGoal?
    ensures var before := state.current.value;
            ApplyEdit(state, Snapshot(action, goal, roundsStarted, createdAt, updatedAt)).Some? <==>
              && (action, before.goal.phase, goal.phase) in MOVES
              && goal.id == before.goal.id && goal.revision >= 1
              && goal.revision == before.goal.revision + (if before.goal.revision < U64_MAX then 1 else 0)
              && goal.maxRounds <= 1_000_000 && (goal.phase == Blocked <==> goal.reason.Some?)
              && roundsStarted == before.roundsStarted && createdAt == before.createdAt && updatedAt >= before.updatedAt
              && (if action == EditGoal then goal.reason == before.goal.reason
                  else goal.objective == before.goal.objective && goal.maxRounds == before.goal.maxRounds)
              && (action == ResumeGoal ==> goal.maxRounds == 0 || roundsStarted < goal.maxRounds)
  {
  }

  /** A goal is created over no goal or a finished one, under an id never used
      before, as an active first revision without rounds. */
  lemma AcceptedCreation(state: State, goal: Goal, roundsStarted: nat, createdAt: int, updatedAt: int)
    ensures ApplyEdit(state, Snapshot(CreateGoal, goal, roundsStarted, createdAt, updatedAt)).Some? <==>
              && goal.id !in state.seen && (state.current.Some? ==> state.current.value.goal.phase == Complete)
              && goal.phase == Active && goal.reason == None && goal.revision == 1 && goal.maxRounds <= 1_000_000
              && roundsStarted == 0 && createdAt == updatedAt
  {
  }

  /** The current goal is cleared exactly by its next revision, not before its last
      change; then there is none, and its id stays taken. */
  lemma AcceptedClear(state: State, cleared: GoalRef, clearedAt: int)
    ensures var next := ApplyEdit(state, Clear(cleared, clearedAt));
            && (next.Some? <==>
                  && state.current.Some? && cleared.id == state.current.value.goal.id
                  && cleared.revision == Raise(state.current.value.goal.revision)
                  && clearedAt >= state.current.value.updatedAt)
            && (next.Some? ==> next.value == state.(current := None))
  {
  }

  /** What stays of a goal while it is the current one. */
  ghost predicate LivesOn(before: View, after: View) {
    && after.createdAt == before.createdAt && after.updatedAt >= before.updatedAt
    && after.goal.revision >= before.goal.revision && after.roundsStarted >= before.roundsStarted
    && (before.goal.phase.Complete? ==> after.goal.phase.Complete?)
  }

  predicate IsEdit(kind: Kind) {
    kind.GoalChange? && kind.goal.Snapshot? && kind.goal.action.EditGoal?
  }

  ghost predicate Edited(events: seq<Event>, n: nat) {
    exists i :: n <= i < |events| && IsEdit(events[i].kind)
  }

  lemma EditedMore(events: seq<Event>, n: nat)
    requires n < |events|
    ensures Edited(events[..|events| - 1], n) || IsEdit(events[|events| - 1].kind) ==> Edited(events, n)
  {
    var init := events[..|events| - 1];
    if i :| n <= i < |init| && IsEdit(init[i].kind) {
      assert IsEdit(events[i].kind);
    }
  }

  /** One event in the life of a goal. */
  lemma OneEvent(state: State, inbox: I.Inbox, kind: Kind)
    requires I.Admissible(inbox, kind) && Step(state, inbox, kind).Some?
    ensures var next := Step(state, inbox, kind).value;
            && state.seen <= next.seen
            && (next.current.Some? && next.current.value.goal.id in state.seen ==>
                  && state.current.Some? && state.current.value.goal.id == next.current.value.goal.id
                  && LivesOn(state.current.value, next.current.value)
                  && (IsEdit(kind)
                      || (next.current.value.goal.objective == state.current.value.goal.objective
                          && next.current.value.goal.maxRounds == state.current.value.goal.maxRounds)))
  {
    hide Claimed;
  }

  /** Over any stretch of a readable log in which a goal is current at both ends,
      its creation time, its completion, its counters and times stand, and only an
      edit changes what it asks for. */
  lemma {:induction false} GoalLife(events: seq<Event>, n: nat)
    requires n <= |events| && Replay(events).Some? && Replay(events[..n]).Some?
    requires Replay(events[..n]).value.current.Some? && Replay(events).value.current.Some?
    requires Replay(events[..n]).value.current.value.goal.id == Replay(events).value.current.value.goal.id
    ensures var before, after := Replay(events[..n]).value.current.value, Replay(events).value.current.value;
            && LivesOn(before, after)
            && (Edited(events, n) || (after.goal.objective == before.goal.objective
                                      && after.goal.maxRounds == before.goal.maxRounds))
    decreases |events|
  {
    if n == |events| {
      assert events[..n] == events;
    } else {
      hide I.Project, I.Admissible, Step;
      var init := events[..|events| - 1];
      assert init[..n] == events[..n];
      SeenGrows(init, n);
      CurrentIsWellFormed(events[..n]);
      OneEvent(Replay(init).value, I.Project(init).value, events[|events| - 1].kind);
      GoalLife(init, n);
      EditedMore(events, n);
    }
  }

  lemma {:induction false} SeenGrows(events: seq<Event>, n: nat)
    requires n <= |events| && Replay(events).Some?
    ensures Replay(events[..n]).Some? && Replay(events[..n]).value.seen <= Replay(events).value.seen
    decreases |events|
  {
    if n == |events| {
      assert events[..n] == events;
    } else {
      hide I.Project, I.Admissible, Step;
      var init := events[..|events| - 1];
      assert init[..n] == events[..n];
      OneEvent(Replay(init).value, I.Project(init).value, events[|events| - 1].kind);
      SeenGrows(init, n);
    }
  }

  ghost predicate WithinLimit(view: View) {
    view.goal.maxRounds == 0 || view.roundsStarted <= view.goal.maxRounds
  }

  /** In a readable log no goal has more rounds than its limit, unless an edit
      lowered the limit below them. */
  lemma {:induction false} RoundsWithinLimit(events: seq<Event>)
    requires Replay(events).Some? && Replay(events).value.current.Some?
    ensures WithinLimit(Replay(events).value.current.value)
            || exists i :: 0 <= i < |events| && LowersLimit(events[i].kind)
    decreases |events|
  {
    hide I.Project, I.Admissible, Step;
    var init := events[..|events| - 1];
    var kind := events[|events| - 1].kind;
    OneRound(Replay(init).value, I.Project(init).value, kind);
    if Replay(init).value.current.Some? && !LowersLimit(kind) {
      RoundsWithinLimit(init);
    }
    assert LowersLimit(kind) ==> LowersLimit(events[|events| - 1].kind);
  }

  ghost predicate LowersLimit(kind: Kind) {
    IsEdit(kind) && 0 < kind.goal.goal.maxRounds < kind.goal.roundsStarted
  }

  lemma OneRound(state: State, inbox: I.Inbox, kind: Kind)
    requires I.Admissible(inbox, kind) && Step(state, inbox, kind).Some?
    ensures var next := Step(state, inbox, kind).value;
            next.current.Some? && (state.current.Some? ==> WithinLimit(state.current.value)) ==>
              WithinLimit(next.current.value) || LowersLimit(kind)
  {
    hide Claimed;
  }

  // ---- rounds that wait in the inbox ----

  /** Whatever waits in the inbox for this state can be admitted: at most one
      round, and it is the next one. */
  ghost predicate Ready(state: State, inbox: I.Inbox) {
    var rounds := GoalRounds(inbox.Pending());
    && |rounds| <= 1
    && forall i :: 0 <= i < |rounds| ==> MayStart(state, rounds[i].id, rounds[i].revision, rounds[i].round)
  }

  lemma {:induction false} GoalRoundsConcat(left: seq<Message>, right: seq<Message>)
    ensures GoalRounds(left + right) == GoalRounds(left) + GoalRounds(right)
    decreases |right|
  {
    if right == [] {
      assert left + right == left;
    } else {
      GoalRoundsConcat(left, right[..|right| - 1]);
      assert (left + right)[..|left + right| - 1] == left + right[..|right| - 1];
    }
  }

  /** A splice keeps the rounds of what it leaves, and adds those it inserts. */
  lemma RoundsAfter(inbox: I.Inbox, kind: Kind)
    requires I.Admissible(inbox, kind) && kind.InboxSplice?
    ensures var queue, end := inbox.Queue(kind.target), kind.start + I.Removed(kind);
            var gone := GoalRounds(queue[kind.start..end]);
            var before, after := GoalRounds(inbox.Pending()), GoalRounds(I.Apply(inbox, kind).Pending());
            && |before| - |gone| + |GoalRounds(kind.inserted)| == |after|
            && (forall r :: r in after ==> r in before || r in GoalRounds(kind.inserted))
            && (forall r :: r in gone ==> r in before)
  {
    var queue, end, next := inbox.Queue(kind.target), kind.start + I.Removed(kind), I.Apply(inbox, kind);
    I.ApplyShape(inbox, kind);
    hide I.Apply, I.Admissible, GoalRounds;
    var left, gone, right := queue[..kind.start], queue[kind.start..end], queue[end..];
    assert queue == left + gone + right;
    GoalRoundsConcat(left + gone, right);
    GoalRoundsConcat(left, gone);
    GoalRoundsConcat(left + kind.inserted, right);
    GoalRoundsConcat(left, kind.inserted);
    GoalRoundsConcat(inbox.nextTurn, inbox.nextStep);
    GoalRoundsConcat(next.nextTurn, next.nextStep);
    var other := if kind.target.NextTurn? then NextStep else NextTurn;
    assert next.Queue(other) == inbox.Queue(other);
  }

  /** An append of anyone else: no goal change, no new round, no round claimed. */
  predicate LeavesGoal(inbox: I.Inbox, kind: Kind)
    requires I.Admissible(inbox, kind)
  {
    && !kind.GoalChange? && (kind.InboxSplice? ==> GoalRounds(kind.inserted) == []) && Claimed(inbox, kind) == []
  }

  lemma LeavesReady(events: seq<Event>, event: Event, inbox: I.Inbox)
    requires I.Project(events) == Some(inbox) && I.Admissible(inbox, event.kind) && LeavesGoal(inbox, event.kind)
    requires ProjectGoal(events).Some?
    ensures ProjectGoal(events + [event]) == ProjectGoal(events)
    ensures Ready(ProjectGoal(events).value, inbox) ==> Ready(ProjectGoal(events).value, I.Apply(inbox, event.kind))
  {
    ReplayAppend(events, event);
    if event.kind.InboxSplice? {
      RoundsAfter(inbox, event.kind);
      hide GoalRounds, I.Apply, MayStart, Replay;
      var before, after := GoalRounds(inbox.Pending()), GoalRounds(I.Apply(inbox, event.kind).Pending());
      if Ready(ProjectGoal(events).value, inbox) {
        forall i | 0 <= i < |after|
          ensures MayStart(ProjectGoal(events).value, after[i].id, after[i].revision, after[i].round)
        {
          assert after[i] in before;
        }
      }
    }
  }

  lemma {:induction false} RoundIn(messages: seq<Message>, message: Message)
    requires message in messages && message.source.GoalRound?
    ensures GoalRounds(messages) != []
    decreases |messages|
  {
    if message != messages[|messages| - 1] {
      RoundIn(messages[..|messages| - 1], message);
    }
  }

  /** An append that brings no round leaves fewer if one is gone, and the same ones otherwise. */
  lemma RoundsLeft(inbox: I.Inbox, kind: Kind)
    requires I.Admissible(inbox, kind) && (kind.InboxSplice? ==> GoalRounds(kind.inserted) == [])
    ensures var before, after := GoalRounds(inbox.Pending()), GoalRounds(I.Apply(inbox, kind).Pending());
            && |after| <= |before| && (forall r :: r in after ==> r in before)
            && forall m :: m in inbox.Pending() && m.source.GoalRound? && m !in I.Apply(inbox, kind).Pending() ==>
               |after| < |before|
  {
    if kind.InboxSplice? {
      RoundsAfter(inbox, kind);
      hide I.Apply, I.Admissible, GoalRounds;
      forall m | m in inbox.Pending() && m.source.GoalRound? && m !in I.Apply(inbox, kind).Pending()
        ensures GoalRounds(inbox.Queue(kind.target)[kind.start..kind.start + I.Removed(kind)]) != []
      {
        GoneWasRemoved(inbox, kind, m);
        RoundIn(inbox.Queue(kind.target)[kind.start..kind.start + I.Removed(kind)], m);
      }
    } else {
      I.AdmissionKeeps(inbox, kind);
    }
  }

  lemma GoneWasRemoved(inbox: I.Inbox, kind: Kind, message: Message)
    requires I.Admissible(inbox, kind) && kind.InboxSplice?
    requires message in inbox.Pending() && message !in I.Apply(inbox, kind).Pending()
    ensures message in inbox.Queue(kind.target)[kind.start..kind.start + I.Removed(kind)]
  {
    I.ApplyShape(inbox, kind);
    hide I.Apply, I.Admissible, GoalRounds;
    var queue, start, end := inbox.Queue(kind.target), kind.start, kind.start + I.Removed(kind);
    var next := I.Apply(inbox, kind);
    assert next.Queue(kind.target) == queue[..start] + kind.inserted + queue[end..];
    assert message in queue;
    var k :| 0 <= k < |queue| && queue[k] == message;
    assert start <= k < end;
    assert queue[start..end][k - start] == message;
  }

  function RoundOf(message: Message): seq<Round> {
    if message.source.GoalRound?
      then [Round(message.text, message.source.goalId, message.source.revision, message.source.round)] else []
  }

  lemma ClaimsOne(inbox: I.Inbox, kind: Kind)
    requires I.Admissible(inbox, kind) && kind.InboxSplice? && kind.removed == Some(1) && !kind.canceled
    ensures Claimed(inbox, kind) == RoundOf(inbox.Queue(kind.target)[kind.start])
  {
    var message := inbox.Queue(kind.target)[kind.start];
    assert inbox.Queue(kind.target)[kind.start..kind.start + 1] == [message];
    assert [message][..0] == [] && GoalRounds([]) == [];
  }

  function Started(state: State, rounds: seq<Round>): State {
    if rounds != [] && state.current.Some?
      then state.(current := Some(state.current.value.(roundsStarted := rounds[0].round))) else state
  }

  lemma ClaimReplays(events: seq<Event>, removal: Event, admission: Event, inbox: I.Inbox)
    requires I.Project(events) == Some(inbox) && I.Admissible(inbox, removal.kind) && ProjectGoal(events).Some?
    requires removal.kind.InboxSplice? && removal.kind.removed == Some(1) && !removal.kind.canceled
    requires admission.kind == UserMessage(inbox.Queue(removal.kind.target)[removal.kind.start].text)
    requires var rounds := Claimed(inbox, removal.kind);
             rounds != [] ==> MayStart(ProjectGoal(events).value, rounds[0].id, rounds[0].revision, rounds[0].round)
    ensures ProjectGoal(events + [removal, admission])
            == Some(Started(ProjectGoal(events).value, Claimed(inbox, removal.kind)))
  {
    hide ApplyEdit, GoalRounds, I.Apply, I.Project, Replay, ValidGoal;
    assert events + [removal, admission] == (events + [removal]) + [admission];
    ClaimsOne(inbox, removal.kind);
    ReplayAppend(events, removal);
    ReplayAppend(events + [removal], admission);
    I.ProjectAppend(events, removal);
    I.AdmissionKeeps(I.Apply(inbox, removal.kind), admission.kind);
  }

  /** A claim with its user message: a waiting round starts, anything else passes,
      and a round that may not start makes the history unreadable. */
  lemma ClaimReady(events: seq<Event>, removal: Event, admission: Event, inbox: I.Inbox)
    requires I.Project(events) == Some(inbox) && I.Admissible(inbox, removal.kind)
    requires removal.kind.InboxSplice? && removal.kind.removed == Some(1) && removal.kind.inserted == []
    requires !removal.kind.canceled
    requires admission.kind == UserMessage(inbox.Queue(removal.kind.target)[removal.kind.start].text)
    requires ProjectGoal(events).Some?
    ensures var state, claims := ProjectGoal(events).value, Claimed(inbox, removal.kind);
            var all := events + [removal, admission];
            && |claims| <= 1
            && (if claims == [] || MayStart(state, claims[0].id, claims[0].revision, claims[0].round)
                then ProjectGoal(all) == Some(Started(state, claims)) else Replay(all).None?)
            && (Ready(state, inbox) ==>
                  ProjectGoal(all).Some? && Ready(ProjectGoal(all).value, I.Apply(inbox, removal.kind)))
  {
    hide Replay, I.Project, I.Apply, GoalRounds, MayStart, I.Admissible, ProjectGoal;
    var before, after := GoalRounds(inbox.Pending()), GoalRounds(I.Apply(inbox, removal.kind).Pending());
    var state, claims := ProjectGoal(events).value, Claimed(inbox, removal.kind);
    ClaimsOne(inbox, removal.kind);
    RoundsAfter(inbox, removal.kind);
    NoRounds(removal.kind.inserted);
    if claims == [] || MayStart(state, claims[0].id, claims[0].revision, claims[0].round) {
      ClaimReplays(events, removal, admission, inbox);
    } else {
      StaleRoundRuins(events, removal, admission, inbox);
    }
    if Ready(state, inbox) {
      if claims != [] {
        assert claims[0] in before;
      }
      forall i | 0 <= i < |after|
        ensures MayStart(Started(state, claims), after[i].id, after[i].revision, after[i].round)
      {
        assert after[i] in before;
      }
    }
  }

  lemma NoRounds(messages: seq<Message>)
    requires messages == []
    ensures GoalRounds(messages) == []
  {
  }

  /** A round of an outdated revision that is claimed ruins the whole history:
      no later event makes the log readable again. */
  lemma StaleRoundRuins(events: seq<Event>, removal: Event, next: Event, inbox: I.Inbox)
    requires I.Project(events) == Some(inbox) && I.Admissible(inbox, removal.kind) && ProjectGoal(events).Some?
    requires |Claimed(inbox, removal.kind)| == 1
    requires var r := Claimed(inbox, removal.kind)[0]; !MayStart(ProjectGoal(events).value, r.id, r.revision, r.round)
    ensures ProjectGoal(events + [removal]).None? && Replay(events + [removal, next]).None?
  {
    hide ApplyEdit, GoalRounds, I.Apply, I.Project, Replay, ValidGoal;
    assert events + [removal, next] == (events + [removal]) + [next];
    ReplayAppend(events, removal);
    ReplayAppend(events + [removal], next);
  }
}
