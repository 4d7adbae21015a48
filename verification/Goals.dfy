/** The goal service: compare-and-swap mutations of one durable goal, and rounds
    submitted on its behalf while it is armed. A round is checked in one section
    and submitted in a later one; what commits between them decides whether the
    history stays readable. */
module Goals {
  import opened SessionEvents
  import opened Sessions
  import opened GoalProjection
  import I = InboxProjection
  import Inbox = InboxOperations

  datatype GoalError =
    | AlreadyExists
    | NotFound
    | StaleRevision
    | InvalidTransition
    | InvalidRounds
    | InvalidObjective
    | Persistence
    | Unavailable

  datatype Effect = Arm | Disarm | Retain

  /** The goal, its revision and its limits; rounds may have started meanwhile. */
  predicate SameGoal(before: State, after: State) {
    && after.seen == before.seen && (after.current.Some? <==> before.current.Some?)
    && (before.current.Some? ==>
          && after.current.value.goal == before.current.value.goal
          && after.current.value.createdAt == before.current.value.createdAt
          && after.current.value.updatedAt == before.current.value.updatedAt
          && before.current.value.roundsStarted <= after.current.value.roundsStarted)
  }

  /** The first pending round of a goal. */
  function FindRound(messages: seq<Message>, goalId: Id): (found: Option<Message>)
    ensures found.Some? ==>
              found.value in messages && found.value.source.GoalRound? && found.value.source.goalId == goalId
    ensures found.None? ==> forall m :: m in messages && m.source.GoalRound? ==> m.source.goalId != goalId
  {
    if messages == [] then None
    else if messages[0].source.GoalRound? && messages[0].source.goalId == goalId then Some(messages[0])
    else
      assert forall m :: m in messages <==> m == messages[0] || m in messages[1..];
      FindRound(messages[1..], goalId)
  }

  lemma {:induction false} NoRoundsOf(messages: seq<Message>, goalId: Id)
    requires forall m :: m in messages && m.source.GoalRound? ==> m.source.goalId != goalId
    ensures forall i :: 0 <= i < |GoalRounds(messages)| ==> GoalRounds(messages)[i].id != goalId
    decreases |messages|
  {
    if messages != [] {
      assert forall m :: m in messages[..|messages| - 1] ==> m in messages;
      assert messages[|messages| - 1] in messages;
      NoRoundsOf(messages[..|messages| - 1], goalId);
    }
  }

  lemma CancelsRound(events: seq<Event>, inbox: I.Inbox, message: Message, splice: Kind)
    requires I.Project(events) == Some(inbox) && message in inbox.Pending() && message.source.GoalRound?
    requires Inbox.Locate(inbox, message.id).Some?
    requires var found := Inbox.Locate(inbox, message.id).value;
             splice == InboxSplice(found.0, found.1, Some(1), [], true)
    requires I.Admissible(inbox, splice)
    ensures |GoalRounds(I.Apply(inbox, splice).Pending())| == |GoalRounds(inbox.Pending())| - 1
    ensures LeavesGoal(inbox, splice)
  {
    hide GoalRounds, I.Tidy, I.Apply, I.Project, I.Admissible, Inbox.Locate;
    I.AlwaysTidy(events);
    var found := Inbox.Locate(inbox, message.id).value;
    var located := inbox.Queue(found.0)[found.1];
    SameMessage(inbox, located, message);
    RoundsAfter(inbox, splice);
    NoRounds(splice.inserted);
    assert inbox.Queue(found.0)[found.1..found.1 + 1] == [message];
    OneRound(message);
  }

  lemma OneRound(message: Message)
    requires message.source.GoalRound?
    ensures |GoalRounds([message])| == 1
  {
    assert [message][..0] == [] && GoalRounds([]) == [];
  }

  lemma SameMessage(inbox: I.Inbox, first: Message, second: Message)
    requires I.Tidy(inbox) && first in inbox.Pending() && second in inbox.Pending() && first.id == second.id
    ensures first == second
  {
    I.DistinctJoin(inbox.nextTurn, inbox.nextStep);
    var i :| 0 <= i < |inbox.Pending()| && inbox.Pending()[i] == first;
    var j :| 0 <= j < |inbox.Pending()| && inbox.Pending()[j] == second;
  }

  function PhaseAfter(action: GoalAction): Phase {
    match action
    case PauseGoal => Paused
    case CompleteGoal => Complete
    case BlockGoal => Blocked
    case _ => Active
  }

  function EditedGoal(view: View, objective: Option<string>, maxRounds: Option<nat>): Result<Goal, GoalError> {
    var rounds := if maxRounds.Some? then maxRounds.value else view.goal.maxRounds;
    if rounds < view.roundsStarted || rounds > MAX_ROUNDS then Err(InvalidRounds)
    else Ok(view.goal.(revision := Raise(view.goal.revision), maxRounds := rounds,
                       objective := if objective.Some? then objective.value else view.goal.objective))
  }

  function MovedGoal(view: View, action: GoalAction, reason: Option<string>): Result<Goal, GoalError> {
    if action.ResumeGoal?
      && (view.goal.phase.Complete? || (view.goal.maxRounds != 0 && view.roundsStarted >= view.goal.maxRounds))
    then Err(InvalidTransition)
    else
      var next := view.goal.(revision := Raise(view.goal.revision), phase := PhaseAfter(action),
                             reason := if action.BlockGoal? then reason else None);
      if ValidGoal(next) then Ok(next) else Err(InvalidTransition)
  }

  /** The reason of the last turn that ended, if one did, is an abort. */
  predicate LastTurnAborted(events: seq<Event>) {
    events != [] &&
    (if events[|events| - 1].kind.TurnEnd? then events[|events| - 1].kind.reason.Aborted?
      else LastTurnAborted(events[..|events| - 1]))
  }

  // ---- what happens between the sections of an operation ----

  datatype ForeignStep =
    | Claim(target: Target, start: nat)
    | Append(kind: Kind)
    | Submit(messageId: Id, text: Text)

  /** What others do in the gaps of one operation. */
  type Gaps = nat -> seq<ForeignStep>

  ghost predicate Quiet(during: Gaps) {
    forall gap :: during(gap) == []
  }

  datatype Progress = Checked | Sent | Refused

  /** A round that was checked and whose driver has not returned yet. */
  datatype Ticket = Ticket(view: View, progress: Progress)

  predicate Unsent(ticket: Option<Ticket>) {
    ticket.Some? && ticket.value.progress.Checked?
  }

  /** What an operation of another owner may change. */
  datatype Moment = Moment(state: Option<State>, pending: seq<Message>, ticket: Option<Ticket>, crossed: bool)

  function Outstanding(now: Moment): nat {
    |GoalRounds(now.pending)| + (if Unsent(now.ticket) then 1 else 0)
  }

  /** The others claim and cancel what waits, and the driver submits what it checked. */
  ghost predicate Drift(before: Moment, after: Moment) {
    && (after.state.Some? ==> before.state.Some? && SameGoal(before.state.value, after.state.value))
    && (after.ticket == before.ticket
        || (Unsent(before.ticket) && after.ticket.Some? && after.ticket.value.view == before.ticket.value.view
          && !Unsent(after.ticket)))
    && (before.crossed ==> after.crossed) && (after.crossed ==> before.crossed || Unsent(before.ticket))
    && Outstanding(after) <= Outstanding(before)
    && (forall m :: m in before.pending && m.source.GoalRound? && m !in after.pending ==>
          Outstanding(after) < Outstanding(before))
  }

  lemma DriftTwice(first: Moment, second: Moment, third: Moment)
    requires Drift(first, second) && Drift(second, third)
    ensures Drift(first, third)
  {
    hide Outstanding;
  }

  lemma DriftNowhere(now: Moment)
    ensures Drift(now, now)
  {
  }

  // ---- when a round is out of date ----

  /** The goal is not the one that was checked: another revision, or another round
      has started since. A revision at its end no longer shows a change. */
  predicate Moved(state: State, view: View) {
    || state.current.None? || state.current.value.goal.Reference() != view.goal.Reference()
    || state.current.value.roundsStarted != view.roundsStarted || view.goal.revision >= U64_MAX
  }

  /** A round of this view was within its limits. */
  predicate Driveable(view: View) {
    view.goal.phase.Active? && (view.goal.maxRounds != 0 ==> view.roundsStarted < view.goal.maxRounds)
  }

  predicate KnownReference(state: State, id: Id, revision: nat) {
    && id in state.seen
    && (state.current.Some? && state.current.value.goal.id == id ==> revision <= state.current.value.goal.revision)
  }

  predicate KnownView(state: State, view: View) {
    && KnownReference(state, view.goal.id, view.goal.revision)
    && (state.current.Some? && state.current.value.goal.Reference() == view.goal.Reference()
          && view.goal.revision < U64_MAX ==>
          state.current.value.goal == view.goal)
  }

  ghost predicate KnownRounds(state: State, rounds: seq<Round>) {
    forall r :: r in rounds ==> KnownReference(state, r.id, r.revision)
  }

  ghost predicate Stale(state: State, pending: seq<Message>) {
    exists r :: r in GoalRounds(pending) && !MayStart(state, r.id, r.revision, r.round)
  }

  /** A round may start exactly if its goal has not moved. */
  lemma StaleIfMoved(state: State, view: View)
    requires KnownView(state, view) && Driveable(view) && view.goal.revision < U64_MAX
    ensures MayStart(state, view.goal.id, view.goal.revision, view.roundsStarted + 1) <==> !Moved(state, view)
  {
  }

  /** Every change leaves the rounds that still wait out of date. */
  lemma ChangeMakesStale(state: State, edit: GoalEdit, pending: seq<Message>)
    requires ApplyEdit(state, edit).Some? && KnownRounds(state, GoalRounds(pending)) && GoalRounds(pending) != []
    requires state.current.Some? ==> state.current.value.goal.revision < U64_MAX
    ensures Stale(ApplyEdit(state, edit).value, pending)
  {
    var r := GoalRounds(pending)[0];
    assert r in GoalRounds(pending) && KnownReference(state, r.id, r.revision);
  }

  lemma ChangeKeepsKnown(state: State, edit: GoalEdit, id: Id, revision: nat)
    requires ApplyEdit(state, edit).Some? && KnownReference(state, id, revision)
    ensures KnownReference(ApplyEdit(state, edit).value, id, revision)
    ensures var next := ApplyEdit(state, edit).value.current;
            next.Some? && next.value.goal.Reference() == GoalRef(id, revision) ==> revision >= U64_MAX
  {
  }

  /** What a claim makes of the goal: a round that may start is counted, and one
      that may not leaves no readable goal. */
  function AfterClaim(state: State, message: Message): Option<State> {
    var rounds := RoundOf(message);
    if rounds == [] then Some(state)
    else if MayStart(state, rounds[0].id, rounds[0].revision, rounds[0].round) then Some(Started(state, rounds))
    else None
  }

  /** The first message of the turn queue was claimed. */
  ghost predicate FrontClaimed(before: I.Inbox, state: Option<State>, after: I.Inbox, next: Option<State>) {
    before.nextTurn != [] && state.Some? ==>
      && after.nextTurn == before.nextTurn[1..] && after.nextStep == before.nextStep && after.seen == before.seen
      && next == AfterClaim(state.value, before.nextTurn[0])
  }

  datatype Operation =
    | Foreign(steps: seq<ForeignStep>)
    | Creation(id: Id, objective: string, maxRounds: Option<nat>, between: seq<ForeignStep>)
    | Editing(expected: GoalRef, newObjective: Option<string>, newRounds: Option<nat>, during: Gaps)
    | Moving(expected: GoalRef, action: GoalAction, reason: Option<string>, during: Gaps)
    | Clearing(expected: GoalRef, during: Gaps)
    | Driving(busy: bool, between: seq<ForeignStep>)
    | Settling
    | Idle(busy: bool, between: seq<ForeignStep>)
    | Disarming
    | Closing

  class GoalService {
    const session: Session
    const maxWakes: nat
    const defaultRounds: nat

    var armed: Option<GoalRef>
    var wakes: nat
    var closed: bool
    /** Set while a driver is between its check and its return. */
    var ticket: Option<Ticket>
    /** Rounds submitted since the goal was last armed. */
    ghost var submitted: nat
    /** A round was submitted after its goal had moved, or a change committed over
        a round that was submitted after the change had looked for rounds. */
    ghost var crossed: bool

    ghost predicate Readable()
      reads session
    {
      ProjectGoal(session.events).Some?
    }

    ghost function State(): (s: State)
      reads session
      requires Readable()
    {
      ProjectGoal(session.events).value
    }

    ghost function Now(): Moment
      reads this, session
    {
      Moment(ProjectGoal(session.events), session.inbox.Pending(), ticket, crossed)
    }

    ghost predicate Budgeted()
      reads this
    {
      maxWakes != 0 ==>
        && submitted <= maxWakes && (Unsent(ticket) ==> submitted < maxWakes)
        && submitted + wakes <= maxWakes + (if ticket.Some? && ticket.value.progress.Sent? then 1 else 0)
    }

    /** What holds of the goal while the history is readable. */
    ghost predicate Coherent()
      reads this, session
      requires Readable()
    {
      && (State().current.Some? ==>
            ValidGoal(State().current.value.goal) && State().current.value.goal.id in State().seen)
      && (armed.Some? ==> KnownReference(State(), armed.value.id, armed.value.revision))
      && (armed.Some? && armed.value.revision < U64_MAX && State().current.Some?
            && State().current.value.goal.Reference() == armed.value ==>
            State().current.value.goal.phase.Active?)
      && (ticket.Some? ==> KnownView(State(), ticket.value.view))
      && KnownRounds(State(), GoalRounds(session.inbox.Pending()))
    }

    /** Nothing has crossed: whatever waits can be admitted, for an active goal. */
    ghost predicate InOrder()
      reads this, session
    {
      && Readable() && Ready(State(), session.inbox)
      && (GoalRounds(session.inbox.Pending()) != [] ==>
            State().current.Some? && State().current.value.goal.phase.Active?)
    }

    ghost predicate Valid()
      reads this, session
    {
      && session.Valid() && OncePerRevision(session.events) && Budgeted()
      && (if Readable() then Coherent() else Replay(session.events).None?)
      && |GoalRounds(session.inbox.Pending())| <= 1 && (Unsent(ticket) ==> GoalRounds(session.inbox.Pending()) == [])
      && (ticket.Some? ==> Driveable(ticket.value.view))
      && (!crossed ==> InOrder())
    }

    constructor (session: Session, maxWakes: nat, defaultRounds: nat)
      requires session.Valid() && ProjectGoal(session.events).Some?
      requires Ready(ProjectGoal(session.events).value, session.inbox)
      requires GoalRounds(session.inbox.Pending()) != [] ==>
                 var view := ProjectGoal(session.events).value.current; view.Some? && view.value.goal.phase.Active?
      ensures Valid() && this.session == session && this.maxWakes == maxWakes && this.defaultRounds == defaultRounds
      ensures armed == None && ticket == None && !closed && !crossed
    {
      this.session, this.maxWakes, this.defaultRounds := session, maxWakes, defaultRounds;
      armed, wakes, closed, ticket, submitted, crossed := None, 0, false, None, 0, false;
      new;
      CurrentIsWellFormed(session.events);
      ReadableIsOnce(session.events);
    }

    // ---- other owners ----

    method Others(steps: seq<ForeignStep>)
      requires Valid()
      modifies session, this`ticket, this`submitted, this`crossed
      ensures Valid() && Drift(old(Now()), Now())
      ensures steps == [] || !Unsent(old(ticket)) ==> submitted == old(submitted)
      ensures steps == [] ==>
                Now() == old(Now()) && session.events == old(session.events) && session.inbox == old(session.inbox)
      ensures steps == [Claim(NextTurn, 0)] && Accepting(session, 0) ==>
                FrontClaimed(old(session.inbox), old(ProjectGoal(session.events)), session.inbox,
                  ProjectGoal(session.events))
    {
      hide Valid, Drift, ProjectGoal, GoalRounds;
      ghost var start := Now();
      DriftNowhere(start);
      for i := 0 to |steps|
        invariant Valid() && Drift(start, Now())
        invariant Unsent(ticket) ==> Unsent(start.ticket)
        invariant !Unsent(start.ticket) ==> submitted == old(submitted)
        invariant i == 0 ==>
                  && Now() == start
                  && submitted == old(submitted)
                  && session.events == old(session.events)
                  && session.inbox == old(session.inbox)
        invariant i == 1 && steps[0] == Claim(NextTurn, 0) && Accepting(session, 0) ==>
                    FrontClaimed(old(session.inbox), start.state, session.inbox, ProjectGoal(session.events))
      {
        ghost var before := Now();
        match steps[i] {
          case Claim(target, position) => OneClaim(target, position);
          case Append(kind) => OneAppend(kind);
          case Submit(messageId, text) => var ok := SubmitRound(messageId, text);
        }
        DriftTwice(start, before, Now());
        assert Unsent(ticket) ==> Unsent(before.ticket) by { DriftTickets(before, Now()); }
      }
    }

    /** An append of anyone else brings no round and no change of the goal. */
    method OneAppend(kind: Kind)
      requires Valid()
      modifies session
      ensures Valid() && Drift(old(Now()), Now()) && ProjectGoal(session.events) == old(ProjectGoal(session.events))
    {
      hide Replay, ProjectGoal, Ready, GoalRounds, MayStart, I.Apply, I.Project, ValidGoal, WellFormed, OncePerRevision;
      DriftNowhere(Now());
      if I.Admissible(session.inbox, kind) && LeavesGoal(session.inbox, kind) {
        ghost var events, inbox := session.events, session.inbox;
        var ok := session.Append(kind);
        if ok {
          ForeignAppend(events, session.events[|events|], inbox);
        }
      }
    }

    /** The agent claims a message. A round among them starts if it may; one that may
        not makes the history unreadable. */
    method OneClaim(target: Target, start: nat)
      requires Valid()
      modifies session
      ensures Valid() && Drift(old(Now()), Now())
      ensures old(Readable()) && session.store(old(session.writes)) && start < |old(session.inbox).Queue(target)| ==>
                ProjectGoal(session.events) == AfterClaim(old(State()), old(session.inbox).Queue(target)[start])
      ensures target.NextTurn? && start == 0 && session.store(old(session.writes)) ==>
                FrontClaimed(old(session.inbox), old(ProjectGoal(session.events)), session.inbox,
                  ProjectGoal(session.events))
    {
      hide Replay, ProjectGoal, Ready, GoalRounds, MayStart, I.Apply, I.Project, I.Admissible, ValidGoal, WellFormed,
        OncePerRevision, Claimed;
      DriftNowhere(Now());
      ghost var events, inbox := session.events, session.inbox;
      var claimed := session.Claim(target, start);
      if claimed.Some? {
        ForeignClaim(events, session.events[|events|], session.events[|events| + 1], inbox);
        QueuesAfterClaim(inbox, target, start);
      }
    }

    /** The driver submits the round it checked, whatever has happened since. */
    method SubmitRound(messageId: Id, text: Text) returns (ok: bool)
      requires Valid()
      modifies session, this`ticket, this`submitted, this`crossed
      ensures Valid() && Drift(old(Now()), Now()) && ProjectGoal(session.events) == old(ProjectGoal(session.events))
      ensures !Unsent(old(ticket)) ==> !ok && ticket == old(ticket) && session.events == old(session.events)
      ensures Unsent(old(ticket)) ==> ticket == Some(Ticket(old(ticket).value.view, if ok then Sent else Refused))
      ensures Unsent(old(ticket)) ==>
                (ok <==>
                   && Inbox.Fits(old(session.inbox), text).Ok? && session.store(old(session.writes))
                   && messageId !in old(session.inbox).seen)
      ensures submitted == old(submitted) + (if ok then 1 else 0)
      ensures ok ==>
                && session.inbox.nextTurn
                   == old(session.inbox).nextTurn + [RoundMessage(ticket.value.view, messageId, text)]
                && session.inbox.nextStep == old(session.inbox).nextStep
                && session.inbox.seen == old(session.inbox).seen + {messageId}
      ensures crossed <==> old(crossed) || (ok && Moved(State(), ticket.value.view))
      ensures ok && Readable() && ticket.value.view.goal.revision < U64_MAX ==>
                var view := ticket.value.view;
                && (Stale(State(), session.inbox.Pending()) <==> Moved(State(), view))
                && (MayStart(State(), view.goal.id, view.goal.revision, view.roundsStarted + 1) <==>
                      !Moved(State(), view))
    {
      hide Replay, ProjectGoal, Ready, GoalRounds, MayStart, I.Apply, I.Project, I.Admissible, ValidGoal, WellFormed,
        OncePerRevision, Inbox.Fits;
      DriftNowhere(Now());
      if !Unsent(ticket) {
        return false;
      }
      var view := ticket.value.view;
      ghost var events, inbox := session.events, session.inbox;
      var submission := Inbox.EnqueueOwned(session, false, RoundMessage(view, messageId, text));
      if submission.Err? {
        ticket := Some(Ticket(view, Refused));
        return false;
      }
      ticket, submitted := Some(Ticket(view, Sent)), submitted + 1;
      SubmissionReplays(events, session.events[|events|], inbox, view, messageId, text);
      crossed := crossed || Moved(State(), view);
      if Readable() && view.goal.revision < U64_MAX {
        StaleIfMoved(State(), view);
      }
      return true;
    }

    // ---- changes ----

    method Clock() returns (now: nat)
      requires Valid()
      modifies session`clock
      ensures Valid() && Now() == old(Now()) && now == session.clock
      ensures Readable() == old(Readable()) && InOrder() == old(InOrder()) && (!crossed ==> InOrder())
    {
      hide ProjectGoal, Replay, Ready, GoalRounds, ValidGoal, OncePerRevision, KnownView, KnownRounds;
      now := session.Now();
    }

    /** Append one change, if the log replays with it. A round that waits now was
        submitted after the change looked for rounds, and is out of date from here. */
    method AppendChange(edit: GoalEdit) returns (r: Result<(), GoalError>, appended: bool)
      requires Valid()
      modifies session, this`crossed
      ensures Valid() && session.inbox == old(session.inbox)
      ensures r.Ok? <==>
                && old(Readable()) && ApplyEdit(old(State()), edit).Some?
                && session.store(old(session.writes)) && session.store(old(session.writes) + 1)
      ensures !appended ==> r.Err? && session.events == old(session.events) && crossed == old(crossed)
      ensures r.Err? ==> r.error.InvalidTransition? || r.error.Persistence?
      ensures r.Ok? ==> appended && session.durable == |session.events|
      ensures appended ==>
                && old(Readable()) && Readable() && ApplyEdit(old(State()), edit) == Some(State())
                && old(session.events) <= session.events && |session.events| == |old(session.events)| + 1
                && session.events[|old(session.events)|].kind == GoalChange(edit)
      ensures appended ==> (crossed <==> old(crossed) || GoalRounds(session.inbox.Pending()) != [])
      ensures appended && (old(State()).current.Some? ==> old(State()).current.value.goal.revision < U64_MAX) ==>
                (Stale(State(), session.inbox.Pending()) <==> GoalRounds(session.inbox.Pending()) != [])
    {
      hide Replay, Ready, GoalRounds, MayStart, I.Apply, I.Project, I.Admissible, ApplyEdit, ValidGoal, WellFormed,
        OncePerRevision, KnownReference, Stale, Driveable, Drift, KnownView, KnownRounds;
      ghost var events := session.events;
      var now := session.Now();
      var candidate := Event(|session.events|, now, GoalChange(edit));
      if ProjectGoal(session.events).None? {
        ReplayAppend(session.events, candidate);
        return Err(InvalidTransition), false;
      }
      ghost var before := State();
      ChangeReplays(session.events, candidate, session.inbox);
      if ProjectGoal(session.events + [candidate]).None? {
        return Err(InvalidTransition), false;
      }
      I.AdmissionKeeps(session.inbox, GoalChange(edit));
      appended := session.Append(GoalChange(edit));
      if !appended {
        return Err(Persistence), false;
      }
      ChangeReplays(events, session.events[|events|], session.inbox);
      CurrentIsWellFormed(session.events);
      ReadableIsOnce(session.events);
      StillKnown(before, edit);
      crossed := crossed || GoalRounds(session.inbox.Pending()) != [];
      if GoalRounds(session.inbox.Pending()) == [] {
        NothingWaits(State(), session.inbox);
      }
      var flushed := session.Flush();
      r := if flushed then Ok(()) else Err(Persistence);
    }

    lemma StillKnown(before: State, edit: GoalEdit)
      requires Readable() && ApplyEdit(before, edit) == Some(State())
      requires armed.Some? ==> KnownReference(before, armed.value.id, armed.value.revision)
      requires ticket.Some? ==> KnownView(before, ticket.value.view)
      requires KnownRounds(before, GoalRounds(session.inbox.Pending()))
      ensures armed.Some? ==> KnownReference(State(), armed.value.id, armed.value.revision)
      ensures armed.Some? && State().current.Some? && State().current.value.goal.Reference() == armed.value ==>
                armed.value.revision >= U64_MAX
      ensures ticket.Some? ==> KnownView(State(), ticket.value.view)
      ensures KnownRounds(State(), GoalRounds(session.inbox.Pending()))
      ensures (before.current.Some? ==> before.current.value.goal.revision < U64_MAX) ==>
                (Stale(State(), session.inbox.Pending()) <==> GoalRounds(session.inbox.Pending()) != [])
    {
      hide ProjectGoal, ApplyEdit, KnownReference, GoalRounds, MayStart;
      if armed.Some? {
        ChangeKeepsKnown(before, edit, armed.value.id, armed.value.revision);
      }
      if ticket.Some? {
        ChangeKeepsKnown(before, edit, ticket.value.view.goal.id, ticket.value.view.goal.revision);
      }
      forall r | r in GoalRounds(session.inbox.Pending()) ensures KnownReference(State(), r.id, r.revision) {
        ChangeKeepsKnown(before, edit, r.id, r.revision);
      }
      if GoalRounds(session.inbox.Pending()) != []
        && (before.current.Some? ==> before.current.value.goal.revision < U64_MAX) {
        ChangeMakesStale(before, edit, session.inbox.Pending());
      }
    }

    /** Withdraw every waiting round of a goal before its revision changes. Each is
        looked for in one section and cancelled in another. */
    method CancelPendingRounds(goalId: Id, during: Gaps) returns (ok: bool, gap: nat)
      requires Valid()
      modifies session, this`ticket, this`submitted, this`crossed
      ensures Valid() && Drift(old(Now()), Now())
      ensures ok ==> forall i :: 0 <= i < |GoalRounds(session.inbox.Pending())| ==>
                GoalRounds(session.inbox.Pending())[i].id != goalId
      ensures Quiet(during) && old(GoalRounds(session.inbox.Pending())) == [] ==>
                && ok
                && Now() == old(Now())
                && session.events == old(session.events)
                && session.inbox == old(session.inbox)
    {
      hide Valid, Drift, ProjectGoal, GoalRounds, Outstanding;
      ghost var start := Now();
      DriftNowhere(start);
      gap := 1;
      while true
        invariant Valid() && Drift(start, Now())
        invariant Quiet(during) && GoalRounds(start.pending) == [] ==>
                    Now() == start && session.events == old(session.events) && session.inbox == old(session.inbox)
        decreases Outstanding(Now())
      {
        var found := FindRound(session.inbox.Pending(), goalId);
        if found.None? {
          NoRoundsOf(session.inbox.Pending(), goalId);
          return true, gap;
        }
        ghost var before := Now();
        RoundIn(before.pending, found.value);
        Others(during(gap));
        ghost var between := Now();
        ok := CancelRound(found.value);
        if !ok {
          DriftTwice(start, before, between);
          DriftTwice(start, between, Now());
          return;
        }
        ghost var after := Now();
        Others(during(gap + 1));
        DriftFewer(before, between, after, Now(), found.value);
        DriftTwice(start, before, between);
        DriftTwice(start, between, after);
        DriftTwice(start, after, Now());
        gap := gap + 2;
      }
    }

    method CancelRound(message: Message) returns (ok: bool)
      requires Valid() && message.source.GoalRound?
      modifies session
      ensures Valid() && Drift(old(Now()), Now())
      ensures ok && message in old(session.inbox.Pending()) ==> Outstanding(Now()) < Outstanding(old(Now()))
    {
      hide Replay, ProjectGoal, Ready, GoalRounds, MayStart, I.Apply, I.Project, I.Admissible, ValidGoal, WellFormed,
        OncePerRevision, Claimed, KnownReference;
      DriftNowhere(Now());
      ghost var events, inbox := session.events, session.inbox;
      var r := Inbox.CancelInbox(session, message.id);
      if r.Ok? && r.value {
        assert r == Ok(true);
        var splice := session.events[|events|].kind;
        CancelLeaves(inbox, splice);
        ForeignAppend(events, session.events[|events|], inbox);
        if message in inbox.Pending() {
          CancelsRound(events, inbox, message, splice);
          assert |GoalRounds(session.inbox.Pending())| < |GoalRounds(inbox.Pending())|;
        }
      } else if r.Ok? {
        assert r == Ok(false);
        assert message in inbox.Pending() ==> message.id in I.Ids(inbox.Pending());
      }
      ok := r.Ok?;
    }

    // ---- rounds ----

    /** The armed goal wants a round now, but for what waits in the inbox. */
    ghost predicate Wants(busy: bool)
      reads this, session
      requires Readable()
    {
      && !closed && ticket.None? && !busy && State().current.Some?
      && armed == Some(State().current.value.goal.Reference()) && Driveable(State().current.value)
      && (maxWakes != 0 ==> wakes > 0)
    }

    /** The first half of driving a round: the goal is read in one section of the
        log, and the inbox looked at in the next. */
    method BeginDrive(busy: bool, between: seq<ForeignStep>) returns (r: Result<bool, GoalError>)
      requires Valid()
      modifies session, this`armed, this`wakes, this`ticket, this`submitted, this`crossed
      ensures Valid() && submitted == old(submitted) && (armed == old(armed) || armed == None)
      ensures crossed ==> old(crossed) || Unsent(old(ticket))
      ensures closed ==> r == Err(Unavailable)
      ensures !closed && old(ticket).None? && !busy && !old(Readable()) ==> r == Err(Persistence)
      ensures !closed && old(ticket).None? && !busy && old(Readable()) ==>
                var current := old(State()).current;
                armed == (if current.None? || old(armed) != Some(current.value.goal.Reference())
                             || (Driveable(current.value) && maxWakes != 0 && old(wakes) == 0)
                          then None else old(armed))
      ensures r == Ok(true) ==>
                && old(Readable()) && old(Wants(busy)) && session.inbox.Pending() == []
                && ticket == Some(Ticket(old(State()).current.value, Checked)) && session.durable == |session.events|
      ensures r == Ok(false) && old(Readable()) ==> !old(Wants(busy)) || session.inbox.Pending() != []
      ensures if r == Ok(true) then armed == old(armed) && wakes == old(wakes) else ticket == old(ticket)
      ensures between == [] ==>
                session.events == old(session.events) && session.inbox == old(session.inbox) && crossed == old(crossed)
      ensures old(Readable() && Wants(busy)) && Accepting(session, 0) ==>
                r.Ok? && (r.value <==> session.inbox.Pending() == [])
      ensures old(Readable() && Wants(busy)) && between == [Claim(NextTurn, 0)] && Accepting(session, 0) ==>
                FrontClaimed(old(session.inbox), old(ProjectGoal(session.events)), session.inbox,
                  ProjectGoal(session.events))
    {
      hide ProjectGoal, Ready, GoalRounds, MayStart, I.Apply, I.Project, ValidGoal, WellFormed, OncePerRevision;
      if closed {
        return Err(Unavailable);
      }
      if ticket.Some? || busy {
        return Ok(false);
      }
      var state := ProjectGoal(session.events);
      if state.None? {
        return Err(Persistence);
      }
      if armed.Some? && !(state.value.current.Some? && state.value.current.value.goal.Reference() == armed.value) {
        armed, wakes := None, 0;
      }
      if state.value.current.None? {
        return Ok(false);
      }
      var view := state.value.current.value;
      if armed != Some(view.goal.Reference()) || !view.goal.phase.Active?
         || (view.goal.maxRounds != 0 && view.roundsStarted >= view.goal.maxRounds) {
        return Ok(false);
      }
      if maxWakes != 0 && wakes == 0 {
        armed := None;
        return Ok(false);
      }
      Others(between);
      if session.inbox.nextTurn != [] || session.inbox.nextStep != [] {
        return Ok(false);
      }
      var flushed := session.Flush();
      if !flushed {
        return Err(Persistence);
      }
      NoRounds(session.inbox.Pending());
      ticket := Some(Ticket(view, Checked));
      r := Ok(true);
    }

    /** The last section of driving a round: what the submission costs. */
    method EndDrive() returns (r: Result<(), GoalError>)
      requires Valid()
      modifies this`armed, this`wakes, this`ticket
      ensures Valid()
      ensures ticket.Some? && !Unsent(ticket) ==> closed && r == Err(Unavailable)
      ensures old(ticket).Some? && !Unsent(old(ticket)) && !closed ==>
                && ticket == None && (r.Ok? <==> old(ticket).value.progress.Sent?)
                && (r.Ok? ==> armed == old(armed) && wakes == (if old(wakes) > 0 then old(wakes) - 1 else 0))
                && (r.Err? ==> armed == None && wakes == 0)
    {
      hide ProjectGoal, Ready, GoalRounds, ValidGoal, WellFormed, OncePerRevision;
      if ticket.None? || Unsent(ticket) {
        return Ok(());
      }
      if closed {
        return Err(Unavailable);
      }
      var sent := ticket.value.progress.Sent?;
      ticket := None;
      if !sent {
        armed, wakes := None, 0;
        return Err(Persistence);
      }
      wakes := if wakes > 0 then wakes - 1 else 0;
      r := Ok(());
    }

    // ---- operations ----

    /** Nothing waits, nobody interferes, and the store accepts. */
    ghost predicate Unhindered(during: Gaps)
      reads this, session
    {
      Quiet(during) && GoalRounds(session.inbox.Pending()) == [] && !closed && Accepting(session, 0)
    }

    ghost predicate Holds(expected: GoalRef)
      reads session
    {
      Readable() && State().current.Some? && State().current.value.goal.Reference() == expected
    }

    ghost predicate MayReplace(action: GoalAction, build: View -> Result<Goal, GoalError>)
      reads this, session
      requires Readable() && State().current.Some?
    {
      var view := State().current.value;
      && !(action.ResumeGoal? && armed == Some(view.goal.Reference()) && view.goal.phase.Active?)
      && Replaces(view, action, build(view))
    }

    ghost predicate MayMove(action: GoalAction, reason: Option<string>)
      reads this, session
      requires Readable() && State().current.Some?
    {
      var view := State().current.value;
      match action
      case PauseGoal => view.goal.phase.Active?
      case BlockGoal => view.goal.phase.Active? && reason.Some?
      case CompleteGoal => !view.goal.phase.Complete?
      case ResumeGoal =>
        && !view.goal.phase.Complete? && (view.goal.maxRounds != 0 ==> view.roundsStarted < view.goal.maxRounds)
        && !(armed == Some(view.goal.Reference()) && view.goal.phase.Active?)
      case _ => false
    }

    ghost predicate MayCreate(id: Id, maxRounds: nat)
      reads session
    {
      && Readable() && (State().current.Some? ==> State().current.value.goal.phase.Complete?)
      && maxRounds <= MAX_ROUNDS && id !in State().seen
    }

    /** Arm the current goal, with a fresh wake budget or with what is left of it. */
    method ArmGoal(reference: GoalRef, refill: bool)
      requires Valid() && Holds(reference)
      requires (reference.revision < U64_MAX ==> State().current.value.goal.phase.Active?)
      modifies this`armed, this`wakes, this`submitted
      ensures Valid() && armed == Some(reference)
      ensures refill ==> wakes == maxWakes && submitted == 0
      ensures !refill ==> wakes == old(wakes) && submitted == old(submitted)
    {
      hide ProjectGoal, Replay, Ready, GoalRounds, WellFormed, OncePerRevision, KnownView, KnownRounds, ValidGoal;
      armed := Some(reference);
      if refill {
        wakes, submitted := maxWakes, 0;
      }
    }

    method Create(id: Id, objective: string, maxRounds: Option<nat>, between: seq<ForeignStep>)
      returns (r: Result<View, GoalError>)
      requires Valid()
      modifies session, this`armed, this`wakes, this`ticket, this`submitted, this`crossed
      ensures Valid() && (crossed ==> old(crossed) || Unsent(old(ticket)))
      ensures r.Ok? ==>
                && old(Readable()) && Readable() && State().current == Some(r.value) && r.value.roundsStarted == 0
                && r.value.goal == Goal(id, 1, objective, Active, None,
                                        if maxRounds.Some? then maxRounds.value else defaultRounds)
                && (old(State()).current.Some? ==> old(State()).current.value.goal.phase.Complete?)
                && id !in old(State()).seen
                && armed == Some(r.value.goal.Reference()) && wakes == maxWakes && submitted == 0
      ensures (!closed && old(Readable()) && old(State()).current.Some?
               && !old(State()).current.value.goal.phase.Complete?) ==>
                r == Err(AlreadyExists)
      ensures between == [] ==> session.inbox == old(session.inbox) && ticket == old(ticket)
      ensures between == [] && Accepting(session, 0) ==>
                (r.Ok? <==> old(!closed && MayCreate(id, if maxRounds.Some? then maxRounds.value else defaultRounds)))
    {
      hide Replay, Ready, GoalRounds, WellFormed, I.Apply, I.Project, I.Admissible, OncePerRevision, ProjectGoal,
        Coherent, Budgeted, Stale, Drift, Driveable;
      if closed {
        return Err(Unavailable);
      }
      if ProjectGoal(session.events).None? {
        return Err(Persistence);
      }
      var state := ProjectGoal(session.events).value;
      if state.current.Some? && !state.current.value.goal.phase.Complete? {
        return Err(AlreadyExists);
      }
      var rounds := if maxRounds.Some? then maxRounds.value else defaultRounds;
      if rounds > MAX_ROUNDS {
        return Err(InvalidRounds);
      }
      ghost var start := Now();
      Others(between);
      DriftCrossing(start, Now());
      if Readable() {
        DriftGoal(start, Now());
      }
      var goal := Goal(id, 1, objective, Active, None, rounds);
      var now := Clock();
      var changed, appended := AppendChange(Snapshot(CreateGoal, goal, 0, now, now));
      if changed.Err? {
        return Err(changed.error);
      }
      ArmGoal(goal.Reference(), true);
      r := Ok(View(goal, 0, now, now));
    }

    /** Replace the current revision under compare-and-swap, up to its commit. */
    method Update(
      expected: GoalRef, action: GoalAction, build: View -> Result<Goal, GoalError>, effect: Effect, during: Gaps)
      returns (r: Result<View, GoalError>)
      requires Valid() && !action.CreateGoal?
      requires effect.Arm? ==> action.ResumeGoal?
      requires effect.Retain? ==> action.EditGoal?
      modifies session, this`armed, this`wakes, this`ticket, this`submitted, this`crossed
      ensures Valid() && (crossed ==> old(crossed) || Unsent(old(ticket)))
      ensures r.Ok? ==>
                && old(Readable())
                && old(State()).current.Some?
                && old(State()).current.value.goal.Reference() == expected
                && Readable() && State().current == Some(r.value) && State().seen == old(State()).seen
                && r.value.goal.Reference() == GoalRef(expected.id, Raise(expected.revision))
                && r.value.roundsStarted == old(State()).current.value.roundsStarted
                && Transition(old(State()).current.value, action, r.value.goal)
                && build(old(State()).current.value) == Ok(r.value.goal)
      ensures r.Ok? ==> old(MayReplace(action, build))
      ensures r.Ok? && effect.Disarm? ==> armed == None
      ensures r.Ok? && effect.Arm? ==> armed == Some(r.value.goal.Reference()) && wakes == maxWakes && submitted == 0
      ensures (!closed && old(Readable()) && old(State()).current.Some?
               && old(State()).current.value.goal.Reference() != expected) ==>
                r == Err(StaleRevision) && session.events == old(session.events)
      ensures Quiet(during) && old(GoalRounds(session.inbox.Pending())) == [] ==>
                session.inbox == old(session.inbox) && ticket == old(ticket)
      ensures old(Unhindered(during) && Holds(expected) && MayReplace(action, build)) ==> r.Ok?
    {
      hide Replay, ProjectGoal, Ready, GoalRounds, WellFormed, I.Apply, I.Project, I.Admissible, OncePerRevision,
        Transition, Stale;
      if closed {
        return Err(Unavailable);
      }
      if ProjectGoal(session.events).None? {
        return Err(Persistence);
      }
      var state := ProjectGoal(session.events).value;
      if state.current.None? {
        return Err(NotFound);
      }
      var current := state.current.value;
      if current.goal.Reference() != expected {
        return Err(StaleRevision);
      }
      var wasArmed := armed == Some(current.goal.Reference());
      if action.ResumeGoal? && wasArmed && current.goal.phase.Active? {
        return Err(InvalidTransition);
      }
      var ok := ClearTheWay(current.goal.id, during);
      if !ok {
        return Err(Persistence);
      }
      r := Replace(current, action, build, effect, wasArmed);
    }

    /** Before a change: cancel what waits. Others act before, meanwhile and after,
        and only a round that had been checked can wait at the end. */
    method ClearTheWay(goalId: Id, during: Gaps) returns (ok: bool)
      requires Valid() && Readable() && State().current.Some? && State().current.value.goal.id == goalId
      modifies session, this`ticket, this`submitted, this`crossed
      ensures Valid() && Drift(old(Now()), Now())
      ensures ok && !crossed && !Unsent(old(ticket)) ==> GoalRounds(session.inbox.Pending()) == []
      ensures Quiet(during) && old(GoalRounds(session.inbox.Pending())) == [] ==>
                && ok
                && Now() == old(Now())
                && session.events == old(session.events)
                && session.inbox == old(session.inbox)
    {
      hide Drift, ProjectGoal, GoalRounds, I.Project, WellFormed, OncePerRevision, Coherent, Budgeted, Ready;
      ghost var start := Now();
      Others(during(0));
      ghost var before := Now();
      var gap;
      ok, gap := CancelPendingRounds(goalId, during);
      ghost var between := Now();
      DriftTwice(start, before, between);
      if !ok {
        return;
      }
      if InOrder() {
        DriftGoal(start, between);
        NoneLeft(State(), session.inbox, goalId);
      }
      Others(during(gap));
      DriftTwice(start, between, Now());
      DriftTickets(start, between);
      DriftTickets(between, Now());
    }

    /** Append the new revision and set what it does to the activation. */
    method Replace(
      current: View, action: GoalAction, build: View -> Result<Goal, GoalError>, effect: Effect, wasArmed: bool)
      returns (r: Result<View, GoalError>)
      requires Valid() && !action.CreateGoal? && (effect.Arm? ==> action.ResumeGoal?)
      requires (effect.Retain? ==> action.EditGoal?)
      requires Readable() ==> State().current.Some? && State().current.value.goal == current.goal
      requires wasArmed == (armed == Some(current.goal.Reference()))
      modifies session, this`armed, this`wakes, this`submitted, this`crossed
      ensures Valid() && session.inbox == old(session.inbox)
      ensures crossed ==> old(crossed) || GoalRounds(session.inbox.Pending()) != []
      ensures r.Ok? ==>
                && old(Readable())
                && Readable()
                && State().current == Some(r.value)
                && State().seen == old(State()).seen
                && r.value.goal.id == current.goal.id && r.value.goal.revision == Raise(current.goal.revision)
                && r.value.roundsStarted == current.roundsStarted
                && Transition(current, action, r.value.goal) && build(current) == Ok(r.value.goal)
                && Replaces(current, action, build(current))
                && (effect.Disarm? ==> armed == None)
                && (effect.Arm? ==> armed == Some(r.value.goal.Reference()) && wakes == maxWakes && submitted == 0)
      ensures (Accepting(session, 0) && old(Readable()) && old(State()).current == Some(current)
               && Replaces(current, action, build(current))) ==>
                r.Ok?
    {
      hide Replay, Ready, GoalRounds, WellFormed, I.Apply, I.Project, I.Admissible, OncePerRevision, ProjectGoal, Stale,
        KnownView, KnownRounds, Budgeted, Driveable, InOrder, Drift;
      var next := build(current);
      if next.Err? {
        return Err(next.error);
      }
      var now := Clock();
      var updated := if now > current.updatedAt then now else current.updatedAt;
      var changed, appended := AppendChange(Snapshot(action, next.value, current.roundsStarted, current.createdAt,
        updated));
      if changed.Err? {
        return Err(changed.error);
      }
      match effect {
        case Arm => ArmGoal(next.value.Reference(), true);
        case Disarm => DisarmGoal();
        case Retain =>
          if wasArmed {
            ArmGoal(next.value.Reference(), false);
          }
      }
      r := Ok(View(next.value, current.roundsStarted, current.createdAt, updated));
    }

    /** A limit of zero means no limit, but it counts as the smallest one: once a
        round has started, every edit that leaves or lifts the limit to none is
        refused, also one of the objective alone. */
    method Edit(expected: GoalRef, objective: Option<string>, maxRounds: Option<nat>, during: Gaps)
      returns (r: Result<View, GoalError>)
      requires Valid()
      modifies session, this`armed, this`wakes, this`ticket, this`submitted, this`crossed
      ensures Valid() && (crossed ==> old(crossed) || Unsent(old(ticket)))
      ensures r.Ok? ==>
                && old(Readable())
                && old(State()).current.Some?
                && old(State()).current.value.goal.Reference() == expected
                && Readable()
                && State().current == Some(r.value)
                && r.value.goal.Reference() == GoalRef(expected.id, Raise(expected.revision))
                && r.value.goal.phase == old(State()).current.value.goal.phase
                && r.value.goal.objective
                   == (if objective.Some? then objective.value else old(State()).current.value.goal.objective)
                && r.value.goal.maxRounds
                   == (if maxRounds.Some? then maxRounds.value else old(State()).current.value.goal.maxRounds)
                && r.value.roundsStarted <= r.value.goal.maxRounds <= MAX_ROUNDS
                && r.value.roundsStarted == old(State()).current.value.roundsStarted
      ensures old(Unhindered(during) && Holds(expected)) && (objective.Some? || maxRounds.Some?) ==>
                var rounds := if maxRounds.Some? then maxRounds.value else old(State()).current.value.goal.maxRounds;
                r.Ok? <==> old(State()).current.value.roundsStarted <= rounds <= MAX_ROUNDS
    {
      hide ProjectGoal, Ready, GoalRounds, WellFormed, I.Project, ValidGoal, OncePerRevision;
      if objective.None? && maxRounds.None? {
        return Err(InvalidObjective);
      }
      if Readable() && State().current.Some? {
        EditReplaces(State().current.value, objective, maxRounds);
      }
      r := Update(expected, EditGoal, view => EditedGoal(view, objective, maxRounds), Retain, during);
    }

    method Move(expected: GoalRef, action: GoalAction, reason: Option<string>, during: Gaps)
      returns (r: Result<View, GoalError>)
      requires Valid() && action in {PauseGoal, ResumeGoal, CompleteGoal, BlockGoal}
      modifies session, this`armed, this`wakes, this`ticket, this`submitted, this`crossed
      ensures Valid() && (crossed ==> old(crossed) || Unsent(old(ticket)))
      ensures r.Ok? ==>
                && old(Readable())
                && old(State()).current.Some?
                && old(State()).current.value.goal.Reference() == expected
                && Readable()
                && State().current == Some(r.value)
                && r.value.goal.Reference() == GoalRef(expected.id, Raise(expected.revision))
                && r.value.goal.phase == PhaseAfter(action)
                && r.value.goal.objective == old(State()).current.value.goal.objective
                && r.value.goal.maxRounds == old(State()).current.value.goal.maxRounds
                && (action.BlockGoal? ==> r.value.goal.reason == reason && reason.Some?)
                && (action.PauseGoal? || action.BlockGoal? ==> old(State()).current.value.goal.phase.Active?)
                && !old(State()).current.value.goal.phase.Complete?
      ensures r.Ok? && !action.ResumeGoal? ==> armed == None
      ensures r.Ok? && action.ResumeGoal? ==>
                armed == Some(r.value.goal.Reference()) && wakes == maxWakes && submitted == 0
      ensures Quiet(during) && old(GoalRounds(session.inbox.Pending())) == [] ==>
                session.inbox == old(session.inbox) && ticket == old(ticket)
      ensures old(Unhindered(during) && Holds(expected)) ==> (r.Ok? <==> old(MayMove(action, reason)))
    {
      hide ProjectGoal, Ready, GoalRounds, WellFormed, I.Project, OncePerRevision, KnownView, KnownRounds, Stale, Drift;
      r := Update(expected, action, view => MovedGoal(view, action, reason),
        if action.ResumeGoal? then Arm else Disarm, during);
    }

    method ClearGoal(expected: GoalRef, during: Gaps) returns (r: Result<GoalRef, GoalError>)
      requires Valid()
      modifies session, this`armed, this`wakes, this`ticket, this`submitted, this`crossed
      ensures Valid() && (crossed ==> old(crossed) || Unsent(old(ticket)))
      ensures r.Ok? ==>
                && old(Readable())
                && old(State()).current.Some?
                && old(State()).current.value.goal.Reference() == expected
                && r.value == GoalRef(expected.id, Raise(expected.revision))
                && Readable()
                && State().current.None?
                && armed == None
      ensures old(Unhindered(during) && Holds(expected)) ==> r.Ok?
    {
      hide Replay, ProjectGoal, Ready, GoalRounds, WellFormed, I.Apply, I.Project, I.Admissible, ValidGoal,
        OncePerRevision, Stale, Coherent, Budgeted, Driveable, InOrder;
      if closed {
        return Err(Unavailable);
      }
      if ProjectGoal(session.events).None? {
        return Err(Persistence);
      }
      var state := ProjectGoal(session.events).value;
      if state.current.None? {
        return Err(NotFound);
      }
      var current := state.current.value;
      if current.goal.Reference() != expected {
        return Err(StaleRevision);
      }
      var ok := ClearTheWay(current.goal.id, during);
      if !ok {
        return Err(Persistence);
      }
      var cleared := GoalRef(current.goal.id, Raise(current.goal.revision));
      var now := Clock();
      var changed, appended := AppendChange(Clear(cleared, if now > current.updatedAt then now else current.updatedAt));
      if changed.Err? {
        return Err(changed.error);
      }
      DisarmGoal();
      r := Ok(cleared);
    }

    method DisarmGoal()
      requires Valid()
      modifies this`armed, this`wakes
      ensures Valid() && armed == None
    {
      hide ProjectGoal, Ready, GoalRounds, ValidGoal, WellFormed, OncePerRevision;
      armed, wakes := None, 0;
    }

    method Close()
      requires Valid()
      modifies this`armed, this`wakes, this`closed
      ensures Valid() && armed == None && closed
    {
      hide ProjectGoal, Ready, GoalRounds, ValidGoal, WellFormed, OncePerRevision;
      armed, wakes, closed := None, 0, true;
    }

    /** The agent went idle: an aborted turn disarms the goal, as does a round that
        cannot be checked. */
    method OnAgentIdle(busy: bool, between: seq<ForeignStep>)
      requires Valid()
      modifies session, this`armed, this`wakes, this`ticket, this`submitted, this`crossed
      ensures Valid() && (crossed ==> old(crossed) || Unsent(old(ticket)))
      ensures LastTurnAborted(old(session.events)) ==>
                armed == None && session.events == old(session.events) && ticket == old(ticket)
      ensures closed || (old(ticket).None? && !busy && !old(Readable())) ==> armed == None
      ensures !LastTurnAborted(old(session.events)) && old(Readable() && Wants(busy)) && Accepting(session, 0) ==>
                armed == old(armed) && (ticket.Some? <==> session.inbox.Pending() == [])
    {
      hide ProjectGoal, Ready, GoalRounds, ValidGoal, WellFormed, I.Project, OncePerRevision;
      if LastTurnAborted(session.events) {
        DisarmGoal();
        return;
      }
      var driven := BeginDrive(busy, between);
      if driven.Err? {
        DisarmGoal();
      }
    }

    // ---- runs ----

    method Perform(op: Operation)
      requires Valid()
      modifies session, this
      ensures Valid() && (crossed ==> old(crossed) || Unsent(old(ticket)))
    {
      hide Valid, ProjectGoal, Readable, Drift;
      match op
      case Foreign(steps) =>
        ghost var before := Now();
        Others(steps);
        DriftCrossing(before, Now());
      case Creation(id, objective, maxRounds, between) => var _ := Create(id, objective, maxRounds, between);
      case Editing(expected, objective, maxRounds, during) => var _ := Edit(expected, objective, maxRounds, during);
      case Moving(expected, action, reason, during) =>
        if action in {PauseGoal, ResumeGoal, CompleteGoal, BlockGoal} {
          var _ := Move(expected, action, reason, during);
        }
      case Clearing(expected, during) => var _ := ClearGoal(expected, during);
      case Driving(busy, between) => var _ := BeginDrive(busy, between);
      case Settling => var _ := EndDrive();
      case Idle(busy, between) => OnAgentIdle(busy, between);
      case Disarming => DisarmGoal();
      case Closing => Close();
    }

    /** Over every run the wake budget holds and each revision is produced once. The
        history stays readable, and whatever waits can be admitted, unless a round
        was submitted for a goal that had moved or a change committed over one. */
    method Run(ops: seq<Operation>)
      requires Valid()
      modifies session, this
      ensures Valid() && (maxWakes != 0 ==> submitted <= maxWakes) && OncePerRevision(session.events)
      ensures !crossed ==> InOrder() && !Stale(State(), session.inbox.Pending())
      ensures Readable() || (crossed && Replay(session.events).None?)
    {
      hide ProjectGoal, Replay, GoalRounds, Ready;
      for i := 0 to |ops|
        invariant Valid()
      {
        hide Valid;
        Perform(ops[i]);
      }
      if !crossed {
        ReadyIsFresh(State(), session.inbox);
      }
    }
  }

  predicate Replaces(current: View, action: GoalAction, next: Result<Goal, GoalError>) {
    && next.Ok? && ValidGoal(next.value) && next.value.id == current.goal.id
    && next.value.revision == Raise(current.goal.revision) && Transition(current, action, next.value)
  }

  lemma EditReplaces(view: View, objective: Option<string>, maxRounds: Option<nat>)
    requires ValidGoal(view.goal)
    ensures var rounds := if maxRounds.Some? then maxRounds.value else view.goal.maxRounds;
            Replaces(view, EditGoal, EditedGoal(view, objective, maxRounds)) <==>
              view.roundsStarted <= rounds <= MAX_ROUNDS
  {
  }

  // ---- histories that become unreadable ----

  const NEVER: Gaps := _ => []

  /** A goal is paused between the check of its round and the submission: the round
      is claimed, and the history cannot be read any more. */
  method RoundAfterPause(text: Text) returns (service: GoalService)
    requires |text| <= Inbox.MAX_PENDING_BYTES
    ensures service.Valid() && service.crossed && !service.Readable() && Replay(service.session.events).None?
  {
    hide ProjectGoal, Replay, Ready, I.Project, OncePerRevision, WellFormed, MayStart, Stale, Drift,
      GoalService.Coherent, GoalService.Budgeted, GoalService.InOrder;
    service := NewGoal();
    var reference := GoalRef("goal", 1);
    var driven := service.BeginDrive(false, []);
    assert driven == Ok(true);
    var paused := service.Move(reference, PauseGoal, None, NEVER);
    assert paused.Ok? && service.ticket.Some?;
    var sent := service.SubmitRound("round", text);
    assert sent && service.crossed;
    var view := service.ticket.value.view;
    assert service.session.inbox.nextTurn == [RoundMessage(view, "round", text)];
    service.OneClaim(NextTurn, 0);
  }

  /** No change at all: a waiting round is claimed between the reading of the goal
      and the look at the inbox, so the same round is submitted again. */
  method RoundAfterClaim(text: Text) returns (service: GoalService)
    requires |text| <= Inbox.MAX_PENDING_BYTES
    ensures service.Valid() && service.crossed && !service.Readable() && Replay(service.session.events).None?
  {
    hide ProjectGoal, Replay, Ready, I.Project, OncePerRevision, WellFormed, Stale, Drift, GoalService.Coherent,
      GoalService.Budgeted, GoalService.InOrder;
    service := FirstRound(text);
    var driven := service.BeginDrive(false, [Claim(NextTurn, 0)]);
    assert service.session.inbox.Pending() == [] && driven == Ok(true);
    var sent := service.SubmitRound("again", text);
    var view := service.ticket.value.view;
    assert sent && service.session.inbox.nextTurn == [RoundMessage(view, "again", text)];
    service.OneClaim(NextTurn, 0);
  }

  /** A new goal whose first round waits in the inbox. */
  method FirstRound(text: Text) returns (service: GoalService)
    requires |text| <= Inbox.MAX_PENDING_BYTES
    ensures fresh(service) && fresh(service.session) && service.Valid() && service.Readable() && service.Wants(false)
    ensures Accepting(service.session, 0)
    ensures var view := service.State().current.value;
            && view.goal == Goal("goal", 1, "objective", Active, None, 0) && view.roundsStarted == 0
            && service.session.inbox.nextTurn == [RoundMessage(view, "round", text)]
            && service.session.inbox.nextStep == []
            && service.session.inbox.seen == {"round"} && !service.crossed
  {
    hide ProjectGoal, Replay, Ready, I.Project, OncePerRevision, WellFormed, Stale, Drift, GoalService.Coherent,
      GoalService.Budgeted, GoalService.InOrder;
    service := NewGoal();
    var driven := service.BeginDrive(false, []);
    var sent := service.SubmitRound("round", text);
    assert sent;
    var ended := service.EndDrive();
  }

  method NewGoal() returns (service: GoalService)
    ensures fresh(service) && fresh(service.session) && service.Valid() && service.Readable()
    ensures Accepting(service.session, 0) && !service.crossed && !service.closed
    ensures service.session.inbox == I.EMPTY_INBOX && service.ticket == None && service.maxWakes == 0
    ensures service.State().current.Some?
    ensures service.State().current.value.goal == Goal("goal", 1, "objective", Active, None, 0)
    ensures service.State().current.value.roundsStarted == 0 && service.armed == Some(GoalRef("goal", 1))
  {
    hide Ready, WellFormed, OncePerRevision, MayStart, Stale;
    var session := new Session(n => true);
    assert session.inbox == I.EMPTY_INBOX && session.inbox.Pending() == [];
    NoRounds(session.inbox.Pending());
    service := new GoalService(session, 0, 0);
    var created := service.Create("goal", "objective", None, []);
  }

  // ---- lemmas about single steps ----

  lemma DriftTickets(before: Moment, after: Moment)
    requires Drift(before, after)
    ensures Unsent(after.ticket) ==> Unsent(before.ticket)
    ensures !Unsent(before.ticket) ==> after.ticket == before.ticket
    ensures after.ticket.Some? <==> before.ticket.Some?
    ensures Outstanding(after) <= Outstanding(before) && (before.crossed ==> after.crossed)
  {
  }

  lemma DriftCrossing(before: Moment, after: Moment)
    requires Drift(before, after)
    ensures after.crossed ==> before.crossed || Unsent(before.ticket)
  {
  }

  lemma DriftGoal(before: Moment, after: Moment)
    requires Drift(before, after) && after.state.Some?
    ensures before.state.Some? && SameGoal(before.state.value, after.state.value)
  {
  }

  /** A cancellation between other steps always leaves fewer rounds to look for. */
  lemma DriftFewer(before: Moment, between: Moment, after: Moment, last: Moment, message: Message)
    requires Drift(before, between) && Drift(between, after) && Drift(after, last)
    requires message in before.pending && message.source.GoalRound?
    requires message in between.pending ==> Outstanding(after) < Outstanding(between)
    ensures Outstanding(last) < Outstanding(before)
  {
    hide Outstanding;
  }

  lemma ForeignAppend(events: seq<Event>, event: Event, inbox: I.Inbox)
    requires I.Project(events) == Some(inbox) && I.Admissible(inbox, event.kind) && LeavesGoal(inbox, event.kind)
    requires OncePerRevision(events) && (ProjectGoal(events).Some? || Replay(events).None?)
    ensures OncePerRevision(events + [event]) && ProjectGoal(events + [event]) == ProjectGoal(events)
    ensures Replay(events).None? ==> Replay(events + [event]).None?
    ensures ProjectGoal(events).Some? && Ready(ProjectGoal(events).value, inbox) ==>
              Ready(ProjectGoal(events).value, I.Apply(inbox, event.kind))
    ensures Fewer(inbox, I.Apply(inbox, event.kind))
  {
    hide GoalRounds, MayStart, I.Apply, I.Project, I.Admissible, Replay;
    OnceKept(events, event);
    RoundsLeft(inbox, event.kind);
    if ProjectGoal(events).Some? {
      LeavesReady(events, event, inbox);
    } else {
      ReplayAppend(events, event);
    }
  }

  /** No round came, and none went unnoticed. */
  ghost predicate Fewer(before: I.Inbox, after: I.Inbox) {
    && |GoalRounds(after.Pending())| <= |GoalRounds(before.Pending())|
    && (forall r :: r in GoalRounds(after.Pending()) ==> r in GoalRounds(before.Pending()))
    && (forall m :: m in before.Pending() && m.source.GoalRound? && m !in after.Pending() ==>
          |GoalRounds(after.Pending())| < |GoalRounds(before.Pending())|)
  }

  lemma ForeignClaim(events: seq<Event>, removal: Event, admission: Event, inbox: I.Inbox)
    requires I.Project(events) == Some(inbox) && I.Admissible(inbox, removal.kind)
    requires removal.kind.InboxSplice? && removal.kind.removed == Some(1) && removal.kind.inserted == []
    requires !removal.kind.canceled
    requires admission.kind == UserMessage(inbox.Queue(removal.kind.target)[removal.kind.start].text)
    requires OncePerRevision(events) && (ProjectGoal(events).Some? || Replay(events).None?)
    ensures var all, next := events + [removal, admission], I.Apply(inbox, removal.kind);
            && OncePerRevision(all) && (ProjectGoal(all).Some? || Replay(all).None?)
            && (ProjectGoal(all).Some? ==>
                  ProjectGoal(events).Some? && SameGoal(ProjectGoal(events).value, ProjectGoal(all).value))
            && (ProjectGoal(events).Some? && Ready(ProjectGoal(events).value, inbox) ==>
                  ProjectGoal(all).Some? && Ready(ProjectGoal(all).value, next))
            && Fewer(inbox, next)
    ensures ProjectGoal(events).Some? ==>
              ProjectGoal(events + [removal, admission])
              == AfterClaim(ProjectGoal(events).value, inbox.Queue(removal.kind.target)[removal.kind.start])
  {
    hide GoalRounds, I.Apply, I.Project, I.Admissible, Replay, Claimed;
    OnceKept(events, removal);
    OnceKept(events + [removal], admission);
    assert events + [removal, admission] == (events + [removal]) + [admission];
    NoRounds(removal.kind.inserted);
    RoundsLeft(inbox, removal.kind);
    ClaimsOne(inbox, removal.kind);
    if ProjectGoal(events).Some? {
      ClaimReady(events, removal, admission, inbox);
    } else {
      ReplayAppend(events, removal);
      ReplayAppend(events + [removal], admission);
    }
  }

  lemma QueuesAfterClaim(inbox: I.Inbox, target: Target, start: nat)
    requires I.Admissible(inbox, InboxSplice(target, start, Some(1), [], false)) && start < |inbox.Queue(target)|
    ensures var next := I.Apply(inbox, InboxSplice(target, start, Some(1), [], false));
            && next.Queue(target) == inbox.Queue(target)[..start] + inbox.Queue(target)[start + 1..]
            && next.seen == inbox.seen
            && (target.NextTurn? ==>
                  next.nextStep == inbox.nextStep && (start == 0 ==> next.nextTurn == inbox.nextTurn[1..]))
  {
    I.ApplyShape(inbox, InboxSplice(target, start, Some(1), [], false));
    hide I.Apply;
    var next := I.Apply(inbox, InboxSplice(target, start, Some(1), [], false));
    assert next.Queue(NextStep) == if target.NextTurn? then inbox.nextStep else next.Queue(NextStep);
  }

  /** A cancellation leaves the goal alone. */
  lemma CancelLeaves(inbox: I.Inbox, splice: Kind)
    requires I.Admissible(inbox, splice) && splice.InboxSplice? && splice.inserted == [] && splice.canceled
    ensures LeavesGoal(inbox, splice)
  {
    NoRounds(splice.inserted);
  }

  lemma ChangeReplays(events: seq<Event>, event: Event, inbox: I.Inbox)
    requires I.Project(events) == Some(inbox) && event.kind.GoalChange? && ProjectGoal(events).Some?
    ensures ProjectGoal(events + [event]) == ApplyEdit(ProjectGoal(events).value, event.kind.goal)
  {
    ReplayAppend(events, event);
    I.AdmissionKeeps(inbox, event.kind);
    if ApplyEdit(ProjectGoal(events).value, event.kind.goal).Some? {
      EditAdmitsNothing(ProjectGoal(events).value, event.kind.goal);
    }
  }

  lemma EditAdmitsNothing(state: State, edit: GoalEdit)
    requires state.admission.None? && ApplyEdit(state, edit).Some?
    ensures ApplyEdit(state, edit).value.admission.None?
  {
  }

  lemma NothingWaits(state: State, inbox: I.Inbox)
    requires GoalRounds(inbox.Pending()) == []
    ensures Ready(state, inbox)
  {
  }

  lemma FirstIsCurrent(state: State, inbox: I.Inbox)
    requires Ready(state, inbox) && state.current.Some?
    ensures GoalRounds(inbox.Pending()) != [] ==> GoalRounds(inbox.Pending())[0].id == state.current.value.goal.id
  {
    var rounds := GoalRounds(inbox.Pending());
    assert rounds != [] ==> MayStart(state, rounds[0].id, rounds[0].revision, rounds[0].round);
  }

  lemma NoneLeft(state: State, inbox: I.Inbox, goalId: Id)
    requires Ready(state, inbox) && state.current.Some? && state.current.value.goal.id == goalId
    requires forall i :: 0 <= i < |GoalRounds(inbox.Pending())| ==> GoalRounds(inbox.Pending())[i].id != goalId
    ensures GoalRounds(inbox.Pending()) == []
  {
    FirstIsCurrent(state, inbox);
  }

  function RoundMessage(view: View, messageId: Id, text: Text): Message {
    Message(messageId, FollowUp, text, GoalRound(view.goal.id, view.goal.revision, view.roundsStarted + 1))
  }

  lemma SubmissionReplays(events: seq<Event>, event: Event, inbox: I.Inbox, view: View, messageId: Id, text: Text)
    requires I.Project(events) == Some(inbox) && I.Admissible(inbox, event.kind)
    requires event.kind == Inbox.Splice(RoundMessage(view, messageId, text), |inbox.nextTurn|)
    requires OncePerRevision(events) && (ProjectGoal(events).Some? || Replay(events).None?)
    requires GoalRounds(inbox.Pending()) == [] && Driveable(view)
    requires (ProjectGoal(events).Some? ==> KnownView(ProjectGoal(events).value, view))
    ensures OncePerRevision(events + [event]) && ProjectGoal(events + [event]) == ProjectGoal(events)
    ensures Replay(events).None? ==> Replay(events + [event]).None?
    ensures |GoalRounds(I.Apply(inbox, event.kind).Pending())| == 1
    ensures I.Apply(inbox, event.kind).nextStep == inbox.nextStep
    ensures I.Apply(inbox, event.kind).seen == inbox.seen + {messageId}
    ensures forall m :: m in inbox.Pending() ==> m in I.Apply(inbox, event.kind).Pending()
    ensures ProjectGoal(events).Some? ==>
              var state, next := ProjectGoal(events).value, I.Apply(inbox, event.kind);
              && KnownRounds(state, GoalRounds(next.Pending()))
              && (!Moved(state, view) ==>
                    Ready(state, next) && state.current.Some? && state.current.value.goal.phase.Active?)
              && (view.goal.revision < U64_MAX ==> (Stale(state, next.Pending()) <==> Moved(state, view)))
  {
    hide I.Project, I.Admissible, I.Apply, Replay, GoalRounds, ApplyEdit, ValidGoal;
    OnceKept(events, event);
    ReplayAppend(events, event);
    var message, next := RoundMessage(view, messageId, text), I.Apply(inbox, event.kind);
    I.ApplyShape(inbox, event.kind);
    RoundsAfter(inbox, event.kind);
    assert inbox.nextTurn[|inbox.nextTurn|..|inbox.nextTurn|] == [];
    NoRounds([]);
    JustOne(message);
    assert next.Queue(NextTurn) == inbox.nextTurn[..|inbox.nextTurn|] + [message] + inbox.nextTurn[|inbox.nextTurn|..];
    assert next.Queue(NextStep) == inbox.nextStep;
    assert I.Ids([message]) == {messageId};
    assert GoalRounds(next.Pending())[0] in GoalRounds([message]);
    assert GoalRounds(next.Pending()) == RoundOf(message);
    if ProjectGoal(events).Some? {
      StaleUnlessMay(ProjectGoal(events).value, next.Pending(), message);
      if view.goal.revision < U64_MAX {
        StaleIfMoved(ProjectGoal(events).value, view);
      }
    }
  }

  lemma JustOne(message: Message)
    requires message.source.GoalRound?
    ensures GoalRounds([message]) == RoundOf(message)
  {
    assert [message][..0] == [] && GoalRounds([]) == [];
  }

  lemma StaleUnlessMay(state: State, pending: seq<Message>, message: Message)
    requires message.source.GoalRound? && GoalRounds(pending) == RoundOf(message)
    ensures Stale(state, pending) <==>
              !MayStart(state, message.source.goalId, message.source.revision, message.source.round)
  {
    assert RoundOf(message)[0] in GoalRounds(pending);
  }

  lemma ReadyIsFresh(state: State, inbox: I.Inbox)
    requires Ready(state, inbox)
    ensures !Stale(state, inbox.Pending())
  {
  }
}
