/** The vocabulary of one durable session log: the events the agent appends and
    the values they carry. Every other module reads its state back from a
    sequence of these events. */
module SessionEvents {

  datatype Option<+T> = None | Some(value: T)

  datatype Result<+T, +E> = Ok(value: T) | Err(error: E)

  newtype Octet = x: int | 0 <= x < 256

  /** Text as its UTF-8 octets, so that lengths are the byte lengths of the source. */
  type Text = seq<Octet>

  type Id = string

  const I64_MAX: int := 0x7fff_ffff_ffff_ffff
  const U64_MAX: int := 0xffff_ffff_ffff_ffff

  // ---- inbox ----

  datatype Delivery = FollowUp | Steer | Inject

  datatype Target = NextTurn | NextStep

  function TargetOf(delivery: Delivery): Target {
    if delivery.FollowUp? then NextTurn else NextStep
  }

  datatype Source =
    | Human
    | Team
    | Agent(agentId: Id)
    | OptionalQuestion(questionId: Id)
    | Job(jobId: Id)
    | GoalRound(goalId: Id, revision: nat, round: nat)
    | ScheduledAt(scheduleId: Id, occurrence: int)

  datatype Message = Message(id: Id, delivery: Delivery, text: Text, source: Source)

  // ---- schedules ----

  datatype Rule =
    | After(delay: nat)
    | At
    | Every(interval: nat)
    | Cron(expression: string, recurring: bool)
    | Wakeup(pause: nat)

  datatype Record = Record(
    id: Id,
    prompt: string,
    at: int,
    rule: Rule,
    createdAt: int,
    expiresAt: Option<int>,
    jitter: int)
  {
    predicate OneShot() {
      match rule
      case Every(_) => false
      case Cron(_, recurring) => !recurring
      case _ => true
    }
  }

  datatype ScheduleEdit =
    | CreateSchedule(schedule: Record)
    | DeleteSchedule(deleted: Id)
    | Dispatch(dispatched: Id, acceptedAt: int, messageId: Id)
    | Reschedule(rescheduled: Id, delayMs: nat, scheduledAt: int)

  // ---- goals ----

  datatype GoalRef = GoalRef(id: Id, revision: nat)

  datatype Phase = Active | Paused | Blocked | Complete

  datatype Goal = Goal(id: Id, revision: nat, objective: string, phase: Phase, reason: Option<string>, maxRounds: nat)
  {
    function Reference(): GoalRef { GoalRef(id, revision) }
  }

  datatype GoalAction = CreateGoal | EditGoal | PauseGoal | ResumeGoal | CompleteGoal | BlockGoal

  datatype GoalEdit =
    | Snapshot(action: GoalAction, goal: Goal, roundsStarted: nat, createdAt: int, updatedAt: int)
    | Clear(cleared: GoalRef, clearedAt: int)

  // ---- turns ----

  datatype TurnEndReason = Stop | MaxTokens | MaxSteps | Error | Aborted

  /** One opaque item of a provider-native checkpoint, and the route it is for. */
  datatype NativeItem = NativeItem(provider: string, model: string, protocol: Option<string>, valid: bool)

  datatype LoggedCall = LoggedCall(id: string, name: string, arguments: string)

  // ---- the log ----

  datatype Kind =
    | Other
    | InboxSplice(target: Target, start: nat, removed: Option<nat>, inserted: seq<Message>, canceled: bool)
    | UserMessage(text: Text)
    | UserAttachments
    | TurnStart(turn: nat)
    | TurnEnd(turn: nat, reason: TurnEndReason)
    | StepStart(turn: nat, step: nat)
    | StepEnd(turn: nat, step: nat)
    | AssistantChunk(turn: nat, step: nat, content: Option<string>, reasoning: Option<string>)
    | AssistantMessage(turn: nat, step: nat, message: string, calls: seq<LoggedCall>)
    | ToolCall(turn: nat)
    | ToolResult(turn: nat)
    | ServerToolCall(turn: nat, step: nat)
    | ProviderItem(turn: nat, step: nat)
    | ScheduleChange(schedule: ScheduleEdit)
    | GoalChange(goal: GoalEdit)
    | CompactionApplied(summary: Text, replacedUpto: nat)
    | NativeCompactionApplied(strategy: string, replacedUpto: nat, items: seq<NativeItem>)

  datatype Event = Event(seqNo: nat, time: int, kind: Kind)

  /** The log of one session: sequence numbers are positions, so they strictly
      increase, and time stamps come from one clock that never goes back. */
  ghost predicate WellFormed(events: seq<Event>, clock: int) {
    && (forall i :: 0 <= i < |events| ==> events[i].seqNo == i && events[i].time <= clock)
    && (forall i, j :: 0 <= i <= j < |events| ==> events[i].time <= events[j].time)
  }

  lemma WellFormedAppend(events: seq<Event>, clock: int, event: Event, now: int)
    requires WellFormed(events, clock) && clock <= event.time <= now && event.seqNo == |events|
    ensures WellFormed(events + [event], now)
  {
  }

  lemma WellFormedInit(events: seq<Event>, clock: int)
    requires WellFormed(events, clock) && events != []
    ensures WellFormed(events[..|events| - 1], clock)
    ensures |events| > 1 ==> events[|events| - 2].time <= events[|events| - 1].time
  {
  }
}
