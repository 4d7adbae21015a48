/** Durable timers over the inbox: a dispatch is two appends, a crash may fall
    between any two, and recovery completes what was left half done. */
module ScheduleService {
  import opened SessionEvents
  import opened Sessions
  import opened ScheduleProjection
  import opened ScheduleLog
  import opened ScheduleRestart
  import I = InboxProjection
  import Inbox = InboxOperations

  datatype ScheduleError = Invalid | NotFound | Limit | Uncertain | Unavailable

  /** No reminder of this schedule lacks its dispatch record. */
  ghost predicate ClearOf(state: Option<State>, reminders: seq<Reminder>, id: Id) {
    state.Some? ==> forall r :: r in reminders && r.scheduleId == id ==> !Orphan(state.value, r)
  }

  /** The running timers: at most one per schedule, none for a schedule with an
      orphan, and cancelled ones that already woke hold an outdated record. */
  ghost predicate TimersAgree(
    state: Option<State>, reminders: seq<Reminder>, slots: set<Id>, live: map<Id, Option<Record>>, woken: set<Record>,
    clock: int)
  {
    && live.Keys <= slots
    && (forall id :: id in live && live[id].Some? ==> live[id].value.id == id)
    && (forall z :: z in woken ==> z.at <= clock)
    && (state.Some? ==>
          && (forall id :: id in live ==> id in state.value.seen && ClearOf(state, reminders, id))
          && (forall z :: z in woken ==> z.id in state.value.seen
                                         && (z.id in state.value.active ==> z.at < state.value.active[z.id].at)))
  }

  lemma TimersLater(
    state: Option<State>, reminders: seq<Reminder>, slots: set<Id>, live: map<Id, Option<Record>>, woken: set<Record>,
    clock: int, later: int)
    requires TimersAgree(state, reminders, slots, live, woken, clock) && clock <= later
    ensures TimersAgree(state, reminders, slots, live, woken, later)
  {
  }

  lemma TimersAfterEdit(
    state: State, reminders: seq<Reminder>, slots: set<Id>, live: map<Id, Option<Record>>, woken: set<Record>,
    clock: int,
    edit: ScheduleEdit, time: int, calendar: Calendar)
    requires TimersAgree(Some(state), reminders, slots, live, woken, clock) && clock <= time
    requires ApplyEdit(state, edit, time, calendar).Some?
    requires var next := ApplyEdit(state, edit, time, calendar).value;
             forall r :: r in reminders && Orphan(next, r) ==> Orphan(state, r)
    ensures TimersAgree(ApplyEdit(state, edit, time, calendar), reminders, slots, live, woken, time)
  {
    var next := ApplyEdit(state, edit, time, calendar).value;
    EditNames(state, edit, time, calendar);
    forall id | id in live ensures id in next.seen && ClearOf(Some(next), reminders, id) {
      assert ClearOf(Some(state), reminders, id);
    }
    forall z | z in woken && z.id in next.active ensures z.at < next.active[z.id].at {
      if edit.Dispatch? && edit.dispatched == z.id {
        AdvanceIsLater(state.active[z.id], edit.acceptedAt, calendar);
      }
    }
  }

  /** Everything one accepted schedule change keeps. */
  lemma EditApplied(
    events: seq<Event>, event: Event, base: nat, calendar: Calendar,
    slots: set<Id>, live: map<Id, Option<Record>>, woken: set<Record>, clock: int)
    requires Sound(events, base, calendar) && event.kind.ScheduleChange? && event.seqNo >= base && clock <= event.time
    requires events != [] ==> events[|events| - 1].time <= event.time
    requires Justified(events, event.kind.schedule, base, calendar)
    requires Replay(events, base, calendar).Some?
    requires TimersAgree(Replay(events, base, calendar), Reminders(events, base), slots, live, woken, clock)
    ensures Sound(events + [event], base, calendar)
    ensures Reminders(events + [event], base) == Reminders(events, base)
    ensures DeletedIds(events + [event], base)
            == if event.kind.schedule.DeleteSchedule? then DeletedIds(events, base) + {event.kind.schedule.deleted}
              else DeletedIds(events, base)
    ensures var next := Replay(events + [event], base, calendar);
            && next == ApplyEdit(Replay(events, base, calendar).value, event.kind.schedule, event.time, calendar)
            && TimersAgree(next, Reminders(events, base), slots, live, woken, event.time)
            && (next.Some? ==> Replay(events, base, calendar).value.seen <= next.value.seen)
            && (next.Some? ==> forall r :: r in Reminders(events, base) && Orphan(next.value, r)
                                           ==> Orphan(Replay(events, base, calendar).value, r))
  {
    assert (events + [event])[..|events|] == events;
    ReplayEdit(events, event, base, calendar);
    SoundEdit(events, event, base, calendar);
    if Replay(events + [event], base, calendar).Some? {
      EditNames(Replay(events, base, calendar).value, event.kind.schedule, event.time, calendar);
      TimersAfterEdit(Replay(events, base, calendar).value, Reminders(events, base), slots, live, woken, clock,
                      event.kind.schedule, event.time, calendar);
    }
  }

  /** Only a new wakeup target depends on the moment its change is recorded. */
  lemma EditTimeless(state: State, edit: ScheduleEdit, first: int, second: int, calendar: Calendar)
    requires !edit.Reschedule?
    ensures ApplyEdit(state, edit, first, calendar) == ApplyEdit(state, edit, second, calendar)
  {
  }

  /** The reminders whose dispatch record is still missing. */
  function Unrecorded(state: Option<State>, reminders: seq<Reminder>): set<Id> {
    if state.None? then {} else set r | r in reminders && r.messageId !in state.value.dispatched :: r.messageId
  }

  lemma LastTime(events: seq<Event>, clock: int)
    requires WellFormed(events, clock)
    ensures events != [] ==> events[|events| - 1].time <= clock
  {
  }

  lemma DispatchRecords(
    state: State, reminders: seq<Reminder>, reminder: Reminder, accepted: int, time: int, calendar: Calendar)
    requires reminder in reminders && reminder.messageId !in state.dispatched
    requires ApplyEdit(state, Dispatch(reminder.scheduleId, accepted, reminder.messageId), time, calendar).Some?
    ensures var edit := Dispatch(reminder.scheduleId, accepted, reminder.messageId);
            Unrecorded(ApplyEdit(state, edit, time, calendar), reminders) < Unrecorded(Some(state), reminders)
  {
    EditNames(state, Dispatch(reminder.scheduleId, accepted, reminder.messageId), time, calendar);
    assert reminder.messageId in Unrecorded(Some(state), reminders);
  }

  /** Whether the log replays with one more change, whenever it is recorded. */
  ghost predicate Accepts(state: Option<State>, edit: ScheduleEdit, calendar: Calendar) {
    state.Some? && ApplyEdit(state.value, edit, 0, calendar).Some?
  }

  /** Append one schedule change, if the log would still replay with it. */
  method AppendScheduleChange(session: Session, base: nat, calendar: Calendar, edit: ScheduleEdit) returns (ok: bool)
    requires session.Valid() && base <= session.durable && Sound(session.events, base, calendar)
    requires Justified(session.events, edit, base, calendar)
    modifies session
    ensures session.Valid() && session.durable == old(session.durable) && session.inbox == old(session.inbox)
    ensures old(session.clock) <= session.clock && Sound(session.events, base, calendar)
    ensures !ok ==> session.events == old(session.events)
    ensures Accepting(session, 0) && !edit.Reschedule? ==>
              (ok <==> Accepts(Replay(old(session.events), base, calendar), edit, calendar))
    ensures ok ==>
              && Replay(old(session.events), base, calendar).Some?
              && session.events == old(session.events)
                 + [Event(|old(session.events)|, session.clock, ScheduleChange(edit))]
              && (old(session.events) != [] ==> old(session.events)[|old(session.events)| - 1].time <= session.clock)
              && (Replay(session.events, base, calendar).None?
                  <==> TooLate(Replay(old(session.events), base, calendar).value, edit, session.clock))
    ensures Accepting(session, 0) && edit.Reschedule? && Replay(old(session.events), base, calendar).Some? && !ok ==>
              ApplyEdit(Replay(old(session.events), base, calendar).value, edit, session.clock, calendar).None?
    ensures OnlyLate(old(session.events), base, calendar) ==> OnlyLate(session.events, base, calendar)
  {
    hide Sound, Replay, Reminders, ApplyEdit, I.Project, I.Apply, WellFormed, OnlyLate;
    ghost var events := session.events;
    LastTime(events, session.clock);
    var now := session.Now();
    var candidate := Event(|session.events|, now, ScheduleChange(edit));
    if !edit.Reschedule? && Replay(events, base, calendar).Some? {
      EditTimeless(Replay(events, base, calendar).value, edit, now, 0, calendar);
    }
    if Replay(session.events + [candidate], base, calendar).None? {
      ReplayEdit(session.events, candidate, base, calendar);
      return false;
    }
    ReplayEdit(session.events, candidate, base, calendar);
    I.AdmissionKeeps(session.inbox, ScheduleChange(edit));
    ok := session.Append(ScheduleChange(edit));
    if ok {
      var event := session.events[|events|];
      assert session.events == events + [event];
      ReplayEdit(events, event, base, calendar);
      SoundEdit(events, event, base, calendar);
      LateExactly(Replay(events, base, calendar).value, edit, now, event.time, calendar);
      if OnlyLate(events, base, calendar) {
        OnlyLateExtend(events, event, base, calendar);
      }
    }
  }

  /** A cancelled message is pending nowhere. */
  lemma CancelTakesOut(events: seq<Event>, inbox: I.Inbox, id: Id, splice: Kind)
    requires I.Project(events) == Some(inbox) && Inbox.Locate(inbox, id).Some?
    requires var found := Inbox.Locate(inbox, id).value;
             splice == InboxSplice(found.0, found.1, Some(1), [], true) && I.Admissible(inbox, splice)
    ensures id !in I.Ids(I.Apply(inbox, splice).Pending())
  {
    hide I.Tidy, I.Apply, I.Project, I.Admissible, Inbox.Locate;
    I.AlwaysTidy(events);
    I.TidyApply(inbox, splice);
    var found := Inbox.Locate(inbox, id).value;
    var gone := inbox.Queue(found.0)[found.1..found.1 + 1];
    assert gone == [inbox.Queue(found.0)[found.1]];
    assert gone[0].id == id && id in I.Ids(gone) && I.Ids([]) == {};
  }

  /** One accepted append that says nothing of schedules. */
  lemma CancelKeeps(
    events: seq<Event>, event: Event, base: nat, calendar: Calendar, inbox: I.Inbox)
    requires Sound(events, base, calendar) && I.Project(events) == Some(inbox)
    requires events != [] ==> events[|events| - 1].time <= event.time
    requires event.kind.InboxSplice? && event.kind.inserted == [] && I.Admissible(inbox, event.kind)
    ensures Sound(events + [event], base, calendar)
    ensures Reminders(events + [event], base) == Reminders(events, base)
    ensures Replay(events + [event], base, calendar) == Replay(events, base, calendar)
    ensures DeletedIds(events + [event], base) == DeletedIds(events, base)
    ensures forall id :: Waiting(I.Apply(inbox, event.kind), id) <= Waiting(inbox, id)
  {
    SoundUnmentioned(events, event, base, calendar);
    forall id ensures Waiting(I.Apply(inbox, event.kind), id) <= Waiting(inbox, id) {
      WaitingShrinks(inbox, event.kind, id);
    }
  }

  function ReminderMessage(record: Record, messageId: Id, text: Text): Message {
    Message(messageId, FollowUp, text, ScheduledAt(record.id, record.at))
  }

  /** This message, and nothing else, was inserted by some logged splice. */
  ghost predicate WasInserted(events: seq<Event>, message: Message) {
    exists i :: 0 <= i < |events| && InsertsOnly(events[i], message)
  }

  predicate InsertsOnly(event: Event, message: Message) {
    event.kind.InboxSplice? && event.kind.target == NextTurn && event.kind.inserted == [message]
  }

  lemma StaysInserted(before: seq<Event>, after: seq<Event>, message: Message)
    requires before <= after && WasInserted(before, message)
    ensures WasInserted(after, message)
  {
    var i :| 0 <= i < |before| && InsertsOnly(before[i], message);
    assert InsertsOnly(after[i], message);
  }

  /** The first append of a dispatch: the reminder becomes an orphan. */
  lemma ReminderApplied(
    events: seq<Event>, event: Event, base: nat, calendar: Calendar, record: Record, messageId: Id, text: Text,
    slots: set<Id>, live: map<Id, Option<Record>>, woken: set<Record>, clock: int)
    requires Sound(events, base, calendar) && Replay(events, base, calendar).Some?
    requires I.Project(events).Some? && messageId !in I.Project(events).value.seen
    requires event.seqNo >= base && record.at <= clock <= event.time
    requires event.kind.InboxSplice? && event.kind.inserted == [ReminderMessage(record, messageId, text)]
    requires events != [] ==> events[|events| - 1].time <= event.time
    requires var state := Replay(events, base, calendar).value;
             && record.id in state.armed && record.id in state.active && state.active[record.id] == record
             && record.id !in live && ClearOf(Some(state), Reminders(events, base), record.id)
    requires TimersAgree(Replay(events, base, calendar), Reminders(events, base), slots, live, woken, clock)
    ensures Sound(events + [event], base, calendar)
    ensures Reminders(events + [event], base) == Reminders(events, base) + [Reminder(messageId, record.id, record.at)]
    ensures DeletedIds(events + [event], base) == DeletedIds(events, base)
    ensures var state, next := Replay(events, base, calendar).value, Replay(events + [event], base, calendar);
            && next == Some(state.(enqueued := state.enqueued[messageId := (record.id, record.at)]))
            && TimersAgree(next, Reminders(events + [event], base), slots, live, woken, event.time)
  {
    SoundInsert(events, event, ReminderMessage(record, messageId, text), base, calendar);
    assert (events + [event])[..|events|] == events;
    hide Sound, Replay, Reminders, I.Project;
    var state, next := Replay(events, base, calendar).value, Replay(events + [event], base, calendar);
    forall id | id in live ensures ClearOf(next, Reminders(events + [event], base), id) {
      assert ClearOf(Some(state), Reminders(events, base), id);
    }
  }

  /** The second append of a dispatch: no orphan of its schedule is left. */
  lemma DispatchClears(
    events: seq<Event>, base: nat, calendar: Calendar, added: Reminder, accepted: int, time: int)
    requires Sound(events, base, calendar) && Replay(events, base, calendar).Some?
    requires added in Reminders(events, base)
    requires var state := Replay(events, base, calendar).value;
             added.scheduleId in state.active && state.active[added.scheduleId].at == added.occurrence
    requires var edit := Dispatch(added.scheduleId, accepted, added.messageId);
             ApplyEdit(Replay(events, base, calendar).value, edit, time, calendar).Some?
    ensures ClearOf(
              ApplyEdit(Replay(events, base, calendar).value, Dispatch(added.scheduleId, accepted, added.messageId),
                time, calendar),
              Reminders(events, base), added.scheduleId)
  {
    SoundNow(events, base, calendar);
    hide Sound, Replay, Reminders, ApplyEdit, AtMostOnce, Agrees;
    var state, reminders := Replay(events, base, calendar).value, Reminders(events, base);
    AgreesDispatch(state, reminders, added.scheduleId, accepted, added.messageId, time, calendar);
    var next := ApplyEdit(state, Dispatch(added.scheduleId, accepted, added.messageId), time, calendar).value;
    forall r | r in reminders && r.scheduleId == added.scheduleId ensures !Orphan(next, r) {
      if Orphan(next, r) {
        OnlyReminder(reminders, r, added);
      }
    }
  }

  lemma DeleteAccepted(state: State, id: Id, time: int, calendar: Calendar)
    requires id in state.active
    ensures ApplyEdit(state, DeleteSchedule(id), time, calendar).Some?
  {
  }

  lemma DeleteRemoves(state: State, id: Id, time: int, calendar: Calendar)
    requires ApplyEdit(state, DeleteSchedule(id), time, calendar).Some?
    ensures var next := ApplyEdit(state, DeleteSchedule(id), time, calendar).value;
            && next.active == state.active - {id}
            && forall other :: other in next.active ==> Same(state, next, other)
  {
  }

  datatype Operation =
    | Foreign
    | Creation(record: Record)
    | Deletion(id: Id, requireWakeup: bool)
    | Rescheduling(id: Id, delay: nat)
    | Listing
    | Rearming
    | Inherited
    | Reading(id: Id)
    | Firing(id: Id, messageId: Id, active: bool)
    | WokenFiring(record: Record, messageId: Id, active: bool)
    | Closing
    | Crashing(kept: nat)

  class DurableScheduleService {
    const session: Session
    /** First sequence number of this session's own suffix. */
    const base: nat
    const calendar: Calendar
    /** The reminder text of a record, unless it cannot be encoded. */
    const render: Record -> Option<Text>

    var slots: set<Id>
    /** Running timers, with the record each waits for once it has read one. */
    var live: map<Id, Option<Record>>
    /** Cancelled timers that had already woken and may still try to dispatch. */
    var woken: set<Record>
    var closed: bool
    /** Messages announced to the agent. */
    var published: seq<Id>

    constructor (session: Session, base: nat, calendar: Calendar, render: Record -> Option<Text>)
      requires session.Valid() && base <= session.durable && Sound(session.events, base, calendar)
      ensures Valid() && this.session == session && this.base == base && this.calendar == calendar
      ensures this.render == render
      ensures slots == {} && live == map[] && woken == {} && !closed && published == []
    {
      this.session, this.base, this.calendar, this.render := session, base, calendar, render;
      slots, live, woken, closed, published := {}, map[], {}, false, [];
    }

    ghost function Schedules(): Option<State>
      reads session
    {
      Replay(session.events, base, calendar)
    }

    ghost function Sent(): seq<Reminder>
      reads session
    {
      Reminders(session.events, base)
    }

    /** The schedules that a local record deletes. */
    ghost function Erased(): set<Id>
      reads session
    {
      DeletedIds(session.events, base)
    }

    ghost predicate Recorded(messageId: Id)
      reads session
    {
      exists i :: 0 <= i < session.durable && i < |session.events| && RecordsDispatch(session.events[i], messageId)
    }

    /** Every dispatch record is in the durable part of the log. */
    ghost predicate NamesDurable()
      reads session
    {
      forall m :: m in Named(session.events, base) ==> Recorded(m)
    }

    ghost predicate Valid()
      reads this, session
    {
      && session.Valid() && base <= session.durable
      && Sound(session.events, base, calendar)
      && TimersAgree(Schedules(), Sent(), slots, live, woken, session.clock)
      && (forall m :: m in published ==> Recorded(m))
    }

    /** Durably deleted and with nothing left in the inbox. */
    ghost predicate Quiet(id: Id)
      reads session
    {
      Deleted(session.events, session.durable, base, id) && Waiting(session.inbox, id) == {}
    }

    /** What every step short of a crash leaves in place. */
    twostate predicate Steady()
      reads this, session
    {
      && old(session.events) <= session.events
      && old(session.durable) <= session.durable
      && old(session.clock) <= session.clock
      && old(published) <= published
      && (forall id :: old(Quiet(id)) ==> Quiet(id))
      && (old(OnlyLateBreaks()) ==> OnlyLateBreaks())
    }

    /** Nothing but a late postponement ever made the schedules unreadable. */
    ghost predicate OnlyLateBreaks()
      reads session
    {
      OnlyLate(session.events, base, calendar)
    }

    /** A grown log in which only live schedules gained reminders keeps every
        quiet schedule quiet. */
    twostate lemma QuietStays()
      requires old(session.events) <= session.events && old(session.durable) <= session.durable
      requires forall id :: old(Deleted(session.events, session.durable, base, id)) ==>
                 Waiting(session.inbox, id) <= old(Waiting(session.inbox, id))
      ensures forall id :: old(Quiet(id)) ==> Quiet(id)
    {
      forall id | old(Quiet(id)) ensures Quiet(id) {
        var i :| 0 <= i < old(session.durable) && i < |old(session.events)|
          && DeletedBy(old(session.events)[i], base, id);
        assert DeletedBy(session.events[i], base, id);
        assert Waiting(session.inbox, id) <= old(Waiting(session.inbox, id));
      }
    }

    twostate lemma RecordedStays()
      requires old(session.events) <= session.events && old(session.durable) <= session.durable
      ensures forall m :: old(Recorded(m)) ==> Recorded(m)
    {
      forall m | old(Recorded(m)) ensures Recorded(m) {
        var i :| 0 <= i < old(session.durable) && i < |old(session.events)|
          && RecordsDispatch(old(session.events)[i], m);
        assert RecordsDispatch(session.events[i], m);
      }
    }

    // ---- the log ----

    method Others()
      requires Valid()
      modifies session
      ensures Valid() && Steady() && session.durable == old(session.durable)
      ensures Schedules() == old(Schedules()) && Sent() == old(Sent()) && Erased() == old(Erased())
      ensures forall id :: Waiting(session.inbox, id) <= old(Waiting(session.inbox, id))
      ensures old(NamesDurable()) ==> NamesDurable()
      ensures CanRecover() == old(CanRecover())
    {
      ghost var before := session.events;
      session.Interleave(kind => !MentionsSchedules(kind));
      NamedForeign(before, session.events, base);
      SoundForeign(before, session.events, base, calendar, session.clock);
      forall id ensures Waiting(session.inbox, id) <= old(Waiting(session.inbox, id)) {
        WaitingForeign(before, session.events, id);
      }
      if Schedules().Some? {
        RecoverableForeign(before, session.events, base, Schedules().value, calendar);
      }
      if old(OnlyLateBreaks()) {
        OnlyLateForeign(before, session.events, base, calendar);
      }
      QuietStays();
      RecordedStays();
    }

    method Checkpoint() returns (ok: bool)
      requires Valid()
      modifies session
      ensures Valid() && Steady() && session.events == old(session.events) && session.inbox == old(session.inbox)
      ensures session.clock == old(session.clock)
      ensures ok ==> session.durable == |session.events| && NamesDurable()
      ensures Accepting(session, 0) ==> ok
    {
      ok := session.Flush();
      QuietStays();
      RecordedStays();
      if ok {
        forall m | m in Named(session.events, base) ensures Recorded(m) {
          NamedSomewhere(session.events, base, m);
        }
      }
    }

    /** Append one schedule change, if the log would still replay with it. */
    method AppendChange(edit: ScheduleEdit) returns (ok: bool)
      requires Valid() && Justified(session.events, edit, base, calendar)
      modifies session
      ensures Valid() && Steady() && session.durable == old(session.durable) && session.inbox == old(session.inbox)
      ensures Sent() == old(Sent())
      ensures Accepting(session, 0) && !edit.Reschedule? ==> (ok <==> Accepts(old(Schedules()), edit, calendar))
      ensures Erased() == if ok && edit.DeleteSchedule? then old(Erased()) + {edit.deleted} else old(Erased())
      ensures !ok ==> session.events == old(session.events)
      ensures ok ==>
                && old(Schedules()).Some?
                && session.events == old(session.events)
                   + [Event(|old(session.events)|, session.clock, ScheduleChange(edit))]
                && Schedules() == ApplyEdit(old(Schedules()).value, edit, session.clock, calendar)
                && (!edit.Reschedule? ==> Schedules().Some?)
                && (Schedules().None? <==> TooLate(old(Schedules()).value, edit, session.clock))
      ensures Accepting(session, 0) && edit.Reschedule? && old(Schedules()).Some? && !ok ==>
                ApplyEdit(old(Schedules()).value, edit, session.clock, calendar).None?
      ensures ok && Schedules().Some? ==> old(Schedules()).value.seen <= Schedules().value.seen
      ensures ok && Schedules().Some? ==>
                forall r :: r in Sent() && Orphan(Schedules().value, r) ==> Orphan(old(Schedules()).value, r)
    {
      hide Sound, Replay, Reminders, TimersAgree, I.Project, WellFormed, Quiet, Recorded, ApplyEdit, DeletedIds,
        OnlyLate;
      ghost var events, clock := session.events, session.clock;
      assert TimersAgree(Replay(events, base, calendar), Reminders(events, base), slots, live, woken, clock);
      ok := AppendScheduleChange(session, base, calendar, edit);
      if ok {
        EditApplied(events, session.events[|events|], base, calendar, slots, live, woken, clock);
      } else {
        TimersLater(Replay(events, base, calendar), Reminders(events, base), slots, live, woken, clock, session.clock);
      }
      QuietStays();
      RecordedStays();
    }

    // ---- recovery ----

    /** The log replays, and no inserted reminder lacks its dispatch record. */
    ghost predicate AllRecorded()
      reads session
    {
      Schedules().Some? && NoOrphans(Schedules().value, Sent())
    }

    /** Then every reminder is named by exactly one dispatch record, a durable one. */
    lemma RecordedExactlyOnce()
      requires Valid() && AllRecorded()
      ensures forall r :: r in Sent() ==> DispatchesOf(session.events, base, r.messageId) == 1
      ensures NamesDurable() ==> forall r :: r in Sent() ==> Recorded(r.messageId)
    {
      hide I.Project, WellFormed, Replay, Reminders, DispatchesOf, Recorded, Named;
      SoundNow(session.events, base, calendar);
      NamedIsDispatched(session.events, base, calendar);
      forall r | r in Sent()
        ensures DispatchesOf(session.events, base, r.messageId) == 1 && r.messageId in Named(session.events, base)
      {
        DispatchedOnce(session.events, base, calendar, r.messageId);
        assert Tracked(Schedules().value, r) && !Orphan(Schedules().value, r);
      }
    }

    lemma NothingToRecover()
      requires Schedules().Some? && NoOrphans(Schedules().value, Sent())
      ensures CanRecover()
    {
      hide Replay, Reminders, Advance, Orphan;
      forall k, r | InsertedAt(session.events, base, k, r) ensures !Orphan(Schedules().value, r) {
        InsertedIsReminder(session.events, base, k, r);
      }
    }

    lemma OverflowStops(k: int, r: Reminder)
      requires Schedules().Some? && InsertedAt(session.events, base, k, r) && Orphan(Schedules().value, r)
      ensures var record, accepted := Schedules().value.active[r.scheduleId], AcceptedAt(session.events[k].time, r);
              Advance(record, accepted, calendar).Overflow? ==> !CanRecover()
    {
      hide Replay, Reminders, Advance, Orphan;
    }

    /** Recovery can record every dispatch that stopped between its two appends. */
    ghost predicate CanRecover()
      reads session
    {
      Schedules().Some? && Recoverable(session.events, base, Schedules().value, calendar)
    }

    lemma AcceptedByNow(k: int, r: Reminder)
      requires Valid() && InsertedAt(session.events, base, k, r) && r in Sent()
      ensures AcceptedAt(session.events[k].time, r) <= session.clock
    {
      hide Replay, Reminders, I.Project, AtMostOnce, Agrees;
      SoundNow(session.events, base, calendar);
    }

    lemma RecordedFate(
      events: seq<Event>, before: State, state: State, r: Reminder, accepted: int, time: int, now: int)
      requires Sound(events, base, calendar) && Replay(events, base, calendar) == Some(state)
      requires r in Reminders(events, base) && Orphan(state, r) && accepted <= now
      requires ApplyEdit(state, Dispatch(r.scheduleId, accepted, r.messageId), time, calendar).Some?
      requires Recovered(before, state, Reminders(events, base), now)
      ensures var edit := Dispatch(r.scheduleId, accepted, r.messageId);
              Recovered(before, ApplyEdit(state, edit, time, calendar).value, Reminders(events, base), now)
    {
      hide Replay, Reminders, ApplyEdit, AtMostOnce, Agrees, Recovered;
      SoundNow(events, base, calendar);
      RecoverMore(before, state, Reminders(events, base), r, accepted, time, now, calendar);
    }

    /** Record one dispatch that stopped between its two appends, and checkpoint. */
    method RecordOne(reminder: Reminder, enqueuedAt: int) returns (ok: bool)
      requires Valid() && NamesDurable() && Schedules().Some?
      requires reminder in Sent() && reminder.messageId !in Schedules().value.dispatched
      requires Orphan(Schedules().value, reminder)
      requires exists k :: InsertedAt(session.events, base, k, reminder) && session.events[k].time == enqueuedAt
      modifies session
      ensures Valid() && Steady() && Sent() == old(Sent()) && Erased() == old(Erased())
      ensures session.inbox == old(session.inbox)
      ensures Schedules().Some? && CanRecover() == old(CanRecover())
      ensures ok ==> NamesDurable() && Unrecorded(Schedules(), Sent()) < old(Unrecorded(Schedules(), Sent()))
      ensures forall before: State :: old(Recovered(before, Schedules().value, Sent(), session.clock)) ==>
                Recovered(before, Schedules().value, Sent(), session.clock)
      ensures Accepting(session, 0) && !ok ==> !CanRecover()
    {
      hide TimersAgree, Sound, WellFormed, I.Project, Quiet, Recorded, Replay, Reminders, Named, ApplyEdit, Waiting,
        DeletedIds, Recoverable, Advance, Unrecorded, OnlyLate, TooLate, Recovered;
      var accepted := if enqueuedAt > reminder.occurrence then enqueuedAt else reminder.occurrence;
      ghost var k :| InsertedAt(session.events, base, k, reminder) && session.events[k].time == enqueuedAt;
      RecordsUnlessOverflow(session.events, base, calendar, reminder, accepted, 0);
      OverflowStops(k, reminder);
      ghost var events, state := session.events, Schedules().value;
      AcceptedByNow(k, reminder);
      ghost var clock := session.clock;
      ok := AppendChange(Dispatch(reminder.scheduleId, accepted, reminder.messageId));
      forall before | Recovered(before, state, Sent(), clock)
        ensures Recovered(before, Schedules().value, Sent(), session.clock)
      {
        RecoveredLater(before, state, Sent(), clock, session.clock);
        if ok {
          RecordedFate(events, before, state, reminder, accepted, session.clock, session.clock);
        }
      }
      if !ok {
        return;
      }
      RecordingKeepsRecoverable(events, session.events[|events|], base, calendar, k, reminder);
      DispatchRecords(state, Sent(), reminder, accepted, session.clock, calendar);
      ok := Checkpoint();
    }

    /** Complete, oldest first, every dispatch that stopped between its two
        appends. Each round records one more reminder, so the loop ends. Over a store
        that accepts, it succeeds exactly if every next target exists: one that does
        not makes recovery fail for all schedules. */
    method RecoverEnqueued() returns (r: Result<(), ScheduleError>)
      requires Valid() && NamesDurable()
      modifies session
      ensures Valid() && Steady() && Sent() == old(Sent()) && Erased() == old(Erased())
      ensures forall id :: Waiting(session.inbox, id) <= old(Waiting(session.inbox, id))
      ensures if r.Ok? then AllRecorded() && NamesDurable() else r.error.Uncertain?
      ensures old(Schedules()).Some? ==>
                Schedules().Some? && Recovered(old(Schedules()).value, Schedules().value, Sent(), session.clock)
      ensures CanRecover() == old(CanRecover()) && (r.Ok? ==> CanRecover())
      ensures Accepting(session, 0) ==> (r.Ok? <==> old(CanRecover()))
    {
      hide TimersAgree, Sound, WellFormed, I.Project, Quiet, Recorded, Replay, Reminders, Named, FindOrphan, ApplyEdit,
        Waiting, DeletedIds, Recoverable, Advance, Unrecorded, OnlyLateBreaks, InsertedAt, Recovered;
      if Schedules().Some? {
        NothingRecovered(Schedules().value, Sent(), session.clock);
      }
      while true
        invariant Valid() && Steady() && Sent() == old(Sent()) && Erased() == old(Erased())
        invariant forall id :: Waiting(session.inbox, id) <= old(Waiting(session.inbox, id))
        invariant old(Schedules()).Some? ==> Schedules().Some?
        invariant old(Schedules()).Some? ==>
                    Recovered(old(Schedules()).value, Schedules().value, Sent(), session.clock)
        invariant NamesDurable() && CanRecover() == old(CanRecover())
        decreases Unrecorded(Schedules(), Sent())
      {
        ghost var clock := session.clock;
        Others();
        if old(Schedules()).Some? {
          RecoveredLater(old(Schedules()).value, Schedules().value, Sent(), clock, session.clock);
        }
        var state := Replay(session.events, base, calendar);
        if state.None? {
          return Err(Uncertain);
        }
        var found := FindOrphan(session.events, base, state.value, Named(session.events, base));
        FindsOrphan(session.events, base, state.value, Named(session.events, base));
        NamedIsDispatched(session.events, base, calendar);
        if found.None? {
          NothingToRecover();
          return Ok(());
        }
        var (reminder, enqueuedAt) := found.value;
        var ok := RecordOne(reminder, enqueuedAt);
        if !ok {
          return Err(Uncertain);
        }
      }
    }

    // ---- withdrawing reminders ----

    method CancelOne(id: Id) returns (ok: bool)
      requires Valid()
      modifies session
      ensures Valid() && Steady() && session.durable == old(session.durable)
      ensures Schedules() == old(Schedules()) && Sent() == old(Sent()) && Erased() == old(Erased())
      ensures forall s :: Waiting(session.inbox, s) <= old(Waiting(session.inbox, s))
      ensures CanRecover() == old(CanRecover()) && (Accepting(session, 0) ==> ok)
      ensures ok ==> forall s :: id !in Waiting(session.inbox, s)
    {
      hide Sound, Replay, Reminders, TimersAgree, I.Project, I.Apply, I.Admissible, WellFormed, Quiet, Recorded,
        Waiting, Recoverable, OnlyLate, DeletedIds, Orphan, Inbox.Locate;
      Others();
      label before:
      ghost var events, inbox, clock := session.events, session.inbox, session.clock;
      LastTime(events, clock);
      var r := Inbox.CancelInbox(session, id);
      ok := r.Ok?;
      if r.Ok? && r.value {
        assert r == Ok(true);
        StillRecoverable(events, session.events[|events|]);
        CancelKeeps(events, session.events[|events|], base, calendar, inbox);
        CancelTakesOut(events, inbox, id, session.events[|events|].kind);
      } else if r.Ok? {
        assert r == Ok(false);
      }
      TimersLater(Replay(events, base, calendar), Reminders(events, base), slots, live, woken, clock, session.clock);
      QuietStays@before();
      RecordedStays@before();
      forall s ensures ok ==> id !in Waiting(session.inbox, s) {
        WaitingPending(session.inbox, s);
      }
    }

    /** Withdrawing a message says nothing of schedules. */
    lemma StillRecoverable(events: seq<Event>, event: Event)
      requires session.events == events + [event] && event.kind.InboxSplice? && event.kind.inserted == []
      ensures Schedules().Some? ==>
                (Recoverable(session.events, base, Schedules().value, calendar) <==>
                  Recoverable(events, base, Schedules().value, calendar))
      ensures OnlyLate(events, base, calendar) ==> OnlyLateBreaks()
    {
      hide Replay, Recoverable, OnlyLate;
      assert RemindersIn(event.kind.inserted) == [];
      if OnlyLate(events, base, calendar) {
        OnlyLateForeign(events, session.events, base, calendar);
      }
      if Schedules().Some? {
        RecoverableForeign(events, session.events, base, Schedules().value, calendar);
      }
    }

    /** Cancel each message; a cancellation may find its message already claimed. */
    method CancelAll(ids: seq<Id>) returns (ok: bool)
      requires Valid()
      modifies session
      ensures Valid() && Steady() && session.durable == old(session.durable)
      ensures Schedules() == old(Schedules()) && Sent() == old(Sent()) && Erased() == old(Erased())
      ensures forall s :: Waiting(session.inbox, s) <= old(Waiting(session.inbox, s))
      ensures CanRecover() == old(CanRecover()) && (Accepting(session, 0) ==> ok)
      ensures ok ==> forall s, id :: id in ids ==> id !in Waiting(session.inbox, s)
    {
      hide Sound, Replay, Reminders, TimersAgree, I.Project, WellFormed, Quiet, Recorded, Waiting, CanRecover;
      for i := 0 to |ids|
        invariant Valid() && Steady() && session.durable == old(session.durable)
        invariant Schedules() == old(Schedules()) && Sent() == old(Sent()) && Erased() == old(Erased())
        invariant forall s :: Waiting(session.inbox, s) <= old(Waiting(session.inbox, s))
        invariant CanRecover() == old(CanRecover())
        invariant forall s, j :: 0 <= j < i ==> ids[j] !in Waiting(session.inbox, s)
      {
        ok := CancelOne(ids[i]);
        if !ok {
          return;
        }
      }
      ok := true;
    }

    method CancelPendingFor(id: Id) returns (r: Result<(), ScheduleError>)
      requires Valid()
      modifies session
      ensures Valid() && Steady()
      ensures Schedules() == old(Schedules()) && Sent() == old(Sent()) && Erased() == old(Erased())
      ensures forall s :: Waiting(session.inbox, s) <= old(Waiting(session.inbox, s))
      ensures CanRecover() == old(CanRecover()) && (Accepting(session, 0) ==> r.Ok?)
      ensures if r.Ok? then Waiting(session.inbox, id) == {} else r.error.Uncertain?
      ensures r.Ok? && old(Waiting(session.inbox, id)) != {} ==> session.durable == |session.events|
    {
      hide Sound, Replay, Reminders, TimersAgree, I.Project, WellFormed, Quiet, Recorded, Waiting;
      var pending := PendingFor(session.inbox.Pending(), {id});
      WaitingFound(session.inbox, {id}, id);
      var ok := CancelAll(pending);
      if ok && pending != [] {
        ok := Checkpoint();
      }
      r := if ok then Ok(()) else Err(Uncertain);
    }

    /** Withdraw what a crash between a deletion and its cancellations left. */
    method ReconcileDeleted() returns (r: Result<(), ScheduleError>)
      requires Valid()
      modifies session
      ensures Valid() && Steady()
      ensures Schedules() == old(Schedules()) && Sent() == old(Sent()) && Erased() == old(Erased())
      ensures forall s :: Waiting(session.inbox, s) <= old(Waiting(session.inbox, s))
      ensures CanRecover() == old(CanRecover()) && (Accepting(session, 0) ==> r.Ok?)
      ensures if r.Ok? then forall id :: id in Erased() ==> Waiting(session.inbox, id) == {} else r.error.Uncertain?
      ensures r.Ok? ==> forall id :: id in Erased() && old(Waiting(session.inbox, id)) != {} ==>
                session.durable == |session.events|
    {
      hide Sound, Replay, Reminders, TimersAgree, I.Project, WellFormed, Quiet, Recorded, Waiting, DeletedIds;
      var deleted := DeletedIds(session.events, base);
      var pending := PendingFor(session.inbox.Pending(), deleted);
      forall id | id in deleted ensures forall m :: m in Waiting(session.inbox, id) ==> m in pending {
        WaitingFound(session.inbox, deleted, id);
      }
      if deleted == {} || pending == [] {
        return Ok(());
      }
      var ok := CancelAll(pending);
      if ok {
        ok := Checkpoint();
      }
      r := if ok then Ok(()) else Err(Uncertain);
    }

    /** Reminders of a parent session are not delivered by its fork. */
    method CancelInherited() returns (r: Result<(), ScheduleError>)
      requires Valid()
      modifies session
      ensures Valid() && Steady()
      ensures Schedules() == old(Schedules()) && Sent() == old(Sent()) && Erased() == old(Erased())
      ensures forall s :: Waiting(session.inbox, s) <= old(Waiting(session.inbox, s))
      ensures CanRecover() == old(CanRecover()) && (Accepting(session, 0) ==> r.Ok?)
      ensures r.Ok? && base > 0 ==> forall s :: Waiting(session.inbox, s) !! old(InheritedIds(session.events, base))
    {
      hide Sound, Replay, Reminders, TimersAgree, I.Project, WellFormed, Quiet, Recorded, Waiting, InheritedIds;
      if base == 0 {
        return Ok(());
      }
      var inherited := InheritedIds(session.events, base);
      var pending := PendingAmong(session.inbox.Pending(), inherited);
      forall s ensures forall m :: m in Waiting(session.inbox, s) && m in inherited ==> m in pending {
        WaitingAmong(session.inbox, inherited, s);
      }
      var ok := CancelAll(pending);
      r := if ok then Ok(()) else Err(Uncertain);
    }

    // ---- timers ----

    /** Stop the timer of one schedule. A timer that had already woken may still
        ask for the dispatch of the record it waited for. */
    method CancelRuntimeTimer(id: Id, asOf: int)
      requires Valid() && asOf <= session.clock
      requires Schedules().Some? && id in Schedules().value.active ==> asOf < Schedules().value.active[id].at
      modifies this`slots, this`live, this`woken
      ensures Valid() && id !in slots && live == old(live) - {id} && slots == old(slots) - {id}
      ensures woken == old(woken)
              || (id in old(live) && old(live)[id].Some? && woken == old(woken) + {old(live)[id].value})
    {
      hide Sound, Replay, Reminders, I.Project, WellFormed, Recorded, Orphan;
      if id in slots {
        if id in live && live[id].Some? && live[id].value.at <= asOf {
          woken := woken + {live[id].value};
        }
        slots, live := slots - {id}, live - {id};
      }
    }

    /** A schedule whose slot exists gets no second timer. */
    method StartTimer(id: Id) returns (r: Result<(), ScheduleError>)
      requires Valid()
      requires Schedules().Some? ==> id in Schedules().value.seen && ClearOf(Schedules(), Sent(), id)
      modifies this`slots, this`live
      ensures Valid() && r == if closed then Err(Unavailable) else Ok(())
      ensures if r.Ok? && id !in old(slots) then slots == old(slots) + {id} && live == old(live)[id := None]
              else slots == old(slots) && live == old(live)
    {
      hide Sound, Replay, Reminders, I.Project, WellFormed, Recorded, Orphan;
      if closed {
        return Err(Unavailable);
      }
      if id !in slots {
        slots, live := slots + {id}, live[id := None];
      }
      r := Ok(());
    }

    /** A timer reads the record it will wait for, and ends if there is none. */
    method ReadTimer(id: Id)
      requires Valid() && id in live
      modifies this`live
      ensures Valid()
      ensures live == if Schedules().Some? && id in Schedules().value.active
                      then old(live)[id := Some(Schedules().value.active[id])] else old(live) - {id}
    {
      hide Sound, Replay, Reminders, I.Project, WellFormed, Recorded, Orphan;
      ActiveIds();
      var state := Replay(session.events, base, calendar);
      if state.Some? && id in state.value.active {
        live := live[id := Some(state.value.active[id])];
      } else {
        live := live - {id};
      }
    }

    lemma ActiveIds()
      requires Valid()
      ensures Schedules().Some? ==>
                forall id :: id in Schedules().value.active ==> Schedules().value.active[id].id == id
    {
      hide Replay, Reminders, I.Project, WellFormed, Recorded, Orphan;
      SoundNow(session.events, base, calendar);
    }

    // ---- dispatch ----

    /** The armed record, when it is the one a timer waited for. */
    ghost predicate Current(record: Record)
      reads session
    {
      Schedules().Some? && record.id in Schedules().value.active && Schedules().value.active[record.id] == record
    }

    /** A deleted schedule is not the current one. */
    lemma CurrentIsKept(record: Record)
      requires Valid() && Current(record)
      ensures !Deleted(session.events, session.durable, base, record.id)
    {
      hide Sound, Replay, I.Project, WellFormed, Recorded, Orphan, TimersAgree;
      DeletedIsInactive(session.events, base, calendar, record.id);
      DeletedGrows(session.events, session.durable, base, record.id);
    }

    /** Whatever was sent meanwhile belongs to no schedule that was durably deleted. */
    twostate predicate SendsOnlyLive()
      reads session
    {
      forall r :: r in Sent() && r !in old(Sent()) ==>
        !old(Deleted(session.events, session.durable, base, r.scheduleId))
    }

    method EnqueueReminder(record: Record, messageId: Id, active: bool, text: Text) returns (ok: bool)
      requires Valid() && Current(record) && record.id in Schedules().value.armed && record.at <= session.clock
      requires record.id !in live && ClearOf(Schedules(), Sent(), record.id)
      modifies session
      ensures Valid() && Steady() && Erased() == old(Erased())
      ensures !ok ==> Sent() == old(Sent()) && Schedules() == old(Schedules())
      ensures Accepting(session, 0) && !ok ==> Inbox.Fits(session.inbox, text).Err? || messageId in session.inbox.seen
      ensures ok ==> WasInserted(session.events, ReminderMessage(record, messageId, text))
      ensures ok ==>
                && Sent() == old(Sent()) + [Reminder(messageId, record.id, record.at)]
                && var state := old(Schedules()).value;
                   Schedules() == Some(state.(enqueued := state.enqueued[messageId := (record.id, record.at)]))
    {
      hide Sound, Replay, Reminders, TimersAgree, I.Project, I.Apply, I.Admissible, WellFormed, Quiet, Recorded,
        Waiting, Orphan, DeletedIds, Deleted, OnlyLate, Inbox.Fits;
      ghost var events, inbox, clock := session.events, session.inbox, session.clock;
      LastTime(events, clock);
      CurrentIsKept(record);
      assert TimersAgree(Replay(events, base, calendar), Reminders(events, base), slots, live, woken, clock);
      var submission := Inbox.EnqueueOwned(session, active, ReminderMessage(record, messageId, text));
      ok := submission.Ok?;
      if ok {
        var event := session.events[|events|];
        assert InsertsOnly(session.events[|events|], ReminderMessage(record, messageId, text));
        ReminderApplied(events, event, base, calendar, record, messageId, text, slots, live, woken, clock);
        if OnlyLate(events, base, calendar) {
          OnlyLateExtend(events, event, base, calendar);
        }
        forall id | id != record.id ensures Waiting(session.inbox, id) <= Waiting(inbox, id) {
          WaitingShrinks(inbox, event.kind, id);
        }
      } else {
        TimersLater(Replay(events, base, calendar), Reminders(events, base), slots, live, woken, clock, session.clock);
      }
      QuietStays();
      RecordedStays();
    }

    /** Dispatch one due occurrence: insert the reminder, record the dispatch,
        checkpoint, and only then announce the message. */
    method DispatchDue(expected: Record, messageId: Id, active: bool) returns (r: Result<(), ScheduleError>)
      requires Valid()
      requires Current(expected) ==> expected.id !in live && ClearOf(Schedules(), Sent(), expected.id)
      modifies session, this`published
      ensures Valid() && Steady() && Erased() == old(Erased())
      ensures Sent() == old(Sent()) || Sent() == old(Sent()) + [Reminder(messageId, expected.id, expected.at)]
      ensures SendsOnlyLive()
      ensures old(Schedules()).Some? ==> Schedules().Some?
      ensures Sent() != old(Sent()) ==>
                old(Current(expected)) && expected.id in old(Schedules()).value.armed && expected.at <= session.clock
      ensures Sent() != old(Sent()) ==>
                && render(expected).Some?
                && WasInserted(session.events, ReminderMessage(expected, messageId, render(expected).value))
      ensures r.Ok? && Sent() != old(Sent()) ==>
                published == old(published) + [messageId] && Schedules().Some? && Advanced(expected, Schedules().value)
      ensures r.Ok? && old(Current(expected)) && expected.id in old(Schedules()).value.armed
              && expected.at <= old(session.clock) ==>
                Sent() == old(Sent()) + [Reminder(messageId, expected.id, expected.at)]
      ensures Accepting(session, 0) && r.Err? && old(Current(expected)) && expected.id in old(Schedules()).value.armed
              && expected.at <= old(session.clock) ==>
                || render(expected).None?
                || (Sent() == old(Sent())
                    && (Inbox.Fits(session.inbox, render(expected).value).Err? || messageId in session.inbox.seen))
                || (Sent() != old(Sent()) && NeverAdvances(expected, session.clock))
      ensures r.Err? || Sent() == old(Sent()) ==> published == old(published)
      ensures r.Ok? ==> old(ClearOf(Schedules(), Sent(), expected.id)) ==> ClearOf(Schedules(), Sent(), expected.id)
      ensures r.Ok? ==> old(Schedules()).Some? && Schedules().Some?
      ensures r.Ok? ==> old(Schedules()).value.seen <= Schedules().value.seen
    {
      hide Sound, Replay, Reminders, TimersAgree, I.Project, I.Apply, I.Admissible, WellFormed, Quiet, Recorded,
        Waiting, Orphan, DeletedIds, ClearOf, ApplyEdit, Advanced, Deleted, WasInserted, CanRecover, OnlyLateBreaks,
        NeverAdvances, Inbox.Fits;
      if Current(expected) {
        CurrentIsKept(expected);
      }
      var ok := Checkpoint();
      var state := Replay(session.events, base, calendar);
      if !ok || state.None? {
        return Err(Uncertain);
      }
      if expected.id !in state.value.armed {
        return Ok(());
      }
      if expected.id !in state.value.active {
        return Err(NotFound);
      }
      var record := state.value.active[expected.id];
      var now := ReadClock();
      if record != expected || record.at > now {
        return Ok(());
      }
      var text := render(record);
      if text.None? {
        return Err(Invalid);
      }
      Others();
      ok := EnqueueReminder(record, messageId, active, text.value);
      if !ok {
        return Err(Uncertain);
      }
      ghost var events := session.events;
      r := FinishDispatch(record, messageId);
      StaysInserted(events, session.events, ReminderMessage(record, messageId, text.value));
    }

    method ReadClock() returns (now: int)
      requires Valid()
      modifies session`clock
      ensures Valid() && Steady() && now == session.clock && old(session.clock) <= now
    {
      hide Sound, Replay, Reminders, Orphan, I.Project, ClearOf, OnlyLate;
      ghost var clock := session.clock;
      now := session.Now();
      TimersLater(Replay(session.events, base, calendar), Reminders(session.events, base), slots, live, woken, clock,
        now);
    }

    /** At some time since its target the record has no next one. */
    ghost predicate NeverAdvances(record: Record, now: int) {
      exists t :: record.at <= t <= now && Advance(record, t, calendar).Overflow?
    }

    /** The second half of a dispatch. A failure leaves the reminder for recovery. */
    method FinishDispatch(record: Record, messageId: Id) returns (r: Result<(), ScheduleError>)
      requires Valid() && Current(record) && record.id in Schedules().value.armed
      requires Reminder(messageId, record.id, record.at) in Sent()
      requires record.at <= session.clock
      modifies session, this`published
      ensures Valid() && Steady() && Sent() == old(Sent()) && Erased() == old(Erased())
      ensures r.Ok? ==>
                && published == old(published) + [messageId]
                && Schedules().Some?
                && ClearOf(Schedules(), Sent(), record.id)
      ensures r.Ok? ==> old(Schedules()).value.seen <= Schedules().value.seen && Advanced(record, Schedules().value)
      ensures old(Schedules()).Some? ==> Schedules().Some?
      ensures Accepting(session, 0) && r.Err? ==> NeverAdvances(record, session.clock)
      ensures r.Err? ==> published == old(published)
    {
      hide Sound, Replay, Reminders, TimersAgree, I.Project, I.Apply, I.Admissible, WellFormed, Quiet, Waiting, Orphan,
        DeletedIds, ClearOf, ApplyEdit, OnlyLateBreaks, TooLate, CanRecover, Advanced;
      Others();
      var now := ReadClock();
      var accepted := if now > record.at then now else record.at;
      ghost var events, reminder := session.events, Reminder(messageId, record.id, record.at);
      CurrentIsOrphan(events, base, calendar, reminder);
      RecordsUnlessOverflow(events, base, calendar, reminder, accepted, 0);
      var ok := AppendChange(Dispatch(record.id, accepted, messageId));
      if !ok {
        assert Accepting(session, 0) ==> Advance(record, accepted, calendar).Overflow?;
        return Err(Uncertain);
      }
      DispatchClears(events, base, calendar, Reminder(messageId, record.id, record.at), accepted, session.clock);
      DispatchAdvances(Replay(events, base, calendar).value, record, accepted, messageId, session.clock, calendar);
      ok := Checkpoint();
      if !ok {
        return Err(Uncertain);
      }
      assert RecordsDispatch(session.events[|events|], messageId);
      published := published + [messageId];
      r := Ok(());
    }

    lemma TimerIsClear(id: Id)
      requires Valid() && id in live
      ensures id in slots && (live[id].Some? ==> live[id].value.id == id)
      ensures Schedules().Some? ==> id in Schedules().value.seen && ClearOf(Schedules(), Sent(), id)
    {
      hide Sound, Replay, Reminders, I.Project, WellFormed, Recorded, ClearOf;
    }

    method SetTimer(id: Id, running: bool)
      requires Valid() && id in slots
      requires running && Schedules().Some? ==> id in Schedules().value.seen && ClearOf(Schedules(), Sent(), id)
      modifies this`live
      ensures Valid() && live == if running then old(live)[id := None] else old(live) - {id}
    {
      hide Sound, Replay, Reminders, I.Project, WellFormed, Recorded, ClearOf;
      live := if running then live[id := None] else live - {id};
    }

    /** A timer whose wait ended dispatches. It reads its next record only after a
        dispatch that succeeded, and never after a one-shot. */
    method FireTimer(id: Id, messageId: Id, active: bool) returns (r: Result<(), ScheduleError>)
      requires Valid() && id in live && live[id].Some? && live[id].value.at <= session.clock
      modifies session, this`live, this`published
      ensures Valid() && Steady() && Erased() == old(Erased())
      ensures r.Err? ==> id !in live
      ensures r.Ok? ==>
                var rule := old(live[id].value.rule);
                && (id in live <==> rule.Every? || (rule.Cron? && rule.recurring))
                && (id in live ==> live[id] == None)
      ensures SendsOnlyLive()
      ensures old(Schedules()).Some? ==> Schedules().Some?
    {
      hide Sound, Replay, Reminders, TimersAgree, I.Project, I.Apply, I.Admissible, WellFormed, Quiet, Waiting, Orphan,
        DeletedIds, ApplyEdit, Recorded, ClearOf, OnlyLateBreaks, CanRecover, Advanced, WasInserted, Deleted;
      TimerIsClear(id);
      var expected := live[id].value;
      SetTimer(id, false);
      r := DispatchDue(expected, messageId, active);
      if r.Ok? && !expected.OneShot() {
        SetTimer(id, true);
      }
    }

    /** A cancelled timer that had already woken asks for its old record. */
    method FireWoken(expected: Record, messageId: Id, active: bool) returns (r: Result<(), ScheduleError>)
      requires Valid() && expected in woken
      modifies session, this`published
      ensures Valid() && Steady() && Sent() == old(Sent()) && published == old(published) && Erased() == old(Erased())
      ensures old(Schedules()).Some? ==> Schedules().Some?
    {
      hide Sound, Replay, Reminders, I.Project, I.Apply, I.Admissible, WellFormed, Quiet, Waiting, Orphan, DeletedIds,
        ApplyEdit, Recorded;
      r := DispatchDue(expected, messageId, active);
    }

    // ---- operations, each under the operations lock ----

    method Begin() returns (r: Result<(), ScheduleError>)
      requires Valid()
      modifies session
      ensures Valid() && Steady() && Sent() == old(Sent()) && Erased() == old(Erased())
      ensures forall s :: Waiting(session.inbox, s) <= old(Waiting(session.inbox, s))
      ensures old(Schedules()).Some? ==>
                Schedules().Some? && Recovered(old(Schedules()).value, Schedules().value, Sent(), session.clock)
      ensures CanRecover() == old(CanRecover()) && (r.Ok? ==> CanRecover())
      ensures Accepting(session, 0) ==> (r.Ok? <==> old(CanRecover()))
      ensures if r.Ok? then AllRecorded() && NamesDurable() else r.error.Uncertain?
    {
      hide Sound, Replay, Reminders, TimersAgree, I.Project, WellFormed, Quiet, Waiting, DeletedIds, Recorded,
        NoOrphans, NamesDurable, Recoverable, Recovered;
      if Schedules().Some? {
        NothingRecovered(Schedules().value, Sent(), session.clock);
      }
      var ok := Checkpoint();
      if !ok {
        return Err(Uncertain);
      }
      r := RecoverEnqueued();
      if r.Ok? {
        ghost var clock := session.clock;
        Others();
        if old(Schedules()).Some? {
          RecoveredLater(old(Schedules()).value, Schedules().value, Sent(), clock, session.clock);
        }
      }
    }

    method List() returns (r: Result<State, ScheduleError>)
      requires Valid()
      modifies session
      ensures Valid() && Steady() && Sent() == old(Sent()) && Erased() == old(Erased())
      ensures (r.Ok? ==> old(CanRecover())) && (Accepting(session, 0) ==> (r.Ok? <==> old(CanRecover())))
      ensures old(Schedules()).Some? ==> Schedules().Some?
      ensures if r.Ok? then Schedules() == Some(r.value) && AllRecorded() else r.error.Uncertain?
      ensures r.Ok? ==> forall id :: id in Erased() ==> Waiting(session.inbox, id) == {}
    {
      hide Sound, Replay, Reminders, TimersAgree, I.Project, WellFormed, Quiet, Waiting, DeletedIds, Recorded,
        NoOrphans, CanRecover;
      var begun := Begin();
      if begun.Err? {
        return Err(begun.error);
      }
      var reconciled := ReconcileDeleted();
      if reconciled.Err? {
        return Err(reconciled.error);
      }
      r := Ok(Replay(session.events, base, calendar).value);
    }

    method Create(record: Record) returns (r: Result<Record, ScheduleError>)
      requires Valid()
      modifies session, this`slots, this`live
      ensures Valid() && Steady() && Sent() == old(Sent()) && Erased() == old(Erased())
      ensures old(Schedules()).Some? ==> Schedules().Some?
      ensures r.Ok? ==> old(CanRecover())
      ensures r.Ok? ==>
                && r.value == record && AllRecorded() && session.durable == |session.events|
                && Current(record) && record.id in Schedules().value.armed && record.id in slots
      ensures Accepting(session, 0) && r.Err? ==>
                || !old(CanRecover()) || closed || !ValidRecord(record)
                || (Schedules().Some?
                  && (|Schedules().value.active| >= MAX_ACTIVE_SCHEDULES || record.id in Schedules().value.seen))
      ensures r.Ok? ==> !closed && ValidRecord(record)
      ensures r == Err(Limit) ==> Schedules().Some? && |Schedules().value.active| >= MAX_ACTIVE_SCHEDULES
      ensures Accepting(session, 0) && old(CanRecover()) && !closed && r.Err?
              && Schedules().Some? && |Schedules().value.active| >= MAX_ACTIVE_SCHEDULES ==>
                r == Err(Limit)
    {
      hide Sound, Replay, Reminders, TimersAgree, I.Project, WellFormed, Quiet, Waiting, DeletedIds, Recorded, Orphan,
        CanRecover;
      var listed := List();
      if listed.Err? {
        return Err(listed.error);
      }
      if |listed.value.active| >= MAX_ACTIVE_SCHEDULES {
        return Err(Limit);
      }
      var ok := AppendChange(CreateSchedule(record));
      if ok {
        ok := Checkpoint();
      }
      if !ok {
        return Err(Uncertain);
      }
      var started := StartTimer(record.id);
      r := if started.Ok? then Ok(record) else Err(started.error);
    }

    /** Delete a schedule; a self-paced loop is stopped the same way. After an Ok
        nothing of it is pending, and nothing will be inserted for it again. */
    method Delete(id: Id, requireWakeup: bool) returns (r: Result<(), ScheduleError>)
      requires Valid()
      modifies session, this`slots, this`live, this`woken
      ensures Valid() && Steady() && Sent() == old(Sent())
      ensures old(Schedules()).Some? ==> Schedules().Some?
      ensures r.Ok? ==> old(CanRecover())
      ensures r.Ok? ==>
                && Quiet(id) && Erased() == old(Erased()) + {id}
                && AllRecorded() && id !in Schedules().value.active && id !in slots
      ensures Accepting(session, 0) ==> (old(CanRecover()) <==> r.Ok? || r == Err(NotFound))
      ensures r == Err(NotFound) ==>
                && Erased() == old(Erased()) && Schedules().Some?
                && (id !in Schedules().value.active || (requireWakeup && !Schedules().value.active[id].rule.Wakeup?))
    {
      hide Sound, Replay, Reminders, TimersAgree, I.Project, WellFormed, Waiting, DeletedIds, Recorded, Orphan,
        CanRecover;
      var begun := Begin();
      if begun.Err? {
        return Err(begun.error);
      }
      var state := Replay(session.events, base, calendar).value;
      if id !in state.active || (requireWakeup && !state.active[id].rule.Wakeup?) {
        return Err(NotFound);
      }
      ghost var n := |session.events|;
      DeleteAccepted(state, id, 0, calendar);
      var ok := AppendChange(DeleteSchedule(id));
      if ok {
        ok := Checkpoint();
      }
      if !ok {
        return Err(Uncertain);
      }
      assert DeletedBy(session.events[n], base, id);
      CancelRuntimeTimer(id, session.clock);
      r := CancelPendingFor(id);
      assert r.Ok? ==> DeletedBy(session.events[n], base, id);
    }

    /** What follows the record of a postponement. */
    method FinishPostponement(id: Id, stamp: int) returns (r: Result<Record, ScheduleError>)
      requires Valid() && stamp <= session.clock
      requires Schedules().Some? ==> id in Schedules().value.seen && ClearOf(Schedules(), Sent(), id)
      requires Schedules().Some? && id in Schedules().value.active ==> stamp < Schedules().value.active[id].at
      modifies session, this`slots, this`live, this`woken
      ensures Valid() && Steady() && Schedules() == old(Schedules()) && Sent() == old(Sent())
      ensures Erased() == old(Erased())
      ensures Schedules().None? ==> r.Err?
      ensures r.Err? ==> r.error.Uncertain? || r.error.Unavailable?
      ensures r.Ok? ==>
                && id in Schedules().value.active && r.value == Schedules().value.active[id]
                && Waiting(session.inbox, id) == {} && id in live && live[id] == None
      ensures Accepting(session, 0) ==> (r.Ok? <==> !closed && Schedules().Some? && id in Schedules().value.active)
    {
      hide Sound, Replay, Reminders, TimersAgree, I.Project, WellFormed, Waiting, DeletedIds, Recorded, Orphan, Quiet,
        OnlyLate;
      var ok := Checkpoint();
      if !ok {
        return Err(Uncertain);
      }
      CancelRuntimeTimer(id, stamp);
      var canceled := CancelPendingFor(id);
      if canceled.Err? {
        return Err(canceled.error);
      }
      var started := StartTimer(id);
      if started.Err? {
        return Err(started.error);
      }
      var now := Replay(session.events, base, calendar);
      if now.None? || id !in now.value.active {
        return Err(Uncertain);
      }
      r := Ok(now.value.active[id]);
    }

    lemma RecordedLate(events: seq<Event>, event: Event)
      requires session.events == events + [event] && event.kind.ScheduleChange? && event.seqNo >= base
      requires Replay(events, base, calendar).Some?
      requires TooLate(Replay(events, base, calendar).value, event.kind.schedule, event.time)
      ensures LateAt(session.events, base, calendar, |events|)
    {
      hide Replay, TooLate;
      assert session.events[..|events|] == events;
    }

    /** Give a self-paced loop its next target, counted from a time read before
        the operation took its lock. */
    method RescheduleWakeup(id: Id, delay: nat, asked: int) returns (r: Result<Record, ScheduleError>)
      requires Valid() && asked <= session.clock
      modifies session, this`slots, this`live, this`woken
      ensures Valid() && Steady() && Sent() == old(Sent()) && Erased() == old(Erased())
      ensures old(Schedules()).Some? && Schedules().None? ==>
                r.Err? && exists k :: |old(session.events)| <= k && LateAt(session.events, base, calendar, k)
      ensures r.Ok? ==> old(CanRecover())
      ensures r == Err(NotFound) ==> Schedules().Some? && id !in Schedules().value.active
      ensures r == Err(Invalid) ==>
                || asked + delay > I64_MAX || !(MIN_PAUSE_MS <= delay <= MAX_PAUSE_MS)
                || (Schedules().Some? && id in Schedules().value.active
                    && (!Schedules().value.active[id].rule.Wakeup? || Expired(Schedules().value.active[id], asked)))
      ensures Accepting(session, 0) && old(CanRecover()) && r.Err? ==>
                || r == Err(NotFound) || r == Err(Invalid) || closed || asked + delay <= session.clock
                || Schedules().None?
                || (id in Schedules().value.active && Expired(Schedules().value.active[id], session.clock))
      ensures r.Ok? ==>
                && AllRecorded() && r.value.id == id && Current(r.value) && id in Schedules().value.armed
                && r.value.at == asked + delay && r.value.rule == Wakeup(delay)
                && Waiting(session.inbox, id) == {}
                && id in live && live[id] == None
    {
      hide Sound, Replay, Reminders, TimersAgree, I.Project, WellFormed, Waiting, DeletedIds, Recorded, Orphan, Quiet,
        CanRecover;
      if asked + delay > I64_MAX {
        return Err(Invalid);
      }
      var begun := Begin();
      if begun.Err? {
        return Err(begun.error);
      }
      var state := Replay(session.events, base, calendar).value;
      if id !in state.active {
        return Err(NotFound);
      }
      if !state.active[id].rule.Wakeup? || Expired(state.active[id], asked)
        || !(MIN_PAUSE_MS <= delay <= MAX_PAUSE_MS) {
        return Err(Invalid);
      }
      ActiveIds();
      assert id in state.seen by { SeenIds(); }
      ghost var events := session.events;
      var ok := AppendChange(Reschedule(id, delay, asked + delay));
      if !ok {
        return Err(Uncertain);
      }
      ghost var appended := session.events;
      if Schedules().None? {
        RecordedLate(events, session.events[|events|]);
      }
      r := FinishPostponement(id, session.clock);
      if Schedules().None? {
        LateStays(appended, session.events, base, calendar, |events|);
      }
    }

    lemma SeenIds()
      requires Valid()
      ensures Schedules().Some? ==>
                && Schedules().value.armed <= Schedules().value.active.Keys
                && Schedules().value.active.Keys <= Schedules().value.seen
    {
      hide Replay, Reminders, I.Project, WellFormed, Recorded, Orphan;
      SoundNow(session.events, base, calendar);
    }

    method RetireOne(id: Id) returns (r: Result<(), ScheduleError>)
      requires Valid() && AllRecorded() && id in Schedules().value.active
      modifies session
      ensures Valid() && Steady() && Sent() == old(Sent()) && AllRecorded()
      ensures forall s :: Waiting(session.inbox, s) <= old(Waiting(session.inbox, s))
      ensures Accepting(session, 0) ==> r.Ok?
      ensures forall other :: other in old(Schedules()).value.active && other != id ==>
                other in Schedules().value.active
      ensures Schedules().value.active.Keys <= old(Schedules()).value.active.Keys
      ensures forall other :: other in Schedules().value.active ==>
                Same(old(Schedules()).value, Schedules().value, other)
      ensures r.Ok? ==> id !in Schedules().value.active && Quiet(id)
    {
      hide Sound, Replay, Reminders, TimersAgree, I.Project, WellFormed, Waiting, DeletedIds, Recorded, Orphan,
        ApplyEdit, OnlyLateBreaks, TooLate, CanRecover;
      ghost var before := Replay(session.events, base, calendar).value;
      ghost var n := |session.events|;
      DeleteAccepted(before, id, 0, calendar);
      var ok := AppendChange(DeleteSchedule(id));
      if !ok {
        return Err(Uncertain);
      }
      DeleteRemoves(before, id, session.clock, calendar);
      ok := Checkpoint();
      if !ok {
        return Err(Uncertain);
      }
      r := CancelPendingFor(id);
      assert DeletedBy(session.events[n], base, id);
    }

    /** Delete, one durable record after another, what must not be restored. */
    method Retire(now: int) returns (r: Result<(), ScheduleError>)
      requires Valid() && AllRecorded()
      modifies session
      ensures Valid() && Steady() && Sent() == old(Sent())
      ensures Schedules().Some? && (Accepting(session, 0) ==> r.Ok?)
      ensures Schedules().value.active.Keys <= old(Schedules()).value.active.Keys
      ensures forall id :: id in Schedules().value.active ==> Same(old(Schedules()).value, Schedules().value, id)
      ensures forall id :: id in old(Schedules()).value.active && id !in Schedules().value.active ==>
                Lapses(old(Schedules()).value.active[id], now)
      ensures r.Ok? ==>
                forall id :: id in old(Schedules()).value.active && Lapses(old(Schedules()).value.active[id], now) ==>
                  id !in Schedules().value.active
      ensures forall s :: Waiting(session.inbox, s) <= old(Waiting(session.inbox, s))
      ensures r.Ok? ==>
                && AllRecorded()
                && forall id :: id in Schedules().value.active ==> !Lapses(Schedules().value.active[id], now)
      ensures r.Ok? ==>
                forall id :: id in old(Schedules()).value.active && id !in Schedules().value.active ==> Quiet(id)
    {
      hide Sound, Replay, Reminders, TimersAgree, I.Project, WellFormed, Waiting, DeletedIds, Recorded, Orphan, Quiet,
        ApplyEdit, Lapses, OnlyLateBreaks, TooLate, CanRecover;
      var state := Replay(session.events, base, calendar).value;
      var retiring := set id | id in state.active && Lapses(state.active[id], now);
      while retiring != {}
        invariant Valid() && Steady() && Sent() == old(Sent()) && AllRecorded()
        invariant forall s :: Waiting(session.inbox, s) <= old(Waiting(session.inbox, s))
        invariant Schedules().value.active.Keys <= state.active.Keys
        invariant forall id :: id in Schedules().value.active ==> Same(state, Schedules().value, id)
        invariant forall id :: id in state.active && id !in Schedules().value.active ==> Lapses(state.active[id], now)
        invariant retiring <= Schedules().value.active.Keys
        decreases retiring
        invariant forall id :: id in retiring ==> Lapses(Schedules().value.active[id], now)
        invariant forall id :: id in state.active && id !in Schedules().value.active ==> Quiet(id)
        invariant forall id :: id in Schedules().value.active && Lapses(Schedules().value.active[id], now) ==>
                  id in retiring
      {
        var id :| id in retiring;
        retiring := retiring - {id};
        r := RetireOne(id);
        if r.Err? {
          return;
        }
      }
      r := Ok(());
    }

    method StartArmed() returns (r: Result<(), ScheduleError>)
      requires Valid() && AllRecorded()
      modifies this`slots, this`live
      ensures Valid() && old(slots) <= slots
      ensures !closed ==> r.Ok?
      ensures r.Ok? ==> Schedules().value.armed <= slots
    {
      hide Sound, Replay, Reminders, TimersAgree, I.Project, WellFormed, Waiting, DeletedIds, Recorded, Orphan, Quiet;
      SeenIds();
      var state := Replay(session.events, base, calendar).value;
      var todo := set id | id in state.armed;
      while todo != {}
        invariant Valid() && old(slots) <= slots && todo <= state.armed && state.armed - todo <= slots
      {
        var id :| id in todo;
        r := StartTimer(id);
        if r.Err? {
          return;
        }
        todo := todo - {id};
      }
      r := Ok(());
    }

    lemma AllArmed(events: seq<Event>)
      requires Sound(events, base, calendar) && Replay(events, base, calendar).Some?
      ensures var state := Replay(events, base, calendar).value;
              forall id :: id in state.active && !state.active[id].rule.Wakeup? ==> id in state.armed
    {
      hide Replay, Reminders;
      SoundNow(events, base, calendar);
    }

    /** Bring the service back after a restart. */
    method Rearm() returns (r: Result<(), ScheduleError>)
      requires Valid()
      modifies session, this`slots, this`live
      ensures Valid() && Steady() && Sent() == old(Sent())
      ensures old(Schedules()).Some? ==> Schedules().Some?
      ensures r.Ok? ==> old(CanRecover())
      ensures Accepting(session, 0) && !closed ==> (r.Ok? <==> old(CanRecover()))
      ensures r.Ok? ==> AllRecorded() && Schedules().value.armed <= slots
      ensures r.Ok? ==>
                exists asOf :: old(session.clock) <= asOf <= session.clock
                  && Restored(old(Schedules()).value, Schedules().value, Sent(), asOf)
      ensures r.Ok? ==>
                forall id :: id in old(Schedules()).value.active && id !in Schedules().value.active
                             && !Orphaned(old(Schedules()).value, Sent(), id) ==>
                  Quiet(id)
      ensures r.Ok? && base > 0 ==> forall s :: Waiting(session.inbox, s) !! old(InheritedIds(session.events, base))
      ensures r.Ok? ==> forall id :: Deleted(session.events, session.durable, base, id) ==> Quiet(id)
      ensures r.Ok? ==> forall id :: id in Schedules().value.active ==> !Schedules().value.active[id].rule.Wakeup?
    {
      hide Sound, Replay, Reminders, TimersAgree, I.Project, WellFormed, Waiting, DeletedIds, Recorded, Orphan,
        Recoverable, Recovered, Restored, Same, NoOrphans;
      r := CancelInherited();
      if r.Err? {
        return;
      }
      r := Begin();
      if r.Err? {
        return;
      }
      ghost var clock := session.clock;
      var now := ReadClock();
      ghost var recovered := Schedules().value;
      RecoveredLater(old(Schedules()).value, recovered, Sent(), clock, now);
      r := Retire(now);
      if r.Err? {
        return;
      }
      AllArmed(old(session.events));
      RetiredIsRestored(old(Schedules()).value, recovered, Schedules().value, Sent(), now);
      KeptByRecovery(old(Schedules()).value, recovered, Sent(), now);
      r := ReconcileDeleted();
      if r.Err? {
        return;
      }
      forall id | Deleted(session.events, session.durable, base, id) ensures Quiet(id) {
        DeletedGrows(session.events, session.durable, base, id);
        DeletedIdsAre(session.events, base, id);
      }
      r := StartArmed();
    }

    method Close()
      requires Valid()
      modifies this`slots, this`live, this`woken, this`closed
      ensures Valid() && closed && slots == {} && live == map[]
    {
      hide Sound, Replay, Reminders, I.Project, WellFormed, Recorded, Orphan;
      closed, slots, live, woken := true, {}, map[], {};
    }

    /** A crash cuts the log back, at most to the last checkpoint, and drops every
        timer. What was durably deleted stays deleted. */
    method Crash(k: nat)
      requires Valid() && session.durable <= k <= |session.events|
      modifies session`events, session`inbox, this`slots, this`live, this`woken, this`closed
      ensures session.clock == old(session.clock)
      ensures Valid() && session.events == old(session.events)[..k] && live == map[] && slots == {}
      ensures old(Schedules()).Some? ==> Schedules().Some?
      ensures old(OnlyLateBreaks()) ==> OnlyLateBreaks()
      ensures forall r :: r in Sent() ==> r in old(Sent())
      ensures forall id :: old(Deleted(session.events, session.durable, base, id)) ==>
                Deleted(session.events, session.durable, base, id)
    {
      hide Sound, Replay, Reminders, I.Project, WellFormed, Orphan, OnlyLate;
      ghost var events := session.events;
      SoundPrefix(events, k, base, calendar);
      RemindersPrefix(events, k, base);
      if Schedules().Some? {
        ReplayPrefix(events, k, base, calendar);
      }
      if OnlyLateBreaks() {
        OnlyLatePrefix(events, k, base, calendar);
      }
      session.CutTo(k);
      closed, slots, live, woken := false, {}, map[], {};
      forall id | old(Deleted(session.events, session.durable, base, id))
        ensures Deleted(session.events, session.durable, base, id)
      {
        var i :| 0 <= i < session.durable && i < |events| && DeletedBy(events[i], base, id);
        assert DeletedBy(session.events[i], base, id);
      }
      forall m | m in published ensures Recorded(m) {
        assert old(Recorded(m));
        var i :| 0 <= i < session.durable && i < |events| && RecordsDispatch(events[i], m);
        assert RecordsDispatch(session.events[i], m);
      }
    }

    /** After any crash, a rearm that succeeds finishes every deletion that was
        durable, and every reminder is named by exactly one dispatch record. */
    method Restart(k: nat) returns (r: Result<(), ScheduleError>)
      requires Valid() && session.durable <= k <= |session.events|
      modifies session, this`slots, this`live, this`woken, this`closed
      ensures Valid()
      ensures r.Ok? ==> forall id :: old(Deleted(session.events, session.durable, base, id)) ==> Quiet(id)
      ensures r.Ok? ==>
                && Replay(old(session.events)[..k], base, calendar).Some? && Schedules().Some?
                && Schedules().value.armed <= slots
                && exists asOf :: old(session.clock) <= asOf <= session.clock
                     && Restored(
                          Replay(old(session.events)[..k], base, calendar).value, Schedules().value, Sent(), asOf)
      ensures r.Ok? ==> forall s :: s in Sent() ==> DispatchesOf(session.events, base, s.messageId) == 1
    {
      hide Sound, Replay, Reminders, TimersAgree, I.Project, WellFormed, Waiting, DeletedIds, Recorded, Orphan,
        Restored;
      Crash(k);
      label crashed:
      r := Rearm();
      if r.Ok? {
        RecordedExactlyOnce();
        forall id | old(Deleted(session.events, session.durable, base, id)) ensures Quiet(id) {
          assert old@crashed(Deleted(session.events, session.durable, base, id));
          DeletedStays@crashed(id);
        }
      }
    }

    twostate lemma DeletedStays(id: Id)
      requires old(session.events) <= session.events && old(session.durable) <= session.durable
      requires old(Deleted(session.events, session.durable, base, id))
      ensures Deleted(session.events, session.durable, base, id)
    {
      var i :| 0 <= i < old(session.durable) && i < |old(session.events)|
        && DeletedBy(old(session.events)[i], base, id);
      assert DeletedBy(session.events[i], base, id);
    }

    // ---- runs ----

    /** One step of any caller, timer or crash; a step that is not enabled does nothing. */
    method Perform(op: Operation)
      requires Valid()
      modifies session, this
      ensures Valid() && (!op.Crashing? ==> Steady())
      ensures old(OnlyLateBreaks()) ==> OnlyLateBreaks()
      ensures old(Schedules()).Some? && !op.Rescheduling? ==> Schedules().Some?
      ensures forall id :: old(Deleted(session.events, session.durable, base, id)) ==>
                Deleted(session.events, session.durable, base, id)
      ensures old(published) <= published && SendsOnlyLive()
    {
      hide Sound, Replay, Reminders, TimersAgree, I.Project, WellFormed, Waiting, DeletedIds, Recorded, Orphan, Quiet,
        Deleted, OnlyLate;
      match op {
        case Foreign => Others();
        case Creation(record) => var _ := Create(record);
        case Deletion(id, requireWakeup) => var _ := Delete(id, requireWakeup);
        case Rescheduling(id, delay) => var _ := Postpone(id, delay);
        case Listing => var _ := List();
        case Rearming => var _ := Rearm();
        case Inherited => var _ := CancelInherited();
        case Reading(id) => if id in live { ReadTimer(id); }
        case Firing(id, messageId, active) => WaitAndFire(id, messageId, active);
        case WokenFiring(record, messageId, active) =>
          if record in woken {
            var _ := FireWoken(record, messageId, active);
          }
        case Closing => Close();
        case Crashing(kept) => if session.durable <= kept <= |session.events| { Crash(kept); }
      }
      if !op.Crashing? {
        forall id | old(Deleted(session.events, session.durable, base, id))
          ensures Deleted(session.events, session.durable, base, id)
        {
          DeletedStays(id);
        }
      }
    }

    /** A request reads the clock, then waits for the operations lock. */
    method Postpone(id: Id, delay: nat) returns (r: Result<Record, ScheduleError>)
      requires Valid()
      modifies session, this`slots, this`live, this`woken
      ensures Valid() && Steady() && Sent() == old(Sent())
    {
      hide Sound, Replay, Reminders, TimersAgree, I.Project, WellFormed, Waiting, DeletedIds, Recorded, Orphan, Quiet,
        Deleted;
      var asked := ReadClock();
      Others();
      r := RescheduleWakeup(id, delay, asked);
    }

    method WaitAndFire(id: Id, messageId: Id, active: bool)
      requires Valid()
      modifies session, this`live, this`published
      ensures Valid() && Steady() && SendsOnlyLive()
      ensures old(Schedules()).Some? ==> Schedules().Some?
    {
      hide Sound, Replay, Reminders, TimersAgree, I.Project, WellFormed, Waiting, DeletedIds, Recorded, Orphan, Quiet,
        Deleted;
      var now := ReadClock();
      if id in live && live[id].Some? && live[id].value.at <= now {
        var _ := FireTimer(id, messageId, active);
      }
    }

    /** Over every run, each occurrence of each schedule is inserted at most once,
        a message is announced only after its dispatch record is durable, durable
        deletions are never lost, and nothing is sent for a deleted schedule. */
    method Run(ops: seq<Operation>)
      requires Valid()
      modifies session, this
      ensures Valid() && AtMostOnce(Sent())
      ensures forall m :: m in published ==> Recorded(m)
      ensures forall id :: old(Deleted(session.events, session.durable, base, id)) ==>
                Deleted(session.events, session.durable, base, id)
      ensures SendsOnlyLive()
      ensures old(OnlyLateBreaks()) ==>
                OnlyLateBreaks() && (Schedules().None? <==> exists k :: LateAt(session.events, base, calendar, k))
      ensures (forall op :: op in ops ==> !op.Rescheduling?) && old(Schedules()).Some? ==> Schedules().Some?
      ensures (forall op :: op in ops ==> !op.Crashing?) ==> forall id :: old(Quiet(id)) ==> Quiet(id)
    {
      hide Replay, Reminders, TimersAgree, I.Project, WellFormed, Waiting, DeletedIds, Recorded, Orphan, Quiet, Deleted,
        AtMostOnce, Sound, OnlyLate, LateAt;
      for i := 0 to |ops|
        invariant Valid()
        invariant forall id :: old(Deleted(session.events, session.durable, base, id)) ==>
                  Deleted(session.events, session.durable, base, id)
        invariant SendsOnlyLive() && (old(OnlyLateBreaks()) ==> OnlyLateBreaks())
        invariant (forall op :: op in ops ==> !op.Rescheduling?) && old(Schedules()).Some? ==> Schedules().Some?
        invariant (forall op :: op in ops ==> !op.Crashing?) ==> forall id :: old(Quiet(id)) ==> Quiet(id)
      {
        label before:
        Perform(ops[i]);
        assert SendsOnlyLive@before();
        forall r | r in Sent() && r !in old(Sent())
          ensures !old(Deleted(session.events, session.durable, base, r.scheduleId))
        {
          assert r in old@before(Sent()) || !old@before(Deleted(session.events, session.durable, base, r.scheduleId));
        }
      }
      SoundNow(session.events, base, calendar);
      if OnlyLateBreaks() {
        ReadableUnlessLate(session.events, base, calendar);
      }
    }
  }
}
