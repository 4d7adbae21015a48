/** Strict replay of schedule state from the local suffix of a session log, and
    the invariant that ties it to the reminders inserted into the inbox. */
module ScheduleProjection {
  import opened SessionEvents

  const MAX_ACTIVE_SCHEDULES: nat := 50
  const MAX_DELAY_MS: nat := 365 * 24 * 60 * 60 * 1000
  const MIN_EVERY_MS: nat := 1_000
  const MIN_PAUSE_MS: nat := 60_000
  const MAX_PAUSE_MS: nat := 3_600_000
  const EXPIRY_MS: nat := 7 * 24 * 60 * 60 * 1_000

  /** The first target of a cron expression after a time, with its jitter, as the
      machine's calendar and time zone give it. */
  type Calendar = (Id, string, int) -> Option<(int, int)>

  predicate ValidRecord(record: Record) {
    && 0 <= record.at <= I64_MAX && 0 <= record.createdAt
    && (record.expiresAt.Some? ==> record.createdAt < record.expiresAt.value)
    && match record.rule
       case After(delay) => 0 < delay <= MAX_DELAY_MS && record.expiresAt.None? && record.jitter == 0
       case At => record.expiresAt.None? && record.jitter == 0
       case Every(interval) => MIN_EVERY_MS <= interval && record.expiresAt.None? && record.jitter == 0
       case Cron(_, recurring) => record.expiresAt == if recurring then Some(record.createdAt + EXPIRY_MS) else None
       case Wakeup(pause) =>
         && MIN_PAUSE_MS <= pause <= MAX_PAUSE_MS
         && record.jitter == 0
         && record.expiresAt == Some(record.createdAt + EXPIRY_MS)
  }

  datatype State = State(
    active: map<Id, Record>,
    armed: set<Id>,
    seen: set<Id>,
    enqueued: map<Id, (Id, int)>,
    dispatched: set<Id>)

  const NO_SCHEDULES := State(map[], {}, {}, map[], {})

  /** What a recorded dispatch makes of its record. */
  datatype Next = Overflow | Retired | Idle | Rearmed(record: Record)

  function Advance(record: Record, accepted: int, calendar: Calendar): Next {
    match record.rule
    case After(_) => Retired
    case At => Retired
    case Every(interval) =>
      if interval == 0 || accepted < record.at then Overflow else
      var advance := ((accepted - record.at) / interval + 1) * interval;
      if advance > U64_MAX || advance > I64_MAX || record.at + advance > I64_MAX then Overflow
      else Rearmed(record.(at := record.at + advance))
    case Cron(expression, recurring) =>
      if !recurring || Expired(record, accepted) then Retired else
      var target := calendar(record.id, expression, accepted);
      if target.Some? && accepted < target.value.0 <= I64_MAX
      then Rearmed(record.(at := target.value.0, jitter := target.value.1))
      else Overflow
    case Wakeup(_) =>
      if Expired(record, accepted) then Retired else Idle
  }

  predicate Expired(record: Record, now: int) {
    record.expiresAt.Some? && now >= record.expiresAt.value
  }

  lemma AdvanceIsLater(record: Record, accepted: int, calendar: Calendar)
    requires record.at <= accepted
    ensures var next := Advance(record, accepted, calendar);
            next.Rearmed? ==> next.record.at > accepted && next.record.id == record.id
  {
    if record.rule.Every? && record.rule.interval > 0 {
      var elapsed, interval := accepted - record.at, record.rule.interval;
      assert elapsed < (elapsed / interval + 1) * interval by {
        assert elapsed == elapsed / interval * interval + elapsed % interval;
        assert (elapsed / interval + 1) * interval == elapsed / interval * interval + interval;
      }
    }
  }

  /** Where a recorded dispatch leaves the schedule of a record. */
  predicate Advanced(record: Record, state: State) {
    match record.rule
    case After(_) => record.id !in state.active
    case At => record.id !in state.active
    case Every(interval) =>
      && record.id in state.active && record.id in state.armed && interval > 0
      && state.active[record.id].at > record.at && (state.active[record.id].at - record.at) % interval == 0
    case Cron(_, recurring) =>
      record.id in state.active ==> recurring && state.active[record.id].at > record.at && record.id in state.armed
    case Wakeup(_) => record.id !in state.armed
  }

  lemma AdvanceShape(record: Record, accepted: int, calendar: Calendar)
    requires record.at <= accepted
    ensures var next := Advance(record, accepted, calendar);
            match record.rule
            case After(_) => next.Retired?
            case At => next.Retired?
            case Every(interval) =>
              next.Overflow? || (next.Rearmed? && interval > 0 && (next.record.at - record.at) % interval == 0)
            case Cron(_, recurring) => next.Overflow? || next.Retired? || (next.Rearmed? && recurring)
            case Wakeup(_) => next.Retired? || next.Idle?
  {
    if record.rule.Every? && record.rule.interval > 0 {
      MultipleOf((accepted - record.at) / record.rule.interval + 1, record.rule.interval);
    }
  }

  lemma DispatchAdvances(state: State, record: Record, accepted: int, messageId: Id, time: int, calendar: Calendar)
    requires record.id in state.active && state.active[record.id] == record
    requires ApplyEdit(state, Dispatch(record.id, accepted, messageId), time, calendar).Some?
    ensures Advanced(record, ApplyEdit(state, Dispatch(record.id, accepted, messageId), time, calendar).value)
  {
    AdvanceIsLater(record, accepted, calendar);
    AdvanceShape(record, accepted, calendar);
    hide Advance, ValidRecord;
  }

  lemma MultipleOf(n: nat, interval: nat)
    requires interval > 0
    ensures n * interval % interval == 0
  {
    var q, r := n * interval / interval, n * interval % interval;
    assert r == (n - q) * interval;
    Grows(n - q, interval);
  }

  lemma Grows(factor: int, interval: nat)
    ensures factor >= 1 ==> factor * interval >= interval
    ensures factor <= -1 ==> factor * interval <= -(interval as int)
  {
  }

  function ApplyEdit(state: State, edit: ScheduleEdit, time: int, calendar: Calendar): Option<State> {
    match edit
    case CreateSchedule(record) =>
      if !ValidRecord(record) || record.id in state.seen || |state.active| >= MAX_ACTIVE_SCHEDULES then None
      else Some(state.(active := state.active[record.id := record], armed := state.armed + {record.id},
        seen := state.seen + {record.id}))
    case DeleteSchedule(id) =>
      if id !in state.active then None
      else Some(state.(active := state.active - {id}, armed := state.armed - {id}))
    case Dispatch(id, accepted, messageId) =>
      if accepted < 0 || messageId in state.dispatched || messageId !in state.enqueued || id !in state.active
         || state.enqueued[messageId] != (id, state.active[id].at) || accepted < state.active[id].at
           || id !in state.armed
      then None
      else
        var next := Advance(state.active[id], accepted, calendar);
        var noted := state.(dispatched := state.dispatched + {messageId});
        (match next
         case Overflow => None
         case Retired => Some(noted.(active := state.active - {id}, armed := state.armed - {id}))
         case Idle => Some(noted.(armed := state.armed - {id}))
         case Rearmed(record) => Some(noted.(active := state.active[id := record])))
    case Reschedule(id, delay, at) =>
      if !(MIN_PAUSE_MS <= delay <= MAX_PAUSE_MS) || at < 0 || id !in state.active || !state.active[id].rule.Wakeup?
         || at <= time || Expired(state.active[id], time)
      then None
      else Some(state.(active := state.active[id := state.active[id].(at := at, rule := Wakeup(delay))],
        armed := state.armed + {id}))
  }

  function NoteInserted(state: State, messages: seq<Message>): Option<State> {
    if messages == [] then Some(state)
    else
      var before := NoteInserted(state, messages[..|messages| - 1]);
      var last := messages[|messages| - 1];
      if before.None? || !last.source.ScheduledAt? then before
      else if last.id in before.value.enqueued then None
      else
        var enqueued := before.value.enqueued;
        Some(before.value.(enqueued := enqueued[last.id := (last.source.scheduleId, last.source.occurrence)]))
  }

  function Step(state: State, event: Event, base: nat, calendar: Calendar): Option<State> {
    if event.seqNo < base then Some(state)
    else
      match event.kind
      case InboxSplice(_, _, _, inserted, _) => NoteInserted(state, inserted)
      case ScheduleChange(edit) => ApplyEdit(state, edit, event.time, calendar)
      case _ => Some(state)
  }

  function Replay(events: seq<Event>, base: nat, calendar: Calendar): Option<State> {
    if events == [] then Some(NO_SCHEDULES)
    else
      var before := Replay(events[..|events| - 1], base, calendar);
      if before.None? then None else Step(before.value, events[|events| - 1], base, calendar)
  }

  lemma ReplayAppend(events: seq<Event>, event: Event, base: nat, calendar: Calendar)
    ensures Replay(events + [event], base, calendar) ==
            if Replay(events, base, calendar).None? then None
            else Step(Replay(events, base, calendar).value, event, base, calendar)
  {
    assert (events + [event])[..|events|] == events;
  }

  // ---- reminders ----

  /** One occurrence of a schedule that was put in the inbox. */
  datatype Reminder = Reminder(messageId: Id, scheduleId: Id, occurrence: int)

  function RemindersIn(messages: seq<Message>): seq<Reminder> {
    if messages == [] then []
    else
      var last := messages[|messages| - 1];
      RemindersIn(messages[..|messages| - 1])
      + (if last.source.ScheduledAt? then [Reminder(last.id, last.source.scheduleId, last.source.occurrence)] else [])
  }

  /** Every local reminder ever inserted, in log order. */
  function Reminders(events: seq<Event>, base: nat): seq<Reminder> {
    if events == [] then []
    else
      var last := events[|events| - 1];
      Reminders(events[..|events| - 1], base)
      + (if last.seqNo >= base && last.kind.InboxSplice? then RemindersIn(last.kind.inserted) else [])
  }

  predicate MentionsSchedules(kind: Kind) {
    kind.ScheduleChange? || (kind.InboxSplice? && RemindersIn(kind.inserted) != [])
  }

  /** No two reminders share a message or an occurrence of a schedule. */
  ghost predicate AtMostOnce(reminders: seq<Reminder>) {
    forall i, j :: 0 <= i < j < |reminders| ==>
      && reminders[i].messageId != reminders[j].messageId
      && (reminders[i].scheduleId != reminders[j].scheduleId || reminders[i].occurrence != reminders[j].occurrence)
  }

  lemma OnlyReminder(reminders: seq<Reminder>, first: Reminder, second: Reminder)
    requires AtMostOnce(reminders) && first in reminders && second in reminders
    requires first.scheduleId == second.scheduleId && first.occurrence == second.occurrence
    ensures first == second
  {
    var i :| 0 <= i < |reminders| && reminders[i] == first;
    var j :| 0 <= j < |reminders| && reminders[j] == second;
  }

  /** Inserted, not yet recorded as dispatched, and still the current target. */
  predicate Orphan(state: State, reminder: Reminder) {
    && reminder.messageId !in state.dispatched
    && reminder.scheduleId in state.active
    && state.active[reminder.scheduleId].at == reminder.occurrence
  }

  ghost predicate NoOrphans(state: State, reminders: seq<Reminder>) {
    forall r :: r in reminders ==> !Orphan(state, r)
  }

  ghost predicate Agrees(state: State, reminders: seq<Reminder>) {
    && (forall id :: id in state.active ==> state.active[id].id == id && state.active[id].at >= 0 && id in state.seen)
    && state.armed <= state.active.Keys
    && (forall id :: id in state.active && !state.active[id].rule.Wakeup? ==> id in state.armed)
    && (forall r :: r in reminders ==> Tracked(state, r))
    && (forall id :: id in state.enqueued ==> exists r :: r in reminders && r.messageId == id)
    && (forall id :: id in state.dispatched ==> id in state.enqueued)
  }

  ghost predicate Tracked(state: State, r: Reminder) {
    && r.messageId in state.enqueued && state.enqueued[r.messageId] == (r.scheduleId, r.occurrence)
    && r.scheduleId in state.seen
    && (r.scheduleId in state.active ==> r.occurrence <= state.active[r.scheduleId].at)
    && (r.messageId in state.dispatched || Orphan(state, r))
    && (Orphan(state, r) ==> r.scheduleId in state.armed)
    && (r.scheduleId in state.armed && r.scheduleId in state.active && state.active[r.scheduleId].at == r.occurrence ==>
          r.messageId !in state.dispatched)
  }

  // ---- one step keeps the agreement ----

  lemma AgreesCreate(state: State, reminders: seq<Reminder>, record: Record, time: int, calendar: Calendar)
    requires Agrees(state, reminders) && ApplyEdit(state, CreateSchedule(record), time, calendar).Some?
    ensures Agrees(ApplyEdit(state, CreateSchedule(record), time, calendar).value, reminders)
  {
    var next := ApplyEdit(state, CreateSchedule(record), time, calendar).value;
    forall r | r in reminders ensures Tracked(next, r) {
      assert Tracked(state, r);
    }
  }

  lemma AgreesDelete(state: State, reminders: seq<Reminder>, id: Id, time: int, calendar: Calendar)
    requires Agrees(state, reminders) && NoOrphans(state, reminders)
    requires ApplyEdit(state, DeleteSchedule(id), time, calendar).Some?
    ensures Agrees(ApplyEdit(state, DeleteSchedule(id), time, calendar).value, reminders)
    ensures NoOrphans(ApplyEdit(state, DeleteSchedule(id), time, calendar).value, reminders)
  {
    var next := ApplyEdit(state, DeleteSchedule(id), time, calendar).value;
    forall r | r in reminders ensures Tracked(next, r) && !Orphan(next, r) {
      assert Tracked(state, r) && !Orphan(state, r);
    }
  }

  lemma AgreesReschedule(
    state: State, reminders: seq<Reminder>, id: Id, delay: nat, at: int, time: int, calendar: Calendar)
    requires Agrees(state, reminders) && NoOrphans(state, reminders)
    requires forall r :: r in reminders ==> r.occurrence <= time
    requires ApplyEdit(state, Reschedule(id, delay, at), time, calendar).Some?
    ensures Agrees(ApplyEdit(state, Reschedule(id, delay, at), time, calendar).value, reminders)
    ensures NoOrphans(ApplyEdit(state, Reschedule(id, delay, at), time, calendar).value, reminders)
  {
    var next := ApplyEdit(state, Reschedule(id, delay, at), time, calendar).value;
    forall r | r in reminders ensures Tracked(next, r) && !Orphan(next, r) {
      assert Tracked(state, r) && !Orphan(state, r);
    }
  }

  lemma AgreesDispatch(
    state: State, reminders: seq<Reminder>, id: Id, accepted: int, messageId: Id, time: int, calendar: Calendar)
    requires Agrees(state, reminders) && AtMostOnce(reminders)
    requires ApplyEdit(state, Dispatch(id, accepted, messageId), time, calendar).Some?
    ensures var next := ApplyEdit(state, Dispatch(id, accepted, messageId), time, calendar).value;
            && Agrees(next, reminders)
            && next.dispatched == state.dispatched + {messageId}
            && (forall r :: r in reminders && Orphan(next, r) ==> Orphan(state, r) && r.messageId != messageId)
            && (forall r :: r in reminders && Orphan(state, r) && r.scheduleId != id ==> Orphan(next, r))
  {
    var next := ApplyEdit(state, Dispatch(id, accepted, messageId), time, calendar).value;
    var record := state.active[id];
    AdvanceIsLater(record, accepted, calendar);
    hide Advance, AtMostOnce, ValidRecord;
    forall r | r in reminders
      ensures Tracked(next, r)
      ensures Orphan(next, r) ==> Orphan(state, r) && r.messageId != messageId
    {
      assert Tracked(state, r);
      if r.messageId != messageId && r.scheduleId == id && Orphan(state, r) {
        // The dispatched message is the only reminder of the current target.
        var other :| other in reminders && other.messageId == messageId;
        assert Tracked(state, other);
        OnlyReminder(reminders, r, other);
      }
    }
  }

  lemma AgreesInsert(state: State, reminders: seq<Reminder>, message: Message)
    requires Agrees(state, reminders) && AtMostOnce(reminders)
    requires message.source.ScheduledAt? && message.id !in state.enqueued
    requires var id := message.source.scheduleId;
             && id in state.armed && state.active[id].at == message.source.occurrence
             && forall r :: r in reminders && r.scheduleId == id ==> !Orphan(state, r)
    ensures var all := reminders + RemindersIn([message]);
            && NoteInserted(state, [message]).Some?
            && Agrees(NoteInserted(state, [message]).value, all)
            && AtMostOnce(all)
            && RemindersIn([message]) == [Reminder(message.id, message.source.scheduleId, message.source.occurrence)]
  {
    assert [message][..0] == [] && RemindersIn([]) == [];
    var added := Reminder(message.id, message.source.scheduleId, message.source.occurrence);
    assert RemindersIn([message]) == [added];
    assert NoteInserted(state, []) == Some(state);
    var next := NoteInserted(state, [message]).value;
    assert next == state.(enqueued :=
      state.enqueued[message.id := (message.source.scheduleId, message.source.occurrence)]);
    var all := reminders + [added];
    forall r | r in all ensures Tracked(next, r) {
      if r in reminders {
        assert Tracked(state, r);
      }
    }
    forall i, j | 0 <= i < j < |all|
      ensures all[i].messageId != all[j].messageId
      ensures all[i].scheduleId != all[j].scheduleId || all[i].occurrence != all[j].occurrence
    {
      assert all[i] in reminders && Tracked(state, all[i]);
      if j < |reminders| {
        assert all[i] == reminders[i] && all[j] == reminders[j];
      }
    }
    forall id | id in next.enqueued ensures exists r :: r in all && r.messageId == id {
      if id == message.id {
        assert added in all;
      } else {
        var r :| r in reminders && r.messageId == id;
        assert r in all;
      }
    }
  }

  // ---- what every active schedule is ----

  /** Jitter is the privilege of cron records; only recurring ones and self-paced
      loops expire, one week after their creation; every delay has its bounds. */
  ghost predicate Lawful(record: Record) {
    && record.at >= 0 && record.createdAt >= 0 && (record.jitter != 0 ==> record.rule.Cron?)
    && (record.expiresAt.Some? <==> record.rule.Wakeup? || (record.rule.Cron? && record.rule.recurring))
    && (record.expiresAt.Some? ==> record.expiresAt.value == record.createdAt + 604_800_000)
    && (record.rule.After? ==> 1 <= record.rule.delay <= 31_536_000_000)
    && (record.rule.Every? ==> record.rule.interval >= 1_000)
    && (record.rule.Wakeup? ==> 60_000 <= record.rule.pause <= 3_600_000)
  }

  ghost predicate AllLawful(state: State) {
    |state.active| <= 50 && forall id :: id in state.active ==> state.active[id].id == id && Lawful(state.active[id])
  }

  /** In every readable log at most fifty schedules are active, each under its own id
      and within the bounds of its rule, however often it was dispatched or postponed. */
  lemma {:induction false} ActiveAreLawful(events: seq<Event>, base: nat, calendar: Calendar)
    requires Replay(events, base, calendar).Some?
    ensures AllLawful(Replay(events, base, calendar).value)
    decreases |events|
  {
    if events != [] {
      var init, last := events[..|events| - 1], events[|events| - 1];
      ActiveAreLawful(init, base, calendar);
      var state := Replay(init, base, calendar).value;
      hide AllLawful, ApplyEdit, NoteInserted;
      if last.seqNo >= base && last.kind.InboxSplice? {
        NoteKeepsActive(state, last.kind.inserted);
      } else if last.seqNo >= base && last.kind.ScheduleChange? {
        EditKeepsLawful(state, last.kind.schedule, last.time, calendar);
      }
    }
  }

  lemma {:induction false} NoteKeepsActive(state: State, messages: seq<Message>)
    requires NoteInserted(state, messages).Some?
    ensures AllLawful(state) ==> AllLawful(NoteInserted(state, messages).value)
    ensures NoteInserted(state, messages).value.active == state.active
    decreases |messages|
  {
    hide AllLawful;
    if messages != [] {
      NoteKeepsActive(state, messages[..|messages| - 1]);
    }
    assert AllLawful(state) ==> AllLawful(NoteInserted(state, messages).value) by {
      SameActive(state, NoteInserted(state, messages).value);
    }
  }

  lemma SameActive(before: State, after: State)
    requires after.active == before.active
    ensures AllLawful(before) ==> AllLawful(after)
  {
  }

  lemma EditKeepsLawful(state: State, edit: ScheduleEdit, time: int, calendar: Calendar)
    requires AllLawful(state) && ApplyEdit(state, edit, time, calendar).Some?
    ensures AllLawful(ApplyEdit(state, edit, time, calendar).value)
  {
    hide Lawful, Advance, ValidRecord, Expired;
    match edit
    case CreateSchedule(record) =>
      ValidIsLawful(record);
      PutKeeps(state, record);
    case DeleteSchedule(id) =>
      DropKeeps(state, id);
    case Dispatch(id, accepted, messageId) =>
      AdvanceKeepsLawful(state.active[id], accepted, calendar);
      DropKeeps(state, id);
      var next := Advance(state.active[id], accepted, calendar);
      if next.Rearmed? {
        PutKeeps(state, next.record);
      }
    case Reschedule(id, delay, at) =>
      PostponedIsLawful(state.active[id], delay, at);
      PutKeeps(state, state.active[id].(at := at, rule := Wakeup(delay)));
  }

  lemma PutKeeps(state: State, record: Record)
    requires AllLawful(state) && Lawful(record) && (record.id in state.active || |state.active| < 50)
    ensures forall next: State :: next.active == state.active[record.id := record] ==> AllLawful(next)
  {
    hide Lawful;
    StillFew(state.active, state.active[record.id := record], record.id);
  }

  lemma DropKeeps(state: State, id: Id)
    requires AllLawful(state)
    ensures forall next: State :: next.active == state.active - {id} || next.active == state.active ==> AllLawful(next)
  {
    hide Lawful;
    StillFew(state.active, state.active - {id}, id);
    assert id !in state.active ==> state.active - {id} == state.active;
  }

  /** A record is accepted exactly if it is lawful and its target fits. */
  lemma ValidIsLawful(record: Record)
    ensures ValidRecord(record) <==> Lawful(record) && record.at <= I64_MAX
  {
  }

  lemma PostponedIsLawful(record: Record, delay: nat, at: int)
    requires Lawful(record) && record.rule.Wakeup? && MIN_PAUSE_MS <= delay <= MAX_PAUSE_MS && at >= 0
    ensures Lawful(record.(at := at, rule := Wakeup(delay)))
  {
  }

  lemma StillFew(before: map<Id, Record>, after: map<Id, Record>, id: Id)
    requires after.Keys <= before.Keys + {id}
    ensures |after| <= |before| + 1 && (id in before ==> |after| <= |before|)
  {
    SizeWithin(after.Keys, before.Keys + {id});
    assert id in before ==> before.Keys + {id} == before.Keys;
    assert |after| == |after.Keys| && |before| == |before.Keys|;
  }

  lemma {:induction false} SizeWithin(part: set<Id>, whole: set<Id>)
    requires part <= whole
    ensures |part| <= |whole|
    decreases part
  {
    if id :| id in part {
      SizeWithin(part - {id}, whole - {id});
    }
  }

  lemma AdvanceKeepsLawful(record: Record, accepted: int, calendar: Calendar)
    requires Lawful(record) && record.at <= accepted
    ensures var next := Advance(record, accepted, calendar);
            next.Rearmed? ==> Lawful(next.record) && next.record.id == record.id
  {
    AdvanceIsLater(record, accepted, calendar);
  }

  /** What a dispatch makes of a record that is no fixed rate: reminders and one-shot
      targets are done, as is what has expired; a loop waits to be asked; a recurring
      target moves to the next that the calendar has, if that is later and fits. */
  lemma AdvanceOf(record: Record, accepted: int, calendar: Calendar)
    requires !record.rule.Every?
    ensures var next := Advance(record, accepted, calendar);
            var expired := record.expiresAt.Some? && record.expiresAt.value <= accepted;
            && (next.Idle? <==> record.rule.Wakeup? && !expired)
            && (next.Retired? <==> record.rule.After? || record.rule.At? || expired
                                   || (record.rule.Cron? && !record.rule.recurring))
            && (next.Rearmed? || next.Overflow? ==>
                  var target := calendar(record.id, record.rule.expression, accepted);
                  if next.Overflow? then target.None? || target.value.0 <= accepted || target.value.0 > I64_MAX
                  else target == Some((next.record.at, next.record.jitter))
                       && next.record == record.(at := next.record.at, jitter := next.record.jitter))
  {
  }
}
