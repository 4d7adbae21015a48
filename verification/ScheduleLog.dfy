/** What every append keeps true of the schedules and reminders in a session log,
    at every prefix that a crash could leave behind. */
module ScheduleLog {
  import opened SessionEvents
  import opened ScheduleProjection
  import I = InboxProjection

  ghost predicate SoundAt(events: seq<Event>, base: nat, calendar: Calendar) {
    var reminders := Reminders(events, base);
    && AtMostOnce(reminders)
    && (forall r :: r in reminders ==> events != [] && r.occurrence <= events[|events| - 1].time)
    && (Replay(events, base, calendar).Some? ==> Agrees(Replay(events, base, calendar).value, reminders))
  }

  ghost predicate Sound(events: seq<Event>, base: nat, calendar: Calendar) {
    forall k :: 0 <= k <= |events| ==> SoundAt(events[..k], base, calendar)
  }

  lemma SoundNow(events: seq<Event>, base: nat, calendar: Calendar)
    requires Sound(events, base, calendar)
    ensures SoundAt(events, base, calendar)
  {
    assert events[..|events|] == events;
  }

  lemma SoundPrefix(events: seq<Event>, k: nat, base: nat, calendar: Calendar)
    requires Sound(events, base, calendar) && k <= |events|
    ensures Sound(events[..k], base, calendar)
  {
    forall j | 0 <= j <= k ensures SoundAt(events[..k][..j], base, calendar) {
      assert events[..k][..j] == events[..j];
    }
  }

  lemma SoundExtend(events: seq<Event>, event: Event, base: nat, calendar: Calendar)
    requires Sound(events, base, calendar) && SoundAt(events + [event], base, calendar)
    ensures Sound(events + [event], base, calendar)
  {
    var more := events + [event];
    forall k | 0 <= k <= |more| ensures SoundAt(more[..k], base, calendar) {
      if k <= |events| {
        assert more[..k] == events[..k];
      } else {
        assert more[..k] == more;
      }
    }
  }

  /** A log with nothing of this session's own yet, such as a new fork's. */
  lemma {:induction false} FreshSuffix(events: seq<Event>, base: nat, calendar: Calendar)
    requires forall i :: 0 <= i < |events| ==> events[i].seqNo < base
    ensures Reminders(events, base) == [] && Replay(events, base, calendar) == Some(NO_SCHEDULES)
    ensures Sound(events, base, calendar)
  {
    if events != [] {
      var shorter, last := events[..|events| - 1], events[|events| - 1];
      FreshSuffix(shorter, base, calendar);
      assert shorter + [last] == events;
      SoundExtend(shorter, last, base, calendar);
    } else {
      assert SoundAt([], base, calendar);
    }
  }

  // ---- appends that do not mention schedules ----

  lemma {:induction false} NoteNothing(state: State, messages: seq<Message>)
    requires RemindersIn(messages) == []
    ensures NoteInserted(state, messages) == Some(state)
    ensures forall m :: m in messages ==> !m.source.ScheduledAt?
    decreases |messages|
  {
    if messages != [] {
      NoteNothing(state, messages[..|messages| - 1]);
    }
  }

  lemma RemindersAppend(events: seq<Event>, event: Event, base: nat)
    ensures Reminders(events + [event], base) == Reminders(events, base)
            + (if event.seqNo >= base && event.kind.InboxSplice? then RemindersIn(event.kind.inserted) else [])
  {
    assert (events + [event])[..|events|] == events;
  }

  lemma Unmentioned(events: seq<Event>, event: Event, base: nat, calendar: Calendar)
    requires !MentionsSchedules(event.kind)
    ensures Reminders(events + [event], base) == Reminders(events, base)
    ensures Replay(events + [event], base, calendar) == Replay(events, base, calendar)
  {
    RemindersAppend(events, event, base);
    ReplayAppend(events, event, base, calendar);
    if event.kind.InboxSplice? && Replay(events, base, calendar).Some? {
      NoteNothing(Replay(events, base, calendar).value, event.kind.inserted);
    }
  }

  lemma SoundUnmentioned(events: seq<Event>, event: Event, base: nat, calendar: Calendar)
    requires Sound(events, base, calendar) && !MentionsSchedules(event.kind)
    requires events != [] ==> events[|events| - 1].time <= event.time
    ensures Sound(events + [event], base, calendar)
    ensures Reminders(events + [event], base) == Reminders(events, base)
    ensures Replay(events + [event], base, calendar) == Replay(events, base, calendar)
    ensures DeletedIds(events + [event], base) == DeletedIds(events, base)
  {
    assert (events + [event])[..|events|] == events;
    SoundNow(events, base, calendar);
    Unmentioned(events, event, base, calendar);
    SoundExtend(events, event, base, calendar);
  }

  ghost predicate Foreign(before: seq<Event>, after: seq<Event>) {
    before <= after && forall i :: |before| <= i < |after| ==> !MentionsSchedules(after[i].kind)
  }

  lemma ForeignInit(before: seq<Event>, after: seq<Event>)
    requires Foreign(before, after) && |before| < |after|
    ensures Foreign(before, after[..|after| - 1]) && !MentionsSchedules(after[|after| - 1].kind)
    ensures after[..|after| - 1] + [after[|after| - 1]] == after
  {
  }

  /** Any number of appends by other owners of the session. */
  lemma {:induction false} SoundForeign(
    before: seq<Event>, after: seq<Event>, base: nat, calendar: Calendar, clock: int)
    requires Foreign(before, after) && WellFormed(after, clock) && Sound(before, base, calendar)
    ensures Sound(after, base, calendar)
    ensures Reminders(after, base) == Reminders(before, base)
    ensures Replay(after, base, calendar) == Replay(before, base, calendar)
    ensures DeletedIds(after, base) == DeletedIds(before, base)
    decreases |after|
  {
    hide Sound, Replay, Reminders, DeletedIds, MentionsSchedules, WellFormed;
    if |after| == |before| {
      assert after == before;
    } else {
      var shorter, last := after[..|after| - 1], after[|after| - 1];
      WellFormedInit(after, clock);
      ForeignInit(before, after);
      hide Foreign;
      SoundForeign(before, shorter, base, calendar, clock);
      SoundUnmentioned(shorter, last, base, calendar);
    }
  }

  // ---- schedule edits ----

  /** Deletions and new targets are recorded only when nothing inserted is still
      waiting for its dispatch record. */
  ghost predicate Justified(events: seq<Event>, edit: ScheduleEdit, base: nat, calendar: Calendar) {
    (edit.DeleteSchedule? || edit.Reschedule?) && Replay(events, base, calendar).Some? ==>
      NoOrphans(Replay(events, base, calendar).value, Reminders(events, base))
  }

  lemma AgreesEdit(state: State, reminders: seq<Reminder>, edit: ScheduleEdit, time: int, calendar: Calendar)
    requires Agrees(state, reminders) && AtMostOnce(reminders)
    requires edit.DeleteSchedule? || edit.Reschedule? ==> NoOrphans(state, reminders)
    requires forall r :: r in reminders ==> r.occurrence <= time
    requires ApplyEdit(state, edit, time, calendar).Some?
    ensures Agrees(ApplyEdit(state, edit, time, calendar).value, reminders)
    ensures forall r :: r in reminders && Orphan(ApplyEdit(state, edit, time, calendar).value, r) ==> Orphan(state, r)
  {
    match edit
    case CreateSchedule(record) =>
      AgreesCreate(state, reminders, record, time, calendar);
      forall r | r in reminders && Orphan(ApplyEdit(state, edit, time, calendar).value, r) ensures Orphan(state, r) {
        assert Tracked(state, r);
      }
    case DeleteSchedule(id) => AgreesDelete(state, reminders, id, time, calendar);
    case Dispatch(id, accepted, messageId) => AgreesDispatch(state, reminders, id, accepted, messageId, time, calendar);
    case Reschedule(id, delay, at) => AgreesReschedule(state, reminders, id, delay, at, time, calendar);
  }

  lemma ReplayEdit(events: seq<Event>, event: Event, base: nat, calendar: Calendar)
    requires event.kind.ScheduleChange? && event.seqNo >= base
    ensures Reminders(events + [event], base) == Reminders(events, base)
    ensures Replay(events + [event], base, calendar) ==
            if Replay(events, base, calendar).None? then None
            else ApplyEdit(Replay(events, base, calendar).value, event.kind.schedule, event.time, calendar)
  {
    hide Replay, Reminders, ApplyEdit, NoteInserted, RemindersIn;
    RemindersAppend(events, event, base);
    ReplayAppend(events, event, base, calendar);
  }

  // ---- postponements that come too late ----

  /** A new target is recorded when it has passed, or when its loop has expired. */
  predicate TooLate(state: State, edit: ScheduleEdit, time: int) {
    && edit.Reschedule? && edit.rescheduled in state.active
    && (edit.scheduledAt <= time || Expired(state.active[edit.rescheduled], time))
  }

  /** What was accepted at one moment is accepted at another unless it is then too late. */
  lemma LateExactly(state: State, edit: ScheduleEdit, checked: int, stamped: int, calendar: Calendar)
    requires ApplyEdit(state, edit, checked, calendar).Some?
    ensures ApplyEdit(state, edit, stamped, calendar).None? <==> TooLate(state, edit, stamped)
  {
  }

  /** A postponement that replays when it is checked but is stamped too late is
      stored, and no later event makes the log readable again. */
  lemma {:induction false} LateRecordRuins(
    events: seq<Event>, event: Event, more: seq<Event>, base: nat, checked: int, calendar: Calendar)
    requires Replay(events, base, calendar).Some? && event.kind.ScheduleChange? && event.seqNo >= base
    requires Replay(events + [event.(time := checked)], base, calendar).Some?
    ensures var late := TooLate(Replay(events, base, calendar).value, event.kind.schedule, event.time);
            && (late ==> Replay(events + [event] + more, base, calendar).None?)
            && (!late ==> Replay(events + [event], base, calendar).Some?)
    decreases |more|
  {
    hide Replay, ApplyEdit, TooLate;
    if more == [] {
      ReplayEdit(events, event.(time := checked), base, calendar);
      ReplayEdit(events, event, base, calendar);
      LateExactly(Replay(events, base, calendar).value, event.kind.schedule, checked, event.time, calendar);
      assert events + [event] + more == events + [event];
    } else {
      var init := more[..|more| - 1];
      LateRecordRuins(events, event, init, base, checked, calendar);
      ReplayAppend(events + [event] + init, more[|more| - 1], base, calendar);
      assert events + [event] + more == events + [event] + init + [more[|more| - 1]];
    }
  }

  /** A loop of one minute is created, and asked at once for its next target. The
      request is checked a millisecond before that target and stamped at it. */
  lemma LatePostponement(calendar: Calendar)
    ensures var record := Record("loop", "again", 60_000, Wakeup(60_000), 0, Some(EXPIRY_MS), 0);
            var events := [Event(0, 0, ScheduleChange(CreateSchedule(record)))];
            var edit := ScheduleChange(Reschedule("loop", 60_000, 60_000));
            && Replay(events, 0, calendar).Some?
            && Replay(events + [Event(1, 59_999, edit)], 0, calendar).Some?
            && Replay(events + [Event(1, 60_000, edit)], 0, calendar).None?
  {
    var record := Record("loop", "again", 60_000, Wakeup(60_000), 0, Some(EXPIRY_MS), 0);
    var created := Event(0, 0, ScheduleChange(CreateSchedule(record)));
    assert [created] == [] + [created] && Replay([], 0, calendar) == Some(NO_SCHEDULES);
    ReplayEdit([], created, 0, calendar);
    assert ApplyEdit(NO_SCHEDULES, CreateSchedule(record), 0, calendar).Some?;
    ReplayEdit([created], Event(1, 59_999, ScheduleChange(Reschedule("loop", 60_000, 60_000))), 0, calendar);
    ReplayEdit([created], Event(1, 60_000, ScheduleChange(Reschedule("loop", 60_000, 60_000))), 0, calendar);
  }

  /** The local change at a position postponed a loop too late. */
  ghost predicate LateAt(events: seq<Event>, base: nat, calendar: Calendar, k: int) {
    && 0 <= k < |events| && events[k].seqNo >= base && events[k].kind.ScheduleChange?
    && Replay(events[..k], base, calendar).Some?
    && TooLate(Replay(events[..k], base, calendar).value, events[k].kind.schedule, events[k].time)
  }

  /** Nothing but a late postponement ever made the schedules unreadable. */
  ghost predicate OnlyLate(events: seq<Event>, base: nat, calendar: Calendar) {
    forall k :: 0 <= k < |events| && Breaks(events, base, calendar, k) ==> LateAt(events, base, calendar, k)
  }

  ghost predicate Breaks(events: seq<Event>, base: nat, calendar: Calendar, k: nat)
    requires k < |events|
  {
    Replay(events[..k], base, calendar).Some? && Replay(events[..k + 1], base, calendar).None?
  }

  lemma {:induction false} ReplayPrefix(events: seq<Event>, k: nat, base: nat, calendar: Calendar)
    requires k <= |events| && Replay(events, base, calendar).Some?
    ensures Replay(events[..k], base, calendar).Some?
    decreases |events|
  {
    if k < |events| {
      assert events[..|events| - 1][..k] == events[..k];
      ReplayPrefix(events[..|events| - 1], k, base, calendar);
    } else {
      assert events[..k] == events;
    }
  }

  lemma LateStays(before: seq<Event>, after: seq<Event>, base: nat, calendar: Calendar, k: int)
    requires before <= after && LateAt(before, base, calendar, k)
    ensures LateAt(after, base, calendar, k)
  {
    assert after[..k] == before[..k];
  }

  lemma LateBreaks(events: seq<Event>, base: nat, calendar: Calendar, k: int)
    requires LateAt(events, base, calendar, k)
    ensures Replay(events, base, calendar).None?
  {
    if Replay(events, base, calendar).Some? {
      ReplayPrefix(events, k + 1, base, calendar);
      assert events[..k + 1] == events[..k] + [events[k]];
      ReplayEdit(events[..k], events[k], base, calendar);
    }
  }

  /** A log that only late postponements can break is readable exactly without one. */
  lemma {:induction false} ReadableUnlessLate(events: seq<Event>, base: nat, calendar: Calendar)
    requires OnlyLate(events, base, calendar)
    ensures Replay(events, base, calendar).None? <==> exists k :: LateAt(events, base, calendar, k)
    decreases |events|
  {
    hide Replay, TooLate, LateAt;
    if k :| LateAt(events, base, calendar, k) {
      LateBreaks(events, base, calendar, k);
    } else if Replay(events, base, calendar).None? {
      FirstBreak(events, base, calendar);
    }
  }

  lemma {:induction false} FirstBreak(events: seq<Event>, base: nat, calendar: Calendar)
    requires Replay(events, base, calendar).None?
    ensures exists k :: 0 <= k < |events| && Breaks(events, base, calendar, k)
    decreases |events|
  {
    var n := |events| - 1;
    assert events != [] && events[..n + 1] == events;
    if Replay(events[..n], base, calendar).Some? {
      assert Breaks(events, base, calendar, n);
    } else {
      FirstBreak(events[..n], base, calendar);
      var k :| 0 <= k < n && Breaks(events[..n], base, calendar, k);
      assert events[..n][..k] == events[..k] && events[..n][..k + 1] == events[..k + 1];
      assert Breaks(events, base, calendar, k);
    }
  }

  lemma OnlyLatePrefix(events: seq<Event>, n: nat, base: nat, calendar: Calendar)
    requires OnlyLate(events, base, calendar) && n <= |events|
    ensures OnlyLate(events[..n], base, calendar)
  {
    hide Replay, TooLate;
    forall k | 0 <= k < n && Breaks(events[..n], base, calendar, k) ensures LateAt(events[..n], base, calendar, k) {
      assert events[..n][..k] == events[..k] && events[..n][..k + 1] == events[..k + 1];
      assert Breaks(events, base, calendar, k);
    }
  }

  lemma OnlyLateExtend(events: seq<Event>, event: Event, base: nat, calendar: Calendar)
    requires OnlyLate(events, base, calendar)
    requires Replay(events, base, calendar).Some? && Replay(events + [event], base, calendar).None? ==>
               && event.seqNo >= base && event.kind.ScheduleChange?
               && TooLate(Replay(events, base, calendar).value, event.kind.schedule, event.time)
    ensures OnlyLate(events + [event], base, calendar)
  {
    hide Replay, TooLate, Breaks, LateAt;
    var more := events + [event];
    forall k | 0 <= k < |more| && Breaks(more, base, calendar, k) ensures LateAt(more, base, calendar, k) {
      if k < |events| {
        SamePrefix(events, event, base, calendar, k);
      } else {
        LastBreak(events, event, base, calendar);
      }
    }
  }

  lemma SamePrefix(events: seq<Event>, event: Event, base: nat, calendar: Calendar, k: nat)
    requires k < |events|
    ensures Breaks(events + [event], base, calendar, k) <==> Breaks(events, base, calendar, k)
    ensures LateAt(events + [event], base, calendar, k) <==> LateAt(events, base, calendar, k)
  {
    hide Replay, TooLate;
    var more := events + [event];
    assert more[..k] == events[..k] && more[..k + 1] == events[..k + 1];
  }

  lemma LastBreak(events: seq<Event>, event: Event, base: nat, calendar: Calendar)
    requires Breaks(events + [event], base, calendar, |events|)
    requires Replay(events, base, calendar).Some? && Replay(events + [event], base, calendar).None? ==>
               && event.seqNo >= base && event.kind.ScheduleChange?
               && TooLate(Replay(events, base, calendar).value, event.kind.schedule, event.time)
    ensures LateAt(events + [event], base, calendar, |events|)
  {
    hide Replay, TooLate;
    var more := events + [event];
    assert more[..|events|] == events && more[..|events| + 1] == more;
  }

  lemma {:induction false} OnlyLateForeign(before: seq<Event>, after: seq<Event>, base: nat, calendar: Calendar)
    requires Foreign(before, after) && OnlyLate(before, base, calendar)
    ensures OnlyLate(after, base, calendar)
    decreases |after|
  {
    hide Replay, Reminders, OnlyLate, MentionsSchedules;
    if |after| == |before| {
      assert after == before;
    } else {
      var shorter, last := after[..|after| - 1], after[|after| - 1];
      ForeignInit(before, after);
      OnlyLateForeign(before, shorter, base, calendar);
      Unmentioned(shorter, last, base, calendar);
      OnlyLateExtend(shorter, last, base, calendar);
    }
  }

  lemma SoundEdit(events: seq<Event>, event: Event, base: nat, calendar: Calendar)
    requires Sound(events, base, calendar) && event.kind.ScheduleChange? && event.seqNo >= base
    requires events != [] ==> events[|events| - 1].time <= event.time
    requires Justified(events, event.kind.schedule, base, calendar)
    ensures Sound(events + [event], base, calendar)
    ensures forall r :: r in Reminders(events, base) && Replay(events + [event], base, calendar).Some?
                        && Orphan(Replay(events + [event], base, calendar).value, r)
                        ==> Replay(events, base, calendar).Some? && Orphan(Replay(events, base, calendar).value, r)
  {
    hide Sound, Replay, Reminders, ApplyEdit, AtMostOnce, Agrees, Orphan;
    ReplayEdit(events, event, base, calendar);
    SoundNow(events, base, calendar);
    var reminders := Reminders(events, base);
    if Replay(events + [event], base, calendar).Some? {
      AgreesEdit(Replay(events, base, calendar).value, reminders, event.kind.schedule, event.time, calendar);
    }
    assert SoundAt(events + [event], base, calendar);
    SoundExtend(events, event, base, calendar);
  }

  // ---- reminders ----

  /** Message identities of reminders come from the inbox, which never reuses one. */
  lemma {:induction false} RemindersSeen(events: seq<Event>, base: nat)
    requires I.Project(events).Some?
    ensures forall r :: r in Reminders(events, base) ==> r.messageId in I.Project(events).value.seen
    decreases |events|
  {
    if events != [] {
      var kind := events[|events| - 1].kind;
      I.ProjectPrefix(events, |events| - 1);
      RemindersSeen(events[..|events| - 1], base);
      if kind.InboxSplice? {
        RemindersOf(kind.inserted);
      }
    }
  }

  lemma {:induction false} RemindersOf(messages: seq<Message>)
    ensures forall r :: r in RemindersIn(messages) ==> r.messageId in I.Ids(messages)
    decreases |messages|
  {
    if messages != [] {
      RemindersOf(messages[..|messages| - 1]);
      assert forall m :: m in messages[..|messages| - 1] ==> m in messages;
      assert messages[|messages| - 1] in messages;
    }
  }

  lemma EnqueuedSeen(events: seq<Event>, state: State, base: nat, calendar: Calendar)
    requires I.Project(events).Some? && Agrees(state, Reminders(events, base))
    ensures forall id :: id in state.enqueued ==> id in I.Project(events).value.seen
  {
    RemindersSeen(events, base);
  }

  lemma SoundInsert(events: seq<Event>, event: Event, message: Message, base: nat, calendar: Calendar)
    requires Sound(events, base, calendar) && Replay(events, base, calendar).Some?
    requires I.Project(events).Some? && message.id !in I.Project(events).value.seen
    requires event.seqNo >= base && event.kind.InboxSplice? && event.kind.inserted == [message]
    requires events != [] ==> events[|events| - 1].time <= event.time
    requires message.source.ScheduledAt? && message.source.occurrence <= event.time
    requires var state, id := Replay(events, base, calendar).value, message.source.scheduleId;
             && id in state.armed && id in state.active && state.active[id].at == message.source.occurrence
             && forall r :: r in Reminders(events, base) && r.scheduleId == id ==> !Orphan(state, r)
    ensures Sound(events + [event], base, calendar)
    ensures var added := Reminder(message.id, message.source.scheduleId, message.source.occurrence);
            var state := Replay(events, base, calendar).value;
            && Reminders(events + [event], base) == Reminders(events, base) + [added]
            && Replay(events + [event], base, calendar)
               == Some(state.(enqueued :=
                      state.enqueued[message.id := (message.source.scheduleId, message.source.occurrence)]))
  {
    hide Sound, I.Project, Agrees, AtMostOnce, Orphan;
    var state := Replay(events, base, calendar).value;
    SoundNow(events, base, calendar);
    EnqueuedSeen(events, state, base, calendar);
    RemindersAppend(events, event, base);
    ReplayAppend(events, event, base, calendar);
    hide Replay, Reminders;
    AgreesInsert(state, Reminders(events, base), message);
    assert [message][..0] == [] && NoteInserted(state, []) == Some(state);
    SoundExtend(events, event, base, calendar);
  }

  // ---- what the log says of dispatches and deletions ----

  /** How many dispatch records name a message. */
  function DispatchesOf(events: seq<Event>, base: nat, messageId: Id): nat {
    if events == [] then 0
    else
      var last := events[|events| - 1];
      DispatchesOf(events[..|events| - 1], base, messageId)
      + (if last.seqNo >= base && last.kind.ScheduleChange? && last.kind.schedule.Dispatch?
        && last.kind.schedule.messageId == messageId then 1 else 0)
  }

  lemma {:induction false} DispatchedOnce(events: seq<Event>, base: nat, calendar: Calendar, messageId: Id)
    requires Replay(events, base, calendar).Some?
    ensures DispatchesOf(events, base, messageId)
            == if messageId in Replay(events, base, calendar).value.dispatched then 1 else 0
    decreases |events|
  {
    if events != [] {
      var shorter, last := events[..|events| - 1], events[|events| - 1];
      DispatchedOnce(shorter, base, calendar, messageId);
      if last.seqNo >= base && last.kind.InboxSplice? {
        NoteKeepsDispatched(Replay(shorter, base, calendar).value, last.kind.inserted);
      }
    }
  }

  lemma {:induction false} NoteKeepsDispatched(state: State, messages: seq<Message>)
    ensures NoteInserted(state, messages).Some? ==>
              var next := NoteInserted(state, messages).value;
              && next.dispatched == state.dispatched
              && next.active == state.active
              && next.seen == state.seen
              && next.armed == state.armed
    decreases |messages|
  {
    if messages != [] {
      NoteKeepsDispatched(state, messages[..|messages| - 1]);
    }
  }

  predicate DeletedBy(event: Event, base: nat, id: Id) {
    event.seqNo >= base && event.kind == ScheduleChange(DeleteSchedule(id))
  }

  /** A deletion of this schedule is among the first n local events. */
  ghost predicate Deleted(events: seq<Event>, n: nat, base: nat, id: Id) {
    exists i :: 0 <= i < n && i < |events| && DeletedBy(events[i], base, id)
  }

  lemma DeletedGrows(events: seq<Event>, n: nat, base: nat, id: Id)
    ensures Deleted(events, n, base, id) ==> Deleted(events, |events|, base, id)
  {
    if Deleted(events, n, base, id) {
      var i :| 0 <= i < n && i < |events| && DeletedBy(events[i], base, id);
      assert DeletedBy(events[i], base, id);
    }
  }

  lemma EditKeepsInactive(state: State, edit: ScheduleEdit, time: int, calendar: Calendar)
    requires ApplyEdit(state, edit, time, calendar).Some? && state.active.Keys <= state.seen
    ensures var next := ApplyEdit(state, edit, time, calendar).value;
            && next.active.Keys <= next.seen && state.seen <= next.seen
            && (forall id :: id in state.seen && id !in state.active ==> id !in next.active)
            && (edit.DeleteSchedule? ==> edit.deleted in state.active && edit.deleted !in next.active)
  {
    hide Advance, ValidRecord, Expired;
  }

  /** A deleted schedule stays deleted: its id is never active again. */
  lemma {:induction false} DeletedIsInactive(events: seq<Event>, base: nat, calendar: Calendar, id: Id)
    requires Replay(events, base, calendar).Some?
    ensures Replay(events, base, calendar).value.active.Keys <= Replay(events, base, calendar).value.seen
    ensures Deleted(events, |events|, base, id) ==>
              && id in Replay(events, base, calendar).value.seen
              && id !in Replay(events, base, calendar).value.active
    decreases |events|
  {
    if events != [] {
      var shorter, last := events[..|events| - 1], events[|events| - 1];
      DeletedIsInactive(shorter, base, calendar, id);
      var state := Replay(shorter, base, calendar).value;
      if last.seqNo >= base && last.kind.InboxSplice? {
        NoteKeepsDispatched(state, last.kind.inserted);
      } else if last.seqNo >= base && last.kind.ScheduleChange? {
        EditKeepsInactive(state, last.kind.schedule, last.time, calendar);
      }
      hide ApplyEdit, NoteInserted;
      if Deleted(events, |events|, base, id) && !DeletedBy(last, base, id) {
        var i :| 0 <= i < |events| && DeletedBy(events[i], base, id);
        assert shorter[i] == events[i];
      }
    }
  }

  /** The messages that some local dispatch record names. */
  function Named(events: seq<Event>, base: nat): set<Id> {
    if events == [] then {}
    else
      var last := events[|events| - 1];
      Named(events[..|events| - 1], base)
      + (if last.seqNo >= base && last.kind.ScheduleChange? && last.kind.schedule.Dispatch?
        then {last.kind.schedule.messageId} else {})
  }

  lemma EditNames(state: State, edit: ScheduleEdit, time: int, calendar: Calendar)
    requires ApplyEdit(state, edit, time, calendar).Some?
    ensures ApplyEdit(state, edit, time, calendar).value.dispatched
            == if edit.Dispatch? then state.dispatched + {edit.messageId} else state.dispatched
    ensures state.seen <= ApplyEdit(state, edit, time, calendar).value.seen
  {
    hide Advance, ValidRecord, Expired;
  }

  lemma {:induction false} NamedIsDispatched(events: seq<Event>, base: nat, calendar: Calendar)
    requires Replay(events, base, calendar).Some?
    ensures Named(events, base) == Replay(events, base, calendar).value.dispatched
    decreases |events|
  {
    if events != [] {
      var shorter, last := events[..|events| - 1], events[|events| - 1];
      NamedIsDispatched(shorter, base, calendar);
      var state := Replay(shorter, base, calendar).value;
      if last.seqNo >= base && last.kind.InboxSplice? {
        NoteKeepsDispatched(state, last.kind.inserted);
      } else if last.seqNo >= base && last.kind.ScheduleChange? {
        EditNames(state, last.kind.schedule, last.time, calendar);
      }
    }
  }

  predicate RecordsDispatch(event: Event, messageId: Id) {
    event.kind.ScheduleChange? && event.kind.schedule.Dispatch? && event.kind.schedule.messageId == messageId
  }

  lemma {:induction false} NamedSomewhere(events: seq<Event>, base: nat, messageId: Id)
    requires messageId in Named(events, base)
    ensures exists i :: 0 <= i < |events| && RecordsDispatch(events[i], messageId)
    decreases |events|
  {
    var shorter, last := events[..|events| - 1], events[|events| - 1];
    if messageId in Named(shorter, base) {
      NamedSomewhere(shorter, base, messageId);
      var i :| 0 <= i < |shorter| && RecordsDispatch(shorter[i], messageId);
      assert RecordsDispatch(events[i], messageId);
    } else {
      assert RecordsDispatch(events[|events| - 1], messageId);
    }
  }

  lemma {:induction false} NamedForeign(before: seq<Event>, after: seq<Event>, base: nat)
    requires Foreign(before, after)
    ensures Named(after, base) == Named(before, base)
    decreases |after|
  {
    if |after| == |before| {
      assert after == before;
    } else {
      ForeignInit(before, after);
      NamedForeign(before, after[..|after| - 1], base);
    }
  }

  /** The oldest reminder that names the current target of its schedule and that
      no dispatch record names, with the time of its insertion. */
  function FindOrphan(events: seq<Event>, base: nat, state: State, named: set<Id>): Option<(Reminder, int)> {
    if events == [] then None
    else
      var before := FindOrphan(events[..|events| - 1], base, state, named);
      var last := events[|events| - 1];
      if before.Some? || last.seqNo < base || !last.kind.InboxSplice? then before
      else
        var found := FirstOrphan(RemindersIn(last.kind.inserted), state, named);
        if found.Some? then Some((found.value, last.time)) else None
  }

  function FirstOrphan(reminders: seq<Reminder>, state: State, named: set<Id>): (found: Option<Reminder>)
    ensures found.Some? ==> found.value in reminders && Unnamed(state, named, found.value)
    ensures found.None? ==> forall r :: r in reminders ==> !Unnamed(state, named, r)
  {
    if reminders == [] then None
    else if Unnamed(state, named, reminders[0]) then Some(reminders[0])
    else FirstOrphan(reminders[1..], state, named)
  }

  predicate Unnamed(state: State, named: set<Id>, r: Reminder) {
    r.messageId !in named && r.scheduleId in state.active && state.active[r.scheduleId].at == r.occurrence
  }

  lemma {:induction false} FindsOrphan(events: seq<Event>, base: nat, state: State, named: set<Id>)
    ensures var found := FindOrphan(events, base, state, named);
            && (found.Some? ==> found.value.0 in Reminders(events, base) && Unnamed(state, named, found.value.0))
            && (found.Some? ==>
                  exists k :: InsertedAt(events, base, k, found.value.0) && events[k].time == found.value.1)
            && (found.None? ==> forall r :: r in Reminders(events, base) ==> !Unnamed(state, named, r))
    decreases |events|
  {
    if events != [] {
      var shorter := events[..|events| - 1];
      FindsOrphan(shorter, base, state, named);
      var before, found := FindOrphan(shorter, base, state, named), FindOrphan(events, base, state, named);
      if before.Some? {
        var k :| InsertedAt(shorter, base, k, before.value.0) && shorter[k].time == before.value.1;
        assert InsertedAt(events, base, k, found.value.0);
      } else if found.Some? {
        assert InsertedAt(events, base, |events| - 1, found.value.0);
      }
    }
  }

  // ---- what recovery can complete ----

  /** This reminder was put in the inbox by the event at a position. */
  predicate InsertedAt(events: seq<Event>, base: nat, k: int, r: Reminder) {
    && 0 <= k < |events|
    && events[k].seqNo >= base
    && events[k].kind.InboxSplice?
    && r in RemindersIn(events[k].kind.inserted)
  }

  /** The time that recovery gives a dispatch: its insertion, but never early. */
  function AcceptedAt(inserted: int, r: Reminder): int {
    if inserted > r.occurrence then inserted else r.occurrence
  }

  /** The next target of every reminder without dispatch record exists. */
  ghost predicate Recoverable(events: seq<Event>, base: nat, state: State, calendar: Calendar) {
    forall k, r :: InsertedAt(events, base, k, r) && Orphan(state, r) ==>
      !Advance(state.active[r.scheduleId], AcceptedAt(events[k].time, r), calendar).Overflow?
  }

  lemma {:induction false} RemindersPrefix(events: seq<Event>, k: nat, base: nat)
    requires k <= |events|
    ensures forall r :: r in Reminders(events[..k], base) ==> r in Reminders(events, base)
    decreases |events|
  {
    if k < |events| {
      assert events[..|events| - 1][..k] == events[..k];
      RemindersPrefix(events[..|events| - 1], k, base);
    } else {
      assert events[..k] == events;
    }
  }

  lemma {:induction false} InsertedIsReminder(events: seq<Event>, base: nat, k: int, r: Reminder)
    requires InsertedAt(events, base, k, r)
    ensures r in Reminders(events, base)
    decreases |events|
  {
    if k < |events| - 1 {
      InsertedIsReminder(events[..|events| - 1], base, k, r);
    }
  }

  lemma ApartOnce(left: seq<Reminder>, right: seq<Reminder>)
    requires AtMostOnce(left + right)
    ensures forall r :: r in left ==> r !in right
  {
    var all := left + right;
    forall i, j | 0 <= i < |left| && 0 <= j < |right| ensures left[i] != right[j] {
      assert all[i] == left[i] && all[|left| + j] == right[j];
    }
  }

  lemma {:induction false} InsertedOnce(events: seq<Event>, base: nat, j: int, k: int, r: Reminder)
    requires AtMostOnce(Reminders(events, base)) && InsertedAt(events, base, j, r) && InsertedAt(events, base, k, r)
    requires j <= k
    ensures j == k
    decreases |events|
  {
    var shorter := events[..|events| - 1];
    var before, all := Reminders(shorter, base), Reminders(events, base);
    assert forall i :: 0 <= i < |before| ==> all[i] == before[i];
    if k < |events| - 1 {
      InsertedOnce(shorter, base, j, k, r);
    } else if j < k {
      InsertedIsReminder(shorter, base, j, r);
      ApartOnce(before, RemindersIn(events[k].kind.inserted));
    }
  }

  lemma RecoverableForeign(before: seq<Event>, after: seq<Event>, base: nat, state: State, calendar: Calendar)
    requires Foreign(before, after)
    ensures Recoverable(after, base, state, calendar) <==> Recoverable(before, base, state, calendar)
  {
    hide Advance, Orphan;
    forall k, r ensures InsertedAt(after, base, k, r) <==> InsertedAt(before, base, k, r) {
      if |before| <= k < |after| {
        assert !MentionsSchedules(after[k].kind);
      }
    }
  }

  /** A dispatch can be recorded exactly if the next target exists. */
  lemma RecordsUnlessOverflow(events: seq<Event>, base: nat, calendar: Calendar, r: Reminder, accepted: int, time: int)
    requires Sound(events, base, calendar) && Replay(events, base, calendar).Some?
    requires r in Reminders(events, base) && Orphan(Replay(events, base, calendar).value, r) && accepted >= r.occurrence
    ensures var state := Replay(events, base, calendar).value;
            ApplyEdit(state, Dispatch(r.scheduleId, accepted, r.messageId), time, calendar).None?
            <==> Advance(state.active[r.scheduleId], accepted, calendar).Overflow?
  {
    hide Advance, Replay, Reminders;
    SoundNow(events, base, calendar);
    assert Tracked(Replay(events, base, calendar).value, r);
  }

  /** The reminder of an armed target has no dispatch record yet. */
  lemma CurrentIsOrphan(events: seq<Event>, base: nat, calendar: Calendar, r: Reminder)
    requires Sound(events, base, calendar) && Replay(events, base, calendar).Some? && r in Reminders(events, base)
    requires var state := Replay(events, base, calendar).value;
             && r.scheduleId in state.armed
             && r.scheduleId in state.active
             && state.active[r.scheduleId].at == r.occurrence
    ensures Orphan(Replay(events, base, calendar).value, r)
  {
    hide Advance, Replay, Reminders;
    SoundNow(events, base, calendar);
    assert Tracked(Replay(events, base, calendar).value, r);
  }

  /** Recording one dispatch changes nothing about the others. */
  lemma RecordingKeepsRecoverable(events: seq<Event>, event: Event, base: nat, calendar: Calendar, k: int, r: Reminder)
    requires Sound(events, base, calendar) && Replay(events, base, calendar).Some?
    requires InsertedAt(events, base, k, r) && Orphan(Replay(events, base, calendar).value, r)
    requires var edit := Dispatch(r.scheduleId, AcceptedAt(events[k].time, r), r.messageId);
             && event.kind == ScheduleChange(edit)
             && ApplyEdit(Replay(events, base, calendar).value, edit, event.time, calendar).Some?
    ensures var state := Replay(events, base, calendar).value;
            var next := ApplyEdit(state, event.kind.schedule, event.time, calendar).value;
            Recoverable(events + [event], base, next, calendar) <==> Recoverable(events, base, state, calendar)
  {
    hide Advance, Replay, Reminders, Sound, AtMostOnce, Agrees;
    var state, more := Replay(events, base, calendar).value, events + [event];
    SoundNow(events, base, calendar);
    InsertedIsReminder(events, base, k, r);
    RecordsUnlessOverflow(events, base, calendar, r, AcceptedAt(events[k].time, r), event.time);
    AgreesDispatch(state, Reminders(events, base), r.scheduleId, AcceptedAt(events[k].time, r), r.messageId,
      event.time, calendar);
    var next := ApplyEdit(state, event.kind.schedule, event.time, calendar).value;
    assert forall j, q :: InsertedAt(more, base, j, q) <==> InsertedAt(events, base, j, q);
    forall j, q | InsertedAt(events, base, j, q) && Orphan(state, q)
      ensures q.scheduleId == r.scheduleId ==> q == r && j == k
      ensures q.scheduleId != r.scheduleId ==>
                Orphan(next, q) && next.active[q.scheduleId] == state.active[q.scheduleId]
    {
      InsertedIsReminder(events, base, j, q);
      if q.scheduleId == r.scheduleId {
        OnlyReminder(Reminders(events, base), q, r);
        InsertedOnce(events, base, if j <= k then j else k, if j <= k then k else j, r);
      }
    }
    forall j, q | InsertedAt(more, base, j, q) && Orphan(next, q)
      ensures InsertedAt(events, base, j, q) && Orphan(state, q) && q != r
    {
      InsertedIsReminder(events, base, j, q);
    }
  }

  // ---- reminders still waiting in the inbox ----

  function Waiting(inbox: I.Inbox, id: Id): set<Id> {
    set m | m in inbox.Pending() && m.source.ScheduledAt? && m.source.scheduleId == id :: m.id
  }

  lemma WaitingShrinks(inbox: I.Inbox, kind: Kind, id: Id)
    requires I.Admissible(inbox, kind)
    requires kind.InboxSplice? ==> forall m :: m in kind.inserted && m.source.ScheduledAt? ==> m.source.scheduleId != id
    ensures Waiting(I.Apply(inbox, kind), id) <= Waiting(inbox, id)
  {
    if kind.InboxSplice? {
      var next := I.Apply(inbox, kind);
      forall m | m in next.Pending() ensures m in inbox.Pending() || m in kind.inserted {
        if m in next.Queue(kind.target) {
          var queue := inbox.Queue(kind.target);
          assert m in queue[..kind.start] || m in kind.inserted || m in queue[kind.start + I.Removed(kind)..];
          assert m in queue || m in kind.inserted;
        }
      }
    }
  }

  /** Other owners of the session only ever take reminders out of the inbox. */
  lemma {:induction false} WaitingForeign(before: seq<Event>, after: seq<Event>, id: Id)
    requires Foreign(before, after) && I.Project(after).Some? && I.Project(before).Some?
    ensures Waiting(I.Project(after).value, id) <= Waiting(I.Project(before).value, id)
    decreases |after|
  {
    if |after| == |before| {
      assert after == before;
    } else {
      var shorter, last := after[..|after| - 1], after[|after| - 1];
      I.ProjectPrefix(after, |shorter|);
      ForeignInit(before, after);
      WaitingForeign(before, shorter, id);
      if last.kind.InboxSplice? {
        NoteNothing(NO_SCHEDULES, last.kind.inserted);
      }
      WaitingShrinks(I.Project(shorter).value, last.kind, id);
    }
  }

  lemma WaitingPending(inbox: I.Inbox, id: Id)
    ensures Waiting(inbox, id) <= I.Ids(inbox.Pending())
  {
  }

  /** The pending reminders of some schedules, in queue order. */
  function PendingFor(messages: seq<Message>, schedules: set<Id>): (found: seq<Id>)
    ensures forall m :: m in messages && m.source.ScheduledAt? && m.source.scheduleId in schedules ==> m.id in found
  {
    if messages == [] then []
    else
      var last := messages[|messages| - 1];
      var before := PendingFor(messages[..|messages| - 1], schedules);
      assert forall m :: m in messages ==> m in messages[..|messages| - 1] || m == last;
      if last.source.ScheduledAt? && last.source.scheduleId in schedules then before + [last.id] else before
  }

  lemma WaitingFound(inbox: I.Inbox, schedules: set<Id>, id: Id)
    requires id in schedules
    ensures forall m :: m in Waiting(inbox, id) ==> m in PendingFor(inbox.Pending(), schedules)
  {
  }

  /** The reminders inserted below this session's own suffix. */
  function InheritedIds(events: seq<Event>, base: nat): set<Id> {
    if events == [] then {}
    else
      var last := events[|events| - 1];
      InheritedIds(events[..|events| - 1], base)
      + (if last.seqNo < base && last.kind.InboxSplice? then set r | r in RemindersIn(last.kind.inserted) :: r.messageId
        else {})
  }

  /** Exactly the messages that a splice below the base inserted for a schedule. */
  lemma {:induction false} InheritedIdsAre(events: seq<Event>, base: nat, id: Id)
    ensures id in InheritedIds(events, base) <==>
              exists k, m :: 0 <= k < |events| && events[k].seqNo < base && events[k].kind.InboxSplice?
                             && m in events[k].kind.inserted && m.source.ScheduledAt? && m.id == id
    decreases |events|
  {
    if events != [] {
      var n := |events| - 1;
      InheritedIdsAre(events[..n], base, id);
      assert forall k :: 0 <= k < n ==> events[..n][k] == events[k];
      if events[n].kind.InboxSplice? {
        RemindersNamed(events[n].kind.inserted, id);
      }
    }
  }

  lemma {:induction false} RemindersNamed(messages: seq<Message>, id: Id)
    ensures (exists r :: r in RemindersIn(messages) && r.messageId == id)
            <==> exists m :: m in messages && m.source.ScheduledAt? && m.id == id
    decreases |messages|
  {
    if messages != [] {
      var before, last := messages[..|messages| - 1], messages[|messages| - 1];
      RemindersNamed(before, id);
      assert forall m :: m in messages <==> m in before || m == last;
      assert RemindersIn(messages)
        == RemindersIn(before) + RemindersIn(messages)[|RemindersIn(before)|..];
    }
  }

  /** The pending messages among some identities, in queue order. */
  function PendingAmong(messages: seq<Message>, ids: set<Id>): (found: seq<Id>)
    ensures forall m :: m in messages && m.id in ids ==> m.id in found
  {
    if messages == [] then []
    else
      var last := messages[|messages| - 1];
      var before := PendingAmong(messages[..|messages| - 1], ids);
      assert forall m :: m in messages ==> m in messages[..|messages| - 1] || m == last;
      if last.id in ids then before + [last.id] else before
  }

  lemma WaitingAmong(inbox: I.Inbox, ids: set<Id>, id: Id)
    ensures forall m :: m in Waiting(inbox, id) && m in ids ==> m in PendingAmong(inbox.Pending(), ids)
  {
  }

  /** The schedules that a local record deletes. */
  function DeletedIds(events: seq<Event>, base: nat): set<Id> {
    if events == [] then {}
    else
      var last := events[|events| - 1];
      DeletedIds(events[..|events| - 1], base)
      + (if last.seqNo >= base && last.kind.ScheduleChange? && last.kind.schedule.DeleteSchedule?
        then {last.kind.schedule.deleted} else {})
  }

  lemma {:induction false} DeletedIdsAre(events: seq<Event>, base: nat, id: Id)
    ensures id in DeletedIds(events, base) <==> Deleted(events, |events|, base, id)
    decreases |events|
  {
    if events != [] {
      var shorter, last := events[..|events| - 1], events[|events| - 1];
      DeletedIdsAre(shorter, base, id);
      if DeletedBy(last, base, id) {
        assert DeletedBy(events[|events| - 1], base, id);
      } else if Deleted(events, |events|, base, id) {
        var i :| 0 <= i < |events| && DeletedBy(events[i], base, id);
        assert DeletedBy(shorter[i], base, id);
      }
    }
  }
}
