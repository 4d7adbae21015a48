/** What becomes of each schedule when a session is taken up again: recovery
    records what was inserted, and a few records are not brought back. */
module ScheduleRestart {
  import opened SessionEvents
  import opened ScheduleProjection

  /** A reminder of the current target waits for its dispatch record. */
  ghost predicate Orphaned(state: State, reminders: seq<Reminder>, id: Id) {
    exists r :: r in reminders && r.scheduleId == id && Orphan(state, r)
  }

  predicate Same(before: State, after: State, id: Id)
    requires id in before.active
  {
    id in after.active && after.active[id] == before.active[id] && (id in after.armed <==> id in before.armed)
  }

  /** The schedule goes on under its rule, perhaps with a later target. */
  predicate GoesOn(record: Record, state: State, id: Id) {
    && id in state.active && id in state.armed
    && state.active[id].rule == record.rule && state.active[id].expiresAt == record.expiresAt
  }

  /** What the record of a dispatch makes of a schedule. */
  predicate Fate(record: Record, state: State, id: Id, now: int) {
    match record.rule
    case Every(_) => GoesOn(record, state, id)
    case Cron(_, true) => GoesOn(record, state, id) || (Expired(record, now) && id !in state.active)
    case Wakeup(_) => id !in state.armed && (id in state.active ==> state.active[id] == record)
    case _ => id !in state.active
  }

  /** Recovery touches the schedules with an unrecorded reminder, and no other. */
  ghost predicate Recovered(before: State, after: State, reminders: seq<Reminder>, now: int) {
    && (forall r :: r in reminders && Orphan(after, r) ==> Orphan(before, r))
    && after.active.Keys <= before.active.Keys
    && (forall id :: id in before.active ==>
          if Orphaned(before, reminders, id)
          then Fate(before.active[id], after, id, now) || (Same(before, after, id) && Orphaned(after, reminders, id))
          else Same(before, after, id))
  }

  lemma NothingRecovered(state: State, reminders: seq<Reminder>, now: int)
    ensures Recovered(state, state, reminders, now)
  {
  }

  lemma RecoveredLater(before: State, after: State, reminders: seq<Reminder>, now: int, later: int)
    requires Recovered(before, after, reminders, now) && now <= later
    ensures Recovered(before, after, reminders, later)
  {
    hide Orphan, Orphaned;
  }

  /** One recorded dispatch decides the fate of its schedule. */
  lemma DispatchFate(state: State, id: Id, accepted: int, messageId: Id, time: int, now: int, calendar: Calendar)
    requires ApplyEdit(state, Dispatch(id, accepted, messageId), time, calendar).Some? && accepted <= now
    requires id in state.active && state.active[id].id == id
    ensures var next := ApplyEdit(state, Dispatch(id, accepted, messageId), time, calendar).value;
            && Fate(state.active[id], next, id, now) && next.active.Keys <= state.active.Keys
            && forall other :: other in state.active && other != id ==> Same(state, next, other)
  {
    hide ValidRecord;
  }

  lemma RecoverMore(
    before: State, state: State, reminders: seq<Reminder>, r: Reminder, accepted: int, time: int, now: int,
    calendar: Calendar)
    requires Agrees(state, reminders) && AtMostOnce(reminders) && r in reminders && Orphan(state, r) && accepted <= now
    requires ApplyEdit(state, Dispatch(r.scheduleId, accepted, r.messageId), time, calendar).Some?
    requires Recovered(before, state, reminders, now)
    ensures var next := ApplyEdit(state, Dispatch(r.scheduleId, accepted, r.messageId), time, calendar).value;
            Recovered(before, next, reminders, now)
  {
    var k := r.scheduleId;
    var next := ApplyEdit(state, Dispatch(k, accepted, r.messageId), time, calendar).value;
    assert Tracked(state, r);
    AgreesDispatch(state, reminders, k, accepted, r.messageId, time, calendar);
    DispatchFate(state, k, accepted, r.messageId, time, now, calendar);
    assert next.armed <= next.active.Keys && state.armed <= state.active.Keys;
    hide Agrees, AtMostOnce, ApplyEdit, Orphan, Fate, Same;
    forall id | id in before.active
      ensures if Orphaned(before, reminders, id)
              then Fate(before.active[id], next, id, now) || (Same(before, next, id) && Orphaned(next, reminders, id))
              else Same(before, next, id)
    {
      if id == k {
        assert Orphan(before, r) && Orphaned(before, reminders, id);
      } else if Orphaned(state, reminders, id) {
        var q :| q in reminders && q.scheduleId == id && Orphan(state, q);
        assert Orphan(next, q);
      }
      FateComposes(before, state, next, id, now);
    }
  }

  lemma FateComposes(before: State, state: State, next: State, id: Id, now: int)
    requires id in before.active && next.active.Keys <= state.active.Keys
    requires next.armed <= next.active.Keys && state.armed <= state.active.Keys
    requires id in state.active ==> Same(state, next, id) || Fate(state.active[id], next, id, now)
    ensures Fate(before.active[id], state, id, now) ==> Fate(before.active[id], next, id, now)
    ensures Same(before, state, id) ==> Same(before, next, id) || Fate(before.active[id], next, id, now)
    ensures Same(before, state, id) && Same(state, next, id) ==> Same(before, next, id)
  {
  }

  /** What a restart brings back of a schedule, as of some moment: fixed rates always;
      reminders unless recovery dispatched them; one-shot cron targets if they are
      also still ahead; recurring ones until they expire; self-paced loops never. */
  ghost predicate Restored(before: State, after: State, reminders: seq<Reminder>, asOf: int) {
    && after.active.Keys <= before.active.Keys
    && forall id :: id in before.active ==>
         var record := before.active[id];
         && (id in after.active && !Orphaned(before, reminders, id) ==> Same(before, after, id))
         && match record.rule
            case Every(_) => GoesOn(record, after, id)
            case Cron(_, true) =>
              if record.expiresAt.Some? && record.expiresAt.value <= asOf then id !in after.active
              else GoesOn(record, after, id)
            case Cron(_, false) => id in after.active <==> !Orphaned(before, reminders, id) && asOf < record.at
            case Wakeup(_) => id !in after.active
            case _ => id in after.active <==> !Orphaned(before, reminders, id)
  }

  /** What recovery left is retired exactly as a restart promises. */
  lemma RetiredIsRestored(before: State, recovered: State, after: State, reminders: seq<Reminder>, asOf: int)
    requires Recovered(before, recovered, reminders, asOf) && NoOrphans(recovered, reminders)
    requires forall id :: id in before.active && !before.active[id].rule.Wakeup? ==> id in before.armed
    requires after.active.Keys <= recovered.active.Keys
    requires forall id :: id in recovered.active ==> (id in after.active <==> !Lapses(recovered.active[id], asOf))
    requires forall id :: id in after.active ==> Same(recovered, after, id)
    ensures Restored(before, after, reminders, asOf)
  {
    hide Orphan;
    forall id | id in before.active ensures !Orphaned(recovered, reminders, id) {
    }
    hide Orphaned;
  }

  lemma KeptByRecovery(before: State, after: State, reminders: seq<Reminder>, now: int)
    requires Recovered(before, after, reminders, now)
    ensures forall id :: id in before.active && !Orphaned(before, reminders, id) ==> id in after.active
  {
    hide Orphaned, Orphan, Fate;
  }

  /** What a restart does not bring back: self-paced loops, missed one-shot cron
      targets and expired cron records. */
  predicate Lapses(record: Record, now: int) {
    match record.rule
    case Wakeup(_) => true
    case Cron(_, false) => record.at <= now
    case Cron(_, true) => Expired(record, now)
    case _ => false
  }
}
