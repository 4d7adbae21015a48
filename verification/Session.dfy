/** The session that owns the log: checked appends, the atomic claim of one
    pending input, checkpoints, and what a crash leaves behind. */
module Sessions {
  import opened SessionEvents
  import opened InboxProjection

  /** Every write from one on, up to the present, was accepted. */
  ghost predicate Accepted(session: Session, from: nat)
    reads session
  {
    forall n :: from <= n < session.writes ==> session.store(n)
  }

  /** The store refuses nothing from some write on. */
  ghost predicate Accepting(session: Session, from: nat)
    reads session
  {
    forall n: nat :: from <= n ==> session.store(n)
  }

  class Session {
    var events: seq<Event>
    var inbox: Inbox
    /** Length of the prefix that the last checkpoint forced to stable storage. */
    var durable: nat
    var clock: nat
    var writes: nat
    /** Whether the n-th write or checkpoint succeeds: every refusal of the file
        system, of a size bound or of a text check is one of its `false`s. */
    const store: nat -> bool

    ghost predicate Valid()
      reads this
    {
      && WellFormed(events, clock)
      && Project(events) == Some(inbox)
      && durable <= |events|
    }

    constructor (store: nat -> bool)
      ensures Valid() && events == [] && durable == 0 && clock == 0 && this.store == store
    {
      events, inbox, durable, clock, writes := [], EMPTY_INBOX, 0, 0, 0;
      this.store := store;
    }

    /** Read the clock, which never goes back. */
    method Now() returns (t: nat)
      requires Valid()
      modifies this`clock
      ensures Valid() && old(clock) <= t == clock
    {
      var later: nat :| true;
      clock := clock + later;
      t := clock;
    }

    method Append(kind: Kind) returns (ok: bool)
      requires Valid()
      modifies this
      ensures Valid() && durable == old(durable) && old(clock) <= clock && writes == old(writes) + 1
      ensures ok == (store(old(writes)) && Admissible(old(inbox), kind))
      ensures ok ==> events == old(events) + [Event(|old(events)|, clock, kind)] && inbox == Apply(old(inbox), kind)
      ensures !ok ==> events == old(events) && inbox == old(inbox)
    {
      hide Admissible, Apply, Project;
      var written := store(writes);
      writes := writes + 1;
      if !written || !Admissible(inbox, kind) {
        return false;
      }
      var now := Now();
      var event := Event(|events|, now, kind);
      WellFormedAppend(events, now, event, now);
      ProjectAppend(events, event);
      inbox := Apply(inbox, kind);
      events := events + [event];
      return true;
    }

    /** Remove the message at one position and admit its text, in one write. */
    method Claim(target: Target, start: nat) returns (claimed: Option<Message>)
      requires Valid()
      modifies this
      ensures Valid() && durable == old(durable) && old(clock) <= clock && writes == old(writes) + 1
      ensures claimed.Some? <==> store(old(writes)) && start < |old(inbox).Queue(target)|
      ensures claimed.None? ==> events == old(events) && inbox == old(inbox)
      ensures claimed.Some? ==>
                var splice := InboxSplice(target, start, Some(1), [], false);
                && claimed.value == old(inbox).Queue(target)[start]
                && Admissible(old(inbox), splice)
                && inbox == Apply(old(inbox), splice)
                && events == old(events) + [Event(|old(events)|, clock, splice),
                                            Event(|old(events)| + 1, clock, UserMessage(claimed.value.text))]
    {
      hide Admissible, Apply, Project;
      var written := store(writes);
      writes := writes + 1;
      if !written || start >= |inbox.Queue(target)| {
        return None;
      }
      var message := inbox.Queue(target)[start];
      var splice := InboxSplice(target, start, Some(1), [], false);
      RemovalAdmissible(inbox, target, start, false);
      var now := Now();
      var removal := Event(|events|, now, splice);
      var admission := Event(|events| + 1, now, UserMessage(message.text));
      WellFormedAppend(events, now, removal, now);
      WellFormedAppend(events + [removal], now, admission, now);
      ProjectAppend(events, removal);
      ProjectAppend(events + [removal], admission);
      AdmissionKeeps(Apply(inbox, splice), admission.kind);
      inbox := Apply(inbox, splice);
      events := events + [removal, admission];
      assert old(events) + [removal, admission] == (old(events) + [removal]) + [admission];
      return Some(message);
    }

    method Flush() returns (ok: bool)
      requires Valid()
      modifies this`durable, this`writes
      ensures Valid() && ok == store(old(writes)) && writes == old(writes) + 1
      ensures durable == if ok then |events| else old(durable)
    {
      ok := store(writes);
      writes := writes + 1;
      if ok {
        durable := |events|;
      }
    }

    /** A crash keeps some prefix of the log, never less than the last checkpoint. */
    method CutTo(k: nat)
      requires Valid() && durable <= k <= |events|
      modifies this`events, this`inbox
      ensures Valid() && events == old(events)[..k]
    {
      ProjectPrefix(events, k);
      events := events[..k];
      inbox := Project(events).value;
    }

    /** What the other owners of the session lock append between two sections:
        any number of accepted events of the allowed kinds. */
    method Interleave(allowed: Kind -> bool)
      requires Valid()
      modifies this
      ensures Valid() && durable == old(durable) && old(clock) <= clock && old(writes) <= writes
      ensures old(events) <= events
      ensures forall i :: |old(events)| <= i < |events| ==> allowed(events[i].kind)
    {
      var rounds: nat :| true;
      while rounds > 0
        invariant Valid() && durable == old(durable) && old(clock) <= clock && old(writes) <= writes
        invariant old(events) <= events
        invariant forall i :: |old(events)| <= i < |events| ==> allowed(events[i].kind)
      {
        var kind: Kind :| true;
        if allowed(kind) {
          var ok := Append(kind);
        }
        rounds := rounds - 1;
      }
    }
  }
}
