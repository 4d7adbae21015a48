/** The agent's inbox: every way pending input enters, is claimed or is
    withdrawn, each an append to the session log. */
module InboxOperations {
  import opened SessionEvents
  import opened Sequences
  import opened InboxProjection
  import opened Sessions

  const MAX_PENDING_MESSAGES: nat := 256
  const MAX_PENDING_BYTES: nat := 4 * 1024 * 1024

  datatype InboxError = PendingCount | PendingBytes | Persistence | IdentityConflict | NoLongerFirst

  datatype Submission = Submission(id: Id, pending: nat, wake: bool)

  function TextBytes(messages: seq<Message>): nat {
    if messages == [] then 0 else TextBytes(messages[..|messages| - 1]) + |messages[|messages| - 1].text|
  }

  lemma {:induction false} TextBytesAppend(left: seq<Message>, right: seq<Message>)
    ensures TextBytes(left + right) == TextBytes(left) + TextBytes(right)
    decreases |right|
  {
    if right == [] {
      assert left + right == left;
    } else {
      TextBytesAppend(left, right[..|right| - 1]);
      assert (left + right)[..|left + right| - 1] == left + right[..|right| - 1];
    }
  }

  predicate Bounded(inbox: Inbox) {
    |inbox.Pending()| <= MAX_PENDING_MESSAGES && TextBytes(inbox.Pending()) <= MAX_PENDING_BYTES
  }

  function Fits(inbox: Inbox, text: Text): Result<(), InboxError> {
    if |inbox.Pending()| >= MAX_PENDING_MESSAGES then Err(PendingCount)
    else if TextBytes(inbox.Pending()) + |text| > MAX_PENDING_BYTES then Err(PendingBytes)
    else Ok(())
  }

  /** The running sum saturates at the word size, which never changes the verdict. */
  method CheckCapacity(inbox: Inbox, text: Text) returns (verdict: Result<(), InboxError>)
    ensures verdict == Fits(inbox, text)
  {
    var pending := inbox.Pending();
    if |pending| >= MAX_PENDING_MESSAGES {
      return Err(PendingCount);
    }
    var bytes := 0;
    for i := 0 to |pending|
      invariant bytes == if TextBytes(pending[..i]) <= U64_MAX then TextBytes(pending[..i]) else U64_MAX
    {
      assert pending[..i + 1][..i] == pending[..i];
      bytes := bytes + |pending[i].text|;
      if bytes > U64_MAX {
        bytes := U64_MAX;
      }
    }
    assert pending[..|pending|] == pending;
    return if bytes + |text| > MAX_PENDING_BYTES then Err(PendingBytes) else Ok(());
  }

  // ---- admitted user messages ----

  predicate IsClaim(kind: Kind) {
    kind.InboxSplice? && kind.removed.Some? && !kind.canceled
  }

  /** The texts of the user messages that directly follow a claim. */
  function Admitted(events: seq<Event>): seq<Text> {
    if |events| < 2 then []
    else
      var last, previous := events[|events| - 1].kind, events[|events| - 2].kind;
      Admitted(events[..|events| - 1])
      + (if last.UserMessage? && IsClaim(previous) then [last.text] else [])
  }

  function Texts(settlements: seq<Settlement>): seq<Text> {
    seq(|settlements|, i requires 0 <= i < |settlements| => settlements[i].message.text)
  }

  ghost predicate Paired(events: seq<Event>, inbox: Inbox) {
    && Admitted(events) == Texts(inbox.claimed)
    && (events != [] ==> !IsClaim(events[|events| - 1].kind))
  }

  /** What every run of inbox operations keeps, starting from an empty log. */
  ghost predicate Lawful(session: Session)
    reads session
  {
    && session.Valid()
    && OrderlyLog(session.events)
    && Paired(session.events, session.inbox)
    && Bounded(session.inbox)
  }

  lemma OrderlyAppend(events: seq<Event>, event: Event)
    requires Project(events).Some? && Admissible(Project(events).value, event.kind)
    requires OrderlyLog(events) && Orderly(Project(events).value, event.kind)
    ensures Project(events + [event]).Some? && OrderlyLog(events + [event])
  {
    ProjectAppend(events, event);
    assert (events + [event])[..|events|] == events;
  }

  lemma PairedAppend(events: seq<Event>, event: Event, inbox: Inbox)
    requires Paired(events, inbox) && Admissible(inbox, event.kind) && !IsClaim(event.kind)
    ensures Paired(events + [event], Apply(inbox, event.kind))
  {
    assert (events + [event])[..|events|] == events;
    assert Admitted(events + [event]) == Admitted(events) + [];
  }

  lemma PairedClaim(events: seq<Event>, splice: Event, admission: Event, inbox: Inbox)
    requires Paired(events, inbox) && Admissible(inbox, splice.kind)
    requires IsClaim(splice.kind) && splice.kind.removed == Some(1)
    requires admission.kind == UserMessage(inbox.Queue(splice.kind.target)[splice.kind.start].text)
    ensures Paired(events + [splice, admission], Apply(inbox, splice.kind))
  {
    hide Apply, Ids, SpliceShape;
    ApplyShape(inbox, splice.kind);
    var middle := events + [splice];
    assert events + [splice, admission] == middle + [admission];
    assert (middle + [admission])[..|middle|] == middle && middle[..|events|] == events;
    assert Admitted(middle) == Admitted(events) + [];
    var next := Apply(inbox, splice.kind);
    var gone := inbox.Queue(splice.kind.target)[splice.kind.start..splice.kind.start + 1];
    assert next.claimed == inbox.claimed + Settle(splice.kind.target, gone);
    assert Texts(next.claimed) == Texts(inbox.claimed) + [gone[0].text];
  }

  function Splice(message: Message, start: nat): Kind {
    InboxSplice(TargetOf(message.delivery), start, None, [message], false)
  }

  lemma InsertFits(inbox: Inbox, message: Message)
    requires message.id !in inbox.seen
    ensures var splice := Splice(message, |inbox.Queue(TargetOf(message.delivery))|);
            && Admissible(inbox, splice) && Orderly(inbox, splice)
            && Apply(inbox, splice).Queue(TargetOf(message.delivery))
               == inbox.Queue(TargetOf(message.delivery)) + [message]
            && (Fits(inbox, message.text).Ok? ==> Bounded(Apply(inbox, splice)))
  {
    var splice := Splice(message, |inbox.Queue(TargetOf(message.delivery))|);
    assert Ids([message]) == {message.id};
    ApplyShape(inbox, splice);
    hide Apply, TextBytes, Admissible, Ids, Settle;
    var next, queue := Apply(inbox, splice), inbox.Queue(splice.target);
    assert next.Queue(splice.target) == queue + [message] by {
      assert queue[..|queue|] + [message] + queue[|queue|..] == queue + [message];
    }
    QueueBytes(inbox, next, splice.target);
    TextBytesAppend(queue, [message]);
    TextBytesOne(message);
  }

  lemma TextBytesOne(message: Message)
    ensures TextBytes([message]) == |message.text|
  {
    assert [message][..0] == [];
  }

  /** A change of one queue shows in the totals. */
  lemma QueueBytes(before: Inbox, after: Inbox, target: Target)
    requires forall other :: other != target ==> after.Queue(other) == before.Queue(other)
    ensures |after.Pending()| - |before.Pending()| == |after.Queue(target)| - |before.Queue(target)|
    ensures TextBytes(after.Pending()) - TextBytes(before.Pending())
            == TextBytes(after.Queue(target)) - TextBytes(before.Queue(target))
  {
    hide TextBytes;
    TextBytesAppend(before.nextTurn, before.nextStep);
    TextBytesAppend(after.nextTurn, after.nextStep);
    var other := if target.NextTurn? then NextStep else NextTurn;
    assert after.Queue(other) == before.Queue(other);
  }

  lemma RemoveOne(queue: seq<Message>, start: nat)
    requires start < |queue|
    ensures TextBytes(queue[..start] + queue[start + 1..]) <= TextBytes(queue)
  {
    hide TextBytes;
    assert queue == queue[..start + 1] + queue[start + 1..];
    assert queue[..start + 1] == queue[..start] + [queue[start]];
    TextBytesAppend(queue[..start + 1], queue[start + 1..]);
    TextBytesAppend(queue[..start], [queue[start]]);
    TextBytesAppend(queue[..start], queue[start + 1..]);
  }

  lemma RemoveFits(inbox: Inbox, target: Target, start: nat, canceled: bool)
    requires start < |inbox.Queue(target)|
    ensures var splice := InboxSplice(target, start, Some(1), [], canceled);
            var queue := inbox.Queue(target);
            && Admissible(inbox, splice)
            && Apply(inbox, splice).Queue(target) == queue[..start] + queue[start + 1..]
            && (Bounded(inbox) ==> Bounded(Apply(inbox, splice)))
  {
    hide Apply, TextBytes, Admissible, Ids, Settle;
    var splice := InboxSplice(target, start, Some(1), [], canceled);
    RemovalAdmissible(inbox, target, start, canceled);
    ApplyShape(inbox, splice);
    var queue, next := inbox.Queue(target), Apply(inbox, splice);
    RemoveNothing(queue[..start], queue[start + 1..]);
    RemoveOne(queue, start);
    QueueBytes(inbox, next, target);
  }

  lemma RemoveNothing(left: seq<Message>, right: seq<Message>)
    ensures left + [] + right == left + right
  {
    assert left + [] == left;
  }

  lemma OrderlyClaim(events: seq<Event>, removal: Event, admission: Event)
    requires Project(events).Some? && Admissible(Project(events).value, removal.kind)
    requires OrderlyLog(events) && Orderly(Project(events).value, removal.kind) && admission.kind.UserMessage?
    ensures Project(events + [removal, admission]).Some? && OrderlyLog(events + [removal, admission])
  {
    hide Apply, Project, OrderlyLog, Admissible;
    OrderlyAppend(events, removal);
    ProjectAppend(events, removal);
    AdmissionKeeps(Apply(Project(events).value, removal.kind), admission.kind);
    OrderlyAppend(events + [removal], admission);
    assert events + [removal, admission] == (events + [removal]) + [admission];
  }

  // ---- lookups ----

  function FindInserted(events: seq<Event>, id: Id): Option<Message> {
    if events == [] then None
    else
      var before := FindInserted(events[..|events| - 1], id);
      var kind := events[|events| - 1].kind;
      if before.Some? then before
      else if kind.InboxSplice? then FindIn(kind.inserted, id)
      else None
  }

  function FindIn(messages: seq<Message>, id: Id): (found: Option<Message>)
    ensures found.Some? <==> id in Ids(messages)
    ensures found.Some? ==> found.value in messages && found.value.id == id
  {
    if messages == [] then None
    else if messages[0].id == id then Some(messages[0])
    else
      assert forall m :: m in messages <==> m == messages[0] || m in messages[1..];
      FindIn(messages[1..], id)
  }

  /** Scanning the whole log for an identity finds exactly the ids ever
      inserted, whether still pending, cancelled or already claimed. */
  lemma {:induction false} FoundIffSeen(events: seq<Event>, id: Id)
    requires Project(events).Some?
    ensures FindInserted(events, id).Some? <==> id in Project(events).value.seen
    decreases |events|
  {
    if events != [] {
      ProjectPrefix(events, |events| - 1);
      FoundIffSeen(events[..|events| - 1], id);
    }
  }

  function Position(messages: seq<Message>, id: Id): (found: Option<nat>)
    ensures found.Some? <==> id in Ids(messages)
    ensures found.Some? ==> found.value < |messages| && messages[found.value].id == id
  {
    if messages == [] then None
    else if messages[0].id == id then Some(0)
    else
      assert forall m :: m in messages <==> m == messages[0] || m in messages[1..];
      var rest := Position(messages[1..], id);
      if rest.Some? then Some(rest.value + 1) else None
  }

  function Locate(inbox: Inbox, id: Id): (found: Option<(Target, nat)>)
    ensures found.Some? <==> id in Ids(inbox.Pending())
    ensures found.Some? ==>
              && found.value.1 < |inbox.Queue(found.value.0)|
              && inbox.Queue(found.value.0)[found.value.1].id == id
  {
    assert Ids(inbox.Pending()) == Ids(inbox.nextTurn) + Ids(inbox.nextStep);
    var first := Position(inbox.nextTurn, id);
    if first.Some? then Some((NextTurn, first.value))
    else
      var second := Position(inbox.nextStep, id);
      if second.Some? then Some((NextStep, second.value)) else None
  }

  // ---- operations ----

  /** The shared tail of every admission: append at the end of the queue. */
  method Insert(session: Session, message: Message) returns (ok: bool)
    requires session.Valid()
    modifies session
    ensures session.Valid() && session.durable == old(session.durable) && old(session.clock) <= session.clock
    ensures session.writes == old(session.writes) + 1
    ensures ok == (session.store(old(session.writes)) && message.id !in old(session.inbox).seen)
    ensures ok ==>
              var splice := Splice(message, |old(session.inbox).Queue(TargetOf(message.delivery))|);
              && session.events == old(session.events) + [Event(|old(session.events)|, session.clock, splice)]
              && Admissible(old(session.inbox), splice) && session.inbox == Apply(old(session.inbox), splice)
              && session.inbox.Queue(TargetOf(message.delivery))
                 == old(session.inbox).Queue(TargetOf(message.delivery)) + [message]
              && (message.delivery.FollowUp? ==> session.inbox.nextStep == old(session.inbox).nextStep)
    ensures ok ==> message.id in session.inbox.seen
    ensures !ok ==> session.events == old(session.events) && session.inbox == old(session.inbox)
    ensures old(Lawful(session)) && Fits(old(session.inbox), message.text).Ok? ==> Lawful(session)
  {
    ghost var events, inbox := session.events, session.inbox;
    var splice := Splice(message, |session.inbox.Queue(TargetOf(message.delivery))|);
    if message.id !in session.inbox.seen {
      InsertFits(session.inbox, message);
    } else {
      assert message.id in Ids([message]);
    }
    ok := session.Append(splice);
    assert message.id in Ids([message]);
    if ok && OrderlyLog(events) && Paired(events, inbox) {
      OrderlyAppend(events, session.events[|events|]);
      PairedAppend(events, session.events[|events|], inbox);
    }
  }

  method EnqueueOwned(session: Session, active: bool, message: Message) returns (r: Result<Submission, InboxError>)
    requires session.Valid()
    modifies session
    ensures session.Valid() && session.durable == old(session.durable) && old(session.clock) <= session.clock
    ensures old(Lawful(session)) ==> Lawful(session)
    ensures r.Err? ==> session.events == old(session.events) && session.inbox == old(session.inbox)
    ensures r.Ok? <==>
            && Fits(old(session.inbox), message.text).Ok?
            && session.store(old(session.writes)) && message.id !in old(session.inbox).seen
    ensures r.Ok? ==>
              var splice := Splice(message, |old(session.inbox).Queue(TargetOf(message.delivery))|);
              && session.events == old(session.events) + [Event(|old(session.events)|, session.clock, splice)]
              && session.inbox.Queue(TargetOf(message.delivery))
                 == old(session.inbox).Queue(TargetOf(message.delivery)) + [message]
              && Admissible(old(session.inbox), splice) && session.inbox == Apply(old(session.inbox), splice)
              && r.value == Submission(message.id, |session.inbox.Pending()|, !active && !message.delivery.Inject?)
  {
    var fits := CheckCapacity(session.inbox, message.text);
    if fits.Err? {
      return Err(fits.error);
    }
    var ok := Insert(session, message);
    if !ok {
      return Err(Persistence);
    }
    return Ok(Submission(message.id, |session.inbox.Pending()|, !active && !message.delivery.Inject?));
  }

  /** Deliver a trusted occurrence once. A retry finds the first insertion, even
      after its claim, and inserts nothing. */
  method EnqueueIdentified(session: Session, active: bool, message: Message) returns (r: Result<Submission, InboxError>)
    requires Lawful(session)
    modifies session
    ensures Lawful(session) && old(session.events) <= session.events
    ensures message.id !in old(session.inbox).seen ==>
              var accepted := Fits(old(session.inbox), message.text).Ok? && session.store(old(session.writes));
              && (session.events != old(session.events) <==> accepted)
              && (r.Ok? <==> accepted && session.store(old(session.writes) + 1))
    ensures message.id in old(session.inbox).seen && FindInserted(session.events, message.id) == Some(message) ==>
              (r.Ok? <==> session.store(old(session.writes)))
    ensures message.id in old(session.inbox).seen ==> session.events == old(session.events)
    ensures message.id in old(session.inbox).seen && FindInserted(session.events, message.id) != Some(message) ==>
              r == Err(IdentityConflict)
    ensures message.id !in old(session.inbox).seen && session.events != old(session.events) ==>
              session.inbox.Queue(TargetOf(message.delivery))
                == old(session.inbox).Queue(TargetOf(message.delivery)) + [message]
    ensures r.Ok? ==>
              && message.id in session.inbox.seen && session.durable == |session.events|
              && r.value.wake == (message.id in Ids(session.inbox.Pending()) && !active && !message.delivery.Inject?)
  {
    hide Paired, OrderlyLog, Bounded, Project, WellFormed, Fits, Apply, Admissible, TextBytes, FindInserted;
    var existing := FindInserted(session.events, message.id);
    FoundIffSeen(session.events, message.id);
    if existing.Some? {
      if existing.value != message {
        return Err(IdentityConflict);
      }
    } else {
      var fits := CheckCapacity(session.inbox, message.text);
      if fits.Err? {
        return Err(fits.error);
      }
      var ok := Insert(session, message);
      if !ok {
        return Err(Persistence);
      }
    }
    var flushed := session.Flush();
    if !flushed {
      return Err(Persistence);
    }
    var pending := Locate(session.inbox, message.id).Some?;
    return Ok(Submission(message.id, |session.inbox.Pending()|, pending && !active && !message.delivery.Inject?));
  }

  /** Deliver one team message; the answer says whether it was inserted now. */
  method DeliverTeamMail(session: Session, id: Id, text: Text) returns (r: Result<bool, InboxError>)
    requires Lawful(session)
    modifies session
    ensures Lawful(session) && old(session.events) <= session.events
    ensures r == Ok(true) <==>
              && id !in old(session.inbox).seen && Fits(old(session.inbox), text).Ok?
              && session.store(old(session.writes)) && session.store(old(session.writes) + 1)
    ensures id in old(session.inbox).seen <==> r == Ok(false)
    ensures r == Ok(false) ==> session.events == old(session.events)
    ensures r == Ok(true) ==>
              && session.durable == |session.events|
              && session.inbox.nextTurn == old(session.inbox).nextTurn + [Message(id, FollowUp, text, Team)]
              && session.inbox.nextStep == old(session.inbox).nextStep
  {
    hide Paired, OrderlyLog, Bounded, Project, WellFormed, Fits, Apply, Admissible, TextBytes, FindInserted;
    FoundIffSeen(session.events, id);
    if FindInserted(session.events, id).Some? {
      return Ok(false);
    }
    var message := Message(id, FollowUp, text, Team);
    var fits := CheckCapacity(session.inbox, text);
    if fits.Err? {
      return Err(fits.error);
    }
    var ok := Insert(session, message);
    if !ok {
      return Err(Persistence);
    }
    var flushed := session.Flush();
    return if flushed then Ok(true) else Err(Persistence);
  }

  method CancelInbox(session: Session, id: Id) returns (r: Result<bool, InboxError>)
    requires session.Valid()
    modifies session
    ensures session.Valid() && session.durable == old(session.durable) && old(session.clock) <= session.clock
    ensures r == Ok(false) <==> id !in Ids(old(session.inbox).Pending())
    ensures r.Err? ==> !session.store(old(session.writes))
    ensures r != Ok(true) ==> session.events == old(session.events) && session.inbox == old(session.inbox)
    ensures r == Ok(true) ==>
              var found := Locate(old(session.inbox), id);
              && found.Some?
              && var splice := InboxSplice(found.value.0, found.value.1, Some(1), [], true);
              && Admissible(old(session.inbox), splice)
              && session.inbox == Apply(old(session.inbox), splice)
              && session.events == old(session.events) + [Event(|old(session.events)|, session.clock, splice)]
    ensures old(Lawful(session)) ==> Lawful(session)
  {
    ghost var events, inbox := session.events, session.inbox;
    var found := Locate(session.inbox, id);
    if found.None? {
      return Ok(false);
    }
    RemoveFits(session.inbox, found.value.0, found.value.1, true);
    var ok := session.Append(InboxSplice(found.value.0, found.value.1, Some(1), [], true));
    if !ok {
      return Err(Persistence);
    }
    if OrderlyLog(events) && Paired(events, inbox) {
      OrderlyAppend(events, session.events[|events|]);
      PairedAppend(events, session.events[|events|], inbox);
    }
    return Ok(true);
  }

  /** Claim the front of one queue: one removal and one user message, together. */
  method ClaimFront(session: Session, target: Target) returns (claimed: Option<Message>)
    requires Lawful(session)
    modifies session
    ensures Lawful(session) && old(session.events) <= session.events
    ensures claimed.Some? <==> session.store(old(session.writes)) && old(session.inbox).Queue(target) != []
    ensures claimed.None? ==> session.events == old(session.events) && session.inbox == old(session.inbox)
    ensures claimed.Some? ==>
              && claimed.value == old(session.inbox).Queue(target)[0]
              && session.inbox.Queue(target) == old(session.inbox).Queue(target)[1..]
              && session.inbox.claimed == old(session.inbox).claimed + [Settlement(target, claimed.value)]
              && |session.events| == |old(session.events)| + 2
              && session.events[|old(session.events)| + 1].kind == UserMessage(claimed.value.text)
  {
    ghost var events, inbox := session.events, session.inbox;
    hide Apply, Admissible, Project, OrderlyLog, Admitted, TextBytes, WellFormed;
    claimed := session.Claim(target, 0);
    if claimed.Some? {
      var splice := InboxSplice(target, 0, Some(1), [], false);
      RemoveFits(inbox, target, 0, false);
      ApplyShape(inbox, splice);
      assert inbox.Queue(target)[..0] + inbox.Queue(target)[1..] == inbox.Queue(target)[1..];
      assert Settle(target, inbox.Queue(target)[0..1]) == [Settlement(target, claimed.value)];
      var removal, admission := session.events[|events|], session.events[|events| + 1];
      OrderlyClaim(events, removal, admission);
      PairedClaim(events, removal, admission, inbox);
    }
  }

  method ClaimFollowUp(session: Session, expected: Id) returns (r: Result<Option<Text>, InboxError>)
    requires Lawful(session)
    modifies session
    ensures Lawful(session) && old(session.events) <= session.events
    ensures r == Ok(None) <==> old(session.inbox).nextTurn == []
    ensures r.Err? || r == Ok(None) ==> session.events == old(session.events)
    ensures r == Err(NoLongerFirst) <==>
              old(session.inbox).nextTurn != [] && old(session.inbox).nextTurn[0].id != expected
    ensures r.Err? && r != Err(NoLongerFirst) ==> !session.store(old(session.writes))
    ensures r.Ok? && r.value.Some? ==>
              && old(session.inbox).nextTurn != [] && old(session.inbox).nextTurn[0].id == expected
              && r.value.value == old(session.inbox).nextTurn[0].text
              && session.inbox.nextTurn == old(session.inbox).nextTurn[1..]
  {
    if session.inbox.nextTurn == [] {
      return Ok(None);
    }
    if session.inbox.nextTurn[0].id != expected {
      return Err(NoLongerFirst);
    }
    var claimed := ClaimFront(session, NextTurn);
    return if claimed.Some? then Ok(Some(claimed.value.text)) else Err(Persistence);
  }

  method ClaimInboxId(session: Session, id: Id) returns (r: Result<Option<Text>, InboxError>)
    requires Lawful(session)
    modifies session
    ensures Lawful(session) && old(session.events) <= session.events
    ensures r == Ok(None) <==> id !in Ids(old(session.inbox).Pending())
    ensures r.Err? || r == Ok(None) ==> session.events == old(session.events)
    ensures r == Err(NoLongerFirst) <==>
              Locate(old(session.inbox), id).Some? && Locate(old(session.inbox), id).value.1 != 0
    ensures r.Err? && r != Err(NoLongerFirst) ==> !session.store(old(session.writes))
    ensures r.Ok? && r.value.Some? ==>
              && Locate(old(session.inbox), id).Some? && Locate(old(session.inbox), id).value.1 == 0
              && var target := Locate(old(session.inbox), id).value.0;
              && r.value.value == old(session.inbox).Queue(target)[0].text
              && session.inbox.Queue(target) == old(session.inbox).Queue(target)[1..]
  {
    var found := Locate(session.inbox, id);
    if found.None? {
      return Ok(None);
    }
    if found.value.1 != 0 {
      return Err(NoLongerFirst);
    }
    var claimed := ClaimFront(session, found.value.0);
    return if claimed.Some? then Ok(Some(claimed.value.text)) else Err(Persistence);
  }

  /** How many messages of the step queue one drain takes: a prefix bounded in
      count and in bytes. */
  function DrainBatch(queue: seq<Message>): (n: nat)
    ensures n <= |queue| && n <= MAX_PENDING_MESSAGES && TextBytes(queue[..n]) <= MAX_PENDING_BYTES
    ensures n < |queue| && n < MAX_PENDING_MESSAGES ==> TextBytes(queue[..n + 1]) > MAX_PENDING_BYTES
  {
    DrainFrom(queue, 0)
  }

  function DrainFrom(queue: seq<Message>, i: nat): (n: nat)
    requires i <= |queue| && i <= MAX_PENDING_MESSAGES && TextBytes(queue[..i]) <= MAX_PENDING_BYTES
    ensures i <= n <= |queue| && n <= MAX_PENDING_MESSAGES && TextBytes(queue[..n]) <= MAX_PENDING_BYTES
    ensures n < |queue| && n < MAX_PENDING_MESSAGES ==> TextBytes(queue[..n + 1]) > MAX_PENDING_BYTES
    decreases |queue| - i
  {
    if i == |queue| || i == MAX_PENDING_MESSAGES || TextBytes(queue[..i + 1]) > MAX_PENDING_BYTES then i
    else DrainFrom(queue, i + 1)
  }

  lemma {:induction false} DrainAll(queue: seq<Message>)
    requires |queue| <= MAX_PENDING_MESSAGES && TextBytes(queue) <= MAX_PENDING_BYTES
    ensures DrainBatch(queue) == |queue|
  {
    var n := DrainBatch(queue);
    if n < |queue| {
      assert queue[..n + 1] + queue[n + 1..] == queue;
      TextBytesAppend(queue[..n + 1], queue[n + 1..]);
    }
  }

  /** The texts claimed from the step queue, in order. */
  function StepTexts(claimed: seq<Settlement>): seq<Text> {
    if claimed == [] then []
    else
      var last := claimed[|claimed| - 1];
      StepTexts(claimed[..|claimed| - 1]) + (if last.target.NextStep? then [last.message.text] else [])
  }

  lemma {:induction false} StepTextsConcat(left: seq<Settlement>, right: seq<Settlement>)
    ensures StepTexts(left + right) == StepTexts(left) + StepTexts(right)
    decreases |right|
  {
    if right == [] {
      assert left + right == left;
    } else {
      StepTextsConcat(left, right[..|right| - 1]);
      assert (left + right)[..|left + right| - 1] == left + right[..|right| - 1];
    }
  }

  /** One more text, the last that was claimed. */
  lemma DrainedMore(admitted: seq<Text>, text: Text, before: seq<Settlement>, after: seq<Settlement>)
    requires Within(admitted, StepTexts(before)) && before <= after && |after| > |before|
    requires after[|after| - 1].target.NextStep? && after[|after| - 1].message.text == text
    ensures Within(admitted + [text], StepTexts(after))
  {
    var init := after[..|after| - 1];
    assert init == before + init[|before|..];
    StepTextsConcat(before, init[|before|..]);
    WithinMore(admitted, StepTexts(before), StepTexts(init[|before|..]));
    var whole := StepTexts(after);
    assert whole == StepTexts(init) + [text];
    hide StepTexts;
    assert whole[..|whole| - 1] == StepTexts(init) && (admitted + [text])[..|admitted|] == admitted;
  }

  lemma {:induction false} ClaimedGrows(before: seq<Event>, after: seq<Event>)
    requires before <= after && Project(after).Some?
    ensures Project(before).Some? && Project(before).value.claimed <= Project(after).value.claimed
    decreases |after|
  {
    if |before| == |after| {
      assert before == after;
    } else {
      ProjectPrefix(after, |after| - 1);
      ClaimedGrows(before, after[..|after| - 1]);
      var inbox, kind := Project(after[..|after| - 1]).value, after[|after| - 1].kind;
      if kind.InboxSplice? {
        ApplyShape(inbox, kind);
      }
    }
  }

  lemma LawfulClaims(session: Session, before: seq<Event>)
    requires Lawful(session) && before <= session.events
    ensures Project(before).Some? && Project(before).value.claimed <= session.inbox.claimed
    ensures Project(session.events) == Some(session.inbox)
  {
    ClaimedGrows(before, session.events);
  }

  /** One claim of a drain; other owners of the session act first when `busy`. */
  method DrainOne(session: Session, busy: bool) returns (r: Result<Option<Text>, InboxError>)
    requires Lawful(session)
    modifies session
    ensures Lawful(session) && old(session.inbox).claimed <= session.inbox.claimed
    ensures Accepting(session, 0) ==> r.Ok?
    ensures r.Ok? && r.value.Some? ==>
              var n := |session.inbox.claimed| - 1;
              && n >= |old(session.inbox).claimed|
              && session.inbox.claimed[n].target.NextStep? && session.inbox.claimed[n].message.text == r.value.value
    ensures !busy && old(session.inbox).nextStep != [] ==>
              && r != Ok(None)
              && (r.Ok? ==>
                    && r.value == Some(old(session.inbox).nextStep[0].text)
                    && session.inbox.nextStep == old(session.inbox).nextStep[1..])
  {
    hide Lawful;
    ghost var events := session.events;
    LawfulClaims(session, events);
    if busy {
      Meanwhile(session);
      LawfulClaims(session, events);
    }
    ghost var claims := session.inbox.claimed;
    if session.inbox.nextStep == [] {
      return Ok(None);
    }
    var message := ClaimFront(session, NextStep);
    assert message.Some? ==> session.inbox.claimed == claims + [Settlement(NextStep, message.value)];
    return if message.Some? then Ok(Some(message.value.text)) else Err(Persistence);
  }

  lemma WithinNothing(claims: seq<Settlement>)
    ensures Within([], StepTexts(claims[|claims|..]))
  {
  }

  /** Claims of others come in between, and leave out nothing. */
  lemma DrainStays(admitted: seq<Text>, claims: seq<Settlement>, before: seq<Settlement>, after: seq<Settlement>)
    requires claims <= before <= after && Within(admitted, StepTexts(before[|claims|..]))
    ensures Within(admitted, StepTexts(after[|claims|..]))
  {
    assert after[|claims|..] == before[|claims|..] + after[|before|..];
    StepTextsConcat(before[|claims|..], after[|before|..]);
    WithinMore(admitted, StepTexts(before[|claims|..]), StepTexts(after[|before|..]));
  }

  /** Claim, one by one, what waits at a step boundary. */
  method DrainNextStep(session: Session, busy: bool) returns (r: Result<seq<Text>, InboxError>)
    requires Lawful(session)
    modifies session
    ensures Lawful(session)
    ensures r.Ok? ==>
              && |r.value| <= DrainBatch(old(session.inbox).nextStep)
              && old(session.inbox).claimed <= session.inbox.claimed
    ensures Accepting(session, 0) ==> r.Ok?
    ensures r.Ok? ==> Within(r.value, StepTexts(session.inbox.claimed[|old(session.inbox).claimed|..]))
    ensures !busy && r.Ok? ==>
              var n := DrainBatch(old(session.inbox).nextStep);
              && |r.value| == n
              && session.inbox.nextStep == old(session.inbox).nextStep[n..]
              && forall j :: 0 <= j < n ==> r.value[j] == old(session.inbox).nextStep[j].text
  {
    hide Lawful, TextBytes, Within, StepTexts;
    ghost var queue, claims := session.inbox.nextStep, session.inbox.claimed;
    assert claims[|claims|..] == [];
    WithinNothing(claims);
    assert queue[0..] == queue;
    var batch := DrainBatch(session.inbox.nextStep);
    var admitted: seq<Text> := [];
    while |admitted| < batch
      invariant Lawful(session) && |admitted| <= batch && claims <= session.inbox.claimed
      invariant Within(admitted, StepTexts(session.inbox.claimed[|claims|..]))
      invariant !busy ==> session.inbox.nextStep == queue[|admitted|..]
      invariant !busy ==> forall j :: 0 <= j < |admitted| ==> admitted[j] == queue[j].text
    {
      ghost var before := session.inbox.claimed;
      var claimed := DrainOne(session, busy);
      DrainStays(admitted, claims, before, session.inbox.claimed);
      assert !busy ==> queue[|admitted|..][1..] == queue[|admitted| + 1..];
      if claimed.Err? {
        return Err(claimed.error);
      }
      if claimed.value.None? {
        break;
      }
      DrainedMore(admitted, claimed.value.value, before[|claims|..], session.inbox.claimed[|claims|..]);
      admitted := admitted + [claimed.value.value];
    }
    return Ok(admitted);
  }

  datatype Command =
    | Submit(active: bool, message: Message)
    | Identified(active: bool, message: Message)
    | TeamMail(id: Id, text: Text)
    | Cancel(id: Id)
    | FollowUpClaim(expected: Id)
    | ClaimById(id: Id)
    | Unrelated(kind: Kind)

  method Execute(session: Session, command: Command)
    requires Lawful(session)
    modifies session
    ensures Lawful(session) && old(session.events) <= session.events
  {
    ghost var events, inbox := session.events, session.inbox;
    match command
    case Submit(active, message) =>
      var _ := EnqueueOwned(session, active, message);
    case Identified(active, message) =>
      var _ := EnqueueIdentified(session, active, message);
    case TeamMail(id, text) =>
      var _ := DeliverTeamMail(session, id, text);
    case Cancel(id) =>
      var _ := CancelInbox(session, id);
    case FollowUpClaim(expected) =>
      var _ := ClaimFollowUp(session, expected);
    case ClaimById(id) =>
      var _ := ClaimInboxId(session, id);
    case Unrelated(kind) =>
      if !kind.InboxSplice? {
        var ok := session.Append(kind);
        if ok {
          OrderlyAppend(events, session.events[|events|]);
          PairedAppend(events, session.events[|events|], inbox);
        }
      }
  }

  method Meanwhile(session: Session)
    requires Lawful(session)
    modifies session
    ensures Lawful(session) && old(session.events) <= session.events
  {
    var rounds: nat :| true;
    while rounds > 0
      invariant Lawful(session) && old(session.events) <= session.events
    {
      var command: Command :| true;
      Execute(session, command);
      rounds := rounds - 1;
    }
  }

  method Open(store: nat -> bool) returns (session: Session)
    ensures fresh(session) && Lawful(session) && session.events == []
  {
    session := new Session(store);
  }

  /** Every run of inbox operations, with drains among them, keeps the laws. */
  method Run(session: Session, commands: seq<Option<Command>>)
    requires Lawful(session)
    modifies session
    ensures Lawful(session)
    ensures forall target :: Conserved(session.inbox, Inserted(session.events, target), target)
  {
    for i := 0 to |commands|
      invariant Lawful(session)
    {
      if commands[i].Some? {
        Execute(session, commands[i].value);
      } else {
        var _ := DrainNextStep(session, true);
      }
    }
    Conservation(session.events, NextTurn);
    Conservation(session.events, NextStep);
  }
}
