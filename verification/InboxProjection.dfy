/** Replay of the two pending-input queues from inbox splices, and the laws that
    tie what was inserted to what was claimed, cancelled or is still pending. */
module InboxProjection {
  import opened SessionEvents

  datatype Settlement = Settlement(target: Target, message: Message)

  datatype Inbox = Inbox(
    nextTurn: seq<Message>,
    nextStep: seq<Message>,
    claimed: seq<Settlement>,
    canceled: seq<Settlement>,
    seen: set<Id>)
  {
    function Queue(target: Target): seq<Message> {
      if target.NextTurn? then nextTurn else nextStep
    }

    function Pending(): seq<Message> { nextTurn + nextStep }
  }

  const EMPTY_INBOX := Inbox([], [], [], [], {})

  predicate DistinctIds(messages: seq<Message>) {
    forall i, j :: 0 <= i < j < |messages| ==> messages[i].id != messages[j].id
  }

  function Ids(messages: seq<Message>): set<Id> {
    set m | m in messages :: m.id
  }

  predicate SpliceShape(kind: Kind)
    requires kind.InboxSplice?
  {
    && kind.removed != Some(0)
    && (kind.removed.None? ==> kind.inserted != [])
    && (kind.canceled ==> kind.removed.Some?)
    && (kind.removed.Some? && !kind.canceled ==> kind.inserted == [])
    && (forall m :: m in kind.inserted ==> TargetOf(m.delivery) == kind.target)
    && DistinctIds(kind.inserted)
  }

  function Removed(kind: Kind): nat
    requires kind.InboxSplice?
  {
    if kind.removed.Some? then kind.removed.value else 0
  }

  /** Whether the log accepts this event, as far as the inbox is concerned. */
  predicate Admissible(inbox: Inbox, kind: Kind) {
    kind.InboxSplice? ==>
      && SpliceShape(kind)
      && Ids(kind.inserted) !! inbox.seen
      && kind.start + Removed(kind) <= |inbox.Queue(kind.target)|
  }

  /** The log accepts three kinds of splices, and each exactly where it fits: it inserts
      new messages, of that queue's delivery; it claims some; or it withdraws some,
      perhaps for replacements. */
  lemma AcceptedSplice(
    inbox: Inbox, target: Target, start: nat, removed: Option<nat>, inserted: seq<Message>, canceled: bool)
    ensures var room := |inbox.Queue(target)| - start;
            var isNew := && DistinctIds(inserted)
                         && forall m :: m in inserted ==> m.id !in inbox.seen && TargetOf(m.delivery) == target;
            Admissible(inbox, InboxSplice(target, start, removed, inserted, canceled)) <==>
              || (removed == None && inserted != [] && !canceled && isNew && room >= 0)
              || (removed.Some? && 0 < removed.value <= room && inserted == [] && !canceled)
              || (removed.Some? && 0 < removed.value <= room && canceled && isNew)
  {
    assert Ids(inserted) !! inbox.seen <==> forall m :: m in inserted ==> m.id !in inbox.seen;
  }

  /** Every pending message waits in the queue that its delivery names. */
  lemma {:induction false} OwnQueue(events: seq<Event>)
    requires Project(events).Some?
    ensures forall m :: m in Project(events).value.nextTurn ==> m.delivery == FollowUp
    ensures forall m :: m in Project(events).value.nextStep ==> m.delivery != FollowUp
    decreases |events|
  {
    if events != [] {
      hide DistinctIds;
      OwnQueue(events[..|events| - 1]);
    }
  }

  lemma RemovalAdmissible(inbox: Inbox, target: Target, start: nat, canceled: bool)
    requires start < |inbox.Queue(target)|
    ensures Admissible(inbox, InboxSplice(target, start, Some(1), [], canceled))
  {
  }

  function Settle(target: Target, messages: seq<Message>): seq<Settlement> {
    seq(|messages|, i requires 0 <= i < |messages| => Settlement(target, messages[i]))
  }

  function Apply(inbox: Inbox, kind: Kind): Inbox
    requires Admissible(inbox, kind)
  {
    if !kind.InboxSplice? then inbox
    else
      var queue := inbox.Queue(kind.target);
      var gone := queue[kind.start..kind.start + Removed(kind)];
      var next := queue[..kind.start] + kind.inserted + queue[kind.start + Removed(kind)..];
      var settled := Settle(kind.target, gone);
      Inbox(
        if kind.target.NextTurn? then next else inbox.nextTurn,
        if kind.target.NextStep? then next else inbox.nextStep,
        if kind.canceled then inbox.claimed else inbox.claimed + settled,
        if kind.canceled then inbox.canceled + settled else inbox.canceled,
        inbox.seen + Ids(kind.inserted))
  }

  lemma AdmissionKeeps(inbox: Inbox, kind: Kind)
    requires !kind.InboxSplice?
    ensures Admissible(inbox, kind) && Apply(inbox, kind) == inbox
  {
  }

  function Project(events: seq<Event>): Option<Inbox> {
    if events == [] then Some(EMPTY_INBOX)
    else
      var before := Project(events[..|events| - 1]);
      var kind := events[|events| - 1].kind;
      if before.Some? && Admissible(before.value, kind) then Some(Apply(before.value, kind)) else None
  }

  lemma ProjectAppend(events: seq<Event>, event: Event)
    requires Project(events).Some?
    ensures Project(events + [event]) ==
            if Admissible(Project(events).value, event.kind)
            then Some(Apply(Project(events).value, event.kind)) else None
  {
    assert (events + [event])[..|events|] == events;
  }

  lemma {:induction false} ProjectPrefix(events: seq<Event>, k: nat)
    requires Project(events).Some? && k <= |events|
    ensures Project(events[..k]).Some?
    decreases |events|
  {
    if k < |events| {
      var shorter := events[..|events| - 1];
      ProjectPrefix(shorter, k);
      assert shorter[..k] == events[..k];
    } else {
      assert events[..k] == events;
    }
  }

  /** Every pending message is in exactly one place and was inserted before. */
  predicate Tidy(inbox: Inbox) {
    && DistinctIds(inbox.nextTurn) && DistinctIds(inbox.nextStep)
    && Ids(inbox.nextTurn) !! Ids(inbox.nextStep)
    && Ids(inbox.nextTurn) + Ids(inbox.nextStep) <= inbox.seen
  }

  lemma DistinctSplit(left: seq<Message>, right: seq<Message>)
    requires DistinctIds(left + right)
    ensures DistinctIds(left) && DistinctIds(right) && Ids(left) !! Ids(right)
  {
    var all := left + right;
    assert forall i :: 0 <= i < |left| ==> all[i] == left[i];
    assert forall j :: 0 <= j < |right| ==> all[|left| + j] == right[j];
    forall l, r | l in left && r in right ensures l.id != r.id {
      var i :| 0 <= i < |left| && left[i] == l;
      var j :| 0 <= j < |right| && right[j] == r;
      assert all[i].id != all[|left| + j].id;
    }
  }

  lemma DistinctJoin(left: seq<Message>, right: seq<Message>)
    requires DistinctIds(left) && DistinctIds(right) && Ids(left) !! Ids(right)
    ensures DistinctIds(left + right) && Ids(left + right) == Ids(left) + Ids(right)
  {
    var all := left + right;
    forall i, j | 0 <= i < j < |all| ensures all[i].id != all[j].id {
      if i < |left| <= j {
        assert left[i].id in Ids(left) && right[j - |left|].id in Ids(right);
      }
    }
  }

  /** Replacing a stretch of one queue by new messages. */
  lemma TidySplice(queue: seq<Message>, start: nat, end: nat, inserted: seq<Message>)
    requires start <= end <= |queue| && DistinctIds(queue)
    requires DistinctIds(inserted) && Ids(inserted) !! Ids(queue)
    ensures var next := queue[..start] + inserted + queue[end..];
            && DistinctIds(next)
            && Ids(next) == Ids(queue) - Ids(queue[start..end]) + Ids(inserted)
  {
    var left, gone, right := queue[..start], queue[start..end], queue[end..];
    assert queue == left + gone + right;
    DistinctSplit(left + gone, right);
    DistinctSplit(left, gone);
    DistinctJoin(left, gone);
    DistinctJoin(left + gone, right);
    DistinctJoin(left, inserted);
    DistinctJoin(left + inserted, right);
  }

  lemma TidyApply(inbox: Inbox, kind: Kind)
    requires Tidy(inbox) && Admissible(inbox, kind)
    ensures Tidy(Apply(inbox, kind))
    ensures kind.InboxSplice? ==>
              var queue := inbox.Queue(kind.target);
              Ids(Apply(inbox, kind).Pending()) ==
              Ids(inbox.Pending()) - Ids(queue[kind.start..kind.start + Removed(kind)]) + Ids(kind.inserted)
  {
    if kind.InboxSplice? {
      var queue, end := inbox.Queue(kind.target), kind.start + Removed(kind);
      var next := Apply(inbox, kind);
      TidySplice(queue, kind.start, end, kind.inserted);
      TidyIds(inbox);
      TidyIds(next);
      var spliced := queue[..kind.start] + kind.inserted + queue[end..];
      assert Ids(queue[kind.start..end]) <= Ids(queue);
      if kind.target.NextTurn? {
        assert next.nextTurn == spliced && next.nextStep == inbox.nextStep;
      } else {
        assert next.nextStep == spliced && next.nextTurn == inbox.nextTurn;
      }
    }
  }

  lemma TidyIds(inbox: Inbox)
    ensures Ids(inbox.Pending()) == Ids(inbox.nextTurn) + Ids(inbox.nextStep)
  {
  }

  lemma {:induction false} AlwaysTidy(events: seq<Event>)
    requires Project(events).Some?
    ensures Tidy(Project(events).value)
    decreases |events|
  {
    if events != [] {
      ProjectPrefix(events, |events| - 1);
      AlwaysTidy(events[..|events| - 1]);
      TidyApply(Project(events[..|events| - 1]).value, events[|events| - 1].kind);
    }
  }

  // ---- history of one queue ----

  /** Everything ever inserted into one queue, in log order. */
  function Inserted(events: seq<Event>, target: Target): seq<Message> {
    if events == [] then []
    else
      var kind := events[|events| - 1].kind;
      Inserted(events[..|events| - 1], target)
      + (if kind.InboxSplice? && kind.target == target then kind.inserted else [])
  }

  function Settled(settlements: seq<Settlement>, target: Target): seq<Message> {
    if settlements == [] then []
    else
      var last := settlements[|settlements| - 1];
      Settled(settlements[..|settlements| - 1], target) + (if last.target == target then [last.message] else [])
  }

  function Without(messages: seq<Message>, dropped: set<Id>): seq<Message> {
    if messages == [] then []
    else
      var last := messages[|messages| - 1];
      Without(messages[..|messages| - 1], dropped) + (if last.id in dropped then [] else [last])
  }

  /** A splice that keeps its queue first-in first-out: an insertion at the end,
      a claim from the front, or a cancellation anywhere. */
  predicate Orderly(inbox: Inbox, kind: Kind) {
    kind.InboxSplice? ==>
      || (kind.removed.None? && kind.start == |inbox.Queue(kind.target)|)
      || (kind.removed.Some? && !kind.canceled && kind.start == 0)
      || (kind.removed.Some? && kind.canceled && kind.inserted == [])
  }

  predicate OrderlyLog(events: seq<Event>)
    requires Project(events).Some?
  {
    events == [] ||
    (ProjectPrefix(events, |events| - 1);
     && OrderlyLog(events[..|events| - 1])
     && Orderly(Project(events[..|events| - 1]).value, events[|events| - 1].kind))
  }

  // ---- sequence lemmas ----

  lemma {:induction false} SettledAppend(left: seq<Settlement>, right: seq<Settlement>, target: Target)
    ensures Settled(left + right, target) == Settled(left, target) + Settled(right, target)
    decreases |right|
  {
    if right == [] {
      assert left + right == left;
    } else {
      var init := right[..|right| - 1];
      SettledAppend(left, init, target);
      assert (left + right)[..|left + right| - 1] == left + init;
    }
  }

  lemma {:induction false} SettledSettle(messages: seq<Message>, of: Target, target: Target)
    ensures Settled(Settle(of, messages), target) == if of == target then messages else []
    decreases |messages|
  {
    if messages != [] {
      var init := messages[..|messages| - 1];
      SettledSettle(init, of, target);
      assert Settle(of, messages)[..|messages| - 1] == Settle(of, init);
      assert init + [messages[|messages| - 1]] == messages;
    }
  }

  lemma {:induction false} WithoutAppend(left: seq<Message>, right: seq<Message>, dropped: set<Id>)
    ensures Without(left + right, dropped) == Without(left, dropped) + Without(right, dropped)
    decreases |right|
  {
    if right == [] {
      assert left + right == left;
    } else {
      var init := right[..|right| - 1];
      WithoutAppend(left, init, dropped);
      assert (left + right)[..|left + right| - 1] == left + init;
    }
  }

  lemma WithoutDisjoint(messages: seq<Message>, dropped: set<Id>)
    requires Ids(messages) !! dropped
    ensures Without(messages, dropped) == messages
  {
    forall i | 0 <= i < |messages| ensures messages[i].id !in dropped {
      assert messages[i].id in Ids(messages);
    }
    WithoutNone(messages, dropped);
  }

  lemma {:induction false} WithoutNone(messages: seq<Message>, dropped: set<Id>)
    requires forall i :: 0 <= i < |messages| ==> messages[i].id !in dropped
    ensures Without(messages, dropped) == messages
    decreases |messages|
  {
    if messages != [] {
      var init := messages[..|messages| - 1];
      WithoutNone(init, dropped);
      assert init + [messages[|messages| - 1]] == messages;
    }
  }

  lemma {:induction false} WithoutAll(messages: seq<Message>, dropped: set<Id>)
    requires Ids(messages) <= dropped
    ensures Without(messages, dropped) == []
    decreases |messages|
  {
    if messages != [] {
      var init := messages[..|messages| - 1];
      assert Ids(init) <= Ids(messages);
      assert messages[|messages| - 1] in messages;
      WithoutAll(init, dropped);
    }
  }

  lemma {:induction false} WithoutUnion(messages: seq<Message>, first: set<Id>, second: set<Id>)
    ensures Without(messages, first + second) == Without(Without(messages, first), second)
    decreases |messages|
  {
    if messages != [] {
      var init := messages[..|messages| - 1];
      var last := messages[|messages| - 1];
      WithoutUnion(init, first, second);
      WithoutAppend(Without(init, first), if last.id in first then [] else [last], second);
      assert Without([last], second) == Without([], second) + (if last.id in second then [] else [last]);
    }
  }

  lemma {:induction false} WithoutMembers(messages: seq<Message>, dropped: set<Id>)
    ensures forall m :: m in Without(messages, dropped) ==> m in messages && m.id !in dropped
    ensures DistinctIds(messages) ==> DistinctIds(Without(messages, dropped))
    decreases |messages|
  {
    if messages != [] {
      var init := messages[..|messages| - 1];
      WithoutMembers(init, dropped);
      assert forall m :: m in init ==> m in messages;
    }
  }

  // ---- conservation ----

  function CanceledIds(inbox: Inbox, target: Target): set<Id> {
    Ids(Settled(inbox.canceled, target))
  }

  /** What the inbox remembers of a queue agrees with what the log inserted. */
  ghost predicate Conserved(inbox: Inbox, inserted: seq<Message>, target: Target) {
    Balanced(Settled(inbox.claimed, target), inbox.Queue(target), CanceledIds(inbox, target), inserted, inbox.seen)
  }

  ghost predicate Balanced(
    claimed: seq<Message>, queue: seq<Message>, dropped: set<Id>, inserted: seq<Message>, seen: set<Id>) {
    && claimed + queue == Without(inserted, dropped)
    && DistinctIds(inserted)
    && (forall m :: m in inserted ==> m.id in seen)
    && (forall id :: id in dropped ==> id in seen)
  }

  lemma ApplyShape(inbox: Inbox, kind: Kind)
    requires Admissible(inbox, kind) && kind.InboxSplice?
    ensures var next, queue, end := Apply(inbox, kind), inbox.Queue(kind.target), kind.start + Removed(kind);
            var settled := Settle(kind.target, queue[kind.start..end]);
            && next.Queue(kind.target) == queue[..kind.start] + kind.inserted + queue[end..]
            && (forall other :: other != kind.target ==> next.Queue(other) == inbox.Queue(other))
            && next.claimed == (if kind.canceled then inbox.claimed else inbox.claimed + settled)
            && next.canceled == (if kind.canceled then inbox.canceled + settled else inbox.canceled)
            && next.seen == inbox.seen + Ids(kind.inserted)
  {
    hide SpliceShape, Settle, Ids;
  }

  lemma ApplyTarget(inbox: Inbox, kind: Kind)
    requires Admissible(inbox, kind) && kind.InboxSplice?
    ensures var next, queue, end := Apply(inbox, kind), inbox.Queue(kind.target), kind.start + Removed(kind);
            var gone := queue[kind.start..end];
            && next.Queue(kind.target) == queue[..kind.start] + kind.inserted + queue[end..]
            && Settled(next.claimed, kind.target)
               == Settled(inbox.claimed, kind.target) + (if kind.canceled then [] else gone)
            && Settled(next.canceled, kind.target)
               == Settled(inbox.canceled, kind.target) + (if kind.canceled then gone else [])
            && next.seen == inbox.seen + Ids(kind.inserted)
  {
    hide Apply, SpliceShape, Settled, Settle, Ids;
    ApplyShape(inbox, kind);
    var gone := inbox.Queue(kind.target)[kind.start..kind.start + Removed(kind)];
    SettledSettle(gone, kind.target, kind.target);
    if kind.canceled {
      SettledAppend(inbox.canceled, Settle(kind.target, gone), kind.target);
    } else {
      SettledAppend(inbox.claimed, Settle(kind.target, gone), kind.target);
    }
  }

  lemma ApplyOther(inbox: Inbox, kind: Kind, target: Target)
    requires Admissible(inbox, kind) && (kind.InboxSplice? ==> kind.target != target)
    ensures var next := Apply(inbox, kind);
            && next.Queue(target) == inbox.Queue(target)
            && Settled(next.claimed, target) == Settled(inbox.claimed, target)
            && Settled(next.canceled, target) == Settled(inbox.canceled, target)
            && inbox.seen <= next.seen
  {
    if kind.InboxSplice? {
      hide Apply, SpliceShape, Settled, Settle, Ids;
      ApplyShape(inbox, kind);
      var gone := inbox.Queue(kind.target)[kind.start..kind.start + Removed(kind)];
      SettledSettle(gone, kind.target, target);
      if kind.canceled {
        SettledAppend(inbox.canceled, Settle(kind.target, gone), target);
      } else {
        SettledAppend(inbox.claimed, Settle(kind.target, gone), target);
      }
    }
  }

  lemma BalancedInsert(
    claimed: seq<Message>, queue: seq<Message>, dropped: set<Id>, inserted: seq<Message>, seen: set<Id>,
    more: seq<Message>)
    requires Balanced(claimed, queue, dropped, inserted, seen)
    requires DistinctIds(more) && Ids(more) !! seen
    ensures Balanced(claimed, queue + more, dropped, inserted + more, seen + Ids(more))
  {
    hide Without, DistinctIds;
    forall m | m in more ensures m.id !in seen && m.id in Ids(more) {
      assert m.id in Ids(more);
    }
    WithoutAppend(inserted, more, dropped);
    WithoutDisjoint(more, dropped);
    DistinctJoin(inserted, more);
    assert claimed + (queue + more) == (claimed + queue) + more;
  }

  lemma BalancedClaim(
    claimed: seq<Message>, queue: seq<Message>, dropped: set<Id>, inserted: seq<Message>, seen: set<Id>, n: nat)
    requires Balanced(claimed, queue, dropped, inserted, seen) && n <= |queue|
    ensures Balanced(claimed + queue[..n], queue[n..], dropped, inserted, seen)
  {
    assert (claimed + queue[..n]) + queue[n..] == claimed + queue;
  }

  /** Ids are distinct along claimed + queue, so dropping the ids of one stretch
      of the queue drops exactly that stretch. */
  lemma BalancedCancel(
    claimed: seq<Message>, queue: seq<Message>, dropped: set<Id>, inserted: seq<Message>, seen: set<Id>, start: nat,
    end: nat)
    requires Balanced(claimed, queue, dropped, inserted, seen) && start <= end <= |queue|
    ensures Balanced(claimed, queue[..start] + queue[end..], dropped + Ids(queue[start..end]), inserted, seen)
  {
    var gone, left, right := queue[start..end], claimed + queue[..start], queue[end..];
    WithoutMembers(inserted, dropped);
    assert claimed + queue == left + gone + right by {
      assert queue == queue[..start] + gone + right;
    }
    assert Without(inserted, dropped + Ids(gone)) == left + right by {
      WithoutUnion(inserted, dropped, Ids(gone));
      DistinctSplit(left + gone, right);
      DistinctSplit(left, gone);
      assert Ids(gone) <= Ids(left + gone);
      StretchDropped(left, gone, right, Ids(gone));
    }
    assert claimed + (queue[..start] + right) == left + right;
    assert forall m :: m in gone ==> m in queue && m in claimed + queue;
  }

  lemma StretchDropped(left: seq<Message>, gone: seq<Message>, right: seq<Message>, dropped: set<Id>)
    requires Ids(left) !! dropped && Ids(right) !! dropped && Ids(gone) <= dropped
    ensures Without(left + gone + right, dropped) == left + right
  {
    calc {
      Without(left + gone + right, dropped);
      { WithoutAppend(left + gone, right, dropped); WithoutDisjoint(right, dropped); }
      Without(left + gone, dropped) + right;
      { WithoutAppend(left, gone, dropped); WithoutDisjoint(left, dropped); WithoutAll(gone, dropped); }
      left + [] + right;
    }
  }

  lemma ConservedInsert(inbox: Inbox, kind: Kind, inserted: seq<Message>, target: Target)
    requires Admissible(inbox, kind) && Conserved(inbox, inserted, target)
    requires kind.InboxSplice? && kind.target == target && kind.removed.None? && kind.start == |inbox.Queue(target)|
    ensures Conserved(Apply(inbox, kind), inserted + kind.inserted, target)
  {
    hide Apply, Settled, Balanced, Without, DistinctIds;
    ApplyTarget(inbox, kind);
    var claimed, queue, dropped := Settled(inbox.claimed, target), inbox.Queue(target), CanceledIds(inbox, target);
    BalancedInsert(claimed, queue, dropped, inserted, inbox.seen, kind.inserted);
    assert queue[..kind.start] + kind.inserted + queue[kind.start..] == queue + kind.inserted;
    assert claimed + queue[kind.start..kind.start] == claimed;
    assert Settled(inbox.canceled, target) + [] == Settled(inbox.canceled, target);
  }

  lemma ConservedRemove(inbox: Inbox, kind: Kind, inserted: seq<Message>, target: Target)
    requires Admissible(inbox, kind) && Orderly(inbox, kind) && Conserved(inbox, inserted, target)
    requires kind.InboxSplice? && kind.target == target && kind.removed.Some?
    ensures Conserved(Apply(inbox, kind), inserted, target)
  {
    hide Apply, Settled, Balanced, Without, DistinctIds;
    ApplyTarget(inbox, kind);
    var claimed, queue, dropped := Settled(inbox.claimed, target), inbox.Queue(target), CanceledIds(inbox, target);
    var end := kind.start + Removed(kind);
    var gone := queue[kind.start..end];
    assert queue[..kind.start] + kind.inserted + queue[end..] == queue[..kind.start] + queue[end..];
    assert inbox.seen + Ids(kind.inserted) == inbox.seen;
    assert claimed + [] == claimed;
    if kind.canceled {
      BalancedCancel(claimed, queue, dropped, inserted, inbox.seen, kind.start, end);
      assert Ids(Settled(inbox.canceled, target) + gone) == dropped + Ids(gone);
    } else {
      BalancedClaim(claimed, queue, dropped, inserted, inbox.seen, end);
      assert Settled(inbox.canceled, target) + [] == Settled(inbox.canceled, target);
      assert gone == queue[..end] && queue[..kind.start] + queue[end..] == queue[end..];
    }
  }

  lemma ConservedOther(inbox: Inbox, kind: Kind, inserted: seq<Message>, target: Target)
    requires Admissible(inbox, kind) && Conserved(inbox, inserted, target)
    requires !kind.InboxSplice? || kind.target != target
    ensures Conserved(Apply(inbox, kind), inserted, target)
  {
    ApplyOther(inbox, kind, target);
  }

  lemma ConservedStep(inbox: Inbox, kind: Kind, inserted: seq<Message>, target: Target)
    requires Admissible(inbox, kind) && Orderly(inbox, kind) && Conserved(inbox, inserted, target)
    ensures Conserved(Apply(inbox, kind),
                      inserted + (if kind.InboxSplice? && kind.target == target then kind.inserted else []), target)
  {
    hide Conserved, Apply;
    if !kind.InboxSplice? || kind.target != target {
      ConservedOther(inbox, kind, inserted, target);
      assert inserted + [] == inserted;
    } else if kind.removed.None? {
      ConservedInsert(inbox, kind, inserted, target);
    } else {
      ConservedRemove(inbox, kind, inserted, target);
      assert inserted + kind.inserted == inserted;
    }
  }

  /** Conservation over every orderly log: the claimed messages followed by the
      pending ones are the inserted ones with the cancelled ones left out. */
  lemma {:induction false} Conservation(events: seq<Event>, target: Target)
    requires Project(events).Some? && OrderlyLog(events)
    ensures Conserved(Project(events).value, Inserted(events, target), target)
    decreases |events|
  {
    if events != [] {
      var shorter := events[..|events| - 1];
      ProjectPrefix(events, |shorter|);
      Conservation(shorter, target);
      ConservedStep(Project(shorter).value, events[|events| - 1].kind, Inserted(shorter, target), target);
    }
  }
}
