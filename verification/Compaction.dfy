/** One compaction run against other writers of the same log: a plan is prepared
    without the lock and committed only if the log is still the one it was
    prepared from. */
module Compactions {
  import opened SessionEvents
  import opened Sessions
  import opened FoldBoundaries
  import opened Utf8
  import I = InboxProjection

  const MAX_SUMMARY_BYTES: nat := 64 * 1024
  const MAX_NATIVE_ITEMS: nat := 256

  datatype StrategyKind = Portable | Native | Prune

  datatype Replacement = Summary(summary: Text) | Checkpoint(items: seq<NativeItem>)

  datatype Plan = Keep | Fold(folded: nat, upto: nat, replacement: Replacement)

  datatype CompactionError =
    | InvalidFocus
    | UnknownStrategy
    | Cancelled
    | BrokenTransaction
    | PreparationFailed
    | CommitFailed

  datatype Outcome = Noop | Applied(folded: nat)

  /** A registered strategy: one of the three built-in ones, with what it makes of
      a prefix, or any other plan. */
  datatype Strategy =
    | Builtin(kind: StrategyKind, produce: seq<Event> -> Result<Replacement, CompactionError>)
    | Custom(kind: StrategyKind, plan: Result<Plan, CompactionError>)

  datatype Request = Request(
    id: string, strategy: Option<Strategy>, keep: nat, focusValid: bool, canceledBefore: bool, canceledAfter: bool)

  function Ascii(s: string): Text {
    seq(|s|, i requires 0 <= i < |s| => (s[i] as int % 128) as Octet)
  }

  const PRUNE_TEXT: string := "[" + "earlier conversation was dropped to free context; it was not summarized]"
  const PRUNE_MARKER: Text := Ascii(PRUNE_TEXT)

  predicate ValidItems(items: seq<NativeItem>) {
    && 0 < |items| <= MAX_NATIVE_ITEMS && items[0].protocol.Some?
    && forall i :: 0 <= i < |items| ==>
         && items[i].valid
         && items[i].provider == items[0].provider
         && items[i].model == items[0].model
         && items[i].protocol == items[0].protocol
  }

  predicate ValidReplacement(kind: StrategyKind, replacement: Replacement) {
    match replacement
    case Summary(summary) => !kind.Native? && !Blank(summary) && |summary| <= MAX_SUMMARY_BYTES
    case Checkpoint(items) => kind.Native? && ValidItems(items)
  }

  // ---- the durable state that a run compares ----

  datatype DurableState = DurableState(events: nat, compactions: nat)

  predicate IsCompaction(kind: Kind) {
    kind.CompactionApplied? || kind.NativeCompactionApplied?
  }

  function CountCompactions(events: seq<Event>): nat {
    if events == [] then 0
    else CountCompactions(events[..|events| - 1]) + (if IsCompaction(events[|events| - 1].kind) then 1 else 0)
  }

  lemma CountAppend(events: seq<Event>, event: Event)
    ensures CountCompactions(events + [event]) == CountCompactions(events) + (if IsCompaction(event.kind) then 1 else 0)
  {
    assert (events + [event])[..|events|] == events;
  }

  function StateOf(events: seq<Event>): DurableState {
    DurableState(|events|, CountCompactions(events))
  }

  /** How many logged events a sequence number covers. */
  function Covered(events: seq<Event>, upto: nat): nat {
    if events == [] then 0
    else Covered(events[..|events| - 1], upto) + (if events[|events| - 1].seqNo <= upto then 1 else 0)
  }

  lemma {:induction false} CoveredExactly(events: seq<Event>, upto: nat, clock: int)
    requires WellFormed(events, clock)
    ensures Covered(events, upto) == if upto < |events| then upto + 1 else |events|
    decreases |events|
  {
    if events != [] {
      CoveredExactly(events[..|events| - 1], upto, clock);
    }
  }

  function Settlement(id: string, plan: Plan): Kind
    requires plan.Fold?
  {
    match plan.replacement
    case Summary(summary) => CompactionApplied(summary, plan.upto)
    case Checkpoint(items) => NativeCompactionApplied(id, plan.upto, items)
  }

  /** The plan of a built-in strategy for the log it reads. */
  function BuiltinPlan(
    kind: StrategyKind, produce: seq<Event> -> Result<Replacement, CompactionError>, events: seq<Event>, keep: nat)
    : Result<Plan, CompactionError>
  {
    var boundary := FoldBoundary(events, keep);
    if boundary.None? then Ok(Keep)
    else
      var replacement := if kind.Prune? then Ok(Summary(PRUNE_MARKER)) else produce(events[..boundary.value]);
      if replacement.Err? then Err(replacement.error)
      else Ok(Fold(boundary.value, events[boundary.value - 1].seqNo, replacement.value))
  }

  /** Every plan of a built-in strategy names one exact nonempty prefix. */
  lemma BuiltinPlanIsExact(
    kind: StrategyKind, produce: seq<Event> -> Result<Replacement, CompactionError>, events: seq<Event>, keep: nat,
    clock: int)
    requires WellFormed(events, clock)
    ensures var plan := BuiltinPlan(kind, produce, events, keep);
            plan.Ok? && plan.value.Fold? ==>
              && 0 < plan.value.folded <= |events| && Covered(events, plan.value.upto) == plan.value.folded
              && plan.value.upto == plan.value.folded - 1 && FoldBoundary(events, keep) == Some(plan.value.folded)
  {
    hide FoldBoundary, Covered;
    var boundary := FoldBoundary(events, keep);
    if boundary.Some? {
      CoveredExactly(events, boundary.value - 1, clock);
    }
  }

  lemma PruneIsAlwaysValid(produce: seq<Event> -> Result<Replacement, CompactionError>, events: seq<Event>, keep: nat)
    ensures var plan := BuiltinPlan(Prune, produce, events, keep);
            plan.Ok? && (plan.value.Fold? ==> ValidReplacement(Prune, plan.value.replacement))
  {
    assert PRUNE_MARKER[0] == 0x5b;
  }

  /** The settlement at a position records what its strategy made of exactly the
      prefix it replaces. */
  ghost predicate RecordsPrefix(
    kind: StrategyKind, produce: seq<Event> -> Result<Replacement, CompactionError>, id: string, events: seq<Event>,
    position: nat)
    requires position < |events|
  {
    match events[position].kind
    case CompactionApplied(summary, upto) =>
      && upto < position && !kind.Native?
      && (if kind.Prune? then summary == PRUNE_MARKER else produce(events[..upto + 1]) == Ok(Summary(summary)))
    case NativeCompactionApplied(strategy, upto, items) =>
      upto < position && kind.Native? && strategy == id && produce(events[..upto + 1]) == Ok(Checkpoint(items))
    case _ => false
  }

  lemma SettlementRecords(
    kind: StrategyKind, produce: seq<Event> -> Result<Replacement, CompactionError>, id: string, events: seq<Event>,
    snapshot: seq<Event>, keep: nat, clock: int)
    requires WellFormed(snapshot, clock) && |snapshot| < |events| && snapshot == events[..|snapshot|]
    requires var plan := BuiltinPlan(kind, produce, snapshot, keep);
             && plan.Ok? && plan.value.Fold? && ValidReplacement(kind, plan.value.replacement)
             && events[|snapshot|].kind == Settlement(id, plan.value)
    ensures RecordsPrefix(kind, produce, id, events, |snapshot|)
  {
    BuiltinPlanIsExact(kind, produce, snapshot, keep, clock);
    var boundary := FoldBoundary(snapshot, keep);
    assert events[..boundary.value] == snapshot[..boundary.value];
  }

  /** Native items are valid exactly if there are 1 to 256 valid ones, all of one
      provider, one model and one protocol. */
  lemma ValidItemsAgree(items: seq<NativeItem>)
    ensures ValidItems(items) <==>
              && 1 <= |items| <= 256
              && exists provider, model, protocol ::
                   forall item :: item in items ==> item == NativeItem(provider, model, Some(protocol), true)
  {
    if ValidItems(items) {
      var first := items[0];
      forall item | item in items
        ensures item == NativeItem(first.provider, first.model, Some(first.protocol.value), true)
      {
        var i :| 0 <= i < |items| && items[i] == item;
      }
    } else if 1 <= |items| <= 256 {
      var i :| 0 <= i < |items| && (items[0].protocol.None? || !items[i].valid || items[i].provider != items[0].provider
                                    || items[i].model != items[0].model || items[i].protocol != items[0].protocol);
      assert items[0] in items && items[i] in items;
    }
  }

  /** A strategy for summaries or pruning gives text that says something, within the
      bound; a native one gives items of one route; anything else is refused. */
  lemma ReplacementRules(kind: StrategyKind, summary: Text, items: seq<NativeItem>)
    requires forall i :: 0 <= i < |summary| ==> summary[i] < 0x80
    ensures ValidReplacement(kind, Summary(summary)) <==>
              && kind != Native && |summary| <= MAX_SUMMARY_BYTES
              && exists i :: 0 <= i < |summary| && summary[i] !in {0x09, 0x0a, 0x0b, 0x0c, 0x0d, 0x20}
    ensures ValidReplacement(kind, Checkpoint(items)) <==> kind == Native && ValidItems(items)
  {
    hide Blank, ValidItems;
    BlankAscii(summary);
  }

  ghost predicate RecordsValid(kind: StrategyKind, recorded: Kind) {
    if recorded.CompactionApplied?
    then !kind.Native? && !Blank(recorded.summary) && |recorded.summary| <= MAX_SUMMARY_BYTES
    else recorded.NativeCompactionApplied? && kind.Native? && ValidItems(recorded.items)
  }

  lemma SettlementIsValid(kind: StrategyKind, id: string, plan: Plan)
    requires plan.Fold? && ValidReplacement(kind, plan.replacement)
    ensures RecordsValid(kind, Settlement(id, plan))
  {
  }

  // ---- one run ----

  /** Other writers append whatever they like, when there are any. */
  method Meanwhile(session: Session, busy: bool)
    requires session.Valid()
    modifies session
    ensures session.Valid() && old(session.events) <= session.events
    ensures !busy ==> session.events == old(session.events)
  {
    if busy {
      session.Interleave(kind => true);
    }
  }

  method Prepare(session: Session, request: Request, busy: bool)
    returns (plan: Result<Plan, CompactionError>, ghost read: seq<Event>)
    requires session.Valid() && request.strategy.Some?
    modifies session
    ensures session.Valid() && old(session.events) <= read <= session.events
    ensures !busy ==> session.events == read == old(session.events)
    ensures request.strategy.value.Builtin? ==>
              (plan == Err(Cancelled) && request.canceledBefore)
              || plan == BuiltinPlan(request.strategy.value.kind, request.strategy.value.produce, read, request.keep)
    ensures request.strategy.value.Custom? ==> plan == request.strategy.value.plan
  {
    Meanwhile(session, busy);
    read := session.events;
    match request.strategy.value
    case Builtin(kind, produce) =>
      if request.canceledBefore {
        plan := Err(Cancelled);
      } else {
        plan := BuiltinPlan(kind, produce, session.events, request.keep);
      }
      Meanwhile(session, busy);
    case Custom(_, custom) =>
      plan := custom;
  }

  function ValidatePlan(events: seq<Event>, before: DurableState, kind: StrategyKind, plan: Plan): bool
    requires plan.Fold?
  {
    && |events| == before.events && plan.folded != 0 && Covered(events, plan.upto) == plan.folded
    && ValidReplacement(kind, plan.replacement)
  }

  /** Append the settlement if the log is still the snapshotted one. */
  method Commit(session: Session, before: DurableState, kind: Kind, upto: nat) returns (r: Result<nat, CompactionError>)
    requires session.Valid() && IsCompaction(kind)
    modifies session
    ensures session.Valid() && old(session.events) <= session.events
    ensures r.Err? ==> session.events == old(session.events)
    ensures r.Ok? <==>
              && StateOf(old(session.events)) == before
              && upto < |old(session.events)|
              && session.store(old(session.writes))
    ensures r.Ok? ==>
              && StateOf(old(session.events)) == before && r.value == |old(session.events)| && upto < r.value
              && session.events == old(session.events) + [Event(r.value, session.clock, kind)]
  {
    if StateOf(session.events) != before {
      return Err(BrokenTransaction);
    }
    // The session refuses a settlement that does not follow what it replaces.
    if upto >= |session.events| {
      return Err(CommitFailed);
    }
    var position := |session.events|;
    I.AdmissionKeeps(session.inbox, kind);
    var ok := session.Append(kind);
    r := if ok then Ok(position) else Err(CommitFailed);
  }

  predicate Unhindered(request: Request) {
    && request.focusValid && request.strategy.Some? && request.strategy.value.Builtin?
    && !request.canceledBefore && !request.canceledAfter
  }

  /** What a built-in strategy must achieve when nobody else writes and the store
      accepts: it applies exactly a valid replacement of what it may fold. */
  function Undisturbed(
    kind: StrategyKind, produce: seq<Event> -> Result<Replacement, CompactionError>, events: seq<Event>, keep: nat)
    : Result<Outcome, CompactionError>
  {
    var plan := BuiltinPlan(kind, produce, events, keep);
    if plan.Err? then Err(plan.error)
    else if plan.value.Keep? then Ok(Noop)
    else if ValidReplacement(kind, plan.value.replacement) then Ok(Applied(plan.value.folded))
    else Err(BrokenTransaction)
  }

  /** Compact once. The answer comes with the position of the settlement this run
      appended, if it appended one. */
  method Compact(session: Session, request: Request, busy: bool)
    returns (r: Result<Outcome, CompactionError>, position: Option<nat>, ghost snapshot: seq<Event>)
    requires session.Valid()
    modifies session
    ensures session.Valid() && old(session.events) <= session.events
    ensures !busy ==> |session.events| == |old(session.events)| + (if position.Some? then 1 else 0)
    ensures !busy && position.Some? ==> r.Ok?
    ensures r == Ok(Noop) ==> position == None
    ensures r.Ok? && r.value.Applied? ==> position.Some?
    ensures r.Err? && position.Some? ==> r.error.BrokenTransaction?
    ensures position.Some? ==>
              var p := position.value;
              && p < |session.events| && old(session.events) <= snapshot == session.events[..p]
              && IsCompaction(session.events[p].kind) && session.events[p].kind.replacedUpto < p
              && (r.Ok? ==> r.value == Applied(session.events[p].kind.replacedUpto + 1))
    ensures position.Some? ==> request.strategy.Some?
    ensures position.Some? ==> RecordsValid(request.strategy.value.kind, session.events[position.value].kind)
    ensures position.Some? && request.strategy.value.Builtin? ==>
              var strategy := request.strategy.value;
              RecordsPrefix(strategy.kind, strategy.produce, request.id, session.events, position.value)
    ensures !busy && Accepting(session, 0) && Unhindered(request) ==>
              r == Undisturbed(request.strategy.value.kind, request.strategy.value.produce, old(session.events),
                request.keep)
    ensures position.Some? && request.strategy.value.Builtin? ==>
              var plan := BuiltinPlan(request.strategy.value.kind, request.strategy.value.produce, snapshot,
                request.keep);
              && plan.Ok?
              && plan.value.Fold?
              && session.events[position.value].kind == Settlement(request.id, plan.value)
              && FoldBoundary(snapshot, request.keep) == Some(session.events[position.value].kind.replacedUpto + 1)
  {
    hide WellFormed, I.Project, CountCompactions, FoldBoundary, Covered, BuiltinPlan, ValidReplacement, RecordsPrefix,
      RecordsValid;
    position, snapshot := None, [];
    if !request.focusValid {
      return Err(InvalidFocus), position, snapshot;
    }
    if request.strategy.None? {
      return Err(UnknownStrategy), position, snapshot;
    }
    if request.canceledBefore {
      return Err(Cancelled), position, snapshot;
    }
    Meanwhile(session, busy);
    snapshot := session.events;
    var before := StateOf(session.events);
    var plan;
    ghost var read;
    plan, read := Prepare(session, request, busy);
    Meanwhile(session, busy);
    if StateOf(session.events) != before {
      return Err(BrokenTransaction), position, snapshot;
    }
    if plan.Err? {
      return Err(plan.error), position, snapshot;
    }
    if request.canceledAfter {
      return Err(Cancelled), position, snapshot;
    }
    if plan.value.Keep? {
      return Ok(Noop), position, snapshot;
    }
    assert session.events == snapshot;
    if request.strategy.value.Builtin? && read == snapshot {
      BuiltinPlanIsExact(request.strategy.value.kind, request.strategy.value.produce, snapshot, request.keep,
        session.clock);
    }
    r, position := Finish(session, request, busy, before, plan.value, snapshot);
    assert position.Some? ==> read == snapshot;
    if position.Some? {
      SettlementIsValid(request.strategy.value.kind, request.id, plan.value);
    }
    if position.Some? && request.strategy.value.Builtin? {
      SettlementRecords(request.strategy.value.kind, request.strategy.value.produce, request.id, session.events,
        snapshot, request.keep, session.clock);
    }
  }

  method Finish(
    session: Session, request: Request, busy: bool, before: DurableState, plan: Plan, ghost snapshot: seq<Event>)
    returns (r: Result<Outcome, CompactionError>, position: Option<nat>)
    requires session.Valid() && request.strategy.Some? && plan.Fold?
    requires before == StateOf(snapshot) && session.events == snapshot
    modifies session
    ensures session.Valid() && snapshot <= session.events
    ensures !busy ==> |session.events| == |snapshot| + (if position.Some? then 1 else 0)
    ensures !busy && position.Some? ==> r.Ok?
    ensures !busy && Accepting(session, 0) && plan.upto < |snapshot| ==>
              if ValidatePlan(snapshot, before, request.strategy.value.kind, plan) then r.Ok?
                else r == Err(BrokenTransaction)
    ensures r.Ok? ==> r.value == Applied(plan.folded) && position.Some?
    ensures r.Err? && position.Some? ==> r.error.BrokenTransaction?
    ensures position.Some? ==>
              var p := position.value;
              && p < |session.events| && snapshot == session.events[..p]
              && session.events[p].kind == Settlement(request.id, plan)
              && plan.upto < p && plan.folded == plan.upto + 1 && WellFormed(snapshot, session.clock)
              && ValidReplacement(request.strategy.value.kind, plan.replacement)
  {
    hide I.Project, CountCompactions, Covered, ValidReplacement;
    position := None;
    Meanwhile(session, busy);
    if !ValidatePlan(session.events, before, request.strategy.value.kind, plan) {
      return Err(BrokenTransaction), position;
    }
    assert session.events == snapshot;
    CoveredExactly(snapshot, plan.upto, session.clock);
    Meanwhile(session, busy);
    ghost var clock := session.clock;
    var committed := Commit(session, before, Settlement(request.id, plan), plan.upto);
    if committed.Err? {
      return Err(committed.error), position;
    }
    position := Some(committed.value);
    assert WellFormed(snapshot, session.clock);
    assert session.events[..|snapshot|] == snapshot;
    CountAppend(snapshot, session.events[|snapshot|]);
    AfterCommit(session, busy, snapshot);
    if StateOf(session.events) != DurableState(before.events + 1, before.compactions + 1) {
      return Err(BrokenTransaction), position;
    }
    r := Ok(Applied(plan.folded));
  }

  method AfterCommit(session: Session, busy: bool, ghost snapshot: seq<Event>)
    requires session.Valid() && |snapshot| < |session.events| && snapshot == session.events[..|snapshot|]
    requires WellFormed(snapshot, session.clock)
    modifies session
    ensures session.Valid() && old(session.events) <= session.events
    ensures snapshot == session.events[..|snapshot|] && WellFormed(snapshot, session.clock)
    ensures session.events[|snapshot|] == old(session.events)[|snapshot|]
    ensures !busy ==> session.events == old(session.events)
  {
    Meanwhile(session, busy);
  }
}
