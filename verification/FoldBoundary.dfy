/** Where compaction may cut a log: before the user input of the oldest turn that
    is kept, and never inside a settled turn. */
module FoldBoundaries {
  import opened SessionEvents
  import opened TurnBrackets

  /** Position of the last TurnEnd of a turn. */
  function LastEnd(events: seq<Event>, turn: nat): (found: Option<nat>)
    ensures found.Some? ==>
              found.value < |events| && events[found.value].kind.TurnEnd? && events[found.value].kind.turn == turn
  {
    if events == [] then None
    else
      var kind := events[|events| - 1].kind;
      if kind.TurnEnd? && kind.turn == turn then Some(|events| - 1)
      else
        LastEnd(events[..|events| - 1], turn)
  }

  lemma {:induction false} LastEndIsLast(events: seq<Event>, turn: nat, i: nat)
    requires i < |events| && events[i].kind.TurnEnd? && events[i].kind.turn == turn
    ensures LastEnd(events, turn).Some? && i <= LastEnd(events, turn).value
    decreases |events|
  {
    if i < |events| - 1 {
      LastEndIsLast(events[..|events| - 1], turn, i);
    }
  }

  /** A turn start whose turn ends later in the log. */
  predicate SettledStart(events: seq<Event>, i: nat)
    requires i < |events|
  {
    && events[i].kind.TurnStart?
    && LastEnd(events, events[i].kind.turn).Some? && LastEnd(events, events[i].kind.turn).value > i
  }

  function EndOf(events: seq<Event>, i: nat): nat
    requires i < |events| && SettledStart(events, i)
  {
    LastEnd(events, events[i].kind.turn).value
  }

  /** The settled starts among the first n positions, in log order. */
  function SettledStarts(events: seq<Event>, n: nat): (starts: seq<nat>)
    requires n <= |events|
    ensures forall k :: 0 <= k < |starts| ==> starts[k] < n && SettledStart(events, starts[k])
  {
    if n == 0 then []
    else SettledStarts(events, n - 1) + (if SettledStart(events, n - 1) then [n - 1] else [])
  }

  predicate Ascending(starts: seq<nat>) {
    forall j, k :: 0 <= j < k < |starts| ==> starts[j] < starts[k]
  }

  lemma {:induction false} StartsAscend(events: seq<Event>, n: nat)
    requires n <= |events|
    ensures Ascending(SettledStarts(events, n))
    decreases n
  {
    if n > 0 {
      StartsAscend(events, n - 1);
    }
  }

  lemma {:induction false} StartsComplete(events: seq<Event>, n: nat, i: nat)
    requires i < n <= |events| && SettledStart(events, i)
    ensures i in SettledStarts(events, n)
    decreases n
  {
    hide SettledStart;
    if i < n - 1 {
      StartsComplete(events, n - 1, i);
    }
  }

  function Kept(keep: nat): nat {
    if keep == 0 then 1 else keep
  }

  /** Keep the user input that opens a turn together with the turn. */
  function WithInput(events: seq<Event>, start: nat): (boundary: nat)
    requires start < |events|
    ensures boundary <= start <= boundary + 2
    ensures forall i :: boundary <= i < start ==> events[i].kind.UserMessage? || events[i].kind.UserAttachments?
    ensures start > 0 && events[start - 1].kind.UserMessage? ==> boundary < start
    ensures boundary > 0 ==>
              !events[boundary - 1].kind.UserAttachments?
              || (boundary < start && events[boundary].kind.UserAttachments?)
  {
    var message := if start > 0 && events[start - 1].kind.UserMessage? then start - 1 else start;
    if message > 0 && events[message - 1].kind.UserAttachments? then message - 1 else message
  }

  function FoldBoundary(events: seq<Event>, keep: nat): (boundary: Option<nat>)
    ensures boundary.Some? ==> 0 < boundary.value < |events|
  {
    var starts := SettledStarts(events, |events|);
    if |starts| < Kept(keep) then None
    else
      var boundary := WithInput(events, starts[|starts| - Kept(keep)]);
      if boundary > 0 then Some(boundary) else None
  }

  /** The settled turns of the log do not overlap. */
  ghost predicate Disjoint(events: seq<Event>) {
    forall i, j :: 0 <= i < j < |events| && SettledStart(events, i) && SettledStart(events, j) ==> EndOf(events, i) < j
  }

  // ---- every bracketed log qualifies ----

  lemma {:induction false} EndsBeyond(events: seq<Event>, j: nat, turn: nat, end: nat)
    requires j <= |events| && end < |events| && events[end].kind.TurnEnd? && events[end].kind.turn == turn
    ensures Ends(events, turn) >= Ends(events[..j], turn) + (if j <= end then 1 else 0)
    decreases |events|
  {
    if j == |events| {
      assert events[..j] == events;
    } else if end == |events| - 1 {
      EndsGrow(events[..|events| - 1], j, turn);
      assert events[..|events| - 1][..j] == events[..j];
    } else {
      EndsBeyond(events[..|events| - 1], j, turn, end);
      assert events[..|events| - 1][..j] == events[..j];
    }
  }

  lemma {:induction false} EndsGrow(events: seq<Event>, j: nat, turn: nat)
    requires j <= |events|
    ensures Ends(events, turn) >= Ends(events[..j], turn)
    decreases |events|
  {
    if j < |events| {
      EndsGrow(events[..|events| - 1], j, turn);
      assert events[..|events| - 1][..j] == events[..j];
    } else {
      assert events[..j] == events;
    }
  }

  lemma {:induction false} StartsBefore(events: seq<Event>, i: nat, turn: nat)
    requires i < |events| && events[i].kind == TurnStart(turn)
    ensures Starts(events, turn) >= 1
    decreases |events|
  {
    if i < |events| - 1 {
      StartsBefore(events[..|events| - 1], i, turn);
    }
  }

  lemma {:induction false} LeftStays(events: seq<Event>, k: nat)
    requires ShapeOf(events).Some? && k <= |events| && ShapeOf(events[..k]).Some?
    ensures ShapeOf(events[..k]).value.left <= ShapeOf(events).value.left
    decreases |events|
  {
    if k < |events| {
      assert events[..|events| - 1][..k] == events[..k];
      LeftStays(events[..|events| - 1], k);
    } else {
      assert events[..k] == events;
    }
  }

  lemma BracketedIsDisjoint(events: seq<Event>)
    requires ShapeOf(events).Some?
    ensures Disjoint(events)
  {
    forall i, j | 0 <= i < j < |events| && SettledStart(events, i) && SettledStart(events, j)
      ensures EndOf(events, i) < j
    {
      BracketedPair(events, i, j);
    }
  }

  lemma BracketedPair(events: seq<Event>, i: nat, j: nat)
    requires ShapeOf(events).Some? && i < j < |events| && SettledStart(events, i) && events[j].kind.TurnStart?
    ensures EndOf(events, i) < j
  {
    hide LastEnd;
    var turn, before := events[i].kind.turn, events[..j];
    ShapeOfPrefix(events, j);
    ShapeOfPrefix(events, j + 1);
    assert events[..j + 1][..j] == before;
    LeftStays(events, j + 1);
    StartsBefore(before, i, turn);
    TurnsBracketed(before, turn);
    TurnsBracketed(events, turn);
    EndsBeyond(events, j, turn, EndOf(events, i));
  }

  // ---- what a boundary keeps ----

  /** The settled starts at or after a position. */
  function StartsFrom(events: seq<Event>, b: nat): set<nat>
    requires b <= |events|
  {
    set i | b <= i < |events| && SettledStart(events, i)
  }

  lemma {:induction false} Distinct(starts: seq<nat>, k: nat)
    requires k <= |starts| && Ascending(starts)
    ensures |(set i | k <= i < |starts| :: starts[i])| == |starts| - k
    decreases |starts| - k
  {
    if k < |starts| {
      Distinct(starts, k + 1);
      assert (set i | k <= i < |starts| :: starts[i]) == {starts[k]} + (set i | k + 1 <= i < |starts| :: starts[i]);
    }
  }

  lemma BoundaryKeeps(events: seq<Event>, keep: nat)
    requires Disjoint(events) && FoldBoundary(events, keep).Some?
    ensures var b := FoldBoundary(events, keep).value;
            && 0 < b < |events|
            && |StartsFrom(events, b)| == Kept(keep)
            && (forall i :: 0 <= i < |events| && SettledStart(events, i) ==> i >= b || EndOf(events, i) < b)
  {
    var starts := SettledStarts(events, |events|);
    var start, b := starts[|starts| - Kept(keep)], FoldBoundary(events, keep).value;
    assert b < |events| by {
      assert EndOf(events, start) > start;
    }
    forall i | 0 <= i < |events| && SettledStart(events, i) ensures i >= b || EndOf(events, i) < b {
      if i < b {
        assert EndOf(events, i) < start;
        assert events[EndOf(events, i)].kind.TurnEnd?;
      }
    }
    StartsCounted(events, keep);
  }

  lemma StartsCounted(events: seq<Event>, keep: nat)
    requires FoldBoundary(events, keep).Some? && FoldBoundary(events, keep).value <= |events|
    ensures |StartsFrom(events, FoldBoundary(events, keep).value)| == Kept(keep)
  {
    hide LastEnd;
    var starts := SettledStarts(events, |events|);
    var first, b := |starts| - Kept(keep), FoldBoundary(events, keep).value;
    StartsAscend(events, |events|);
    var kept := set k | first <= k < |starts| :: starts[k];
    forall i | i in StartsFrom(events, b) ensures i in kept {
      StartsComplete(events, |events|, i);
      var k :| 0 <= k < |starts| && starts[k] == i;
      assert !events[i].kind.UserMessage? && !events[i].kind.UserAttachments?;
    }
    assert StartsFrom(events, b) == kept;
    Distinct(starts, first);
  }

  /** A start is settled exactly if its turn ends somewhere after it. */
  lemma SettledMeans(events: seq<Event>, i: nat)
    requires i < |events|
    ensures SettledStart(events, i) <==>
              && events[i].kind.TurnStart?
              && exists end :: i < end < |events| && events[end].kind.TurnEnd?
                               && events[end].kind.turn == events[i].kind.turn
  {
    if events[i].kind.TurnStart? {
      var turn := events[i].kind.turn;
      if end :| i < end < |events| && events[end].kind.TurnEnd? && events[end].kind.turn == turn {
        LastEndIsLast(events, turn, end);
      }
    }
  }

  /** A turn whose input, if it has any, opens the log. */
  ghost predicate OpensLog(events: seq<Event>, start: nat)
    requires start < |events|
  {
    || start == 0
    || (start == 1 && (events[0].kind.UserMessage? || events[0].kind.UserAttachments?))
    || (start == 2 && events[0].kind.UserAttachments? && events[1].kind.UserMessage?)
  }

  /** There is something to fold exactly if enough turns are settled and the oldest
      kept one does not open the log. */
  lemma BoundaryExists(events: seq<Event>, keep: nat)
    ensures var need := if keep == 0 then 1 else keep;
            FoldBoundary(events, keep).Some? <==>
              && |StartsFrom(events, 0)| >= need
              && forall i :: 0 <= i < |events| && SettledStart(events, i) && |StartsFrom(events, i)| == need ==>
                   !OpensLog(events, i)
  {
    hide LastEnd, SettledStart;
    var starts := SettledStarts(events, |events|);
    StartsAscend(events, |events|);
    StartsFromHere(events, 0, 0);
    if |starts| >= Kept(keep) {
      var first := |starts| - Kept(keep);
      StartsFromHere(events, first, starts[first]);
      forall i | 0 <= i < |events| && SettledStart(events, i) && |StartsFrom(events, i)| == Kept(keep)
        ensures i == starts[first]
      {
        StartsComplete(events, |events|, i);
        var k :| 0 <= k < |starts| && starts[k] == i;
        StartsFromHere(events, k, i);
      }
      assert OpensLog(events, starts[first]) <==> WithInput(events, starts[first]) == 0;
    }
  }

  lemma StartsFromHere(events: seq<Event>, k: nat, b: nat)
    requires var starts := SettledStarts(events, |events|);
             k <= |starts| && b <= |events| && (forall j :: k <= j < |starts| ==> b <= starts[j])
             && forall j :: 0 <= j < k ==> starts[j] < b
    ensures |StartsFrom(events, b)| == |SettledStarts(events, |events|)| - k
  {
    hide SettledStart;
    var starts := SettledStarts(events, |events|);
    StartsAscend(events, |events|);
    var kept := set j | k <= j < |starts| :: starts[j];
    forall i | i in StartsFrom(events, b) ensures i in kept {
      StartsComplete(events, |events|, i);
    }
    assert StartsFrom(events, b) == kept;
    Distinct(starts, k);
  }

  /** The user input before the first kept turn stays with it. */
  lemma BoundaryKeepsInput(events: seq<Event>, keep: nat)
    requires FoldBoundary(events, keep).Some?
    ensures var b := FoldBoundary(events, keep).value;
            exists start :: b <= start <= b + 2 && start < |events| && SettledStart(events, start)
              && (forall i :: b <= i < start ==> events[i].kind.UserMessage? || events[i].kind.UserAttachments?)
              && (start > 0 && events[start - 1].kind.UserMessage? ==> b < start)
              && (start > 1 && events[start - 1].kind.UserMessage? && events[start - 2].kind.UserAttachments? ==>
                    b == start - 2)
  {
    var starts := SettledStarts(events, |events|);
    var start := starts[|starts| - Kept(keep)];
    assert SettledStart(events, start);
  }

  /** A turn that is still open, being the latest, is kept whole. */
  lemma OpenTurnKept(events: seq<Event>, keep: nat, i: nat)
    requires FoldBoundary(events, keep).Some? && i < |events| && events[i].kind.TurnStart? && !SettledStart(events, i)
    requires forall j :: i < j < |events| ==> !events[j].kind.TurnStart?
    ensures i >= FoldBoundary(events, keep).value
  {
    var starts := SettledStarts(events, |events|);
    var start := starts[|starts| - Kept(keep)];
    assert SettledStart(events, start);
  }

  /** A larger window never folds more. */
  lemma MoreKeptFoldsLess(events: seq<Event>, keep: nat, more: nat)
    requires keep <= more && FoldBoundary(events, more).Some?
    ensures FoldBoundary(events, keep).Some? && FoldBoundary(events, more).value <= FoldBoundary(events, keep).value
  {
    hide LastEnd;
    var starts := SettledStarts(events, |events|);
    StartsAscend(events, |events|);
    BoundariesInOrder(events, starts[|starts| - Kept(more)], starts[|starts| - Kept(keep)]);
  }

  lemma BoundariesInOrder(events: seq<Event>, first: nat, second: nat)
    requires first <= second < |events| && events[first].kind.TurnStart?
    ensures WithInput(events, first) <= WithInput(events, second)
  {
    assert !events[first].kind.UserMessage? && !events[first].kind.UserAttachments?;
  }

  // ---- a growing log ----

  lemma StaysSettled(events: seq<Event>, longer: seq<Event>, i: nat)
    requires events <= longer && i < |events| && SettledStart(events, i)
    ensures SettledStart(longer, i) && EndOf(longer, i) >= EndOf(events, i)
  {
    var end := EndOf(events, i);
    assert longer[end] == events[end] && longer[i] == events[i];
    LastEndIsLast(longer, events[i].kind.turn, end);
  }

  /** In a longer log the settled starts are the old ones followed by later ones. */
  lemma StartsExtend(events: seq<Event>, longer: seq<Event>, i: nat, j: nat)
    requires events <= longer && Disjoint(longer) && i < |events| && j < |longer|
    requires SettledStart(events, i) && SettledStart(longer, j) && j < i
    ensures j < |events| && SettledStart(events, j)
  {
    StaysSettled(events, longer, i);
    var end := EndOf(longer, j);
    assert end < i;
    assert events[end] == longer[end];
    assert events[j] == longer[j];
    LastEndIsLast(events, events[j].kind.turn, end);
  }

  lemma {:induction false} SameUpTo(events: seq<Event>, longer: seq<Event>, last: nat, n: nat)
    requires events <= longer && Disjoint(longer) && n <= last + 1 <= |events| && SettledStart(events, last)
    ensures SettledStarts(events, n) == SettledStarts(longer, n)
    decreases n
  {
    hide LastEnd, SettledStart, Disjoint;
    if n > 0 {
      SameUpTo(events, longer, last, n - 1);
      SameSettled(events, longer, n - 1, last);
    }
  }

  lemma {:induction false} StartsGrow(events: seq<Event>, m: nat, n: nat)
    requires m <= n <= |events|
    ensures SettledStarts(events, m) <= SettledStarts(events, n)
    ensures (forall i :: m <= i < n ==> !SettledStart(events, i)) ==>
              SettledStarts(events, m) == SettledStarts(events, n)
    decreases n
  {
    if m < n {
      StartsGrow(events, m, n - 1);
    }
  }

  lemma StartsPrefix(events: seq<Event>, longer: seq<Event>)
    requires events <= longer && Disjoint(longer)
    ensures SettledStarts(events, |events|) <= SettledStarts(longer, |longer|)
  {
    hide SettledStart, LastEnd, Disjoint, SettledStarts;
    var starts := SettledStarts(events, |events|);
    if starts != [] {
      var last := starts[|starts| - 1];
      SameUpTo(events, longer, last, last + 1);
      StartsGrow(longer, last + 1, |longer|);
      StartsStop(events, last);
    }
  }

  /** After its last settled start a log has no more of them. */
  lemma StartsStop(events: seq<Event>, last: nat)
    requires var starts := SettledStarts(events, |events|); starts != [] && last == starts[|starts| - 1]
    ensures last < |events| && SettledStarts(events, last + 1) == SettledStarts(events, |events|)
  {
    hide LastEnd;
    StartsAscend(events, |events|);
    forall i | last + 1 <= i < |events| ensures !SettledStart(events, i) {
      if SettledStart(events, i) {
        StartsComplete(events, |events|, i);
      }
    }
    hide SettledStart, SettledStarts;
    StartsGrow(events, last + 1, |events|);
  }

  lemma SameSettled(events: seq<Event>, longer: seq<Event>, i: nat, last: nat)
    requires events <= longer && Disjoint(longer) && i <= last < |events| && SettledStart(events, last)
    ensures SettledStart(events, i) <==> SettledStart(longer, i)
  {
    if SettledStart(events, i) {
      StaysSettled(events, longer, i);
    } else if i < last && SettledStart(longer, i) {
      StartsExtend(events, longer, last, i);
    }
  }

  /** Appending to the log never moves the boundary back. */
  lemma BoundaryAdvances(events: seq<Event>, longer: seq<Event>, keep: nat)
    requires events <= longer && Disjoint(longer) && FoldBoundary(events, keep).Some?
    ensures FoldBoundary(longer, keep).Some? && FoldBoundary(longer, keep).value >= FoldBoundary(events, keep).value
  {
    hide Disjoint, LastEnd, SettledStarts, Ascending, WithInput;
    StartsPrefix(events, longer);
    var before, after := SettledStarts(events, |events|), SettledStarts(longer, |longer|);
    var first, second := before[|before| - Kept(keep)], after[|after| - Kept(keep)];
    assert events[first].kind.TurnStart? && longer[first] == events[first];
    StartsAscend(longer, |longer|);
    LaterStart(before, after, Kept(keep));
    BoundariesInOrder(longer, first, second);
    SameInput(events, longer, first);
  }

  lemma LaterStart(before: seq<nat>, after: seq<nat>, kept: nat)
    requires before <= after && 0 < kept <= |before| && Ascending(after)
    ensures before[|before| - kept] <= after[|after| - kept]
  {
    assert before[|before| - kept] == after[|before| - kept];
  }

  lemma SameInput(events: seq<Event>, longer: seq<Event>, start: nat)
    requires events <= longer && start < |events|
    ensures WithInput(longer, start) == WithInput(events, start)
  {
    assert start > 0 ==> longer[start - 1] == events[start - 1];
    assert start > 1 ==> longer[start - 2] == events[start - 2];
  }
}
