/** Re-alignment of schedules that a fork copies from its parent: an overdue
    fixed-rate schedule moves to its next anchor-aligned target, in 64-bit
    arithmetic that refuses to overflow. */
module CopiedTargets {
  import opened SessionEvents
  import opened ScheduleProjection

  const I64_MIN: int := -0x8000_0000_0000_0000

  function SaturatingSub(left: int, right: int): int {
    if left - right > I64_MAX then I64_MAX else if left - right < I64_MIN then I64_MIN else left - right
  }

  /** The target of a copy made at some time, or None when it does not fit. */
  function NextCopiedTarget(at: int, rule: Rule, now: int): Option<int> {
    if at > now then Some(at)
    else if !rule.Every? then (if now + 1 > I64_MAX then None else Some(now + 1))
    else
      var elapsed := SaturatingSub(now, at);
      if elapsed < 0 || rule.interval == 0 then None else
      var intervals := elapsed / rule.interval + 1;
      if intervals > U64_MAX || intervals * rule.interval > U64_MAX || intervals * rule.interval > I64_MAX
        then None else
      if at + intervals * rule.interval > I64_MAX then None else Some(at + intervals * rule.interval)
  }

  predicate OnGrid(anchor: int, interval: nat, instant: int)
    requires interval > 0
  {
    (instant - anchor) % interval == 0
  }

  /** The specification: the first instant after a time on the grid of an anchor. */
  ghost predicate FirstAfter(anchor: int, interval: nat, now: int, target: int)
    requires interval > 0
  {
    && target > now && OnGrid(anchor, interval, target)
    && forall other :: other > now && OnGrid(anchor, interval, other) ==> target <= other
  }

  function Aligned(at: int, interval: nat, now: int): int
    requires interval > 0 && at <= now
  {
    at + ((now - at) / interval + 1) * interval
  }

  lemma GridShift(anchor: int, interval: nat, first: int, second: int)
    requires interval > 0 && OnGrid(anchor, interval, first)
    ensures OnGrid(anchor, interval, second) <==> OnGrid(first, interval, second)
  {
    var a := (first - anchor) / interval;
    assert first - anchor == a * interval;
    if OnGrid(first, interval, second) {
      GridSum(interval, first - anchor, second - first);
    }
    if OnGrid(anchor, interval, second) {
      assert anchor - first == (-a) * interval;
      Multiple(-a, interval);
      GridSum(interval, anchor - first, second - anchor);
    }
  }

  lemma GridSum(interval: nat, first: int, second: int)
    requires interval > 0 && first % interval == 0 && second % interval == 0
    ensures (first + second) % interval == 0
  {
    var a, b := first / interval, second / interval;
    assert first == a * interval && second == b * interval;
    assert first + second == (a + b) * interval;
    Multiple(a + b, interval);
  }

  lemma Multiple(n: int, interval: nat)
    requires interval > 0
    ensures n * interval % interval == 0
  {
    if n >= 0 {
      MultipleOf(n, interval);
    } else {
      var q := (n * interval) / interval;
      var r := (n * interval) % interval;
      assert r == (n - q) * interval;
      Grows(n - q, interval);
    }
  }

  /** Two points of a grid that are less than a step apart are the same. */
  lemma GridGap(interval: nat, distance: int)
    requires interval > 0 && distance % interval == 0 && distance < interval && -distance < interval
    ensures distance == 0
  {
    var q := distance / interval;
    assert distance == q * interval;
    Grows(q, interval);
  }

  lemma AlignedIsFirst(at: int, interval: nat, now: int)
    requires interval > 0 && at <= now
    ensures FirstAfter(at, interval, now, Aligned(at, interval, now))
    ensures Aligned(at, interval, now) - interval <= now
  {
    var steps, target := (now - at) / interval, Aligned(at, interval, now);
    assert now - at == steps * interval + (now - at) % interval;
    assert target - at == steps * interval + interval by {
      assert (steps + 1) * interval == steps * interval + interval;
    }
    Multiple(steps + 1, interval);
    forall other | other > now && OnGrid(at, interval, other) ensures target <= other {
      if other < target {
        GridShift(at, interval, target, other);
        GridGap(interval, other - target);
      }
    }
  }

  lemma FirstIsUnique(anchor: int, interval: nat, now: int, first: int, second: int)
    requires interval > 0 && FirstAfter(anchor, interval, now, first) && FirstAfter(anchor, interval, now, second)
    ensures first == second
  {
  }

  /** For a machine clock and a validated target, an overdue fixed-rate copy gets
      the first instant after now on the grid, and fails exactly when that
      instant does not fit. */
  lemma CopiedTargetExact(at: int, interval: nat, now: int, target: int)
    requires 0 <= at <= now <= I64_MAX && 0 < interval <= U64_MAX && FirstAfter(at, interval, now, target)
    ensures NextCopiedTarget(at, Every(interval), now) == if target <= I64_MAX then Some(target) else None
  {
    AlignedIsFirst(at, interval, now);
    FirstIsUnique(at, interval, now, target, Aligned(at, interval, now));
  }

  /** Without the lower bound on the target the saturated difference can refuse a
      copy whose target fits: the distance itself must fit as well. */
  lemma CopiedTargetAnyAnchor(at: int, interval: nat, now: int, target: int)
    requires I64_MIN <= at <= now <= I64_MAX && 0 < interval <= U64_MAX && FirstAfter(at, interval, now, target)
    ensures NextCopiedTarget(at, Every(interval), now)
            == if target <= I64_MAX && target - at <= I64_MAX then Some(target) else None
  {
    AlignedIsFirst(at, interval, now);
    FirstIsUnique(at, interval, now, target, Aligned(at, interval, now));
    if now - at > I64_MAX {
      AlignedIsFirst(0, interval, I64_MAX);
    }
  }

  /** A target that is still ahead is copied as it is; an overdue one of no fixed rate
      is due at the next instant, unless there is none. */
  lemma OtherCopies(at: int, rule: Rule, now: int)
    ensures at > now ==> NextCopiedTarget(at, rule, now) == Some(at)
    ensures at <= now < I64_MAX && !rule.Every? ==>
              NextCopiedTarget(at, rule, now).Some? && FirstAfter(at, 1, now, NextCopiedTarget(at, rule, now).value)
    ensures at <= now && now >= I64_MAX && !rule.Every? ==> NextCopiedTarget(at, rule, now) == None
  {
  }

  /** A dispatched fixed rate moves to the first instant after its acceptance on its
      own grid, and nothing else of it changes; the dispatch has no next target
      exactly when that instant does not fit. */
  lemma DispatchTargetExact(record: Record, accepted: int, calendar: Calendar, target: int)
    requires record.rule.Every? && record.rule.interval > 0 && 0 <= record.at <= accepted
    requires FirstAfter(record.at, record.rule.interval, accepted, target)
    ensures Advance(record, accepted, calendar)
            == if target <= I64_MAX then Rearmed(record.(at := target)) else Overflow
  {
    AlignedIsFirst(record.at, record.rule.interval, accepted);
    FirstIsUnique(record.at, record.rule.interval, accepted, target,
      Aligned(record.at, record.rule.interval, accepted));
  }

  lemma NegativeAnchorRefused()
    ensures FirstAfter(-2, 1, I64_MAX - 1, I64_MAX)
    ensures NextCopiedTarget(-2, Every(1), I64_MAX - 1) == None
  {
    AlignedIsFirst(-2, 1, I64_MAX - 1);
  }

  // ---- copies of copies ----

  function Later(first: int, second: int): int {
    if first > second then first else second
  }

  /** A copy of a copy is a copy at the later of the two times. */
  lemma CopyTwice(at: int, rule: Rule, first: int, second: int)
    requires 0 <= at && 0 <= first <= I64_MAX && 0 <= second <= I64_MAX
    requires (rule.Every? ==> 0 < rule.interval <= U64_MAX)
    ensures var once := NextCopiedTarget(at, rule, first);
            (if once.None? then None else NextCopiedTarget(once.value, rule, second))
            == NextCopiedTarget(at, rule, Later(first, second))
  {
    if rule.Every? {
      CopyTwiceAligned(at, rule.interval, first, second);
    }
  }

  lemma CopyTwiceAligned(at: int, interval: nat, first: int, second: int)
    requires 0 <= at && 0 <= first <= I64_MAX && 0 <= second <= I64_MAX && 0 < interval <= U64_MAX
    ensures var once := NextCopiedTarget(at, Every(interval), first);
            (if once.None? then None else NextCopiedTarget(once.value, Every(interval), second))
            == NextCopiedTarget(at, Every(interval), Later(first, second))
  {
    var later := Later(first, second);
    if at <= first {
      AlignedIsFirst(at, interval, first);
      AlignedIsFirst(at, interval, later);
      var once, last := Aligned(at, interval, first), Aligned(at, interval, later);
      CopiedTargetExact(at, interval, first, once);
      CopiedTargetExact(at, interval, later, last);
      if once <= I64_MAX && once <= second {
        AlignedIsFirst(once, interval, second);
        var twice := Aligned(once, interval, second);
        CopiedTargetExact(once, interval, second, twice);
        SameGrid(at, once, interval, second, twice);
        FirstIsUnique(at, interval, second, twice, last);
      } else if once > second {
        // The first copy is still ahead of the second time, so it is its target too.
        assert FirstAfter(at, interval, later, once);
        FirstIsUnique(at, interval, later, once, last);
      }
    }
  }

  lemma SameGrid(anchor: int, other: int, interval: nat, now: int, target: int)
    requires interval > 0 && OnGrid(anchor, interval, other) && FirstAfter(other, interval, now, target)
    ensures FirstAfter(anchor, interval, now, target)
  {
    GridShift(anchor, interval, other, target);
    forall x | x > now && OnGrid(anchor, interval, x) ensures target <= x {
      GridShift(anchor, interval, other, x);
    }
  }

  /** Forks of forks, each copying at its own time. */
  function CopyChain(at: int, rule: Rule, times: seq<int>): Option<int> {
    if times == [] then Some(at)
    else
      var before := CopyChain(at, rule, times[..|times| - 1]);
      if before.None? then None else NextCopiedTarget(before.value, rule, times[|times| - 1])
  }

  function Latest(times: seq<int>): int
    requires times != []
  {
    if |times| == 1 then times[0] else Later(Latest(times[..|times| - 1]), times[|times| - 1])
  }

  predicate Clocks(times: seq<int>) {
    forall i :: 0 <= i < |times| ==> 0 <= times[i] <= I64_MAX
  }

  lemma {:induction false} LatestBounded(times: seq<int>)
    requires times != [] && Clocks(times)
    ensures 0 <= Latest(times) <= I64_MAX
    decreases |times|
  {
    if |times| > 1 {
      LatestBounded(times[..|times| - 1]);
    }
  }

  /** However many forks lie between, the target is the one a single copy at the
      latest time would have: copies never drift from the original anchor. */
  lemma {:induction false} ChainStaysOnAnchor(at: int, rule: Rule, times: seq<int>)
    requires 0 <= at && times != [] && Clocks(times)
    requires rule.Every? ==> 0 < rule.interval <= U64_MAX
    ensures CopyChain(at, rule, times) == NextCopiedTarget(at, rule, Latest(times))
    decreases |times|
  {
    var init, last := times[..|times| - 1], times[|times| - 1];
    if |times| > 1 {
      ChainStaysOnAnchor(at, rule, init);
      LatestBounded(init);
      CopyTwice(at, rule, Latest(init), last);
    } else {
      assert CopyChain(at, rule, init) == Some(at);
    }
  }
}
