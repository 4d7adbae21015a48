/** Small helpers that several modules share. */
module Sequences {

  function Least(left: nat, right: nat): nat {
    if left < right then left else right
  }

  /** One sequence occurs in another at a position. */
  predicate At<T(==)>(all: seq<T>, part: seq<T>, i: nat) {
    i + |part| <= |all| && all[i..i + |part|] == part
  }

  predicate Contains<T(==)>(all: seq<T>, part: seq<T>) {
    exists i :: 0 <= i <= |all| && At(all, part, i)
  }

  /** Containing means that something, perhaps nothing, stands before and after. */
  lemma ContainsIs<T>(all: seq<T>, part: seq<T>)
    ensures Contains(all, part) <==> exists before, after :: all == before + part + after
  {
    if i :| 0 <= i <= |all| && At(all, part, i) {
      assert all == all[..i] + part + all[i + |part|..];
    }
    if before, after :| all == before + part + after {
      assert At(all, part, |before|);
    }
  }

  /** One sequence is another with some entries left out. */
  ghost predicate Within<T>(part: seq<T>, whole: seq<T>)
    decreases |whole|
  {
    || part == []
    || (whole != [] && Within(part, whole[..|whole| - 1]))
    || (whole != [] && part[|part| - 1] == whole[|whole| - 1] && Within(part[..|part| - 1], whole[..|whole| - 1]))
  }

  lemma {:induction false} WithinMore<T>(part: seq<T>, whole: seq<T>, more: seq<T>)
    requires Within(part, whole)
    ensures Within(part, whole + more)
    decreases |more|
  {
    if more == [] {
      assert whole + more == whole;
    } else {
      WithinMore(part, whole, more[..|more| - 1]);
      assert (whole + more)[..|whole + more| - 1] == whole + more[..|more| - 1];
    }
  }

  lemma WithinLast<T>(part: seq<T>, whole: seq<T>, last: T)
    requires Within(part, whole)
    ensures Within(part + [last], whole + [last])
  {
    assert (part + [last])[..|part|] == part && (whole + [last])[..|whole|] == whole;
  }
}
