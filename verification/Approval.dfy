/** Approval policies of nested agents: each child adds a ceiling to its parent's,
    and a ceiling can only take authority away. */
module Approvals {
  import opened SessionEvents

  datatype Call = Call(tool: string, args: string)

  datatype Kind = FullAccess | DenyKind | Ask | AcceptedEditsKind | CustomKind

  /** `AcceptedEdits` remembers the exact calls that the user granted for good. */
  datatype Policy =
    | AutoApprove
    | DenyAll
    | UnpromptedDeny
    | AlwaysAsk
    | AcceptedEdits(grants: seq<Call>)
    | Custom(verdict: Call -> bool)

  /** What the user does with one prompt; a withdrawn prompt was cancelled. */
  datatype Answer = AllowOnce | AllowAlways | Refuse | Withdrawn

  function KindOf(policy: Policy): Kind {
    match policy
    case AutoApprove => FullAccess
    case DenyAll => DenyKind
    case UnpromptedDeny => Ask
    case AlwaysAsk => Ask
    case AcceptedEdits(_) => AcceptedEditsKind
    case Custom(_) => CustomKind
  }

  predicate FileTool(tool: string) {
    tool in {"read", "read_many", "glob", "grep", "edit", "multi_edit", "write", "apply_patch"}
  }

  /** The outcome of one decision: the verdict, how many prompts it took, whether
      one of them was answered with a permission, and the policies afterwards. */
  datatype Decision = Decision(allowed: bool, asked: nat, answered: bool, policies: seq<Policy>)

  predicate Permits(answer: Answer) {
    answer.AllowOnce? || answer.AllowAlways?
  }

  /** One policy by itself; `asked` prompts were already shown. */
  function DecideAlone(policy: Policy, call: Call, answers: nat -> Answer, asked: nat): Decision {
    match policy
    case AutoApprove => Decision(true, asked, false, [policy])
    case DenyAll => Decision(false, asked, false, [policy])
    case UnpromptedDeny => Decision(false, asked, false, [policy])
    case AlwaysAsk => Decision(Permits(answers(asked)), asked + 1, Permits(answers(asked)), [policy])
    case AcceptedEdits(grants) =>
      if FileTool(call.tool) || call in grants then Decision(true, asked, false, [policy])
      else
        var answer := answers(asked);
        Decision(Permits(answer), asked + 1, Permits(answer),
          [if answer.AllowAlways? then AcceptedEdits(grants + [call]) else policy])
    case Custom(verdict) => Decision(verdict(call), asked, false, [policy])
  }

  /** A chain of policies, the outermost agent's first. A denying child decides
      alone; a parent that asks anyway asks for the child as well; otherwise both
      must agree, the parent first. */
  function Decide(policies: seq<Policy>, call: Call, answers: nat -> Answer, asked: nat): (d: Decision)
    requires policies != []
    ensures |d.policies| == |policies|
    decreases |policies|
  {
    var parents, child := policies[..|policies| - 1], policies[|policies| - 1];
    if parents == [] then DecideAlone(child, call, answers, asked)
    else if KindOf(child).DenyKind? then
      var d := DecideAlone(child, call, answers, asked);
      d.(policies := parents + d.policies)
    else
      var above := Decide(parents, call, answers, asked);
      if ChainKind(parents).Ask? || !above.allowed then above.(policies := above.policies + [child])
      else
        var below := DecideAlone(child, call, answers, above.asked);
        Decision(below.allowed, below.asked, above.answered || below.answered, above.policies + below.policies)
  }

  /** A nested agent reports the kind of its own ceiling. */
  function ChainKind(policies: seq<Policy>): Kind
    requires policies != []
  {
    KindOf(policies[|policies| - 1])
  }

  // ---- ceilings ----

  /** Asking means asking: a chain whose innermost policy asks allows nothing
      without a prompt answered in this very decision. */
  lemma {:induction false} AskingNeedsAnswer(policies: seq<Policy>, call: Call, answers: nat -> Answer, asked: nat)
    requires policies != [] && ChainKind(policies).Ask?
    ensures var d := Decide(policies, call, answers, asked); d.allowed ==> d.answered
    decreases |policies|
  {
    var parents := policies[..|policies| - 1];
    if parents != [] && ChainKind(parents).Ask? {
      AskingNeedsAnswer(parents, call, answers, asked);
    }
  }

  /** One denying policy anywhere in a chain of any depth denies. */
  lemma {:induction false} DenyDenies(policies: seq<Policy>, call: Call, answers: nat -> Answer, asked: nat)
    requires policies != [] && exists i :: 0 <= i < |policies| && KindOf(policies[i]).DenyKind?
    ensures !Decide(policies, call, answers, asked).allowed
    decreases |policies|
  {
    var parents, child := policies[..|policies| - 1], policies[|policies| - 1];
    var i :| 0 <= i < |policies| && KindOf(policies[i]).DenyKind?;
    if i < |parents| {
      assert parents[i] == policies[i];
      DenyDenies(parents, call, answers, asked);
    }
  }

  /** One always-asking policy anywhere allows only what was just permitted. */
  lemma {:induction false} AskAsks(policies: seq<Policy>, call: Call, answers: nat -> Answer, asked: nat)
    requires policies != [] && AlwaysAsk in policies
    ensures var d := Decide(policies, call, answers, asked); d.allowed ==> d.answered
    decreases |policies|
  {
    var parents, child := policies[..|policies| - 1], policies[|policies| - 1];
    if child.AlwaysAsk? {
      AskingNeedsAnswer(policies, call, answers, asked);
    } else {
      var i :| 0 <= i < |policies| && policies[i] == AlwaysAsk;
      assert parents[i] == AlwaysAsk;
      AskAsks(parents, call, answers, asked);
    }
  }

  /** Through accepted edits, a call that is no file operation needs an answer
      now, or an earlier grant of exactly this tool with exactly this input. */
  lemma {:induction false} EditsNeedGrant(policies: seq<Policy>, i: nat, call: Call, answers: nat -> Answer, asked: nat)
    requires i < |policies| && policies[i].AcceptedEdits? && !FileTool(call.tool)
    ensures var d := Decide(policies, call, answers, asked); d.allowed ==> d.answered || call in policies[i].grants
    decreases |policies|
  {
    var parents := policies[..|policies| - 1];
    if i < |parents| {
      assert parents[i] == policies[i];
      EditsNeedGrant(parents, i, call, answers, asked);
    } else if parents != [] && ChainKind(parents).Ask? {
      AskingNeedsAnswer(parents, call, answers, asked);
    }
  }

  /** A permission that is reported as fresh was really given: one of the prompts
      of this decision was answered with it. */
  lemma {:induction false} FreshWasAnswered(policies: seq<Policy>, call: Call, answers: nat -> Answer, asked: nat)
    requires policies != []
    ensures var d := Decide(policies, call, answers, asked);
            asked <= d.asked && (d.answered ==> exists n :: asked <= n < d.asked && Permits(answers(n)))
    decreases |policies|
  {
    var parents, child := policies[..|policies| - 1], policies[|policies| - 1];
    if parents != [] {
      FreshWasAnswered(parents, call, answers, asked);
      var above := Decide(parents, call, answers, asked);
      AloneWasAnswered(child, call, answers, above.asked);
    }
    AloneWasAnswered(child, call, answers, asked);
  }

  lemma AloneWasAnswered(policy: Policy, call: Call, answers: nat -> Answer, asked: nat)
    ensures var d := DecideAlone(policy, call, answers, asked);
            asked <= d.asked && (d.answered ==> exists n :: asked <= n < d.asked && Permits(answers(n)))
  {
    var d := DecideAlone(policy, call, answers, asked);
    if d.answered {
      assert asked <= asked < d.asked && Permits(answers(asked));
    }
  }

  /** A child never grants what its parent denies. */
  lemma ChildIsCeiling(parents: seq<Policy>, child: Policy, call: Call, answers: nat -> Answer, asked: nat)
    requires parents != [] && !Decide(parents, call, answers, asked).allowed
    ensures !Decide(parents + [child], call, answers, asked).allowed
  {
    var all := parents + [child];
    assert all[..|all| - 1] == parents && all[|all| - 1] == child;
  }

  /** The stand-in for an asking child without a prompter denies everything,
      unless its parent asks: then the parent's answer decides alone. */
  lemma UnpromptedChild(parents: seq<Policy>, call: Call, answers: nat -> Answer, asked: nat)
    requires parents != []
    ensures Decide(parents + [UnpromptedDeny], call, answers, asked).allowed
            <==> ChainKind(parents).Ask? && Decide(parents, call, answers, asked).allowed
  {
    var all := parents + [UnpromptedDeny];
    assert all[..|all| - 1] == parents && all[|all| - 1] == UnpromptedDeny;
  }

  // ---- grants over time ----

  function Grants(policy: Policy): seq<Call> {
    if policy.AcceptedEdits? then policy.grants else []
  }

  /** A decision adds at most the call it decided to a grant list, only after the
      user granted it for good, and takes nothing back. */
  lemma {:induction false} GrantsGrow(policies: seq<Policy>, i: nat, call: Call, answers: nat -> Answer, asked: nat)
    requires i < |policies|
    ensures var d := Decide(policies, call, answers, asked);
            && (KindOf(d.policies[i]) == KindOf(policies[i]))
            && (Grants(d.policies[i]) == Grants(policies[i])
                || (Grants(d.policies[i]) == Grants(policies[i]) + [call]
                    && exists n :: asked <= n < d.asked && answers(n).AllowAlways?))
    decreases |policies|
  {
    var parents, child := policies[..|policies| - 1], policies[|policies| - 1];
    FreshWasAnswered(policies, call, answers, asked);
    if parents != [] {
      FreshWasAnswered(parents, call, answers, asked);
      var above := Decide(parents, call, answers, asked);
      if i < |parents| {
        GrantsGrow(parents, i, call, answers, asked);
        assert parents[i] == policies[i];
      }
      AloneGrants(child, call, answers, above.asked);
    }
    AloneGrants(child, call, answers, asked);
  }

  lemma AloneGrants(policy: Policy, call: Call, answers: nat -> Answer, asked: nat)
    ensures var d := DecideAlone(policy, call, answers, asked);
            && KindOf(d.policies[0]) == KindOf(policy)
            && (Grants(d.policies[0]) == Grants(policy)
                || (Grants(d.policies[0]) == Grants(policy) + [call] && asked < d.asked && answers(asked).AllowAlways?))
  {
  }

  // ---- permissions ----

  /** A policy has nothing to ask about a call. */
  predicate Settled(policy: Policy, call: Call) {
    !KindOf(policy).Ask? && (policy.AcceptedEdits? ==> FileTool(call.tool) || call in policy.grants)
  }

  /** A policy does not deny a call of its own accord. */
  predicate Willing(policy: Policy, call: Call) {
    policy != DenyAll && (policy.Custom? ==> policy.verdict(call))
  }

  /** Without a question the chain changes nothing and shows no prompt. It allows
      exactly if no policy denies and every custom policy agrees; so a chain of
      automatic approvals always does. */
  lemma {:induction false} NothingToAsk(policies: seq<Policy>, call: Call, answers: nat -> Answer, asked: nat)
    requires policies != [] && forall i :: 0 <= i < |policies| ==> Settled(policies[i], call)
    ensures var d := Decide(policies, call, answers, asked);
            && d.asked == asked && !d.answered && d.policies == policies
            && (d.allowed <==> forall i :: 0 <= i < |policies| ==> Willing(policies[i], call))
    decreases |policies|
  {
    hide Settled, Willing, DecideAlone;
    var parents, child := policies[..|policies| - 1], policies[|policies| - 1];
    assert policies == parents + [child];
    AloneNothingToAsk(child, call, answers, asked);
    if parents != [] {
      NothingToAsk(parents, call, answers, asked);
      AloneNothingToAsk(parents[|parents| - 1], call, answers, asked);
    }
  }

  lemma AloneNothingToAsk(policy: Policy, call: Call, answers: nat -> Answer, asked: nat)
    requires Settled(policy, call)
    ensures DecideAlone(policy, call, answers, asked) == Decision(Willing(policy, call), asked, false, [policy])
    ensures !KindOf(policy).Ask? && (KindOf(policy).DenyKind? ==> !Willing(policy, call))
  {
  }

  /** Without a grant and without a permission, accepted edits allow exactly the file
      operations. */
  lemma OnlyFileOperations(call: Call, answers: nat -> Answer, asked: nat)
    requires answers(asked) == Refuse
    ensures Decide([AcceptedEdits([])], call, answers, asked).allowed
            <==> call.tool in {"read", "read_many", "glob", "grep", "edit", "multi_edit", "write", "apply_patch"}
  {
  }

  /** A user who permits nothing stops whatever an always-asking policy is part of,
      and leaves no grant behind. */
  lemma RefusedThroughout(policies: seq<Policy>, call: Call, answers: nat -> Answer, asked: nat)
    requires policies != [] && AlwaysAsk in policies
    requires forall n: nat :: n >= asked ==> answers(n) == Refuse || answers(n) == Withdrawn
    ensures var d := Decide(policies, call, answers, asked); !d.allowed && d.policies == policies
  {
    AskAsks(policies, call, answers, asked);
    FreshWasAnswered(policies, call, answers, asked);
    NothingGranted(policies, call, answers, asked);
  }

  lemma {:induction false} NothingGranted(policies: seq<Policy>, call: Call, answers: nat -> Answer, asked: nat)
    requires policies != [] && forall n: nat :: n >= asked ==> answers(n) == Refuse || answers(n) == Withdrawn
    ensures var d := Decide(policies, call, answers, asked); d.policies == policies && d.asked >= asked
    decreases |policies|
  {
    hide DecideAlone;
    var parents, child := policies[..|policies| - 1], policies[|policies| - 1];
    assert policies == parents + [child];
    AloneUnchanged(child, call, answers, asked);
    if parents != [] {
      NothingGranted(parents, call, answers, asked);
      AloneUnchanged(child, call, answers, Decide(parents, call, answers, asked).asked);
    }
  }

  lemma AloneUnchanged(policy: Policy, call: Call, answers: nat -> Answer, asked: nat)
    requires answers(asked) == Refuse || answers(asked) == Withdrawn
    ensures var d := DecideAlone(policy, call, answers, asked); d.policies == [policy] && d.asked >= asked
  {
  }

  /** A user who permits everything is enough, unless a policy denies on its own. */
  lemma {:induction false} PermittedThroughout(policies: seq<Policy>, call: Call, answers: nat -> Answer, asked: nat)
    requires policies != [] && forall n: nat :: n >= asked ==> Permits(answers(n))
    requires forall i :: 0 <= i < |policies| ==> policies[i] != UnpromptedDeny && Willing(policies[i], call)
    ensures Decide(policies, call, answers, asked).allowed
    decreases |policies|
  {
    var parents, child := policies[..|policies| - 1], policies[|policies| - 1];
    if parents != [] {
      PermittedThroughout(parents, call, answers, asked);
      FreshWasAnswered(parents, call, answers, asked);
    }
  }

  /** Granted for good at every prompt, a call is remembered by every accepted-edits
      policy of the chain, and the same call is then allowed without a prompt. */
  lemma GrantLasts(policies: seq<Policy>, call: Call, answers: nat -> Answer, asked: nat, later: nat -> Answer)
    requires policies != [] && forall n: nat :: n >= asked ==> answers(n).AllowAlways?
    requires forall i :: 0 <= i < |policies| ==> policies[i].AutoApprove? || policies[i].AcceptedEdits?
    ensures var d := Decide(policies, call, answers, asked);
            var again := Decide(d.policies, call, later, d.asked);
            d.allowed && again.allowed && again.asked == d.asked && again.policies == d.policies
  {
    Remembers(policies, call, answers, asked);
    var d := Decide(policies, call, answers, asked);
    NothingToAsk(d.policies, call, later, d.asked);
  }

  lemma {:induction false} Remembers(policies: seq<Policy>, call: Call, answers: nat -> Answer, asked: nat)
    requires policies != [] && forall n: nat :: n >= asked ==> answers(n).AllowAlways?
    requires forall i :: 0 <= i < |policies| ==> policies[i].AutoApprove? || policies[i].AcceptedEdits?
    ensures var d := Decide(policies, call, answers, asked);
            && d.allowed && d.asked >= asked
            && forall i :: 0 <= i < |policies| ==>
                 && Settled(d.policies[i], call) && (d.policies[i].AutoApprove? || d.policies[i].AcceptedEdits?)
    decreases |policies|
  {
    var parents := policies[..|policies| - 1];
    if parents != [] {
      Remembers(parents, call, answers, asked);
    }
  }

  // ---- a conversation ----

  /** One agent of a chain over a conversation: its policies remember grants, and
      the user may switch the outermost one. */
  class Conversation {
    var policies: seq<Policy>
    /** Grants of the outermost accepted-edits policy, kept while another is active. */
    var accepted: seq<Call>
    var asked: nat
    const answers: nat -> Answer
    /** The calls that were permitted for good at some prompt. */
    ghost var remembered: set<Call>

    ghost predicate Valid()
      reads this
    {
      && policies != []
      && (forall i, call :: 0 <= i < |policies| && call in Grants(policies[i]) ==> call in remembered)
      && (forall call :: call in accepted ==> call in remembered)
    }

    constructor (policies: seq<Policy>, answers: nat -> Answer)
      requires policies != [] && forall i :: 0 <= i < |policies| ==> Grants(policies[i]) == []
      ensures Valid() && this.policies == policies && remembered == {} && this.answers == answers && asked == 0
    {
      this.policies, this.answers, accepted, asked, remembered := policies, answers, [], 0, {};
    }

    method Rule(call: Call) returns (allowed: bool)
      requires Valid()
      modifies this`policies, this`asked, this`remembered
      ensures Valid() && |policies| == |old(policies)| && asked >= old(asked)
      ensures allowed == Decide(old(policies), call, answers, old(asked)).allowed
      ensures remembered == old(remembered)
              || (remembered == old(remembered) + {call}
                  && exists n :: old(asked) <= n < asked && answers(n).AllowAlways?)
      ensures allowed && !FileTool(call.tool)
              && (exists i :: 0 <= i < |old(policies)| && old(policies)[i].AcceptedEdits?) ==>
                call in old(remembered) || exists n :: old(asked) <= n < asked && Permits(answers(n))
      ensures allowed && AlwaysAsk in old(policies) ==> exists n :: old(asked) <= n < asked && Permits(answers(n))
      ensures (exists i :: 0 <= i < |old(policies)| && KindOf(old(policies)[i]).DenyKind?) ==> !allowed
    {
      var d := Decide(policies, call, answers, asked);
      Consequences(policies, call, answers, asked, remembered);
      if exists i :: 0 <= i < |policies| && Grants(d.policies[i]) != Grants(policies[i]) {
        remembered := remembered + {call};
      }
      forall i | 0 <= i < |policies|
        ensures forall g :: g in Grants(d.policies[i]) ==> g in Grants(policies[i]) || g == call
      {
        GrantsGrow(policies, i, call, answers, asked);
      }
      policies, asked, allowed := d.policies, d.asked, d.allowed;
    }

    /** Switch the outermost policy. Its accepted edits come back as they were. */
    method Switch(policy: Policy) returns (ok: bool)
      requires Valid() && !policy.AcceptedEdits?
      modifies this`policies, this`accepted
      ensures Valid() && ok && policies[0] == policy && policies[1..] == old(policies)[1..]
      ensures accepted == if old(policies)[0].AcceptedEdits? then old(policies)[0].grants else old(accepted)
    {
      if policies[0].AcceptedEdits? {
        assert forall call :: call in policies[0].grants ==> call in Grants(policies[0]);
        accepted := policies[0].grants;
      }
      policies := policies[0 := policy];
      ok := true;
    }

    method SwitchToAcceptedEdits()
      requires Valid()
      modifies this`policies
      ensures Valid() && policies[1..] == old(policies)[1..]
      ensures policies[0] == if old(policies)[0].AcceptedEdits? then old(policies)[0] else AcceptedEdits(accepted)
    {
      if !policies[0].AcceptedEdits? {
        policies := policies[0 := AcceptedEdits(accepted)];
      }
    }
  }

  lemma Consequences(policies: seq<Policy>, call: Call, answers: nat -> Answer, asked: nat, remembered: set<Call>)
    requires policies != []
    requires forall i, call :: 0 <= i < |policies| && call in Grants(policies[i]) ==> call in remembered
    ensures var d := Decide(policies, call, answers, asked);
            && asked <= d.asked
            && ((exists i :: 0 <= i < |policies| && Grants(d.policies[i]) != Grants(policies[i])) ==>
                  exists n :: asked <= n < d.asked && answers(n).AllowAlways?)
            && (d.allowed && !FileTool(call.tool) && (exists i :: 0 <= i < |policies| && policies[i].AcceptedEdits?) ==>
                  call in remembered || exists n :: asked <= n < d.asked && Permits(answers(n)))
            && (d.allowed && AlwaysAsk in policies ==> exists n :: asked <= n < d.asked && Permits(answers(n)))
            && ((exists i :: 0 <= i < |policies| && KindOf(policies[i]).DenyKind?) ==> !d.allowed)
  {
    var d := Decide(policies, call, answers, asked);
    FreshWasAnswered(policies, call, answers, asked);
    if i :| 0 <= i < |policies| && Grants(d.policies[i]) != Grants(policies[i]) {
      GrantsGrow(policies, i, call, answers, asked);
    }
    if i :| 0 <= i < |policies| && policies[i].AcceptedEdits? && !FileTool(call.tool) {
      EditsNeedGrant(policies, i, call, answers, asked);
      assert call in policies[i].grants ==> call in Grants(policies[i]);
    }
    if AlwaysAsk in policies {
      AskAsks(policies, call, answers, asked);
    }
    if exists i :: 0 <= i < |policies| && KindOf(policies[i]).DenyKind? {
      DenyDenies(policies, call, answers, asked);
    }
  }
}
