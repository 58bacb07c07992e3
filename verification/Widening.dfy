/**
 Change widening: a withdrawal splits its change into enough notes to replace the ones it spends and to make
 up what the wallet lacks. A wider split costs more, which can select more notes, so the plan is repeated.
 */
module Widening {
  import opened Common

  /** How far the wallet is below its target, and the widest split allowed; (0, 0) leaves change whole. */
  datatype Policy = Policy(deficit: int, widest: nat)

  const UNSPLIT := 0

  /** The number of change notes to ask for when so many unreserved notes are spent. */
  function Options(p: Policy, spends: nat): nat {
    var want := p.deficit + Max(spends, 1);
    if p.widest < 2 || want < 2 then UNSPLIT else Min(want, p.widest)
  }

  /** What the scanner says of a reserved note. */
  datatype NoteState = Unspent | Pending | Spent

  function UnspentAmong(reserved: seq<Token>, statuses: map<Token, NoteState>): nat {
    if reserved == [] then 0
    else
      UnspentAmong(reserved[..|reserved| - 1], statuses) +
      if reserved[|reserved| - 1] in statuses && statuses[reserved[|reserved| - 1]].Unspent? then 1 else 0
  }

  predicate IsUnspent(reserved: seq<Token>, statuses: map<Token, NoteState>, i: nat) {
    i < |reserved| && reserved[i] in statuses && statuses[reserved[i]] == Unspent
  }

  /** Reserved notes count once each when the scanner calls them unspent, and not otherwise. */
  lemma {:induction false} UnspentAmongCounts(reserved: seq<Token>, statuses: map<Token, NoteState>)
    ensures UnspentAmong(reserved, statuses) == |set i | 0 <= i < |reserved| && IsUnspent(reserved, statuses, i)|
  {
    var all := set i | 0 <= i < |reserved| && IsUnspent(reserved, statuses, i);
    if reserved != [] {
      var n := |reserved| - 1;
      var before := reserved[..n];
      UnspentAmongCounts(before, statuses);
      var earlier := set i | 0 <= i < |before| && IsUnspent(before, statuses, i);
      assert forall i: nat | i < n :: IsUnspent(before, statuses, i) <==> IsUnspent(reserved, statuses, i);
      assert all == if IsUnspent(reserved, statuses, n) then earlier + {n} else earlier;
    }
  }

  function Unreserved(spendable: nat, reserved: seq<Token>, statuses: map<Token, NoteState>): nat {
    Max(spendable - UnspentAmong(reserved, statuses), 0)
  }

  /** Splitting is off, or the scanner or the store did not answer: leave the change whole. */
  method SplitPolicy(target: nat, widest: nat, isSplit: bool, spendable: Option<nat>, reserved: Option<seq<Token>>,
                     statuses: map<Token, NoteState>) returns (p: Policy)
    ensures p == if target < 1 || widest < 2 || isSplit || spendable.None? || reserved.None? then Policy(0, 0)
                 else Policy(target - Unreserved(spendable.value, reserved.value, statuses), widest)
  {
    if target < 1 || widest < 2 || isSplit { return Policy(0, 0); }
    if spendable.None? || reserved.None? { return Policy(0, 0); }
    var count := 0;
    for i := 0 to |reserved.value|
      invariant count == UnspentAmong(reserved.value[..i], statuses)
    {
      assert reserved.value[..i + 1][..i] == reserved.value[..i];
      var note := reserved.value[i];
      if note in statuses && statuses[note].Unspent? { count := count + 1; }
    }
    assert reserved.value[..|reserved.value|] == reserved.value;
    return Policy(target - Max(spendable.value - count, 0), widest);
  }

  datatype Plan = Plan(spends: nat, change: nat)

  /** The planner's answer to its k-th call with a split. */
  type Planner = (nat, nat) -> Option<Plan>

  /** A plan honours its split: it pays that many change notes, or one when the change is left whole. */
  predicate Honours(plan: Plan, split: nat) {
    plan.change == if split == UNSPLIT then 1 else split
  }

  /** Widens until the split covers the selection or a wider plan fails. The plan kept is always the answer
      to the split it is kept with, splits only grow, and the counter is never what ends the loop: it
      allows `counter` rounds, and the widest split is reached in fewer. */
  method Widen(p: Policy, counter: nat, planner: Planner, first: Plan)
    returns (plan: Plan, split: nat, calls: nat, failed: bool)
    requires p.widest <= counter && planner(0, Options(p, 1)) == Some(first)
    ensures calls <= counter && Some(plan) == planner(calls, split) && Options(p, 1) <= split <= p.widest
    ensures failed ==> planner(calls + 1, Options(p, plan.spends)).None? && Options(p, plan.spends) > split
    ensures !failed ==> Options(p, plan.spends) <= split
    ensures !failed && 2 <= p.widest && split < p.widest && Honours(plan, split) ==>
            plan.change - plan.spends >= p.deficit
    ensures calls > 0 ==> split > calls
    ensures split == UNSPLIT || 2 <= split
  {
    plan, split, calls, failed := first, Options(p, 1), 0, false;
    while calls < counter
      invariant calls <= counter && Some(plan) == planner(calls, split)
      invariant Options(p, 1) <= split <= p.widest && (calls > 0 ==> split > calls)
      invariant split == UNSPLIT || 2 <= split
    {
      var wider := Options(p, plan.spends);
      if wider <= split { return; }
      var answer := planner(calls + 1, wider);
      if answer.None? {
        failed := true;
        return;
      }
      plan, split, calls := answer.value, wider, calls + 1;
    }
  }

  /** Below the widest split, mining the plan leaves the wallet with its target of unreserved notes exactly
      when the split covers the selection; at the widest split it leaves the target or all that split can
      give back. */
  lemma TargetReachedExactlyWhenCovered(target: nat, unreserved: nat, widest: nat, plan: Plan, split: nat)
    requires widest >= 2 && (split == UNSPLIT || 2 <= split <= widest) && plan.spends >= 1 && Honours(plan, split)
    ensures var covered := Options(Policy(target - unreserved, widest), plan.spends) <= split;
            var left := unreserved - plan.spends + plan.change;
            if split < widest then covered <==> left >= target
            else covered && left >= Min(target, unreserved - plan.spends + widest)
  {
  }
}
