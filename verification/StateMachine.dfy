/** Claim statuses, the transition guard, and the amount-tiered approval chain. */
module StateMachine {
  import opened Decimal

  datatype Role = Employee | Manager | Finance | Admin
  datatype Status = Draft | Submitted | Approved | Rejected | Paid | Cancelled
  datatype StepStatus = PendingStep | ApprovedStep | RejectedStep
  datatype Action = SubmitAction | ApproveAction | RejectAction | CancelAction | PayAction

  predicate CanTransition(from: Status, action: Action) {
    match action
    case SubmitAction => from == Draft || from == Rejected
    case ApproveAction => from == Submitted
    case RejectAction => from == Submitted
    case CancelAction => from == Submitted
    case PayAction => from == Approved
  }

  function ApprovalChain(amount: string, t1: string, t2: string): seq<Role> {
    if CompareNumeric(amount, t1) <= 0 then [Manager]
    else if CompareNumeric(amount, t2) <= 0 then [Manager, Finance]
    else [Manager, Finance, Admin]
  }

  /** The chain without the steps the submitter would fill. */
  function Without(chain: seq<Role>, submitter: Role): seq<Role> {
    if chain == [] then []
    else Without(chain[..|chain| - 1], submitter) + (if chain[|chain| - 1] == submitter then [] else [chain[|chain| - 1]])
  }

  method ExcludeSubmitter(chain: seq<Role>, submitter: Role) returns (out: seq<Role>)
    ensures out == Without(chain, submitter)
  {
    out := [];
    for i := 0 to |chain|
      invariant out == Without(chain[..i], submitter)
    {
      assert chain[..i + 1][..i] == chain[..i];
      if chain[i] != submitter {
        out := out + [chain[i]];
      }
    }
    assert chain[..|chain|] == chain;
  }

  /** The first pending position, or -1. */
  function FirstPending(statuses: seq<StepStatus>): (i: int)
    ensures -1 <= i < |statuses|
    ensures i >= 0 ==> statuses[i] == PendingStep && forall j :: 0 <= j < i ==> statuses[j] != PendingStep
    ensures i == -1 ==> forall j :: 0 <= j < |statuses| ==> statuses[j] != PendingStep
  {
    if statuses == [] then -1
    else if statuses[0] == PendingStep then 0
    else
      var rest := FirstPending(statuses[1..]);
      assert forall j :: 1 <= j < |statuses| ==> statuses[j] == statuses[1..][j - 1];
      if rest == -1 then -1 else rest + 1
  }

  method NextPendingIndex(statuses: seq<StepStatus>) returns (i: int)
    ensures i == FirstPending(statuses)
  {
    i := 0;
    while i < |statuses|
      invariant 0 <= i <= |statuses|
      invariant forall j :: 0 <= j < i ==> statuses[j] != PendingStep
    {
      if statuses[i] == PendingStep {
        return;
      }
      i := i + 1;
    }
    i := -1;
  }

  // ---------- the tiers ----------

  function Rank(r: Role): int {
    match r
    case Employee => 0
    case Manager => 1
    case Finance => 2
    case Admin => 3
  }

  /** Approver roles in strictly climbing order; hence without repetition, and never an employee. */
  predicate Ladder(chain: seq<Role>) {
    && (forall i :: 0 <= i < |chain| ==> chain[i] != Employee)
    && (forall i, j :: 0 <= i < j < |chain| ==> Rank(chain[i]) < Rank(chain[j]))
  }

  /** The approval matrix on exact cents. */
  function Tier(amount: nat, t1: nat, t2: nat): seq<Role> {
    if amount <= t1 then [Manager]
    else if amount <= t2 then [Manager, Finance]
    else [Manager, Finance, Admin]
  }

  /** The string-level chain is the matrix on exact cents. */
  lemma ChainIsTier(amount: string, t1: string, t2: string)
    requires Readable(amount) && Readable(t1) && Readable(t2)
    ensures ApprovalChain(amount, t1, t2) == Tier(FloorCents(amount), FloorCents(t1), FloorCents(t2))
  {
    CompareIsOrder(amount, t1);
    CompareIsOrder(amount, t2);
  }

  lemma {:induction false} WithoutInvents(chain: seq<Role>, r: Role, x: Role)
    requires x in Without(chain, r)
    ensures x in chain && x != r
  {
    var front := chain[..|chain| - 1];
    if x in Without(front, r) {
      WithoutInvents(front, r, x);
    }
  }

  /** Dropping the submitter keeps the order. */
  lemma {:induction false} WithoutClimbs(chain: seq<Role>, r: Role)
    requires Ladder(chain)
    ensures Ladder(Without(chain, r))
  {
    if chain != [] {
      var front, last := chain[..|chain| - 1], chain[|chain| - 1];
      var kept := Without(front, r);
      WithoutClimbs(front, r);
      forall i | 0 <= i < |kept| ensures Rank(kept[i]) < Rank(last) {
        WithoutInvents(front, r, kept[i]);
        var k :| 0 <= k < |front| && front[k] == kept[i];
        assert chain[k] == kept[i];
      }
    }
  }

  lemma {:induction false} WithoutPrefix(a: seq<Role>, b: seq<Role>, r: Role)
    requires a <= b
    ensures Without(a, r) <= Without(b, r)
  {
    if |a| < |b| {
      WithoutPrefix(a, b[..|b| - 1], r);
    } else {
      assert a == b;
    }
  }

  lemma {:induction false} WithoutOthers(chain: seq<Role>, r: Role, x: Role)
    requires x in chain && x != r
    ensures x in Without(chain, r)
  {
    if chain[|chain| - 1] != x {
      WithoutOthers(chain[..|chain| - 1], r, x);
    }
  }

  lemma WithoutLast(front: seq<Role>, last: Role, r: Role)
    ensures Without([], r) == []
    ensures Without(front + [last], r) == Without(front, r) + (if last == r then [] else [last])
  {
    assert (front + [last])[..|front|] == front;
  }

  /** The chains that remain of the matrix's rows without one role. */
  lemma MatrixWithout(r: Role)
    ensures Without([Manager], r) == if r == Manager then [] else [Manager]
    ensures Without([Manager, Finance], r)
         == if r == Manager then [Finance] else if r == Finance then [Manager] else [Manager, Finance]
    ensures Without([Manager, Finance, Admin], r)
         == if r == Manager then [Finance, Admin] else if r == Finance then [Manager, Admin]
            else if r == Admin then [Manager, Finance] else [Manager, Finance, Admin]
  {
    hide Without;
    WithoutLast([], Manager, r);
    WithoutLast([Manager], Finance, r);
    WithoutLast([Manager, Finance], Admin, r);
    assert [] + [Manager] == [Manager] && [Manager] + [Finance] == [Manager, Finance];
    assert [Manager, Finance] + [Admin] == [Manager, Finance, Admin];
  }

  lemma MatrixClimbs()
    ensures Ladder([Manager]) && Ladder([Manager, Finance]) && Ladder([Manager, Finance, Admin])
  {
  }

  lemma ChainClimbs(amount: string, t1: string, t2: string)
    ensures var chain := ApprovalChain(amount, t1, t2);
      && Ladder(chain) && |chain| > 0 && chain[0] == Manager
      && (|chain| > 1 ==> chain[1] == Finance)
      && (|chain| == 1 <==> CompareNumeric(amount, t1) <= 0)
  {
    MatrixClimbs();
  }

  /** A larger amount never compares lower against any threshold text. */
  lemma CompareMonotone(a: string, b: string, t: string)
    requires Readable(a) && Readable(b) && FloorCents(a) <= FloorCents(b)
    ensures CompareNumeric(a, t) <= CompareNumeric(b, t)
  {
    SplitIsFloor(a);
    SplitIsFloor(b);
  }

  /** For amounts a <= b and any threshold texts, the chain of a is a prefix of the chain of b. */
  lemma ChainMonotone(a: string, b: string, t1: string, t2: string)
    requires Readable(a) && Readable(b) && FloorCents(a) <= FloorCents(b)
    ensures ApprovalChain(a, t1, t2) <= ApprovalChain(b, t1, t2)
  {
    CompareMonotone(a, b, t1);
    CompareMonotone(a, b, t2);
  }

  /** Paying more never drops an approver: the submitter-free chain of a is a prefix of the one of b. */
  lemma FilteredChainMonotone(a: string, b: string, t1: string, t2: string, submitter: Role)
    requires Readable(a) && Readable(b) && FloorCents(a) <= FloorCents(b)
    ensures Without(ApprovalChain(a, t1, t2), submitter) <= Without(ApprovalChain(b, t1, t2), submitter)
  {
    ChainMonotone(a, b, t1, t2);
    WithoutPrefix(ApprovalChain(a, t1, t2), ApprovalChain(b, t1, t2), submitter);
  }

  /** Any chain the matrix produces, whatever the texts, climbs strictly and skips the submitter; it is empty exactly
      for a manager's claim in the lowest tier. */
  lemma FilteredChainClimbs(amount: string, t1: string, t2: string, submitter: Role)
    ensures Ladder(Without(ApprovalChain(amount, t1, t2), submitter))
    ensures submitter !in Without(ApprovalChain(amount, t1, t2), submitter)
    ensures Without(ApprovalChain(amount, t1, t2), submitter) == []
       <==> submitter == Manager && CompareNumeric(amount, t1) <= 0
  {
    var chain := ApprovalChain(amount, t1, t2);
    ChainClimbs(amount, t1, t2);
    WithoutClimbs(chain, submitter);
    if submitter in Without(chain, submitter) {
      WithoutInvents(chain, submitter, submitter);
    }
    if submitter != Manager {
      WithoutOthers(chain, submitter, Manager);
    } else if |chain| > 1 {
      WithoutOthers(chain, submitter, Finance);
    } else {
      assert chain == [Manager] && chain[..0] == [];
    }
  }
}
