/** What one claim row looks like in each status, and why every transaction keeps it so. */
module Lifecycle {
  import opened Wrappers
  import opened Calendar
  import opened StateMachine
  import opened Ledger
  import opened Requests

  /** Rows lo..hi have status st. */
  predicate Stretch(steps: seq<Step>, lo: nat, hi: nat, st: StepStatus) {
    lo <= hi <= |steps| && forall i :: lo <= i < hi ==> steps[i].status == st
  }

  /** How the approval rows and `current_step` fit the status. */
  predicate StepsFit(c: Claim) {
    var n, k := |c.steps|, c.currentStep;
    match c.status
    case Draft => n == 0 && k == 0
    case Submitted => 1 <= k <= n && Stretch(c.steps, 0, k - 1, ApprovedStep) && Stretch(c.steps, k - 1, n, PendingStep)
    case Rejected =>
      && 1 <= k <= n && Stretch(c.steps, 0, k - 1, ApprovedStep)
      && c.steps[k - 1].status == RejectedStep && Stretch(c.steps, k, n, PendingStep)
    case Approved => 1 <= n == k && Stretch(c.steps, 0, n, ApprovedStep)
    case Paid => 1 <= n == k && Stretch(c.steps, 0, n, ApprovedStep)
    case Cancelled => 1 <= n && k == 1 && Stretch(c.steps, 0, n, PendingStep)
  }

  /** A row has an approver exactly when it was acted on, and that approver is not the claim's owner. */
  predicate ApproversSound(c: Claim) {
    forall i :: 0 <= i < |c.steps| ==>
      && (c.steps[i].status == PendingStep <==> c.steps[i].approver == None)
      && c.steps[i].approver != Some(c.employee)
  }

  function Roles(steps: seq<Step>): (out: seq<Role>)
    ensures |out| == |steps| && forall i :: 0 <= i < |steps| ==> out[i] == steps[i].role
  {
    seq(|steps|, i requires 0 <= i < |steps| => steps[i].role)
  }

  /** The header amount is what the items cost, at least one cent and within its column. */
  predicate AmountSound(c: Claim) {
    RowsAccepted(c.items) && c.amount == Priced(c.items) && 1 <= c.amount && AmountAccepted(c.amount)
  }

  predicate ClaimSound(c: Claim) {
    StepsFit(c) && ApproversSound(c) && Ladder(Roles(c.steps)) && AmountSound(c)
  }

  // ---------- what the scans find ----------

  /** In a submitted claim the scan for the first pending row lands on `current_step`. */
  lemma PendingIsCurrent(c: Claim)
    requires StepsFit(c) && c.status == Submitted
    ensures FirstPending(Statuses(c.steps)) == c.currentStep - 1
  {
    var st := Statuses(c.steps);
    assert st[c.currentStep - 1] == PendingStep;
    assert forall j :: 0 <= j < c.currentStep - 1 ==> st[j] == ApprovedStep;
  }

  lemma {:induction false} NothingActed(steps: seq<Step>)
    ensures ActedCount(steps) == 0 <==> Stretch(steps, 0, |steps|, PendingStep)
  {
    if steps != [] {
      var front := steps[..|steps| - 1];
      NothingActed(front);
      assert forall i :: 0 <= i < |front| ==> front[i] == steps[i];
    }
  }

  /** Nothing was acted on in a submitted claim exactly while `current_step` is still 1. */
  lemma CancelWindow(c: Claim)
    requires StepsFit(c) && c.status == Submitted
    ensures ActedCount(c.steps) == 0 <==> c.currentStep == 1
  {
    NothingActed(c.steps);
    if c.currentStep > 1 {
      assert c.steps[0].status == ApprovedStep;
    }
  }

  // ---------- amounts ----------

  /** A request within the binding bounds never overflows the generated line total. */
  lemma LineFits(it: Item)
    requires it.quantity <= 10000 && it.unitPrice <= MAX_UNIT_PRICE
    ensures LineTotal(it) < NUMERIC_16_2
  {
    assert it.quantity * it.unitPrice <= 10000 * it.unitPrice by {
      assert (10000 - it.quantity) * it.unitPrice >= 0;
    }
  }

  lemma LinePositive(it: Item)
    requires RowAccepted(it)
    ensures LineTotal(it) >= 1
  {
    assert it.quantity * it.unitPrice >= it.unitPrice by {
      assert (it.quantity - 1) * it.unitPrice >= 0;
    }
  }

  lemma ItemsPositive(items: seq<Item>)
    requires RowsAccepted(items) && items != []
    ensures ItemsTotal(items) >= 1
  {
    LinePositive(items[|items| - 1]);
  }

  // ---------- every transaction keeps a claim sound ----------

  lemma NewClaimSound(user: UserId, category: CategoryId, date: Date, items: seq<Item>)
    requires items != [] && RowsAccepted(items) && AmountAccepted(ItemsTotal(items))
    ensures ClaimSound(NewClaim(user, category, date, items))
  {
    ItemsPositive(items);
    ItemsTotalIsPriced(items);
  }

  lemma EditedSound(c: Claim, category: CategoryId, date: Date, items: seq<Item>)
    requires ClaimSound(c) && items != [] && RowsAccepted(items) && AmountAccepted(ItemsTotal(items))
    ensures ClaimSound(Edited(c, category, date, items)) && Edited(c, category, date, items).amount == Priced(items)
  {
    hide RowsAccepted, AmountAccepted, ItemsTotal, Priced;
    ItemsPositive(items);
    ItemsTotalIsPriced(items);
  }

  lemma ResubmittedSound(c: Claim, chain: seq<Role>)
    requires ClaimSound(c) && chain != [] && Ladder(chain)
    ensures ClaimSound(Resubmitted(c, chain)) && Roles(Resubmitted(c, chain).steps) == chain
  {
    hide AmountSound;
    assert Roles(FreshSteps(chain)) == chain;
    assert AmountSound(Resubmitted(c, chain)) by { AmountUntouched(c, Resubmitted(c, chain)); }
  }

  lemma AmountUntouched(c: Claim, c': Claim)
    requires AmountSound(c) && c'.items == c.items && c'.amount == c.amount
    ensures AmountSound(c')
  {
  }

  lemma ApprovedAtSound(c: Claim, user: UserId)
    requires ClaimSound(c) && c.status == Submitted && user != c.employee
    ensures ClaimSound(ApprovedAt(c, c.currentStep - 1, user))
    ensures Roles(ApprovedAt(c, c.currentStep - 1, user).steps) == Roles(c.steps)
  {
    hide AmountSound;
    var c' := ApprovedAt(c, c.currentStep - 1, user);
    assert Roles(c'.steps) == Roles(c.steps);
    AmountUntouched(c, c');
  }

  lemma RejectedAtSound(c: Claim, user: UserId, note: string)
    requires ClaimSound(c) && c.status == Submitted && user != c.employee
    ensures ClaimSound(RejectedAt(c, c.currentStep - 1, user, note))
    ensures Roles(RejectedAt(c, c.currentStep - 1, user, note).steps) == Roles(c.steps)
  {
    hide AmountSound;
    var c' := RejectedAt(c, c.currentStep - 1, user, note);
    assert Roles(c'.steps) == Roles(c.steps);
    AmountUntouched(c, c');
  }

  lemma CancelledSound(c: Claim)
    requires ClaimSound(c) && c.status == Submitted && c.currentStep == 1
    ensures ClaimSound(c.(status := Cancelled))
  {
    hide AmountSound;
    AmountUntouched(c, c.(status := Cancelled));
  }

  lemma PaidSound(c: Claim)
    requires ClaimSound(c) && c.status == Approved
    ensures ClaimSound(c.(status := Paid))
  {
    hide AmountSound;
    AmountUntouched(c, c.(status := Paid));
  }
}
