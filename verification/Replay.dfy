/** Reading a claim's history back from the audit log, and what the log alone cannot tell. */
module Replay {
  import opened Wrappers
  import opened Decimal
  import opened StateMachine
  import opened Ledger
  import opened Requests
  import opened Lifecycle

  datatype Phase = Unsubmitted | Open | Closed | Withdrawn | Settled

  /** A decision the log records. */
  datatype Acted = Acted(role: Role, approver: UserId, status: StepStatus, note: string)

  /** What the log says of one claim; `Broken` for a log no workflow writes. */
  datatype View = View(phase: Phase, amount: string, acted: seq<Acted>) | Broken

  /** One more entry of the claim. Step numbers must be consecutive, and nothing may follow a cancellation or payment. */
  function Advance(v: View, e: Entry): View {
    if v.Broken? then Broken
    else
      match e.action
      case SubmitLogged(amount) =>
        if v.phase == Unsubmitted || v.phase == Closed then View(Open, amount, []) else Broken
      case ApproveLogged(step, role) =>
        if v.phase == Open && step == |v.acted| + 1
        then v.(acted := v.acted + [Acted(role, e.actor, ApprovedStep, "")])
        else Broken
      case RejectLogged(step, role, note) =>
        if v.phase == Open && step == |v.acted| + 1
        then v.(phase := Closed, acted := v.acted + [Acted(role, e.actor, RejectedStep, note)])
        else Broken
      case CancelLogged(_) => if v.phase == Open && v.acted == [] then v.(phase := Withdrawn) else Broken
      case PayLogged(_) => if v.phase == Open && v.acted != [] then v.(phase := Settled) else Broken
  }

  function Replayed(log: seq<Entry>, id: ClaimId): View {
    if log == [] then View(Unsubmitted, "", [])
    else
      var before := Replayed(log[..|log| - 1], id);
      if log[|log| - 1].claim == id then Advance(before, log[|log| - 1]) else before
  }

  /** The claim's status, given the log's view and the number of approvals its submission asked for. */
  function StatusOf(v: View, n: nat): Status
    requires v.View?
  {
    match v.phase
    case Unsubmitted => Draft
    case Open => if |v.acted| == n then Approved else Submitted
    case Closed => Rejected
    case Withdrawn => Cancelled
    case Settled => Paid
  }

  function ActedRow(s: Step): Acted
    requires s.approver.Some?
  {
    Acted(s.role, s.approver.value, s.status, s.note)
  }

  /** The log's view agrees with a claim row: same status, and the decisions it lists are the acted rows, in order. */
  predicate Agrees(v: View, c: Claim) {
    && v.View?
    && c.status == StatusOf(v, |c.steps|)
    && (c.status == Draft ==> v.acted == [])
    && |v.acted| <= |c.steps|
    && (forall i :: 0 <= i < |v.acted| ==> c.steps[i].approver.Some? && v.acted[i] == ActedRow(c.steps[i]))
    && (forall i :: |v.acted| <= i < |c.steps| ==> c.steps[i] == Step(c.steps[i].role, PendingStep, None, ""))
  }

  lemma ReplayAppend(log: seq<Entry>, e: Entry, id: ClaimId)
    ensures Replayed(log + [e], id) == if e.claim == id then Advance(Replayed(log, id), e) else Replayed(log, id)
  {
    assert (log + [e])[..|log|] == log;
  }

  // ---------- each logged transaction advances the view as it changes the row ----------

  lemma SubmitAgrees(v: View, c: Claim, chain: seq<Role>, e: Entry, amount: string)
    requires Agrees(v, c) && CanTransition(c.status, SubmitAction) && chain != []
    requires e.action == SubmitLogged(amount)
    ensures Agrees(Advance(v, e), Resubmitted(c, chain)) && Advance(v, e).amount == amount
  {
  }

  /** In a submitted claim the log lists exactly the decisions before `current_step`. */
  lemma ActedBeforeCurrent(v: View, c: Claim)
    requires Agrees(v, c) && StepsFit(c) && ApproversSound(c) && c.status == Submitted
    ensures |v.acted| == c.currentStep - 1
  {
    assert c.steps[c.currentStep - 1].approver == None;
    assert |v.acted| < |c.steps| ==> c.steps[|v.acted|].status == PendingStep;
  }

  lemma ApproveAgrees(v: View, c: Claim, e: Entry)
    requires Agrees(v, c) && StepsFit(c) && ApproversSound(c) && c.status == Submitted
    requires e.action == ApproveLogged(c.currentStep, c.steps[c.currentStep - 1].role)
    ensures Agrees(Advance(v, e), ApprovedAt(c, c.currentStep - 1, e.actor)) && Advance(v, e).amount == v.amount
  {
    ActedBeforeCurrent(v, c);
  }

  lemma RejectAgrees(v: View, c: Claim, e: Entry, note: string)
    requires Agrees(v, c) && StepsFit(c) && ApproversSound(c) && c.status == Submitted
    requires e.action == RejectLogged(c.currentStep, c.steps[c.currentStep - 1].role, note)
    ensures Agrees(Advance(v, e), RejectedAt(c, c.currentStep - 1, e.actor, note)) && Advance(v, e).amount == v.amount
  {
    ActedBeforeCurrent(v, c);
  }

  lemma CancelAgrees(v: View, c: Claim, e: Entry, amount: string)
    requires Agrees(v, c) && StepsFit(c) && ApproversSound(c) && c.status == Submitted && c.currentStep == 1
    requires e.action == CancelLogged(amount)
    ensures Agrees(Advance(v, e), c.(status := Cancelled)) && Advance(v, e).amount == v.amount
  {
    ActedBeforeCurrent(v, c);
  }

  lemma PayAgrees(v: View, c: Claim, e: Entry, amount: string)
    requires Agrees(v, c) && StepsFit(c) && c.status == Approved && e.action == PayLogged(amount)
    ensures Agrees(Advance(v, e), c.(status := Paid)) && Advance(v, e).amount == v.amount
  {
  }

  /** Edits, deletion and receipts are not logged and change nothing the log speaks of. */
  lemma UnloggedAgrees(v: View, c: Claim, c': Claim)
    requires Agrees(v, c) && c'.steps == c.steps && c'.status == c.status
    ensures Agrees(v, c')
  {
  }

  // ---------- what the log alone tells ----------

  function ActedRoles(v: View): (out: seq<Role>)
    requires v.View?
    ensures |out| == |v.acted| && forall i :: 0 <= i < |out| ==> out[i] == v.acted[i].role
  {
    seq(|v.acted|, i requires 0 <= i < |v.acted| => v.acted[i].role)
  }

  /** A submitter of this role could have left this history under this chain. */
  predicate Explains(chain: seq<Role>, v: View, submitter: Role)
    requires v.View?
  {
    Without(chain, submitter) != [] && ActedRoles(v) <= Without(chain, submitter)
  }

  /** All roles but the chain's last have approved, and nothing followed: the last step may or may not be the
      submitter's own, and dropped. */
  predicate LastStepOpen(chain: seq<Role>, v: View)
    requires v.View? && chain != []
  {
    v.phase == Open && |chain| >= 2 && ActedRoles(v) == chain[..|chain| - 1]
  }

  /** The log and the matrix give back a claim's status without the submitter's role if and only if it is not the case
      that every role of the chain but the last has approved and nothing followed. */
  lemma LogDecidesStatusIff(cfg: Config, v: View)
    requires v.View?
    ensures var chain := ApprovalChain(v.amount, cfg.t1, cfg.t2);
      (forall q, r :: Explains(chain, v, q) && Explains(chain, v, r) ==>
        StatusOf(v, |Without(chain, q)|) == StatusOf(v, |Without(chain, r)|))
      <==> !LastStepOpen(chain, v)
  {
    hide CompareNumeric, Without;
    var chain := ApprovalChain(v.amount, cfg.t1, cfg.t2);
    forall r { MatrixWithout(r); }
    if LastStepOpen(chain, v) {
      LastStepAmbiguous(chain, v);
    }
  }

  lemma LastStepAmbiguous(chain: seq<Role>, v: View)
    requires v.View? && (chain == [Manager, Finance] || chain == [Manager, Finance, Admin]) && LastStepOpen(chain, v)
    ensures var last := chain[|chain| - 1];
      && Explains(chain, v, Employee) && StatusOf(v, |Without(chain, Employee)|) == Submitted
      && Explains(chain, v, last) && StatusOf(v, |Without(chain, last)|) == Approved
  {
    hide Without;
    MatrixWithout(Employee);
    MatrixWithout(chain[|chain| - 1]);
  }

  /** A log that replays at all mentions a claim no more after paying or cancelling it. */
  lemma {:induction false} FinalEntryIsLast(log: seq<Entry>, id: ClaimId, k: nat, j: nat)
    requires Replayed(log, id).View? && k < j < |log| && log[k].claim == id
    requires log[k].action.PayLogged? || log[k].action.CancelLogged?
    ensures log[j].claim != id
  {
    FinalEntryHolds(log, id, k);
    var last := |log| - 1;
    if j < last {
      assert log[..last][k] == log[k] && log[..last][j] == log[j];
      FinalEntryIsLast(log[..last], id, k, j);
    } else {
      assert log[..last][k] == log[k];
      FinalEntryHolds(log[..last], id, k);
    }
  }

  lemma {:induction false} FinalEntryHolds(log: seq<Entry>, id: ClaimId, k: nat)
    requires Replayed(log, id).View? && k < |log| && log[k].claim == id
    requires log[k].action.PayLogged? || log[k].action.CancelLogged?
    ensures Replayed(log, id).phase == Settled || Replayed(log, id).phase == Withdrawn
  {
    var last := |log| - 1;
    if k < last {
      assert log[..last][k] == log[k];
      FinalEntryHolds(log[..last], id, k);
    }
  }
}
