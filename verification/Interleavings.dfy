/** What holds of every claim in every interleaved run from the empty database. */
module Interleavings {
  import opened Wrappers
  import opened Decimal
  import opened StateMachine
  import opened Ledger
  import opened Requests
  import opened Lifecycle
  import opened Replay
  import opened Machine

  /** The state a run from the empty database ends in. */
  function Reached(cfg: Config, evs: seq<Event>): State {
    Exec(cfg, INIT, evs)
  }

  lemma ReachedSound(cfg: Config, evs: seq<Event>)
    ensures Inv(cfg, Reached(cfg, evs))
  {
    InitInv(cfg);
    RunKeepsInv(cfg, INIT, evs);
  }

  lemma ReachedRow(cfg: Config, evs: seq<Event>, id: ClaimId)
    requires id < |Reached(cfg, evs).db.claims|
    ensures RowSound(cfg, Reached(cfg, evs).db, Reached(cfg, evs).submitters, id)
  {
    ReachedSound(cfg, evs);
  }

  /** The approval rows and `current_step` fit the status, whatever interleaved. */
  lemma StepsAlwaysFit(cfg: Config, evs: seq<Event>, id: ClaimId)
    requires id < |Reached(cfg, evs).db.claims|
    ensures StepsFit(Reached(cfg, evs).db.claims[id])
  {
    ReachedRow(cfg, evs, id);
  }

  /** Header amounts are what the items cost, at least one cent and below 10^12, whatever interleaved. */
  lemma AmountsAlwaysExact(cfg: Config, evs: seq<Event>, id: ClaimId)
    requires id < |Reached(cfg, evs).db.claims|
    ensures var c := Reached(cfg, evs).db.claims[id];
      && c.amount == Priced(c.items) && 1 <= c.amount < 1_000_000_000_000_00
      && (forall it :: it in c.items ==> 1 <= it.quantity && 1 <= it.unitPrice <= 999_999_999_00)
  {
    ReachedRow(cfg, evs, id);
  }

  /** The approvals a submission of the logged amount asks for, given its submitter's role. */
  function LoggedChain(cfg: Config, v: View, submitters: map<ClaimId, Role>, id: ClaimId): seq<Role>
    requires v.View?
  {
    if id in submitters then Without(ApprovalChain(v.amount, cfg.t1, cfg.t2), submitters[id]) else []
  }

  /** The audit log, the matrix and the submitter's role give back a claim's status; the log gives back its decisions and
      their number. `Replay.LogDecidesStatusIff` says when the role is needed. */
  lemma LogReconstructs(cfg: Config, evs: seq<Event>, id: ClaimId)
    requires id < |Reached(cfg, evs).db.claims|
    ensures var (s, c, v) := (Reached(cfg, evs), Reached(cfg, evs).db.claims[id], Replayed(Reached(cfg, evs).db.audit, id));
      && v.View? && c.status == StatusOf(v, |LoggedChain(cfg, v, s.submitters, id)|)
      && (c.status != Draft ==>
           id in s.submitters && Explains(ApprovalChain(v.amount, cfg.t1, cfg.t2), v, s.submitters[id]))
      && |v.acted| == ActedCount(c.steps) <= |c.steps|
      && (forall i :: 0 <= i < |v.acted| ==> c.steps[i].approver.Some? && v.acted[i] == ActedRow(c.steps[i]))
  {
    hide ApprovalChain, Without, ClaimSound, Exec;
    ReachedRow(cfg, evs, id);
    var c, v := Reached(cfg, evs).db.claims[id], Replayed(Reached(cfg, evs).db.audit, id);
    ActedRowsAreFirst(v, c);
  }

  lemma ActedRowsAreFirst(v: View, c: Claim)
    requires Agrees(v, c) && ClaimSound(c)
    ensures |v.acted| == ActedCount(c.steps) && ActedRoles(v) <= Roles(c.steps)
    ensures c.status != Draft ==> Roles(c.steps) != []
  {
    hide AmountSound, Ladder;
    ActedPrefix(c.steps, |v.acted|);
    assert ActedRoles(v) == Roles(c.steps)[..|v.acted|];
  }

  lemma {:induction false} ActedPrefix(steps: seq<Step>, k: nat)
    requires k <= |steps| && Stretch(steps, k, |steps|, PendingStep)
    requires forall i :: 0 <= i < k ==> steps[i].status != PendingStep
    ensures ActedCount(steps) == k
  {
    if steps != [] {
      ActedPrefix(steps[..|steps| - 1], if k == |steps| then k - 1 else k);
    }
  }

  /** PAY_CLAIM and CANCEL_CLAIM each occur at most once for a claim, and nothing about it is logged afterwards. */
  lemma PaymentAndCancellationAreFinal(cfg: Config, evs: seq<Event>, k: nat, j: nat)
    requires k < j < |Reached(cfg, evs).db.audit|
    requires var a := Reached(cfg, evs).db.audit[k].action; a.PayLogged? || a.CancelLogged?
    ensures Reached(cfg, evs).db.audit[j].claim != Reached(cfg, evs).db.audit[k].claim
  {
    var s := Reached(cfg, evs);
    ReachedSound(cfg, evs);
    var id := s.db.audit[k].claim;
    assert RowSound(cfg, s.db, s.submitters, id);
    FinalEntryIsLast(s.db.audit, id, k, j);
  }

  /** The approval rows are always the chain of the amount the last submission logged, without that submitter's role. */
  lemma SnapshotMatchesLoggedAmount(cfg: Config, evs: seq<Event>, id: ClaimId)
    requires id < |Reached(cfg, evs).db.claims| && Reached(cfg, evs).db.claims[id].status != Draft
    ensures var s := Reached(cfg, evs);
      && id in s.submitters && Replayed(s.db.audit, id).View?
      && Roles(s.db.claims[id].steps)
         == Without(ApprovalChain(Replayed(s.db.audit, id).amount, cfg.t1, cfg.t2), s.submitters[id])
  {
    ReachedRow(cfg, evs, id);
  }

  // ---------- who may do what, exactly ----------

  /** The role of the step that `current_step` names. */
  predicate Due(c: Claim, role: Role) {
    1 <= c.currentStep <= |c.steps| && c.steps[c.currentStep - 1].role == role
  }

  /** Who may change what on a claim, and to what, edge by edge. Edits, deletions and receipts check the status before
      their transaction only, so their status guard is not part of this: see `InWindow`. */
  predicate LegalChange(req: Request, c: Claim, c': Claim) {
    var k := c.currentStep;
    match req
    case CreateReq(_, _, _, _, _) => false
    case UpdateReq(id, _, user, category, date, items, _) =>
      user == c.employee && c' == c.(category := category, date := date, items := items, amount := ItemsTotal(items))
    case DeleteReq(_, _, user) => user == c.employee && c' == c.(deleted := true)
    case AttachReq(_, _, user) => user == c.employee && c' == c.(receipts := c.receipts + [user])
    case SubmitReq(_, _, user) =>
      && user == c.employee && !c.deleted && (c.status == Draft || c.status == Rejected)
      && c' == c.(status := Submitted, currentStep := 1, steps := c'.steps)
      && c'.steps != [] && Stretch(c'.steps, 0, |c'.steps|, PendingStep)
    case ApproveReq(_, role, user) =>
      && user != c.employee && !c.deleted && c.status == Submitted && Due(c, role)
      && Stretch(c.steps, 0, k - 1, ApprovedStep)
      && var steps := c.steps[k - 1 := Step(role, ApprovedStep, Some(user), "")];
      c' == if k == |c.steps| then c.(steps := steps, status := Approved) else c.(steps := steps, currentStep := k + 1)
    case RejectReq(_, role, user, note) =>
      && user != c.employee && !c.deleted && c.status == Submitted && Due(c, role) && note != ""
      && Stretch(c.steps, 0, k - 1, ApprovedStep)
      && c' == c.(steps := c.steps[k - 1 := Step(role, RejectedStep, Some(user), note)], status := Rejected)
    case CancelReq(_, _, user) =>
      user == c.employee && !c.deleted && c.status == Submitted && k == 1 && c' == c.(status := Cancelled)
    case PayReq(_, role, _) =>
      role == Finance && !c.deleted && c.status == Approved && Stretch(c.steps, 0, |c.steps|, ApprovedStep)
      && c' == c.(status := Paid)
  }

  /** The documented windows of the requests that write without re-reading the status. */
  predicate InWindow(req: Request, c: Claim) {
    match req
    case UpdateReq(_, _, _, _, _, _, _) => !c.deleted && (c.status == Draft || c.status == Rejected)
    case DeleteReq(_, _, _) => !c.deleted && c.status == Draft
    case AttachReq(_, _, _) => !c.deleted && (c.status == Draft || c.status == Rejected || c.status == Submitted)
    case _ => true
  }

  /** The documented lifecycle, edge by edge, windows included. */
  predicate DocumentedChange(req: Request, c: Claim, c': Claim) {
    LegalChange(req, c, c') && InWindow(req, c)
  }

  /** The claim a request addresses. */
  predicate Addresses(req: Request, id: ClaimId) {
    !req.CreateReq? && req.id == id
  }

  lemma CurrentStepBlank(c: Claim, v: View)
    requires Agrees(v, c) && ClaimSound(c) && c.status == Submitted
    ensures c.steps[c.currentStep - 1] == Step(c.steps[c.currentStep - 1].role, PendingStep, None, "")
  {
    hide AmountSound, Ladder;
    ActedBeforeCurrent(v, c);
  }

  /** A decision commits exactly when the claim is submitted and the actor, not its owner, holds the role of the step
      that `current_step` names. */
  lemma DecisionExact(cfg: Config, s: State, id: ClaimId, role: Role, user: UserId, approve: bool, note: string)
    requires Inv(cfg, s)
    ensures CommitDecide(s.db, id, role, user, approve, note).Committed? <==>
      && id < |s.db.claims| && !s.db.claims[id].deleted && s.db.claims[id].status == Submitted
      && Due(s.db.claims[id], role) && s.db.claims[id].employee != user
  {
    hide ApproversSound, AmountSound, Ladder, SnapshotSound, Agrees, Replayed;
    if id < |s.db.claims| && s.db.claims[id].status == Submitted {
      assert RowSound(cfg, s.db, s.submitters, id);
      PendingIsCurrent(s.db.claims[id]);
    }
  }

  /** A cancellation commits exactly when the owner asks, the claim is submitted and its first step is still due. */
  lemma CancellationExact(cfg: Config, s: State, id: ClaimId, user: UserId)
    requires Inv(cfg, s)
    ensures CommitCancel(s.db, id, user).Committed? <==>
      && id < |s.db.claims| && !s.db.claims[id].deleted && s.db.claims[id].employee == user
      && s.db.claims[id].status == Submitted && s.db.claims[id].currentStep == 1
  {
    hide ApproversSound, AmountSound, Ladder, SnapshotSound, Agrees, Replayed, MoneyText;
    if id < |s.db.claims| && s.db.claims[id].status == Submitted {
      assert RowSound(cfg, s.db, s.submitters, id);
      CancelWindow(s.db.claims[id]);
    }
  }

  /** Every step was approved, one by one, by somebody other than the owner. */
  predicate FullyApproved(c: Claim) {
    c.steps != [] && forall i :: 0 <= i < |c.steps| ==>
      c.steps[i].status == ApprovedStep && c.steps[i].approver.Some? && c.steps[i].approver.value != c.employee
  }

  /** A payment request is served exactly for finance and a claim, neither deleted nor paid, of which every step was
      approved by somebody other than the owner. */
  lemma PaymentExact(cfg: Config, s: State, id: ClaimId, role: Role, user: UserId)
    requires Inv(cfg, s)
    ensures Serve(cfg, s.db, PayReq(id, role, user)).Committed? <==>
      && role == Finance && id < |s.db.claims| && !s.db.claims[id].deleted
      && s.db.claims[id].status != Paid && FullyApproved(s.db.claims[id])
  {
    hide MoneyText, AmountSound, Ladder, SnapshotSound, Agrees, Replayed;
    if id < |s.db.claims| {
      assert RowSound(cfg, s.db, s.submitters, id);
      OpenStepsFit(s.db.claims[id]);
    }
  }

  lemma OpenStepsFit(c: Claim)
    requires ClaimSound(c)
    ensures c.status == Approved || c.status == Paid <==> FullyApproved(c)
  {
    hide AmountSound, Ladder;
    assert c.status == Submitted || c.status == Rejected ==> c.steps[c.currentStep - 1].status != ApprovedStep;
    assert c.status == Cancelled ==> c.steps[0].status == PendingStep;
  }

  lemma DecisionIsLegal(cfg: Config, s: State, t: Ticket)
    requires Inv(cfg, s) && t.plan.DecidePlan? && PlanSound(cfg, t.req, t.plan) && Commit(s.db, t.plan).Committed?
    ensures LegalChange(t.req, s.db.claims[t.plan.id], Commit(s.db, t.plan).db.claims[t.plan.id])
  {
    hide AmountSound, Ladder, SnapshotSound, Agrees, Replayed;
    var id := t.plan.id;
    assert RowSound(cfg, s.db, s.submitters, id);
    PendingIsCurrent(s.db.claims[id]);
    CurrentStepBlank(s.db.claims[id], Replayed(s.db.audit, id));
  }

  lemma CommitIsLegal(cfg: Config, s: State, t: Ticket, db': Db)
    requires Inv(cfg, s) && TicketSound(cfg, s.db, t) && Commit(s.db, t.plan) == Committed(db') && !t.req.CreateReq?
    requires t.req.id < |s.db.claims| && t.req.id < |db'.claims|
    ensures LegalChange(t.req, s.db.claims[t.req.id], db'.claims[t.req.id])
  {
    hide AmountSound, Ladder, SnapshotSound, Agrees, Replayed, MoneyText, ApprovalChain, Without;
    var id := t.req.id;
    assert RowSound(cfg, s.db, s.submitters, id);
    match t.req
    case ApproveReq(_, _, _) => DecisionIsLegal(cfg, s, t);
    case RejectReq(_, _, _, _) => DecisionIsLegal(cfg, s, t);
    case CancelReq(_, _, user) => CancellationExact(cfg, s, id, user);
    case _ =>
  }

  lemma CommitTouchesOne(cfg: Config, db: Db, t: Ticket, db': Db, id: ClaimId)
    requires PlanSound(cfg, t.req, t.plan) && db' == After(db, Commit(db, t.plan))
    requires id < |db.claims| && id < |db'.claims| && !Addresses(t.req, id)
    ensures db'.claims[id] == db.claims[id]
  {
    hide MoneyText, ApprovalChain, Without, FirstPending, ActedCount, ItemsTotal, ItemsBind;
  }

  /** Under every interleaving an event leaves a claim untouched, or finishes a request on that claim that makes one of the
      changes open to that actor. */
  lemma EveryChangeIsLegal(cfg: Config, s: State, ev: Event, id: ClaimId)
    requires Inv(cfg, s) && id < |s.db.claims|
    ensures id < |StepState(cfg, s, ev).db.claims|
    ensures var (c, c') := (s.db.claims[id], StepState(cfg, s, ev).db.claims[id]);
      || c' == c
      || (ev.Finish? && ev.r in s.inflight && Addresses(s.inflight[ev.r].req, id) && LegalChange(s.inflight[ev.r].req, c, c'))
  {
    hide DbSound, LegalChange, Commit, Check, PlanSound;
    StepKeepsInv(cfg, s, ev);
    if ev.Finish? && ev.r in s.inflight {
      var t := s.inflight[ev.r];
      TicketHasPlan(cfg, s.db, t);
      if !Addresses(t.req, id) {
        CommitTouchesOne(cfg, s.db, t, After(s.db, Commit(s.db, t.plan)), id);
      } else if Commit(s.db, t.plan).Committed? {
        CommitIsLegal(cfg, s, t, Commit(s.db, t.plan).db);
      }
    } else {
      OtherEventsTouchNoClaim(cfg, s, ev);
    }
  }

  lemma OtherEventsTouchNoClaim(cfg: Config, s: State, ev: Event)
    requires !(ev.Finish? && ev.r in s.inflight)
    ensures StepState(cfg, s, ev).db.claims == s.db.claims && StepState(cfg, s, ev).submitters == s.submitters
  {
    hide Check, Look;
    match ev {
      case Maintain(op) => AdminTouchesNoClaim(s.db, op);
      case Start(r, req) => LookReads(cfg, s, r, req, []);
      case Read(r) =>
        if r in s.reading {
          LookReads(cfg, s, r, s.reading[r].req, s.reading[r].seen);
        }
      case _ =>
    }
  }

  /** A change that commits is a documented one if and only if the request's guard, repeated at commit time, would not
      answer that the claim is gone or in the wrong status. */
  lemma ChangeIsDocumentedIff(cfg: Config, s: State, t: Ticket, db': Db)
    requires Inv(cfg, s) && TicketSound(cfg, s.db, t) && Commit(s.db, t.plan) == Committed(db') && !t.req.CreateReq?
    ensures var id := t.req.id;
      && id < |s.db.claims| && id < |db'.claims|
      && (DocumentedChange(t.req, s.db.claims[id], db'.claims[id])
          <==> Check(cfg, s.db, t.req) != Failure(NotFound) && Check(cfg, s.db, t.req) != Failure(Conflict))
  {
    hide LegalChange, ReceiptCheck, LimitCheck, FindDuplicate, ApprovalChain, Without, MoneyText, DateAllowed, RowsAccepted;
    hide AmountAccepted, ItemsTotal, Resubmitted, ApprovedAt, RejectedAt, FirstPending, ActedCount, ClaimSound, Agrees;
    hide SnapshotSound, Replayed;
    CommitIsLegal(cfg, s, t, db');
    assert RowSound(cfg, s.db, s.submitters, t.req.id);
  }

  lemma AdminTouchesNoClaim(db: Db, op: AdminOp)
    ensures Administer(db, op).claims == db.claims && Administer(db, op).audit == db.audit
  {
  }

  // ---------- nothing leaves a terminal status ----------

  predicate Terminal(c: Claim) {
    c.deleted || c.status == Paid || c.status == Cancelled
  }

  /** What no interleaving changes on a terminal claim. */
  predicate Frozen(c: Claim, c': Claim) {
    c'.status == c.status && c'.currentStep == c.currentStep && c'.steps == c.steps && (c.deleted ==> c'.deleted)
  }

  lemma LegalFreezes(req: Request, c: Claim, c': Claim)
    requires LegalChange(req, c, c') && Terminal(c)
    ensures Frozen(c, c') && Terminal(c')
  {
  }

  /** In every interleaved run a paid, cancelled or deleted claim keeps its status and approval rows forever. */
  lemma {:induction false} TerminalIsForever(cfg: Config, s: State, evs: seq<Event>, id: ClaimId)
    requires Inv(cfg, s) && id < |s.db.claims| && Terminal(s.db.claims[id])
    ensures id < |Exec(cfg, s, evs).db.claims| && Frozen(s.db.claims[id], Exec(cfg, s, evs).db.claims[id])
    decreases |evs|
  {
    hide Inv, LegalChange, StepState;
    if evs != [] {
      var s1 := StepState(cfg, s, evs[0]);
      StepKeepsInv(cfg, s, evs[0]);
      EveryChangeIsLegal(cfg, s, evs[0], id);
      if s1.db.claims[id] != s.db.claims[id] {
        LegalFreezes(s.inflight[evs[0].r].req, s.db.claims[id], s1.db.claims[id]);
      }
      TerminalIsForever(cfg, s1, evs[1..], id);
    }
  }

  // ---------- approvers ----------

  /** Every decision request of the run carries its user's role, as the tokens state it while roles stay fixed. */
  predicate Truthful(evs: seq<Event>, roleOf: UserId -> Role) {
    forall k :: 0 <= k < |evs| && (evs[k].Begin? || evs[k].Start?) && (evs[k].req.ApproveReq? || evs[k].req.RejectReq?) ==>
      evs[k].req.role == roleOf(evs[k].req.user)
  }

  /** Every acted step was acted on by a holder of its role. */
  predicate RolesHeld(c: Claim, roleOf: UserId -> Role) {
    forall i :: 0 <= i < |c.steps| && c.steps[i].approver.Some? ==> c.steps[i].role == roleOf(c.steps[i].approver.value)
  }

  predicate TicketTruthful(t: Ticket, roleOf: UserId -> Role) {
    (t.req.ApproveReq? || t.req.RejectReq?) ==> t.req.role == roleOf(t.req.user)
  }

  predicate AllRolesHeld(s: State, roleOf: UserId -> Role) {
    && (forall id :: 0 <= id < |s.db.claims| ==> RolesHeld(s.db.claims[id], roleOf))
    && (forall r :: r in s.inflight ==> TicketTruthful(s.inflight[r], roleOf))
  }

  lemma LegalHoldsRoles(t: Ticket, c: Claim, c': Claim, roleOf: UserId -> Role)
    requires LegalChange(t.req, c, c') && RolesHeld(c, roleOf) && TicketTruthful(t, roleOf)
    requires t.req.SubmitReq? ==> forall i :: 0 <= i < |c'.steps| ==> c'.steps[i].approver == None
    ensures RolesHeld(c', roleOf)
  {
  }

  lemma StepHoldsRoles(cfg: Config, s: State, ev: Event, roleOf: UserId -> Role)
    requires Inv(cfg, s) && AllRolesHeld(s, roleOf) && Truthful([ev], roleOf)
    ensures AllRolesHeld(StepState(cfg, s, ev), roleOf)
  {
    hide DbSound, LegalChange, Check, Commit, Administer, RolesHeld, ClaimSound;
    var s' := StepState(cfg, s, ev);
    assert [ev][0] == ev;
    StepKeepsInv(cfg, s, ev);
    forall id | 0 <= id < |s'.db.claims| ensures RolesHeld(s'.db.claims[id], roleOf) {
      SoundPending(cfg, s', id);
      if id < |s.db.claims| {
        EveryChangeIsLegal(cfg, s, ev, id);
        if s'.db.claims[id] != s.db.claims[id] {
          SubmitIsPending(s.inflight[ev.r].req, s.db.claims[id], s'.db.claims[id]);
          LegalHoldsRoles(s.inflight[ev.r], s.db.claims[id], s'.db.claims[id], roleOf);
        }
      } else {
        NewRowBlank(cfg, s, ev, id, roleOf);
      }
    }
    forall r | r in s'.inflight ensures TicketTruthful(s'.inflight[r], roleOf) {
      NewTicket(cfg, s, ev, r);
    }
  }

  /** A ticket is an old one, or comes from the request that just read: a submission or an edit, if it read before. */
  lemma NewTicket(cfg: Config, s: State, ev: Event, r: nat)
    requires Inv(cfg, s) && r in StepState(cfg, s, ev).inflight
    ensures var t := StepState(cfg, s, ev).inflight[r];
      || (r in s.inflight && t == s.inflight[r])
      || ((ev.Begin? || ev.Start?) && ev.r == r && t.req == ev.req)
      || (ev.Read? && ev.r == r && r in s.reading && t.req == s.reading[r].req && (t.req.SubmitReq? || t.req.UpdateReq?))
  {
    hide DbSound, Check, CheckSeen, Commit, Administer, Grows, TicketSound;
  }

  lemma SoundPending(cfg: Config, s: State, id: ClaimId)
    requires Inv(cfg, s) && id < |s.db.claims|
    ensures ApproversSound(s.db.claims[id])
  {
    assert RowSound(cfg, s.db, s.submitters, id);
  }

  lemma SubmitIsPending(req: Request, c: Claim, c': Claim)
    requires LegalChange(req, c, c') && ApproversSound(c')
    ensures req.SubmitReq? ==> forall i :: 0 <= i < |c'.steps| ==> c'.steps[i].approver == None
  {
  }

  lemma NewRowBlank(cfg: Config, s: State, ev: Event, id: ClaimId, roleOf: UserId -> Role)
    requires |s.db.claims| <= id < |StepState(cfg, s, ev).db.claims|
    ensures RolesHeld(StepState(cfg, s, ev).db.claims[id], roleOf)
  {
    hide MoneyText, ApprovalChain, Without, FirstPending, ActedCount, ItemsTotal, Check, Look;
    if !(ev.Finish? && ev.r in s.inflight) {
      OtherEventsTouchNoClaim(cfg, s, ev);
    }
  }

  lemma {:induction false} RunHoldsRoles(cfg: Config, s: State, evs: seq<Event>, roleOf: UserId -> Role)
    requires Inv(cfg, s) && AllRolesHeld(s, roleOf) && Truthful(evs, roleOf)
    ensures AllRolesHeld(Exec(cfg, s, evs), roleOf)
    decreases |evs|
  {
    hide Inv, AllRolesHeld, StepState;
    if evs != [] {
      StepKeepsInv(cfg, s, evs[0]);
      StepHoldsRoles(cfg, s, evs[0], roleOf);
      RunHoldsRoles(cfg, StepState(cfg, s, evs[0]), evs[1..], roleOf);
    }
  }

  /** While roles stay fixed, every acted step was acted on by a holder of its role who is not the owner. */
  lemma ApproversHoldTheRole(cfg: Config, evs: seq<Event>, roleOf: UserId -> Role, id: ClaimId, i: nat)
    requires Truthful(evs, roleOf) && id < |Reached(cfg, evs).db.claims|
    requires i < |Reached(cfg, evs).db.claims[id].steps|
    ensures var c := Reached(cfg, evs).db.claims[id];
      && (c.steps[i].status != PendingStep <==> c.steps[i].approver.Some?)
      && (c.steps[i].approver.Some? ==>
           c.steps[i].approver.value != c.employee && roleOf(c.steps[i].approver.value) == c.steps[i].role)
  {
    hide Truthful, Exec;
    InitInv(cfg);
    RunHoldsRoles(cfg, INIT, evs, roleOf);
    ReachedRow(cfg, evs, id);
  }

  /** While roles stay fixed, no one acts on two steps of one claim. */
  lemma ApproversAreDistinct(cfg: Config, evs: seq<Event>, roleOf: UserId -> Role, id: ClaimId, i: nat, j: nat)
    requires Truthful(evs, roleOf) && id < |Reached(cfg, evs).db.claims|
    requires i < j < |Reached(cfg, evs).db.claims[id].steps|
    requires Reached(cfg, evs).db.claims[id].steps[i].approver.Some?
    requires Reached(cfg, evs).db.claims[id].steps[j].approver.Some?
    ensures Reached(cfg, evs).db.claims[id].steps[i].approver != Reached(cfg, evs).db.claims[id].steps[j].approver
  {
    hide Truthful, Exec;
    ApproversHoldTheRole(cfg, evs, roleOf, id, i);
    ApproversHoldTheRole(cfg, evs, roleOf, id, j);
    ReachedRow(cfg, evs, id);
    var roles := Roles(Reached(cfg, evs).db.claims[id].steps);
    assert Rank(roles[i]) < Rank(roles[j]);
  }

  // ---------- no claim is stuck ----------

  /** Two events that serve one request from start to finish. */
  function Whole(r: nat, req: Request): seq<Event> {
    [Begin(r, req), Finish(r)]
  }

  /** The remaining approvals of a claim, in order, and its payment. */
  function Route(id: ClaimId, roles: seq<Role>, from: nat, r: nat, who: Role -> UserId): seq<Event>
    decreases |roles| - from
  {
    if from >= |roles| then Whole(r, PayReq(id, Finance, who(Finance)))
    else Whole(r, ApproveReq(id, roles[from], who(roles[from]))) + Route(id, roles, from + 1, r, who)
  }

  lemma ExecWhole(cfg: Config, s: State, r: nat, req: Request, rest: seq<Event>)
    ensures var s1 := StepState(cfg, StepState(cfg, s, Begin(r, req)), Finish(r));
      Exec(cfg, s, Whole(r, req) + rest) == Exec(cfg, s1, rest)
  {
    hide StepState;
    var evs := Whole(r, req) + rest;
    assert evs[1..] == [Finish(r)] + rest && ([Finish(r)] + rest)[1..] == rest;
  }

  lemma ExecThree(cfg: Config, s: State, a: Event, b: Event, c: Event)
    ensures Exec(cfg, s, [a, b]) == StepState(cfg, StepState(cfg, s, a), b)
    ensures Exec(cfg, s, [a, b, c]) == StepState(cfg, StepState(cfg, StepState(cfg, s, a), b), c)
  {
    hide StepState;
    var s1 := StepState(cfg, s, a);
    var s2 := StepState(cfg, s1, b);
    assert [a, b, c][1..] == [b, c] && [a, b][1..] == [b] && [b, c][1..] == [c] && [b][1..] == [] && [c][1..] == [];
    assert Exec(cfg, s1, [b]) == s2 && Exec(cfg, s2, [c]) == StepState(cfg, s2, c);
  }

  /** The remaining reads of a request, one event each. */
  function ReadAll(r: nat, n: nat): seq<Event> {
    seq(n, _ => Read(r))
  }

  /** Reading with nothing in between is beginning: the tables that every read sees are the same. */
  lemma BeginIsItsReads(cfg: Config, s: State, r: nat, req: Request)
    requires !Busy(s, r)
    ensures Exec(cfg, s, [Start(r, req)] + ReadAll(r, Reads(req) - 1)) == StepState(cfg, s, Begin(r, req))
  {
    var evs, rest := [Start(r, req)] + ReadAll(r, Reads(req) - 1), ReadAll(r, Reads(req) - 1);
    assert evs[1..] == rest && [] + [s.db] == [s.db];
    if Reads(req) > 1 {
      hide CheckSeen, Check;
      ReadsOfOneMoment(cfg, s, r, req, [s.db]);
    } else {
      hide Check;
      assert rest == [] && s.reading - {r} == s.reading;
    }
  }

  /** From a request that saw only the present tables, the remaining reads lead where the decision on them leads. */
  lemma {:induction false} ReadsOfOneMoment(cfg: Config, s: State, r: nat, req: Request, seen: seq<Db>)
    requires !Busy(s, r) && 0 < |seen| < Reads(req) && forall i :: 0 <= i < |seen| ==> seen[i] == s.db
    ensures Exec(cfg, s.(reading := s.reading[r := Reading(req, seen)]), ReadAll(r, Reads(req) - |seen|))
         == StepState(cfg, s, Begin(r, req))
    decreases Reads(req) - |seen|
  {
    hide CheckSubmitReads, CheckUpdateReads;
    var n := Reads(req) - |seen|;
    var s1 := s.(reading := s.reading[r := Reading(req, seen)]);
    assert ReadAll(r, n)[1..] == ReadAll(r, n - 1);
    assert s1.reading - {r} == s.reading;
    var seen' := seen + [s.db];
    if n > 1 {
      assert StepState(cfg, s1, Read(r)) == s.(reading := s.reading[r := Reading(req, seen')]);
      ReadsOfOneMoment(cfg, s, r, req, seen');
    } else {
      assert CheckSeen(cfg, seen', req) == Check(cfg, s.db, req);
    }
  }

  /** Beginning and finishing a request with nothing in between is serving it. */
  lemma WholeIsServe(cfg: Config, s: State, r: nat, req: Request)
    requires !Busy(s, r)
    ensures var s1 := StepState(cfg, StepState(cfg, s, Begin(r, req)), Finish(r));
      s1.db == After(s.db, Serve(cfg, s.db, req)) && s1.inflight == s.inflight && s1.reading == s.reading
  {
    hide Check, Commit;
    assert Check(cfg, s.db, req).Success? ==> StepState(cfg, s, Begin(r, req)).inflight - {r} == s.inflight;
  }

  /** From any sound state a submitted claim can be approved step by step and paid, as long as every role has a holder
      other than the owner. */
  lemma {:induction false} SubmittedCanBePaid(cfg: Config, s: State, id: ClaimId, r: nat, who: Role -> UserId)
    requires Inv(cfg, s) && id < |s.db.claims| && !Busy(s, r)
    requires var c := s.db.claims[id]; !c.deleted && (c.status == Submitted || c.status == Approved)
    requires forall role :: who(role) != s.db.claims[id].employee
    ensures var c := s.db.claims[id];
      var from := if c.status == Approved then |c.steps| else c.currentStep - 1;
      && from >= 0
      && var s' := Exec(cfg, s, Route(id, Roles(c.steps), from, r, who));
      id < |s'.db.claims| && s'.db.claims[id].status == Paid
    decreases if s.db.claims[id].status == Approved then 0 else |s.db.claims[id].steps| + 1 - s.db.claims[id].currentStep
  {
    hide Inv, StepState, Check, Commit, Agrees, AmountSound, Ladder;
    var c := s.db.claims[id];
    assert StepsFit(c) by { InvStepsFit(cfg, s, id); }
    var roles := Roles(c.steps);
    if c.status == Approved {
      var req := PayReq(id, Finance, who(Finance));
      ExecWhole(cfg, s, r, req, []);
      assert Whole(r, req) + [] == Whole(r, req);
      WholeIsServe(cfg, s, r, req);
      PaymentServed(cfg, s.db, id, who(Finance));
    } else {
      var from := c.currentStep - 1;
      var role := roles[from];
      var req := ApproveReq(id, role, who(role));
      var s1 := StepState(cfg, StepState(cfg, s, Begin(r, req)), Finish(r));
      ExecWhole(cfg, s, r, req, Route(id, roles, from + 1, r, who));
      WholeIsServe(cfg, s, r, req);
      StepKeepsInv(cfg, s, Begin(r, req));
      StepKeepsInv(cfg, StepState(cfg, s, Begin(r, req)), Finish(r));
      ApprovalServed(cfg, s, id, who(role));
      var c1 := s1.db.claims[id];
      assert Roles(c1.steps) == roles;
      SubmittedCanBePaid(cfg, s1, id, r, who);
    }
  }

  lemma InvStepsFit(cfg: Config, s: State, id: ClaimId)
    requires Inv(cfg, s) && id < |s.db.claims|
    ensures StepsFit(s.db.claims[id])
  {
    assert RowSound(cfg, s.db, s.submitters, id);
  }

  lemma PaymentServed(cfg: Config, db: Db, id: ClaimId, user: UserId)
    requires id < |db.claims| && !db.claims[id].deleted && db.claims[id].status == Approved
    ensures var db' := After(db, Serve(cfg, db, PayReq(id, Finance, user)));
      id < |db'.claims| && db'.claims[id].status == Paid
  {
    hide MoneyText;
  }

  lemma ApprovalServed(cfg: Config, s: State, id: ClaimId, user: UserId)
    requires Inv(cfg, s) && id < |s.db.claims| && !s.db.claims[id].deleted && s.db.claims[id].status == Submitted
    requires user != s.db.claims[id].employee
    ensures var c := s.db.claims[id];
      && 1 <= c.currentStep <= |c.steps|
      && var db' := After(s.db, Serve(cfg, s.db, ApproveReq(id, c.steps[c.currentStep - 1].role, user)));
      id < |db'.claims| && db'.claims[id] == ApprovedAt(c, c.currentStep - 1, user)
  {
    hide Agrees, AmountSound, Ladder, SnapshotSound, Replayed;
    InvStepsFit(cfg, s, id);
    PendingIsCurrent(s.db.claims[id]);
  }
}
