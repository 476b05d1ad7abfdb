/** Every request's answer, told from the tables alone: when it commits, what it leaves and logs, and which error it gives
    otherwise. */
module Answers {
  import opened Wrappers
  import opened Calendar
  import opened Decimal
  import opened StateMachine
  import opened Ledger
  import opened Requests
  import opened Policy
  import opened Lifecycle
  import opened Replay
  import opened Machine
  import opened Interleavings

  predicate Present(db: Db, id: ClaimId) {
    id < |db.claims| && !db.claims[id].deleted
  }

  /** A claim the role may see: employees see their own claims only. */
  predicate Seen(db: Db, id: ClaimId, role: Role, user: UserId) {
    Present(db, id) && (role == Employee ==> db.claims[id].employee == user)
  }

  predicate Own(db: Db, id: ClaimId, user: UserId) {
    Present(db, id) && db.claims[id].employee == user
  }

  lemma SeenIsVisible(cfg: Config, s: State, id: ClaimId, role: Role, user: UserId)
    requires Inv(cfg, s)
    ensures Visible(s.db, id, role, user) <==> Seen(s.db, id, role, user)
  {
    if id < |s.db.claims| {
      assert RowSound(cfg, s.db, s.submitters, id);
    }
  }

  // ---------- submission ----------

  /** Another claim of the owner with the same amount, at most seven days apart, neither rejected, cancelled nor deleted. */
  predicate TwinAt(db: Db, id: ClaimId, i: ClaimId)
    requires id < |db.claims| && i < |db.claims|
  {
    var (c, d) := (db.claims[id], db.claims[i]);
    && i != id && d.employee == c.employee && d.amount == c.amount && !d.deleted
    && d.status in {Draft, Submitted, Approved, Paid} && -7 <= DayNumber(d.date) - DayNumber(c.date) <= 7
  }

  predicate Suspect(db: Db, id: ClaimId)
    requires id < |db.claims|
  {
    exists i :: 0 <= i < |db.claims| && TwinAt(db, id, i)
  }

  /** Above the receipt threshold without a receipt. */
  predicate ReceiptLacking(cfg: Config, c: Claim)
    requires ConfigReadable(cfg)
  {
    c.amount > FloorCents(cfg.receiptThreshold) && |c.receipts| == 0
  }

  /** More than the active category's limit leaves the owner in the month. */
  predicate LimitBroken(db: Db, id: ClaimId)
    requires id < |db.claims|
  {
    var c := db.claims[id];
    && c.category in db.categories && db.categories[c.category].active && db.categories[c.category].limit.Some?
    && MoneyOut(db.claims, c.employee, c.category, c.date.year, c.date.month) + c.amount
       > db.categories[c.category].limit.value
  }

  function OwnerRole(db: Db, c: Claim): Role {
    if c.employee in db.users then db.users[c.employee] else Employee
  }

  /** The owner's submittable claim. */
  predicate Submittable(db: Db, id: ClaimId, user: UserId) {
    Own(db, id, user) && db.claims[id].status in {Draft, Rejected}
  }

  lemma RulesWrittenOut(cfg: Config, db: Db, id: ClaimId, user: UserId)
    requires ConfigReadable(cfg) && Submittable(db, id, user)
    ensures HasDuplicate(db, id) <==> Suspect(db, id)
    ensures NeedsReceipt(cfg, db.claims[id]) <==> ReceiptLacking(cfg, db.claims[id])
    ensures OverLimit(db, id) <==> LimitBroken(db, id)
  {
    hide DayNumber, FloorCents, IsDecimal, SpentCents, MoneyOut;
    var c := db.claims[id];
    forall i | 0 <= i < |db.claims|
      ensures DuplicateRow(i, db.claims[i], c.employee, c.amount, c.date, id) <==> TwinAt(db, id, i)
    {
    }
    SpentWithout(db.claims, c.employee, c.category, c.date, id);
    SpentIsMoneyOut(db.claims, c.employee, c.category, c.date);
  }

  /** Which plan or error the policy check of a submission gives. */
  lemma SubmitChecksExactly(cfg: Config, s: State, id: ClaimId, role: Role, user: UserId)
    requires Inv(cfg, s) && ConfigReadable(cfg) && (id < |s.db.claims| ==> FiguresFit(s.db, id))
    ensures var r := CheckSubmit(cfg, s.db, id, role, user);
      && (r == Failure(NotFound) <==> !Seen(s.db, id, role, user))
      && (r == Failure(Forbidden) <==> Seen(s.db, id, role, user) && !Own(s.db, id, user))
      && (r == Failure(Conflict) <==> Own(s.db, id, user) && !Submittable(s.db, id, user))
      && (r.Failure? && r.error.DuplicateSuspected? <==> Submittable(s.db, id, user) && Suspect(s.db, id))
      && (r.Failure? && r.error.PolicyFailed? <==>
            && Submittable(s.db, id, user) && !Suspect(s.db, id)
            && (ReceiptLacking(cfg, s.db.claims[id]) || LimitBroken(s.db, id)))
      && (r == Failure(NoEligibleApprover) <==>
            && Submittable(s.db, id, user) && Passes(cfg, s.db, id)
            && DueChain(cfg, s.db.claims[id].amount, OwnerRole(s.db, s.db.claims[id])) == [])
      && (r.Success? <==>
            && Submittable(s.db, id, user) && Passes(cfg, s.db, id)
            && DueChain(cfg, s.db.claims[id].amount, OwnerRole(s.db, s.db.claims[id])) != [])
  {
    hide DbSound, MoneyText, FindDuplicate, ReceiptBreach, LimitBreach, DueChain, OverLimit, NeedsReceipt, FiguresFit;
    hide CheckSubmit, HasDuplicate, Suspect, ReceiptLacking, LimitBroken, ConfigReadable;
    SeenIsVisible(cfg, s, id, role, user);
    SubmitRefinesCents(cfg, s.db, id, role, user);
    if Submittable(s.db, id, user) {
      RulesWrittenOut(cfg, s.db, id, user);
    }
  }

  /** No rule of the policy is broken. */
  predicate Passes(cfg: Config, db: Db, id: ClaimId)
    requires ConfigReadable(cfg) && id < |db.claims|
  {
    !Suspect(db, id) && !ReceiptLacking(cfg, db.claims[id]) && !LimitBroken(db, id)
  }

  /** The tables with one claim replaced and one entry logged, and nothing else changed. */
  function Recorded(db: Db, id: ClaimId, c: Claim, entry: Entry): Db
    requires id < |db.claims|
  {
    db.(claims := db.claims[id := c], audit := db.audit + [entry])
  }

  /** Approval rows of a chain on which nobody has acted. */
  predicate Blank(steps: seq<Step>, chain: seq<Role>) {
    |steps| == |chain| && forall i :: 0 <= i < |chain| ==> steps[i] == Step(chain[i], PendingStep, None, "")
  }

  /** The tables after a submission: the claim submitted at its first step, a blank row for each role of the chain. */
  ghost predicate SubmittedTo(db: Db, db': Db, id: ClaimId, user: UserId, chain: seq<Role>, amount: string)
    requires id < |db.claims|
  {
    exists steps | Blank(steps, chain) ::
      db' == Recorded(db, id, db.claims[id].(status := Submitted, currentStep := 1, steps := steps),
                      Entry(user, id, SubmitLogged(amount)))
  }

  /** The submission transaction, whatever its plan's age: it commits exactly on a present claim in DRAFT or REJECTED. */
  lemma SubmissionCommits(db: Db, id: ClaimId, user: UserId, chain: seq<Role>, amount: string)
    ensures var o := CommitSubmit(db, id, user, chain, amount);
      && (o == Refused(NotFound) <==> !Present(db, id))
      && (o == Refused(Conflict) <==> Present(db, id) && db.claims[id].status !in {Draft, Rejected})
      && (o.Committed? <==> Present(db, id) && db.claims[id].status in {Draft, Rejected})
      && (o.Committed? ==> SubmittedTo(db, o.db, id, user, chain, amount))
  {
    var o := CommitSubmit(db, id, user, chain, amount);
    if o.Committed? {
      assert Blank(FreshSteps(chain), chain);
    }
  }

  /** A served submission commits exactly when the owner's claim is in DRAFT or REJECTED, breaks no rule and has an approver;
      it leaves the claim submitted, with a blank row for each approver its amount demands. */
  lemma SubmissionExact(cfg: Config, s: State, id: ClaimId, role: Role, user: UserId)
    requires Inv(cfg, s) && ConfigReadable(cfg) && (id < |s.db.claims| ==> FiguresFit(s.db, id))
    ensures var o := Serve(cfg, s.db, SubmitReq(id, role, user));
      && (o.Committed? <==>
            && Submittable(s.db, id, user) && Passes(cfg, s.db, id)
            && DueChain(cfg, s.db.claims[id].amount, OwnerRole(s.db, s.db.claims[id])) != [])
      && (o.Committed? ==>
            var c := s.db.claims[id];
            SubmittedTo(s.db, o.db, id, user, DueChain(cfg, c.amount, OwnerRole(s.db, c)), MoneyText(c.amount)))
  {
    hide Inv, MoneyText, CheckSubmit, DueChain, Passes, CommitSubmit, SubmittedTo, FiguresFit, ConfigReadable;
    SubmitChecksExactly(cfg, s, id, role, user);
    var r := CheckSubmit(cfg, s.db, id, role, user);
    if r.Success? {
      var c := s.db.claims[id];
      PlanIsDue(cfg, s.db, id, role, user);
      SubmissionCommits(s.db, id, user, r.value.chain, r.value.amount);
    }
  }

  lemma PlanIsDue(cfg: Config, db: Db, id: ClaimId, role: Role, user: UserId)
    requires ConfigReadable(cfg) && (id < |db.claims| ==> FiguresFit(db, id))
    requires CheckSubmit(cfg, db, id, role, user).Success?
    ensures id < |db.claims| && db.claims[id].employee in db.users
    ensures var c := db.claims[id];
      CheckSubmit(cfg, db, id, role, user)
        == Success(SubmitPlan(id, user, DueChain(cfg, c.amount, db.users[c.employee]), MoneyText(c.amount),
                              db.users[c.employee]))
  {
    hide MoneyText, CheckSubmit, DueChain, FindDuplicate, HasDuplicate, NeedsReceipt, OverLimit, FiguresFit, ConfigReadable;
    SubmitRefinesCents(cfg, db, id, role, user);
  }

  /** A submission read at five different moments: each rule is checked on the tables that its own read saw. */
  lemma SeparateReadsPassIff(cfg: Config, seen: seq<Db>, id: ClaimId, role: Role, user: UserId, limit: Option<nat>)
    requires ConfigReadable(cfg) && |seen| >= 5 && Visible(seen[0], id, role, user)
    requires var c := seen[0].claims[id];
      && c.employee == user && c.status in {Draft, Rejected} && limit == LimitCents(seen[2], c.category)
      && Fits64(c.amount) && Fits64(SpentCents(seen[3].claims, c.employee, c.category, c.date, id) + c.amount)
      && (limit.Some? ==> Fits64(limit.value))
    ensures var c := seen[0].claims[id];
      CheckSeen(cfg, seen, SubmitReq(id, role, user)).Success? <==>
        && (c.amount > FloorCents(cfg.receiptThreshold) ==>
              id < |seen[1].claims| && |seen[1].claims[id].receipts| > 0)
        && (limit.Some? ==>
              SpentCents(seen[3].claims, c.employee, c.category, c.date, id) + c.amount <= limit.value)
        && (forall i :: 0 <= i < |seen[4].claims| ==>
              !DuplicateRow(i, seen[4].claims[i], c.employee, c.amount, c.date, id))
        && DueChain(cfg, c.amount, seen[0].users[c.employee]) != []
  {
    hide MoneyText, DuplicateRow, FloorCents, IsDecimal, CompareNumeric, AddNumeric, RemainingText, DueChain, SpentCents;
    hide Without, ApprovalChain, MonthlyCategorySpend, Fits64;
    var c := seen[0].claims[id];
    ReceiptTextRefines(cfg, c.amount);
    ChainRefines(cfg, c.amount, seen[0].users[c.employee]);
    var spent := MonthlyCategorySpend(seen[3].claims, c.employee, c.category, c.date, id);
    FitsBelow(SpentCents(seen[3].claims, c.employee, c.category, c.date, id), c.amount);
    SpendTextReadable(seen[3].claims, c.employee, c.category, c.date, id);
    if limit.Some? {
      LimitTextRefines(spent, SpentCents(seen[3].claims, c.employee, c.category, c.date, id), c.amount, limit.value);
    }
  }

  lemma FitsBelow(a: nat, b: nat)
    requires Fits64(a + b)
    ensures Fits64(a)
  {
  }

  lemma ReceiptTextRefines(cfg: Config, amount: nat)
    requires ConfigReadable(cfg) && Fits64(amount)
    ensures CompareNumeric(MoneyText(amount), cfg.receiptThreshold) > 0 <==> amount > FloorCents(cfg.receiptThreshold)
  {
    hide MoneyText, FloorCents, IsDecimal, CompareNumeric;
    MoneyReadable(amount);
    CompareIsOrder(MoneyText(amount), cfg.receiptThreshold);
  }

  // ---------- decisions, cancellation, payment ----------

  /** The step that is due in a submitted claim is the actor's to decide. */
  predicate MayDecide(c: Claim, role: Role, user: UserId) {
    Due(c, role) && c.employee != user
  }

  predicate AwaitsDecision(db: Db, id: ClaimId) {
    Present(db, id) && db.claims[id].status == Submitted
  }

  function Decided(c: Claim, user: UserId, st: StepStatus, note: string): seq<Step>
    requires 1 <= c.currentStep <= |c.steps|
  {
    c.steps[c.currentStep - 1 := Step(c.steps[c.currentStep - 1].role, st, Some(user), note)]
  }

  lemma DecisionRefusals(cfg: Config, s: State, id: ClaimId, role: Role, user: UserId, approve: bool, note: string)
    requires Inv(cfg, s)
    ensures var o := CommitDecide(s.db, id, role, user, approve, note);
      && (o == Refused(NotFound) <==> !Present(s.db, id))
      && (o == Refused(Conflict) <==> Present(s.db, id) && s.db.claims[id].status != Submitted)
      && (o == Refused(Forbidden) <==> AwaitsDecision(s.db, id) && !MayDecide(s.db.claims[id], role, user))
      && (o.Committed? <==> AwaitsDecision(s.db, id) && MayDecide(s.db.claims[id], role, user))
  {
    hide ApproversSound, AmountSound, Ladder, SnapshotSound, Agrees, Replayed;
    if AwaitsDecision(s.db, id) {
      assert RowSound(cfg, s.db, s.submitters, id);
      PendingIsCurrent(s.db.claims[id]);
    }
  }

  lemma DueStepBlank(cfg: Config, s: State, id: ClaimId)
    requires Inv(cfg, s) && AwaitsDecision(s.db, id)
    ensures var c := s.db.claims[id];
      && 1 <= c.currentStep <= |c.steps| && FirstPending(Statuses(c.steps)) == c.currentStep - 1
      && c.steps[c.currentStep - 1] == Step(c.steps[c.currentStep - 1].role, PendingStep, None, "")
  {
    hide AmountSound, Ladder, SnapshotSound, Agrees, Replayed;
    assert RowSound(cfg, s.db, s.submitters, id);
    PendingIsCurrent(s.db.claims[id]);
    CurrentStepBlank(s.db.claims[id], Replayed(s.db.audit, id));
  }

  /** An approval's answer, and the tables it leaves: the due step approved by the actor, the next step due or the claim
      approved, and one entry with step number, role and actor. */
  lemma ApprovalExact(cfg: Config, s: State, id: ClaimId, role: Role, user: UserId)
    requires Inv(cfg, s)
    ensures var o := Serve(cfg, s.db, ApproveReq(id, role, user));
      && (o == Refused(NotFound) <==> !Present(s.db, id))
      && (o == Refused(Conflict) <==> Present(s.db, id) && s.db.claims[id].status != Submitted)
      && (o == Refused(Forbidden) <==> AwaitsDecision(s.db, id) && !MayDecide(s.db.claims[id], role, user))
      && (o.Committed? <==> AwaitsDecision(s.db, id) && MayDecide(s.db.claims[id], role, user))
      && (o.Committed? ==>
            var c := s.db.claims[id];
            && 1 <= c.currentStep <= |c.steps|
            && var acted := c.(steps := Decided(c, user, ApprovedStep, ""));
            var c' := if c.currentStep == |c.steps| then acted.(status := Approved)
                      else acted.(currentStep := c.currentStep + 1);
            o.db == Recorded(s.db, id, c', Entry(user, id, ApproveLogged(c.currentStep, role))))
  {
    hide Inv, Statuses, FirstPending;
    DecisionRefusals(cfg, s, id, role, user, true, "");
    if AwaitsDecision(s.db, id) {
      DueStepBlank(cfg, s, id);
    }
  }

  /** A rejection's answer, and the tables it leaves: the due step rejected by the actor with the note, the claim rejected,
      and one entry with step number, role, actor and note. */
  lemma RejectionExact(cfg: Config, s: State, id: ClaimId, role: Role, user: UserId, note: string)
    requires Inv(cfg, s)
    ensures var o := Serve(cfg, s.db, RejectReq(id, role, user, note));
      && (o == Refused(Validation) <==> note == "")
      && (o == Refused(NotFound) <==> note != "" && !Present(s.db, id))
      && (o == Refused(Conflict) <==> note != "" && Present(s.db, id) && s.db.claims[id].status != Submitted)
      && (o == Refused(Forbidden) <==>
            note != "" && AwaitsDecision(s.db, id) && !MayDecide(s.db.claims[id], role, user))
      && (o.Committed? <==> note != "" && AwaitsDecision(s.db, id) && MayDecide(s.db.claims[id], role, user))
      && (o.Committed? ==>
            var c := s.db.claims[id];
            && 1 <= c.currentStep <= |c.steps|
            && o.db == Recorded(s.db, id, c.(steps := Decided(c, user, RejectedStep, note), status := Rejected),
                                Entry(user, id, RejectLogged(c.currentStep, role, note))))
  {
    hide Inv, Statuses, FirstPending;
    DecisionRefusals(cfg, s, id, role, user, false, note);
    if AwaitsDecision(s.db, id) {
      DueStepBlank(cfg, s, id);
    }
  }

  /** A cancellation's answer, and the tables it leaves: the claim cancelled, its rows as they were, and one entry with
      the owner and the claim's amount. */
  lemma CancellationAnswers(cfg: Config, s: State, id: ClaimId, role: Role, user: UserId)
    requires Inv(cfg, s)
    ensures var o := Serve(cfg, s.db, CancelReq(id, role, user));
      && (o == Refused(NotFound) <==> !Present(s.db, id))
      && (o == Refused(Forbidden) <==> Present(s.db, id) && s.db.claims[id].employee != user)
      && (o == Refused(Conflict) <==>
            Own(s.db, id, user) && !(s.db.claims[id].status == Submitted && s.db.claims[id].currentStep == 1))
      && (o.Committed? <==>
            Own(s.db, id, user) && s.db.claims[id].status == Submitted && s.db.claims[id].currentStep == 1)
      && (o.Committed? ==>
            var c := s.db.claims[id];
            o.db == Recorded(s.db, id, c.(status := Cancelled), Entry(user, id, CancelLogged(MoneyText(c.amount)))))
  {
    hide ApproversSound, AmountSound, Ladder, SnapshotSound, Agrees, Replayed, MoneyText;
    if AwaitsDecision(s.db, id) {
      assert RowSound(cfg, s.db, s.submitters, id);
      CancelWindow(s.db.claims[id]);
    }
  }

  /** A payment's answer, and the tables it leaves: the claim paid, and one entry with the payer and the claim's amount. */
  lemma PaymentAnswers(cfg: Config, db: Db, id: ClaimId, role: Role, user: UserId)
    ensures var o := Serve(cfg, db, PayReq(id, role, user));
      && (o == Refused(Forbidden) <==> role != Finance)
      && (o == Refused(NotFound) <==> role == Finance && !Present(db, id))
      && (o == Refused(Conflict) <==> role == Finance && Present(db, id) && db.claims[id].status != Approved)
      && (o.Committed? <==> role == Finance && Present(db, id) && db.claims[id].status == Approved)
      && (o.Committed? ==>
            var c := db.claims[id];
            o.db == Recorded(db, id, c.(status := Paid), Entry(user, id, PayLogged(MoneyText(c.amount)))))
  {
    hide MoneyText;
  }

  // ---------- the transition guard ----------

  /** The guard of the lifecycle is open exactly where some actor's transaction commits; for a cancellation that is where, in
      addition, nobody has acted yet. */
  lemma GuardIsExact(cfg: Config, s: State, id: ClaimId, chain: seq<Role>, amount: string)
    requires Inv(cfg, s) && Present(s.db, id)
    ensures var (c, owner) := (s.db.claims[id], s.db.claims[id].employee);
      && (CanTransition(c.status, SubmitAction) <==> CommitSubmit(s.db, id, owner, chain, amount).Committed?)
      && (CanTransition(c.status, ApproveAction) <==>
            exists role, user :: CommitDecide(s.db, id, role, user, true, "").Committed?)
      && (CanTransition(c.status, RejectAction) <==>
            exists role, user, note :: CommitDecide(s.db, id, role, user, false, note).Committed?)
      && (CanTransition(c.status, CancelAction) && c.currentStep == 1 <==> CommitCancel(s.db, id, owner).Committed?)
      && (CanTransition(c.status, PayAction) <==> CommitPay(s.db, id, owner).Committed?)
  {
    hide Inv, CommitDecide, MoneyText, ActedCount;
    var c := s.db.claims[id];
    SubmissionCommits(s.db, id, c.employee, chain, amount);
    CancellationExact(cfg, s, id, c.employee);
    forall role, user, approve, note {
      DecisionRefusals(cfg, s, id, role, user, approve, note);
    }
    if c.status == Submitted {
      DueStepBlank(cfg, s, id);
      var role := c.steps[c.currentStep - 1].role;
      assert CommitDecide(s.db, id, role, c.employee + 1, true, "").Committed?;
      assert CommitDecide(s.db, id, role, c.employee + 1, false, "no").Committed?;
    }
  }

  // ---------- drafts ----------

  /** The body of a create or edit request is well formed: a calendar date, 1 to 50 items of 1 to 10000 pieces. */
  predicate BodyAccepted(date: Date, items: seq<Item>) {
    && 1 <= date.year && 1 <= date.month <= 12 && 1 <= date.day <= DaysInMonth(date.year, date.month)
    && 1 <= |items| <= 50 && forall it :: it in items ==> 1 <= it.quantity <= 10000
  }

  /** At most 30 days ahead, in an active category. */
  predicate ChargeAccepted(db: Db, category: CategoryId, date: Date, today: Date) {
    DayNumber(date) - DayNumber(today) <= 30 && category in db.categories && db.categories[category].active
  }

  /** The prices the table takes: at least one cent, at most 999,999,999.00 each, and less than 10^12 in all. */
  predicate PricesAccepted(items: seq<Item>) {
    (forall it :: it in items ==> 1 <= it.unitPrice <= 999_999_999_00) && Priced(items) < 1_000_000_000_000_00
  }

  lemma BodyWrittenOut(date: Date, items: seq<Item>)
    ensures BodyBinds(date, items) <==> BodyAccepted(date, items)
  {
    hide DaysInMonth;
    if BodyBinds(date, items) {
      forall it | it in items ensures 1 <= it.quantity <= 10000 {
        var i :| 0 <= i < |items| && items[i] == it;
      }
    } else if BodyAccepted(date, items) {
      assert forall i :: 0 <= i < |items| ==> items[i] in items;
    }
  }

  lemma PricesWrittenOut(items: seq<Item>)
    requires forall it :: it in items ==> 1 <= it.quantity <= 10000
    ensures RowsAccepted(items) && AmountAccepted(ItemsTotal(items)) <==> PricesAccepted(items)
  {
    hide ItemsTotal, Priced;
    ItemsTotalIsPriced(items);
    if RowsAccepted(items) {
      forall it | it in items ensures 1 <= it.unitPrice <= 999_999_999_00 {
        var i :| 0 <= i < |items| && items[i] == it;
        assert RowAccepted(items[i]);
      }
    }
    if PricesAccepted(items) {
      forall i | 0 <= i < |items| ensures RowAccepted(items[i]) {
        assert items[i] in items;
        LineFits(items[i]);
      }
    }
  }

  /** A creation's answer, and the tables it leaves: one more claim, a draft of the user at what its items cost. */
  lemma CreationExact(cfg: Config, db: Db, user: UserId, category: CategoryId, date: Date, items: seq<Item>, today: Date)
    ensures var o := Serve(cfg, db, CreateReq(user, category, date, items, today));
      && (o == Refused(Validation) <==> !BodyAccepted(date, items) || !ChargeAccepted(db, category, date, today))
      && (o == Refused(Internal) <==>
            && BodyAccepted(date, items) && ChargeAccepted(db, category, date, today)
            && (user !in db.users || !PricesAccepted(items)))
      && (o.Committed? <==>
            && BodyAccepted(date, items) && ChargeAccepted(db, category, date, today)
            && user in db.users && PricesAccepted(items))
      && (o.Committed? ==>
            o.db == db.(claims := db.claims + [Claim(user, category, date, items, Priced(items), Draft, 0, [], [], false)]))
  {
    hide BodyBinds, BodyAccepted, PricesAccepted, RowsAccepted, AmountAccepted, ItemsTotal, Priced, DayNumber;
    BodyWrittenOut(date, items);
    if BodyAccepted(date, items) {
      PiecesAccepted(date, items);
      PricesWrittenOut(items);
    }
    ItemsTotalIsPriced(items);
  }

  lemma PiecesAccepted(date: Date, items: seq<Item>)
    requires BodyAccepted(date, items)
    ensures forall it :: it in items ==> 1 <= it.quantity <= 10000
  {
  }

  /** A claim in the owner's edit window. */
  predicate EditableBy(db: Db, id: ClaimId, user: UserId) {
    Own(db, id, user) && db.claims[id].status in {Draft, Rejected}
  }

  /** An edit's answer, its claim read on one moment's tables and its category on another's. */
  lemma EditChecksExactly(cfg: Config, s: State, later: Db, id: ClaimId, role: Role, user: UserId, category: CategoryId,
                          date: Date, items: seq<Item>, today: Date)
    requires Inv(cfg, s)
    ensures var r := CheckSeen(cfg, [s.db, later], UpdateReq(id, role, user, category, date, items, today));
      && (r == Failure(NotFound) <==> BodyAccepted(date, items) && !Seen(s.db, id, role, user))
      && (r == Failure(Forbidden) <==>
            BodyAccepted(date, items) && Seen(s.db, id, role, user) && !Own(s.db, id, user))
      && (r == Failure(Conflict) <==> BodyAccepted(date, items) && Own(s.db, id, user) && !EditableBy(s.db, id, user))
      && (r == Failure(Validation) <==>
            || !BodyAccepted(date, items)
            || (EditableBy(s.db, id, user) && !ChargeAccepted(later, category, date, today)))
      && (r.Success? <==>
            BodyAccepted(date, items) && EditableBy(s.db, id, user) && ChargeAccepted(later, category, date, today))
      && (r.Success? ==> r.value == UpdatePlan(id, category, date, items))
  {
    hide DbSound, BodyBinds, BodyAccepted, DayNumber, Visible;
    BodyWrittenOut(date, items);
    SeenIsVisible(cfg, s, id, role, user);
  }

  /** The edit transaction: all of the claim's content replaced at what the new items cost, or everything as it was. */
  lemma EditCommits(db: Db, id: ClaimId, category: CategoryId, date: Date, items: seq<Item>)
    requires forall it :: it in items ==> 1 <= it.quantity <= 10000
    ensures var o := CommitUpdate(db, id, category, date, items);
      && (o.Committed? <==> id < |db.claims| && category in db.categories && PricesAccepted(items))
      && (!o.Committed? ==> o == Refused(Internal))
      && (o.Committed? ==>
            o.db == db.(claims := db.claims[id := db.claims[id].(category := category, date := date, items := items,
                                                                 amount := Priced(items))]))
  {
    hide PricesAccepted, RowsAccepted, AmountAccepted, ItemsTotal, Priced;
    PricesWrittenOut(items);
    ItemsTotalIsPriced(items);
  }

  /** A deletion's answer: the owner's draft, and nothing else, is marked deleted. */
  lemma DeletionExact(cfg: Config, s: State, id: ClaimId, role: Role, user: UserId)
    requires Inv(cfg, s)
    ensures var o := Serve(cfg, s.db, DeleteReq(id, role, user));
      && (o == Refused(NotFound) <==> !Seen(s.db, id, role, user))
      && (o == Refused(Forbidden) <==> Seen(s.db, id, role, user) && !Own(s.db, id, user))
      && (o == Refused(Conflict) <==> Own(s.db, id, user) && s.db.claims[id].status != Draft)
      && (o.Committed? <==> Own(s.db, id, user) && s.db.claims[id].status == Draft)
      && (o.Committed? ==> o.db == s.db.(claims := s.db.claims[id := s.db.claims[id].(deleted := true)]))
  {
    hide DbSound, Visible;
    SeenIsVisible(cfg, s, id, role, user);
  }

  /** An upload's answer: the owner's claim in DRAFT, REJECTED or SUBMITTED gets one more receipt. */
  lemma AttachmentExact(cfg: Config, s: State, id: ClaimId, role: Role, user: UserId)
    requires Inv(cfg, s)
    ensures var o := Serve(cfg, s.db, AttachReq(id, role, user));
      && (o == Refused(NotFound) <==> !Seen(s.db, id, role, user))
      && (o == Refused(Forbidden) <==> Seen(s.db, id, role, user) && !Own(s.db, id, user))
      && (o == Refused(Conflict) <==> Own(s.db, id, user) && s.db.claims[id].status in {Approved, Paid, Cancelled})
      && (o.Committed? <==> Own(s.db, id, user) && s.db.claims[id].status in {Draft, Rejected, Submitted})
      && (o.Committed? ==>
            o.db == s.db.(claims := s.db.claims[id := s.db.claims[id].(receipts := s.db.claims[id].receipts + [user])]))
  {
    hide ClaimSound, Agrees, SnapshotSound, Replayed;
    if id < |s.db.claims| {
      assert RowSound(cfg, s.db, s.submitters, id);
    }
  }

  // ---------- maintenance ----------

  /** A category is gone after its deletion unless a claim refers to it; nothing else changes. */
  lemma CategoryDeletedIff(db: Db, k: CategoryId)
    ensures var db' := Administer(db, DeleteCategory(k));
      && (k !in db'.categories <==> k !in db.categories || forall i :: 0 <= i < |db.claims| ==> db.claims[i].category != k)
      && (forall j :: j != k ==> (j in db'.categories <==> j in db.categories))
      && (forall j :: j in db'.categories ==> db'.categories[j] == db.categories[j])
      && db'.claims == db.claims && db'.users == db.users && db'.audit == db.audit
  {
  }

  /** A limit is absent or positive and below 10^12. */
  predicate LimitTaken(limit: Option<nat>) {
    limit.Some? ==> 1 <= limit.value < 1_000_000_000_000_00
  }

  /** User and category maintenance writes exactly the row it names, a new row only where there is none and an update only
      where there is one, and a category's row only with a limit the column takes. */
  lemma MaintenanceExact(db: Db, u: UserId, role: Role, k: CategoryId, row: Category)
    ensures u !in db.users ==> Administer(db, AddUser(u, role)) == db.(users := db.users[u := role])
    ensures u in db.users ==> Administer(db, AddUser(u, role)) == db
    ensures u in db.users ==> Administer(db, SetRole(u, role)) == db.(users := db.users[u := role])
    ensures u !in db.users ==> Administer(db, SetRole(u, role)) == db
    ensures Administer(db, AddCategory(k, row))
         == if k !in db.categories && LimitTaken(row.limit) then db.(categories := db.categories[k := row]) else db
    ensures Administer(db, SetCategory(k, row))
         == if k in db.categories && LimitTaken(row.limit) then db.(categories := db.categories[k := row]) else db
  {
  }
}
