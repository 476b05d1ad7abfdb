/** The claim service as it runs: tables updated in place, statement by statement, each method proved to do to the tables
    exactly what the two-phase specification in `Requests` says. */
module Service {
  import opened Wrappers
  import opened Calendar
  import opened Decimal
  import opened StateMachine
  import opened Ledger
  import opened Requests

  /** A method's answer tells the same as an outcome. */
  predicate Answers(error: Option<Error>, o: Outcome) {
    match o
    case Committed(_) => error == None
    case Refused(e) => error == Some(e)
  }

  method StepStatuses(steps: seq<Step>) returns (out: seq<StepStatus>)
    ensures out == Statuses(steps)
  {
    out := [];
    for i := 0 to |steps|
      invariant |out| == i && forall j :: 0 <= j < i ==> out[j] == steps[j].status
    {
      out := out + [steps[i].status];
    }
  }

  class ClaimService {
    const cfg: Config
    var claims: seq<Claim>
    var users: map<UserId, Role>
    var categories: map<CategoryId, Category>
    var audit: seq<Entry>

    function Tables(): Db
      reads this
    {
      Db(claims, users, categories, audit)
    }

    constructor (cfg: Config)
      ensures this.cfg == cfg && Tables() == EMPTY_DB
    {
      this.cfg := cfg;
      claims, users, categories, audit := [], map[], map[], [];
    }

    /** audit.Write inside the caller's transaction. */
    method WriteAudit(actor: UserId, action: Logged, id: ClaimId)
      modifies this`audit
      ensures audit == old(audit) + [Entry(actor, id, action)]
    {
      audit := audit + [Entry(actor, id, action)];
    }

    // ---------- drafts ----------

    /** Inserts the item rows one at a time; stops at the first row the table refuses. */
    method InsertItems(id: ClaimId, items: seq<Item>) returns (ok: bool)
      requires id < |claims|
      modifies this`claims
      ensures ok <==> RowsAccepted(items)
      ensures ok ==> claims == old(claims)[id := old(claims)[id].(items := old(claims)[id].items + items)]
    {
      ghost var before := claims[id];
      assert before.items + items[..0] == before.items;
      for i := 0 to |items|
        invariant |claims| == |old(claims)|
        invariant claims == old(claims)[id := before.(items := before.items + items[..i])]
        invariant RowsAccepted(items[..i])
      {
        if !RowAccepted(items[i]) {
          return false;
        }
        assert before.items + items[..i] + [items[i]] == before.items + items[..i + 1];
        claims := claims[id := claims[id].(items := claims[id].items + [items[i]])];
      }
      assert items[..|items|] == items;
      ok := true;
    }

    /** Sets the header amount to the sum of the line totals, unless the column cannot hold it. */
    method RecalcAmount(id: ClaimId) returns (ok: bool)
      requires id < |claims|
      modifies this`claims
      ensures ok <==> AmountAccepted(ItemsTotal(old(claims)[id].items))
      ensures claims == if ok then old(claims)[id := old(claims)[id].(amount := ItemsTotal(old(claims)[id].items))]
                        else old(claims)
      ensures ok ==> claims[id].amount == Priced(claims[id].items)
    {
      ItemsTotalIsPriced(claims[id].items);
      var sum := ItemsTotal(claims[id].items);
      ok := AmountAccepted(sum);
      if ok {
        claims := claims[id := claims[id].(amount := sum)];
      }
    }

    /** Header, items and amount in one transaction; a refused row or sum rolls everything back. */
    method CreateClaim(user: UserId, category: CategoryId, date: Date, items: seq<Item>) returns (error: Option<Error>)
      modifies this`claims
      ensures var o := CommitCreate(old(Tables()), user, category, date, items);
        Tables() == After(old(Tables()), o) && Answers(error, o)
    {
      if user !in users || category !in categories {
        return Some(Internal);
      }
      var saved, id := claims, |claims|;
      claims := claims + [Claim(user, category, date, [], 0, Draft, 0, [], [], false)];
      var ok := InsertItems(id, items);
      if ok {
        assert claims[id].items == items;
        ok := RecalcAmount(id);
      }
      if !ok {
        claims := saved;
        return Some(Internal);
      }
      assert claims == saved + [NewClaim(user, category, date, items)];
      error := None;
    }

    /** Header update, wholesale item replacement and recomputed amount in one transaction. */
    method UpdateClaim(id: ClaimId, category: CategoryId, date: Date, items: seq<Item>) returns (error: Option<Error>)
      modifies this`claims
      ensures var o := CommitUpdate(old(Tables()), id, category, date, items);
        Tables() == After(old(Tables()), o) && Answers(error, o)
    {
      if category !in categories || id >= |claims| {
        return Some(Internal);
      }
      var saved := claims;
      claims := claims[id := claims[id].(category := category, date := date)];
      claims := claims[id := claims[id].(items := [])];
      var ok := InsertItems(id, items);
      if ok {
        assert claims[id].items == items;
        ok := RecalcAmount(id);
      }
      if !ok {
        claims := saved;
        return Some(Internal);
      }
      assert claims == saved[id := Edited(saved[id], category, date, items)];
      error := None;
    }

    method SoftDelete(id: ClaimId)
      modifies this`claims
      ensures Tables() == After(old(Tables()), CommitDelete(old(Tables()), id))
    {
      if id < |claims| {
        claims := claims[id := claims[id].(deleted := true)];
      }
    }

    method Create(user: UserId, category: CategoryId, date: Date, items: seq<Item>, today: Date)
      returns (error: Option<Error>)
      modifies this`claims
      ensures var o := Serve(cfg, old(Tables()), CreateReq(user, category, date, items, today));
        Tables() == After(old(Tables()), o) && Answers(error, o)
    {
      if !BodyBinds(date, items) || !DateAllowed(date, today) || !ActiveCategory(Tables(), category) {
        return Some(Validation);
      }
      error := CreateClaim(user, category, date, items);
    }

    method Update(id: ClaimId, role: Role, user: UserId, category: CategoryId, date: Date, items: seq<Item>, today: Date)
      returns (error: Option<Error>)
      modifies this`claims
      ensures var o := Serve(cfg, old(Tables()), UpdateReq(id, role, user, category, date, items, today));
        Tables() == After(old(Tables()), o) && Answers(error, o)
    {
      if !BodyBinds(date, items) {
        return Some(Validation);
      }
      if !Visible(Tables(), id, role, user) {
        return Some(NotFound);
      }
      if claims[id].employee != user {
        return Some(Forbidden);
      }
      if claims[id].status != Draft && claims[id].status != Rejected {
        return Some(Conflict);
      }
      if !DateAllowed(date, today) || !ActiveCategory(Tables(), category) {
        return Some(Validation);
      }
      error := UpdateClaim(id, category, date, items);
    }

    method Delete(id: ClaimId, role: Role, user: UserId) returns (error: Option<Error>)
      modifies this`claims
      ensures var o := Serve(cfg, old(Tables()), DeleteReq(id, role, user));
        Tables() == After(old(Tables()), o) && Answers(error, o)
    {
      if !Visible(Tables(), id, role, user) {
        return Some(NotFound);
      }
      if claims[id].employee != user {
        return Some(Forbidden);
      }
      if claims[id].status != Draft {
        return Some(Conflict);
      }
      SoftDelete(id);
      error := None;
    }

    method AddAttachment(id: ClaimId, role: Role, user: UserId) returns (error: Option<Error>)
      modifies this`claims
      ensures var o := Serve(cfg, old(Tables()), AttachReq(id, role, user));
        Tables() == After(old(Tables()), o) && Answers(error, o)
    {
      if !Visible(Tables(), id, role, user) {
        return Some(NotFound);
      }
      if claims[id].employee != user {
        return Some(Forbidden);
      }
      match claims[id].status {
        case Draft =>
        case Rejected =>
        case Submitted =>
        case _ => return Some(Conflict);
      }
      claims := claims[id := claims[id].(receipts := claims[id].receipts + [user])];
      error := None;
    }

    // ---------- submission ----------

    /** The limit rule's message figure. */
    method Remaining(limit: string, spent: string) returns (remaining: string)
      ensures remaining == RemainingText(limit, spent)
    {
      remaining := SubtractNumeric(limit, spent);
      if remaining != "" && (remaining[0] == '-' || remaining == "0.00") {
        remaining := "0.00";
      }
    }

    /** The policy engine, before any lock: violations accumulate, a duplicate answers at once. */
    method CheckPolicies(id: ClaimId, role: Role, user: UserId) returns (r: Result<Plan, Error>)
      ensures r == CheckSubmit(cfg, Tables(), id, role, user)
    {
      hide CompareNumeric, AddNumeric, MoneyText, RemainingText, MonthlyCategorySpend, FindDuplicate, ApprovalChain, Without;
      if !Visible(Tables(), id, role, user) {
        return Failure(NotFound);
      }
      var current := claims[id];
      if current.employee != user {
        return Failure(Forbidden);
      }
      if !CanTransition(current.status, SubmitAction) {
        return Failure(Conflict);
      }

      var amount := MoneyText(current.amount);
      var violations: seq<Violation> := [];
      if CompareNumeric(amount, cfg.receiptThreshold) > 0 {
        if |current.receipts| == 0 {
          violations := violations + [ReceiptMissing(amount)];
        }
      }
      assert violations == ReceiptViolations(cfg, current);

      var limit := CategoryMonthlyLimit(Tables(), current.category);
      if limit.Some? {
        var spent := MonthlyCategorySpend(claims, current.employee, current.category, current.date, id);
        if CompareNumeric(AddNumeric(spent, amount), limit.value) > 0 {
          var remaining := Remaining(limit.value, spent);
          violations := violations + [LimitExceeded(current.category, remaining)];
        }
      }
      assert violations == ReceiptViolations(cfg, current) + LimitViolations(Tables(), id);

      var duplicate := FindDuplicate(claims, current.employee, current.amount, current.date, id);
      if duplicate.Some? {
        return Failure(DuplicateSuspected(duplicate.value));
      }
      if violations != [] {
        return Failure(PolicyFailed(violations));
      }

      var submitter := users[current.employee];
      var chain := ExcludeSubmitter(ApprovalChain(amount, cfg.t1, cfg.t2), submitter);
      if chain == [] {
        return Failure(NoEligibleApprover);
      }
      r := Success(SubmitPlan(id, user, chain, amount, submitter));
    }

    /** The locked transaction: old approval rows out, one pending row per role in, status, step and audit row. */
    method WriteSubmission(id: ClaimId, user: UserId, chain: seq<Role>, amount: string) returns (error: Option<Error>)
      modifies this`claims, this`audit
      ensures var o := CommitSubmit(old(Tables()), id, user, chain, amount);
        Tables() == After(old(Tables()), o) && Answers(error, o)
    {
      if !Lockable(Tables(), id) {
        return Some(NotFound);
      }
      if !CanTransition(claims[id].status, SubmitAction) {
        return Some(Conflict);
      }
      ghost var before := claims[id];
      claims := claims[id := claims[id].(steps := [])];
      assert FreshSteps(chain[..0]) == [];
      for i := 0 to |chain|
        invariant |claims| == |old(claims)| && audit == old(audit)
        invariant claims == old(claims)[id := before.(steps := FreshSteps(chain[..i]))]
      {
        assert FreshSteps(chain[..i]) + [Step(chain[i], PendingStep, None, "")] == FreshSteps(chain[..i + 1]);
        claims := claims[id := claims[id].(steps := claims[id].steps + [Step(chain[i], PendingStep, None, "")])];
      }
      assert chain[..|chain|] == chain;
      claims := claims[id := claims[id].(status := Submitted, currentStep := 1)];
      assert claims == old(claims)[id := Resubmitted(before, chain)];
      WriteAudit(user, SubmitLogged(amount), id);
      error := None;
    }

    method Submit(id: ClaimId, role: Role, user: UserId) returns (error: Option<Error>)
      modifies this`claims, this`audit
      ensures var o := Serve(cfg, old(Tables()), SubmitReq(id, role, user));
        Tables() == After(old(Tables()), o) && Answers(error, o)
    {
      hide CheckSubmit, CommitSubmit;
      var checked := CheckPolicies(id, role, user);
      match checked {
        case Failure(e) => return Some(e);
        case Success(plan) =>
          SubmitPlanShape(cfg, Tables(), id, role, user);
          error := WriteSubmission(plan.id, plan.user, plan.chain, plan.amount);
      }
    }

    // ---------- decisions ----------

    /** Acts on the first pending step of a locked, submitted claim. */
    method Decide(id: ClaimId, role: Role, user: UserId, approve: bool, note: string) returns (error: Option<Error>)
      modifies this`claims, this`audit
      ensures var o := CommitDecide(old(Tables()), id, role, user, approve, note);
        Tables() == After(old(Tables()), o) && Answers(error, o)
    {
      hide FirstPending;
      if !Lockable(Tables(), id) {
        return Some(NotFound);
      }
      var claim := claims[id];
      if claim.status != Submitted {
        return Some(Conflict);
      }
      var statuses := StepStatuses(claim.steps);
      var idx := NextPendingIndex(statuses);
      if idx < 0 {
        return Some(Conflict);
      }
      var step := claim.steps[idx];
      if step.role != role {
        return Some(Forbidden);
      }
      if user == claim.employee {
        return Some(Forbidden);
      }
      if approve {
        var acted := claim.steps[idx := step.(status := ApprovedStep, approver := Some(user))];
        claims := claims[id := claims[id].(steps := acted)];
        if idx == |claim.steps| - 1 {
          claims := claims[id := claims[id].(status := Approved)];
        } else {
          claims := claims[id := claims[id].(currentStep := idx + 2)];
        }
        assert claims == old(claims)[id := ApprovedAt(claim, idx, user)];
        WriteAudit(user, ApproveLogged(idx + 1, role), id);
      } else {
        var acted := claim.steps[idx := step.(status := RejectedStep, approver := Some(user), note := note)];
        claims := claims[id := claims[id].(steps := acted)];
        claims := claims[id := claims[id].(status := Rejected)];
        assert claims == old(claims)[id := RejectedAt(claim, idx, user, note)];
        WriteAudit(user, RejectLogged(idx + 1, role, note), id);
      }
      error := None;
    }

    method Approve(id: ClaimId, role: Role, user: UserId) returns (error: Option<Error>)
      modifies this`claims, this`audit
      ensures var o := Serve(cfg, old(Tables()), ApproveReq(id, role, user));
        Tables() == After(old(Tables()), o) && Answers(error, o)
    {
      hide CommitDecide;
      error := Decide(id, role, user, true, "");
    }

    method Reject(id: ClaimId, role: Role, user: UserId, note: string) returns (error: Option<Error>)
      modifies this`claims, this`audit
      ensures var o := Serve(cfg, old(Tables()), RejectReq(id, role, user, note));
        Tables() == After(old(Tables()), o) && Answers(error, o)
    {
      hide CommitDecide;
      if note == "" {
        return Some(Validation);
      }
      error := Decide(id, role, user, false, note);
    }

    method Cancel(id: ClaimId, user: UserId) returns (error: Option<Error>)
      modifies this`claims, this`audit
      ensures var o := Serve(cfg, old(Tables()), CancelReq(id, Employee, user));
        Tables() == After(old(Tables()), o) && Answers(error, o)
    {
      hide MoneyText, ActedCount;
      if !Lockable(Tables(), id) {
        return Some(NotFound);
      }
      var claim := claims[id];
      if claim.employee != user {
        return Some(Forbidden);
      }
      if !CanTransition(claim.status, CancelAction) {
        return Some(Conflict);
      }
      if ActedCount(claim.steps) > 0 {
        return Some(Conflict);
      }
      claims := claims[id := claims[id].(status := Cancelled)];
      WriteAudit(user, CancelLogged(MoneyText(claim.amount)), id);
      error := None;
    }

    method Pay(id: ClaimId, role: Role, user: UserId) returns (error: Option<Error>)
      modifies this`claims, this`audit
      ensures var o := Serve(cfg, old(Tables()), PayReq(id, role, user));
        Tables() == After(old(Tables()), o) && Answers(error, o)
    {
      hide MoneyText;
      if role != Finance {
        return Some(Forbidden);
      }
      if !Lockable(Tables(), id) {
        return Some(NotFound);
      }
      var claim := claims[id];
      if !CanTransition(claim.status, PayAction) {
        return Some(Conflict);
      }
      claims := claims[id := claims[id].(status := Paid)];
      WriteAudit(user, PayLogged(MoneyText(claim.amount)), id);
      error := None;
    }
  }

  lemma SubmitPlanShape(cfg: Config, db: Db, id: ClaimId, role: Role, user: UserId)
    requires CheckSubmit(cfg, db, id, role, user).Success?
    ensures CheckSubmit(cfg, db, id, role, user).value.SubmitPlan?
  {
    hide ReceiptCheck, LimitCheck, FindDuplicate, ApprovalChain, Without, MoneyText;
  }
}
