/** The submit policy decided on exact cents, and the proof that the string-level checks decide the same. */
module Policy {
  import opened Wrappers
  import opened Calendar
  import opened Decimal
  import opened StateMachine
  import opened Ledger
  import opened Requests

  /** Configured thresholds are non-negative decimals within int64. */
  predicate ConfigReadable(cfg: Config) {
    Readable(cfg.t1) && Readable(cfg.t2) && Readable(cfg.receiptThreshold)
  }

  /** The monthly limit in force for a category, if any. */
  function LimitCents(db: Db, k: CategoryId): Option<nat> {
    if k in db.categories && db.categories[k].active then db.categories[k].limit else None
  }

  /** What the claim's owner has already spent in its category and month, the claim itself left out. */
  function OtherSpend(db: Db, id: ClaimId): nat
    requires id < |db.claims|
  {
    var c := db.claims[id];
    SpentCents(db.claims, c.employee, c.category, c.date, id)
  }

  predicate NeedsReceipt(cfg: Config, c: Claim)
    requires ConfigReadable(cfg)
  {
    c.amount > FloorCents(cfg.receiptThreshold) && c.receipts == []
  }

  predicate OverLimit(db: Db, id: ClaimId)
    requires id < |db.claims|
  {
    var limit := LimitCents(db, db.claims[id].category);
    limit.Some? && OtherSpend(db, id) + db.claims[id].amount > limit.value
  }

  predicate HasDuplicate(db: Db, id: ClaimId)
    requires id < |db.claims|
  {
    var c := db.claims[id];
    exists i :: 0 <= i < |db.claims| && DuplicateRow(i, db.claims[i], c.employee, c.amount, c.date, id)
  }

  /** The approvers a claim's amount demands, on exact cents. */
  function DueChain(cfg: Config, amount: nat, submitter: Role): seq<Role>
    requires ConfigReadable(cfg)
  {
    Without(Tier(amount, FloorCents(cfg.t1), FloorCents(cfg.t2)), submitter)
  }

  /** Every figure the policy handles fits in int64. */
  predicate FiguresFit(db: Db, id: ClaimId)
    requires id < |db.claims|
  {
    var limit := LimitCents(db, db.claims[id].category);
    && Fits64(db.claims[id].amount)
    && (limit.Some? ==> Fits64(limit.value) && Fits64(OtherSpend(db, id) + db.claims[id].amount))
  }

  lemma MoneyReadable(n: nat)
    requires Fits64(n)
    ensures Readable(MoneyText(n)) && FloorCents(MoneyText(n)) == n
  {
    MoneyTextValue(n);
  }

  lemma ZeroReadable()
    ensures Readable("0") && FloorCents("0") == 0
  {
    assert DotIndex("0") == 1;
    assert IntPart("0") == "0" && FracPart("0") == "";
    FloorCentsByParts("0");
    assert Frac2("") == "00" && "00"[..1] == "0" && "0"[..0] == "";
    assert DigitsValue("00") == 0;
  }

  /** The spend query's text reads as the exact spend. */
  lemma SpendTextReadable(cs: seq<Claim>, e: UserId, k: CategoryId, date: Date, excluded: int)
    requires Fits64(SpentCents(cs, e, k, date, excluded))
    ensures Readable(MonthlyCategorySpend(cs, e, k, date, excluded))
    ensures FloorCents(MonthlyCategorySpend(cs, e, k, date, excluded)) == SpentCents(cs, e, k, date, excluded)
  {
    if exists i :: 0 <= i < |cs| && SpendRow(i, cs[i], e, k, date, excluded) {
      MoneyReadable(SpentCents(cs, e, k, date, excluded));
    } else {
      SpentNothing(cs, e, k, date, excluded);
      ZeroReadable();
    }
  }

  function ReceiptBreach(cfg: Config, c: Claim): seq<Violation>
    requires ConfigReadable(cfg)
  {
    if NeedsReceipt(cfg, c) then [ReceiptMissing(MoneyText(c.amount))] else []
  }

  lemma ReceiptRefines(cfg: Config, c: Claim)
    requires ConfigReadable(cfg) && Fits64(c.amount)
    ensures ReceiptViolations(cfg, c) == ReceiptBreach(cfg, c)
  {
    MoneyReadable(c.amount);
    CompareIsOrder(MoneyText(c.amount), cfg.receiptThreshold);
  }

  /** The limit rule on three texts of known value: the comparison and the reported figure. */
  lemma LimitTextRefines(spent: string, s: nat, amount: nat, limit: nat)
    requires Readable(spent) && FloorCents(spent) == s
    requires Fits64(limit) && Fits64(s + amount)
    ensures CompareNumeric(AddNumeric(spent, MoneyText(amount)), MoneyText(limit)) > 0 <==> s + amount > limit
    ensures RemainingText(MoneyText(limit), spent) == MoneyText(Left(limit, s))
  {
    hide CompareNumeric, AddNumeric, MoneyText, RemainingText, FloorCents, IsDecimal;
    MoneyReadable(limit);
    assert AddNumeric(spent, MoneyText(amount)) == MoneyText(s + amount) by {
      MoneyReadable(amount);
      AddExact(spent, MoneyText(amount), s + amount);
    }
    assert CompareNumeric(MoneyText(s + amount), MoneyText(limit)) == Sign(s + amount - limit) by {
      MoneyReadable(s + amount);
      CompareIsOrder(MoneyText(s + amount), MoneyText(limit));
    }
    RemainingIsClamped(MoneyText(limit), spent);
  }

  /** The limit violation in exact cents. */
  function LimitBreach(db: Db, id: ClaimId): seq<Violation>
    requires id < |db.claims|
  {
    var k := db.claims[id].category;
    if OverLimit(db, id) then [LimitExceeded(k, MoneyText(Left(LimitCents(db, k).value, OtherSpend(db, id))))] else []
  }

  lemma LimitRefines(db: Db, id: ClaimId)
    requires id < |db.claims| && FiguresFit(db, id)
    ensures LimitViolations(db, id) == LimitBreach(db, id)
  {
    var c, limit := db.claims[id], LimitCents(db, db.claims[id].category);
    if limit.Some? {
      var spent := MonthlyCategorySpend(db.claims, c.employee, c.category, c.date, id);
      SpendTextReadable(db.claims, c.employee, c.category, c.date, id);
      LimitTextRefines(spent, OtherSpend(db, id), c.amount, limit.value);
    }
  }

  lemma ChainRefines(cfg: Config, amount: nat, submitter: Role)
    requires ConfigReadable(cfg) && Fits64(amount)
    ensures Without(ApprovalChain(MoneyText(amount), cfg.t1, cfg.t2), submitter) == DueChain(cfg, amount, submitter)
  {
    MoneyReadable(amount);
    ChainIsTier(MoneyText(amount), cfg.t1, cfg.t2);
  }

  /** The submit verdict on exact cents, as the business rules state it. */
  function Verdict(cfg: Config, db: Db, id: ClaimId, role: Role, user: UserId): Result<Plan, Error>
    requires ConfigReadable(cfg)
  {
    if !Visible(db, id, role, user) then Failure(NotFound)
    else
      var c := db.claims[id];
      if c.employee != user then Failure(Forbidden)
      else if c.status != Draft && c.status != Rejected then Failure(Conflict)
      else if HasDuplicate(db, id)
      then Failure(DuplicateSuspected(FindDuplicate(db.claims, c.employee, c.amount, c.date, id).value))
      else if NeedsReceipt(cfg, c) || OverLimit(db, id)
      then Failure(PolicyFailed(ReceiptBreach(cfg, c) + LimitBreach(db, id)))
      else
        var chain := DueChain(cfg, c.amount, db.users[c.employee]);
        if chain == [] then Failure(NoEligibleApprover)
        else Success(SubmitPlan(id, user, chain, MoneyText(c.amount), db.users[c.employee]))
  }

  /** The string-level policy engine refines the integer one: same refusals, same violations, same figures, same chain. */
  lemma SubmitRefinesCents(cfg: Config, db: Db, id: ClaimId, role: Role, user: UserId)
    requires ConfigReadable(cfg) && (id < |db.claims| ==> FiguresFit(db, id))
    ensures CheckSubmit(cfg, db, id, role, user) == Verdict(cfg, db, id, role, user)
  {
    hide MoneyText, FindDuplicate, ReceiptCheck, LimitCheck, ApprovalChain, Tier, Without, Left;
    hide OverLimit, NeedsReceipt, ConfigReadable, OtherSpend, LimitCents, Fits64;
    if Visible(db, id, role, user) {
      var c := db.claims[id];
      ReceiptRefines(cfg, c);
      LimitRefines(db, id);
      ChainRefines(cfg, c.amount, db.users[c.employee]);
    }
  }

  /** The rules a claim breaks. */
  datatype Rule = ReceiptRule | LimitRule | DuplicateRule

  function BrokenRules(cfg: Config, db: Db, id: ClaimId): set<Rule>
    requires ConfigReadable(cfg) && id < |db.claims|
  {
    (if NeedsReceipt(cfg, db.claims[id]) then {ReceiptRule} else {}) +
    (if OverLimit(db, id) then {LimitRule} else {}) +
    (if HasDuplicate(db, id) then {DuplicateRule} else {})
  }

  /** The rules an answer names. */
  function NamedRules(r: Result<Plan, Error>): set<Rule> {
    match r
    case Failure(DuplicateSuspected(_)) => {DuplicateRule}
    case Failure(PolicyFailed(vs)) =>
      (if exists i :: 0 <= i < |vs| && vs[i].ReceiptMissing? then {ReceiptRule} else {}) +
      (if exists i :: 0 <= i < |vs| && vs[i].LimitExceeded? then {LimitRule} else {})
    case _ => {}
  }

  /** A submission that reaches the policy engine: visible to its owner and in a submittable status. */
  predicate ReachesPolicy(db: Db, id: ClaimId, role: Role, user: UserId) {
    Visible(db, id, role, user) && db.claims[id].employee == user && CanTransition(db.claims[id].status, SubmitAction)
  }

  lemma NamedViolations(cfg: Config, db: Db, id: ClaimId)
    requires ConfigReadable(cfg) && id < |db.claims| && (NeedsReceipt(cfg, db.claims[id]) || OverLimit(db, id))
    ensures NamedRules(Failure(PolicyFailed(ReceiptBreach(cfg, db.claims[id]) + LimitBreach(db, id))))
         == BrokenRules(cfg, db, id) - {DuplicateRule}
  {
    hide MoneyText, OverLimit, NeedsReceipt, HasDuplicate, ConfigReadable, Left, LimitCents, OtherSpend;
    var vs := ReceiptBreach(cfg, db.claims[id]) + LimitBreach(db, id);
    assert NeedsReceipt(cfg, db.claims[id]) ==> vs[0].ReceiptMissing?;
    assert OverLimit(db, id) ==> vs[|vs| - 1].LimitExceeded?;
  }

  /** One round trip names every broken rule if and only if the claim is not both a suspected duplicate and in breach of
      another rule: a duplicate answer hides the accumulated violations. */
  lemma AllViolationsNamedIff(cfg: Config, db: Db, id: ClaimId, role: Role, user: UserId)
    requires ConfigReadable(cfg) && ReachesPolicy(db, id, role, user) && FiguresFit(db, id)
    ensures NamedRules(CheckSubmit(cfg, db, id, role, user)) == BrokenRules(cfg, db, id)
       <==> !(HasDuplicate(db, id) && (NeedsReceipt(cfg, db.claims[id]) || OverLimit(db, id)))
  {
    hide MoneyText, FindDuplicate, ReceiptBreach, LimitBreach, Without, OverLimit, NeedsReceipt, Readable, FiguresFit;
    hide CheckSubmit, HasDuplicate;
    SubmitRefinesCents(cfg, db, id, role, user);
    var receipt, over := NeedsReceipt(cfg, db.claims[id]), OverLimit(db, id);
    if HasDuplicate(db, id) {
      assert NamedRules(CheckSubmit(cfg, db, id, role, user)) == {DuplicateRule};
      if receipt {
        assert ReceiptRule in BrokenRules(cfg, db, id);
      } else if over {
        assert LimitRule in BrokenRules(cfg, db, id);
      }
    } else if receipt || over {
      NamedViolations(cfg, db, id);
    }
  }

  // ---------- who approves ----------

  lemma TierWithoutIff(amount: nat, t1: nat, t2: nat, submitter: Role)
    ensures Without(Tier(amount, t1, t2), submitter) == [] <==> submitter == Manager && amount <= t1
    ensures Admin in Without(Tier(amount, t1, t2), submitter) <==> amount > t1 && amount > t2 && submitter != Admin
  {
    hide Without;
    MatrixWithout(submitter);
  }

  /** An administrator is among the due approvers if and only if the amount is in the highest tier and the submitter is not
      an administrator. */
  lemma AdminApprovesIff(cfg: Config, amount: nat, submitter: Role)
    requires ConfigReadable(cfg)
    ensures Admin in DueChain(cfg, amount, submitter)
       <==> amount > FloorCents(cfg.t1) && amount > FloorCents(cfg.t2) && submitter != Admin
  {
    hide FloorCents, Without, Tier, IsDecimal;
    TierWithoutIff(amount, FloorCents(cfg.t1), FloorCents(cfg.t2), submitter);
  }

  /** A submission that reaches the policy engine is refused for want of an approver if and only if it breaks no rule, its
      owner is a manager and its amount is in the lowest tier. */
  lemma NoApproverIff(cfg: Config, db: Db, id: ClaimId, role: Role, user: UserId)
    requires ConfigReadable(cfg) && ReachesPolicy(db, id, role, user) && FiguresFit(db, id)
    ensures CheckSubmit(cfg, db, id, role, user) == Failure(NoEligibleApprover)
       <==> && BrokenRules(cfg, db, id) == {}
            && db.users[db.claims[id].employee] == Manager && db.claims[id].amount <= FloorCents(cfg.t1)
  {
    hide MoneyText, FindDuplicate, ReceiptBreach, LimitBreach, Without, OverLimit, NeedsReceipt, IsDecimal, FiguresFit, Tier;
    hide CheckSubmit, HasDuplicate, FloorCents;
    SubmitRefinesCents(cfg, db, id, role, user);
    TierWithoutIff(db.claims[id].amount, FloorCents(cfg.t1), FloorCents(cfg.t2), db.users[db.claims[id].employee]);
    assert NeedsReceipt(cfg, db.claims[id]) ==> ReceiptRule in BrokenRules(cfg, db, id);
    assert OverLimit(db, id) ==> LimitRule in BrokenRules(cfg, db, id);
    assert HasDuplicate(db, id) ==> DuplicateRule in BrokenRules(cfg, db, id);
  }
}
