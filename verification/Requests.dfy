/** Every request of the claim API in two phases, as the handlers run them: `CheckSeen` decides on what the handler's
    separate unlocked reads saw, `Commit` is the one transaction that follows. A refused commit rolls back, leaving every
    table as it was. `Check` is the case in which all reads see the same tables. */
module Requests {
  import opened Wrappers
  import opened Calendar
  import opened Decimal
  import opened StateMachine
  import opened Ledger

  datatype Request =
    | CreateReq(user: UserId, category: CategoryId, date: Date, items: seq<Item>, today: Date)
    | UpdateReq(id: ClaimId, role: Role, user: UserId, category: CategoryId, date: Date, items: seq<Item>, today: Date)
    | DeleteReq(id: ClaimId, role: Role, user: UserId)
    | AttachReq(id: ClaimId, role: Role, user: UserId)
    | SubmitReq(id: ClaimId, role: Role, user: UserId)
    | ApproveReq(id: ClaimId, role: Role, user: UserId)
    | RejectReq(id: ClaimId, role: Role, user: UserId, note: string)
    | CancelReq(id: ClaimId, role: Role, user: UserId)
    | PayReq(id: ClaimId, role: Role, user: UserId)

  /** What a request carries from its reads into its transaction. */
  datatype Plan =
    | CreatePlan(user: UserId, category: CategoryId, date: Date, items: seq<Item>)
    | UpdatePlan(id: ClaimId, category: CategoryId, date: Date, items: seq<Item>)
    | DeletePlan(id: ClaimId)
    | AttachPlan(id: ClaimId, user: UserId)
    | SubmitPlan(id: ClaimId, user: UserId, chain: seq<Role>, amount: string, submitter: Role)
    | DecidePlan(id: ClaimId, role: Role, user: UserId, approve: bool, note: string)
    | CancelPlan(id: ClaimId, user: UserId)
    | PayPlan(id: ClaimId, user: UserId)

  datatype Violation = ReceiptMissing(amount: string) | LimitExceeded(category: CategoryId, remaining: string)

  datatype Error =
    | NotFound
    | Forbidden
    | Conflict
    | Validation
    | PolicyFailed(violations: seq<Violation>)
    | NoEligibleApprover
    | DuplicateSuspected(date: Date)
    | Internal

  datatype Outcome = Committed(db: Db) | Refused(error: Error)

  // ---------- reads ----------

  /** The scoped detail query finds the claim: not deleted, both joins match, and an employee sees only own claims. */
  predicate Visible(db: Db, id: ClaimId, role: Role, user: UserId) {
    && id < |db.claims|
    && var c := db.claims[id];
    && !c.deleted && c.employee in db.users && c.category in db.categories
    && (role != Employee || c.employee == user)
  }

  /** The request binding rules of an item list. */
  predicate ItemsBind(items: seq<Item>) {
    1 <= |items| <= 50 && forall i :: 0 <= i < |items| ==> 1 <= items[i].quantity <= 10000
  }

  /** The request binding rules of a claim body: the items and a well-formed date. */
  predicate BodyBinds(date: Date, items: seq<Item>) {
    ValidDate(date) && ItemsBind(items)
  }

  /** At most 30 days ahead. */
  predicate DateAllowed(date: Date, today: Date) {
    DayNumber(date) <= DayNumber(today) + 30
  }

  predicate ActiveCategory(db: Db, k: CategoryId) {
    k in db.categories && db.categories[k].active
  }

  function CountAttachments(db: Db, id: ClaimId): nat {
    if id < |db.claims| then |db.claims[id].receipts| else 0
  }

  function ReceiptCheck(cfg: Config, amount: nat, receipts: nat): seq<Violation> {
    if CompareNumeric(MoneyText(amount), cfg.receiptThreshold) > 0 && receipts == 0
    then [ReceiptMissing(MoneyText(amount))]
    else []
  }

  function ReceiptViolations(cfg: Config, c: Claim): seq<Violation> {
    ReceiptCheck(cfg, c.amount, |c.receipts|)
  }

  function LimitCheck(limit: Option<string>, spent: string, amount: nat, category: CategoryId): seq<Violation> {
    match limit
    case None => []
    case Some(limit) =>
      if CompareNumeric(AddNumeric(spent, MoneyText(amount)), limit) > 0
      then [LimitExceeded(category, RemainingText(limit, spent))]
      else []
  }

  function LimitViolations(db: Db, id: ClaimId): seq<Violation>
    requires id < |db.claims|
  {
    var c := db.claims[id];
    var spent := MonthlyCategorySpend(db.claims, c.employee, c.category, c.date, id);
    LimitCheck(CategoryMonthlyLimit(db, c.category), spent, c.amount, c.category)
  }

  /** The policy engine on five separate reads: the claim, its receipts, the limit, the spend and the duplicates. */
  function CheckSubmitReads(cfg: Config, db: Db, counted: Db, limits: Db, spending: Db, others: Db,
                            id: ClaimId, role: Role, user: UserId): Result<Plan, Error>
  {
    if !Visible(db, id, role, user) then Failure(NotFound)
    else
      var c := db.claims[id];
      if c.employee != user then Failure(Forbidden)
      else if !CanTransition(c.status, SubmitAction) then Failure(Conflict)
      else
        var spent := MonthlyCategorySpend(spending.claims, c.employee, c.category, c.date, id);
        var violations := ReceiptCheck(cfg, c.amount, CountAttachments(counted, id)) +
                          LimitCheck(CategoryMonthlyLimit(limits, c.category), spent, c.amount, c.category);
        var duplicate := FindDuplicate(others.claims, c.employee, c.amount, c.date, id);
        if duplicate.Some? then Failure(DuplicateSuspected(duplicate.value))
        else if violations != [] then Failure(PolicyFailed(violations))
        else
          var submitter := db.users[c.employee];
          var amount := MoneyText(c.amount);
          var chain := Without(ApprovalChain(amount, cfg.t1, cfg.t2), submitter);
          if chain == [] then Failure(NoEligibleApprover)
          else Success(SubmitPlan(id, user, chain, amount, submitter))
  }

  function CheckSubmit(cfg: Config, db: Db, id: ClaimId, role: Role, user: UserId): Result<Plan, Error> {
    CheckSubmitReads(cfg, db, db, db, db, db, id, role, user)
  }

  function CheckCreate(db: Db, user: UserId, category: CategoryId, date: Date, items: seq<Item>, today: Date)
    : Result<Plan, Error>
  {
    if !BodyBinds(date, items) || !DateAllowed(date, today) || !ActiveCategory(db, category) then Failure(Validation)
    else Success(CreatePlan(user, category, date, items))
  }

  /** An edit on two separate reads: the claim, then the category. */
  function CheckUpdateReads(db: Db, categories: Db, id: ClaimId, role: Role, user: UserId, category: CategoryId,
                            date: Date, items: seq<Item>, today: Date): Result<Plan, Error>
  {
    if !BodyBinds(date, items) then Failure(Validation)
    else if !Visible(db, id, role, user) then Failure(NotFound)
    else if db.claims[id].employee != user then Failure(Forbidden)
    else if db.claims[id].status != Draft && db.claims[id].status != Rejected then Failure(Conflict)
    else if !DateAllowed(date, today) || !ActiveCategory(categories, category) then Failure(Validation)
    else Success(UpdatePlan(id, category, date, items))
  }

  function CheckUpdate(db: Db, id: ClaimId, role: Role, user: UserId, category: CategoryId, date: Date,
                       items: seq<Item>, today: Date): Result<Plan, Error>
  {
    CheckUpdateReads(db, db, id, role, user, category, date, items, today)
  }

  function CheckDelete(db: Db, id: ClaimId, role: Role, user: UserId): Result<Plan, Error> {
    if !Visible(db, id, role, user) then Failure(NotFound)
    else if db.claims[id].employee != user then Failure(Forbidden)
    else if db.claims[id].status != Draft then Failure(Conflict)
    else Success(DeletePlan(id))
  }

  function CheckAttach(db: Db, id: ClaimId, role: Role, user: UserId): Result<Plan, Error> {
    if !Visible(db, id, role, user) then Failure(NotFound)
    else
      var c := db.claims[id];
      if c.employee != user then Failure(Forbidden)
      else if c.status != Draft && c.status != Rejected && c.status != Submitted then Failure(Conflict)
      else Success(AttachPlan(id, user))
  }

  function Check(cfg: Config, db: Db, req: Request): Result<Plan, Error> {
    match req
    case CreateReq(user, category, date, items, today) => CheckCreate(db, user, category, date, items, today)
    case UpdateReq(id, role, user, category, date, items, today) =>
      CheckUpdate(db, id, role, user, category, date, items, today)
    case DeleteReq(id, role, user) => CheckDelete(db, id, role, user)
    case AttachReq(id, role, user) => CheckAttach(db, id, role, user)
    case SubmitReq(id, role, user) => CheckSubmit(cfg, db, id, role, user)
    case ApproveReq(id, role, user) => Success(DecidePlan(id, role, user, true, ""))
    case RejectReq(id, role, user, note) =>
      if note == "" then Failure(Validation) else Success(DecidePlan(id, role, user, false, note))
    case CancelReq(id, role, user) => Success(CancelPlan(id, user))
    case PayReq(id, role, user) => if role != Finance then Failure(Forbidden) else Success(PayPlan(id, user))
  }

  /** How many statements a request may read with before its transaction. */
  function Reads(req: Request): nat {
    match req
    case SubmitReq(_, _, _) => 5
    case UpdateReq(_, _, _, _, _, _, _) => 2
    case _ => 1
  }

  /** The decision on separate reads, each of which saw the tables of its own moment. */
  function CheckSeen(cfg: Config, seen: seq<Db>, req: Request): Result<Plan, Error>
    requires |seen| >= Reads(req)
  {
    match req
    case SubmitReq(id, role, user) => CheckSubmitReads(cfg, seen[0], seen[1], seen[2], seen[3], seen[4], id, role, user)
    case UpdateReq(id, role, user, category, date, items, today) =>
      CheckUpdateReads(seen[0], seen[1], id, role, user, category, date, items, today)
    case _ => Check(cfg, seen[0], req)
  }

  // ---------- single-claim effects ----------

  function NewClaim(user: UserId, category: CategoryId, date: Date, items: seq<Item>): Claim {
    Claim(user, category, date, items, ItemsTotal(items), Draft, 0, [], [], false)
  }

  function Edited(c: Claim, category: CategoryId, date: Date, items: seq<Item>): Claim {
    c.(category := category, date := date, items := items, amount := ItemsTotal(items))
  }

  function FreshSteps(chain: seq<Role>): seq<Step> {
    seq(|chain|, i requires 0 <= i < |chain| => Step(chain[i], PendingStep, None, ""))
  }

  function Resubmitted(c: Claim, chain: seq<Role>): Claim {
    c.(status := Submitted, currentStep := 1, steps := FreshSteps(chain))
  }

  function Statuses(steps: seq<Step>): (out: seq<StepStatus>)
    ensures |out| == |steps| && forall i :: 0 <= i < |steps| ==> out[i] == steps[i].status
  {
    seq(|steps|, i requires 0 <= i < |steps| => steps[i].status)
  }

  function ApprovedAt(c: Claim, idx: nat, user: UserId): Claim
    requires idx < |c.steps|
  {
    var c' := c.(steps := c.steps[idx := c.steps[idx].(status := ApprovedStep, approver := Some(user))]);
    if idx == |c.steps| - 1 then c'.(status := Approved) else c'.(currentStep := idx + 2)
  }

  function RejectedAt(c: Claim, idx: nat, user: UserId, note: string): Claim
    requires idx < |c.steps|
  {
    c.(steps := c.steps[idx := c.steps[idx].(status := RejectedStep, approver := Some(user), note := note)],
       status := Rejected)
  }

  // ---------- transactions ----------

  function PutClaim(db: Db, id: ClaimId, c: Claim): Db
    requires id < |db.claims|
  {
    db.(claims := db.claims[id := c])
  }

  function Log(db: Db, actor: UserId, id: ClaimId, action: Logged): Db {
    db.(audit := db.audit + [Entry(actor, id, action)])
  }

  /** SELECT ... FOR UPDATE on a claim that is not deleted. */
  predicate Lockable(db: Db, id: ClaimId) {
    id < |db.claims| && !db.claims[id].deleted
  }

  function CommitCreate(db: Db, user: UserId, category: CategoryId, date: Date, items: seq<Item>): Outcome {
    if user in db.users && category in db.categories && RowsAccepted(items) && AmountAccepted(ItemsTotal(items))
    then Committed(db.(claims := db.claims + [NewClaim(user, category, date, items)]))
    else Refused(Internal)
  }

  function CommitUpdate(db: Db, id: ClaimId, category: CategoryId, date: Date, items: seq<Item>): Outcome {
    if id < |db.claims| && category in db.categories && RowsAccepted(items) && AmountAccepted(ItemsTotal(items))
    then Committed(PutClaim(db, id, Edited(db.claims[id], category, date, items)))
    else Refused(Internal)
  }

  function CommitDelete(db: Db, id: ClaimId): Outcome {
    if id < |db.claims| then Committed(PutClaim(db, id, db.claims[id].(deleted := true))) else Committed(db)
  }

  function CommitAttach(db: Db, id: ClaimId, user: UserId): Outcome {
    if id < |db.claims| && user in db.users
    then Committed(PutClaim(db, id, db.claims[id].(receipts := db.claims[id].receipts + [user])))
    else Refused(Internal)
  }

  function CommitSubmit(db: Db, id: ClaimId, user: UserId, chain: seq<Role>, amount: string): Outcome {
    if !Lockable(db, id) then Refused(NotFound)
    else if !CanTransition(db.claims[id].status, SubmitAction) then Refused(Conflict)
    else Committed(Log(PutClaim(db, id, Resubmitted(db.claims[id], chain)), user, id, SubmitLogged(amount)))
  }

  function CommitDecide(db: Db, id: ClaimId, role: Role, user: UserId, approve: bool, note: string): Outcome {
    if !Lockable(db, id) then Refused(NotFound)
    else
      var c := db.claims[id];
      if c.status != Submitted then Refused(Conflict)
      else
        var idx := FirstPending(Statuses(c.steps));
        if idx < 0 then Refused(Conflict)
        else if c.steps[idx].role != role then Refused(Forbidden)
        else if user == c.employee then Refused(Forbidden)
        else if approve then
          Committed(Log(PutClaim(db, id, ApprovedAt(c, idx, user)), user, id, ApproveLogged(idx + 1, role)))
        else
          Committed(Log(PutClaim(db, id, RejectedAt(c, idx, user, note)), user, id, RejectLogged(idx + 1, role, note)))
  }

  /** The number of approval rows somebody has acted on. */
  function ActedCount(steps: seq<Step>): nat {
    if steps == [] then 0
    else ActedCount(steps[..|steps| - 1]) + (if steps[|steps| - 1].status != PendingStep then 1 else 0)
  }

  function CommitCancel(db: Db, id: ClaimId, user: UserId): Outcome {
    if !Lockable(db, id) then Refused(NotFound)
    else
      var c := db.claims[id];
      if c.employee != user then Refused(Forbidden)
      else if !CanTransition(c.status, CancelAction) then Refused(Conflict)
      else if ActedCount(c.steps) > 0 then Refused(Conflict)
      else Committed(Log(PutClaim(db, id, c.(status := Cancelled)), user, id, CancelLogged(MoneyText(c.amount))))
  }

  function CommitPay(db: Db, id: ClaimId, user: UserId): Outcome {
    if !Lockable(db, id) then Refused(NotFound)
    else
      var c := db.claims[id];
      if !CanTransition(c.status, PayAction) then Refused(Conflict)
      else Committed(Log(PutClaim(db, id, c.(status := Paid)), user, id, PayLogged(MoneyText(c.amount))))
  }

  function Commit(db: Db, plan: Plan): Outcome {
    match plan
    case CreatePlan(user, category, date, items) => CommitCreate(db, user, category, date, items)
    case UpdatePlan(id, category, date, items) => CommitUpdate(db, id, category, date, items)
    case DeletePlan(id) => CommitDelete(db, id)
    case AttachPlan(id, user) => CommitAttach(db, id, user)
    case SubmitPlan(id, user, chain, amount, _) => CommitSubmit(db, id, user, chain, amount)
    case DecidePlan(id, role, user, approve, note) => CommitDecide(db, id, role, user, approve, note)
    case CancelPlan(id, user) => CommitCancel(db, id, user)
    case PayPlan(id, user) => CommitPay(db, id, user)
  }

  function After(db: Db, o: Outcome): Db {
    match o
    case Committed(db') => db'
    case Refused(_) => db
  }

  /** One whole request with nothing in between its two phases. */
  function Serve(cfg: Config, db: Db, req: Request): Outcome {
    match Check(cfg, db, req)
    case Failure(e) => Refused(e)
    case Success(plan) => Commit(db, plan)
  }

  // ---------- administration ----------

  datatype AdminOp =
    | AddUser(user: UserId, role: Role)
    | SetRole(user: UserId, role: Role)
    | AddCategory(category: CategoryId, row: Category)
    | SetCategory(category: CategoryId, row: Category)
    | DeleteCategory(category: CategoryId)

  /** numeric(14,2) and positive, or no limit at all. */
  predicate LimitAccepted(limit: Option<nat>) {
    limit.Some? ==> 0 < limit.value < NUMERIC_14_2
  }

  predicate Referenced(db: Db, k: CategoryId) {
    exists i :: 0 <= i < |db.claims| && db.claims[i].category == k
  }

  /** User and category maintenance; a violated constraint leaves the tables as they were. */
  function Administer(db: Db, op: AdminOp): Db {
    match op
    case AddUser(u, role) => if u in db.users then db else db.(users := db.users[u := role])
    case SetRole(u, role) => if u in db.users then db.(users := db.users[u := role]) else db
    case AddCategory(k, row) =>
      if k in db.categories || !LimitAccepted(row.limit) then db else db.(categories := db.categories[k := row])
    case SetCategory(k, row) =>
      if k in db.categories && LimitAccepted(row.limit) then db.(categories := db.categories[k := row]) else db
    case DeleteCategory(k) =>
      if Referenced(db, k) then db else db.(categories := db.categories - {k})
  }
}
