/** Concrete runs from the empty database: interleavings in which a commit with stale reads breaks a policy or the edit
    window, a submission whose answer hides a violation, and two histories that the audit log cannot tell apart. */
module Counterexamples {
  import opened Wrappers
  import opened Calendar
  import opened Decimal
  import opened StateMachine
  import opened Ledger
  import opened Requests
  import opened Policy
  import opened Lifecycle
  import opened Machine
  import opened Interleavings
  import opened PolicyRuns
  import opened SpendCap

  const OWNER: UserId := 7
  const MEALS: CategoryId := 3
  const DAY := Date(2026, 8, 3)
  const LUNCH := [Item(1, 1500)]
  const DINNER := [Item(1, 2000)]
  const FEAST := [Item(1, 3000)]
  const BANQUET := [Item(1, 60000)]
  const LIMIT: nat := 2500
  const BOSS: UserId := 9
  const CASHIER: UserId := 11

  function Tiers(): Config {
    Config(MoneyText(50000), MoneyText(500000), MoneyText(50000))
  }

  /** A user of a role, a category with a limit of 25.00, and two drafts of that user. */
  function Opening(role: Role, first: seq<Item>, second: seq<Item>): seq<Event> {
    [ Maintain(AddUser(OWNER, role)),
      Maintain(AddCategory(MEALS, Category(Some(LIMIT), true))),
      Begin(0, CreateReq(OWNER, MEALS, DAY, first, DAY)), Finish(0),
      Begin(0, CreateReq(OWNER, MEALS, DAY, second, DAY)), Finish(0) ]
  }

  function OpeningDb(role: Role, first: seq<Item>, second: seq<Item>): Db {
    Db([NewClaim(OWNER, MEALS, DAY, first), NewClaim(OWNER, MEALS, DAY, second)],
       map[OWNER := role], map[MEALS := Category(Some(LIMIT), true)], [])
  }

  function Opened(role: Role, first: seq<Item>, second: seq<Item>): State {
    State(OpeningDb(role, first, second), map[], map[], map[])
  }

  /** An employee's drafts of 15.00 and 20.00. */
  function TwoDrafts(): seq<Event> {
    Opening(Employee, LUNCH, DINNER)
  }

  function DraftDb(): Db {
    OpeningDb(Employee, LUNCH, DINNER)
  }

  const DRAFTS := Opened(Employee, LUNCH, DINNER)

  lemma ExecCons(cfg: Config, s: State, ev: Event, rest: seq<Event>)
    ensures Exec(cfg, s, [ev] + rest) == Exec(cfg, StepState(cfg, s, ev), rest)
  {
    assert ([ev] + rest)[1..] == rest;
  }

  lemma {:induction false} ExecAppend(cfg: Config, s: State, a: seq<Event>, b: seq<Event>)
    ensures Exec(cfg, s, a + b) == Exec(cfg, Exec(cfg, s, a), b)
    decreases |a|
  {
    if a == [] {
      assert a + b == b;
    } else {
      assert a + b == [a[0]] + (a[1..] + b);
      ExecCons(cfg, s, a[0], a[1..] + b);
      ExecAppend(cfg, StepState(cfg, s, a[0]), a[1..], b);
    }
  }

  lemma ItemAmounts()
    ensures ItemsTotal(LUNCH) == 1500 && ItemsTotal(DINNER) == 2000
    ensures ItemsTotal(FEAST) == 3000 && ItemsTotal(BANQUET) == 60000
  {
    assert LUNCH[..0] == [] && DINNER[..0] == [] && FEAST[..0] == [] && BANQUET[..0] == [];
  }

  predicate OnTheMenu(items: seq<Item>) {
    items == LUNCH || items == DINNER || items == FEAST
  }

  lemma CreateWhole(cfg: Config, s: State, items: seq<Item>)
    requires s.inflight == map[] && s.reading == map[] && OWNER in s.db.users && ActiveCategory(s.db, MEALS)
    requires OnTheMenu(items)
    ensures var req := CreateReq(OWNER, MEALS, DAY, items, DAY);
      StepState(cfg, StepState(cfg, s, Begin(0, req)), Finish(0))
        == s.(db := s.db.(claims := s.db.claims + [NewClaim(OWNER, MEALS, DAY, items)]))
  {
    hide ItemsTotal, NewClaim, DayNumber;
    ItemAmounts();
    WholeIsServe(cfg, s, 0, CreateReq(OWNER, MEALS, DAY, items, DAY));
  }

  lemma SetupMaintenance(cfg: Config, role: Role)
    ensures var s1 := State(Db([], map[OWNER := role], map[], []), map[], map[], map[]);
      && StepState(cfg, INIT, Maintain(AddUser(OWNER, role))) == s1
      && StepState(cfg, s1, Maintain(AddCategory(MEALS, Category(Some(LIMIT), true))))
         == s1.(db := Db([], map[OWNER := role], map[MEALS := Category(Some(LIMIT), true)], []))
  {
  }

  lemma OpeningReached(cfg: Config, role: Role, first: seq<Item>, second: seq<Item>)
    requires OnTheMenu(first) && OnTheMenu(second)
    ensures Reached(cfg, Opening(role, first, second)) == Opened(role, first, second)
  {
    hide StepState, NewClaim, OnTheMenu, Whole;
    var s1 := State(Db([], map[OWNER := role], map[], []), map[], map[], map[]);
    var s2 := s1.(db := Db([], map[OWNER := role], map[MEALS := Category(Some(LIMIT), true)], []));
    var s3 := s2.(db := s2.db.(claims := [NewClaim(OWNER, MEALS, DAY, first)]));
    var evs := Opening(role, first, second);
    var a, b := CreateReq(OWNER, MEALS, DAY, first, DAY), CreateReq(OWNER, MEALS, DAY, second, DAY);
    SetupMaintenance(cfg, role);
    CreateWhole(cfg, s2, first);
    CreateWhole(cfg, s3, second);
    WholeEvents(0, a);
    WholeEvents(0, b);
    assert evs == [evs[0]] + ([evs[1]] + (Whole(0, a) + Whole(0, b)));
    ExecCons(cfg, INIT, evs[0], [evs[1]] + (Whole(0, a) + Whole(0, b)));
    ExecCons(cfg, s1, evs[1], Whole(0, a) + Whole(0, b));
    ExecWhole(cfg, s2, 0, a, Whole(0, b));
    assert Whole(0, b) + [] == Whole(0, b);
    ExecWhole(cfg, s3, 0, b, []);
    assert s2.db.claims + [NewClaim(OWNER, MEALS, DAY, first)] == s3.db.claims;
    assert s3.db.claims + [NewClaim(OWNER, MEALS, DAY, second)] == OpeningDb(role, first, second).claims;
  }

  lemma WholeEvents(r: nat, req: Request)
    ensures Whole(r, req) == [Begin(r, req), Finish(r)]
  {
  }

  // ---------- what the policy check says of the drafts ----------

  /** The documented tiers, with a small first threshold where the second approver is wanted. */
  lemma ConfigCents(t1: nat)
    requires t1 <= 50000
    ensures var cfg := Config(MoneyText(t1), MoneyText(500000), MoneyText(50000));
      && ConfigReadable(cfg) && FloorCents(cfg.t1) == t1 && FloorCents(cfg.t2) == 500000
      && FloorCents(cfg.receiptThreshold) == 50000
  {
    hide MoneyText, FloorCents, IsDecimal;
    MoneyReadable(t1);
    MoneyReadable(50000);
    MoneyReadable(500000);
  }

  lemma TiersReadable()
    ensures ConfigReadable(Tiers()) && FloorCents(Tiers().t1) == 50000 && FloorCents(Tiers().t2) == 500000
    ensures FloorCents(Tiers().receiptThreshold) == 50000
  {
    hide MoneyText, FloorCents, ConfigReadable;
    ConfigCents(50000);
  }

  /** Drafts spend nothing. */
  lemma DraftsSpendNothing(role: Role, first: seq<Item>, second: seq<Item>, excluded: int)
    ensures SpentCents(OpeningDb(role, first, second).claims, OWNER, MEALS, DAY, excluded) == 0
  {
    SpentNothing(OpeningDb(role, first, second).claims, OWNER, MEALS, DAY, excluded);
  }

  lemma DraftAmounts(role: Role)
    ensures var cs := OpeningDb(role, LUNCH, DINNER).claims;
      cs[0].amount == 1500 && cs[1].amount == 2000
  {
    ItemAmounts();
  }

  lemma NoDraftDuplicate(role: Role, id: ClaimId)
    requires id < 2
    ensures !HasDuplicate(OpeningDb(role, LUNCH, DINNER), id)
  {
    DraftAmounts(role);
  }

  lemma LowTier(cfg: Config)
    requires ConfigReadable(cfg) && FloorCents(cfg.t1) == 50000
    ensures DueChain(cfg, 1500, Employee) == [Manager] && DueChain(cfg, 2000, Employee) == [Manager]
  {
    hide FloorCents, ConfigReadable, Without;
    MatrixWithout(Employee);
  }

  /** Each draft of 15.00 or 20.00 passes the policy check, for the approvers due to its owner's role. */
  lemma DraftPasses(cfg: Config, role: Role, id: ClaimId)
    requires id < 2 && ConfigReadable(cfg) && FloorCents(cfg.receiptThreshold) == 50000
    requires DueChain(cfg, OpeningDb(role, LUNCH, DINNER).claims[id].amount, role) != []
    ensures var amount := OpeningDb(role, LUNCH, DINNER).claims[id].amount;
      CheckSubmit(cfg, OpeningDb(role, LUNCH, DINNER), id, role, OWNER)
        == Success(SubmitPlan(id, OWNER, DueChain(cfg, amount, role), MoneyText(amount), role))
  {
    hide MoneyText, FloorCents, IsDecimal, CheckSubmit, HasDuplicate, DueChain, SpentCents, ItemsTotal, ConfigReadable;
    DraftAmounts(role);
    DraftsSpendNothing(role, LUNCH, DINNER, id);
    NoDraftDuplicate(role, id);
    SubmitRefinesCents(cfg, OpeningDb(role, LUNCH, DINNER), id, role, OWNER);
  }

  lemma DraftSubmits(id: ClaimId)
    requires id < 2
    ensures CheckSubmit(Tiers(), DraftDb(), id, Employee, OWNER) == Success(DraftPlan(id))
  {
    hide MoneyText, FloorCents, CheckSubmit, DueChain, ItemsTotal, ConfigReadable;
    TiersReadable();
    DraftAmounts(Employee);
    LowTier(Tiers());
    DraftPasses(Tiers(), Employee, id);
  }

  // ---------- two submissions race ----------

  /** Both owners' checks run before either commit. */
  function Race(): seq<Event> {
    [ Begin(0, SubmitReq(0, Employee, OWNER)), Begin(1, SubmitReq(1, Employee, OWNER)), Finish(0), Finish(1) ]
  }

  function DraftPlan(id: ClaimId): Plan
    requires id < 2
  {
    SubmitPlan(id, OWNER, [Manager], MoneyText(DraftDb().claims[id].amount), Employee)
  }

  lemma RaceCommits(cfg: Config, s: State)
    requires s.db == DraftDb() && 0 in s.inflight && 1 in s.inflight
    requires s.inflight[0].plan == DraftPlan(0) && s.inflight[1].plan == DraftPlan(1)
    ensures var cs := StepState(cfg, StepState(cfg, s, Finish(0)), Finish(1)).db.claims;
      cs == [Resubmitted(DraftDb().claims[0], [Manager]), Resubmitted(DraftDb().claims[1], [Manager])]
  {
    hide MoneyText, ItemsTotal, FreshSteps;
  }

  lemma RaceRuns()
    ensures Exec(Tiers(), DRAFTS, Race()).db.claims
         == [Resubmitted(DraftDb().claims[0], [Manager]), Resubmitted(DraftDb().claims[1], [Manager])]
  {
    hide StepState, Resubmitted, OpeningDb;
    var cfg := Tiers();
    var s1 := DRAFTS.(inflight := map[0 := Ticket(SubmitReq(0, Employee, OWNER), DraftPlan(0))]);
    var s2 := s1.(inflight := s1.inflight[1 := Ticket(SubmitReq(1, Employee, OWNER), DraftPlan(1))]);
    var s3 := StepState(cfg, s2, Finish(0));
    BeginSubmit(s1, s2);
    RaceCommits(cfg, s2);
    assert Race() == [Race()[0]] + ([Race()[1]] + ([Finish(0)] + ([Finish(1)] + [])));
    ExecCons(cfg, DRAFTS, Race()[0], [Race()[1]] + ([Finish(0)] + ([Finish(1)] + [])));
    ExecCons(cfg, s1, Race()[1], [Finish(0)] + ([Finish(1)] + []));
    ExecCons(cfg, s2, Finish(0), [Finish(1)] + []);
    ExecCons(cfg, s3, Finish(1), []);
  }

  lemma BeginSubmit(s1: State, s2: State)
    requires s1 == DRAFTS.(inflight := map[0 := Ticket(SubmitReq(0, Employee, OWNER), DraftPlan(0))])
    requires s2 == s1.(inflight := s1.inflight[1 := Ticket(SubmitReq(1, Employee, OWNER), DraftPlan(1))])
    ensures StepState(Tiers(), DRAFTS, Begin(0, SubmitReq(0, Employee, OWNER))) == s1
    ensures StepState(Tiers(), s1, Begin(1, SubmitReq(1, Employee, OWNER))) == s2
  {
    hide CheckSubmit, OpeningDb, MoneyText;
    DraftSubmits(0);
    DraftSubmits(1);
  }

  lemma RaceSpend()
    ensures var cs := [Resubmitted(DraftDb().claims[0], [Manager]), Resubmitted(DraftDb().claims[1], [Manager])];
      Spent(cs, OWNER, MEALS, DAY) == 3500
  {
    hide ItemsTotal, FreshSteps;
    DraftAmounts(Employee);
    var cs := [Resubmitted(DraftDb().claims[0], [Manager]), Resubmitted(DraftDb().claims[1], [Manager])];
    assert cs[..1] == [cs[0]] && cs[..1][..0] == [];
    var w := SpendWeight(OWNER, MEALS, DAY, -1);
    assert Total(cs, w) == Total(cs[..1], w) + w(1, cs[1]);
    assert Total(cs[..1], w) == Total([], w) + w(0, cs[0]);
  }

  /** Two drafts that each fit the limit are submitted by racing requests: the limit never changes, and the month's spend
      ends above it. */
  lemma RacingSubmissionsBreakCap()
    ensures LimitFixed(Tiers(), INIT, TwoDrafts() + Race(), MEALS, LIMIT)
    ensures Spent(Reached(Tiers(), TwoDrafts() + Race()).db.claims, OWNER, MEALS, DAY) == 3500 > LIMIT
  {
    hide Exec, Resubmitted, FreshRun, LimitFixed, MoneyText, Spent, Tiers, OpeningDb;
    ExecAppend(Tiers(), INIT, TwoDrafts(), Race());
    OpeningReached(Tiers(), Employee, LUNCH, DINNER);
    RaceRuns();
    RaceSpend();
    LimitStaysFixed(Tiers(), INIT, TwoDrafts() + Race(), MEALS, LIMIT);
  }

  // ---------- an edit overtaken by a submission ----------

  /** The owner's edit is checked, the claim is submitted, then the edit is written. */
  function Overtaken(): seq<Event> {
    [ Begin(0, UpdateReq(0, Employee, OWNER, MEALS, DAY, BANQUET, DAY)),
      Begin(1, SubmitReq(0, Employee, OWNER)), Finish(1), Finish(0) ]
  }

  lemma OvertakenBegins(s1: State, s2: State)
    requires s1 == DRAFTS.(inflight := map[0 := Ticket(Overtaken()[0].req, UpdatePlan(0, MEALS, DAY, BANQUET))])
    requires s2 == s1.(inflight := s1.inflight[1 := Ticket(Overtaken()[1].req, DraftPlan(0))])
    ensures StepState(Tiers(), DRAFTS, Overtaken()[0]) == s1 && StepState(Tiers(), s1, Overtaken()[1]) == s2
  {
    hide CheckSubmit, MoneyText, DayNumber, ItemsTotal;
    DraftSubmits(0);
  }

  lemma OvertakenCommits(cfg: Config, s: State)
    requires s.db == DraftDb() && s.submitters == map[] && 0 in s.inflight && 1 in s.inflight
    requires s.inflight[0].plan == UpdatePlan(0, MEALS, DAY, BANQUET) && s.inflight[1].plan == DraftPlan(0)
    ensures var s' := StepState(cfg, StepState(cfg, s, Finish(1)), Finish(0));
      && |s'.db.claims| == 2 && s'.submitters == map[0 := Employee]
      && s'.db.claims[0] == Edited(Resubmitted(DraftDb().claims[0], [Manager]), MEALS, DAY, BANQUET)
  {
    hide MoneyText, ItemsTotal, FreshSteps;
    ItemAmounts();
  }

  lemma OvertakenRuns()
    ensures var s := Exec(Tiers(), DRAFTS, Overtaken());
      && |s.db.claims| == 2 && s.submitters == map[0 := Employee]
      && s.db.claims[0] == Edited(Resubmitted(DraftDb().claims[0], [Manager]), MEALS, DAY, BANQUET)
  {
    hide StepState, Resubmitted, OpeningDb, Edited, Tiers;
    var cfg, evs := Tiers(), Overtaken();
    var s1 := DRAFTS.(inflight := map[0 := Ticket(evs[0].req, UpdatePlan(0, MEALS, DAY, BANQUET))]);
    var s2 := s1.(inflight := s1.inflight[1 := Ticket(evs[1].req, DraftPlan(0))]);
    OvertakenBegins(s1, s2);
    OvertakenCommits(cfg, s2);
    assert evs == [evs[0]] + ([evs[1]] + ([Finish(1)] + ([Finish(0)] + [])));
    ExecCons(cfg, DRAFTS, evs[0], [evs[1]] + ([Finish(1)] + ([Finish(0)] + [])));
    ExecCons(cfg, s1, evs[1], [Finish(1)] + ([Finish(0)] + []));
    ExecCons(cfg, s2, Finish(1), [Finish(0)] + []);
    ExecCons(cfg, StepState(cfg, s2, Finish(1)), Finish(0), []);
  }

  /** A submitted claim of 600.00 ends with the manager as its only approver, although its amount demands finance too. */
  lemma OvertakenEditBreaksTier()
    ensures var s := Reached(Tiers(), TwoDrafts() + Overtaken());
      && |s.db.claims| == 2 && IsLive(s.db.claims[0]) && s.db.claims[0].amount == 60000
      && s.submitters == map[0 := Employee] && Roles(s.db.claims[0].steps) == [Manager]
    ensures ConfigReadable(Tiers())
    ensures DueChain(Tiers(), 60000, Employee) == [Manager, Finance]
  {
    hide Exec, Resubmitted, MoneyText, ConfigReadable, DueChain, Edited, Tiers, Roles, IsLive;
    ExecAppend(Tiers(), INIT, TwoDrafts(), Overtaken());
    OpeningReached(Tiers(), Employee, LUNCH, DINNER);
    OvertakenRuns();
    BanquetClaim(DraftDb().claims[0]);
    TiersReadable();
    MiddleTier(Tiers());
  }

  lemma BanquetClaim(c: Claim)
    requires !c.deleted
    ensures var c' := Edited(Resubmitted(c, [Manager]), MEALS, DAY, BANQUET);
      IsLive(c') && c'.amount == 60000 && Roles(c'.steps) == [Manager]
  {
    hide ItemsTotal;
    ItemAmounts();
    ResubmittedContent(c, [Manager]);
  }

  lemma MiddleTier(cfg: Config)
    requires ConfigReadable(cfg) && FloorCents(cfg.t1) == 50000 && FloorCents(cfg.t2) == 500000
    ensures DueChain(cfg, 60000, Employee) == [Manager, Finance]
  {
    hide FloorCents, ConfigReadable, Without;
    MatrixWithout(Employee);
  }

  // ---------- a deletion overtaken by a submission ----------

  /** The owner's deletion is checked, the claim is submitted, then the deletion is written. */
  function OvertakenDelete(): seq<Event> {
    [ Begin(0, DeleteReq(0, Employee, OWNER)), Begin(1, SubmitReq(0, Employee, OWNER)), Finish(1) ]
  }

  lemma DeleteBegins(s1: State, s2: State)
    requires s1 == DRAFTS.(inflight := map[0 := Ticket(DeleteReq(0, Employee, OWNER), DeletePlan(0))])
    requires s2 == s1.(inflight := s1.inflight[1 := Ticket(SubmitReq(0, Employee, OWNER), DraftPlan(0))])
    ensures StepState(Tiers(), DRAFTS, OvertakenDelete()[0]) == s1 && StepState(Tiers(), s1, OvertakenDelete()[1]) == s2
  {
    hide CheckSubmit, MoneyText, DayNumber, ItemsTotal;
    DraftSubmits(0);
  }

  lemma DeleteCommits(cfg: Config, s: State)
    requires s.db == DraftDb() && 0 in s.inflight && 1 in s.inflight
    requires s.inflight[0] == Ticket(DeleteReq(0, Employee, OWNER), DeletePlan(0)) && s.inflight[1].plan == DraftPlan(0)
    ensures var s' := StepState(cfg, s, Finish(1));
      && 0 in s'.inflight && s'.inflight[0] == s.inflight[0] && |s'.db.claims| == 2
      && s'.db.claims[0] == Resubmitted(DraftDb().claims[0], [Manager])
      && StepState(cfg, s', Finish(0)).db.claims == s'.db.claims[0 := s'.db.claims[0].(deleted := true)]
  {
    hide MoneyText, ItemsTotal, FreshSteps;
  }

  /** A claim that is awaiting its manager is deleted: outside the window in which the owner may delete. */
  lemma OvertakenDeleteLeavesWindow()
    ensures var s := Reached(Tiers(), TwoDrafts() + OvertakenDelete());
      && 0 in s.inflight && |s.db.claims| == 2 && s.db.claims[0].status == Submitted && !s.db.claims[0].deleted
      && !InWindow(s.inflight[0].req, s.db.claims[0])
      && StepState(Tiers(), s, Finish(0)).db.claims == s.db.claims[0 := s.db.claims[0].(deleted := true)]
  {
    hide StepState, Exec, Tiers, DraftPlan, FreshSteps, ItemsTotal;
    var cfg, evs := Tiers(), OvertakenDelete();
    var s1 := DRAFTS.(inflight := map[0 := Ticket(DeleteReq(0, Employee, OWNER), DeletePlan(0))]);
    var s2 := s1.(inflight := s1.inflight[1 := Ticket(SubmitReq(0, Employee, OWNER), DraftPlan(0))]);
    DeleteBegins(s1, s2);
    DeleteCommits(cfg, s2);
    ExecAppend(cfg, INIT, TwoDrafts(), evs);
    OpeningReached(cfg, Employee, LUNCH, DINNER);
    ExecThree(cfg, DRAFTS, evs[0], evs[1], evs[2]);
  }

  // ---------- an edit overtaken by a payment ----------

  lemma FirstApproval(cfg: Config, d: Db, c: Claim, chain: seq<Role>)
    requires |d.claims| == 2 && d.claims[0] == Resubmitted(c, chain) && chain != [] && chain[0] == Manager
    requires !c.deleted && c.employee == OWNER
    ensures Serve(cfg, d, ApproveReq(0, Manager, BOSS))
         == Committed(Log(PutClaim(d, 0, ApprovedAt(d.claims[0], 0, BOSS)), BOSS, 0, ApproveLogged(1, Manager)))
  {
    assert Statuses(FreshSteps(chain))[0] == PendingStep;
  }

  /** The owner's edit is checked; then the claim is submitted, approved and paid. */
  function PaidFirst(): seq<Event> {
    [Begin(0, UpdateReq(0, Employee, OWNER, MEALS, DAY, BANQUET, DAY))]
    + (Whole(1, SubmitReq(0, Employee, OWNER)) + (Whole(1, ApproveReq(0, Manager, BOSS)) + Whole(1, PayReq(0, Finance, CASHIER))))
  }

  lemma DraftServed(cfg: Config)
    requires CheckSubmit(cfg, DraftDb(), 0, Employee, OWNER) == Success(DraftPlan(0))
    ensures var (d, c) := (DraftDb(), DraftDb().claims[0]);
      Serve(cfg, d, SubmitReq(0, Employee, OWNER))
        == Committed(Log(PutClaim(d, 0, Resubmitted(c, [Manager])), OWNER, 0, SubmitLogged(MoneyText(c.amount))))
  {
    hide CheckSubmit, MoneyText, ItemsTotal, FreshSteps;
  }

  lemma PaymentServed(cfg: Config, d: Db)
    requires |d.claims| == 2 && d.claims[0].status == Approved && !d.claims[0].deleted
    ensures Serve(cfg, d, PayReq(0, Finance, CASHIER))
         == Committed(Log(PutClaim(d, 0, d.claims[0].(status := Paid)), CASHIER, 0, PayLogged(MoneyText(d.claims[0].amount))))
  {
    hide MoneyText;
  }

  /** The tables after submission, approval and payment of the first draft. */
  lemma PaidTables(cfg: Config, d: Db)
    requires CheckSubmit(cfg, d, 0, Employee, OWNER) == Success(DraftPlan(0)) && d == DraftDb()
    ensures var d1 := After(d, Serve(cfg, d, SubmitReq(0, Employee, OWNER)));
      var d2 := After(d1, Serve(cfg, d1, ApproveReq(0, Manager, BOSS)));
      var d3 := After(d2, Serve(cfg, d2, PayReq(0, Finance, CASHIER)));
      && |d3.claims| == 2 && d3.claims[0].status == Paid && d3.claims[0].amount == 1500 && !d3.claims[0].deleted
      && Roles(d3.claims[0].steps) == [Manager]
      && d3.audit == [Entry(OWNER, 0, SubmitLogged(MoneyText(1500))), Entry(BOSS, 0, ApproveLogged(1, Manager)),
                      Entry(CASHIER, 0, PayLogged(MoneyText(1500)))]
      && d3.categories == d.categories
  {
    hide CheckSubmit, MoneyText, ItemsTotal, FirstPending, Serve, DraftPlan;
    DraftAmounts(Employee);
    DraftServed(cfg);
    var d1 := After(d, Serve(cfg, d, SubmitReq(0, Employee, OWNER)));
    FirstApproval(cfg, d1, d.claims[0], [Manager]);
    PaymentServed(cfg, After(d1, Serve(cfg, d1, ApproveReq(0, Manager, BOSS))));
    assert Roles(ApprovedAt(d1.claims[0], 0, BOSS).steps) == [Manager];
  }

  lemma PaidRun(cfg: Config, s: State)
    requires s.reading == map[] && 1 !in s.inflight
    ensures var evs := Whole(1, SubmitReq(0, Employee, OWNER))
                       + (Whole(1, ApproveReq(0, Manager, BOSS)) + Whole(1, PayReq(0, Finance, CASHIER)));
      var d1 := After(s.db, Serve(cfg, s.db, SubmitReq(0, Employee, OWNER)));
      var d2 := After(d1, Serve(cfg, d1, ApproveReq(0, Manager, BOSS)));
      var d3 := After(d2, Serve(cfg, d2, PayReq(0, Finance, CASHIER)));
      Exec(cfg, s, evs).db == d3 && Exec(cfg, s, evs).inflight == s.inflight
  {
    hide StepState, Serve, After, Whole;
    var submit, approve, pay := SubmitReq(0, Employee, OWNER), ApproveReq(0, Manager, BOSS), PayReq(0, Finance, CASHIER);
    var s1 := StepState(cfg, StepState(cfg, s, Begin(1, submit)), Finish(1));
    var s2 := StepState(cfg, StepState(cfg, s1, Begin(1, approve)), Finish(1));
    WholeIsServe(cfg, s, 1, submit);
    WholeIsServe(cfg, s1, 1, approve);
    WholeIsServe(cfg, s2, 1, pay);
    ExecWhole(cfg, s, 1, submit, Whole(1, approve) + Whole(1, pay));
    ExecWhole(cfg, s1, 1, approve, Whole(1, pay));
    assert Whole(1, pay) + [] == Whole(1, pay);
    ExecWhole(cfg, s2, 1, pay, []);
  }

  lemma LateEdit(cfg: Config, s: State)
    requires 0 in s.inflight && s.inflight[0].plan == UpdatePlan(0, MEALS, DAY, BANQUET)
    requires |s.db.claims| == 2 && MEALS in s.db.categories
    ensures var s' := StepState(cfg, s, Finish(0));
      && |s'.db.claims| == 2 && s'.db.audit == s.db.audit
      && s'.db.claims[0] == s.db.claims[0].(category := MEALS, date := DAY, items := BANQUET, amount := 60000)
  {
    hide ItemsTotal;
    ItemAmounts();
  }

  /** A claim paid at 15.00, as the log says, becomes a paid claim of 600.00 that only the manager approved. */
  lemma PaidClaimRewritten()
    ensures var s := Reached(Tiers(), TwoDrafts() + PaidFirst());
      var s' := StepState(Tiers(), s, Finish(0));
      && |s.db.claims| == 2 && s.db.claims[0].status == Paid && s.db.claims[0].amount == 1500
      && |s'.db.claims| == 2 && s'.db.claims[0].status == Paid && s'.db.claims[0].amount == 60000
      && Roles(s'.db.claims[0].steps) == [Manager]
      && s'.db.audit == [Entry(OWNER, 0, SubmitLogged(MoneyText(1500))), Entry(BOSS, 0, ApproveLogged(1, Manager)),
                         Entry(CASHIER, 0, PayLogged(MoneyText(1500)))]
  {
    hide StepState, Exec, Tiers, MoneyText, Serve, Roles, Whole, CheckSubmit, DraftPlan;
    var cfg, evs := Tiers(), PaidFirst();
    var s1 := DRAFTS.(inflight := map[0 := Ticket(evs[0].req, UpdatePlan(0, MEALS, DAY, BANQUET))]);
    EditBegins(s1);
    DraftSubmits(0);
    PaidTables(cfg, DraftDb());
    PaidRun(cfg, s1);
    ExecAppend(cfg, INIT, TwoDrafts(), evs);
    OpeningReached(cfg, Employee, LUNCH, DINNER);
    ExecCons(cfg, DRAFTS, evs[0], evs[1..]);
    assert evs == [evs[0]] + evs[1..];
    LateEdit(cfg, Reached(cfg, TwoDrafts() + evs));
  }

  lemma EditBegins(s1: State)
    requires s1 == DRAFTS.(inflight := map[0 := Ticket(PaidFirst()[0].req, UpdatePlan(0, MEALS, DAY, BANQUET))])
    ensures StepState(Tiers(), DRAFTS, PaidFirst()[0]) == s1
  {
    hide MoneyText, DayNumber, ItemsTotal;
  }

  // ---------- an answer that hides a violation ----------

  /** Two drafts of 30.00 each, under a limit of 25.00. */
  lemma DuplicateHidesLimit()
    ensures var db := Reached(Tiers(), Opening(Employee, FEAST, FEAST)).db;
      && |db.claims| == 2 && ConfigReadable(Tiers())
      && BrokenRules(Tiers(), db, 0) == {LimitRule, DuplicateRule}
      && CheckSubmit(Tiers(), db, 0, Employee, OWNER) == Failure(DuplicateSuspected(DAY))
      && NamedRules(CheckSubmit(Tiers(), db, 0, Employee, OWNER)) == {DuplicateRule}
  {
    hide MoneyText, FloorCents, IsDecimal, CheckSubmit, SpentCents, ItemsTotal, ConfigReadable, Exec, DayNumber;
    var db := OpeningDb(Employee, FEAST, FEAST);
    ItemAmounts();
    TiersReadable();
    OpeningReached(Tiers(), Employee, FEAST, FEAST);
    DraftsSpendNothing(Employee, FEAST, FEAST, 0);
    assert DuplicateRow(1, db.claims[1], OWNER, 3000, DAY, 0);
    SubmitRefinesCents(Tiers(), db, 0, Employee, OWNER);
  }

  // ---------- a claim without an approver ----------

  /** A manager's draft of 15.00 breaks no rule and cannot be submitted. */
  lemma ManagerHasNoApprover()
    ensures var db := Reached(Tiers(), Opening(Manager, LUNCH, DINNER)).db;
      && |db.claims| == 2 && ConfigReadable(Tiers())
      && BrokenRules(Tiers(), db, 0) == {}
      && CheckSubmit(Tiers(), db, 0, Manager, OWNER) == Failure(NoEligibleApprover)
  {
    hide MoneyText, FloorCents, IsDecimal, CheckSubmit, SpentCents, ItemsTotal, ConfigReadable, Exec, DayNumber, HasDuplicate;
    var db := OpeningDb(Manager, LUNCH, DINNER);
    TiersReadable();
    OpeningReached(Tiers(), Manager, LUNCH, DINNER);
    DraftAmounts(Manager);
    DraftsSpendNothing(Manager, LUNCH, DINNER, 0);
    NoDraftDuplicate(Manager, 0);
    NoApproverIff(Tiers(), db, 0, Manager, OWNER);
  }

  // ---------- two histories with one log ----------

  function SmallTiers(): Config {
    Config(MoneyText(1000), MoneyText(500000), MoneyText(50000))
  }

  /** The owner of the given role submits the draft of 15.00, and a manager approves it. */
  function Signed(role: Role): seq<Event> {
    Whole(0, SubmitReq(0, role, OWNER)) + Whole(0, ApproveReq(0, Manager, BOSS))
  }

  lemma SignedRun(cfg: Config, s: State, role: Role)
    requires s.reading == map[] && s.inflight == map[]
    ensures var d1 := After(s.db, Serve(cfg, s.db, SubmitReq(0, role, OWNER)));
      Exec(cfg, s, Signed(role)).db == After(d1, Serve(cfg, d1, ApproveReq(0, Manager, BOSS)))
  {
    hide StepState, Serve, After, Whole;
    var submit, approve := SubmitReq(0, role, OWNER), ApproveReq(0, Manager, BOSS);
    var s1 := StepState(cfg, StepState(cfg, s, Begin(0, submit)), Finish(0));
    WholeIsServe(cfg, s, 0, submit);
    WholeIsServe(cfg, s1, 0, approve);
    ExecWhole(cfg, s, 0, submit, Whole(0, approve));
    assert Whole(0, approve) + [] == Whole(0, approve);
    ExecWhole(cfg, s1, 0, approve, []);
  }

  lemma SignedTables(cfg: Config, role: Role, chain: seq<Role>)
    requires chain != [] && chain[0] == Manager
    requires var d := OpeningDb(role, LUNCH, DINNER);
      CheckSubmit(cfg, d, 0, role, OWNER) == Success(SubmitPlan(0, OWNER, chain, MoneyText(1500), role))
    ensures var d := OpeningDb(role, LUNCH, DINNER);
      var d1 := After(d, Serve(cfg, d, SubmitReq(0, role, OWNER)));
      var d2 := After(d1, Serve(cfg, d1, ApproveReq(0, Manager, BOSS)));
      && |d2.claims| == 2 && d2.claims[0].status == (if |chain| == 1 then Approved else Submitted)
      && d2.audit == [Entry(OWNER, 0, SubmitLogged(MoneyText(1500))), Entry(BOSS, 0, ApproveLogged(1, Manager))]
  {
    hide CheckSubmit, MoneyText, ItemsTotal, FirstPending;
    var d := OpeningDb(role, LUNCH, DINNER);
    FirstApproval(cfg, After(d, Serve(cfg, d, SubmitReq(0, role, OWNER))), d.claims[0], chain);
  }

  lemma SmallChain(cfg: Config, role: Role)
    requires ConfigReadable(cfg) && FloorCents(cfg.t1) == 1000 && FloorCents(cfg.t2) == 500000
    ensures DueChain(cfg, 1500, Employee) == [Manager, Finance] && DueChain(cfg, 1500, Finance) == [Manager]
  {
    hide FloorCents, ConfigReadable, Without;
    MatrixWithout(Employee);
    MatrixWithout(Finance);
  }

  lemma SignedReached(role: Role)
    requires role == Employee || role == Finance
    ensures var d := Reached(SmallTiers(), Opening(role, LUNCH, DINNER) + Signed(role)).db;
      && |d.claims| == 2 && d.claims[0].status == (if role == Finance then Approved else Submitted)
      && d.audit == [Entry(OWNER, 0, SubmitLogged(MoneyText(1500))), Entry(BOSS, 0, ApproveLogged(1, Manager))]
  {
    hide MoneyText, FloorCents, CheckSubmit, DueChain, ItemsTotal, ConfigReadable, Exec, Serve, Signed;
    var cfg := SmallTiers();
    ConfigCents(1000);
    SmallChain(cfg, role);
    DraftAmounts(role);
    DraftPasses(cfg, role, 0);
    SignedTables(cfg, role, DueChain(cfg, 1500, role));
    ExecAppend(cfg, INIT, Opening(role, LUNCH, DINNER), Signed(role));
    OpeningReached(cfg, role, LUNCH, DINNER);
    SignedRun(cfg, Opened(role, LUNCH, DINNER), role);
  }

  /** The submitter's role is indispensable: two runs leave the same log, and the claim awaits finance in the one, where
      its owner is an employee, and is approved in the other, where its owner is in finance. */
  lemma OneLogTwoStatuses()
    ensures var a := Reached(SmallTiers(), Opening(Employee, LUNCH, DINNER) + Signed(Employee)).db;
      var b := Reached(SmallTiers(), Opening(Finance, LUNCH, DINNER) + Signed(Finance)).db;
      && a.audit == b.audit && |a.claims| == 2 && |b.claims| == 2
      && a.claims[0].status == Submitted && b.claims[0].status == Approved
  {
    hide Exec, SmallTiers, Opening, Signed, MoneyText;
    SignedReached(Employee);
    SignedReached(Finance);
  }
}
