/** All runs of the claim service: requests whose reads and transactions interleave freely, with user and category
    maintenance in between. Sequential service is the special case where every request finishes before the next event. */
module Machine {
  import opened Calendar
  import opened Decimal
  import opened StateMachine
  import opened Ledger
  import opened Requests
  import opened Lifecycle
  import opened Replay

  /** A request between its reads and its transaction. */
  datatype Ticket = Ticket(req: Request, plan: Plan)

  /** A request between two of its reads, with the tables that each read so far saw. */
  datatype Reading = Reading(req: Request, seen: seq<Db>)

  /** The tables, the requests under way, and, as history, each claim's submitter role as its last submission read it. */
  datatype State = State(db: Db, reading: map<nat, Reading>, inflight: map<nat, Ticket>, submitters: map<ClaimId, Role>)

  /** `Start` and `Read` are single reads; `Begin` is all reads of a request with nothing in between. */
  datatype Event = Start(r: nat, req: Request) | Read(r: nat) | Begin(r: nat, req: Request) | Finish(r: nat)
                 | Maintain(op: AdminOp)

  const INIT := State(EMPTY_DB, map[], map[], map[])

  predicate Busy(s: State, r: nat) {
    r in s.reading || r in s.inflight
  }

  /** One more read of a request; the last one decides. */
  function Look(cfg: Config, s: State, r: nat, req: Request, seen: seq<Db>): State {
    var seen' := seen + [s.db];
    if |seen'| < Reads(req) then s.(reading := s.reading[r := Reading(req, seen')])
    else
      var rest := s.(reading := s.reading - {r});
      match CheckSeen(cfg, seen', req)
      case Success(plan) => rest.(inflight := s.inflight[r := Ticket(req, plan)])
      case Failure(_) => rest
  }

  function Remember(submitters: map<ClaimId, Role>, plan: Plan, o: Outcome): map<ClaimId, Role> {
    if plan.SubmitPlan? && o.Committed? then submitters[plan.id := plan.submitter] else submitters
  }

  function StepState(cfg: Config, s: State, ev: Event): State {
    match ev
    case Start(r, req) => if Busy(s, r) then s else Look(cfg, s, r, req, [])
    case Read(r) => if r in s.reading then Look(cfg, s, r, s.reading[r].req, s.reading[r].seen) else s
    case Begin(r, req) =>
      (match Check(cfg, s.db, req)
       case Success(plan) => if Busy(s, r) then s else s.(inflight := s.inflight[r := Ticket(req, plan)])
       case Failure(_) => s)
    case Finish(r) =>
      if r !in s.inflight then s
      else
        var plan := s.inflight[r].plan;
        var o := Commit(s.db, plan);
        s.(db := After(s.db, o), inflight := s.inflight - {r}, submitters := Remember(s.submitters, plan, o))
    case Maintain(op) => s.(db := Administer(s.db, op))
  }

  function Exec(cfg: Config, s: State, evs: seq<Event>): State
    decreases |evs|
  {
    if evs == [] then s else Exec(cfg, StepState(cfg, s, evs[0]), evs[1..])
  }

  // ---------- the invariant of every interleaving ----------

  /** Owner-only requests hold the owner's id. */
  predicate OwnerHeld(db: Db, req: Request) {
    (req.UpdateReq? || req.DeleteReq? || req.AttachReq? || req.SubmitReq?) ==>
      req.id < |db.claims| && db.claims[req.id].employee == req.user
  }

  /** A plan carries what its request asked for, and a submit plan the chain of its own amount and submitter. */
  predicate PlanSound(cfg: Config, req: Request, plan: Plan) {
    match req
    case CreateReq(user, category, date, items, _) =>
      plan == CreatePlan(user, category, date, items) && BodyBinds(date, items)
    case UpdateReq(id, _, _, category, date, items, _) =>
      plan == UpdatePlan(id, category, date, items) && BodyBinds(date, items)
    case DeleteReq(id, _, _) => plan == DeletePlan(id)
    case AttachReq(id, _, user) => plan == AttachPlan(id, user)
    case SubmitReq(id, _, user) =>
      && plan.SubmitPlan? && plan.id == id && plan.user == user && plan.chain != []
      && plan.chain == Without(ApprovalChain(plan.amount, cfg.t1, cfg.t2), plan.submitter)
    case ApproveReq(id, role, user) => plan == DecidePlan(id, role, user, true, "")
    case RejectReq(id, role, user, note) => plan == DecidePlan(id, role, user, false, note) && note != ""
    case CancelReq(id, _, user) => plan == CancelPlan(id, user)
    case PayReq(id, role, user) => plan == PayPlan(id, user) && role == Finance
  }

  predicate TicketSound(cfg: Config, db: Db, t: Ticket) {
    OwnerHeld(db, t.req) && PlanSound(cfg, t.req, t.plan)
  }

  /** The approval rows of a claim that was ever submitted are the chain of the amount its last submission logged. */
  predicate SnapshotSound(cfg: Config, c: Claim, v: View, submitters: map<ClaimId, Role>, id: ClaimId)
    requires v.View?
  {
    c.status != Draft ==>
      id in submitters && Roles(c.steps) == Without(ApprovalChain(v.amount, cfg.t1, cfg.t2), submitters[id])
  }

  predicate RowSound(cfg: Config, db: Db, submitters: map<ClaimId, Role>, id: ClaimId)
    requires id < |db.claims|
  {
    var c, v := db.claims[id], Replayed(db.audit, id);
    && ClaimSound(c) && Agrees(v, c) && SnapshotSound(cfg, c, v, submitters, id)
    && c.employee in db.users && c.category in db.categories
  }

  predicate DbSound(cfg: Config, db: Db, submitters: map<ClaimId, Role>) {
    && (forall id :: 0 <= id < |db.claims| ==> RowSound(cfg, db, submitters, id))
    && (forall k :: 0 <= k < |db.audit| ==> db.audit[k].claim < |db.claims|)
  }

  /** A request between its reads has read the claim, on tables that have only grown since. */
  predicate ReadingSound(db: Db, rd: Reading) {
    0 < |rd.seen| < Reads(rd.req) && Grows(rd.seen[0], db)
  }

  predicate Inv(cfg: Config, s: State) {
    && DbSound(cfg, s.db, s.submitters)
    && (forall r :: r in s.inflight ==> TicketSound(cfg, s.db, s.inflight[r]))
    && (forall r :: r in s.reading ==> r !in s.inflight && ReadingSound(s.db, s.reading[r]))
  }

  /** What no step ever takes back: claims stay, owners stay, the log only grows. */
  predicate Grows(db: Db, db': Db) {
    && |db.claims| <= |db'.claims|
    && (forall i :: 0 <= i < |db.claims| ==> db'.claims[i].employee == db.claims[i].employee)
    && db.audit <= db'.audit
  }

  // ---------- carrying rows over ----------

  lemma RowCarries(cfg: Config, db: Db, subs: map<ClaimId, Role>, db': Db, subs': map<ClaimId, Role>, id: ClaimId)
    requires id < |db.claims| && id < |db'.claims| && RowSound(cfg, db, subs, id)
    requires db'.claims[id] == db.claims[id] && Replayed(db'.audit, id) == Replayed(db.audit, id)
    requires db.users.Keys <= db'.users.Keys && db.claims[id].category in db'.categories
    requires id in subs ==> id in subs' && subs'[id] == subs[id]
    ensures RowSound(cfg, db', subs', id)
  {
  }

  lemma {:induction false} UnmentionedReplay(log: seq<Entry>, id: ClaimId)
    requires forall k :: 0 <= k < |log| ==> log[k].claim != id
    ensures Replayed(log, id) == View(Unsubmitted, "", [])
  {
    if log != [] {
      UnmentionedReplay(log[..|log| - 1], id);
    }
  }

  /** Replacing one row, with or without a log entry about it, leaves every other row sound. */
  lemma PutKeeps(cfg: Config, db: Db, subs: map<ClaimId, Role>, id: ClaimId, c: Claim, log: seq<Entry>,
                 subs': map<ClaimId, Role>)
    requires DbSound(cfg, db, subs) && id < |db.claims|
    requires log == db.audit || (|log| == |db.audit| + 1 && log == db.audit + [log[|db.audit|]] && log[|db.audit|].claim == id)
    requires forall i :: i in subs && i != id ==> i in subs' && subs'[i] == subs[i]
    requires RowSound(cfg, db.(claims := db.claims[id := c], audit := log), subs', id)
    ensures DbSound(cfg, db.(claims := db.claims[id := c], audit := log), subs')
  {
    var db' := db.(claims := db.claims[id := c], audit := log);
    forall i | 0 <= i < |db'.claims| ensures RowSound(cfg, db', subs', i) {
      if i != id {
        if log != db.audit {
          ReplayAppend(db.audit, log[|db.audit|], i);
        }
        RowCarries(cfg, db, subs, db', subs', i);
      }
    }
  }

  // ---------- each transaction ----------

  lemma CreateKeeps(cfg: Config, db: Db, subs: map<ClaimId, Role>, user: UserId, category: CategoryId, date: Date,
                    items: seq<Item>)
    requires DbSound(cfg, db, subs) && ItemsBind(items)
    ensures DbSound(cfg, After(db, CommitCreate(db, user, category, date, items)), subs)
  {
    hide ClaimSound, Agrees, SnapshotSound;
    var o := CommitCreate(db, user, category, date, items);
    if o.Committed? {
      var c, n := NewClaim(user, category, date, items), |db.claims|;
      NewClaimSound(user, category, date, items);
      UnmentionedReplay(db.audit, n);
      NewRowAgrees(cfg, c, subs, n);
      forall i | 0 <= i < n ensures RowSound(cfg, o.db, subs, i) {
        RowCarries(cfg, db, subs, o.db, subs, i);
      }
    }
  }

  lemma NewRowAgrees(cfg: Config, c: Claim, subs: map<ClaimId, Role>, id: ClaimId)
    requires c.status == Draft && c.steps == []
    ensures Agrees(View(Unsubmitted, "", []), c) && SnapshotSound(cfg, c, View(Unsubmitted, "", []), subs, id)
  {
  }

  /** A change the log does not record keeps a row sound if it keeps the claim sound. */
  lemma UnloggedKeeps(cfg: Config, db: Db, subs: map<ClaimId, Role>, id: ClaimId, c: Claim)
    requires DbSound(cfg, db, subs) && id < |db.claims| && ClaimSound(c)
    requires c.steps == db.claims[id].steps && c.status == db.claims[id].status && c.employee == db.claims[id].employee
    requires c.category in db.categories
    ensures DbSound(cfg, PutClaim(db, id, c), subs)
  {
    hide ClaimSound, Agrees;
    var v := Replayed(db.audit, id);
    assert RowSound(cfg, db, subs, id);
    UnloggedAgrees(v, db.claims[id], c);
    PutKeeps(cfg, db, subs, id, c, db.audit, subs);
  }

  lemma UpdateKeeps(cfg: Config, db: Db, subs: map<ClaimId, Role>, id: ClaimId, category: CategoryId, date: Date,
                    items: seq<Item>)
    requires DbSound(cfg, db, subs) && ItemsBind(items)
    ensures DbSound(cfg, After(db, CommitUpdate(db, id, category, date, items)), subs)
  {
    hide ClaimSound, Agrees, SnapshotSound, RowsAccepted, AmountAccepted;
    if CommitUpdate(db, id, category, date, items).Committed? {
      assert RowSound(cfg, db, subs, id);
      EditedSound(db.claims[id], category, date, items);
      UnloggedKeeps(cfg, db, subs, id, Edited(db.claims[id], category, date, items));
    }
  }

  lemma DeleteKeeps(cfg: Config, db: Db, subs: map<ClaimId, Role>, id: ClaimId)
    requires DbSound(cfg, db, subs)
    ensures DbSound(cfg, After(db, CommitDelete(db, id)), subs)
  {
    hide Agrees, SnapshotSound;
    if id < |db.claims| {
      assert RowSound(cfg, db, subs, id);
      UnloggedKeeps(cfg, db, subs, id, db.claims[id].(deleted := true));
    }
  }

  lemma AttachKeeps(cfg: Config, db: Db, subs: map<ClaimId, Role>, id: ClaimId, user: UserId)
    requires DbSound(cfg, db, subs)
    ensures DbSound(cfg, After(db, CommitAttach(db, id, user)), subs)
  {
    hide Agrees, SnapshotSound;
    if id < |db.claims| {
      assert RowSound(cfg, db, subs, id);
      UnloggedKeeps(cfg, db, subs, id, db.claims[id].(receipts := db.claims[id].receipts + [user]));
    }
  }

  /** A logged change keeps the tables sound if claim, view and snapshot stay in step. */
  lemma LoggedKeeps(cfg: Config, db: Db, subs: map<ClaimId, Role>, id: ClaimId, c: Claim, e: Entry,
                    subs': map<ClaimId, Role>)
    requires DbSound(cfg, db, subs) && id < |db.claims| && ClaimSound(c) && e.claim == id
    requires c.employee == db.claims[id].employee && c.category == db.claims[id].category
    requires Agrees(Advance(Replayed(db.audit, id), e), c)
    requires SnapshotSound(cfg, c, Advance(Replayed(db.audit, id), e), subs', id)
    requires forall i :: i in subs && i != id ==> i in subs' && subs'[i] == subs[i]
    ensures DbSound(cfg, Log(PutClaim(db, id, c), e.actor, id, e.action), subs')
  {
    hide ClaimSound, Agrees, SnapshotSound, Advance;
    assert RowSound(cfg, db, subs, id);
    ReplayAppend(db.audit, e, id);
    PutKeeps(cfg, db, subs, id, c, db.audit + [e], subs');
  }

  lemma SubmitKeeps(cfg: Config, db: Db, subs: map<ClaimId, Role>, id: ClaimId, user: UserId, chain: seq<Role>,
                    amount: string, submitter: Role)
    requires DbSound(cfg, db, subs) && chain != []
    requires chain == Without(ApprovalChain(amount, cfg.t1, cfg.t2), submitter)
    ensures var o := CommitSubmit(db, id, user, chain, amount);
      DbSound(cfg, After(db, o), if o.Committed? then subs[id := submitter] else subs)
  {
    hide ClaimSound, Agrees, Advance, Resubmitted, ApprovalChain, Without;
    if CommitSubmit(db, id, user, chain, amount).Committed? {
      var c, e := db.claims[id], Entry(user, id, SubmitLogged(amount));
      assert RowSound(cfg, db, subs, id);
      FilteredChainClimbs(amount, cfg.t1, cfg.t2, submitter);
      ResubmittedSound(c, chain);
      SubmitAgrees(Replayed(db.audit, id), c, chain, e, amount);
      ResubmittedKeepsOwner(c, chain);
      LoggedKeeps(cfg, db, subs, id, Resubmitted(c, chain), e, subs[id := submitter]);
    }
  }

  lemma ResubmittedKeepsOwner(c: Claim, chain: seq<Role>)
    ensures Resubmitted(c, chain).employee == c.employee && Resubmitted(c, chain).category == c.category
  {
  }

  lemma DecideKeeps(cfg: Config, db: Db, subs: map<ClaimId, Role>, id: ClaimId, role: Role, user: UserId,
                    approve: bool, note: string)
    requires DbSound(cfg, db, subs)
    ensures DbSound(cfg, After(db, CommitDecide(db, id, role, user, approve, note)), subs)
  {
    hide Agrees, Advance, AmountSound, ApproversSound, Ladder, ApprovalChain, Without;
    if CommitDecide(db, id, role, user, approve, note).Committed? {
      var c, v := db.claims[id], Replayed(db.audit, id);
      assert RowSound(cfg, db, subs, id);
      PendingIsCurrent(c);
      if approve {
        var e := Entry(user, id, ApproveLogged(c.currentStep, role));
        ApprovedAtSound(c, user);
        ApproveAgrees(v, c, e);
        LoggedKeeps(cfg, db, subs, id, ApprovedAt(c, c.currentStep - 1, user), e, subs);
      } else {
        var e := Entry(user, id, RejectLogged(c.currentStep, role, note));
        RejectedAtSound(c, user, note);
        RejectAgrees(v, c, e, note);
        LoggedKeeps(cfg, db, subs, id, RejectedAt(c, c.currentStep - 1, user, note), e, subs);
      }
    }
  }

  lemma CancelKeeps(cfg: Config, db: Db, subs: map<ClaimId, Role>, id: ClaimId, user: UserId)
    requires DbSound(cfg, db, subs)
    ensures DbSound(cfg, After(db, CommitCancel(db, id, user)), subs)
  {
    hide Agrees, Advance, AmountSound, ApproversSound, Ladder, ApprovalChain, Without;
    if CommitCancel(db, id, user).Committed? {
      var c := db.claims[id];
      assert RowSound(cfg, db, subs, id);
      CancelWindow(c);
      var e := Entry(user, id, CancelLogged(MoneyText(c.amount)));
      CancelledSound(c);
      CancelAgrees(Replayed(db.audit, id), c, e, MoneyText(c.amount));
      LoggedKeeps(cfg, db, subs, id, c.(status := Cancelled), e, subs);
    }
  }

  lemma PayKeeps(cfg: Config, db: Db, subs: map<ClaimId, Role>, id: ClaimId, user: UserId)
    requires DbSound(cfg, db, subs)
    ensures DbSound(cfg, After(db, CommitPay(db, id, user)), subs)
  {
    hide Agrees, Advance, AmountSound, ApproversSound, Ladder, ApprovalChain, Without;
    if CommitPay(db, id, user).Committed? {
      var c := db.claims[id];
      assert RowSound(cfg, db, subs, id);
      var e := Entry(user, id, PayLogged(MoneyText(c.amount)));
      PaidSound(c);
      PayAgrees(Replayed(db.audit, id), c, e, MoneyText(c.amount));
      LoggedKeeps(cfg, db, subs, id, c.(status := Paid), e, subs);
    }
  }

  lemma CommitKeeps(cfg: Config, db: Db, subs: map<ClaimId, Role>, t: Ticket)
    requires DbSound(cfg, db, subs) && PlanSound(cfg, t.req, t.plan)
    ensures var o := Commit(db, t.plan);
      DbSound(cfg, After(db, o), Remember(subs, t.plan, o))
  {
    hide DbSound, ApprovalChain, Without, ItemsBind;
    hide CommitCreate, CommitUpdate, CommitDelete, CommitAttach, CommitSubmit, CommitDecide, CommitCancel, CommitPay;
    match t.plan
    case CreatePlan(user, category, date, items) => CreateKeeps(cfg, db, subs, user, category, date, items);
    case UpdatePlan(id, category, date, items) => UpdateKeeps(cfg, db, subs, id, category, date, items);
    case DeletePlan(id) => DeleteKeeps(cfg, db, subs, id);
    case AttachPlan(id, user) => AttachKeeps(cfg, db, subs, id, user);
    case SubmitPlan(id, user, chain, amount, submitter) => SubmitKeeps(cfg, db, subs, id, user, chain, amount, submitter);
    case DecidePlan(id, role, user, approve, note) => DecideKeeps(cfg, db, subs, id, role, user, approve, note);
    case CancelPlan(id, user) => CancelKeeps(cfg, db, subs, id, user);
    case PayPlan(id, user) => PayKeeps(cfg, db, subs, id, user);
  }

  lemma CommitGrows(db: Db, plan: Plan)
    ensures Grows(db, After(db, Commit(db, plan)))
  {
  }

  lemma AdminKeeps(cfg: Config, db: Db, subs: map<ClaimId, Role>, op: AdminOp)
    requires DbSound(cfg, db, subs)
    ensures DbSound(cfg, Administer(db, op), subs) && Grows(db, Administer(db, op))
  {
    hide ClaimSound, Agrees, SnapshotSound;
    var db' := Administer(db, op);
    forall i | 0 <= i < |db'.claims| ensures RowSound(cfg, db', subs, i) {
      assert RowSound(cfg, db, subs, i);
      RowCarries(cfg, db, subs, db', subs, i);
    }
  }

  lemma CheckGivesSoundTicket(cfg: Config, db: Db, req: Request)
    requires Check(cfg, db, req).Success?
    ensures TicketSound(cfg, db, Ticket(req, Check(cfg, db, req).value))
  {
    hide ItemsBind, DateAllowed, ReceiptCheck, LimitCheck, FindDuplicate, ApprovalChain, Without, MoneyText;
  }

  /** However far apart the reads were, the plan they lead to is sound. */
  lemma SeenGivesSoundTicket(cfg: Config, db: Db, seen: seq<Db>, req: Request)
    requires |seen| >= Reads(req) && Grows(seen[0], db) && CheckSeen(cfg, seen, req).Success?
    ensures TicketSound(cfg, db, Ticket(req, CheckSeen(cfg, seen, req).value))
  {
    hide ItemsBind, DateAllowed, ReceiptCheck, LimitCheck, FindDuplicate, ApprovalChain, Without, MoneyText;
  }

  lemma TicketCarries(cfg: Config, db: Db, db': Db, t: Ticket)
    requires TicketSound(cfg, db, t) && Grows(db, db')
    ensures TicketSound(cfg, db', t)
  {
    hide PlanSound;
  }

  lemma GrowsTransitive(a: Db, b: Db, c: Db)
    requires Grows(a, b) && Grows(b, c)
    ensures Grows(a, c)
  {
  }

  lemma ReadingCarries(db: Db, db': Db, rd: Reading)
    requires ReadingSound(db, rd) && Grows(db, db')
    ensures ReadingSound(db', rd)
  {
    hide Grows;
    GrowsTransitive(rd.seen[0], db, db');
  }

  /** One more read keeps the invariant. */
  lemma LookKeepsInv(cfg: Config, s: State, r: nat, req: Request, seen: seq<Db>)
    requires Inv(cfg, s) && r !in s.inflight && |seen| < Reads(req) && (seen != [] ==> Grows(seen[0], s.db))
    ensures Inv(cfg, Look(cfg, s, r, req, seen))
  {
    hide DbSound, CheckSeen, TicketSound, Grows;
    GrowsReflexive(s.db);
    var seen' := seen + [s.db];
    assert seen'[0] == if seen == [] then s.db else seen[0];
    if |seen'| >= Reads(req) && CheckSeen(cfg, seen', req).Success? {
      SeenGivesSoundTicket(cfg, s.db, seen', req);
    }
  }

  /** One event of any interleaving keeps the invariant. */
  lemma StepKeepsInv(cfg: Config, s: State, ev: Event)
    requires Inv(cfg, s)
    ensures Inv(cfg, StepState(cfg, s, ev)) && Grows(s.db, StepState(cfg, s, ev).db)
  {
    hide DbSound, Check, Commit, Administer, Remember, TicketSound, ReadingSound, Grows, Look;
    var s' := StepState(cfg, s, ev);
    assert Grows(s.db, s.db) by { GrowsReflexive(s.db); }
    match ev {
      case Start(r, req) =>
        if !Busy(s, r) {
          LookKeepsInv(cfg, s, r, req, []);
          LookReads(cfg, s, r, req, []);
        }
        return;
      case Read(r) =>
        if r in s.reading {
          ReadingHas(s.db, s.reading[r]);
          LookKeepsInv(cfg, s, r, s.reading[r].req, s.reading[r].seen);
          LookReads(cfg, s, r, s.reading[r].req, s.reading[r].seen);
        }
        return;
      case Begin(r, req) =>
        if Check(cfg, s.db, req).Success? {
          CheckGivesSoundTicket(cfg, s.db, req);
        }
      case Finish(r) =>
        if r in s.inflight {
          TicketHasPlan(cfg, s.db, s.inflight[r]);
          CommitKeeps(cfg, s.db, s.submitters, s.inflight[r]);
          CommitGrows(s.db, s.inflight[r].plan);
        }
      case Maintain(op) =>
        AdminKeeps(cfg, s.db, s.submitters, op);
    }
    forall r | r in s'.inflight ensures TicketSound(cfg, s'.db, s'.inflight[r]) {
      if r in s.inflight {
        TicketCarries(cfg, s.db, s'.db, s.inflight[r]);
      }
    }
    forall r | r in s'.reading ensures ReadingSound(s'.db, s'.reading[r]) {
      ReadingCarries(s.db, s'.db, s.reading[r]);
    }
  }

  /** A read changes no table. */
  lemma LookReads(cfg: Config, s: State, r: nat, req: Request, seen: seq<Db>)
    ensures var s' := Look(cfg, s, r, req, seen);
      s'.db == s.db && s'.submitters == s.submitters
  {
    hide CheckSeen;
  }

  lemma ReadingHas(db: Db, rd: Reading)
    requires ReadingSound(db, rd)
    ensures 0 < |rd.seen| < Reads(rd.req) && Grows(rd.seen[0], db)
  {
  }

  lemma GrowsReflexive(db: Db)
    ensures Grows(db, db)
  {
  }

  lemma TicketHasPlan(cfg: Config, db: Db, t: Ticket)
    requires TicketSound(cfg, db, t)
    ensures PlanSound(cfg, t.req, t.plan)
  {
  }

  lemma InitInv(cfg: Config)
    ensures Inv(cfg, INIT)
  {
  }

  /** Every state of every interleaved run is sound. */
  lemma {:induction false} RunKeepsInv(cfg: Config, s: State, evs: seq<Event>)
    requires Inv(cfg, s)
    ensures Inv(cfg, Exec(cfg, s, evs))
    decreases |evs|
  {
    if evs != [] {
      StepKeepsInv(cfg, s, evs[0]);
      RunKeepsInv(cfg, StepState(cfg, s, evs[0]), evs[1..]);
    }
  }
}
