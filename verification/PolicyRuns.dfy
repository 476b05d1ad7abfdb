/** The spending policies over whole runs.

    The policy checks run outside the row lock, so they are promised for *fresh* runs: interleavings in which every
    request that finishes would still be planned the same way if its reads were repeated at that moment. Serialized
    service, one whole request at a time, is a special case. */
module PolicyRuns {
  import opened Wrappers
  import opened Calendar
  import opened Decimal
  import opened StateMachine
  import opened Ledger
  import opened Requests
  import opened Policy
  import opened Lifecycle
  import opened Replay
  import opened Machine
  import opened Interleavings

  predicate FreshEvent(cfg: Config, s: State, ev: Event) {
    ev.Finish? && ev.r in s.inflight ==> Check(cfg, s.db, s.inflight[ev.r].req) == Success(s.inflight[ev.r].plan)
  }

  predicate FreshRun(cfg: Config, s: State, evs: seq<Event>)
    decreases |evs|
  {
    evs == [] || (FreshEvent(cfg, s, evs[0]) && FreshRun(cfg, StepState(cfg, s, evs[0]), evs[1..]))
  }

  /** A serialized job: one whole request, or one maintenance operation. */
  datatype Job = ServeJob(r: nat, req: Request) | MaintainJob(op: AdminOp)

  function Serialized(jobs: seq<Job>): seq<Event> {
    if jobs == [] then []
    else (if jobs[0].ServeJob? then Whole(jobs[0].r, jobs[0].req) else [Maintain(jobs[0].op)]) + Serialized(jobs[1..])
  }

  /** Serving one whole request at a time is fresh. */
  lemma {:induction false} SerializedIsFresh(cfg: Config, s: State, jobs: seq<Job>)
    requires s.inflight == map[] && s.reading == map[]
    ensures FreshRun(cfg, s, Serialized(jobs))
    ensures var s' := Exec(cfg, s, Serialized(jobs));
      s'.inflight == map[] && s'.reading == map[]
    decreases |jobs|
  {
    hide StepState, Check, Commit;
    if jobs != [] {
      var evs, rest := Serialized(jobs), Serialized(jobs[1..]);
      if jobs[0].ServeJob? {
        var r, req := jobs[0].r, jobs[0].req;
        var s1 := StepState(cfg, s, Begin(r, req));
        assert evs[0] == Begin(r, req) && evs[1..][0] == Finish(r) && evs[1..][1..] == rest;
        BeginIsFresh(cfg, s, r, req);
        WholeIsServe(cfg, s, r, req);
        SerializedIsFresh(cfg, StepState(cfg, s1, Finish(r)), jobs[1..]);
      } else {
        assert evs[0] == Maintain(jobs[0].op) && evs[1..] == rest;
        AdminKeepsInflight(cfg, s, jobs[0].op);
        SerializedIsFresh(cfg, StepState(cfg, s, Maintain(jobs[0].op)), jobs[1..]);
      }
    }
  }

  lemma BeginIsFresh(cfg: Config, s: State, r: nat, req: Request)
    requires s.inflight == map[]
    ensures FreshEvent(cfg, StepState(cfg, s, Begin(r, req)), Finish(r))
  {
    hide Check;
  }

  lemma AdminKeepsInflight(cfg: Config, s: State, op: AdminOp)
    ensures var s' := StepState(cfg, s, Maintain(op));
      s'.inflight == s.inflight && s'.reading == s.reading
  {
  }

  // ---------- the policies ----------

  predicate Twins(c: Claim, d: Claim) {
    IsLive(c) && IsLive(d) && c.employee == d.employee && c.amount == d.amount && WithinWeek(c.date, d.date)
  }

  /** No two live claims of one employee have equal amounts within a week of each other. */
  predicate NoTwins(cs: seq<Claim>) {
    forall i, j :: 0 <= i < j < |cs| ==> !Twins(cs[i], cs[j])
  }

  /** A live claim's approval rows are the chain its current amount demands of its submitter. */
  predicate TierFits(cfg: Config, c: Claim, submitters: map<ClaimId, Role>, id: ClaimId) {
    IsLive(c) ==>
      id in submitters && Roles(c.steps) == Without(ApprovalChain(MoneyText(c.amount), cfg.t1, cfg.t2), submitters[id])
  }

  /** A live claim above the receipt threshold has a receipt. */
  predicate ReceiptFits(cfg: Config, c: Claim) {
    IsLive(c) && CompareNumeric(MoneyText(c.amount), cfg.receiptThreshold) > 0 ==> c.receipts != []
  }

  predicate PoliciesHold(cfg: Config, s: State) {
    && NoTwins(s.db.claims)
    && forall id :: 0 <= id < |s.db.claims| ==>
      TierFits(cfg, s.db.claims[id], s.submitters, id) && ReceiptFits(cfg, s.db.claims[id])
  }

  /** What the policies see of a claim that stays live. */
  predicate SameContent(c: Claim, c': Claim) {
    && c'.employee == c.employee && c'.category == c.category && c'.date == c.date && c'.items == c.items
    && c'.amount == c.amount && Roles(c'.steps) == Roles(c.steps) && c.receipts <= c'.receipts
  }

  /** A claim becomes live in no way, and stays live only with its content. */
  predicate Quiet(c: Claim, c': Claim) {
    IsLive(c') ==> IsLive(c) && SameContent(c, c')
  }

  predicate QuietDb(db: Db, db': Db) {
    && |db.claims| <= |db'.claims|
    && (forall id :: 0 <= id < |db.claims| ==> Quiet(db.claims[id], db'.claims[id]))
    && (forall id :: |db.claims| <= id < |db'.claims| ==> !IsLive(db'.claims[id]))
  }

  /** A submission that commits. */
  predicate Submits(s: State, ev: Event) {
    ev.Finish? && ev.r in s.inflight && s.inflight[ev.r].plan.SubmitPlan? && Commit(s.db, s.inflight[ev.r].plan).Committed?
  }

  /** An edit that commits. */
  predicate Edits(s: State, ev: Event) {
    ev.Finish? && ev.r in s.inflight && s.inflight[ev.r].plan.UpdatePlan? && Commit(s.db, s.inflight[ev.r].plan).Committed?
  }

  lemma LegalIsQuiet(req: Request, c: Claim, c': Claim)
    requires LegalChange(req, c, c') && !req.SubmitReq? && !req.UpdateReq?
    ensures Quiet(c, c')
  {
    if req.ApproveReq? {
      assert Roles(c'.steps) == Roles(c.steps);
    }
  }

  lemma NewRowsAreDrafts(cfg: Config, s: State, ev: Event, id: ClaimId)
    requires |s.db.claims| <= id < |StepState(cfg, s, ev).db.claims|
    ensures StepState(cfg, s, ev).db.claims[id].status == Draft
  {
    hide MoneyText, ApprovalChain, Without, FirstPending, ActedCount, ItemsTotal, Check, Look;
    if !(ev.Finish? && ev.r in s.inflight) {
      OtherEventsTouchNoClaim(cfg, s, ev);
    }
  }

  /** However stale its reads, every event other than a committed submission or edit is quiet: creating, deleting,
      attaching, approving, rejecting, cancelling and paying leave every live claim its content. */
  lemma OthersAreQuiet(cfg: Config, s: State, ev: Event)
    requires Inv(cfg, s) && !Submits(s, ev) && !Edits(s, ev)
    ensures QuietDb(s.db, StepState(cfg, s, ev).db)
  {
    hide DbSound, LegalChange, Check, Commit, Administer, Quiet, IsLive, Look, TicketSound, ReadingSound;
    var s' := StepState(cfg, s, ev);
    StepKeepsInv(cfg, s, ev);
    forall id | 0 <= id < |s.db.claims| ensures Quiet(s.db.claims[id], s'.db.claims[id]) {
      EveryChangeIsLegal(cfg, s, ev, id);
      UntouchedIsQuiet(s.db.claims[id]);
      if s'.db.claims[id] != s.db.claims[id] {
        var t := s.inflight[ev.r];
        TicketHasPlan(cfg, s.db, t);
        UnsubmittedPlan(cfg, s, t);
        LegalIsQuiet(t.req, s.db.claims[id], s'.db.claims[id]);
      }
    }
    forall id | |s.db.claims| <= id < |s'.db.claims| ensures !IsLive(s'.db.claims[id]) {
      NewRowsAreDrafts(cfg, s, ev, id);
      DraftIsNotLive(s'.db.claims[id]);
    }
  }

  /** The claim a committed edit leaves, and every other claim as it was. */
  lemma EditCommitted(s: State, ev: Event)
    requires Edits(s, ev)
    ensures var plan := s.inflight[ev.r].plan;
      && plan.id < |s.db.claims|
      && Commit(s.db, plan).db.claims
         == s.db.claims[plan.id := Edited(s.db.claims[plan.id], plan.category, plan.date, plan.items)]
  {
    hide Edited, RowsAccepted, AmountAccepted, ItemsTotal;
  }

  lemma EditedContent(c: Claim, category: CategoryId, date: Date, items: seq<Item>)
    ensures var c' := Edited(c, category, date, items);
      && (IsLive(c') <==> IsLive(c)) && c'.employee == c.employee && c'.amount == ItemsTotal(items)
      && c'.steps == c.steps && c'.receipts == c.receipts && c'.category == category && c'.date == date
  {
  }

  /** Editing a claim that is not live is quiet. */
  lemma IdleEditIsQuiet(s: State, ev: Event)
    requires Edits(s, ev) && s.inflight[ev.r].plan.id < |s.db.claims| && !IsLive(s.db.claims[s.inflight[ev.r].plan.id])
    ensures QuietDb(s.db, Commit(s.db, s.inflight[ev.r].plan).db)
  {
    hide Edited, Commit;
    var plan := s.inflight[ev.r].plan;
    EditCommitted(s, ev);
    EditedContent(s.db.claims[plan.id], plan.category, plan.date, plan.items);
  }

  /** In a fresh run every event other than a committed submission is quiet: live claims keep their content. */
  lemma FreshIsQuiet(cfg: Config, s: State, ev: Event)
    requires Inv(cfg, s) && FreshEvent(cfg, s, ev) && !Submits(s, ev)
    ensures QuietDb(s.db, StepState(cfg, s, ev).db)
  {
    hide DbSound, Check, Commit, QuietDb, IsLive, TicketSound, ReadingSound;
    if Edits(s, ev) {
      var t := s.inflight[ev.r];
      TicketHasPlan(cfg, s.db, t);
      UnsubmittedPlan(cfg, s, t);
      EditCommitted(s, ev);
      EditChecked(cfg, s.db, t.req, t.plan);
      IdleEditIsQuiet(s, ev);
    } else {
      OthersAreQuiet(cfg, s, ev);
    }
  }

  lemma EditChecked(cfg: Config, db: Db, req: Request, plan: Plan)
    requires Check(cfg, db, req) == Success(plan) && req.UpdateReq?
    ensures plan.UpdatePlan? && plan.id < |db.claims| && !IsLive(db.claims[plan.id])
  {
    hide ItemsBind, DateAllowed;
  }

  lemma UntouchedIsQuiet(c: Claim)
    ensures Quiet(c, c)
  {
  }

  lemma DraftIsNotLive(c: Claim)
    requires c.status == Draft
    ensures !IsLive(c)
  {
  }

  lemma UnsubmittedPlan(cfg: Config, s: State, t: Ticket)
    requires PlanSound(cfg, t.req, t.plan)
    ensures t.req.SubmitReq? <==> t.plan.SubmitPlan?
    ensures t.req.CreateReq? <==> t.plan.CreatePlan?
    ensures t.req.UpdateReq? <==> t.plan.UpdatePlan?
  {
  }

  lemma QuietKeepsPolicies(cfg: Config, s: State, s': State)
    requires PoliciesHold(cfg, s) && QuietDb(s.db, s'.db) && s'.submitters == s.submitters
    ensures PoliciesHold(cfg, s')
  {
    hide WithinWeek, CompareNumeric, MoneyText, Without, ApprovalChain;
    forall id | 0 <= id < |s'.db.claims|
      ensures TierFits(cfg, s'.db.claims[id], s'.submitters, id) && ReceiptFits(cfg, s'.db.claims[id])
    {
      if id < |s.db.claims| {
        assert Quiet(s.db.claims[id], s'.db.claims[id]);
      }
    }
  }

  // ---------- a committed submission ----------

  /** What a successful policy check has established. */
  lemma SubmitChecked(cfg: Config, db: Db, id: ClaimId, role: Role, user: UserId, plan: Plan)
    requires CheckSubmit(cfg, db, id, role, user) == Success(plan)
    ensures id < |db.claims| && !IsLive(db.claims[id]) && db.claims[id].category in db.categories
    ensures var c := db.claims[id];
      && FindDuplicate(db.claims, c.employee, c.amount, c.date, id) == None
      && ReceiptViolations(cfg, c) == [] && LimitViolations(db, id) == []
      && plan.SubmitPlan? && plan.id == id
      && plan.chain == Without(ApprovalChain(MoneyText(c.amount), cfg.t1, cfg.t2), plan.submitter)
  {
    hide ReceiptCheck, LimitCheck, FindDuplicate, ApprovalChain, Without, MoneyText;
  }

  /** The claim a committed submission leaves, and every other claim as it was. */
  lemma SubmitCommitted(s: State, ev: Event)
    requires Submits(s, ev)
    ensures var plan := s.inflight[ev.r].plan;
      && plan.id < |s.db.claims|
      && Commit(s.db, plan).db.claims == s.db.claims[plan.id := Resubmitted(s.db.claims[plan.id], plan.chain)]
      && Commit(s.db, plan).db.categories == s.db.categories
  {
    hide Resubmitted;
  }

  lemma ResubmittedContent(c: Claim, chain: seq<Role>)
    ensures var c' := Resubmitted(c, chain);
      && c'.employee == c.employee && c'.category == c.category && c'.date == c.date && c'.amount == c.amount
      && c'.receipts == c.receipts && c'.deleted == c.deleted && c'.status == Submitted && Roles(c'.steps) == chain
  {
    assert Roles(FreshSteps(chain)) == chain;
  }

  /** Another live claim the given one would duplicate. */
  predicate LiveTwin(d: Claim, c: Claim) {
    IsLive(d) && d.employee == c.employee && d.amount == c.amount && WithinWeek(d.date, c.date)
  }

  /** No claim other than the one at the id is a live twin of c. */
  predicate NoLiveTwin(cs: seq<Claim>, id: ClaimId, c: Claim) {
    forall i :: 0 <= i < |cs| && i != id ==> !LiveTwin(cs[i], c)
  }

  /** When a claim becomes live or a live claim changes, the duplicate policy survives if and only if its new content has
      no live twin. */
  lemma NoTwinsSurvivesIff(cs: seq<Claim>, id: ClaimId, c': Claim)
    requires NoTwins(cs) && id < |cs| && IsLive(c')
    ensures NoTwins(cs[id := c']) <==> NoLiveTwin(cs, id, c')
  {
    hide IsLive, DayNumber;
    var cs' := cs[id := c'];
    if NoLiveTwin(cs, id, c') {
      forall i, j | 0 <= i < j < |cs'| ensures !Twins(cs'[i], cs'[j]) {
        if i != id && j != id {
          assert !Twins(cs[i], cs[j]);
        } else {
          assert !LiveTwin(cs[if i == id then j else i], c');
        }
      }
    } else {
      var i :| 0 <= i < |cs| && i != id && LiveTwin(cs[i], c');
      assert Twins(cs'[if i < id then i else id], cs'[if i < id then id else i]);
    }
  }

  lemma NoDuplicateNoTwin(cs: seq<Claim>, id: ClaimId)
    requires id < |cs| && FindDuplicate(cs, cs[id].employee, cs[id].amount, cs[id].date, id) == None
    ensures NoLiveTwin(cs, id, cs[id])
  {
    hide DayNumber;
    forall i | 0 <= i < |cs| && i != id ensures !LiveTwin(cs[i], cs[id]) {
      assert !DuplicateRow(i, cs[i], cs[id].employee, cs[id].amount, cs[id].date, id);
    }
  }

  /** What the policies demand of a submission at the moment it commits. */
  predicate StillDue(cfg: Config, cs: seq<Claim>, plan: Plan)
    requires plan.SubmitPlan? && plan.id < |cs|
  {
    var c := cs[plan.id];
    && NoLiveTwin(cs, plan.id, c)
    && plan.chain == Without(ApprovalChain(MoneyText(c.amount), cfg.t1, cfg.t2), plan.submitter)
    && ReceiptViolations(cfg, c) == []
  }

  /** However stale its reads, a submission that commits keeps the duplicate, tier and receipt policies if and only if,
      at commit time, the claim has no live twin, its planned chain is the one its amount demands, and no receipt is
      missing. */
  lemma StaleSubmitKeepsPoliciesIff(cfg: Config, s: State, ev: Event)
    requires PoliciesHold(cfg, s) && Submits(s, ev) && s.inflight[ev.r].plan.id < |s.db.claims|
    ensures PoliciesHold(cfg, StepState(cfg, s, ev)) <==> StillDue(cfg, s.db.claims, s.inflight[ev.r].plan)
  {
    hide Resubmitted, Commit, ApprovalChain, Without, MoneyText, NoTwins, NoLiveTwin, CompareNumeric;
    var plan, s' := s.inflight[ev.r].plan, StepState(cfg, s, ev);
    SubmitCommitted(s, ev);
    var c := s.db.claims[plan.id];
    ResubmittedContent(c, plan.chain);
    SubmittedStaysHere(s, ev);
    assert s'.db.claims[plan.id] == Resubmitted(c, plan.chain);
    NoTwinsSurvivesIff(s.db.claims, plan.id, Resubmitted(c, plan.chain));
    SameTwins(s.db.claims, plan.id, c, Resubmitted(c, plan.chain));
  }

  lemma SameTwins(cs: seq<Claim>, id: ClaimId, c: Claim, c': Claim)
    requires c'.employee == c.employee && c'.amount == c.amount && c'.date == c.date
    ensures NoLiveTwin(cs, id, c') <==> NoLiveTwin(cs, id, c)
  {
    hide IsLive, DayNumber;
  }

  /** What the policies demand of an edit at the moment it commits, if the claim is live by then. */
  predicate EditStillDue(cfg: Config, s: State, plan: Plan)
    requires plan.UpdatePlan? && plan.id < |s.db.claims|
  {
    var c := s.db.claims[plan.id];
    var c' := Edited(c, plan.category, plan.date, plan.items);
    IsLive(c) ==>
      && NoLiveTwin(s.db.claims, plan.id, c')
      && plan.id in s.submitters
      && Roles(c.steps) == Without(ApprovalChain(MoneyText(ItemsTotal(plan.items)), cfg.t1, cfg.t2), s.submitters[plan.id])
      && (CompareNumeric(MoneyText(ItemsTotal(plan.items)), cfg.receiptThreshold) > 0 ==> c.receipts != [])
  }

  /** However stale its check, an edit that commits keeps the duplicate, tier and receipt policies if and only if the claim
      is not live, or its new amount and date have no live twin, its new amount asks for the approvers it already has,
      and no receipt is missing for it. */
  lemma StaleEditKeepsPoliciesIff(cfg: Config, s: State, ev: Event)
    requires PoliciesHold(cfg, s) && Edits(s, ev) && s.inflight[ev.r].plan.id < |s.db.claims|
    ensures PoliciesHold(cfg, StepState(cfg, s, ev)) <==> EditStillDue(cfg, s, s.inflight[ev.r].plan)
  {
    hide Edited, Commit, ApprovalChain, Without, MoneyText, NoTwins, NoLiveTwin, CompareNumeric, ItemsTotal;
    var plan, s' := s.inflight[ev.r].plan, StepState(cfg, s, ev);
    var c := s.db.claims[plan.id];
    var c' := Edited(c, plan.category, plan.date, plan.items);
    EditCommitted(s, ev);
    EditedContent(c, plan.category, plan.date, plan.items);
    assert s'.db.claims[plan.id] == c';
    assert s'.submitters == s.submitters;
    if IsLive(c) {
      NoTwinsSurvivesIff(s.db.claims, plan.id, c');
    } else {
      IdleEditIsQuiet(s, ev);
      QuietKeepsPolicies(cfg, s, s');
    }
  }

  lemma SubmittedStaysHere(s: State, ev: Event)
    requires Submits(s, ev)
    ensures var plan := s.inflight[ev.r].plan;
      plan.id < |s.db.claims| && !s.db.claims[plan.id].deleted
  {
  }

  lemma SubmitKeepsPolicies(cfg: Config, s: State, ev: Event)
    requires Inv(cfg, s) && PoliciesHold(cfg, s) && FreshEvent(cfg, s, ev) && Submits(s, ev)
    ensures PoliciesHold(cfg, StepState(cfg, s, ev))
  {
    hide DbSound, Commit, ApprovalChain, Without, MoneyText, CheckSubmit, PoliciesHold, NoLiveTwin;
    hide ReceiptCheck, FindDuplicate;
    var t := s.inflight[ev.r];
    TicketHasPlan(cfg, s.db, t);
    UnsubmittedPlan(cfg, s, t);
    SubmitChecked(cfg, s.db, t.req.id, t.req.role, t.req.user, t.plan);
    NoDuplicateNoTwin(s.db.claims, t.plan.id);
    StaleSubmitKeepsPoliciesIff(cfg, s, ev);
  }

  lemma QuietSubmitters(cfg: Config, s: State, ev: Event)
    requires !Submits(s, ev)
    ensures StepState(cfg, s, ev).submitters == s.submitters
  {
    hide Check, Commit, Look;
    if !(ev.Finish? && ev.r in s.inflight) {
      OtherEventsTouchNoClaim(cfg, s, ev);
    }
  }

  lemma FreshStepKeepsPolicies(cfg: Config, s: State, ev: Event)
    requires Inv(cfg, s) && PoliciesHold(cfg, s) && FreshEvent(cfg, s, ev)
    ensures PoliciesHold(cfg, StepState(cfg, s, ev))
  {
    hide *;
    if Submits(s, ev) {
      SubmitKeepsPolicies(cfg, s, ev);
    } else {
      FreshIsQuiet(cfg, s, ev);
      QuietSubmitters(cfg, s, ev);
      QuietKeepsPolicies(cfg, s, StepState(cfg, s, ev));
    }
  }

  // ---------- policies over all interleavings ----------

  /** What the policies demand of an event at the moment it happens. */
  predicate StepDue(cfg: Config, s: State, ev: Event) {
    && (Submits(s, ev) ==>
         s.inflight[ev.r].plan.id < |s.db.claims| && StillDue(cfg, s.db.claims, s.inflight[ev.r].plan))
    && (Edits(s, ev) ==> s.inflight[ev.r].plan.id < |s.db.claims| && EditStillDue(cfg, s, s.inflight[ev.r].plan))
  }

  lemma StepKeepsPoliciesIff(cfg: Config, s: State, ev: Event)
    requires Inv(cfg, s) && PoliciesHold(cfg, s)
    ensures PoliciesHold(cfg, StepState(cfg, s, ev)) <==> StepDue(cfg, s, ev)
  {
    hide Inv, PoliciesHold, StepState, StillDue, EditStillDue, Commit;
    if Submits(s, ev) {
      SubmitCommitted(s, ev);
      StaleSubmitKeepsPoliciesIff(cfg, s, ev);
    } else if Edits(s, ev) {
      EditCommitted(s, ev);
      StaleEditKeepsPoliciesIff(cfg, s, ev);
    } else {
      OthersAreQuiet(cfg, s, ev);
      QuietSubmitters(cfg, s, ev);
      QuietKeepsPolicies(cfg, s, StepState(cfg, s, ev));
    }
  }

  /** The duplicate, tier and receipt policies hold in every state of the run. */
  predicate PoliciesThroughout(cfg: Config, s: State, evs: seq<Event>)
    decreases |evs|
  {
    PoliciesHold(cfg, s) && (evs == [] || PoliciesThroughout(cfg, StepState(cfg, s, evs[0]), evs[1..]))
  }

  predicate DueThroughout(cfg: Config, s: State, evs: seq<Event>)
    decreases |evs|
  {
    evs == [] || (StepDue(cfg, s, evs[0]) && DueThroughout(cfg, StepState(cfg, s, evs[0]), evs[1..]))
  }

  /** In any interleaving the policies hold in every state if and only if each submission and edit, when it commits, still
      meets what they demand. */
  lemma {:induction false} InterleavedPoliciesIff(cfg: Config, s: State, evs: seq<Event>)
    requires Inv(cfg, s) && PoliciesHold(cfg, s)
    ensures PoliciesThroughout(cfg, s, evs) <==> DueThroughout(cfg, s, evs)
    decreases |evs|
  {
    hide Inv, PoliciesHold, StepState, StepDue;
    if evs != [] {
      StepKeepsInv(cfg, s, evs[0]);
      StepKeepsPoliciesIff(cfg, s, evs[0]);
      if StepDue(cfg, s, evs[0]) {
        InterleavedPoliciesIff(cfg, StepState(cfg, s, evs[0]), evs[1..]);
      } else {
        assert !PoliciesHold(cfg, StepState(cfg, s, evs[0]));
      }
    }
  }

  /** Duplicate, tier and receipt policies hold in every state of every fresh run. */
  lemma {:induction false} FreshRunKeepsPolicies(cfg: Config, s: State, evs: seq<Event>)
    requires Inv(cfg, s) && PoliciesHold(cfg, s) && FreshRun(cfg, s, evs)
    ensures PoliciesHold(cfg, Exec(cfg, s, evs))
    decreases |evs|
  {
    hide Inv, PoliciesHold, StepState, FreshEvent;
    if evs != [] {
      StepKeepsInv(cfg, s, evs[0]);
      FreshStepKeepsPolicies(cfg, s, evs[0]);
      FreshRunKeepsPolicies(cfg, StepState(cfg, s, evs[0]), evs[1..]);
    }
  }

  lemma InitPolicies(cfg: Config)
    ensures PoliciesHold(cfg, INIT)
  {
  }

  lemma ReachedPolicies(cfg: Config, evs: seq<Event>)
    requires FreshRun(cfg, INIT, evs)
    ensures PoliciesHold(cfg, Reached(cfg, evs))
  {
    hide PoliciesHold, Inv, FreshRun;
    InitInv(cfg);
    InitPolicies(cfg);
    FreshRunKeepsPolicies(cfg, INIT, evs);
  }

  /** Submitted, approved or paid, and not deleted. */
  predicate Counts(c: Claim) {
    !c.deleted && c.status in {Submitted, Approved, Paid}
  }

  /** No fresh run has two distinct submitted, approved or paid claims of one employee with equal amounts and dates at most
      seven days apart. */
  lemma NoLiveDuplicates(cfg: Config, evs: seq<Event>, i: ClaimId, j: ClaimId)
    requires FreshRun(cfg, INIT, evs)
    requires i < |Reached(cfg, evs).db.claims| && j < |Reached(cfg, evs).db.claims| && i != j
    requires Counts(Reached(cfg, evs).db.claims[i]) && Counts(Reached(cfg, evs).db.claims[j])
    requires Reached(cfg, evs).db.claims[i].employee == Reached(cfg, evs).db.claims[j].employee
    requires Reached(cfg, evs).db.claims[i].amount == Reached(cfg, evs).db.claims[j].amount
    ensures var days := DayNumber(Reached(cfg, evs).db.claims[i].date) - DayNumber(Reached(cfg, evs).db.claims[j].date);
      days < -7 || days > 7
  {
    hide FreshRun, Exec, DayNumber;
    ReachedPolicies(cfg, evs);
    var cs := Reached(cfg, evs).db.claims;
    assert !Twins(cs[if i < j then i else j], cs[if i < j then j else i]);
  }

  /** In a fresh run the approval rows of a live claim are exactly the approvers its current amount demands; a paid claim
      has each of them approved, by someone other than its owner. */
  lemma ApprovalsMatchAmount(cfg: Config, evs: seq<Event>, id: ClaimId)
    requires FreshRun(cfg, INIT, evs) && ConfigReadable(cfg)
    requires id < |Reached(cfg, evs).db.claims| && Counts(Reached(cfg, evs).db.claims[id])
    ensures var (c, submitters) := (Reached(cfg, evs).db.claims[id], Reached(cfg, evs).submitters);
      && id in submitters && c.steps != []
      && Roles(c.steps) == DueChain(cfg, c.amount, submitters[id])
      && (c.status == Paid ==> forall i :: 0 <= i < |c.steps| ==>
           c.steps[i].status == ApprovedStep && c.steps[i].approver.Some? && c.steps[i].approver.value != c.employee)
  {
    hide FreshRun, Exec, ConfigReadable, DueChain, ApprovalChain, Without, MoneyText, Replayed, Agrees, Ladder;
    ReachedPolicies(cfg, evs);
    ReachedRow(cfg, evs, id);
    var s := Reached(cfg, evs);
    assert TierFits(cfg, s.db.claims[id], s.submitters, id);
    ChainRefines(cfg, s.db.claims[id].amount, s.submitters[id]);
  }

  /** In a fresh run every live claim above the receipt threshold has a receipt. */
  lemma LargeClaimsHaveReceipts(cfg: Config, evs: seq<Event>, id: ClaimId)
    requires FreshRun(cfg, INIT, evs) && ConfigReadable(cfg)
    requires id < |Reached(cfg, evs).db.claims| && Counts(Reached(cfg, evs).db.claims[id])
    ensures var c := Reached(cfg, evs).db.claims[id];
      c.amount > FloorCents(cfg.receiptThreshold) ==> c.receipts != []
  {
    hide FreshRun, Exec, MoneyText, Replayed, Agrees, Ladder, FloorCents, IsDecimal, CompareNumeric;
    ReachedPolicies(cfg, evs);
    ReachedRow(cfg, evs, id);
    var c := Reached(cfg, evs).db.claims[id];
    assert ReceiptFits(cfg, c);
    MoneyReadable(c.amount);
    CompareIsOrder(MoneyText(c.amount), cfg.receiptThreshold);
  }

  // ---------- the edit window ----------

  /** In a fresh run an event leaves a claim untouched, or makes a documented change: edits in DRAFT or REJECTED only,
      deletions in DRAFT only, receipts in DRAFT, REJECTED or SUBMITTED only. */
  lemma EveryFreshChangeIsDocumented(cfg: Config, s: State, ev: Event, id: ClaimId)
    requires Inv(cfg, s) && FreshEvent(cfg, s, ev) && id < |s.db.claims|
    ensures id < |StepState(cfg, s, ev).db.claims|
    ensures var (c, c') := (s.db.claims[id], StepState(cfg, s, ev).db.claims[id]);
      || c' == c
      || (ev.Finish? && ev.r in s.inflight && Addresses(s.inflight[ev.r].req, id)
          && DocumentedChange(s.inflight[ev.r].req, c, c'))
  {
    hide DbSound, LegalChange, DocumentedChange, Commit, Check, PlanSound;
    EveryChangeIsLegal(cfg, s, ev, id);
    if StepState(cfg, s, ev).db.claims[id] != s.db.claims[id] {
      var t := s.inflight[ev.r];
      assert Commit(s.db, t.plan).Committed?;
      ChangeIsDocumentedIff(cfg, s, t, Commit(s.db, t.plan).db);
    }
  }

  lemma TerminalTakesNoChange(req: Request, c: Claim, c': Claim)
    requires DocumentedChange(req, c, c')
    ensures !Terminal(c)
  {
  }

  /** In a fresh run a paid, cancelled or deleted claim never changes at all. */
  lemma {:induction false} TerminalClaimsNeverChange(cfg: Config, s: State, evs: seq<Event>, id: ClaimId)
    requires Inv(cfg, s) && FreshRun(cfg, s, evs) && id < |s.db.claims| && Terminal(s.db.claims[id])
    ensures id < |Exec(cfg, s, evs).db.claims| && Exec(cfg, s, evs).db.claims[id] == s.db.claims[id]
    decreases |evs|
  {
    hide Inv, DocumentedChange, StepState, Check, Terminal;
    if evs != [] {
      var s1 := StepState(cfg, s, evs[0]);
      StepKeepsInv(cfg, s, evs[0]);
      EveryFreshChangeIsDocumented(cfg, s, evs[0], id);
      if s1.db.claims[id] != s.db.claims[id] {
        TerminalTakesNoChange(s.inflight[evs[0].r].req, s.db.claims[id], s1.db.claims[id]);
      }
      TerminalClaimsNeverChange(cfg, s1, evs[1..], id);
    }
  }
}
