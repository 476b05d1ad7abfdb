/** When a paid, cancelled or deleted claim is really final: exactly which requests under way can still rewrite it. */
module Finality {
  import opened Wrappers
  import opened Calendar
  import opened Decimal
  import opened StateMachine
  import opened Ledger
  import opened Requests
  import opened Lifecycle
  import opened Replay
  import opened Machine
  import opened Interleavings

  /** A content the tables would accept and the claim does not have. */
  predicate NewContent(c: Claim, category: CategoryId, date: Date, items: seq<Item>) {
    RowsAccepted(items) && AmountAccepted(ItemsTotal(items)) && Edited(c, category, date, items) != c
  }

  /** A transaction under way that would change a terminal claim. */
  predicate Rewrites(c: Claim, plan: Plan) {
    match plan
    case UpdatePlan(_, category, date, items) => NewContent(c, category, date, items)
    case DeletePlan(_) => !c.deleted
    case AttachPlan(_, _) => true
    case _ => false
  }

  /** The tables with one category made active. */
  function Activated(db: Db, k: CategoryId): Db {
    db.(categories := db.categories[k := Category(None, true)])
  }

  /** An edit whose read of the claim passed, and which only an inactive category could still stop. */
  predicate PendingEdit(cfg: Config, c: Claim, rd: Reading) {
    && rd.req.UpdateReq? && |rd.seen| == 1
    && CheckSeen(cfg, [rd.seen[0], Activated(rd.seen[0], rd.req.category)], rd.req).Success?
    && NewContent(c, rd.req.category, rd.req.date, rd.req.items)
  }

  predicate Threatens(cfg: Config, s: State, id: ClaimId, r: nat)
    requires id < |s.db.claims|
  {
    || (r in s.inflight && Addresses(s.inflight[r].req, id) && Rewrites(s.db.claims[id], s.inflight[r].plan))
    || (r in s.reading && Addresses(s.reading[r].req, id) && PendingEdit(cfg, s.db.claims[id], s.reading[r]))
  }

  predicate Unthreatened(cfg: Config, s: State, id: ClaimId)
    requires id < |s.db.claims|
  {
    && (forall r :: r in s.inflight ==> !Threatens(cfg, s, id, r))
    && (forall r :: r in s.reading ==> !Threatens(cfg, s, id, r))
  }

  predicate Unchanged(cfg: Config, s: State, evs: seq<Event>, id: ClaimId)
    requires id < |s.db.claims|
  {
    id < |Exec(cfg, s, evs).db.claims| && Exec(cfg, s, evs).db.claims[id] == s.db.claims[id]
  }

  // ---------- an unthreatened claim stays as it is ----------

  /** No plan made while a claim is terminal rewrites it. */
  lemma NoNewThreat(cfg: Config, db: Db, req: Request, id: ClaimId)
    requires id < |db.claims| && Terminal(db.claims[id]) && Addresses(req, id) && Check(cfg, db, req).Success?
    ensures !Rewrites(db.claims[id], Check(cfg, db, req).value)
  {
    hide ItemsBind, DateAllowed, CheckSubmitReads;
    if req.SubmitReq? {
      SubmitPlanOnly(cfg, [db, db, db, db, db], req);
    }
  }

  lemma SubmitPlanOnly(cfg: Config, seen: seq<Db>, req: Request)
    requires |seen| >= 5 && req.SubmitReq? && CheckSeen(cfg, seen, req).Success?
    ensures CheckSeen(cfg, seen, req).value.SubmitPlan?
  {
    hide ReceiptCheck, LimitCheck, FindDuplicate, ApprovalChain, Without, MoneyText;
  }

  /** A transaction that changes a terminal claim is one that rewrites it. */
  lemma ChangeIsRewrite(cfg: Config, s: State, t: Ticket, id: ClaimId)
    requires id < |s.db.claims| && TicketSound(cfg, s.db, t) && Addresses(t.req, id) && Terminal(s.db.claims[id])
    requires var db' := After(s.db, Commit(s.db, t.plan));
      id < |db'.claims| && db'.claims[id] != s.db.claims[id]
    ensures Rewrites(s.db.claims[id], t.plan)
  {
    hide RowsAccepted, AmountAccepted, ItemsTotal, MoneyText, FirstPending, ActedCount, ApprovalChain, Without, ItemsBind;
    hide Resubmitted, ApprovedAt, RejectedAt;
  }

  /** Where a new ticket comes from. */
  lemma NewPlan(cfg: Config, s: State, ev: Event, r: nat)
    requires Inv(cfg, s) && r !in s.inflight && r in StepState(cfg, s, ev).inflight
    ensures var t := StepState(cfg, s, ev).inflight[r];
      || ((ev.Begin? || ev.Start?) && t.req == ev.req && Check(cfg, s.db, t.req) == Success(t.plan))
      || (ev.Read? && r in s.reading && t.req == s.reading[r].req && |s.reading[r].seen| + 1 == Reads(t.req) > 1
          && CheckSeen(cfg, s.reading[r].seen + [s.db], t.req) == Success(t.plan))
  {
    hide DbSound, Check, Commit, Administer, Grows, TicketSound;
  }

  /** Where a new reading comes from. */
  lemma NewReading(cfg: Config, s: State, ev: Event, r: nat)
    requires r in StepState(cfg, s, ev).reading && !(r in s.reading && s.reading[r] == StepState(cfg, s, ev).reading[r])
    ensures var rd := StepState(cfg, s, ev).reading[r];
      (ev.Start? && rd == Reading(ev.req, [s.db])) || |rd.seen| >= 2 || (ev.Read? && r in s.reading && s.reading[r].seen == [])
  {
    hide Check, Commit, Administer, CheckSeen;
  }

  lemma TicketIsNoThreat(cfg: Config, s: State, ev: Event, id: ClaimId, r: nat)
    requires Inv(cfg, s) && id < |s.db.claims| && Terminal(s.db.claims[id]) && Unthreatened(cfg, s, id)
    requires r in StepState(cfg, s, ev).inflight && Addresses(StepState(cfg, s, ev).inflight[r].req, id)
    ensures !Rewrites(s.db.claims[id], StepState(cfg, s, ev).inflight[r].plan)
  {
    hide Inv, StepState, CheckSeen, Check, NewContent, Terminal;
    var t := StepState(cfg, s, ev).inflight[r];
    if r in s.inflight {
      KeptTicket(cfg, s, ev, r);
      assert !Threatens(cfg, s, id, r);
    } else {
      NewPlan(cfg, s, ev, r);
      if ev.Read? {
        assert !Threatens(cfg, s, id, r);
        ReadIsNoThreat(cfg, s.db, s.reading[r], s.db.claims[id], t.plan);
      } else {
        NoNewThreat(cfg, s.db, t.req, id);
      }
    }
  }

  lemma KeptTicket(cfg: Config, s: State, ev: Event, r: nat)
    requires Inv(cfg, s) && r in s.inflight && r in StepState(cfg, s, ev).inflight
    ensures StepState(cfg, s, ev).inflight[r] == s.inflight[r]
  {
    hide DbSound, Check, Commit, Administer, Grows, TicketSound, CheckSeen;
  }

  lemma ReadIsNoThreat(cfg: Config, db: Db, rd: Reading, c: Claim, plan: Plan)
    requires |rd.seen| + 1 == Reads(rd.req) > 1 && CheckSeen(cfg, rd.seen + [db], rd.req) == Success(plan)
    requires !PendingEdit(cfg, c, rd)
    ensures !Rewrites(c, plan)
  {
    hide NewContent, ItemsBind, DateAllowed;
    if rd.req.SubmitReq? {
      hide CheckSeen;
      SubmitPlanOnly(cfg, rd.seen + [db], rd.req);
    }
  }

  lemma ReadingIsNoThreat(cfg: Config, s: State, ev: Event, id: ClaimId, r: nat)
    requires Inv(cfg, s) && id < |s.db.claims| && Terminal(s.db.claims[id]) && Unthreatened(cfg, s, id)
    requires r in StepState(cfg, s, ev).reading && Addresses(StepState(cfg, s, ev).reading[r].req, id)
    ensures !PendingEdit(cfg, s.db.claims[id], StepState(cfg, s, ev).reading[r])
  {
    hide DbSound, StepState, Grows, TicketSound, NewContent, ItemsBind, DateAllowed, Rewrites;
    var rd := StepState(cfg, s, ev).reading[r];
    if r in s.reading && s.reading[r] == rd {
      assert !Threatens(cfg, s, id, r);
    } else {
      NewReading(cfg, s, ev, r);
    }
  }

  /** No event changes an unthreatened terminal claim, or threatens it. */
  lemma UnthreatenedStep(cfg: Config, s: State, ev: Event, id: ClaimId)
    requires Inv(cfg, s) && id < |s.db.claims| && Terminal(s.db.claims[id]) && Unthreatened(cfg, s, id)
    ensures var s' := StepState(cfg, s, ev);
      id < |s'.db.claims| && s'.db.claims[id] == s.db.claims[id] && Unthreatened(cfg, s', id)
  {
    hide DbSound, Commit, Check, Look, Administer, LegalChange, Rewrites, PendingEdit, Terminal, TicketSound, ReadingSound;
    var s' := StepState(cfg, s, ev);
    EveryChangeIsLegal(cfg, s, ev, id);
    if s'.db.claims[id] != s.db.claims[id] {
      assert !Threatens(cfg, s, id, ev.r);
      ChangeIsRewrite(cfg, s, s.inflight[ev.r], id);
    }
    forall r | r in s'.inflight ensures Addresses(s'.inflight[r].req, id) ==> !Rewrites(s.db.claims[id], s'.inflight[r].plan) {
      if Addresses(s'.inflight[r].req, id) {
        TicketIsNoThreat(cfg, s, ev, id, r);
      }
    }
    forall r | r in s'.reading ensures Addresses(s'.reading[r].req, id) ==> !PendingEdit(cfg, s.db.claims[id], s'.reading[r]) {
      if Addresses(s'.reading[r].req, id) {
        ReadingIsNoThreat(cfg, s, ev, id, r);
      }
    }
  }

  lemma {:induction false} UnthreatenedStays(cfg: Config, s: State, evs: seq<Event>, id: ClaimId)
    requires Inv(cfg, s) && id < |s.db.claims| && Terminal(s.db.claims[id]) && Unthreatened(cfg, s, id)
    ensures Unchanged(cfg, s, evs, id)
    decreases |evs|
  {
    hide Inv, Terminal, Unthreatened, StepState;
    if evs != [] {
      StepKeepsInv(cfg, s, evs[0]);
      UnthreatenedStep(cfg, s, evs[0], id);
      UnthreatenedStays(cfg, StepState(cfg, s, evs[0]), evs[1..], id);
    }
  }

  // ---------- a threat can come true ----------

  function ActivateOp(db: Db, k: CategoryId): AdminOp {
    if k in db.categories then SetCategory(k, Category(None, true)) else AddCategory(k, Category(None, true))
  }

  lemma ActivateWorks(cfg: Config, s: State, k: CategoryId)
    ensures StepState(cfg, s, Maintain(ActivateOp(s.db, k))) == s.(db := Activated(s.db, k))
    ensures ActiveCategory(Activated(s.db, k), k)
  {
  }

  /** The category a plan writes, or any other. */
  function Target(c: Claim, plan: Plan): CategoryId {
    if plan.UpdatePlan? then plan.category else c.category
  }

  lemma RewriteCommits(cfg: Config, s: State, t: Ticket, id: ClaimId)
    requires Inv(cfg, s) && TicketSound(cfg, s.db, t) && Addresses(t.req, id) && id < |s.db.claims|
    requires Rewrites(s.db.claims[id], t.plan) && Target(s.db.claims[id], t.plan) in s.db.categories
    ensures var db' := After(s.db, Commit(s.db, t.plan));
      id < |db'.claims| && db'.claims[id] != s.db.claims[id]
  {
    hide RowsAccepted, AmountAccepted, ItemsTotal, MoneyText, ApprovalChain, Without, ItemsBind, ClaimSound, Agrees;
    hide SnapshotSound, Replayed;
    assert RowSound(cfg, s.db, s.submitters, id);
    var c := s.db.claims[id];
    assert t.plan.AttachPlan? ==> |(c.receipts + [t.plan.user])| > |c.receipts|;
  }

  /** The ticket's transaction, once its category exists, changes the claim. */
  lemma FinishRewrites(cfg: Config, s: State, c: Claim, id: ClaimId, r: nat)
    requires Inv(cfg, s) && r in s.inflight && Addresses(s.inflight[r].req, id) && id < |s.db.claims| && s.db.claims[id] == c
    requires Rewrites(c, s.inflight[r].plan) && Target(c, s.inflight[r].plan) in s.db.categories
    ensures id < |StepState(cfg, s, Finish(r)).db.claims| && StepState(cfg, s, Finish(r)).db.claims[id] != c
  {
    hide DbSound, Rewrites, Commit, TicketSound;
    RewriteCommits(cfg, s, s.inflight[r], id);
  }

  lemma TicketComesTrue(cfg: Config, s: State, id: ClaimId, r: nat) returns (evs: seq<Event>)
    requires Inv(cfg, s) && id < |s.db.claims| && r in s.inflight && Addresses(s.inflight[r].req, id)
    requires Rewrites(s.db.claims[id], s.inflight[r].plan)
    ensures !Unchanged(cfg, s, evs, id)
  {
    hide Inv, Rewrites, ActivateOp, StepState, Exec, Target;
    var c := s.db.claims[id];
    var k := Target(c, s.inflight[r].plan);
    var open := Maintain(ActivateOp(s.db, k));
    evs := [open, Finish(r)];
    ActivateWorks(cfg, s, k);
    StepKeepsInv(cfg, s, open);
    FinishRewrites(cfg, StepState(cfg, s, open), c, id, r);
    ExecThree(cfg, s, open, Finish(r), Finish(r));
  }

  lemma ReadingComesTrue(cfg: Config, s: State, id: ClaimId, r: nat) returns (evs: seq<Event>)
    requires Inv(cfg, s) && id < |s.db.claims| && r in s.reading && Addresses(s.reading[r].req, id)
    requires s.reading[r].req.UpdateReq? && PendingEdit(cfg, s.db.claims[id], s.reading[r])
    ensures !Unchanged(cfg, s, evs, id)
  {
    hide Inv, Rewrites, ActivateOp, StepState, Exec, Target, PendingEdit;
    var c, k := s.db.claims[id], s.reading[r].req.category;
    var open := Maintain(ActivateOp(s.db, k));
    evs := [open, Read(r), Finish(r)];
    ActivateWorks(cfg, s, k);
    var s1 := StepState(cfg, s, open);
    StepKeepsInv(cfg, s, open);
    StepKeepsInv(cfg, s1, Read(r));
    PendingReads(cfg, s1, c, r);
    FinishRewrites(cfg, StepState(cfg, s1, Read(r)), c, id, r);
    ExecThree(cfg, s, open, Read(r), Finish(r));
  }

  /** With its category active, the second read of a pending edit makes a rewriting ticket. */
  lemma PendingReads(cfg: Config, s: State, c: Claim, r: nat)
    requires r in s.reading && s.reading[r].req.UpdateReq? && PendingEdit(cfg, c, s.reading[r])
    requires ActiveCategory(s.db, s.reading[r].req.category)
    ensures var (s', req) := (StepState(cfg, s, Read(r)), s.reading[r].req);
      && s'.db == s.db && r in s'.inflight && s'.inflight[r].req == req
      && Rewrites(c, s'.inflight[r].plan) && Target(c, s'.inflight[r].plan) == req.category
  {
    hide NewContent, ItemsBind, DateAllowed, Visible;
  }

  lemma ThreatComesTrue(cfg: Config, s: State, id: ClaimId, r: nat)
    requires Inv(cfg, s) && id < |s.db.claims| && Threatens(cfg, s, id, r)
    ensures exists evs :: !Unchanged(cfg, s, evs, id)
  {
    hide Inv, Unchanged, CheckSeen, NewContent, Rewrites;
    if r in s.inflight && Addresses(s.inflight[r].req, id) && Rewrites(s.db.claims[id], s.inflight[r].plan) {
      var evs := TicketComesTrue(cfg, s, id, r);
    } else {
      var evs := ReadingComesTrue(cfg, s, id, r);
    }
  }

  /** A paid, cancelled or deleted claim never changes again, in any continuation, if and only if no edit, deletion or
      receipt that was checked before it became terminal is still under way with something new to write. */
  lemma TerminalFixedIff(cfg: Config, s: State, id: ClaimId)
    requires Inv(cfg, s) && id < |s.db.claims| && Terminal(s.db.claims[id])
    ensures (forall evs :: Unchanged(cfg, s, evs, id)) <==> Unthreatened(cfg, s, id)
  {
    hide Inv, Terminal, Unchanged, Threatens;
    if Unthreatened(cfg, s, id) {
      forall evs ensures Unchanged(cfg, s, evs, id) {
        UnthreatenedStays(cfg, s, evs, id);
      }
    } else {
      var r :| (r in s.inflight || r in s.reading) && Threatens(cfg, s, id, r);
      ThreatComesTrue(cfg, s, id, r);
    }
  }
}
