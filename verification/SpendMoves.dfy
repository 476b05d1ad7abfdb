/** What each committed request does to the money taken from a category in a month. */
module SpendMoves {
  import opened Calendar
  import opened StateMachine
  import opened Ledger
  import opened Requests
  import opened Machine
  import opened Interleavings

  /** One committed request on a claim changes the month's money by exactly what the claim takes after it less what the
      claim took before it. */
  lemma SpendChange(cfg: Config, s: State, r: nat, e: UserId, k: CategoryId, year: int, month: int)
    requires Inv(cfg, s) && r in s.inflight && !s.inflight[r].req.CreateReq?
    requires Commit(s.db, s.inflight[r].plan).Committed?
    ensures var (id, cs, cs') := (s.inflight[r].req.id, s.db.claims, Commit(s.db, s.inflight[r].plan).db.claims);
      && id < |cs| == |cs'| && LegalChange(s.inflight[r].req, cs[id], cs'[id])
      && MoneyOut(cs', e, k, year, month) + Taken(cs[id], e, k, year, month)
         == MoneyOut(cs, e, k, year, month) + Taken(cs'[id], e, k, year, month)
  {
    hide DbSound, LegalChange, Commit, MoneyOut, Taken;
    var t := s.inflight[r];
    var cs, cs' := s.db.claims, Commit(s.db, t.plan).db.claims;
    CommitAddresses(cfg, s, t);
    CommitIsLegal(cfg, s, t, Commit(s.db, t.plan).db);
    forall i | 0 <= i < |cs| && i != t.req.id ensures cs'[i] == cs[i] {
      CommitTouchesOne(cfg, s.db, t, Commit(s.db, t.plan).db, i);
    }
    assert cs' == cs[t.req.id := cs'[t.req.id]];
    MoneyOutUpdate(cs, t.req.id, cs'[t.req.id], e, k, year, month);
  }

  lemma CommitAddresses(cfg: Config, s: State, t: Ticket)
    requires TicketSound(cfg, s.db, t) && !t.req.CreateReq? && Commit(s.db, t.plan).Committed?
    ensures t.req.id < |s.db.claims| == |Commit(s.db, t.plan).db.claims|
  {
    hide ApprovalChain, Without, FirstPending, ActedCount, ItemsTotal, BodyBinds;
  }

  /** What a request does to the money of a bucket that its claim is in, or is not in. */
  function Move(req: Request, c: Claim, e: UserId, k: CategoryId, year: int, month: int): int {
    var own := if InBucket(c, e, k, year, month) then c.amount as int else 0;
    match req
    case SubmitReq(_, _, _) => own
    case RejectReq(_, _, _, _) => -own
    case CancelReq(_, _, _) => -own
    case DeleteReq(_, _, _) => if !c.deleted && c.status in {Submitted, Approved, Paid} then -own else 0
    case UpdateReq(_, _, _, category, date, items, _) =>
      if !c.deleted && c.status in {Submitted, Approved, Paid}
      then (if c.employee == e && category == k && date.year == year && date.month == month then Priced(items) as int else 0)
           - own
      else 0
    case _ => 0
  }

  lemma MoveIsDifference(req: Request, c: Claim, c': Claim, e: UserId, k: CategoryId, year: int, month: int)
    requires LegalChange(req, c, c')
    ensures Taken(c', e, k, year, month) - Taken(c, e, k, year, month) == Move(req, c, e, k, year, month)
  {
    hide Priced, ItemsTotal;
    if req.UpdateReq? {
      ItemsTotalIsPriced(req.items);
    }
  }

  /** Under every interleaving: approvals, payments and receipts leave the money of every employee, category and month as
      it was, a submission raises its own bucket by its amount, a rejection or cancellation lowers it by its amount, a
      deletion or edit does so only to a claim that already counted, and no other bucket moves. */
  lemma SpendMovesExactly(cfg: Config, s: State, r: nat, e: UserId, k: CategoryId, year: int, month: int)
    requires Inv(cfg, s) && r in s.inflight && !s.inflight[r].req.CreateReq?
    requires Commit(s.db, s.inflight[r].plan).Committed? && s.inflight[r].req.id < |s.db.claims|
    ensures MoneyOut(Commit(s.db, s.inflight[r].plan).db.claims, e, k, year, month)
         == MoneyOut(s.db.claims, e, k, year, month)
            + Move(s.inflight[r].req, s.db.claims[s.inflight[r].req.id], e, k, year, month)
  {
    hide Inv, LegalChange, Commit, MoneyOut, Taken, Move;
    var t := s.inflight[r];
    SpendChange(cfg, s, r, e, k, year, month);
    MoveIsDifference(t.req, s.db.claims[t.req.id], Commit(s.db, t.plan).db.claims[t.req.id], e, k, year, month);
  }

  /** Creating a claim takes no money. */
  lemma CreationTakesNothing(db: Db, user: UserId, category: CategoryId, date: Date, items: seq<Item>, e: UserId,
                             k: CategoryId, year: int, month: int)
    ensures MoneyOut(After(db, CommitCreate(db, user, category, date, items)).claims, e, k, year, month)
         == MoneyOut(db.claims, e, k, year, month)
  {
    hide MoneyOut, ItemsTotal;
    MoneyOutAppend(db.claims, NewClaim(user, category, date, items), e, k, year, month);
  }
}
