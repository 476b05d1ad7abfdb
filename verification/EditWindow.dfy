/** When an edit or a deletion leaves its documented window: told from what committed on the claim between the request's
    read and its transaction. */
module EditWindow {
  import opened StateMachine
  import opened Ledger
  import opened Requests
  import opened Machine
  import opened Interleavings

  /** What has committed on a claim since a moment: any submission, a submission not followed by a rejection, a deletion. */
  datatype Since = Since(submitted: bool, open: bool, deleted: bool)

  const NOTHING := Since(false, false, false)

  /** An event that commits a request on the claim. */
  predicate Commits(s: State, ev: Event, id: ClaimId) {
    && ev.Finish? && ev.r in s.inflight && Addresses(s.inflight[ev.r].req, id)
    && Commit(s.db, s.inflight[ev.r].plan).Committed?
  }

  function Noted(since: Since, req: Request): Since {
    match req
    case SubmitReq(_, _, _) => since.(submitted := true, open := true)
    case RejectReq(_, _, _, _) => since.(open := false)
    case DeleteReq(_, _, _) => since.(deleted := true)
    case _ => since
  }

  function CommittedSince(cfg: Config, s: State, evs: seq<Event>, id: ClaimId, since: Since): Since
    decreases |evs|
  {
    if evs == [] then since
    else
      var noted := if Commits(s, evs[0], id) then Noted(since, s.inflight[evs[0].r].req) else since;
      CommittedSince(cfg, StepState(cfg, s, evs[0]), evs[1..], id, noted)
  }

  predicate Editable(c: Claim) {
    c.status == Draft || c.status == Rejected
  }

  /** The claim's status and deletion mark fit what has committed since it was editable; `draft` tells whether it was a
      draft then. */
  predicate Fits(c: Claim, since: Since, draft: bool) {
    && (c.deleted <==> since.deleted)
    && (Editable(c) <==> !since.open)
    && (draft ==> (c.status == Draft <==> !since.submitted))
    && (since.open ==> since.submitted)
  }

  lemma NotedFits(req: Request, c: Claim, c': Claim, since: Since, draft: bool)
    requires Fits(c, since, draft) && LegalChange(req, c, c')
    ensures Fits(c', Noted(since, req), draft)
  {
  }

  lemma StepFits(cfg: Config, s: State, ev: Event, id: ClaimId, since: Since, draft: bool)
    requires Inv(cfg, s) && id < |s.db.claims| && Fits(s.db.claims[id], since, draft)
    ensures id < |StepState(cfg, s, ev).db.claims|
    ensures Fits(StepState(cfg, s, ev).db.claims[id],
                 if Commits(s, ev, id) then Noted(since, s.inflight[ev.r].req) else since, draft)
  {
    hide DbSound, LegalChange, Fits, Check, Commit, TicketSound, ReadingSound;
    EveryChangeIsLegal(cfg, s, ev, id);
    if Commits(s, ev, id) {
      var t := s.inflight[ev.r];
      CommitIsLegal(cfg, s, t, Commit(s.db, t.plan).db);
      NotedFits(t.req, s.db.claims[id], StepState(cfg, s, ev).db.claims[id], since, draft);
    }
  }

  lemma {:induction false} RunFits(cfg: Config, s: State, evs: seq<Event>, id: ClaimId, since: Since, draft: bool)
    requires Inv(cfg, s) && id < |s.db.claims| && Fits(s.db.claims[id], since, draft)
    ensures id < |Exec(cfg, s, evs).db.claims|
    ensures Fits(Exec(cfg, s, evs).db.claims[id], CommittedSince(cfg, s, evs, id, since), draft)
    decreases |evs|
  {
    hide Inv, Fits, StepState, Noted, Commit;
    if evs != [] {
      StepKeepsInv(cfg, s, evs[0]);
      StepFits(cfg, s, evs[0], id, since, draft);
      var noted := if Commits(s, evs[0], id) then Noted(since, s.inflight[evs[0].r].req) else since;
      RunFits(cfg, StepState(cfg, s, evs[0]), evs[1..], id, noted, draft);
    }
  }

  /** Under every interleaving an edit that was in its window when it read the claim is still in it when it commits if and
      only if since then no submission of the claim committed without a rejection after it, and no deletion; a deletion, if
      and only if since then no submission of the claim committed at all, and no deletion. */
  lemma WindowKeptIff(cfg: Config, s: State, evs: seq<Event>, req: Request)
    requires Inv(cfg, s) && (req.UpdateReq? || req.DeleteReq?)
    requires req.id < |s.db.claims| && InWindow(req, s.db.claims[req.id])
    ensures req.id < |Exec(cfg, s, evs).db.claims|
    ensures var since := CommittedSince(cfg, s, evs, req.id, NOTHING);
      InWindow(req, Exec(cfg, s, evs).db.claims[req.id])
      <==> !since.deleted && (if req.UpdateReq? then !since.open else !since.submitted)
  {
    hide Inv, Exec, CommittedSince;
    RunFits(cfg, s, evs, req.id, NOTHING, s.db.claims[req.id].status == Draft);
  }

  /** What a request saw at its first read, when its guard passed, was in its window. */
  lemma ReadInWindow(cfg: Config, seen: seq<Db>, req: Request)
    requires (req.UpdateReq? || req.DeleteReq?) && |seen| >= Reads(req) && CheckSeen(cfg, seen, req).Success?
    ensures req.id < |seen[0].claims| && InWindow(req, seen[0].claims[req.id])
  {
    hide ItemsBind, DateAllowed;
  }
}
