/** The monthly category limit over whole runs: where it holds, and exactly when a stale commit breaks it. */
module SpendCap {
  import opened Wrappers
  import opened Calendar
  import opened Decimal
  import opened StateMachine
  import opened Ledger
  import opened Requests
  import opened Policy
  import opened Lifecycle
  import opened Machine
  import opened Interleavings
  import opened PolicyRuns

  /** Money an employee has spent in a category in the month of a date. */
  function Spent(cs: seq<Claim>, e: UserId, k: CategoryId, date: Date): nat {
    SpentCents(cs, e, k, date, -1)
  }

  ghost predicate CapHolds(cs: seq<Claim>, k: CategoryId, limit: nat) {
    forall e: UserId, date: Date :: Spent(cs, e, k, date) <= limit
  }

  /** While the category exists it is active with this limit. */
  predicate LimitInForce(db: Db, k: CategoryId, limit: nat) {
    k in db.categories ==> db.categories[k] == Category(Some(limit), true)
  }

  /** The limit stays in force in every state of the run. */
  predicate LimitFixed(cfg: Config, s: State, evs: seq<Event>, k: CategoryId, limit: nat)
    decreases |evs|
  {
    LimitInForce(s.db, k, limit) && (evs == [] || LimitFixed(cfg, StepState(cfg, s, evs[0]), evs[1..], k, limit))
  }

  // ---------- sums ----------

  lemma {:induction false} TotalMonotone(cs: seq<Claim>, cs': seq<Claim>, w: (nat, Claim) -> nat)
    requires |cs| <= |cs'|
    requires forall i :: 0 <= i < |cs| ==> w(i, cs'[i]) <= w(i, cs[i])
    requires forall i :: |cs| <= i < |cs'| ==> w(i, cs'[i]) == 0
    ensures Total(cs', w) <= Total(cs, w)
    decreases |cs'|
  {
    if |cs'| > |cs| {
      TotalMonotone(cs, cs'[..|cs'| - 1], w);
    } else if cs != [] {
      TotalMonotone(cs[..|cs| - 1], cs'[..|cs'| - 1], w);
    }
  }

  lemma QuietKeepsCap(db: Db, db': Db, k: CategoryId, limit: nat)
    requires CapHolds(db.claims, k, limit) && QuietDb(db, db')
    ensures CapHolds(db'.claims, k, limit)
  {
    forall e: UserId, date: Date ensures Spent(db'.claims, e, k, date) <= limit {
      forall i | 0 <= i < |db.claims|
        ensures SpendWeight(e, k, date, -1)(i, db'.claims[i]) <= SpendWeight(e, k, date, -1)(i, db.claims[i])
      {
        assert Quiet(db.claims[i], db'.claims[i]);
      }
      TotalMonotone(db.claims, db'.claims, SpendWeight(e, k, date, -1));
      assert Spent(db.claims, e, k, date) <= limit;
    }
  }

  /** Dates of one month have one spend. */
  lemma SameMonthSameSpend(cs: seq<Claim>, e: UserId, k: CategoryId, d: Date, d': Date, excluded: int)
    requires SameMonth(d, d')
    ensures SpentCents(cs, e, k, d, excluded) == SpentCents(cs, e, k, d', excluded)
  {
    TotalAgree(cs, SpendWeight(e, k, d, excluded), SpendWeight(e, k, d', excluded));
  }

  /** A claim that becomes live adds its amount to its own bucket and to no other. */
  lemma BecomingLive(cs: seq<Claim>, id: ClaimId, c': Claim, e: UserId, k: CategoryId, date: Date)
    requires id < |cs| && !IsLive(cs[id]) && IsLive(c')
    ensures Spent(cs[id := c'], e, k, date)
         == Spent(cs, e, k, date)
          + (if c'.employee == e && c'.category == k && SameMonth(c'.date, date) then c'.amount else 0)
  {
    TotalUpdate(cs, SpendWeight(e, k, date, -1), id, c');
  }

  lemma OthersAreAll(cs: seq<Claim>, id: ClaimId)
    requires id < |cs| && !IsLive(cs[id])
    ensures SpentCents(cs, cs[id].employee, cs[id].category, cs[id].date, id)
         == Spent(cs, cs[id].employee, cs[id].category, cs[id].date)
  {
    SpentWithout(cs, cs[id].employee, cs[id].category, cs[id].date, id);
  }

  /** When a claim becomes live, its category's cap survives if and only if its own bucket had room for it. */
  lemma CapSurvivesIff(cs: seq<Claim>, id: ClaimId, c': Claim, limit: nat)
    requires id < |cs| && !IsLive(cs[id]) && IsLive(c')
    requires c'.employee == cs[id].employee && c'.category == cs[id].category && c'.date == cs[id].date
    requires c'.amount == cs[id].amount && CapHolds(cs, c'.category, limit)
    ensures CapHolds(cs[id := c'], c'.category, limit)
       <==> SpentCents(cs, c'.employee, c'.category, c'.date, id) + c'.amount <= limit
  {
    var e, k, d := c'.employee, c'.category, c'.date;
    OthersAreAll(cs, id);
    BecomingLive(cs, id, c', e, k, d);
    if SpentCents(cs, e, k, d, id) + c'.amount <= limit {
      var cs' := cs[id := c'];
      forall e': UserId, d': Date ensures Spent(cs', e', k, d') <= limit {
        BecomingLive(cs, id, c', e', k, d');
        assert Spent(cs, e', k, d') <= limit;
        if e' == e && SameMonth(d, d') {
          SameMonthSameSpend(cs, e, k, d', d, -1);
        }
      }
    } else {
      assert Spent(cs[id := c'], e, k, d) > limit;
    }
  }

  lemma OtherCategoryKeepsCap(cs: seq<Claim>, id: ClaimId, c': Claim, k: CategoryId, limit: nat)
    requires id < |cs| && !IsLive(cs[id]) && IsLive(c') && c'.category != k && CapHolds(cs, k, limit)
    ensures CapHolds(cs[id := c'], k, limit)
  {
    var cs' := cs[id := c'];
    forall e: UserId, d: Date ensures Spent(cs', e, k, d) <= limit {
      BecomingLive(cs, id, c', e, k, d);
      assert Spent(cs, e, k, d) <= limit;
    }
  }

  // ---------- runs ----------

  /** No limit violation means room in the bucket, for any figures that fit the columns. */
  lemma NoViolationMeansRoom(db: Db, id: ClaimId, limit: nat)
    requires id < |db.claims| && db.claims[id].category in db.categories
    requires LimitInForce(db, db.claims[id].category, limit) && limit < NUMERIC_14_2
    requires CapHolds(db.claims, db.claims[id].category, limit) && !IsLive(db.claims[id])
    requires db.claims[id].amount < NUMERIC_14_2 && LimitViolations(db, id) == []
    ensures OtherSpend(db, id) + db.claims[id].amount <= limit
  {
    hide LimitViolations;
    var c := db.claims[id];
    OthersAreAll(db.claims, id);
    assert Spent(db.claims, c.employee, c.category, c.date) <= limit;
    assert FiguresFit(db, id);
    LimitRefines(db, id);
  }

  lemma SubmitKeepsCap(cfg: Config, s: State, ev: Event, k: CategoryId, limit: nat)
    requires Inv(cfg, s) && FreshEvent(cfg, s, ev) && Submits(s, ev)
    requires CapHolds(s.db.claims, k, limit) && LimitInForce(s.db, k, limit) && limit < NUMERIC_14_2
    ensures CapHolds(StepState(cfg, s, ev).db.claims, k, limit)
  {
    hide DbSound, Resubmitted, Commit, ApprovalChain, Without, MoneyText, CapHolds, CheckSubmit, LimitViolations;
    hide IsLive, LimitInForce, Roles;
    var t := s.inflight[ev.r];
    var id := t.plan.id;
    TicketHasPlan(cfg, s.db, t);
    UnsubmittedPlan(cfg, s, t);
    SubmitChecked(cfg, s.db, t.req.id, t.req.role, t.req.user, t.plan);
    SubmitCommitted(s, ev);
    var c := s.db.claims[id];
    var c' := Resubmitted(c, t.plan.chain);
    ResubmittedContent(c, t.plan.chain);
    assert IsLive(c') by { SubmittedIsLive(s, ev); }
    if c.category == k {
      AmountBound(cfg, s, id);
      NoViolationMeansRoom(s.db, id, limit);
      CapSurvivesIff(s.db.claims, id, c', limit);
    } else {
      OtherCategoryKeepsCap(s.db.claims, id, c', k, limit);
    }
  }

  lemma SubmittedIsLive(s: State, ev: Event)
    requires Submits(s, ev)
    ensures var plan := s.inflight[ev.r].plan;
      plan.id < |s.db.claims| && IsLive(Resubmitted(s.db.claims[plan.id], plan.chain))
  {
  }

  lemma AmountBound(cfg: Config, s: State, id: ClaimId)
    requires Inv(cfg, s) && id < |s.db.claims|
    ensures s.db.claims[id].amount < NUMERIC_14_2
  {
    assert RowSound(cfg, s.db, s.submitters, id);
  }

  lemma {:induction false} FreshRunKeepsCap(cfg: Config, s: State, evs: seq<Event>, k: CategoryId, limit: nat)
    requires Inv(cfg, s) && FreshRun(cfg, s, evs) && CapHolds(s.db.claims, k, limit)
    requires LimitFixed(cfg, s, evs, k, limit) && limit < NUMERIC_14_2
    ensures CapHolds(Exec(cfg, s, evs).db.claims, k, limit)
    decreases |evs|
  {
    hide Inv, StepState, FreshEvent, CapHolds, LimitInForce, Submits;
    if evs != [] {
      var s1 := StepState(cfg, s, evs[0]);
      StepKeepsInv(cfg, s, evs[0]);
      if Submits(s, evs[0]) {
        SubmitKeepsCap(cfg, s, evs[0], k, limit);
      } else {
        FreshIsQuiet(cfg, s, evs[0]);
        QuietKeepsCap(s.db, s1.db, k, limit);
      }
      FreshRunKeepsCap(cfg, s1, evs[1..], k, limit);
    }
  }

  /** In every fresh run from the empty database in which a category stays active with one limit, no employee's live
      claims in that category and calendar month ever exceed the limit, through every edit, rejection, resubmission,
      cancellation and payment. */
  lemma MonthlyLimitNeverExceeded(cfg: Config, evs: seq<Event>, k: CategoryId, limit: nat, e: UserId, year: int, month: int)
    requires FreshRun(cfg, INIT, evs) && LimitFixed(cfg, INIT, evs, k, limit) && limit < NUMERIC_14_2
    ensures MoneyOut(Reached(cfg, evs).db.claims, e, k, year, month) <= limit
  {
    hide FreshRun, LimitFixed, Inv, Exec;
    InitInv(cfg);
    assert CapHolds(INIT.db.claims, k, limit);
    FreshRunKeepsCap(cfg, INIT, evs, k, limit);
    assert Spent(Reached(cfg, evs).db.claims, e, k, Date(year, month, 1)) <= limit;
    SpentIsMoneyOut(Reached(cfg, evs).db.claims, e, k, Date(year, month, 1));
  }

  /** The serialized form: requests served whole, one after another. */
  lemma SerializedLimitNeverExceeded(cfg: Config, jobs: seq<Job>, k: CategoryId, limit: nat, e: UserId, year: int,
                                     month: int)
    requires LimitFixed(cfg, INIT, Serialized(jobs), k, limit) && limit < NUMERIC_14_2
    ensures MoneyOut(Reached(cfg, Serialized(jobs)).db.claims, e, k, year, month) <= limit
  {
    hide LimitFixed, Exec, FreshRun;
    SerializedIsFresh(cfg, INIT, jobs);
    MonthlyLimitNeverExceeded(cfg, Serialized(jobs), k, limit, e, year, month);
  }

  /** Maintenance that leaves the category's limit in force. */
  predicate KeepsLimit(ev: Event, k: CategoryId, limit: nat) {
    (ev == Maintain(AddCategory(k, Category(Some(limit), true))))
    || !(ev.Maintain? && (ev.op.AddCategory? || ev.op.SetCategory?) && ev.op.category == k)
  }

  lemma CommitKeepsCategories(db: Db, plan: Plan)
    ensures After(db, Commit(db, plan)).categories == db.categories
  {
  }

  lemma StepKeepsLimit(cfg: Config, s: State, ev: Event, k: CategoryId, limit: nat)
    requires LimitInForce(s.db, k, limit) && KeepsLimit(ev, k, limit)
    ensures LimitInForce(StepState(cfg, s, ev).db, k, limit)
  {
    hide Check, Commit, Look;
    match ev {
      case Start(r, req) => LookReads(cfg, s, r, req, []);
      case Read(r) =>
        if r in s.reading {
          LookReads(cfg, s, r, s.reading[r].req, s.reading[r].seen);
        }
      case Finish(r) =>
        if r in s.inflight {
          CommitKeepsCategories(s.db, s.inflight[r].plan);
        }
      case _ =>
    }
  }

  /** A limit stays fixed in every run that never writes another row for the category. */
  lemma {:induction false} LimitStaysFixed(cfg: Config, s: State, evs: seq<Event>, k: CategoryId, limit: nat)
    requires LimitInForce(s.db, k, limit) && forall i :: 0 <= i < |evs| ==> KeepsLimit(evs[i], k, limit)
    ensures LimitFixed(cfg, s, evs, k, limit)
    decreases |evs|
  {
    hide LimitInForce, StepState, KeepsLimit;
    if evs != [] {
      StepKeepsLimit(cfg, s, evs[0], k, limit);
      LimitStaysFixed(cfg, StepState(cfg, s, evs[0]), evs[1..], k, limit);
    }
  }

  // ---------- stale commits ----------

  /** However stale its reads, a submission that commits keeps its category's cap if and only if, at commit time, the
      owner's other live spend plus the claim's amount is within the limit. */
  lemma StaleSubmitKeepsCapIff(cfg: Config, s: State, ev: Event, limit: nat)
    requires Submits(s, ev) && s.inflight[ev.r].plan.id < |s.db.claims|
    requires CapHolds(s.db.claims, s.db.claims[s.inflight[ev.r].plan.id].category, limit)
    ensures var (id, cs') := (s.inflight[ev.r].plan.id, StepState(cfg, s, ev).db.claims);
      CapHolds(cs', s.db.claims[id].category, limit) <==> OtherSpend(s.db, id) + s.db.claims[id].amount <= limit
  {
    hide Resubmitted, Commit, MoneyText, CapHolds, Roles;
    var t := s.inflight[ev.r];
    var id := t.plan.id;
    SubmitCommitted(s, ev);
    NotYetLive(s, ev);
    SubmittedIsLive(s, ev);
    ResubmittedContent(s.db.claims[id], t.plan.chain);
    CapSurvivesIff(s.db.claims, id, Resubmitted(s.db.claims[id], t.plan.chain), limit);
  }

  lemma NotYetLive(s: State, ev: Event)
    requires Submits(s, ev)
    ensures s.inflight[ev.r].plan.id < |s.db.claims| && !IsLive(s.db.claims[s.inflight[ev.r].plan.id])
  {
  }

  /** A live claim that changes moves its spend: out of every bucket that counted it, into the one of its new content. */
  lemma MovingSpend(cs: seq<Claim>, id: ClaimId, c': Claim, e: UserId, k: CategoryId, date: Date)
    requires id < |cs| && IsLive(c')
    ensures Spent(cs[id := c'], e, k, date)
         == SpentCents(cs, e, k, date, id)
          + (if c'.employee == e && c'.category == k && SameMonth(c'.date, date) then c'.amount else 0)
    ensures SpentCents(cs, e, k, date, id) <= Spent(cs, e, k, date)
  {
    TotalUpdate(cs, SpendWeight(e, k, date, -1), id, c');
    SpentWithout(cs, e, k, date, id);
  }

  /** When a live claim changes, the cap of its new category survives if and only if its new bucket has room for its new
      amount; every other cap survives. */
  lemma CapAfterChangeIff(cs: seq<Claim>, id: ClaimId, c': Claim, k: CategoryId, limit: nat)
    requires id < |cs| && IsLive(c') && CapHolds(cs, k, limit)
    ensures CapHolds(cs[id := c'], k, limit)
       <==> (c'.category == k ==> SpentCents(cs, c'.employee, k, c'.date, id) + c'.amount <= limit)
  {
    hide IsLive, SpentCents;
    var cs' := cs[id := c'];
    var e, d := c'.employee, c'.date;
    if c'.category == k ==> SpentCents(cs, e, k, d, id) + c'.amount <= limit {
      forall e': UserId, d': Date ensures Spent(cs', e', k, d') <= limit {
        MovingSpend(cs, id, c', e', k, d');
        assert Spent(cs, e', k, d') <= limit;
        if c'.category == k && e' == e && SameMonth(d, d') {
          SameMonthSameSpend(cs, e, k, d, d', id);
        }
      }
    } else {
      MovingSpend(cs, id, c', e, k, d);
      assert Spent(cs', e, k, d) > limit;
    }
  }

  /** There is room for the edited claim in the bucket its edit moves it to. */
  predicate EditHasRoom(db: Db, plan: Plan, k: CategoryId, limit: nat)
    requires plan.UpdatePlan? && plan.id < |db.claims|
  {
    var c := db.claims[plan.id];
    IsLive(c) && plan.category == k ==>
      SpentCents(db.claims, c.employee, k, plan.date, plan.id) + ItemsTotal(plan.items) <= limit
  }

  /** However stale its check, an edit that commits keeps a category's cap if and only if the claim is not live, or goes to
      another category, or its new amount fits into what the owner's other live claims leave of the limit. */
  lemma StaleEditKeepsCapIff(cfg: Config, s: State, ev: Event, k: CategoryId, limit: nat)
    requires Edits(s, ev) && s.inflight[ev.r].plan.id < |s.db.claims| && CapHolds(s.db.claims, k, limit)
    ensures CapHolds(StepState(cfg, s, ev).db.claims, k, limit) <==> EditHasRoom(s.db, s.inflight[ev.r].plan, k, limit)
  {
    hide Edited, Commit, CapHolds, IsLive, SpentCents, ItemsTotal, QuietDb;
    var plan := s.inflight[ev.r].plan;
    var c := s.db.claims[plan.id];
    EditCommitted(s, ev);
    EditedContent(c, plan.category, plan.date, plan.items);
    if IsLive(c) {
      CapAfterChangeIff(s.db.claims, plan.id, Edited(c, plan.category, plan.date, plan.items), k, limit);
    } else {
      IdleEditIsQuiet(s, ev);
      QuietKeepsCap(s.db, StepState(cfg, s, ev).db, k, limit);
    }
  }

  // ---------- the cap over all interleavings ----------

  /** There is room for whatever the event adds to the category's spend. */
  predicate HasRoom(s: State, ev: Event, k: CategoryId, limit: nat) {
    && (Submits(s, ev) ==>
         s.inflight[ev.r].plan.id < |s.db.claims|
         && var c := s.db.claims[s.inflight[ev.r].plan.id];
         c.category == k ==> OtherSpend(s.db, s.inflight[ev.r].plan.id) + c.amount <= limit)
    && (Edits(s, ev) ==>
         s.inflight[ev.r].plan.id < |s.db.claims| && EditHasRoom(s.db, s.inflight[ev.r].plan, k, limit))
  }

  lemma SubmitKeepsCapIff(cfg: Config, s: State, ev: Event, k: CategoryId, limit: nat)
    requires Submits(s, ev) && CapHolds(s.db.claims, k, limit)
    ensures CapHolds(StepState(cfg, s, ev).db.claims, k, limit) <==> HasRoom(s, ev, k, limit)
  {
    hide Resubmitted, Commit, CapHolds, OtherSpend, IsLive;
    var plan := s.inflight[ev.r].plan;
    SubmitCommitted(s, ev);
    NotYetLive(s, ev);
    SubmittedIsLive(s, ev);
    var c := s.db.claims[plan.id];
    ResubmittedContent(c, plan.chain);
    if c.category == k {
      StaleSubmitKeepsCapIff(cfg, s, ev, limit);
    } else {
      OtherCategoryKeepsCap(s.db.claims, plan.id, Resubmitted(c, plan.chain), k, limit);
    }
  }

  lemma StepKeepsCapIff(cfg: Config, s: State, ev: Event, k: CategoryId, limit: nat)
    requires Inv(cfg, s) && CapHolds(s.db.claims, k, limit)
    ensures CapHolds(StepState(cfg, s, ev).db.claims, k, limit) <==> HasRoom(s, ev, k, limit)
  {
    hide Inv, CapHolds, StepState, Commit, EditHasRoom, OtherSpend, QuietDb;
    if Submits(s, ev) {
      SubmitKeepsCapIff(cfg, s, ev, k, limit);
    } else if Edits(s, ev) {
      EditCommitted(s, ev);
      StaleEditKeepsCapIff(cfg, s, ev, k, limit);
    } else {
      OthersAreQuiet(cfg, s, ev);
      QuietKeepsCap(s.db, StepState(cfg, s, ev).db, k, limit);
    }
  }

  /** The category's cap holds in every state of the run. */
  ghost predicate CapThroughout(cfg: Config, s: State, evs: seq<Event>, k: CategoryId, limit: nat)
    decreases |evs|
  {
    CapHolds(s.db.claims, k, limit) && (evs == [] || CapThroughout(cfg, StepState(cfg, s, evs[0]), evs[1..], k, limit))
  }

  predicate RoomThroughout(cfg: Config, s: State, evs: seq<Event>, k: CategoryId, limit: nat)
    decreases |evs|
  {
    evs == [] || (HasRoom(s, evs[0], k, limit) && RoomThroughout(cfg, StepState(cfg, s, evs[0]), evs[1..], k, limit))
  }

  /** In any interleaving, whatever becomes of the category's own limit meanwhile, its spend stays within an amount in every
      state if and only if each submission and edit, when it commits, has room for what it adds. */
  lemma {:induction false} InterleavedCapIff(cfg: Config, s: State, evs: seq<Event>, k: CategoryId, limit: nat)
    requires Inv(cfg, s) && CapHolds(s.db.claims, k, limit)
    ensures CapThroughout(cfg, s, evs, k, limit) <==> RoomThroughout(cfg, s, evs, k, limit)
    decreases |evs|
  {
    hide Inv, CapHolds, StepState, HasRoom;
    if evs != [] {
      StepKeepsInv(cfg, s, evs[0]);
      StepKeepsCapIff(cfg, s, evs[0], k, limit);
      if HasRoom(s, evs[0], k, limit) {
        InterleavedCapIff(cfg, StepState(cfg, s, evs[0]), evs[1..], k, limit);
      } else {
        assert !CapHolds(StepState(cfg, s, evs[0]).db.claims, k, limit);
      }
    }
  }
}
