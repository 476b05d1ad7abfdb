/** The dashboard's month aggregates, and how they agree with each other and with the policy engine's spend. */
module Dashboard {
  import opened Calendar
  import opened StateMachine
  import opened Ledger
  import opened Machine
  import opened Interleavings
  import opened PolicyRuns
  import opened SpendCap

  /** An employee sees own claims; every other role sees all. */
  predicate InScope(role: Role, user: UserId, c: Claim) {
    role == Employee ==> c.employee == user
  }

  /** The rows both aggregates read. */
  predicate MonthRow(c: Claim, role: Role, user: UserId, monthStart: Date) {
    IsLive(c) && InScope(role, user, c) && MonthStart(c.date) == monthStart
  }

  function MonthWeight(role: Role, user: UserId, monthStart: Date): (nat, Claim) -> nat {
    (i: nat, c: Claim) => if MonthRow(c, role, user, monthStart) then c.amount else 0
  }

  function CategoryWeight(role: Role, user: UserId, monthStart: Date, k: CategoryId): (nat, Claim) -> nat {
    (i: nat, c: Claim) => if MonthRow(c, role, user, monthStart) && c.category == k then c.amount else 0
  }

  /** SUM(amount) over the month, in cents. */
  function MonthlyTotal(cs: seq<Claim>, role: Role, user: UserId, monthStart: Date): nat {
    Total(cs, MonthWeight(role, user, monthStart))
  }

  /** One category's share of the month, in cents. */
  function CategoryTotal(cs: seq<Claim>, role: Role, user: UserId, monthStart: Date, k: CategoryId): nat {
    Total(cs, CategoryWeight(role, user, monthStart, k))
  }

  /** One row per category of the master table, whether or not it was used. */
  function CategoryBreakdown(db: Db, role: Role, user: UserId, monthStart: Date): map<CategoryId, nat> {
    map k | k in db.categories :: CategoryTotal(db.claims, role, user, monthStart, k)
  }

  // ---------- sums over a set of keys ----------

  ghost function SumOver(keys: set<CategoryId>, f: CategoryId -> nat): nat {
    if keys == {} then 0
    else
      var k :| k in keys;
      f(k) + SumOver(keys - {k}, f)
  }

  /** The sum does not depend on the order the keys are picked in. */
  lemma {:induction false} SumPick(keys: set<CategoryId>, f: CategoryId -> nat, k: CategoryId)
    requires k in keys
    ensures SumOver(keys, f) == f(k) + SumOver(keys - {k}, f)
  {
    var p :| p in keys && SumOver(keys, f) == f(p) + SumOver(keys - {p}, f);
    if p != k {
      SumPick(keys - {p}, f, k);
      SumPick(keys - {k}, f, p);
      assert keys - {p} - {k} == keys - {k} - {p};
    }
  }

  lemma {:induction false} SumAgree(keys: set<CategoryId>, f: CategoryId -> nat, g: CategoryId -> nat)
    requires forall k :: k in keys ==> f(k) == g(k)
    ensures SumOver(keys, f) == SumOver(keys, g)
  {
    if keys != {} {
      var k :| k in keys;
      SumPick(keys, f, k);
      SumPick(keys, g, k);
      SumAgree(keys - {k}, f, g);
    }
  }

  /** Raising one key's value raises the sum by as much. */
  lemma SumBump(keys: set<CategoryId>, f: CategoryId -> nat, g: CategoryId -> nat, k: CategoryId, a: nat)
    requires k in keys && f(k) == g(k) + a
    requires forall j :: j in keys && j != k ==> f(j) == g(j)
    ensures SumOver(keys, f) == SumOver(keys, g) + a
  {
    SumPick(keys, f, k);
    SumPick(keys, g, k);
    SumAgree(keys - {k}, f, g);
  }

  lemma {:induction false} SumZero(keys: set<CategoryId>, f: CategoryId -> nat)
    requires forall k :: k in keys ==> f(k) == 0
    ensures SumOver(keys, f) == 0
  {
    if keys != {} {
      var k :| k in keys;
      SumPick(keys, f, k);
      SumZero(keys - {k}, f);
    }
  }

  function ShareOf(cs: seq<Claim>, role: Role, user: UserId, monthStart: Date): CategoryId -> nat {
    (k: CategoryId) => CategoryTotal(cs, role, user, monthStart, k)
  }

  /** Grouping by category loses nothing, as long as every claim's category is among the keys. */
  lemma {:induction false} SharesSumToTotal(cs: seq<Claim>, keys: set<CategoryId>, role: Role, user: UserId, monthStart: Date)
    requires forall i :: 0 <= i < |cs| ==> cs[i].category in keys
    ensures SumOver(keys, ShareOf(cs, role, user, monthStart)) == MonthlyTotal(cs, role, user, monthStart)
  {
    var f := ShareOf(cs, role, user, monthStart);
    if cs == [] {
      SumZero(keys, f);
    } else {
      var front, c := cs[..|cs| - 1], cs[|cs| - 1];
      SharesSumToTotal(front, keys, role, user, monthStart);
      SumBump(keys, f, ShareOf(front, role, user, monthStart), c.category,
              MonthWeight(role, user, monthStart)(|front|, c));
    }
  }

  function RowTotal(breakdown: map<CategoryId, nat>): CategoryId -> nat {
    (k: CategoryId) => if k in breakdown then breakdown[k] else 0
  }

  /** In every reachable state the category breakdown of a scope and month sums to its monthly total: every claim's
      category still exists, because a category in use cannot be deleted. */
  lemma BreakdownSumsToTotal(cfg: Config, evs: seq<Event>, role: Role, user: UserId, monthStart: Date)
    ensures var db := Reached(cfg, evs).db;
      var breakdown := CategoryBreakdown(db, role, user, monthStart);
      SumOver(breakdown.Keys, RowTotal(breakdown)) == MonthlyTotal(db.claims, role, user, monthStart)
  {
    hide MonthlyTotal, CategoryTotal, Exec, MonthStart;
    var db := Reached(cfg, evs).db;
    var breakdown := CategoryBreakdown(db, role, user, monthStart);
    forall i | 0 <= i < |db.claims| ensures db.claims[i].category in breakdown.Keys {
      ReachedRow(cfg, evs, i);
    }
    SharesSumToTotal(db.claims, breakdown.Keys, role, user, monthStart);
    SumAgree(breakdown.Keys, RowTotal(breakdown), ShareOf(db.claims, role, user, monthStart));
  }

  /** For an employee, a category's share of a month is what the policy engine counts as spent in that month. */
  lemma EmployeeShareIsSpend(cs: seq<Claim>, e: UserId, date: Date, k: CategoryId)
    ensures CategoryTotal(cs, Employee, e, MonthStart(date), k) == Spent(cs, e, k, date)
    ensures CategoryTotal(cs, Employee, e, Date(date.year, date.month, 1), k)
         == MoneyOut(cs, e, k, date.year, date.month)
  {
    SpentIsMoneyOut(cs, e, k, date);
    TotalAgree(cs, CategoryWeight(Employee, e, MonthStart(date), k), SpendWeight(e, k, date, -1));
  }

  /** Hence, in every fresh run that keeps a category's limit fixed, no employee's dashboard ever shows more than the
      limit for it. */
  lemma BreakdownWithinLimit(cfg: Config, evs: seq<Event>, e: UserId, date: Date, k: CategoryId, limit: nat)
    requires FreshRun(cfg, INIT, evs) && LimitFixed(cfg, INIT, evs, k, limit) && limit < NUMERIC_14_2
    requires k in Reached(cfg, evs).db.categories
    ensures CategoryBreakdown(Reached(cfg, evs).db, Employee, e, MonthStart(date))[k] <= limit
  {
    hide FreshRun, LimitFixed, Exec;
    EmployeeShareIsSpend(Reached(cfg, evs).db.claims, e, date, k);
    MonthlyLimitNeverExceeded(cfg, evs, k, limit, e, date.year, date.month);
  }

  /** The totals of all employees make up what a manager's, a finance user's or an administrator's dashboard shows. */
  lemma {:induction false} EmployeesSumToTotal(cs: seq<Claim>, users: set<UserId>, role: Role, viewer: UserId, monthStart: Date)
    requires role == Manager || role == Finance || role == Admin
    requires forall i :: 0 <= i < |cs| ==> cs[i].employee in users
    ensures SumOver(users, OwnTotal(cs, monthStart)) == MonthlyTotal(cs, role, viewer, monthStart)
  {
    var f := OwnTotal(cs, monthStart);
    if cs == [] {
      SumZero(users, f);
    } else {
      var front, c := cs[..|cs| - 1], cs[|cs| - 1];
      EmployeesSumToTotal(front, users, role, viewer, monthStart);
      SumBump(users, f, OwnTotal(front, monthStart), c.employee, MonthWeight(role, viewer, monthStart)(|front|, c));
    }
  }

  function OwnTotal(cs: seq<Claim>, monthStart: Date): UserId -> nat {
    (e: UserId) => MonthlyTotal(cs, Employee, e, monthStart)
  }
}
