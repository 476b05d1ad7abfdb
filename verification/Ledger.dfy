/** The tables the workflow engine reads and writes, and the aggregate queries of its policy engine.

    A claim is stored with its item, approval and receipt rows. Claims are never removed from the table, so the table is
    a sequence: a claim's id is its position, a fresh id is the table's length, and positions follow creation time. */
module Ledger {
  import opened Wrappers
  import opened Calendar
  import opened Decimal
  import opened StateMachine

  type UserId = nat
  type CategoryId = nat
  type ClaimId = nat

  /** An item row; the unit price is in cents. */
  datatype Item = Item(quantity: nat, unitPrice: nat)

  datatype Step = Step(role: Role, status: StepStatus, approver: Option<UserId>, note: string)

  /** A claim row with its dependent rows; the amount is in cents. */
  datatype Claim = Claim(
    employee: UserId,
    category: CategoryId,
    date: Date,
    items: seq<Item>,
    amount: nat,
    status: Status,
    currentStep: nat,
    steps: seq<Step>,
    receipts: seq<UserId>,
    deleted: bool)

  datatype Category = Category(limit: Option<nat>, active: bool)

  datatype Logged =
    | SubmitLogged(amount: string)
    | ApproveLogged(step: nat, role: Role)
    | RejectLogged(step: nat, role: Role, note: string)
    | CancelLogged(amount: string)
    | PayLogged(amount: string)

  datatype Entry = Entry(actor: UserId, claim: ClaimId, action: Logged)

  datatype Db = Db(
    claims: seq<Claim>,
    users: map<UserId, Role>,
    categories: map<CategoryId, Category>,
    audit: seq<Entry>)

  datatype Config = Config(t1: string, t2: string, receiptThreshold: string)

  const EMPTY_DB := Db([], map[], map[], [])

  // ---------- column constraints ----------

  const MAX_UNIT_PRICE := 999_999_999_00
  const NUMERIC_14_2 := 1_0000_0000_0000_00
  const NUMERIC_16_2 := 1_0000_0000_0000_0000

  function LineTotal(it: Item): nat {
    it.quantity * it.unitPrice
  }

  /** The CHECK constraints of an item row and the range of its generated total. */
  predicate RowAccepted(it: Item) {
    it.quantity >= 1 && 0 < it.unitPrice <= MAX_UNIT_PRICE && LineTotal(it) < NUMERIC_16_2
  }

  predicate RowsAccepted(items: seq<Item>) {
    forall i :: 0 <= i < |items| ==> RowAccepted(items[i])
  }

  /** SUM(line_total). */
  function ItemsTotal(items: seq<Item>): nat {
    if items == [] then 0 else ItemsTotal(items[..|items| - 1]) + LineTotal(items[|items| - 1])
  }

  /** What the header's amount column can hold. */
  predicate AmountAccepted(amount: nat) {
    amount < NUMERIC_14_2
  }

  // ---------- aggregates ----------

  /** A sum over all claim rows of a weight that may depend on the row's id. */
  function Total(cs: seq<Claim>, w: (nat, Claim) -> nat): nat {
    if cs == [] then 0 else Total(cs[..|cs| - 1], w) + w(|cs| - 1, cs[|cs| - 1])
  }

  /** A claim that counts as spent money. */
  predicate IsLive(c: Claim) {
    !c.deleted && (c.status == Submitted || c.status == Approved || c.status == Paid)
  }

  /** The rows of the monthly spend query; `excluded` is the id left out. */
  predicate SpendRow(i: nat, c: Claim, employee: UserId, category: CategoryId, date: Date, excluded: int) {
    && IsLive(c) && c.employee == employee && c.category == category && SameMonth(c.date, date) && i != excluded
  }

  function SpendWeight(employee: UserId, category: CategoryId, date: Date, excluded: int): (nat, Claim) -> nat {
    (i: nat, c: Claim) => if SpendRow(i, c, employee, category, date, excluded) then c.amount else 0
  }

  /** The monthly spend in exact cents. */
  function SpentCents(cs: seq<Claim>, employee: UserId, category: CategoryId, date: Date, excluded: int): nat {
    Total(cs, SpendWeight(employee, category, date, excluded))
  }

  /** The monthly spend as the query returns it: the sum's text, or "0" when no row matches. */
  function MonthlyCategorySpend(cs: seq<Claim>, employee: UserId, category: CategoryId, date: Date, excluded: int): string {
    if exists i :: 0 <= i < |cs| && SpendRow(i, cs[i], employee, category, date, excluded)
    then MoneyText(SpentCents(cs, employee, category, date, excluded))
    else "0"
  }

  function CategoryMonthlyLimit(db: Db, k: CategoryId): Option<string> {
    if k in db.categories && db.categories[k].active && db.categories[k].limit.Some?
    then Some(MoneyText(db.categories[k].limit.value))
    else None
  }

  /** The rows of the duplicate query. */
  predicate DuplicateRow(i: nat, c: Claim, employee: UserId, amount: nat, date: Date, excluded: int) {
    && c.employee == employee && c.amount == amount && i != excluded && !c.deleted
    && c.status != Rejected && c.status != Cancelled && WithinWeek(c.date, date)
  }

  /** The date of the earliest created duplicate, if any. */
  function FindDuplicate(cs: seq<Claim>, employee: UserId, amount: nat, date: Date, excluded: int): (found: Option<Date>)
    ensures found == None <==> forall i :: 0 <= i < |cs| ==> !DuplicateRow(i, cs[i], employee, amount, date, excluded)
    ensures found.Some? ==>
      exists i :: 0 <= i < |cs| && DuplicateRow(i, cs[i], employee, amount, date, excluded) && cs[i].date == found.value
        && forall j :: 0 <= j < i ==> !DuplicateRow(j, cs[j], employee, amount, date, excluded)
  {
    if cs == [] then None
    else
      var last := |cs| - 1;
      var earlier := FindDuplicate(cs[..last], employee, amount, date, excluded);
      if earlier.Some? then earlier
      else if DuplicateRow(last, cs[last], employee, amount, date, excluded) then Some(cs[last].date)
      else None
  }

  // ---------- the sums, told from the rows ----------

  /** What the items cost: quantity times unit price, item by item from the front. */
  function Priced(items: seq<Item>): nat {
    if items == [] then 0 else items[0].quantity * items[0].unitPrice + Priced(items[1..])
  }

  lemma {:induction false} PricedAppend(items: seq<Item>, it: Item)
    ensures Priced(items + [it]) == Priced(items) + it.quantity * it.unitPrice
  {
    if items == [] {
      assert [it][1..] == [] && items + [it] == [it];
    } else {
      PricedAppend(items[1..], it);
      assert (items + [it])[1..] == items[1..] + [it];
    }
  }

  /** The database's sum of generated line totals is what the items cost. */
  lemma {:induction false} ItemsTotalIsPriced(items: seq<Item>)
    ensures ItemsTotal(items) == Priced(items)
  {
    if items != [] {
      var last := |items| - 1;
      ItemsTotalIsPriced(items[..last]);
      PricedAppend(items[..last], items[last]);
      assert items == items[..last] + [items[last]];
    }
  }

  /** The money an employee's submitted, approved and paid claims take from a category in a calendar month. */
  function MoneyOut(cs: seq<Claim>, e: UserId, k: CategoryId, year: int, month: int): nat {
    if cs == [] then 0 else Taken(cs[0], e, k, year, month) + MoneyOut(cs[1..], e, k, year, month)
  }

  function Taken(c: Claim, e: UserId, k: CategoryId, year: int, month: int): nat {
    if !c.deleted && c.status in {Submitted, Approved, Paid} && InBucket(c, e, k, year, month) then c.amount else 0
  }

  predicate InBucket(c: Claim, e: UserId, k: CategoryId, year: int, month: int) {
    c.employee == e && c.category == k && c.date.year == year && c.date.month == month
  }

  lemma {:induction false} MoneyOutAppend(cs: seq<Claim>, c: Claim, e: UserId, k: CategoryId, year: int, month: int)
    ensures MoneyOut(cs + [c], e, k, year, month) == MoneyOut(cs, e, k, year, month) + Taken(c, e, k, year, month)
  {
    if cs == [] {
      assert cs + [c] == [c] && [c][1..] == [];
    } else {
      MoneyOutAppend(cs[1..], c, e, k, year, month);
      assert (cs + [c])[1..] == cs[1..] + [c];
    }
  }

  lemma {:induction false} MoneyOutUpdate(cs: seq<Claim>, id: nat, c: Claim, e: UserId, k: CategoryId, year: int, month: int)
    requires id < |cs|
    ensures MoneyOut(cs[id := c], e, k, year, month) + Taken(cs[id], e, k, year, month)
         == MoneyOut(cs, e, k, year, month) + Taken(c, e, k, year, month)
  {
    if id == 0 {
      assert cs[id := c][1..] == cs[1..];
    } else {
      MoneyOutUpdate(cs[1..], id - 1, c, e, k, year, month);
      assert cs[id := c][1..] == cs[1..][id - 1 := c];
    }
  }

  /** The spend query, nothing excluded, counts exactly that money. */
  lemma {:induction false} SpentIsMoneyOut(cs: seq<Claim>, e: UserId, k: CategoryId, date: Date)
    ensures SpentCents(cs, e, k, date, -1) == MoneyOut(cs, e, k, date.year, date.month)
  {
    if cs != [] {
      var last := |cs| - 1;
      SpentIsMoneyOut(cs[..last], e, k, date);
      MoneyOutAppend(cs[..last], cs[last], e, k, date.year, date.month);
      assert cs == cs[..last] + [cs[last]];
    }
  }

  // ---------- sums under single-row changes ----------

  lemma {:induction false} TotalUpdate(cs: seq<Claim>, w: (nat, Claim) -> nat, i: nat, c: Claim)
    requires i < |cs|
    ensures Total(cs[i := c], w) + w(i, cs[i]) == Total(cs, w) + w(i, c)
  {
    var last := |cs| - 1;
    if i == last {
      assert cs[i := c][..last] == cs[..last];
    } else {
      TotalUpdate(cs[..last], w, i, c);
      assert cs[i := c][..last] == cs[..last][i := c];
    }
  }

  lemma {:induction false} TotalAgree(cs: seq<Claim>, v: (nat, Claim) -> nat, w: (nat, Claim) -> nat)
    requires forall i :: 0 <= i < |cs| ==> v(i, cs[i]) == w(i, cs[i])
    ensures Total(cs, v) == Total(cs, w)
  {
    if cs != [] {
      TotalAgree(cs[..|cs| - 1], v, w);
    }
  }

  /** Excluding one row takes exactly that row's amount out of the spend. */
  lemma {:induction false} SpentWithout(cs: seq<Claim>, e: UserId, k: CategoryId, date: Date, id: nat)
    requires id < |cs|
    ensures SpentCents(cs, e, k, date, -1)
         == SpentCents(cs, e, k, date, id) + SpendWeight(e, k, date, -1)(id, cs[id])
  {
    var front := cs[..|cs| - 1];
    if id == |cs| - 1 {
      assert forall i :: 0 <= i < |front| ==>
        SpendWeight(e, k, date, -1)(i, front[i]) == SpendWeight(e, k, date, id)(i, front[i]);
      TotalAgree(front, SpendWeight(e, k, date, -1), SpendWeight(e, k, date, id));
    } else {
      SpentWithout(front, e, k, date, id);
    }
  }

  /** No matching row means no spend. */
  lemma {:induction false} SpentNothing(cs: seq<Claim>, e: UserId, k: CategoryId, date: Date, excluded: int)
    requires forall i :: 0 <= i < |cs| ==> !SpendRow(i, cs[i], e, k, date, excluded)
    ensures SpentCents(cs, e, k, date, excluded) == 0
  {
    if cs != [] {
      SpentNothing(cs[..|cs| - 1], e, k, date, excluded);
    }
  }
}
