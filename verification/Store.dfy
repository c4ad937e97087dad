/**
 The Postgres side: the `sales` and `purchases` tables with their constraints, the batched
 writer of the worker and the single-row writer of the API, as functions on table contents.
 */
module Store {
  import opened Prelude
  import opened Emails

  type SaleId = string

  datatype Sale = Sale(totalStock: int, remainingStock: int, startsAt: int, endsAt: int, cancelledAt: Option<int>)

  /** What `unique (sale_id, email)` compares: citext equality is equality of folded emails. */
  datatype Key = Key(saleId: SaleId, email: string)

  datatype Purchase = Purchase(email: string, purchasedAt: int)

  /** One queued write; also the message body on the broker. */
  datatype Entry = Entry(saleId: SaleId, email: string, reservedAt: int)

  datatype Db = Db(sales: map<SaleId, Sale>, purchases: map<Key, Purchase>)

  function KeyOf(e: Entry): Key {
    Key(e.saleId, NormalizeEmail(e.email))
  }

  function KeysOf(es: seq<Entry>): set<Key> {
    set e | e in es :: KeyOf(e)
  }

  /** The folded emails that `keys` holds for one sale. */
  function EmailsOf(keys: set<Key>, saleId: SaleId): (emails: set<string>)
    ensures forall email :: email in emails <==> Key(saleId, email) in keys
  {
    var emails := set k | k in keys && k.saleId == saleId :: k.email;
    assert forall email :: Key(saleId, email) in keys ==> Key(saleId, email).email in emails;
    emails
  }

  function BuyersOf(db: Db, saleId: SaleId): set<string> {
    EmailsOf(db.purchases.Keys, saleId)
  }

  // ---------------------------------------------------------------- schema constraints

  predicate SaleChecks(sale: Sale) {
    && 0 <= sale.totalStock
    && 0 <= sale.remainingStock <= sale.totalStock
    && sale.startsAt < sale.endsAt
  }

  predicate InPeriod(sale: Sale, at: int) {
    sale.startsAt <= at <= sale.endsAt
  }

  /** The BEFORE INSERT trigger: a missing sale row compares as NULL and lets the row through. */
  predicate TriggerAllows(sales: map<SaleId, Sale>, saleId: SaleId, at: int) {
    saleId in sales ==> InPeriod(sales[saleId], at)
  }

  predicate RowChecks(sales: map<SaleId, Sale>, k: Key, row: Purchase) {
    && k.saleId in sales
    && k.email == NormalizeEmail(row.email)
    && InPeriod(sales[k.saleId], row.purchasedAt)
  }

  /** Everything the CHECKs, the foreign key, the unique index and the trigger enforce. */
  ghost predicate SchemaHolds(db: Db) {
    && (forall s :: s in db.sales ==> SaleChecks(db.sales[s]))
    && (forall k :: k in db.purchases ==> RowChecks(db.sales, k, db.purchases[k]))
  }

  // ---------------------------------------------------------------- batched writer

  datatype Inserted = Inserted(purchases: map<Key, Purchase>, saleIds: seq<SaleId>)

  function InsertRow(ins: Inserted, e: Entry): Inserted {
    if KeyOf(e) in ins.purchases then ins
    else Inserted(ins.purchases[KeyOf(e) := Purchase(e.email, e.reservedAt)], ins.saleIds + [e.saleId])
  }

  /** `INSERT ... ON CONFLICT DO NOTHING RETURNING sale_id`, row by row: the first writer of a key wins. */
  function InsertRows(purchases: map<Key, Purchase>, es: seq<Entry>): Inserted {
    if es == [] then Inserted(purchases, [])
    else InsertRow(InsertRows(purchases, es[..|es| - 1]), es[|es| - 1])
  }

  /** A JavaScript `Map`: its entries and the order in which their keys were first set. */
  datatype Counts = Counts(order: seq<SaleId>, count: map<SaleId, nat>)

  function CountOne(counts: Counts, saleId: SaleId): Counts {
    if saleId in counts.count then counts.(count := counts.count[saleId := counts.count[saleId] + 1])
    else Counts(counts.order + [saleId], counts.count[saleId := 1])
  }

  function CountBySale(saleIds: seq<SaleId>): Counts {
    if saleIds == [] then Counts([], map[])
    else CountOne(CountBySale(saleIds[..|saleIds| - 1]), saleIds[|saleIds| - 1])
  }

  /** `UPDATE sales SET remaining_stock = remaining_stock - n WHERE id = s AND remaining_stock >= n`. */
  predicate GuardAccepts(sales: map<SaleId, Sale>, saleId: SaleId, n: int) {
    saleId in sales && sales[saleId].remainingStock >= n
  }

  function Decrement(sales: map<SaleId, Sale>, saleId: SaleId, n: int): map<SaleId, Sale>
    requires saleId in sales
  {
    sales[saleId := sales[saleId].(remainingStock := sales[saleId].remainingStock - n)]
  }

  /** The decrement loop, in the given iteration order; `Err` names the sale whose guard rejected. */
  function DecrementAll(sales: map<SaleId, Sale>, count: map<SaleId, nat>, order: seq<SaleId>)
    : Result<map<SaleId, Sale>, SaleId>
    requires forall s :: s in order ==> s in count
  {
    if order == [] then Ok(sales)
    else
      var last := order[|order| - 1];
      match DecrementAll(sales, count, order[..|order| - 1])
      case Err(s) => Err(s)
      case Ok(after) =>
        if GuardAccepts(after, last, count[last]) then Ok(Decrement(after, last, count[last])) else Err(last)
  }

  datatype DbError = OutsideSaleWindow | NoSuchSale | CannotAbsorb(saleId: SaleId)

  datatype BatchResult = Committed(db: Db, written: nat) | Aborted(error: DbError)

  predicate TriggerAllowsAll(sales: map<SaleId, Sale>, es: seq<Entry>) {
    forall e :: e in es ==> TriggerAllows(sales, e.saleId, e.reservedAt)
  }

  predicate ForeignKeyHolds(sales: map<SaleId, Sale>, saleIds: seq<SaleId>) {
    forall s :: s in saleIds ==> s in sales
  }

  /**
   The effect of one `writePurchaseBatch` transaction. The row trigger fires before the conflict
   check, so it also judges rows that would be skipped; the foreign key is checked once the
   statement has inserted its rows.
   */
  function WriteBatch(db: Db, es: seq<Entry>): BatchResult {
    if es == [] then Committed(db, 0)
    else if !TriggerAllowsAll(db.sales, es) then Aborted(OutsideSaleWindow)
    else
      var ins := InsertRows(db.purchases, es);
      if !ForeignKeyHolds(db.sales, ins.saleIds) then Aborted(NoSuchSale)
      else
        var counts := CountBySale(ins.saleIds);
        CountBySaleCounts(ins.saleIds);
        match DecrementAll(db.sales, counts.count, counts.order)
        case Err(s) => Aborted(CannotAbsorb(s))
        case Ok(sales) => Committed(Db(sales, ins.purchases), |ins.saleIds|)
  }

  lemma {:induction false} CountBySaleCounts(saleIds: seq<SaleId>)
    ensures var c := CountBySale(saleIds);
      && Distinct(c.order)
      && (forall s :: s in c.order <==> s in c.count)
      && (forall s :: s in c.count <==> s in saleIds)
      && (forall s :: s in c.count ==> c.count[s] == multiset(saleIds)[s])
  {
    if saleIds != [] {
      var front, last := saleIds[..|saleIds| - 1], saleIds[|saleIds| - 1];
      CountBySaleCounts(front);
      assert saleIds == front + [last];
    }
  }

  // ---------------------------------------------------------------- single-row writer

  datatype Outcome = Success | AlreadyPurchased | SoldOut | SaleNotActive

  datatype WriteResult = Answered(outcome: Outcome, db: Db) | Threw(error: DbError)

  /** The API's `writePurchase`: insert first, decrement second, one transaction, errors mapped to outcomes. */
  function WriteOne(db: Db, saleId: SaleId, email: string, at: int): WriteResult {
    var key := Key(saleId, NormalizeEmail(email));
    if !TriggerAllows(db.sales, saleId, at) then Answered(SaleNotActive, db)
    else if key in db.purchases then Answered(AlreadyPurchased, db)
    else if saleId !in db.sales then Threw(NoSuchSale)
    else if db.sales[saleId].remainingStock > 0 then
      Answered(Success, Db(Decrement(db.sales, saleId, 1), db.purchases[key := Purchase(email, at)]))
    else Answered(SoldOut, db)
  }
}
