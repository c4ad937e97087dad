/** The two writers as they run: transactions that change rows in place and undo themselves on failure. */
module Database {
  import opened Prelude
  import opened Emails
  import opened Store

  /** Once a guard has rejected, the remaining sales do not matter. */
  lemma {:induction false} DecrementStopsAtFirstRejection(
    sales: map<SaleId, Sale>, count: map<SaleId, nat>, order: seq<SaleId>, i: nat)
    requires i <= |order| && forall s :: s in order ==> s in count
    requires DecrementAll(sales, count, order[..i]).Err?
    ensures DecrementAll(sales, count, order) == DecrementAll(sales, count, order[..i])
  {
    if i == |order| {
      assert order[..i] == order;
    } else {
      assert order[..|order| - 1][..i] == order[..i];
      DecrementStopsAtFirstRejection(sales, count, order[..|order| - 1], i);
    }
  }

  /** The counting loop over the returned rows; `order` is the insertion order of the map's keys. */
  method CountInserted(inserted: seq<SaleId>) returns (order: seq<SaleId>, countBySale: map<SaleId, nat>)
    ensures Counts(order, countBySale) == CountBySale(inserted)
  {
    order, countBySale := [], map[];
    for i := 0 to |inserted|
      invariant Counts(order, countBySale) == CountBySale(inserted[..i])
    {
      var saleId := inserted[i];
      assert inserted[..i + 1][..i] == inserted[..i];
      if saleId in countBySale {
        countBySale := countBySale[saleId := countBySale[saleId] + 1];
      } else {
        order, countBySale := order + [saleId], countBySale[saleId := 1];
      }
    }
    assert inserted[..|inserted|] == inserted;
  }

  class PurchaseDatabase {
    var sales: map<SaleId, Sale>
    var purchases: map<Key, Purchase>

    function Tables(): Db
      reads this
    {
      Db(sales, purchases)
    }

    constructor (sales: map<SaleId, Sale>, purchases: map<Key, Purchase>)
      ensures Tables() == Db(sales, purchases)
    {
      this.sales, this.purchases := sales, purchases;
    }

    method InsertOnConflictDoNothing(entries: seq<Entry>) returns (r: Result<seq<SaleId>, DbError>)
      modifies `purchases
      ensures !TriggerAllowsAll(sales, entries) ==> r == Err(OutsideSaleWindow)
      ensures TriggerAllowsAll(sales, entries) ==>
        var ins := InsertRows(old(purchases), entries);
        && purchases == ins.purchases
        && r == if ForeignKeyHolds(sales, ins.saleIds) then Ok(ins.saleIds) else Err(NoSuchSale)
    {
      var returned: seq<SaleId> := [];
      for i := 0 to |entries|
        invariant Inserted(purchases, returned) == InsertRows(old(purchases), entries[..i])
        invariant TriggerAllowsAll(sales, entries[..i])
      {
        var e := entries[i];
        assert entries[..i + 1][..i] == entries[..i];
        if !TriggerAllows(sales, e.saleId, e.reservedAt) {
          return Err(OutsideSaleWindow);
        }
        if KeyOf(e) !in purchases {
          purchases := purchases[KeyOf(e) := Purchase(e.email, e.reservedAt)];
          returned := returned + [e.saleId];
        }
      }
      assert entries[..|entries|] == entries;
      r := if ForeignKeyHolds(sales, returned) then Ok(returned) else Err(NoSuchSale);
    }

    method DecrementEach(order: seq<SaleId>, countBySale: map<SaleId, nat>) returns (rejected: Option<SaleId>)
      requires forall s :: s in order ==> s in countBySale
      modifies `sales
      ensures match DecrementAll(old(sales), countBySale, order)
        case Ok(after) => rejected == None && sales == after
        case Err(s) => rejected == Some(s)
    {
      for i := 0 to |order|
        invariant DecrementAll(old(sales), countBySale, order[..i]) == Ok(sales)
      {
        var saleId := order[i];
        var count := countBySale[saleId];
        assert order[..i + 1][..i] == order[..i];
        if !GuardAccepts(sales, saleId, count) {
          DecrementStopsAtFirstRejection(old(sales), countBySale, order, i + 1);
          return Some(saleId);
        }
        sales := sales[saleId := sales[saleId].(remainingStock := sales[saleId].remainingStock - count)];
      }
      assert order[..|order|] == order;
      return None;
    }

    method WritePurchaseBatch(entries: seq<Entry>) returns (r: Result<nat, DbError>)
      modifies this
      ensures match WriteBatch(old(Tables()), entries)
        case Committed(after, written) => r == Ok(written) && Tables() == after
        case Aborted(error) => r == Err(error) && Tables() == old(Tables())
    {
      if |entries| == 0 {
        return Ok(0);
      }
      var salesAtBegin, purchasesAtBegin := sales, purchases;
      var insertion := InsertOnConflictDoNothing(entries);
      if insertion.Err? {
        purchases := purchasesAtBegin;
        return Err(insertion.error);
      }
      var order, countBySale := CountInserted(insertion.value);
      CountBySaleCounts(insertion.value);
      var rejected := DecrementEach(order, countBySale);
      if rejected.Some? {
        sales, purchases := salesAtBegin, purchasesAtBegin;
        return Err(CannotAbsorb(rejected.value));
      }
      return Ok(|insertion.value|);
    }

    method WritePurchase(saleId: SaleId, email: string, databaseNow: int) returns (r: Result<Outcome, DbError>)
      modifies this
      ensures match WriteOne(old(Tables()), saleId, email, databaseNow)
        case Answered(outcome, after) => r == Ok(outcome) && Tables() == after
        case Threw(error) => r == Err(error) && Tables() == old(Tables())
    {
      var salesAtBegin, purchasesAtBegin := sales, purchases;
      var key := Key(saleId, NormalizeEmail(email));
      if !TriggerAllows(sales, saleId, databaseNow) {
        return Ok(SaleNotActive);
      }
      if key in purchases {
        return Ok(AlreadyPurchased);
      }
      purchases := purchases[key := Purchase(email, databaseNow)];
      if saleId !in sales {
        sales, purchases := salesAtBegin, purchasesAtBegin;
        return Err(NoSuchSale);
      }
      if sales[saleId].remainingStock > 0 {
        sales := sales[saleId := sales[saleId].(remainingStock := sales[saleId].remainingStock - 1)];
        return Ok(Success);
      }
      sales, purchases := salesAtBegin, purchasesAtBegin;
      return Ok(SoldOut);
    }
  }
}
