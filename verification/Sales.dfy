/** Reading sales: phases, the purchase precheck, the listing filters, the row cache and the invariant checker. */
module Sales {
  import opened Prelude
  import opened Emails
  import opened Store
  import opened StoreTheorems

  datatype Phase = Upcoming | Active | SoldOutPhase | Ended

  function DerivePhase(sale: Sale, now: int): Phase {
    if sale.startsAt > now then Upcoming
    else if sale.endsAt <= now then Ended
    else if sale.remainingStock <= 0 then SoldOutPhase
    else Active
  }

  /** What each phase means; the four exclude each other and one always holds. */
  lemma PhaseMeans(sale: Sale, now: int)
    requires SaleChecks(sale)
    ensures DerivePhase(sale, now) == Upcoming <==> now < sale.startsAt
    ensures DerivePhase(sale, now) == Active <==> sale.startsAt <= now < sale.endsAt && sale.remainingStock > 0
    ensures DerivePhase(sale, now) == SoldOutPhase <==> sale.startsAt <= now < sale.endsAt && sale.remainingStock == 0
    ensures DerivePhase(sale, now) == Ended <==> sale.endsAt <= now
  {
  }

  predicate IsSaleOpen(sale: Sale, now: int) {
    sale.cancelledAt == None && sale.startsAt <= now < sale.endsAt
  }

  // ---------------------------------------------------------------- listing

  datatype Status = ActiveStatus | UpcomingStatus | PastStatus

  predicate StatusCondition(status: Status, sale: Sale, now: int) {
    match status
    case ActiveStatus => sale.startsAt <= now && sale.endsAt > now && sale.remainingStock > 0
    case UpcomingStatus => sale.startsAt > now
    case PastStatus => sale.endsAt <= now || (sale.startsAt <= now && sale.endsAt > now && sale.remainingStock == 0)
  }

  /** `findAll`: the listed sales with the phase each row is shown with. */
  function FindAll(sales: map<SaleId, Sale>, status: Option<Status>, now: int): map<SaleId, Phase> {
    map s | && s in sales && sales[s].cancelledAt == None
            && (status.Some? ==> StatusCondition(status.value, sales[s], now))
      :: DerivePhase(sales[s], now)
  }

  /**
   Under the schema checks the three status filters cut the unfiltered listing into disjoint parts, the part a
   sale falls into is the one its displayed phase names, and every listing shows a sale with the same phase.
   */
  lemma ListingAgreesWithPhase(db: Db, now: int)
    requires SchemaHolds(db)
    ensures var all := FindAll(db.sales, None, now);
      var active := FindAll(db.sales, Some(ActiveStatus), now);
      var upcoming := FindAll(db.sales, Some(UpcomingStatus), now);
      var past := FindAll(db.sales, Some(PastStatus), now);
      && (forall s :: s in all <==> s in db.sales && db.sales[s].cancelledAt == None)
      && (forall s :: s in active ==> active[s] == Active)
      && (forall s :: s in upcoming ==> upcoming[s] == Upcoming)
      && (forall s :: s in past ==> s in all && past[s] == all[s])
      && active.Keys + upcoming.Keys + past.Keys == all.Keys
      && active.Keys !! upcoming.Keys !! past.Keys
      && (forall s :: s in all ==> (s in active <==> all[s] == Active))
      && (forall s :: s in all ==> (s in upcoming <==> all[s] == Upcoming))
      && (forall s :: s in all ==> (s in past <==> all[s] == SoldOutPhase || all[s] == Ended))
  {
    assert forall s :: s in db.sales ==> SaleChecks(db.sales[s]);
  }

  // ---------------------------------------------------------------- phases over time

  function Rank(phase: Phase): nat {
    match phase
    case Upcoming => 0
    case Active => 1
    case SoldOutPhase => 2
    case Ended => 3
  }

  /** A phase never moves back while the clock and the purchases go forward. */
  lemma PhasesOnlyMoveForward(db: Db, db': Db, s: SaleId, now: int, later: int)
    requires Advances(db, db') && s in db.sales && now <= later
    ensures Rank(DerivePhase(db.sales[s], now)) <= Rank(DerivePhase(db'.sales[s], later))
  {
    assert SameBut(db.sales[s], db'.sales[s]);
  }

  // ---------------------------------------------------------------- row cache

  type Cache = map<SaleId, Sale>

  datatype Lookup = Lookup(row: Option<Sale>, cache: Cache)

  /** `findRowById`: a hit is served as it is, a found row is stored, a miss never is. */
  function FindRowById(cache: Cache, sales: map<SaleId, Sale>, id: SaleId): Lookup {
    if id in cache then Lookup(Some(cache[id]), cache)
    else if id in sales then Lookup(Some(sales[id]), cache[id := sales[id]])
    else Lookup(None, cache)
  }

  /** Each cached row was the sale's row at some earlier moment. */
  ghost predicate CacheLags(cache: Cache, db: Db) {
    forall s :: s in cache ==> s in db.sales && SameBut(cache[s], db.sales[s])
  }

  lemma CacheKeepsLagging(cache: Cache, db: Db, db': Db)
    requires CacheLags(cache, db) && Advances(db, db')
    ensures CacheLags(cache, db')
  {
    forall s | s in cache ensures s in db'.sales && SameBut(cache[s], db'.sales[s]) {
      assert SameBut(db.sales[s], db'.sales[s]);
    }
  }

  /**
   A hit is served exactly as cached, and changes nothing; a miss reads the table and stores what it found, and
   nothing else.
   */
  lemma LookupMeans(cache: Cache, sales: map<SaleId, Sale>, id: SaleId)
    ensures id in cache ==> FindRowById(cache, sales, id) == Lookup(Some(cache[id]), cache)
    ensures id !in cache && id in sales ==>
            FindRowById(cache, sales, id) == Lookup(Some(sales[id]), cache[id := sales[id]])
    ensures id !in cache && id !in sales ==> FindRowById(cache, sales, id) == Lookup(None, cache)
  {
  }

  /**
   A stale row is harmless where it is used: whether a sale exists and is open is answered as from the
   table itself, its displayed phase is never ahead of the true one, and garbage ids stay uncached.
   */
  lemma StaleRowIsHarmless(cache: Cache, db: Db, id: SaleId, now: int)
    requires CacheLags(cache, db)
    ensures var found := FindRowById(cache, db.sales, id);
      && CacheLags(found.cache, db)
      && (found.row.Some? <==> id in db.sales)
      && (found.row.Some? ==> id in found.cache && found.cache[id] == found.row.value)
      && (forall other :: other != id ==> (other in cache <==> other in found.cache))
      && (id !in cache && id in db.sales ==> found.row.value == db.sales[id])
      && (found.row.Some? ==> (IsSaleOpen(found.row.value, now) <==> IsSaleOpen(db.sales[id], now)))
      && (found.row.Some? ==> Rank(DerivePhase(found.row.value, now)) <= Rank(DerivePhase(db.sales[id], now)))
      && found.cache.Keys <= db.sales.Keys
  {
    if id in cache {
      assert SameBut(cache[id], db.sales[id]);
    }
  }

  // ---------------------------------------------------------------- invariant checker

  datatype Check = Check(name: string, passed: bool)

  datatype VerifyResult = VerifyResult(ok: bool, checks: seq<Check>)

  /**
   `rows` is what `SELECT * FROM purchases WHERE sale_id = s` returns, in some order; `keys` says which row is
   which.
   */
  ghost predicate Selects(rows: seq<Purchase>, keys: seq<Key>, db: Db, s: SaleId) {
    && |rows| == |keys|
    && Distinct(keys)
    && (forall k :: k in keys <==> k in db.purchases && k.saleId == s)
    && (forall i :: 0 <= i < |keys| ==> keys[i] in db.purchases && rows[i] == db.purchases[keys[i]])
  }

  function EmailsIn(rows: seq<Purchase>): set<string> {
    set row | row in rows :: row.email
  }

  lemma {:induction false} DistinctSize<T>(xs: seq<T>, elements: set<T>)
    requires Distinct(xs) && forall x :: x in elements <==> x in xs
    ensures |elements| == |xs|
  {
    if xs == [] {
      assert elements == {};
    } else {
      var front, last := xs[..|xs| - 1], xs[|xs| - 1];
      forall x ensures x in elements - {last} <==> x in front {
      }
      DistinctSize(front, elements - {last});
    }
  }

  lemma {:induction false} EmailsInSize(rows: seq<Purchase>)
    ensures |EmailsIn(rows)| <= |rows|
    ensures |EmailsIn(rows)| == |rows| ==> forall i, j :: 0 <= i < j < |rows| ==> rows[i].email != rows[j].email
  {
    if rows == [] {
      assert EmailsIn(rows) == {};
    } else {
      var front, last := rows[..|rows| - 1], rows[|rows| - 1];
      EmailsInSize(front);
      assert rows == front + [last];
      assert EmailsIn(rows) == EmailsIn(front) + {last.email};
      assert last.email in EmailsIn(front) ==> EmailsIn(rows) == EmailsIn(front);
      assert forall i :: 0 <= i < |front| ==> front[i] in front && front[i].email in EmailsIn(front);
    }
  }

  /** The duplicate check says that no two rows have the same email, letter by letter. */
  lemma NoDuplicatesIff(rows: seq<Purchase>)
    ensures |EmailsIn(rows)| == |rows| <==>
            forall i, j :: 0 <= i < j < |rows| ==> rows[i].email != rows[j].email
  {
    EmailsInSize(rows);
    if forall i, j :: 0 <= i < j < |rows| ==> rows[i].email != rows[j].email {
      var raw := seq(|rows|, i requires 0 <= i < |rows| => rows[i].email);
      assert forall i :: 0 <= i < |rows| ==> rows[i] in rows && raw[i] == rows[i].email;
      DistinctSize(raw, EmailsIn(rows));
    }
  }

  lemma SelectionCountsBuyers(rows: seq<Purchase>, keys: seq<Key>, db: Db, s: SaleId)
    requires SchemaHolds(db) && Selects(rows, keys, db, s)
    ensures |rows| == |BuyersOf(db, s)| == |EmailsIn(rows)|
  {
    var folded := seq(|keys|, i requires 0 <= i < |keys| => keys[i].email);
    var raw := seq(|rows|, i requires 0 <= i < |rows| => rows[i].email);
    forall i | 0 <= i < |keys| ensures keys[i] == Key(s, folded[i]) && folded[i] == NormalizeEmail(raw[i]) {
      assert keys[i] in keys;
      assert RowChecks(db.sales, keys[i], db.purchases[keys[i]]);
    }
    forall email ensures email in BuyersOf(db, s) <==> email in folded {
      if email in BuyersOf(db, s) {
        assert Key(s, email) in keys;
      }
    }
    DistinctSize(folded, BuyersOf(db, s));
    assert forall i :: 0 <= i < |rows| ==> rows[i] in rows && raw[i] == rows[i].email;
    DistinctSize(raw, EmailsIn(rows));
  }

  /** What the four assertions say about one sale row and its purchase rows. */
  predicate Passes(sale: Sale, rows: seq<Purchase>) {
    && sale.remainingStock >= 0
    && sale.totalStock - sale.remainingStock == |rows|
    && |EmailsIn(rows)| == |rows|
    && (sale.remainingStock == 0 ==> |rows| == sale.totalStock)
  }

  method Verify(sale: Sale, purchaseRows: seq<Purchase>) returns (result: VerifyResult)
    ensures result.ok <==> Passes(sale, purchaseRows)
    ensures |result.checks| == if sale.remainingStock == 0 then 4 else 3
    ensures result.checks[0].passed <==> sale.remainingStock >= 0
    ensures result.checks[1].passed <==> |purchaseRows| == sale.totalStock - sale.remainingStock
    ensures result.checks[2].passed <==> |EmailsIn(purchaseRows)| == |purchaseRows|
    ensures sale.remainingStock == 0 ==> (result.checks[3].passed <==> |purchaseRows| == sale.totalStock)
  {
    var distinctEmails := EmailsIn(purchaseRows);
    var decrement := sale.totalStock - sale.remainingStock;
    var checks := [
      Check("remaining_stock is never negative", sale.remainingStock >= 0),
      Check("stock decrement matches purchase count", decrement == |purchaseRows|),
      Check("no duplicate purchases", |distinctEmails| == |purchaseRows|)
    ];
    if sale.remainingStock == 0 {
      checks := checks + [Check("a sold-out sale sold exactly total_stock units", |purchaseRows| == sale.totalStock)];
    }
    var ok := forall i :: 0 <= i < |checks| ==> checks[i].passed;
    assert ok <==> checks[0].passed && checks[1].passed && checks[2].passed && (|checks| == 4 ==> checks[3].passed);
    result := VerifyResult(ok, checks);
  }

  /**
   Under the schema, the checker passes on a snapshot exactly when units left plus buyers make up the
   whole stock; any enumeration of the rows gives the same verdict.
   */
  lemma VerifyPassesIffNoUnitLost(db: Db, s: SaleId, rows: seq<Purchase>, keys: seq<Key>)
    requires SchemaHolds(db) && s in db.sales && Selects(rows, keys, db, s)
    ensures Passes(db.sales[s], rows) <==> Units(db, s) == db.sales[s].totalStock
  {
    SelectionCountsBuyers(rows, keys, db, s);
    assert SaleChecks(db.sales[s]);
  }
}
