/**
 What the two writers mean: exactly when a batch commits, what it leaves behind, that it equals
 writing its entries one at a time, that batch boundaries and loop order do not matter, that a
 replay is invisible, and that neither writer ever breaks the schema or loses a unit of stock.
 */
module StoreTheorems {
  import opened Prelude
  import opened Emails
  import opened Store

  /** Keys the batch would add. */
  function NewKeys(db: Db, es: seq<Entry>): set<Key> {
    KeysOf(es) - db.purchases.Keys
  }

  /** Units of `saleId` that the batch would take. */
  function Demand(db: Db, es: seq<Entry>, saleId: SaleId): nat {
    |EmailsOf(NewKeys(db, es), saleId)|
  }

  /** Every entry names an existing sale and a moment inside its period. */
  predicate Admissible(sales: map<SaleId, Sale>, es: seq<Entry>) {
    forall e :: e in es ==> e.saleId in sales && InPeriod(sales[e.saleId], e.reservedAt)
  }

  predicate Affordable(db: Db, es: seq<Entry>) {
    forall s :: s in db.sales ==> Demand(db, es, s) <= db.sales[s].remainingStock
  }

  // ---------------------------------------------------------------- sets of keys

  lemma KeysOfLast(es: seq<Entry>)
    requires es != []
    ensures KeysOf(es) == KeysOf(es[..|es| - 1]) + {KeyOf(es[|es| - 1])}
  {
    assert forall e :: e in es <==> e in es[..|es| - 1] || e == es[|es| - 1];
  }

  lemma KeysOfAppend(a: seq<Entry>, b: seq<Entry>)
    ensures KeysOf(a + b) == KeysOf(a) + KeysOf(b)
  {
    assert forall e :: e in a + b <==> e in a || e in b;
  }

  lemma EmailsOfInsert(keys: set<Key>, key: Key, saleId: SaleId)
    ensures EmailsOf(keys + {key}, saleId) ==
            if key.saleId == saleId then EmailsOf(keys, saleId) + {key.email} else EmailsOf(keys, saleId)
  {
  }

  lemma EmailsOfUnion(a: set<Key>, b: set<Key>, saleId: SaleId)
    ensures EmailsOf(a + b, saleId) == EmailsOf(a, saleId) + EmailsOf(b, saleId)
    ensures EmailsOf(a - b, saleId) == EmailsOf(a, saleId) - EmailsOf(b, saleId)
  {
  }

  lemma SubsetSize<T>(a: set<T>, b: set<T>)
    requires a <= b
    ensures |a| <= |b|
    ensures |b - a| == |b| - |a|
  {
    assert b == a + (b - a);
  }

  // ---------------------------------------------------------------- the insert

  /** The insert adds exactly the batch's keys and never touches a row that is already there. */
  lemma {:induction false} InsertRowsKeys(purchases: map<Key, Purchase>, es: seq<Entry>)
    ensures InsertRows(purchases, es).purchases.Keys == purchases.Keys + KeysOf(es)
  {
    if es != [] {
      InsertRowsKeys(purchases, es[..|es| - 1]);
      KeysOfLast(es);
    }
  }

  lemma {:induction false} InsertRowsKeeps(purchases: map<Key, Purchase>, es: seq<Entry>)
    ensures var ins := InsertRows(purchases, es);
      forall k :: k in purchases ==> k in ins.purchases && ins.purchases[k] == purchases[k]
  {
    if es != [] {
      InsertRowsKeeps(purchases, es[..|es| - 1]);
    }
  }

  lemma {:induction false} InsertRowsReturnsEach(purchases: map<Key, Purchase>, es: seq<Entry>)
    ensures var ins := InsertRows(purchases, es); |ins.saleIds| == |ins.purchases| - |purchases|
  {
    if es != [] {
      InsertRowsReturnsEach(purchases, es[..|es| - 1]);
    }
  }

  /** `RETURNING sale_id` names each sale once per new key. */
  lemma {:induction false} InsertRowsCounts(purchases: map<Key, Purchase>, es: seq<Entry>, s: SaleId)
    ensures multiset(InsertRows(purchases, es).saleIds)[s] == |EmailsOf(KeysOf(es) - purchases.Keys, s)|
  {
    if es == [] {
      assert EmailsOf(KeysOf(es) - purchases.Keys, s) == {};
    } else {
      var front, key := es[..|es| - 1], KeyOf(es[|es| - 1]);
      InsertRowsCounts(purchases, front, s);
      InsertRowsKeys(purchases, front);
      KeysOfLast(es);
      CountsOneMore(KeysOf(front), purchases.Keys, key, s);
    }
  }

  lemma CountsOneMore(keys: set<Key>, present: set<Key>, key: Key, s: SaleId)
    ensures |EmailsOf(keys + {key} - present, s)| - |EmailsOf(keys - present, s)| ==
            if key !in keys + present && key.saleId == s then 1 else 0
  {
    if key in keys + present {
      assert keys + {key} - present == keys - present;
    } else {
      assert keys + {key} - present == keys - present + {key};
      EmailsOfInsert(keys - present, key, s);
      if key.saleId == s {
        assert Key(s, key.email) == key;
      }
    }
  }

  /** Each new row is the row of the first entry carrying that key. */
  lemma {:induction false} FirstWriterWins(purchases: map<Key, Purchase>, es: seq<Entry>, i: nat)
    requires i < |es| && KeyOf(es[i]) !in purchases
    requires forall j :: 0 <= j < i ==> KeyOf(es[j]) != KeyOf(es[i])
    ensures KeyOf(es[i]) in InsertRows(purchases, es).purchases
    ensures InsertRows(purchases, es).purchases[KeyOf(es[i])] == Purchase(es[i].email, es[i].reservedAt)
  {
    var front := es[..|es| - 1];
    if i < |front| {
      FirstWriterWins(purchases, front, i);
    } else {
      InsertRowsKeys(purchases, front);
      assert KeyOf(es[i]) !in KeysOf(front);
    }
  }

  /** No row is invented: a new row carries the email and time of some entry of the batch. */
  lemma {:induction false} NewRowsComeFromEntries(purchases: map<Key, Purchase>, es: seq<Entry>, k: Key)
    returns (e: Entry)
    requires k in InsertRows(purchases, es).purchases && k !in purchases
    ensures e in es && KeyOf(e) == k
    ensures InsertRows(purchases, es).purchases[k] == Purchase(e.email, e.reservedAt)
  {
    var front, last := es[..|es| - 1], es[|es| - 1];
    if k in InsertRows(purchases, front).purchases {
      e := NewRowsComeFromEntries(purchases, front, k);
    } else {
      e := last;
    }
  }

  lemma {:induction false} InsertRowsAppend(purchases: map<Key, Purchase>, a: seq<Entry>, b: seq<Entry>)
    ensures var first := InsertRows(purchases, a);
      var second := InsertRows(first.purchases, b);
      InsertRows(purchases, a + b) == Inserted(second.purchases, first.saleIds + second.saleIds)
  {
    if b == [] {
      assert a + b == a;
    } else {
      var front, last := b[..|b| - 1], b[|b| - 1];
      InsertRowsAppend(purchases, a, front);
      assert (a + b)[..|a + b| - 1] == a + front;
    }
  }

  // ---------------------------------------------------------------- the decrement loop

  /** The sales after every decrement of the loop has been applied. */
  ghost predicate Decremented(
    sales: map<SaleId, Sale>, count: map<SaleId, nat>, order: seq<SaleId>, after: map<SaleId, Sale>)
    requires forall s :: s in order ==> s in count
  {
    && after.Keys == sales.Keys
    && (forall s :: s in sales ==>
          after[s] == if s in order then sales[s].(remainingStock := sales[s].remainingStock - count[s]) else sales[s])
  }

  lemma DecrementedOneMore(
    sales: map<SaleId, Sale>, count: map<SaleId, nat>, front: seq<SaleId>, last: SaleId, mid: map<SaleId, Sale>)
    requires (forall s :: s in front ==> s in count) && last in count && last !in front
    requires Decremented(sales, count, front, mid)
    ensures GuardAccepts(mid, last, count[last]) <==> GuardAccepts(sales, last, count[last])
    ensures last in sales ==> Decremented(sales, count, front + [last], Decrement(mid, last, count[last]))
  {
    assert forall s :: s in front + [last] <==> s in front || s == last;
  }

  /** `s` is where the loop, in this order, meets the first guard that rejects on the untouched table. */
  ghost predicate FirstRejection(sales: map<SaleId, Sale>, count: map<SaleId, nat>, order: seq<SaleId>, s: SaleId)
    requires forall t :: t in order ==> t in count
  {
    exists i :: 0 <= i < |order| && order[i] == s && !GuardAccepts(sales, s, count[s]) &&
      forall j :: 0 <= j < i ==> GuardAccepts(sales, order[j], count[order[j]])
  }

  lemma RejectionStaysFirst(
    sales: map<SaleId, Sale>, count: map<SaleId, nat>, front: seq<SaleId>, last: SaleId, s: SaleId)
    requires (forall t :: t in front ==> t in count) && last in count && FirstRejection(sales, count, front, s)
    ensures FirstRejection(sales, count, front + [last], s)
  {
    var order := front + [last];
    var i :| 0 <= i < |front| && front[i] == s && !GuardAccepts(sales, s, count[s]) &&
      forall j :: 0 <= j < i ==> GuardAccepts(sales, front[j], count[front[j]]);
    assert order[i] == s && forall j :: 0 <= j < i ==> order[j] == front[j];
  }

  lemma LastRejectionIsFirst(sales: map<SaleId, Sale>, count: map<SaleId, nat>, front: seq<SaleId>, last: SaleId)
    requires (forall t :: t in front ==> t in count) && last in count
    requires !GuardAccepts(sales, last, count[last]) && forall t :: t in front ==> GuardAccepts(sales, t, count[t])
    ensures FirstRejection(sales, count, front + [last], last)
  {
    var order := front + [last];
    assert order[|front|] == last && forall j :: 0 <= j < |front| ==> order[j] in front;
  }

  /**
   The loop commits exactly when each guard would accept on the untouched table; otherwise it stops at the first
   one that would not.
   */
  lemma {:induction false} DecrementAllMeaning(sales: map<SaleId, Sale>, count: map<SaleId, nat>, order: seq<SaleId>)
    requires Distinct(order) && forall s :: s in order ==> s in count
    ensures var r := DecrementAll(sales, count, order);
      && (r.Ok? <==> forall s :: s in order ==> GuardAccepts(sales, s, count[s]))
      && (r.Err? ==> FirstRejection(sales, count, order, r.error))
      && (r.Ok? ==> Decremented(sales, count, order, r.value))
  {
    if order != [] {
      var front, last := order[..|order| - 1], order[|order| - 1];
      assert order == front + [last];
      DecrementAllMeaning(sales, count, front);
      var before := DecrementAll(sales, count, front);
      if before.Ok? {
        DecrementedOneMore(sales, count, front, last, before.value);
        if !GuardAccepts(sales, last, count[last]) {
          LastRejectionIsFirst(sales, count, front, last);
        }
      } else {
        RejectionStaysFirst(sales, count, front, last, before.error);
      }
    }
  }

  /** Whatever comes earlier in `order` was seen in `xs` before anything later is. */
  ghost predicate ByFirstOccurrence(order: seq<SaleId>, xs: seq<SaleId>) {
    forall i, j, q :: 0 <= i < j < |order| && 0 <= q < |xs| && xs[q] == order[j] ==> order[i] in xs[..q]
  }

  /** The keys of the count map are iterated in the order in which the rows first named them. */
  lemma {:induction false} CountOrderIsFirstOccurrence(saleIds: seq<SaleId>)
    ensures ByFirstOccurrence(CountBySale(saleIds).order, saleIds)
  {
    if saleIds != [] {
      var front, last := saleIds[..|saleIds| - 1], saleIds[|saleIds| - 1];
      var before, order := CountBySale(front).order, CountBySale(saleIds).order;
      CountOrderIsFirstOccurrence(front);
      CountBySaleCounts(front);
      forall i, j, q | 0 <= i < j < |order| && 0 <= q < |saleIds| && saleIds[q] == order[j]
        ensures order[i] in saleIds[..q] {
        assert order[i] == before[i] && before[i] in front;
        if q < |front| {
          assert saleIds[..q] == front[..q] && front[q] in front;
        } else {
          assert saleIds[..q] == front;
        }
      }
    }
  }

  /** Iterating the count map in any other order commits or rejects alike and leaves the same stock. */
  lemma DecrementOrderIrrelevant(sales: map<SaleId, Sale>, count: map<SaleId, nat>, a: seq<SaleId>, b: seq<SaleId>)
    requires Distinct(a) && Distinct(b)
    requires forall s :: s in a <==> s in count
    requires forall s :: s in b <==> s in count
    ensures DecrementAll(sales, count, a).Ok? <==> DecrementAll(sales, count, b).Ok?
    ensures DecrementAll(sales, count, a).Ok? ==> DecrementAll(sales, count, a) == DecrementAll(sales, count, b)
  {
    DecrementAllMeaning(sales, count, a);
    DecrementAllMeaning(sales, count, b);
    var ra, rb := DecrementAll(sales, count, a), DecrementAll(sales, count, b);
    if ra.Ok? && rb.Ok? {
      assert ra.value == rb.value;
    }
  }

  // ---------------------------------------------------------------- exact commit condition

  /** What the table's sales look like once every new buyer of the batch has been given a unit. */
  ghost predicate TakenDemand(db: Db, es: seq<Entry>, sales': map<SaleId, Sale>) {
    && sales'.Keys == db.sales.Keys
    && (forall s :: s in db.sales ==>
          sales'[s] == db.sales[s].(remainingStock := db.sales[s].remainingStock - Demand(db, es, s)))
  }

  /** What a committed batch leaves behind. */
  ghost predicate Absorbed(db: Db, es: seq<Entry>, db': Db, written: nat) {
    && db'.purchases == InsertRows(db.purchases, es).purchases
    && db'.purchases.Keys == db.purchases.Keys + KeysOf(es)
    && (forall k :: k in db.purchases ==> db'.purchases[k] == db.purchases[k])
    && TakenDemand(db, es, db'.sales)
    && written == |db'.purchases| - |db.purchases|
  }

  /** The count map holds, for each sale with new buyers, how many there are. */
  lemma CountsAreDemand(db: Db, es: seq<Entry>, s: SaleId)
    ensures var c := CountBySale(InsertRows(db.purchases, es).saleIds);
      && Distinct(c.order)
      && (s in c.order <==> s in c.count)
      && (s in c.count <==> Demand(db, es, s) > 0)
      && (s in c.count ==> c.count[s] == Demand(db, es, s))
  {
    var saleIds := InsertRows(db.purchases, es).saleIds;
    InsertRowsCounts(db.purchases, es, s);
    CountBySaleCounts(saleIds);
    assert s in saleIds <==> multiset(saleIds)[s] > 0;
  }

  lemma ReturnedIffDemanded(db: Db, es: seq<Entry>, s: SaleId)
    ensures s in InsertRows(db.purchases, es).saleIds <==> Demand(db, es, s) > 0
  {
    var saleIds := InsertRows(db.purchases, es).saleIds;
    InsertRowsCounts(db.purchases, es, s);
    assert s in saleIds <==> multiset(saleIds)[s] > 0;
  }

  lemma UnknownSaleIsReturned(db: Db, es: seq<Entry>, e: Entry)
    requires SchemaHolds(db) && e in es && e.saleId !in db.sales
    ensures e.saleId in InsertRows(db.purchases, es).saleIds
  {
    var k := KeyOf(e);
    assert k in db.purchases ==> RowChecks(db.sales, k, db.purchases[k]);
    assert k in NewKeys(db, es);
    assert k.email in EmailsOf(NewKeys(db, es), e.saleId);
    ReturnedIffDemanded(db, es, e.saleId);
  }

  lemma ReturnedSaleHasEntry(db: Db, es: seq<Entry>, s: SaleId)
    requires s in InsertRows(db.purchases, es).saleIds
    ensures exists e :: e in es && e.saleId == s
  {
    ReturnedIffDemanded(db, es, s);
    var email :| email in EmailsOf(NewKeys(db, es), s);
    assert Key(s, email) in KeysOf(es);
    var e :| e in es && KeyOf(e) == Key(s, email);
  }

  /** Under the foreign key, every inserted row has its sale exactly when every entry has one. */
  lemma ForeignKeyMeansKnownSales(db: Db, es: seq<Entry>)
    requires SchemaHolds(db)
    ensures ForeignKeyHolds(db.sales, InsertRows(db.purchases, es).saleIds) <==>
            forall e :: e in es ==> e.saleId in db.sales
  {
    forall e | e in es && e.saleId !in db.sales ensures e.saleId in InsertRows(db.purchases, es).saleIds {
      UnknownSaleIsReturned(db, es, e);
    }
    forall s | s in InsertRows(db.purchases, es).saleIds ensures exists e :: e in es && e.saleId == s {
      ReturnedSaleHasEntry(db, es, s);
    }
  }

  lemma GuardsMeanAffordable(db: Db, es: seq<Entry>)
    requires SchemaHolds(db) && forall e :: e in es ==> e.saleId in db.sales
    ensures var c := CountBySale(InsertRows(db.purchases, es).saleIds);
      && (forall s :: s in c.order ==> s in c.count)
      && ((forall s :: s in c.order ==> GuardAccepts(db.sales, s, c.count[s])) <==> Affordable(db, es))
  {
    var saleIds := InsertRows(db.purchases, es).saleIds;
    var c := CountBySale(saleIds);
    ForeignKeyMeansKnownSales(db, es);
    CountBySaleCounts(saleIds);
    forall s | s in c.order ensures s in db.sales && c.count[s] == Demand(db, es, s) {
      CountsAreDemand(db, es, s);
    }
    forall s | s in db.sales && s !in c.order ensures Demand(db, es, s) <= db.sales[s].remainingStock {
      CountsAreDemand(db, es, s);
      assert SaleChecks(db.sales[s]);
    }
  }

  lemma EmptyBatchDemandsNothing(db: Db, s: SaleId)
    ensures Demand(db, [], s) == 0
  {
    assert EmailsOf(NewKeys(db, []), s) == {};
  }

  /** Past the insert, only the guards decide. */
  lemma InsertedBatchCommitsIff(db: Db, es: seq<Entry>)
    requires SchemaHolds(db) && es != []
    requires TriggerAllowsAll(db.sales, es) && ForeignKeyHolds(db.sales, InsertRows(db.purchases, es).saleIds)
    ensures !WriteBatch(db, es).Aborted? || WriteBatch(db, es).error.CannotAbsorb?
    ensures WriteBatch(db, es).Committed? <==> Affordable(db, es)
  {
    ForeignKeyMeansKnownSales(db, es);
    GuardsMeanAffordable(db, es);
    var c := CountBySale(InsertRows(db.purchases, es).saleIds);
    CountBySaleCounts(InsertRows(db.purchases, es).saleIds);
    DecrementAllMeaning(db.sales, c.count, c.order);
  }

  lemma EmptyBatchAffordable(db: Db)
    requires SchemaHolds(db)
    ensures Affordable(db, [])
  {
    forall s | s in db.sales ensures Demand(db, [], s) <= db.sales[s].remainingStock {
      EmptyBatchDemandsNothing(db, s);
      assert SaleChecks(db.sales[s]);
    }
  }

  /** The entry names a sale, and a moment before its start or after its end. */
  predicate OutsidePeriod(sales: map<SaleId, Sale>, e: Entry) {
    e.saleId in sales && (e.reservedAt < sales[e.saleId].startsAt || e.reservedAt > sales[e.saleId].endsAt)
  }

  predicate SomeOutside(sales: map<SaleId, Sale>, es: seq<Entry>) {
    exists e :: e in es && OutsidePeriod(sales, e)
  }

  /**
   A batch commits if and only if every entry is admissible and every sale can supply its new buyers;
   otherwise the first of the three checks that fails names the reason.
   */
  lemma BatchCommitsIff(db: Db, es: seq<Entry>)
    requires SchemaHolds(db)
    ensures WriteBatch(db, es).Committed? <==> Admissible(db.sales, es) && Affordable(db, es)
    ensures WriteBatch(db, es) == Aborted(OutsideSaleWindow) <==> SomeOutside(db.sales, es)
    ensures WriteBatch(db, es) == Aborted(NoSuchSale) <==>
            !SomeOutside(db.sales, es) && exists e :: e in es && e.saleId !in db.sales
  {
    assert SomeOutside(db.sales, es) <==> !TriggerAllowsAll(db.sales, es) by {
      assert forall e :: e in es ==>
               (TriggerAllows(db.sales, e.saleId, e.reservedAt) <==> !OutsidePeriod(db.sales, e));
    }
    assert Admissible(db.sales, es) <==> TriggerAllowsAll(db.sales, es) && forall e :: e in es ==> e.saleId in db.sales;
    if es == [] {
      EmptyBatchAffordable(db);
    } else if TriggerAllowsAll(db.sales, es) {
      ForeignKeyMeansKnownSales(db, es);
      if ForeignKeyHolds(db.sales, InsertRows(db.purchases, es).saleIds) {
        InsertedBatchCommitsIff(db, es);
      }
    }
  }

  /** A sale with more new buyers in the batch than units. */
  predicate StarvedBy(db: Db, es: seq<Entry>, s: SaleId) {
    s in db.sales && Demand(db, es, s) > db.sales[s].remainingStock
  }

  lemma RejectsIffStarved(db: Db, es: seq<Entry>, s: SaleId)
    requires ForeignKeyHolds(db.sales, InsertRows(db.purchases, es).saleIds)
    ensures var c := CountBySale(InsertRows(db.purchases, es).saleIds);
      s in c.order ==> s in c.count && (!GuardAccepts(db.sales, s, c.count[s]) <==> StarvedBy(db, es, s))
  {
    CountsAreDemand(db, es, s);
    CountBySaleCounts(InsertRows(db.purchases, es).saleIds);
  }

  /** Among the returned rows, `s` is the first that names a starved sale. */
  ghost predicate FirstStarved(db: Db, es: seq<Entry>, s: SaleId) {
    var saleIds := InsertRows(db.purchases, es).saleIds;
    exists p :: 0 <= p < |saleIds| && saleIds[p] == s && StarvedBy(db, es, s) &&
      forall q :: 0 <= q < p ==> !StarvedBy(db, es, saleIds[q])
  }

  lemma {:induction false} FirstIndex(xs: seq<SaleId>, x: SaleId) returns (p: nat)
    requires x in xs
    ensures p < |xs| && xs[p] == x && x !in xs[..p]
  {
    if xs[0] == x {
      p := 0;
    } else {
      var rest := FirstIndex(xs[1..], x);
      p := rest + 1;
      assert xs[..p] == [xs[0]] + xs[1..][..rest];
    }
  }

  lemma SeenIsNotLater(order: seq<SaleId>, xs: seq<SaleId>, i: nat, j: nat, q: nat)
    requires ByFirstOccurrence(order, xs) && i < |order| && j < |order| && q < |xs|
    requires xs[q] == order[j] && order[i] !in xs[..q]
    ensures j <= i
  {
  }

  lemma FirstInOrderIsFirstSeen(order: seq<SaleId>, xs: seq<SaleId>, i: nat, p: nat, q: nat)
    requires ByFirstOccurrence(order, xs) && i < |order| && q < p < |xs|
    requires order[i] !in xs[..p] && xs[q] in order
    ensures exists j :: 0 <= j < i && order[j] == xs[q]
  {
    var j :| 0 <= j < |order| && order[j] == xs[q];
    assert xs[q] in xs[..p];
    assert xs[..q] <= xs[..p];
    SeenIsNotLater(order, xs, i, j, q);
  }

  /**
   The sale named by a rejected batch is the first, in the order of the rows the insert returned, that cannot
   supply its new buyers.
   */
  lemma RejectionNamesAStarvedSale(db: Db, es: seq<Entry>)
    requires SchemaHolds(db) && WriteBatch(db, es).Aborted? && WriteBatch(db, es).error.CannotAbsorb?
    ensures StarvedBy(db, es, WriteBatch(db, es).error.saleId)
    ensures FirstStarved(db, es, WriteBatch(db, es).error.saleId)
  {
    var saleIds, s := InsertRows(db.purchases, es).saleIds, WriteBatch(db, es).error.saleId;
    var c := CountBySale(saleIds);
    CountBySaleCounts(saleIds);
    CountOrderIsFirstOccurrence(saleIds);
    DecrementAllMeaning(db.sales, c.count, c.order);
    FirstRejectionIsFirstStarved(db, es, s);
  }

  lemma FirstRejectionIsFirstStarved(db: Db, es: seq<Entry>, s: SaleId)
    requires ForeignKeyHolds(db.sales, InsertRows(db.purchases, es).saleIds)
    requires var saleIds := InsertRows(db.purchases, es).saleIds;
      var c := CountBySale(saleIds);
      && (forall t :: t in c.order ==> t in c.count) && (forall t :: t in c.count <==> t in saleIds)
      && (forall t :: t in c.order <==> t in c.count)
      && ByFirstOccurrence(c.order, saleIds) && FirstRejection(db.sales, c.count, c.order, s)
    ensures FirstStarved(db, es, s)
  {
    var saleIds := InsertRows(db.purchases, es).saleIds;
    var c := CountBySale(saleIds);
    var i :| 0 <= i < |c.order| && c.order[i] == s && !GuardAccepts(db.sales, s, c.count[s]) &&
      forall j :: 0 <= j < i ==> GuardAccepts(db.sales, c.order[j], c.count[c.order[j]]);
    RejectsIffStarved(db, es, s);
    var p := FirstIndex(saleIds, s);
    forall q | 0 <= q < p ensures !StarvedBy(db, es, saleIds[q]) {
      FirstInOrderIsFirstSeen(c.order, saleIds, i, p, q);
      RejectsIffStarved(db, es, saleIds[q]);
    }
  }

  lemma NoEntriesNoDemand(db: Db, es: seq<Entry>, s: SaleId)
    requires forall e :: e in es ==> e.saleId != s
    ensures EmailsOf(NewKeys(db, es), s) == {} && Demand(db, es, s) == 0
  {
    assert EmailsOf(NewKeys(db, es), s) == {};
  }

  lemma DisjointDemand(db: Db, a: seq<Entry>, b: seq<Entry>, s: SaleId)
    requires forall e, f :: e in a && f in b ==> e.saleId != f.saleId
    ensures Demand(db, a + b, s) == Demand(db, a, s) + Demand(db, b, s)
    ensures Demand(db, a, s) == 0 || Demand(db, b, s) == 0
  {
    var newA, newB := EmailsOf(NewKeys(db, a), s), EmailsOf(NewKeys(db, b), s);
    KeysOfAppend(a, b);
    assert NewKeys(db, a + b) == NewKeys(db, a) + NewKeys(db, b);
    EmailsOfUnion(NewKeys(db, a), NewKeys(db, b), s);
    if exists e :: e in a && e.saleId == s {
      NoEntriesNoDemand(db, b, s);
    } else {
      NoEntriesNoDemand(db, a, s);
    }
  }

  /**
   Messages of different sales that meet in one batch share one fate: it commits exactly when each part could
   alone.
   */
  lemma DisjointBatchesShareFate(db: Db, a: seq<Entry>, b: seq<Entry>)
    requires SchemaHolds(db) && forall e, f :: e in a && f in b ==> e.saleId != f.saleId
    ensures WriteBatch(db, a + b).Committed? <==> WriteBatch(db, a).Committed? && WriteBatch(db, b).Committed?
  {
    BatchCommitsIff(db, a);
    BatchCommitsIff(db, b);
    BatchCommitsIff(db, a + b);
    assert forall e :: e in a + b <==> e in a || e in b;
    forall s | s in db.sales
      ensures Demand(db, a + b, s) <= db.sales[s].remainingStock <==>
              Demand(db, a, s) <= db.sales[s].remainingStock && Demand(db, b, s) <= db.sales[s].remainingStock {
      DisjointDemand(db, a, b, s);
      assert SaleChecks(db.sales[s]);
    }
  }

  lemma DecrementedIsTakenDemand(
    db: Db, es: seq<Entry>, count: map<SaleId, nat>, order: seq<SaleId>, sales': map<SaleId, Sale>)
    requires (forall s :: s in order ==> s in count) && Decremented(db.sales, count, order, sales')
    requires Counts(order, count) == CountBySale(InsertRows(db.purchases, es).saleIds)
    ensures TakenDemand(db, es, sales')
  {
    forall s | s in db.sales
      ensures sales'[s] == db.sales[s].(remainingStock := db.sales[s].remainingStock - Demand(db, es, s)) {
      CountsAreDemand(db, es, s);
    }
  }

  lemma EmptyBatchTakesNothing(db: Db)
    ensures TakenDemand(db, [], db.sales)
  {
    forall s | s in db.sales ensures Demand(db, [], s) == 0 {
      EmptyBatchDemandsNothing(db, s);
    }
  }

  /** The stock side of a committed batch: one unit per new key, from that key's sale. */
  lemma CommittedBatchTakesDemand(db: Db, es: seq<Entry>)
    requires WriteBatch(db, es).Committed?
    ensures TakenDemand(db, es, WriteBatch(db, es).db.sales)
  {
    if es == [] {
      EmptyBatchTakesNothing(db);
    } else {
      var c := CountBySale(InsertRows(db.purchases, es).saleIds);
      CountBySaleCounts(InsertRows(db.purchases, es).saleIds);
      DecrementAllMeaning(db.sales, c.count, c.order);
      DecrementedIsTakenDemand(db, es, c.count, c.order, WriteBatch(db, es).db.sales);
    }
  }

  lemma CommittedBatchInserts(db: Db, es: seq<Entry>)
    requires WriteBatch(db, es).Committed?
    ensures WriteBatch(db, es).db.purchases == InsertRows(db.purchases, es).purchases
    ensures WriteBatch(db, es).written == |InsertRows(db.purchases, es).saleIds|
  {
  }

  lemma AbsorbedFrom(db: Db, es: seq<Entry>, db': Db, written: nat)
    requires db'.purchases == InsertRows(db.purchases, es).purchases
    requires written == |InsertRows(db.purchases, es).saleIds|
    requires TakenDemand(db, es, db'.sales)
    ensures Absorbed(db, es, db', written)
  {
    InsertRowsKeys(db.purchases, es);
    InsertRowsKeeps(db.purchases, es);
    InsertRowsReturnsEach(db.purchases, es);
  }

  /**
   A committed batch adds exactly its new keys, first writer first, takes exactly one unit per new
   key from that key's sale, and reports how many keys were new.
   */
  lemma CommittedBatchAbsorbs(db: Db, es: seq<Entry>)
    requires WriteBatch(db, es).Committed?
    ensures Absorbed(db, es, WriteBatch(db, es).db, WriteBatch(db, es).written)
  {
    CommittedBatchTakesDemand(db, es);
    CommittedBatchInserts(db, es);
    AbsorbedFrom(db, es, WriteBatch(db, es).db, WriteBatch(db, es).written);
  }

  // ---------------------------------------------------------------- how the tables may move

  /** Rows are only ever added, sales change in remaining stock alone, and no unit is lost or minted. */
  ghost predicate Advances(db: Db, db': Db) {
    && db'.sales.Keys == db.sales.Keys
    && (forall s :: s in db.sales ==> SameBut(db.sales[s], db'.sales[s]))
    && (forall s :: s in db.sales ==> Units(db', s) == Units(db, s))
    && (forall k :: k in db.purchases ==> k in db'.purchases && db'.purchases[k] == db.purchases[k])
  }

  predicate SameBut(sale: Sale, sale': Sale) {
    && sale' == sale.(remainingStock := sale'.remainingStock)
    && sale'.remainingStock <= sale.remainingStock
  }

  function Units(db: Db, s: SaleId): int
    requires s in db.sales
  {
    db.sales[s].remainingStock + |BuyersOf(db, s)|
  }

  lemma AdvancesTransitive(a: Db, b: Db, c: Db)
    requires Advances(a, b) && Advances(b, c)
    ensures Advances(a, c)
  {
  }

  lemma BuyersAfter(db: Db, es: seq<Entry>, db': Db, s: SaleId)
    requires db'.purchases.Keys == db.purchases.Keys + KeysOf(es)
    ensures BuyersOf(db', s) == BuyersOf(db, s) + EmailsOf(NewKeys(db, es), s)
    ensures |BuyersOf(db', s)| == |BuyersOf(db, s)| + Demand(db, es, s)
  {
    assert db'.purchases.Keys == db.purchases.Keys + NewKeys(db, es);
    EmailsOfUnion(db.purchases.Keys, NewKeys(db, es), s);
    assert BuyersOf(db, s) !! EmailsOf(NewKeys(db, es), s);
  }

  lemma AbsorbedAdvances(db: Db, es: seq<Entry>, db': Db, written: nat)
    requires Absorbed(db, es, db', written)
    ensures Advances(db, db')
  {
    forall s | s in db.sales ensures Units(db', s) == Units(db, s) {
      BuyersAfter(db, es, db', s);
    }
  }

  lemma CommittedBatchAdvances(db: Db, es: seq<Entry>)
    requires WriteBatch(db, es).Committed?
    ensures Advances(db, WriteBatch(db, es).db)
  {
    CommittedBatchAbsorbs(db, es);
    AbsorbedAdvances(db, es, WriteBatch(db, es).db, WriteBatch(db, es).written);
  }

  lemma WriteOneAdvances(db: Db, saleId: SaleId, email: string, at: int)
    requires WriteOne(db, saleId, email, at).Answered?
    ensures Advances(db, WriteOne(db, saleId, email, at).db)
  {
    var r, key := WriteOne(db, saleId, email, at), Key(saleId, NormalizeEmail(email));
    if r.outcome == Success {
      SellOneKeepsUnits(db, key, Purchase(email, at));
    }
  }

  lemma SellOneKeepsUnits(db: Db, key: Key, row: Purchase)
    requires key !in db.purchases && key.saleId in db.sales
    ensures var db' := Db(Decrement(db.sales, key.saleId, 1), db.purchases[key := row]);
      forall s :: s in db.sales ==> Units(db', s) == Units(db, s)
  {
    var db' := Db(Decrement(db.sales, key.saleId, 1), db.purchases[key := row]);
    assert db'.purchases.Keys == db.purchases.Keys + {key};
    assert Key(key.saleId, key.email) == key;
    forall s | s in db.sales ensures Units(db', s) == Units(db, s) {
      EmailsOfInsert(db.purchases.Keys, key, s);
    }
  }

  /** Neither writer can break a constraint: a committed batch leaves a lawful schema. */
  lemma CommittedBatchKeepsSchema(db: Db, es: seq<Entry>)
    requires SchemaHolds(db) && WriteBatch(db, es).Committed?
    ensures SchemaHolds(WriteBatch(db, es).db)
  {
    var db' := WriteBatch(db, es).db;
    BatchCommitsIff(db, es);
    CommittedBatchAbsorbs(db, es);
    forall k | k in db'.purchases ensures RowChecks(db'.sales, k, db'.purchases[k]) {
      if k in db.purchases {
        assert RowChecks(db.sales, k, db.purchases[k]);
      } else {
        var e := NewRowsComeFromEntries(db.purchases, es, k);
      }
    }
    forall s | s in db'.sales ensures SaleChecks(db'.sales[s]) {
      assert SaleChecks(db.sales[s]);
    }
  }

  lemma WriteOneKeepsSchema(db: Db, saleId: SaleId, email: string, at: int)
    requires SchemaHolds(db) && WriteOne(db, saleId, email, at).Answered?
    ensures SchemaHolds(WriteOne(db, saleId, email, at).db)
  {
    var r := WriteOne(db, saleId, email, at);
    forall k | k in r.db.purchases ensures RowChecks(r.db.sales, k, r.db.purchases[k]) {
      assert k in db.purchases ==> RowChecks(db.sales, k, db.purchases[k]);
    }
    forall s | s in r.db.sales ensures SaleChecks(r.db.sales[s]) {
      assert SaleChecks(db.sales[s]);
    }
  }

  // ---------------------------------------------------------------- replay

  lemma NothingNewDemandsNothing(db: Db, es: seq<Entry>, s: SaleId)
    requires KeysOf(es) <= db.purchases.Keys
    ensures Demand(db, es, s) == 0
  {
    assert NewKeys(db, es) == {};
    assert EmailsOf(NewKeys(db, es), s) == {};
  }

  lemma NothingNewKeepsSales(db: Db, es: seq<Entry>, sales': map<SaleId, Sale>)
    requires TakenDemand(db, es, sales') && KeysOf(es) <= db.purchases.Keys
    ensures sales' == db.sales
  {
    forall s | s in db.sales ensures sales'[s] == db.sales[s] {
      NothingNewDemandsNothing(db, es, s);
    }
  }

  lemma NothingNew(db: Db, es: seq<Entry>, db': Db, written: nat)
    requires Absorbed(db, es, db', written) && KeysOf(es) <= db.purchases.Keys
    ensures db' == db && written == 0
  {
    NothingNewKeepsSales(db, es, db'.sales);
    assert db'.purchases.Keys == db.purchases.Keys;
    assert db'.purchases == db.purchases;
  }

  lemma NothingNewIsAffordable(db: Db, es: seq<Entry>)
    requires SchemaHolds(db) && KeysOf(es) <= db.purchases.Keys
    ensures Affordable(db, es)
  {
    forall s | s in db.sales ensures Demand(db, es, s) <= db.sales[s].remainingStock {
      NothingNewDemandsNothing(db, es, s);
      assert SaleChecks(db.sales[s]);
    }
  }

  /** Entries whose keys are all present can be written again, now or much later, without a trace. */
  lemma ReplayIsInvisible(db: Db, es: seq<Entry>)
    requires SchemaHolds(db) && Admissible(db.sales, es) && KeysOf(es) <= db.purchases.Keys
    ensures WriteBatch(db, es) == Committed(db, 0)
  {
    NothingNewIsAffordable(db, es);
    BatchCommitsIff(db, es);
    CommittedBatchAbsorbs(db, es);
    NothingNew(db, es, WriteBatch(db, es).db, WriteBatch(db, es).written);
  }

  /**
   At-least-once delivery has exactly-once effect: once a batch has committed, any redelivery made
   of its entries, in any order, repeated or in part, changes nothing and returns 0, whatever else
   was written in between.
   */
  lemma RedeliveryHasNoEffect(db: Db, es: seq<Entry>, later: Db, again: seq<Entry>)
    requires SchemaHolds(db) && WriteBatch(db, es).Committed?
    requires Advances(WriteBatch(db, es).db, later) && SchemaHolds(later)
    requires forall e :: e in again ==> e in es
    ensures WriteBatch(later, again) == Committed(later, 0)
  {
    var db' := WriteBatch(db, es).db;
    BatchCommitsIff(db, es);
    CommittedBatchAbsorbs(db, es);
    forall k | k in KeysOf(again) ensures k in later.purchases {
      var e :| e in again && KeyOf(e) == k;
      assert k in KeysOf(es);
      assert k in db'.purchases;
    }
    forall e | e in again ensures e.saleId in later.sales && InPeriod(later.sales[e.saleId], e.reservedAt) {
      assert e in es;
      assert SameBut(db.sales[e.saleId], db'.sales[e.saleId]) && SameBut(db'.sales[e.saleId], later.sales[e.saleId]);
    }
    ReplayIsInvisible(later, again);
  }

  // ---------------------------------------------------------------- batch boundaries

  lemma AppendDemand(db: Db, a: seq<Entry>, b: seq<Entry>, mid: Db, s: SaleId)
    requires mid.purchases.Keys == db.purchases.Keys + KeysOf(a)
    ensures Demand(db, a + b, s) == Demand(db, a, s) + Demand(mid, b, s)
  {
    KeysOfAppend(a, b);
    assert NewKeys(db, a + b) == NewKeys(db, a) + NewKeys(mid, b);
    EmailsOfUnion(NewKeys(db, a), NewKeys(mid, b), s);
    assert EmailsOf(NewKeys(db, a), s) !! EmailsOf(NewKeys(mid, b), s);
  }

  lemma LeftAfter(db: Db, a: seq<Entry>, mid: Db, n: nat, s: SaleId)
    requires Absorbed(db, a, mid, n) && s in db.sales
    ensures s in mid.sales && mid.sales[s].remainingStock == db.sales[s].remainingStock - Demand(db, a, s)
    ensures mid.purchases.Keys == db.purchases.Keys + KeysOf(a)
  {
  }

  lemma AppendAffordable(db: Db, a: seq<Entry>, mid: Db, n: nat, b: seq<Entry>, s: SaleId)
    requires Absorbed(db, a, mid, n) && s in db.sales
    ensures s in mid.sales
    ensures Demand(db, a + b, s) <= db.sales[s].remainingStock <==> Demand(mid, b, s) <= mid.sales[s].remainingStock
  {
    LeftAfter(db, a, mid, n, s);
    AppendDemand(db, a, b, mid, s);
  }

  lemma AppendAdmissible(sales: map<SaleId, Sale>, a: seq<Entry>, mid: map<SaleId, Sale>, b: seq<Entry>)
    requires Admissible(sales, a)
    requires mid.Keys == sales.Keys
    requires forall s :: s in sales ==> mid[s] == sales[s].(remainingStock := mid[s].remainingStock)
    ensures Admissible(sales, a + b) <==> Admissible(mid, b)
  {
    assert forall e :: e in a + b <==> e in a || e in b;
    assert forall e: Entry :: e.saleId in sales ==>
             InPeriod(sales[e.saleId], e.reservedAt) == InPeriod(mid[e.saleId], e.reservedAt);
  }

  lemma AppendCommits(db: Db, a: seq<Entry>, b: seq<Entry>)
    requires SchemaHolds(db) && WriteBatch(db, a).Committed?
    ensures WriteBatch(db, a + b).Committed? <==> WriteBatch(WriteBatch(db, a).db, b).Committed?
  {
    var mid, n := WriteBatch(db, a).db, WriteBatch(db, a).written;
    CommittedBatchAbsorbs(db, a);
    CommittedBatchKeepsSchema(db, a);
    BatchCommitsIff(db, a);
    BatchCommitsIff(db, a + b);
    BatchCommitsIff(mid, b);
    AppendAdmissible(db.sales, a, mid.sales, b);
    forall s | s in db.sales
      ensures Demand(db, a + b, s) <= db.sales[s].remainingStock <==> Demand(mid, b, s) <= mid.sales[s].remainingStock {
      AppendAffordable(db, a, mid, n, b, s);
    }
  }

  lemma PrefixCommits(db: Db, a: seq<Entry>, b: seq<Entry>)
    requires SchemaHolds(db) && WriteBatch(db, a + b).Committed?
    ensures WriteBatch(db, a).Committed?
  {
    BatchCommitsIff(db, a);
    BatchCommitsIff(db, a + b);
    assert forall e :: e in a ==> e in a + b;
    forall s | s in db.sales ensures Demand(db, a, s) <= db.sales[s].remainingStock {
      KeysOfAppend(a, b);
      SubsetSize(EmailsOf(NewKeys(db, a), s), EmailsOf(NewKeys(db, a + b), s));
    }
  }

  lemma ComposedStock(db: Db, a: seq<Entry>, mid: Db, n: nat, b: seq<Entry>, last: Db, m: nat, s: SaleId)
    requires Absorbed(db, a, mid, n) && Absorbed(mid, b, last, m) && s in db.sales
    ensures s in last.sales
    ensures last.sales[s] == db.sales[s].(remainingStock := db.sales[s].remainingStock - Demand(db, a + b, s))
  {
    LeftAfter(db, a, mid, n, s);
    LeftAfter(mid, b, last, m, s);
    AppendDemand(db, a, b, mid, s);
  }

  lemma ComposedSales(db: Db, a: seq<Entry>, mid: Db, n: nat, b: seq<Entry>, last: Db, m: nat, all: map<SaleId, Sale>)
    requires Absorbed(db, a, mid, n) && Absorbed(mid, b, last, m) && all.Keys == db.sales.Keys
    requires forall s :: s in db.sales ==>
               all[s] == db.sales[s].(remainingStock := db.sales[s].remainingStock - Demand(db, a + b, s))
    ensures all == last.sales
  {
    forall s | s in all ensures s in last.sales && all[s] == last.sales[s] {
      ComposedStock(db, a, mid, n, b, last, m, s);
    }
    assert last.sales.Keys == all.Keys;
  }

  lemma ComposedRows(db: Db, a: seq<Entry>, mid: Db, n: nat, b: seq<Entry>, last: Db, m: nat, all: Db, t: nat)
    requires Absorbed(db, a, mid, n) && Absorbed(mid, b, last, m) && Absorbed(db, a + b, all, t)
    ensures all.purchases == last.purchases && t == n + m
  {
    InsertRowsAppend(db.purchases, a, b);
  }

  lemma AbsorbedCompose(db: Db, a: seq<Entry>, mid: Db, n: nat, b: seq<Entry>, last: Db, m: nat, all: Db, t: nat)
    requires Absorbed(db, a, mid, n) && Absorbed(mid, b, last, m) && Absorbed(db, a + b, all, t)
    ensures all == last && t == n + m
  {
    ComposedRows(db, a, mid, n, b, last, m, all, t);
    ComposedSales(db, a, mid, n, b, last, m, all.sales);
  }

  lemma AppendResult(db: Db, a: seq<Entry>, b: seq<Entry>)
    requires WriteBatch(db, a).Committed? && WriteBatch(WriteBatch(db, a).db, b).Committed?
    requires WriteBatch(db, a + b).Committed?
    ensures var first := WriteBatch(db, a);
      var second := WriteBatch(first.db, b);
      WriteBatch(db, a + b) == Committed(second.db, first.written + second.written)
  {
    var first, all := WriteBatch(db, a), WriteBatch(db, a + b);
    var second := WriteBatch(first.db, b);
    CommittedBatchAbsorbs(db, a);
    CommittedBatchAbsorbs(first.db, b);
    CommittedBatchAbsorbs(db, a + b);
    AbsorbedCompose(db, a, first.db, first.written, b, second.db, second.written, all.db, all.written);
  }

  /**
   Where one batch ends and the next begins does not matter: `a + b` commits exactly when `a` and
   then `b` do, and the tables and the number of rows written come out the same.
   */
  lemma BatchBoundariesDoNotMatter(db: Db, a: seq<Entry>, b: seq<Entry>)
    requires SchemaHolds(db)
    ensures WriteBatch(db, a + b).Committed? <==>
            WriteBatch(db, a).Committed? && WriteBatch(WriteBatch(db, a).db, b).Committed?
    ensures WriteBatch(db, a + b).Committed? ==>
            var first := WriteBatch(db, a);
            var second := WriteBatch(first.db, b);
            WriteBatch(db, a + b) == Committed(second.db, first.written + second.written)
  {
    if WriteBatch(db, a + b).Committed? {
      PrefixCommits(db, a, b);
    }
    if WriteBatch(db, a).Committed? {
      AppendCommits(db, a, b);
      if WriteBatch(db, a + b).Committed? {
        AppendResult(db, a, b);
      }
    }
  }

  function Flatten(batches: seq<seq<Entry>>): seq<Entry> {
    if batches == [] then [] else Flatten(batches[..|batches| - 1]) + batches[|batches| - 1]
  }

  /** Batches committed one after the other, stopping at the first that aborts. */
  function WriteBatches(db: Db, batches: seq<seq<Entry>>): BatchResult {
    if batches == [] then Committed(db, 0)
    else
      match WriteBatches(db, batches[..|batches| - 1])
      case Aborted(error) => Aborted(error)
      case Committed(mid, n) =>
        match WriteBatch(mid, batches[|batches| - 1])
        case Aborted(error) => Aborted(error)
        case Committed(after, m) => Committed(after, n + m)
  }

  /** Hence every way of cutting one message sequence into batches gives the same database. */
  lemma {:induction false} AnyPartitionGivesTheSameDatabase(db: Db, batches: seq<seq<Entry>>)
    requires SchemaHolds(db)
    ensures WriteBatches(db, batches).Committed? <==> WriteBatch(db, Flatten(batches)).Committed?
    ensures WriteBatches(db, batches).Committed? ==> WriteBatches(db, batches) == WriteBatch(db, Flatten(batches))
    ensures WriteBatches(db, batches).Committed? ==> SchemaHolds(WriteBatches(db, batches).db)
  {
    if batches != [] {
      var front, last := batches[..|batches| - 1], batches[|batches| - 1];
      AnyPartitionGivesTheSameDatabase(db, front);
      BatchBoundariesDoNotMatter(db, Flatten(front), last);
      if WriteBatches(db, batches).Committed? {
        CommittedBatchKeepsSchema(db, Flatten(batches));
      }
    }
  }

  // ---------------------------------------------------------------- batch equals fold

  datatype Fold = Fold(db: Db, successes: nat, refused: bool)

  /** The same entries through the single-row rule, one transaction each. */
  function WriteEach(db: Db, es: seq<Entry>): Fold {
    if es == [] then Fold(db, 0, false)
    else FoldOne(WriteEach(db, es[..|es| - 1]), es[|es| - 1])
  }

  /** A batch of one and the single-row writer agree on every state. */
  lemma SingletonBatch(db: Db, e: Entry)
    requires SchemaHolds(db)
    ensures var r := WriteOne(db, e.saleId, e.email, e.reservedAt);
      match WriteBatch(db, [e])
      case Committed(after, n) => r == Answered(if n == 1 then Success else AlreadyPurchased, after) && n <= 1
      case Aborted(OutsideSaleWindow) => r == Answered(SaleNotActive, db)
      case Aborted(NoSuchSale) => r == Threw(NoSuchSale)
      case Aborted(CannotAbsorb(s)) => r == Answered(SoldOut, db) && s == e.saleId
  {
    var key := KeyOf(e);
    assert key in db.purchases ==> RowChecks(db.sales, key, db.purchases[key]);
    var ins := InsertRows(db.purchases, [e]);
    assert ins == InsertRow(InsertRows(db.purchases, []), e);
    if key in db.purchases {
      assert CountBySale(ins.saleIds) == Counts([], map[]);
    } else {
      assert ins.saleIds == [e.saleId];
      var c := CountBySale(ins.saleIds);
      assert c == CountOne(CountBySale([]), e.saleId);
      assert c == Counts([e.saleId], map[e.saleId := 1]);
      assert DecrementAll(db.sales, c.count, c.order[..|c.order| - 1]) == Ok(db.sales);
    }
  }

  /**
   What the single-row writer answers, over the row and the clock alone: outside the period, a duplicate, an
   unknown sale, no stock, or success, tried in this order; and what it leaves behind.
   */
  lemma WriteOneMeans(db: Db, s: SaleId, email: string, at: int)
    requires SchemaHolds(db)
    ensures var r, key := WriteOne(db, s, email, at), Key(s, NormalizeEmail(email));
      && (r.Threw? <==> s !in db.sales) && (r.Threw? ==> r.error == NoSuchSale)
      && (s in db.sales ==>
            var sale := db.sales[s];
            && r.outcome == (if at < sale.startsAt || at > sale.endsAt then SaleNotActive
                             else if key in db.purchases then AlreadyPurchased
                             else if sale.remainingStock <= 0 then SoldOut
                             else Success)
            && r.db == if r.outcome != Success then db
                       else Db(db.sales[s := sale.(remainingStock := sale.remainingStock - 1)],
                               db.purchases[key := Purchase(email, at)]))
  {
    var key := Key(s, NormalizeEmail(email));
    assert key in db.purchases ==> RowChecks(db.sales, key, db.purchases[key]);
  }

  function FoldOne(before: Fold, e: Entry): Fold {
    match WriteOne(before.db, e.saleId, e.email, e.reservedAt)
    case Answered(Success, after) => Fold(after, before.successes + 1, before.refused)
    case Answered(AlreadyPurchased, _) => before
    case _ => before.(refused := true)
  }

  lemma FoldTakesOneMore(before: Fold, e: Entry)
    requires SchemaHolds(before.db) && !before.refused
    ensures WriteBatch(before.db, [e]).Committed? <==> !FoldOne(before, e).refused
    ensures WriteBatch(before.db, [e]).Committed? ==>
            var r := WriteBatch(before.db, [e]);
            FoldOne(before, e) == Fold(r.db, before.successes + r.written, false)
  {
    SingletonBatch(before.db, e);
  }

  /**
   One big transaction equals many small ones: a batch commits exactly when no entry, written on its
   own after its predecessors, would be refused; then tables and success count are identical.
   */
  lemma {:induction false} BatchEqualsFold(db: Db, es: seq<Entry>)
    requires SchemaHolds(db)
    ensures WriteBatch(db, es).Committed? <==> !WriteEach(db, es).refused
    ensures WriteBatch(db, es).Committed? ==>
            WriteBatch(db, es) == Committed(WriteEach(db, es).db, WriteEach(db, es).successes)
  {
    if es != [] {
      var front, last := es[..|es| - 1], es[|es| - 1];
      BatchEqualsFold(db, front);
      assert es == front + [last];
      BatchBoundariesDoNotMatter(db, front, [last]);
      if WriteBatch(db, front).Committed? {
        CommittedBatchKeepsSchema(db, front);
        FoldTakesOneMore(WriteEach(db, front), last);
      }
    }
  }
}
