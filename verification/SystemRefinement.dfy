/**
 The fast path refines the Postgres-only path: for a sale warmed at quiescence, every answer given
 through Redis, queue and worker, in whatever order these run, is the answer the Postgres-only path
 would have given to the same requests one after the other, and once drained the tables agree too.
 */
module SystemRefinement {
  import opened Prelude
  import opened Emails
  import opened Store
  import opened StoreTheorems
  import opened Gate
  import opened Api
  import opened System
  import opened SystemSafety
  import opened SystemFast
  import opened SystemInStep
  import D = Drain

  /** What the Postgres-only path answered to one call. */
  datatype Heard = Heard(saleId: SaleId, reply: Reply)

  /**
   The reference: tables written by `recordPurchase` alone, uncached, one request after the other. `dropped`
   is a history: reservations given up by their caller before they were published or written.
   */
  datatype Ideal = Ideal(db: Db, heard: map<nat, Heard>, dropped: set<Entry>)

  function IdealAsk(i: Ideal, call: nat, saleId: SaleId, email: string, now: int): Ideal {
    var r := RecordPurchase(i.db, map[], saleId, email, now, now);
    i.(db := r.db, heard := i.heard[call := Heard(saleId, r.reply)])
  }

  function IdealNext(i: Ideal, y: Sys, l: Label): Ideal {
    match l
    case Ask(s, email, now) => IdealAsk(i, y.calls, s, email, now)
    case Bypass(s, email, now, _, _, _) => IdealAsk(i, y.calls, s, email, now)
    case Abandon(id) => if id in y.limbo then i.(dropped := i.dropped + {y.limbo[id]}) else i
    case _ => i
  }

  function IdealAfter(cfg: D.Config, i: Ideal, y: Sys, labels: seq<Label>): Ideal
    requires Runs(cfg, y, labels)
    decreases |labels|
  {
    if labels == [] then i else IdealAfter(cfg, IdealNext(i, y, labels[0]), Next(cfg, y, labels[0]), labels[1..])
  }

  /**
   The steps compared: the sale is not bypassed, re-warmed or swept, and a fallback reads on the database the
   clock value its request started with. Reservations may be dropped and answers may get lost.
   */
  predicate Comparable(y: Sys, l: Label, s: SaleId, mark: nat) {
    && Fast(y, l, s, mark)
    && (l.FallBack? && l.id in y.limbo && y.limbo[l.id].saleId == s ==> l.databaseNow == y.limbo[l.id].reservedAt)
  }

  predicate ComparableRun(cfg: D.Config, y: Sys, labels: seq<Label>, s: SaleId, mark: nat)
    requires Runs(cfg, y, labels)
    decreases |labels|
  {
    labels != [] ==>
      Comparable(y, labels[0], s, mark) && ComparableRun(cfg, Next(cfg, y, labels[0]), labels[1..], s, mark)
  }

  // ---------------------------------------------------------------- simulation relation

  predicate SameColumns(a: Sale, b: Sale) {
    a == b.(remainingStock := a.remainingStock)
  }

  /** The gate holds what the reference table holds. */
  ghost predicate GateMatches(y: Sys, i: Ideal, s: SaleId) {
    && s in y.db.sales && s in i.db.sales
    && SameColumns(i.db.sales[s], y.db.sales[s])
    && i.db.sales[s].remainingStock == StockOf(y.redis, s)
    && BuyersOf(i.db, s) == Members(y.redis, s)
  }

  /** What the reference has written and the pipeline need not have: promises still open, and dropped reservations. */
  function Hand(y: Sys, i: Ideal, mark: nat): set<Entry> {
    Promised(y, mark) + i.dropped
  }

  /**
   The reference rows of the sale are the table's rows, plus one row per promise, plus one row per dropped
   reservation, times and spelling included.
   */
  ghost predicate RowsMatch(y: Sys, i: Ideal, s: SaleId, mark: nat) {
    && (forall k :: k in y.db.purchases && k.saleId == s ==>
          k in i.db.purchases && i.db.purchases[k] == y.db.purchases[k])
    && (forall k :: k in i.db.purchases && k.saleId == s ==>
          k in y.db.purchases || k in KeysFor(Hand(y, i, mark)))
    && (forall e :: e in Hand(y, i, mark) && e.saleId == s ==>
          KeyOf(e) in i.db.purchases && i.db.purchases[KeyOf(e)] == Purchase(e.email, e.reservedAt))
  }

  /** A dropped reservation has no row and never will: its buyer is promised nothing else. */
  ghost predicate DroppedForGood(y: Sys, i: Ideal, s: SaleId, mark: nat) {
    forall e :: e in i.dropped && e.saleId == s ==>
      KeyOf(e) !in y.db.purchases && KeyOf(e) !in KeysFor(Promised(y, mark))
  }

  /** Every call for the sale was answered like the reference, or is a reservation whose answer there is success. */
  ghost predicate RepliesMatch(y: Sys, i: Ideal, s: SaleId) {
    && (forall id :: id in i.heard ==> id < y.calls)
    && (forall id :: id in i.heard && i.heard[id].saleId == s ==>
          i.heard[id].reply == if id in y.replies then y.replies[id] else Answer(Success))
    && (forall id :: id in y.limbo && y.limbo[id].saleId == s ==>
          id in i.heard && i.heard[id] == Heard(s, Answer(Success)))
    && (forall id :: id in y.limbo && id in i.heard ==> i.heard[id].saleId == y.limbo[id].saleId)
  }

  ghost predicate TablesMatch(y: Sys, i: Ideal, s: SaleId, mark: nat) {
    GateMatches(y, i, s) && RowsMatch(y, i, s, mark) && DroppedForGood(y, i, s, mark)
  }

  /** The sale looks the same in two references. */
  ghost predicate SameReference(i: Ideal, i': Ideal, s: SaleId) {
    && (s in i.db.sales ==> s in i'.db.sales && i'.db.sales[s] == i.db.sales[s])
    && BuyersOf(i'.db, s) == BuyersOf(i.db, s)
    && (forall k: Key :: k.saleId == s ==> (k in i.db.purchases <==> k in i'.db.purchases))
    && (forall k :: k in i.db.purchases && k.saleId == s ==> i'.db.purchases[k] == i.db.purchases[k])
  }

  ghost predicate Sim(y: Sys, i: Ideal, s: SaleId, mark: nat) {
    && mark <= |y.drain.channel.dead|
    && TablesMatch(y, i, s, mark) && RepliesMatch(y, i, s)
  }

  lemma JustWarmedSimulates(y: Sys, s: SaleId)
    requires JustWarmed(y, s) && SchemaHolds(y.db)
    ensures InStep(y, s, |y.drain.channel.dead|) && Sim(y, Ideal(y.db, map[], {}), s, |y.drain.channel.dead|)
  {
    JustWarmedIsInStep(y, s);
    forall id | id in y.limbo ensures y.limbo[id].saleId != s {
      assert y.limbo[id] in Promised(y, |y.drain.channel.dead|);
    }
  }

  // ---------------------------------------------------------------- one request

  /** The gate decides like the Postgres-only path run on the reference table. */
  lemma GateAnswersLikeTheReference(y: Sys, i: Ideal, s: SaleId, email: string, now: int)
    requires GateMatches(y, i, s) && MetaTrue(y.redis, y.db.sales) && Warmed(y.redis, s) && y.redis.stock[s].Some?
    ensures var code := Decide(y.redis, s, NormalizeEmail(email), now);
      var r := RecordPurchase(i.db, map[], s, email, now, now);
      && (code == Reserved ==> r.reply == Answer(Success))
      && (code.Rejected? ==> r.reply == Answer(code.outcome) && r.db == i.db)
      && code != NotWarmed
  {
    var key := NormalizeEmail(email);
    assert key in BuyersOf(i.db, s) <==> Key(s, key) in i.db.purchases;
  }

  /** What a reserved call writes into the reference table. */
  lemma ReservedReferenceRow(y: Sys, i: Ideal, s: SaleId, email: string, now: int)
    requires GateMatches(y, i, s) && MetaTrue(y.redis, y.db.sales) && Warmed(y.redis, s) && y.redis.stock[s].Some?
    requires Decide(y.redis, s, NormalizeEmail(email), now) == Reserved
    ensures var key := Key(s, NormalizeEmail(email));
      && key !in i.db.purchases
      && RecordPurchase(i.db, map[], s, email, now, now).db ==
         Db(Decrement(i.db.sales, s, 1), i.db.purchases[key := Purchase(email, now)])
  {
    GateAnswersLikeTheReference(y, i, s, email, now);
    assert NormalizeEmail(email) in BuyersOf(i.db, s) <==> Key(s, NormalizeEmail(email)) in i.db.purchases;
  }

  /** A request for another sale does not touch this sale's part of the reference. */
  lemma OtherSaleInReference(i: Ideal, call: nat, t: SaleId, email: string, now: int, s: SaleId)
    requires s != t
    ensures SameReference(i, IdealAsk(i, call, t, email, now), s)
  {
    WriteOneAddsOneKey(i.db, t, email, now);
  }

  // ---------------------------------------------------------------- ask

  lemma ReservedKeepsGate(y: Sys, i: Ideal, s: SaleId, email: string, now: int)
    requires GateMatches(y, i, s) && MetaTrue(y.redis, y.db.sales) && Warmed(y.redis, s) && y.redis.stock[s].Some?
    requires Decide(y.redis, s, NormalizeEmail(email), now) == Reserved
    ensures GateMatches(AskNext(y, s, email, now), IdealAsk(i, y.calls, s, email, now), s)
  {
    ReservedReferenceRow(y, i, s, email, now);
    var key := Key(s, NormalizeEmail(email));
    assert i.db.purchases[key := Purchase(email, now)].Keys == i.db.purchases.Keys + {key};
    EmailsOfInsert(i.db.purchases.Keys, key, s);
  }

  lemma ReservedKeepsRows(y: Sys, i: Ideal, s: SaleId, email: string, now: int, mark: nat)
    requires RowsMatch(y, i, s, mark) && DroppedForGood(y, i, s, mark) && y.calls !in y.limbo
    requires GateMatches(y, i, s) && MetaTrue(y.redis, y.db.sales) && Warmed(y.redis, s) && y.redis.stock[s].Some?
    requires Decide(y.redis, s, NormalizeEmail(email), now) == Reserved
    ensures RowsMatch(AskNext(y, s, email, now), IdealAsk(i, y.calls, s, email, now), s, mark)
    ensures DroppedForGood(AskNext(y, s, email, now), IdealAsk(i, y.calls, s, email, now), s, mark)
  {
    ReservedReferenceRow(y, i, s, email, now);
    var y', i', e := AskNext(y, s, email, now), IdealAsk(i, y.calls, s, email, now), Entry(s, email, now);
    LimboPlus(y, y', e);
    OneMoreRow(y, i, y', i', e, s, mark);
  }

  lemma LimboPlus(y: Sys, y': Sys, e: Entry)
    requires y.calls !in y.limbo && y'.limbo == y.limbo[y.calls := e]
    ensures y'.limbo.Values == y.limbo.Values + {e}
  {
    assert y'.limbo[y.calls] == e;
    forall x | x in y.limbo.Values ensures x in y'.limbo.Values {
      var id :| id in y.limbo && y.limbo[id] == x;
      assert y'.limbo[id] == x;
    }
  }

  lemma OneMoreRow(y: Sys, i: Ideal, y': Sys, i': Ideal, e: Entry, s: SaleId, mark: nat)
    requires RowsMatch(y, i, s, mark) && DroppedForGood(y, i, s, mark)
    requires e.saleId == s && KeyOf(e) !in i.db.purchases
    requires y'.db == y.db && y'.drain == y.drain && y'.limbo.Values == y.limbo.Values + {e}
    requires i'.db.purchases == i.db.purchases[KeyOf(e) := Purchase(e.email, e.reservedAt)] && i'.dropped == i.dropped
    ensures RowsMatch(y', i', s, mark) && DroppedForGood(y', i', s, mark)
  {
    assert Hand(y', i', mark) == Hand(y, i, mark) + {e};
    KeysForGrow(Hand(y, i, mark), Hand(y', i', mark));
    assert KeyOf(e) in KeysFor(Hand(y', i', mark));
    forall d | d in i.dropped && d.saleId == s ensures KeyOf(d) !in KeysFor(Promised(y', mark)) {
      assert d in Hand(y, i, mark);
      assert KeyOf(d) != KeyOf(e);
      assert Promised(y', mark) == Promised(y, mark) + {e};
    }
  }

  lemma AskKeepsReplies(y: Sys, i: Ideal, t: SaleId, email: string, now: int, s: SaleId)
    requires RepliesMatch(y, i, s) && CallsOk(y) && y.calls !in i.heard
    requires s == t ==>
      var code := Decide(y.redis, s, NormalizeEmail(email), now);
      var r := RecordPurchase(i.db, map[], s, email, now, now);
      && (code == Reserved ==> r.reply == Answer(Success))
      && (code.Rejected? ==> r.reply == Answer(code.outcome))
      && code != NotWarmed
    requires Decide(y.redis, t, NormalizeEmail(email), now) != NotWarmed
    ensures RepliesMatch(AskNext(y, t, email, now), IdealAsk(i, y.calls, t, email, now), s)
  {
  }

  lemma OtherCallFrame(y: Sys, y': Sys, i: Ideal, i': Ideal, s: SaleId, mark: nat)
    requires TablesMatch(y, i, s, mark) && i'.dropped == i.dropped
    requires y'.db == y.db && StockOf(y'.redis, s) == StockOf(y.redis, s) && Members(y'.redis, s) == Members(y.redis, s)
    requires SameReference(i, i', s)
    requires forall e: Entry :: e.saleId == s ==> (e in Promised(y, mark) <==> e in Promised(y', mark))
    ensures TablesMatch(y', i', s, mark)
  {
    forall k: Key | k.saleId == s ensures k in KeysFor(Hand(y, i, mark)) <==> k in KeysFor(Hand(y', i', mark)) {
      assert forall e :: e in Hand(y, i, mark) && KeyOf(e) == k ==> e in Hand(y', i', mark);
      assert forall e :: e in Hand(y', i', mark) && KeyOf(e) == k ==> e in Hand(y, i, mark);
    }
    forall k: Key | k.saleId == s ensures k in KeysFor(Promised(y', mark)) ==> k in KeysFor(Promised(y, mark)) {
      assert forall e :: e in Promised(y', mark) && KeyOf(e) == k ==> e in Promised(y, mark);
    }
  }

  /** The parts of `Safe` and `InStep` a request for the sale relies on. */
  ghost predicate Gateable(y: Sys, s: SaleId) {
    MetaTrue(y.redis, y.db.sales) && Warmed(y.redis, s) && y.redis.stock[s].Some? && CallsOk(y)
  }

  lemma OwnAskKeepsTables(y: Sys, i: Ideal, s: SaleId, email: string, now: int, mark: nat)
    requires Gateable(y, s) && TablesMatch(y, i, s, mark) && mark <= |y.drain.channel.dead|
    ensures var y', i' := AskNext(y, s, email, now), IdealAsk(i, y.calls, s, email, now);
      TablesMatch(y', i', s, mark)
  {
    GateAnswersLikeTheReference(y, i, s, email, now);
    if Decide(y.redis, s, NormalizeEmail(email), now) == Reserved {
      ReservedKeepsGate(y, i, s, email, now);
      ReservedKeepsRows(y, i, s, email, now, mark);
    } else {
      OtherCallFrame(y, AskNext(y, s, email, now), i, IdealAsk(i, y.calls, s, email, now), s, mark);
    }
  }

  lemma OtherAskKeepsTables(y: Sys, i: Ideal, t: SaleId, email: string, now: int, s: SaleId, mark: nat)
    requires s != t && CallsOk(y) && TablesMatch(y, i, s, mark)
    ensures var y', i' := AskNext(y, t, email, now), IdealAsk(i, y.calls, t, email, now);
      TablesMatch(y', i', s, mark)
  {
    var y' := AskNext(y, t, email, now);
    OtherSaleInReference(i, y.calls, t, email, now, s);
    OthersLimbo(y, y', Entry(t, email, now));
    OtherCallFrame(y, y', i, IdealAsk(i, y.calls, t, email, now), s, mark);
  }

  lemma AskKeepsSim(y: Sys, i: Ideal, t: SaleId, email: string, now: int, s: SaleId, mark: nat)
    requires Gateable(y, s) && Sim(y, i, s, mark) && Decide(y.redis, t, NormalizeEmail(email), now) != NotWarmed
    ensures Sim(AskNext(y, t, email, now), IdealAsk(i, y.calls, t, email, now), s, mark)
  {
    if s == t {
      OwnAskKeepsTables(y, i, s, email, now, mark);
      GateAnswersLikeTheReference(y, i, s, email, now);
    } else {
      OtherAskKeepsTables(y, i, t, email, now, s, mark);
    }
    AskKeepsReplies(y, i, t, email, now, s);
  }

  lemma OthersLimbo(y: Sys, y': Sys, e: Entry)
    requires y.calls !in y.limbo && (y'.limbo == y.limbo || y'.limbo == y.limbo[y.calls := e])
    ensures forall x: Entry :: x.saleId != e.saleId ==> (x in y.limbo.Values <==> x in y'.limbo.Values)
  {
    forall x | x in y.limbo.Values ensures x in y'.limbo.Values {
      var id :| id in y.limbo && y.limbo[id] == x;
      assert y'.limbo[id] == x;
    }
  }

  lemma BypassKeepsTables(y: Sys, y': Sys, i: Ideal, i': Ideal, s: SaleId, t: SaleId, email: string, at: int, mark: nat)
    requires s != t && TablesMatch(y, i, s, mark)
    requires y' == y.(db := y'.db, cache := y'.cache, calls := y'.calls, replies := y'.replies, direct := y'.direct)
    requires y'.db == y.db || y'.db == TablesAfter(WriteOne(y.db, t, email, at), y.db)
    requires SameReference(i, i', s) && i'.dropped == i.dropped
    ensures TablesMatch(y', i', s, mark)
  {
    OtherWriteFrame(y, y', s, t, email, at);
    OtherCallFrame(y, y, i, i', s, mark);
    SaleUntouched(y, y', i', s, mark);
  }

  lemma BypassKeepsSim(
    y: Sys, i: Ideal, t: SaleId, email: string, now: int, databaseNow: int, seen: bool, s: SaleId, mark: nat)
    requires Sim(y, i, s, mark) && CallsOk(y) && t != s
    ensures Sim(BypassNext(y, t, email, now, databaseNow, seen), IdealAsk(i, y.calls, t, email, now), s, mark)
  {
    var y', i' := BypassNext(y, t, email, now, databaseNow, seen), IdealAsk(i, y.calls, t, email, now);
    BypassIsOneWrite(y, t, email, now, databaseNow, seen);
    OtherSaleInReference(i, y.calls, t, email, now, s);
    BypassKeepsTables(y, y', i, i', s, t, email, databaseNow, mark);
    BypassKeepsReplies(y, i, t, email, now, databaseNow, seen, s);
  }

  lemma BypassKeepsReplies(
    y: Sys, i: Ideal, t: SaleId, email: string, now: int, databaseNow: int, seen: bool, s: SaleId)
    requires RepliesMatch(y, i, s) && CallsOk(y) && t != s
    ensures RepliesMatch(BypassNext(y, t, email, now, databaseNow, seen), IdealAsk(i, y.calls, t, email, now), s)
  {
  }

  lemma SaleUntouched(y: Sys, y': Sys, i: Ideal, s: SaleId, mark: nat)
    requires TablesMatch(y, i, s, mark)
    requires y'.redis == y.redis && y'.limbo == y.limbo && y'.drain == y.drain
    requires s in y'.db.sales && y'.db.sales[s] == y.db.sales[s]
    requires forall k: Key :: k.saleId == s ==> (k in y.db.purchases <==> k in y'.db.purchases)
    requires forall k :: k in y.db.purchases && k.saleId == s ==> y'.db.purchases[k] == y.db.purchases[k]
    ensures TablesMatch(y', i, s, mark)
  {
    assert Promised(y', mark) == Promised(y, mark);
  }

  /** A single-row write for another sale leaves this sale's rows and stock alone. */
  lemma OtherWriteFrame(y: Sys, y': Sys, s: SaleId, t: SaleId, email: string, at: int)
    requires s != t && (y'.db == y.db || y'.db == TablesAfter(WriteOne(y.db, t, email, at), y.db))
    ensures s in y.db.sales ==> s in y'.db.sales && y'.db.sales[s] == y.db.sales[s]
    ensures forall k: Key :: k.saleId == s ==> (k in y.db.purchases <==> k in y'.db.purchases)
    ensures forall k :: k in y.db.purchases && k.saleId == s ==> y'.db.purchases[k] == y.db.purchases[k]
  {
  }

  // ---------------------------------------------------------------- writes

  /** Every row a step adds for the sale is the reference row of a promise. */
  ghost predicate AddsPromisedRows(y: Sys, y': Sys, s: SaleId, mark: nat) {
    forall k :: k in y'.db.purchases && k.saleId == s && k !in y.db.purchases ==>
      exists e :: e in Promised(y, mark) && KeyOf(e) == k && y'.db.purchases[k] == Purchase(e.email, e.reservedAt)
  }

  /** Promises are only settled by writing them. */
  ghost predicate HandsOver(y: Sys, y': Sys, s: SaleId, mark: nat) {
    && (forall e :: e in Promised(y', mark) && e.saleId == s ==> e in Promised(y, mark))
    && (forall e :: e in Promised(y, mark) && e.saleId == s ==>
          e in Promised(y', mark) || KeyOf(e) in y'.db.purchases)
  }

  lemma NewRowsAreReferenceRows(y: Sys, y': Sys, i: Ideal, s: SaleId, mark: nat, k: Key)
    requires RowsMatch(y, i, s, mark) && DroppedForGood(y, i, s, mark) && AddsPromisedRows(y, y', s, mark)
    requires k in y'.db.purchases && k.saleId == s && k !in y.db.purchases
    ensures k in i.db.purchases && i.db.purchases[k] == y'.db.purchases[k]
    ensures forall d :: d in i.dropped && d.saleId == s ==> KeyOf(d) != k
  {
    var e :| e in Promised(y, mark) && KeyOf(e) == k && y'.db.purchases[k] == Purchase(e.email, e.reservedAt);
    assert e in Hand(y, i, mark);
    assert k in KeysFor(Promised(y, mark));
  }

  lemma WriteKeepsRows(y: Sys, y': Sys, i: Ideal, s: SaleId, mark: nat)
    requires RowsMatch(y, i, s, mark) && DroppedForGood(y, i, s, mark) && Advances(y.db, y'.db)
    requires AddsPromisedRows(y, y', s, mark) && HandsOver(y, y', s, mark)
    ensures RowsMatch(y', i, s, mark)
  {
    forall k | k in y'.db.purchases && k.saleId == s
      ensures k in i.db.purchases && i.db.purchases[k] == y'.db.purchases[k] {
      if k !in y.db.purchases {
        NewRowsAreReferenceRows(y, y', i, s, mark, k);
      }
    }
    forall k | k in i.db.purchases && k.saleId == s ensures k in y'.db.purchases || k in KeysFor(Hand(y', i, mark)) {
      if k !in y.db.purchases {
        var e :| e in Hand(y, i, mark) && KeyOf(e) == k;
        assert e in Hand(y', i, mark) || KeyOf(e) in y'.db.purchases;
      }
    }
  }

  lemma WriteKeepsDropped(y: Sys, y': Sys, i: Ideal, s: SaleId, mark: nat)
    requires RowsMatch(y, i, s, mark) && DroppedForGood(y, i, s, mark)
    requires AddsPromisedRows(y, y', s, mark) && HandsOver(y, y', s, mark)
    ensures DroppedForGood(y', i, s, mark)
  {
    forall d | d in i.dropped && d.saleId == s
      ensures KeyOf(d) !in y'.db.purchases && KeyOf(d) !in KeysFor(Promised(y', mark)) {
      if KeyOf(d) in y'.db.purchases {
        NewRowsAreReferenceRows(y, y', i, s, mark, KeyOf(d));
      }
      forall e | e in Promised(y', mark) ensures KeyOf(e) != KeyOf(d) {
        assert e.saleId == s ==> KeyOf(e) in KeysFor(Promised(y, mark));
      }
    }
  }

  lemma WriteKeepsGate(y: Sys, y': Sys, i: Ideal, s: SaleId)
    requires GateMatches(y, i, s) && Advances(y.db, y'.db)
    requires StockOf(y'.redis, s) == StockOf(y.redis, s) && Members(y'.redis, s) == Members(y.redis, s)
    ensures GateMatches(y', i, s)
  {
    assert SameBut(y.db.sales[s], y'.db.sales[s]);
  }

  lemma WriteKeepsTables(y: Sys, y': Sys, i: Ideal, s: SaleId, mark: nat)
    requires TablesMatch(y, i, s, mark) && Advances(y.db, y'.db)
    requires AddsPromisedRows(y, y', s, mark) && HandsOver(y, y', s, mark)
    requires StockOf(y'.redis, s) == StockOf(y.redis, s) && Members(y'.redis, s) == Members(y.redis, s)
    ensures TablesMatch(y', i, s, mark)
  {
    WriteKeepsRows(y, y', i, s, mark);
    WriteKeepsDropped(y, y', i, s, mark);
    WriteKeepsGate(y, y', i, s);
  }

  lemma CommitAddsPromisedRows(y: Sys, entries: seq<Entry>, y': Sys, s: SaleId, mark: nat)
    requires WriteBatch(y.db, entries).Committed? && y'.db == WriteBatch(y.db, entries).db
    requires Timely(y, StrayCommit(entries), s, mark)
    ensures AddsPromisedRows(y, y', s, mark)
    ensures KeysOf(entries) <= y'.db.purchases.Keys
  {
    CommittedBatchAbsorbs(y.db, entries);
    CommittedBatchInserts(y.db, entries);
    forall k | k in y'.db.purchases && k.saleId == s && k !in y.db.purchases
      ensures exists e ::
        e in Promised(y, mark) && KeyOf(e) == k && y'.db.purchases[k] == Purchase(e.email, e.reservedAt) {
      var e := NewRowsComeFromEntries(y.db.purchases, entries, k);
      assert e in Promised(y, mark);
    }
  }

  lemma FallBackAddsPromisedRow(y: Sys, id: nat, s: SaleId, mark: nat, seen: bool)
    requires id in y.limbo && y.limbo[id].saleId == s
    requires var e := y.limbo[id];
      var r := WriteOne(y.db, s, e.email, e.reservedAt);
      r.Answered? && r.outcome == Success
    ensures var e, y' := y.limbo[id], FallBackNext(y, id, y.limbo[id].reservedAt, seen);
      && AddsPromisedRows(y, y', s, mark) && KeyOf(e) in y'.db.purchases
      && y'.replies == if seen then y.replies[id := Answer(Success)] else y.replies
  {
    var e := y.limbo[id];
    WriteOneAddsOneKey(y.db, s, e.email, e.reservedAt);
    assert e in Promised(y, mark);
  }

  lemma LimboMinus(y: Sys, y': Sys, id: nat)
    requires id in y.limbo && y'.limbo == y.limbo - {id}
    ensures y'.limbo.Values <= y.limbo.Values <= y'.limbo.Values + {y.limbo[id]}
  {
    forall x | x in y.limbo.Values ensures x in y'.limbo.Values + {y.limbo[id]} {
      var other :| other in y.limbo && y.limbo[other] == x;
      assert other != id ==> y'.limbo[other] == x;
    }
  }

  lemma LimboHandsOver(y: Sys, y': Sys, id: nat, s: SaleId, mark: nat)
    requires id in y.limbo && y'.limbo == y.limbo - {id} && y'.drain == y.drain
    requires y.limbo[id].saleId == s ==> KeyOf(y.limbo[id]) in y'.db.purchases
    ensures HandsOver(y, y', s, mark)
  {
    LimboMinus(y, y', id);
  }

  /** The call whose reservation is spent leaves limbo; if it was for the sale, any answer it gets is `success`. */
  lemma SpentKeepsReplies(y: Sys, y': Sys, i: Ideal, id: nat, s: SaleId)
    requires RepliesMatch(y, i, s) && id in y.limbo && id !in y.replies
    requires y'.limbo == y.limbo - {id} && y'.calls == y.calls
    requires y.limbo[id].saleId == s && id in y'.replies ==> y'.replies[id] == Answer(Success)
    requires y'.replies - {id} == y.replies
    ensures RepliesMatch(y', i, s)
  {
  }

  /** A fallback puts the promised row of its own sale into the table, or does nothing to this sale. */
  lemma FallBackWrites(y: Sys, l: Label, s: SaleId, mark: nat)
    requires EntriesOk(y) && InStep(y, s, mark) && l.FallBack? && l.id in y.limbo && Comparable(y, l, s, mark)
    ensures var e, y' := y.limbo[l.id], FallBackNext(y, l.id, l.databaseNow, l.seen);
      && AddsPromisedRows(y, y', s, mark)
      && (e.saleId == s ==> KeyOf(e) in y'.db.purchases)
      && (e.saleId == s && l.id !in y.replies && l.id in y'.replies ==> y'.replies[l.id] == Answer(Success))
  {
    var e := y.limbo[l.id];
    if e.saleId == s {
      assert Lawful(y.db.sales, e);
      InStepFallbackSucceeds(y, l.id, mark, e.reservedAt);
      FallBackAddsPromisedRow(y, l.id, s, mark, l.seen);
    } else {
      OtherWriteFrame(y, FallBackNext(y, l.id, l.databaseNow, l.seen), s, e.saleId, e.email, l.databaseNow);
    }
  }

  lemma FallBackKeepsSim(y: Sys, i: Ideal, l: Label, s: SaleId, mark: nat)
    requires EntriesOk(y) && CallsOk(y) && InStep(y, s, mark) && Sim(y, i, s, mark)
    requires l.FallBack? && l.id in y.limbo && Comparable(y, l, s, mark)
    requires Advances(y.db, FallBackNext(y, l.id, l.databaseNow, l.seen).db)
    ensures Sim(FallBackNext(y, l.id, l.databaseNow, l.seen), i, s, mark)
  {
    var y' := FallBackNext(y, l.id, l.databaseNow, l.seen);
    FallBackWrites(y, l, s, mark);
    FallBackFrame(y, l.id, l.databaseNow, l.seen);
    LimboHandsOver(y, y', l.id, s, mark);
    WriteKeepsTables(y, y', i, s, mark);
    SpentKeepsReplies(y, y', i, l.id, s);
  }

  // ---------------------------------------------------------------- dropped reservations

  /** The buyer of a reservation that is dropped has no other trace left. */
  lemma DroppedIsAlone(y: Sys, y': Sys, id: nat, s: SaleId, mark: nat)
    requires LimboAlone(y, s, mark) && id in y.limbo && y.limbo[id].saleId == s
    requires y' == y.(limbo := y.limbo - {id})
    ensures KeyOf(y.limbo[id]) !in y'.db.purchases && KeyOf(y.limbo[id]) !in KeysFor(Promised(y', mark))
  {
    var e := y.limbo[id];
    forall p | p in Promised(y', mark) ensures KeyOf(p) != KeyOf(e) {
      if p in Sent(y.drain, mark) {
        assert KeyOf(p) in KeysFor(Sent(y.drain, mark));
      }
    }
  }

  lemma AbandonKeepsTables(y: Sys, y': Sys, i: Ideal, i': Ideal, id: nat, s: SaleId, mark: nat)
    requires TablesMatch(y, i, s, mark) && LimboAlone(y, s, mark) && id in y.limbo
    requires y' == y.(limbo := y.limbo - {id}) && i' == i.(dropped := i.dropped + {y.limbo[id]})
    ensures TablesMatch(y', i', s, mark)
  {
    LimboMinus(y, y', id);
    assert Hand(y', i', mark) == Hand(y, i, mark);
    KeysForGrow(Promised(y', mark), Promised(y, mark));
    if y.limbo[id].saleId == s {
      DroppedIsAlone(y, y', id, s, mark);
    }
  }

  lemma AbandonKeepsSim(y: Sys, i: Ideal, id: nat, s: SaleId, mark: nat)
    requires Sim(y, i, s, mark) && LimboAlone(y, s, mark) && id in y.limbo && id !in y.replies
    ensures Sim(y.(limbo := y.limbo - {id}), i.(dropped := i.dropped + {y.limbo[id]}), s, mark)
  {
    var y', i' := y.(limbo := y.limbo - {id}), i.(dropped := i.dropped + {y.limbo[id]});
    AbandonKeepsTables(y, y', i, i', id, s, mark);
    SpentKeepsReplies(y, y', i, id, s);
  }

  // ---------------------------------------------------------------- broker and worker

  lemma PublishKeepsPromises(cfg: D.Config, y: Sys, id: nat, mark: nat)
    requires id in y.limbo
    ensures Promised(PublishNext(cfg, y, id), mark) == Promised(y, mark)
  {
    var e := y.limbo[id];
    PublishAddsOne(cfg, y.drain, D.Parsed(e));
    assert EntriesIn([D.Parsed(e)]) == {e} by {
      assert D.Parsed(e) in [D.Parsed(e)] && D.Parsed(e).entry == e;
    }
    LimboMinus(y, PublishNext(cfg, y, id), id);
  }

  lemma PublishKeepsSim(cfg: D.Config, y: Sys, i: Ideal, id: nat, s: SaleId, mark: nat)
    requires Sim(y, i, s, mark) && id in y.limbo && id !in y.replies
    ensures Sim(PublishNext(cfg, y, id), i, s, mark)
  {
    var y' := PublishNext(cfg, y, id);
    PublishKeepsPromises(cfg, y, id, mark);
    SameTablesKeepSim(y, y', i, s, mark);
    SpentKeepsReplies(y, y', i, id, s);
  }

  lemma SameTablesKeepSim(y: Sys, y': Sys, i: Ideal, s: SaleId, mark: nat)
    requires TablesMatch(y, i, s, mark)
    requires y'.db == y.db && Promised(y', mark) == Promised(y, mark)
    requires StockOf(y'.redis, s) == StockOf(y.redis, s) && Members(y'.redis, s) == Members(y.redis, s)
    ensures TablesMatch(y', i, s, mark)
  {
  }

  lemma HandingOverKeepsSim(y: Sys, y': Sys, i: Ideal, s: SaleId, mark: nat)
    requires Sim(y, i, s, mark) && Advances(y.db, y'.db)
    requires AddsPromisedRows(y, y', s, mark) && HandsOver(y, y', s, mark)
    requires y'.redis == y.redis && y'.limbo == y.limbo && y'.replies == y.replies && y'.calls == y.calls
    requires mark <= |y'.drain.channel.dead|
    ensures Sim(y', i, s, mark)
  {
    WriteKeepsTables(y, y', i, s, mark);
  }

  lemma BatchOkWrites(cfg: D.Config, y: Sys, s: SaleId, mark: nat)
    requires D.Inv(cfg, y.drain) && Enabled(cfg, y, BatchOk)
    ensures var y' := Next(cfg, y, BatchOk);
      && AddsPromisedRows(y, y', s, mark) && HandsOver(y, y', s, mark)
      && y'.redis == y.redis && y'.limbo == y.limbo && y'.replies == y.replies && y'.calls == y.calls
      && y'.drain.channel.dead == y.drain.channel.dead
  {
    var y', entries := Next(cfg, y, BatchOk), EntriesOf(y.drain.worker.flushing.batch);
    BatchOkFrame(cfg, y);
    BatchOkMoves(cfg, y.drain);
    CommitAddsPromisedRows(y, entries, y', s, mark);
    BatchHandsOver(y, y', entries, s, mark);
  }

  lemma BatchOkKeepsSim(cfg: D.Config, y: Sys, i: Ideal, s: SaleId, mark: nat)
    requires D.Inv(cfg, y.drain) && Sim(y, i, s, mark) && Enabled(cfg, y, BatchOk)
    requires Advances(y.db, Next(cfg, y, BatchOk).db)
    ensures Sim(Next(cfg, y, BatchOk), i, s, mark)
  {
    BatchOkWrites(cfg, y, s, mark);
    HandingOverKeepsSim(y, Next(cfg, y, BatchOk), i, s, mark);
  }

  lemma BatchHandsOver(y: Sys, y': Sys, entries: seq<Entry>, s: SaleId, mark: nat)
    requires Outstanding(y.drain) == Outstanding(y'.drain) + SetOf(entries)
    requires y'.drain.channel.dead == y.drain.channel.dead && y'.limbo == y.limbo
    requires KeysOf(entries) <= y'.db.purchases.Keys
    ensures HandsOver(y, y', s, mark)
  {
    assert forall e :: e in SetOf(entries) ==> KeyOf(e) in KeysOf(entries);
  }

  lemma StrayCommitKeepsSim(cfg: D.Config, y: Sys, i: Ideal, entries: seq<Entry>, s: SaleId, mark: nat)
    requires Sim(y, i, s, mark) && Enabled(cfg, y, StrayCommit(entries)) && Timely(y, StrayCommit(entries), s, mark)
    requires Advances(y.db, CommitNext(y, entries).db)
    ensures Sim(CommitNext(y, entries), i, s, mark)
  {
    var y' := CommitNext(y, entries);
    CommitAddsPromisedRows(y, entries, y', s, mark);
    HandingOverKeepsSim(y, y', i, s, mark);
  }

  lemma JunkKeepsSim(cfg: D.Config, y: Sys, i: Ideal, s: SaleId, mark: nat)
    requires Sim(y, i, s, mark)
    ensures Sim(Next(cfg, y, Junk), i, s, mark)
  {
    PublishAddsOne(cfg, y.drain, D.Malformed);
    assert EntriesIn([D.Malformed]) == {};
    SameTablesKeepSim(y, Next(cfg, y, Junk), i, s, mark);
  }

  lemma ConsumeKeepsSim(cfg: D.Config, y: Sys, i: Ideal, ev: D.Event, s: SaleId, mark: nat)
    requires D.Inv(cfg, y.drain) && Sim(y, i, s, mark) && WorkerEvent(ev) && D.Enabled(cfg, y.drain, ev)
    ensures Sim(y.(drain := D.Next(cfg, y.drain, ev)), i, s, mark)
  {
    WorkerKeepsSent(cfg, y.drain, ev, mark);
    SameTablesKeepSim(y, y.(drain := D.Next(cfg, y.drain, ev)), i, s, mark);
  }

  lemma UpkeepFrame(cfg: D.Config, y: Sys, l: Label)
    requires Enabled(cfg, y, l) && (l.ReadSale? || l.ExpireRow? || l.WarmSale? || l.DeleteKeys? || l.RedisRestarts?)
    ensures var y' := Next(cfg, y, l); y' == y.(cache := y'.cache, redis := y'.redis)
  {
  }

  lemma UpkeepKeepsSim(cfg: D.Config, y: Sys, i: Ideal, l: Label, s: SaleId, mark: nat)
    requires DriftLaw(y, s) && Sim(y, i, s, mark) && Enabled(cfg, y, l) && Fast(y, l, s, mark)
    requires l.ReadSale? || l.ExpireRow? || l.WarmSale? || l.DeleteKeys? || l.RedisRestarts?
    ensures Sim(Next(cfg, y, l), i, s, mark)
  {
    GateMoves(cfg, y, l, s);
    UpkeepFrame(cfg, y, l);
    SameTablesKeepSim(y, Next(cfg, y, l), i, s, mark);
  }

  lemma RequestKeepsSim(cfg: D.Config, y: Sys, i: Ideal, l: Label, s: SaleId, mark: nat)
    requires TablesOk(y) && CallsOk(y) && InStep(y, s, mark) && Sim(y, i, s, mark)
    requires Enabled(cfg, y, l) && Comparable(y, l, s, mark)
    requires l.Ask? || l.Bypass? || l.PublishOk? || l.Abandon?
    ensures Sim(Next(cfg, y, l), IdealNext(i, y, l), s, mark)
  {
    if l.Ask? {
      AskKeepsSim(y, i, l.saleId, l.email, l.now, s, mark);
    } else if l.Bypass? {
      BypassKeepsSim(y, i, l.saleId, l.email, l.now, l.databaseNow, l.seen, s, mark);
    } else if l.PublishOk? {
      PublishKeepsSim(cfg, y, i, l.id, s, mark);
    } else {
      AbandonKeepsSim(y, i, l.id, s, mark);
    }
  }

  lemma WorkerKeepsSim(cfg: D.Config, y: Sys, i: Ideal, l: Label, s: SaleId, mark: nat)
    requires D.Inv(cfg, y.drain) && Sim(y, i, s, mark) && Enabled(cfg, y, l) && Comparable(y, l, s, mark)
    requires Advances(y.db, Next(cfg, y, l).db)
    requires l.BatchOk? || l.StrayCommit? || l.Junk? || l.Consume?
    ensures Sim(Next(cfg, y, l), i, s, mark)
  {
    if l.BatchOk? {
      BatchOkKeepsSim(cfg, y, i, s, mark);
    } else if l.StrayCommit? {
      StrayCommitKeepsSim(cfg, y, i, l.entries, s, mark);
    } else if l.Junk? {
      JunkKeepsSim(cfg, y, i, s, mark);
    } else {
      ConsumeKeepsSim(cfg, y, i, l.ev, s, mark);
    }
  }

  /** Each comparable step of the pipeline is matched by the reference: by the same request, or by nothing. */
  lemma StepKeepsSim(cfg: D.Config, y: Sys, i: Ideal, l: Label, s: SaleId, mark: nat)
    requires Safe(cfg, y) && InStep(y, s, mark) && Sim(y, i, s, mark)
    requires Enabled(cfg, y, l) && Comparable(y, l, s, mark) && Advances(y.db, Next(cfg, y, l).db)
    ensures Sim(Next(cfg, y, l), IdealNext(i, y, l), s, mark)
  {
    if l.FallBack? {
      FallBackKeepsSim(y, i, l, s, mark);
    } else if l.Ask? || l.Bypass? || l.PublishOk? || l.Abandon? {
      RequestKeepsSim(cfg, y, i, l, s, mark);
    } else if l.BatchOk? || l.StrayCommit? || l.Junk? || l.Consume? {
      WorkerKeepsSim(cfg, y, i, l, s, mark);
    } else {
      UpkeepKeepsSim(cfg, y, i, l, s, mark);
    }
  }

  lemma {:induction false} RunKeepsSim(
    cfg: D.Config, start: Db, y: Sys, i: Ideal, labels: seq<Label>, s: SaleId, mark: nat)
    requires Safe(cfg, y) && Since(start, y) && InStep(y, s, mark) && Sim(y, i, s, mark)
    requires Runs(cfg, y, labels) && ComparableRun(cfg, y, labels, s, mark)
    ensures var y' := After(cfg, y, labels);
      Safe(cfg, y') && InStep(y', s, mark) && Sim(y', IdealAfter(cfg, i, y, labels), s, mark)
    decreases |labels|
  {
    if labels != [] {
      var y', i' := Next(cfg, y, labels[0]), IdealNext(i, y, labels[0]);
      StepKeepsSafe(cfg, start, y, labels[0]);
      InStepIsKept(cfg, start, y, labels[0], s, mark);
      StepKeepsSim(cfg, y, i, labels[0], s, mark);
      RunKeepsSim(cfg, start, y', i', labels[1..], s, mark);
    }
  }

  // ---------------------------------------------------------------- the theorem

  /** Nothing of the sale is on its way, and nothing of it was given up since the dead queue held `mark` messages. */
  ghost predicate Drained(y: Sys, s: SaleId, mark: nat) {
    forall e :: e in Promised(y, mark) ==> e.saleId != s
  }

  function OfSale(entries: set<Entry>, s: SaleId): set<Entry> {
    set e | e in entries && e.saleId == s
  }

  /**
   The sale looks the same in both tables, down to spelling and purchase time of every row, except that `b`
   also holds a row for each entry of `extra`, and has one unit less for each of these buyers.
   */
  ghost predicate SameSaleTablesBut(a: Db, b: Db, s: SaleId, extra: set<Entry>) {
    && s in a.sales && s in b.sales
    && a.sales[s] == b.sales[s].(remainingStock := b.sales[s].remainingStock + |EmailsOf(KeysFor(extra), s)|)
    && (forall k: Key :: k.saleId == s ==> (k in b.purchases <==> k in a.purchases || k in KeysFor(extra)))
    && (forall k :: k in a.purchases && k.saleId == s ==> k !in KeysFor(extra) && a.purchases[k] == b.purchases[k])
    && (forall e :: e in extra ==>
          KeyOf(e) in b.purchases && b.purchases[KeyOf(e)] == Purchase(e.email, e.reservedAt))
  }

  lemma DrainedRowsAgree(y: Sys, i: Ideal, s: SaleId, mark: nat)
    requires RowsMatch(y, i, s, mark) && DroppedForGood(y, i, s, mark) && Drained(y, s, mark)
    ensures var extra := KeysFor(OfSale(i.dropped, s));
      && (forall k: Key :: k.saleId == s ==> (k in i.db.purchases <==> k in y.db.purchases || k in extra))
      && (forall k :: k in y.db.purchases && k.saleId == s ==> k !in extra)
  {
    var extra := KeysFor(OfSale(i.dropped, s));
    forall k: Key | k.saleId == s ensures k in i.db.purchases <==> k in y.db.purchases || k in extra {
      if k in i.db.purchases && k !in y.db.purchases {
        var e :| e in Hand(y, i, mark) && KeyOf(e) == k;
        assert e in OfSale(i.dropped, s);
      }
      if k in extra {
        var e :| e in OfSale(i.dropped, s) && KeyOf(e) == k;
        assert e in Hand(y, i, mark);
      }
    }
  }

  lemma DrainedStockAgrees(y: Sys, i: Ideal, s: SaleId, extra: set<Key>)
    requires DriftLaw(y, s) && GateMatches(y, i, s)
    requires forall k: Key :: k.saleId == s ==> (k in i.db.purchases <==> k in y.db.purchases || k in extra)
    requires forall k :: k in y.db.purchases && k.saleId == s ==> k !in extra
    ensures y.db.sales[s].remainingStock == i.db.sales[s].remainingStock + |EmailsOf(extra, s)|
  {
    assert BuyersOf(i.db, s) == BuyersOf(y.db, s) + EmailsOf(extra, s);
    assert BuyersOf(y.db, s) !! EmailsOf(extra, s);
  }

  lemma DrainedTablesAgree(y: Sys, i: Ideal, s: SaleId, mark: nat)
    requires InStep(y, s, mark) && Sim(y, i, s, mark) && Drained(y, s, mark)
    ensures SameSaleTablesBut(y.db, i.db, s, OfSale(i.dropped, s))
  {
    DrainedRowsAgree(y, i, s, mark);
    DrainedStockAgrees(y, i, s, KeysFor(OfSale(i.dropped, s)));
    assert forall e :: e in OfSale(i.dropped, s) ==> e in Hand(y, i, mark);
  }

  /** What one run with its reference shows for the sale: equal answers, and once drained equal tables but for drops. */
  ghost predicate AgreesWith(y: Sys, ideal: Ideal, s: SaleId, mark: nat) {
    && (forall id :: id in ideal.heard && ideal.heard[id].saleId == s ==>
          ideal.heard[id].reply == if id in y.replies then y.replies[id] else Answer(Success))
    && (Drained(y, s, mark) ==> SameSaleTablesBut(y.db, ideal.db, s, OfSale(ideal.dropped, s)))
  }

  lemma SimMeansAgreement(y: Sys, i: Ideal, s: SaleId, mark: nat)
    requires InStep(y, s, mark) && Sim(y, i, s, mark)
    ensures AgreesWith(y, i, s, mark)
  {
    if Drained(y, s, mark) {
      DrainedTablesAgree(y, i, s, mark);
    }
  }

  /**
   The fast path refines the Postgres-only path. Take any run of the system up to a warm of the sale at
   quiescence, and from there any comparable interleaving of requests, publishes, fallbacks, deliveries,
   retries, crashes, redeliveries, commits with lost or late outcome, lost answers, dropped reservations, and
   traffic on other sales. Every call for the sale that has been answered since got the answer `recordPurchase`
   gives when the same calls are made one after the other on the tables alone; every other one is a reservation
   whose answer there is success; and whenever nothing of the sale is on its way, both tables show the same
   rows and stock, except for one row and one unit per reservation its caller dropped.
   */
  lemma FastPathRefinesPostgresOnly(cfg: D.Config, db: Db, before: seq<Label>, labels: seq<Label>, s: SaleId)
    requires SchemaHolds(db) && Runs(cfg, Boot(db), before) && JustWarmed(After(cfg, Boot(db), before), s)
    requires Runs(cfg, After(cfg, Boot(db), before), labels)
    requires var y := After(cfg, Boot(db), before); ComparableRun(cfg, y, labels, s, |y.drain.channel.dead|)
    ensures var y := After(cfg, Boot(db), before);
      AgreesWith(After(cfg, y, labels), IdealAfter(cfg, Ideal(y.db, map[], {}), y, labels), s, |y.drain.channel.dead|)
  {
    var y := After(cfg, Boot(db), before);
    var mark, reference := |y.drain.channel.dead|, Ideal(y.db, map[], {});
    BootIsSafe(cfg, db);
    RunKeepsSafe(cfg, db, Boot(db), before);
    JustWarmedSimulates(y, s);
    RunKeepsSim(cfg, db, y, reference, labels, s, mark);
    SimMeansAgreement(After(cfg, y, labels), IdealAfter(cfg, reference, y, labels), s, mark);
  }
}
