/**
 Why the fast path may promise stock it has not written yet: the drift law between the stores, the backing
 of every promise, how long a sale keeps it, and what it gives the worker and the fallback.
 */
module SystemFast {
  import opened Prelude
  import opened Emails
  import opened Store
  import opened StoreTheorems
  import opened Gate
  import opened System
  import opened SystemSafety
  import D = Drain

  // ---------------------------------------------------------------- drift law

  /** What the gate may still give plus whom it knows equals what the table holds plus whom it sold to. */
  ghost predicate DriftLaw(y: Sys, s: SaleId) {
    && s in y.db.sales
    && s in y.redis.stock && y.redis.stock[s].Some?
    && StockOf(y.redis, s) >= 0
    && StockOf(y.redis, s) + |Members(y.redis, s)| == Units(y.db, s)
  }

  /** Neither re-warmed nor swept, even in part, and no restart of Redis. */
  predicate KeepsKeys(l: Label, s: SaleId) {
    && !l.RedisRestarts?
    && (l.WarmSale? ==> l.saleId != s)
    && (l.DeleteKeys? ==> StockKey(s) !in l.keys && MetaKey(s) !in l.keys && BuyersKey(s) !in l.keys)
  }

  /** How one step can change the gate's view of a sale whose keys are kept: not at all, or by one reservation. */
  lemma GateMoves(cfg: D.Config, y: Sys, l: Label, s: SaleId)
    requires Enabled(cfg, y, l) && KeepsKeys(l, s)
    ensures var r, r' := y.redis, Next(cfg, y, l).redis;
      && (s in r.stock <==> s in r'.stock) && (s in r.meta <==> s in r'.meta)
      && (s in r.meta ==> r'.meta[s] == r.meta[s])
      && if l.Ask? && l.saleId == s && Decide(r, s, NormalizeEmail(l.email), l.now) == Reserved
         then r' == Take(r, s, NormalizeEmail(l.email))
         else (s in r.stock ==> r'.stock[s] == r.stock[s]) && Members(r', s) == Members(r, s)
  {
  }

  /**
   Drift law: from a warm until the keys are next replaced or removed, no step changes
   stock + |buyers| on either side, not even a purchase that bypasses Redis.
   */
  lemma DriftLawIsKept(cfg: D.Config, y: Sys, l: Label, s: SaleId)
    requires DriftLaw(y, s) && Enabled(cfg, y, l) && KeepsKeys(l, s)
    requires Advances(y.db, Next(cfg, y, l).db)
    ensures DriftLaw(Next(cfg, y, l), s)
  {
    GateMoves(cfg, y, l, s);
    assert Units(Next(cfg, y, l).db, s) == Units(y.db, s);
  }

  /** Over any run, bypassing purchases, crashes and dead letters included. */
  lemma {:induction false} DriftLawOverRuns(cfg: D.Config, start: Db, y: Sys, labels: seq<Label>, s: SaleId)
    requires Safe(cfg, y) && Since(start, y) && DriftLaw(y, s) && Runs(cfg, y, labels)
    requires forall l :: l in labels ==> KeepsKeys(l, s)
    ensures DriftLaw(After(cfg, y, labels), s)
    decreases |labels|
  {
    if labels != [] {
      assert labels[0] in labels && forall l :: l in labels[1..] ==> l in labels;
      StepKeepsSafe(cfg, start, y, labels[0]);
      DriftLawIsKept(cfg, y, labels[0], s);
      DriftLawOverRuns(cfg, start, Next(cfg, y, labels[0]), labels[1..], s);
    }
  }

  lemma DemandIsGrowth(db: Db, entries: seq<Entry>, s: SaleId)
    ensures Demand(db, entries, s) == |BuyersOf(db, s) + EmailsOf(KeysOf(entries), s)| - |BuyersOf(db, s)|
  {
    EmailsOfUnion(KeysOf(entries), db.purchases.Keys, s);
    assert BuyersOf(db, s) + EmailsOf(KeysOf(entries), s) == BuyersOf(db, s) + EmailsOf(NewKeys(db, entries), s);
    assert BuyersOf(db, s) !! EmailsOf(NewKeys(db, entries), s);
  }

  /** The units the gate accounts for cover everyone the table or the batch sells to. */
  ghost predicate Covered(y: Sys, entries: seq<Entry>, s: SaleId) {
    |BuyersOf(y.db, s) + EmailsOf(KeysOf(entries), s)| <= StockOf(y.redis, s) + |Members(y.redis, s)|
  }

  lemma CoveredIffAffordable(y: Sys, entries: seq<Entry>, s: SaleId)
    requires DriftLaw(y, s)
    ensures Covered(y, entries, s) <==> Demand(y.db, entries, s) <= y.db.sales[s].remainingStock
  {
    DemandIsGrowth(y.db, entries, s);
  }

  lemma KnownBuyersAreCovered(y: Sys, entries: seq<Entry>, s: SaleId)
    requires DriftLaw(y, s) && BuyersOf(y.db, s) + EmailsOf(KeysOf(entries), s) <= Members(y.redis, s)
    ensures Covered(y, entries, s)
  {
    SubsetSize(BuyersOf(y.db, s) + EmailsOf(KeysOf(entries), s), Members(y.redis, s));
  }

  /**
   Exactly when the batch guard rejects: while the drift law holds for the sales of a batch, whatever mix of
   sales that is, the batch commits if and only if each of them is covered. Only buyers the gate never saw
   can tip the balance.
   */
  lemma GuardAcceptsIff(y: Sys, entries: seq<Entry>)
    requires SchemaHolds(y.db)
    requires forall e :: e in entries ==> DriftLaw(y, e.saleId) && Lawful(y.db.sales, e)
    ensures WriteBatch(y.db, entries).Committed? <==> forall e :: e in entries ==> Covered(y, entries, e.saleId)
    ensures (forall e :: e in entries ==>
               BuyersOf(y.db, e.saleId) + EmailsOf(KeysOf(entries), e.saleId) <= Members(y.redis, e.saleId))
            ==> WriteBatch(y.db, entries).Committed?
  {
    BatchCommitsIff(y.db, entries);
    forall e | e in entries
      ensures Covered(y, entries, e.saleId) <==> Demand(y.db, entries, e.saleId) <= y.db.sales[e.saleId].remainingStock
      ensures BuyersOf(y.db, e.saleId) + EmailsOf(KeysOf(entries), e.saleId) <= Members(y.redis, e.saleId)
              ==> Covered(y, entries, e.saleId) {
      CoveredIffAffordable(y, entries, e.saleId);
      if BuyersOf(y.db, e.saleId) + EmailsOf(KeysOf(entries), e.saleId) <= Members(y.redis, e.saleId) {
        KnownBuyersAreCovered(y, entries, e.saleId);
      }
    }
    OnlyDemandedSalesMatter(y.db, entries);
  }

  lemma OnlyDemandedSalesMatter(db: Db, entries: seq<Entry>)
    requires SchemaHolds(db) && forall e :: e in entries ==> e.saleId in db.sales
    ensures Affordable(db, entries) <==>
            forall e :: e in entries ==> Demand(db, entries, e.saleId) <= db.sales[e.saleId].remainingStock
  {
    forall s | s in db.sales && forall e :: e in entries ==> e.saleId != s
      ensures Demand(db, entries, s) <= db.sales[s].remainingStock {
      NoEntriesNoDemand(db, entries, s);
      assert SaleChecks(db.sales[s]);
    }
  }

  // ---------------------------------------------------------------- backing

  /** Buyers of `s` that were promised a unit the table has not given up yet. */
  function Owed(y: Sys, s: SaleId, mark: nat): set<string> {
    EmailsOf(KeysFor(Promised(y, mark)) - y.db.purchases.Keys, s)
  }

  /**
   Every unit the gate may still give and every unit already promised is there in the table. Messages
   dead-lettered since `mark` count as promised, because their transaction may still commit.
   */
  ghost predicate Backed(y: Sys, s: SaleId, mark: nat) {
    && mark <= |y.drain.channel.dead|
    && s in y.db.sales
    && StockOf(y.redis, s) >= 0
    && StockOf(y.redis, s) + |Owed(y, s, mark)| <= y.db.sales[s].remainingStock
  }

  /** A late commit writes nothing for `s` but what is promised since `mark` or already there. */
  predicate Timely(y: Sys, l: Label, s: SaleId, mark: nat) {
    l.StrayCommit? ==>
      forall e :: e in l.entries && e.saleId == s ==> e in Sent(y.drain, mark) || KeyOf(e) in y.db.purchases
  }

  /**
   Not warmed, no request for `s` goes round the gate, no restart of Redis, and no message given up before
   `mark` commits after all. Sweeping keys, wholly or in part, is allowed.
   */
  predicate Gated(y: Sys, l: Label, s: SaleId, mark: nat) {
    !l.RedisRestarts? && ((l.WarmSale? || l.Bypass?) ==> l.saleId != s) && Timely(y, l, s, mark)
  }

  lemma OwedShrinks(y: Sys, y': Sys, s: SaleId, mark: nat, mark': nat, written: set<Key>)
    requires Promised(y', mark') <= Promised(y, mark)
    requires y.db.purchases.Keys + written <= y'.db.purchases.Keys
    ensures Owed(y', s, mark') <= Owed(y, s, mark) - EmailsOf(written, s)
  {
    KeysForGrow(Promised(y', mark'), Promised(y, mark));
  }

  lemma BackedAfterWriting(y: Sys, y': Sys, s: SaleId, mark: nat, written: set<Key>, spent: set<string>)
    requires Backed(y, s, mark) && s in y'.db.sales && mark <= |y'.drain.channel.dead|
    requires spent <= Owed(y, s, mark) && spent <= EmailsOf(written, s)
    requires Promised(y', mark) <= Promised(y, mark) && y.db.purchases.Keys + written <= y'.db.purchases.Keys
    requires y'.db.sales[s].remainingStock == y.db.sales[s].remainingStock - |spent|
    requires 0 <= StockOf(y'.redis, s) <= StockOf(y.redis, s)
    ensures Backed(y', s, mark)
  {
    OwedShrinks(y, y', s, mark, mark, written);
    SubsetSize(spent, Owed(y, s, mark));
    SubsetSize(Owed(y', s, mark), Owed(y, s, mark) - spent);
  }

  /** Forgetting dead letters only makes backing easier. */
  lemma MarkMayMove(y: Sys, s: SaleId, mark: nat, later: nat)
    requires Backed(y, s, mark) && mark <= later <= |y.drain.channel.dead|
    ensures Backed(y, s, later)
  {
    var dead := y.drain.channel.dead;
    assert dead[mark..] == dead[mark..later] + dead[later..];
    EntriesInConcat(dead[mark..later], dead[later..]);
    OwedShrinks(y, y, s, mark, later, {});
    SubsetSize(Owed(y, s, later), Owed(y, s, mark));
  }

  lemma OneMorePromise(y: Sys, y': Sys, e: Entry, s: SaleId, mark: nat)
    requires Promised(y', mark) <= Promised(y, mark) + {e} && y'.db == y.db
    ensures Owed(y', s, mark) <= if e.saleId == s then Owed(y, s, mark) + {KeyOf(e).email} else Owed(y, s, mark)
  {
    forall email | email in Owed(y', s, mark) ensures email in Owed(y, s, mark) || Key(s, email) == KeyOf(e) {
      var p :| p in Promised(y', mark) && KeyOf(p) == Key(s, email);
    }
  }

  lemma ReservationKeepsBacked(y: Sys, y': Sys, e: Entry, s: SaleId, mark: nat)
    requires Backed(y, s, mark) && y'.db == y.db && Promised(y', mark) <= Promised(y, mark) + {e}
    requires mark <= |y'.drain.channel.dead|
    requires StockOf(y'.redis, s) == StockOf(y.redis, s) - if e.saleId == s then 1 else 0
    requires StockOf(y'.redis, s) >= 0
    ensures Backed(y', s, mark)
  {
    OneMorePromise(y, y', e, s, mark);
    SubsetSize(Owed(y', s, mark), if e.saleId == s then Owed(y, s, mark) + {KeyOf(e).email} else Owed(y, s, mark));
  }

  lemma AskKeepsBacked(y: Sys, s: SaleId, email: string, now: int, t: SaleId, mark: nat)
    requires Backed(y, t, mark)
    ensures Backed(AskNext(y, s, email, now), t, mark)
  {
    var y', e := AskNext(y, s, email, now), Entry(s, email, now);
    if Decide(y.redis, s, NormalizeEmail(email), now) == Reserved {
      assert y'.limbo.Values <= y.limbo.Values + {e};
      ReservationKeepsBacked(y, y', e, t, mark);
    } else {
      FrameKeepsBacked(y, y', t, mark);
    }
  }

  lemma FallBackKeepsBacked(y: Sys, id: nat, databaseNow: int, seen: bool, s: SaleId, mark: nat)
    requires Backed(y, s, mark) && id in y.limbo
    ensures Backed(FallBackNext(y, id, databaseNow, seen), s, mark)
  {
    var y', e := FallBackNext(y, id, databaseNow, seen), y.limbo[id];
    var r := WriteOne(y.db, e.saleId, e.email, databaseNow);
    WriteOneAddsOneKey(y.db, e.saleId, e.email, databaseNow);
    assert y'.limbo.Values <= y.limbo.Values;
    if r.Answered? && r.outcome == Success && e.saleId == s {
      assert e in Promised(y, mark);
      assert Key(s, KeyOf(e).email) == KeyOf(e);
      BackedAfterWriting(y, y', s, mark, {KeyOf(e)}, {KeyOf(e).email});
    } else {
      BackedAfterWriting(y, y', s, mark, {}, {});
    }
  }

  lemma CommitKeepsBacked(y: Sys, entries: seq<Entry>, y': Sys, s: SaleId, mark: nat)
    requires Backed(y, s, mark) && WriteBatch(y.db, entries).Committed? && Timely(y, StrayCommit(entries), s, mark)
    requires y'.db == WriteBatch(y.db, entries).db && y'.redis == y.redis && Promised(y', mark) <= Promised(y, mark)
    requires mark <= |y'.drain.channel.dead|
    ensures Backed(y', s, mark)
  {
    CommittedBatchAbsorbs(y.db, entries);
    var new_ := NewKeys(y.db, entries);
    forall email | email in EmailsOf(new_, s) ensures email in Owed(y, s, mark) {
      var e :| e in entries && KeyOf(e) == Key(s, email);
      assert e in Promised(y, mark);
    }
    BackedAfterWriting(y, y', s, mark, new_, EmailsOf(new_, s));
  }

  lemma BypassKeepsOthersBacked(
    y: Sys, t: SaleId, email: string, now: int, databaseNow: int, seen: bool, s: SaleId, mark: nat)
    requires Backed(y, s, mark) && s != t
    ensures Backed(BypassNext(y, t, email, now, databaseNow, seen), s, mark)
  {
    BypassIsOneWrite(y, t, email, now, databaseNow, seen);
    WriteOneAddsOneKey(y.db, t, email, databaseNow);
    BackedAfterWriting(y, BypassNext(y, t, email, now, databaseNow, seen), s, mark, {}, {});
  }

  lemma BrokerStepKeepsBacked(cfg: D.Config, y: Sys, l: Label, s: SaleId, mark: nat)
    requires Backed(y, s, mark) && Enabled(cfg, y, l) && (l.PublishOk? || l.Junk?)
    ensures Backed(Next(cfg, y, l), s, mark)
  {
    PublishAddsOne(cfg, y.drain, if l.Junk? then D.Malformed else D.Parsed(y.limbo[l.id]));
    BackedAfterWriting(y, Next(cfg, y, l), s, mark, {}, {});
  }

  lemma ConsumeKeepsBacked(cfg: D.Config, y: Sys, ev: D.Event, s: SaleId, mark: nat)
    requires D.Inv(cfg, y.drain) && Backed(y, s, mark) && WorkerEvent(ev) && D.Enabled(cfg, y.drain, ev)
    ensures Backed(y.(drain := D.Next(cfg, y.drain, ev)), s, mark)
  {
    WorkerKeepsSent(cfg, y.drain, ev, mark);
    BackedAfterWriting(y, y.(drain := D.Next(cfg, y.drain, ev)), s, mark, {}, {});
  }

  lemma BatchOkKeepsBacked(cfg: D.Config, y: Sys, s: SaleId, mark: nat)
    requires D.Inv(cfg, y.drain) && Backed(y, s, mark) && Enabled(cfg, y, BatchOk)
    ensures Backed(Next(cfg, y, BatchOk), s, mark)
  {
    BatchOkFrame(cfg, y);
    BatchOkMoves(cfg, y.drain);
    CommitKeepsBacked(y, EntriesOf(y.drain.worker.flushing.batch), Next(cfg, y, BatchOk), s, mark);
  }

  lemma FrameKeepsBacked(y: Sys, y': Sys, s: SaleId, mark: nat)
    requires Backed(y, s, mark) && y'.db == y.db && y'.drain == y.drain && y'.limbo.Values <= y.limbo.Values
    requires 0 <= StockOf(y'.redis, s) <= StockOf(y.redis, s)
    ensures Backed(y', s, mark)
  {
    BackedAfterWriting(y, y', s, mark, {}, {});
  }

  lemma RequestKeepsBacked(cfg: D.Config, y: Sys, l: Label, s: SaleId, mark: nat)
    requires Backed(y, s, mark) && Enabled(cfg, y, l) && Gated(y, l, s, mark)
    requires l.Ask? || l.FallBack? || l.Bypass? || l.Abandon?
    ensures Backed(Next(cfg, y, l), s, mark)
  {
    if l.Ask? {
      AskKeepsBacked(y, l.saleId, l.email, l.now, s, mark);
    } else if l.FallBack? {
      FallBackKeepsBacked(y, l.id, l.databaseNow, l.seen, s, mark);
    } else if l.Bypass? {
      BypassKeepsOthersBacked(y, l.saleId, l.email, l.now, l.databaseNow, l.seen, s, mark);
    } else {
      FrameKeepsBacked(y, Next(cfg, y, l), s, mark);
    }
  }

  lemma WorkerKeepsBacked(cfg: D.Config, y: Sys, l: Label, s: SaleId, mark: nat)
    requires D.Inv(cfg, y.drain) && Backed(y, s, mark) && Enabled(cfg, y, l) && Gated(y, l, s, mark)
    requires l.StrayCommit? || l.Consume? || l.BatchOk?
    ensures Backed(Next(cfg, y, l), s, mark)
  {
    if l.StrayCommit? {
      CommitKeepsBacked(y, l.entries, CommitNext(y, l.entries), s, mark);
    } else if l.Consume? {
      ConsumeKeepsBacked(cfg, y, l.ev, s, mark);
    } else {
      BatchOkKeepsBacked(cfg, y, s, mark);
    }
  }

  /**
   Reservation backing: without a bypass, stock left in Redis plus buyers promised but unwritten never
   exceeds the stock left in Postgres. It survives leaked reservations, dead letters, crashes, commits that
   land after their message was given up, and a sweep that has removed only some of the sale's keys.
   */
  lemma BackingIsKept(cfg: D.Config, y: Sys, l: Label, s: SaleId, mark: nat)
    requires D.Inv(cfg, y.drain) && Backed(y, s, mark) && Enabled(cfg, y, l) && Gated(y, l, s, mark)
    ensures Backed(Next(cfg, y, l), s, mark)
  {
    if l.Ask? || l.FallBack? || l.Bypass? || l.Abandon? {
      RequestKeepsBacked(cfg, y, l, s, mark);
    } else if l.PublishOk? || l.Junk? {
      BrokerStepKeepsBacked(cfg, y, l, s, mark);
    } else if l.StrayCommit? || l.Consume? || l.BatchOk? {
      WorkerKeepsBacked(cfg, y, l, s, mark);
    } else {
      FrameKeepsBacked(y, Next(cfg, y, l), s, mark);
    }
  }

  // ---------------------------------------------------------------- a gate that knows every buyer

  /** Under the drift law, the gate knows everyone the table or a promise knows. */
  ghost predicate Known(y: Sys, s: SaleId, mark: nat) {
    && mark <= |y.drain.channel.dead|
    && DriftLaw(y, s)
    && BuyersOf(y.db, s) <= Members(y.redis, s)
    && EmailsOf(KeysFor(Promised(y, mark)), s) <= Members(y.redis, s)
  }

  lemma KnownIsBacked(y: Sys, s: SaleId, mark: nat)
    requires Known(y, s, mark)
    ensures Backed(y, s, mark)
  {
    var buyers, members := BuyersOf(y.db, s), Members(y.redis, s);
    assert Owed(y, s, mark) <= members - buyers;
    SubsetSize(Owed(y, s, mark), members - buyers);
    SubsetSize(buyers, members);
  }

  /** A request that goes round a knowing gate for a buyer the gate has counted already: a lost reply, for one. */
  ghost predicate RepeatBypass(y: Sys, l: Label, s: SaleId, mark: nat) {
    && l.Bypass? && l.saleId == s
    && Known(y, s, mark)
    && NormalizeEmail(l.email) in Members(y.redis, s)
  }

  lemma BypassAddsOneBuyer(
    y: Sys, s: SaleId, email: string, now: int, databaseNow: int, seen: bool)
    ensures var y' := BypassNext(y, s, email, now, databaseNow, seen);
      && BuyersOf(y'.db, s) <= BuyersOf(y.db, s) + {NormalizeEmail(email)}
      && y'.redis == y.redis && y'.drain == y.drain && y'.limbo == y.limbo
  {
    BypassIsOneWrite(y, s, email, now, databaseNow, seen);
    WriteOneAddsOneKey(y.db, s, email, databaseNow);
  }

  lemma KnownAfterBypass(y: Sys, y': Sys, s: SaleId, email: string, mark: nat)
    requires Known(y, s, mark) && DriftLaw(y', s) && email in Members(y.redis, s)
    requires BuyersOf(y'.db, s) <= BuyersOf(y.db, s) + {email}
    requires y'.redis == y.redis && y'.drain == y.drain && y'.limbo == y.limbo
    ensures Known(y', s, mark)
  {
    assert Promised(y', mark) == Promised(y, mark);
  }

  lemma RepeatBypassKeepsKnown(cfg: D.Config, y: Sys, l: Label, s: SaleId, mark: nat)
    requires RepeatBypass(y, l, s, mark) && Enabled(cfg, y, l) && Advances(y.db, Next(cfg, y, l).db)
    ensures Known(Next(cfg, y, l), s, mark)
  {
    DriftLawIsKept(cfg, y, l, s);
    BypassAddsOneBuyer(y, s, l.email, l.now, l.databaseNow, l.seen);
    KnownAfterBypass(y, Next(cfg, y, l), s, NormalizeEmail(l.email), mark);
  }

  // ---------------------------------------------------------------- standing over runs

  /**
   Nothing of the sale is on its way, and the gate holds no more of it than the table: a cold sale at rest, or a
   warm at quiescence.
   */
  ghost predicate Clear(y: Sys, s: SaleId) {
    && s in y.db.sales
    && 0 <= StockOf(y.redis, s) <= y.db.sales[s].remainingStock
    && (forall e :: e in Promised(y, |y.drain.channel.dead|) ==> e.saleId != s)
  }

  lemma ClearIsBacked(y: Sys, s: SaleId)
    requires Clear(y, s)
    ensures Backed(y, s, |y.drain.channel.dead|)
  {
    assert Owed(y, s, |y.drain.channel.dead|) == {};
  }

  /**
   Whether the backing of a sale can be relied on, and since which mark of the dead queue. A warm, a restart of
   Redis, or a request that goes round the gate costs a sale its standing, unless the gate knows all buyers and
   has counted this one already; the next clear state gives it back.
   */
  ghost function StandingAfter(cfg: D.Config, y: Sys, l: Label, s: SaleId, standing: Option<nat>): Option<nat>
    requires Enabled(cfg, y, l)
  {
    var y' := Next(cfg, y, l);
    if standing.Some? && (Gated(y, l, s, standing.value) || RepeatBypass(y, l, s, standing.value)) then standing
    else if Clear(y', s) then Some(|y'.drain.channel.dead|)
    else None
  }

  ghost function Standing(cfg: D.Config, y: Sys, labels: seq<Label>, s: SaleId, standing: Option<nat>): Option<nat>
    requires Runs(cfg, y, labels)
    decreases |labels|
  {
    if labels == [] then standing
    else Standing(cfg, Next(cfg, y, labels[0]), labels[1..], s, StandingAfter(cfg, y, labels[0], s, standing))
  }

  lemma StepKeepsStanding(cfg: D.Config, y: Sys, l: Label, s: SaleId, standing: Option<nat>)
    requires D.Inv(cfg, y.drain) && Enabled(cfg, y, l) && Advances(y.db, Next(cfg, y, l).db)
    requires standing.Some? ==> Backed(y, s, standing.value)
    ensures var standing' := StandingAfter(cfg, y, l, s, standing);
      standing'.Some? ==> Backed(Next(cfg, y, l), s, standing'.value)
  {
    if standing.Some? && Gated(y, l, s, standing.value) {
      BackingIsKept(cfg, y, l, s, standing.value);
    } else if standing.Some? && RepeatBypass(y, l, s, standing.value) {
      RepeatBypassKeepsKnown(cfg, y, l, s, standing.value);
      KnownIsBacked(Next(cfg, y, l), s, standing.value);
    } else if Clear(Next(cfg, y, l), s) {
      ClearIsBacked(Next(cfg, y, l), s);
    }
  }

  /** Backing over every run: at each point, a sale with standing is backed. */
  lemma {:induction false} BackingIsKeptOverRuns(
    cfg: D.Config, start: Db, y: Sys, labels: seq<Label>, s: SaleId, standing: Option<nat>)
    requires Safe(cfg, y) && Since(start, y) && Runs(cfg, y, labels)
    requires standing.Some? ==> Backed(y, s, standing.value)
    ensures var standing' := Standing(cfg, y, labels, s, standing);
      standing'.Some? ==> Backed(After(cfg, y, labels), s, standing'.value)
    decreases |labels|
  {
    if labels != [] {
      StepKeepsSafe(cfg, start, y, labels[0]);
      StepKeepsStanding(cfg, y, labels[0], s, standing);
      BackingIsKeptOverRuns(
        cfg, start, Next(cfg, y, labels[0]), labels[1..], s, StandingAfter(cfg, y, labels[0], s, standing));
    }
  }

  /** As long as a sale is only ever reached through the gate, its standing is never in doubt. */
  lemma {:induction false} GatedRunsKeepStanding(cfg: D.Config, y: Sys, labels: seq<Label>, s: SaleId, mark: nat)
    requires Runs(cfg, y, labels) && GatedRun(cfg, y, labels, s, mark)
    ensures Standing(cfg, y, labels, s, Some(mark)) == Some(mark)
    decreases |labels|
  {
    if labels != [] {
      GatedRunsKeepStanding(cfg, Next(cfg, y, labels[0]), labels[1..], s, mark);
    }
  }

  predicate GatedRun(cfg: D.Config, y: Sys, labels: seq<Label>, s: SaleId, mark: nat)
    requires Runs(cfg, y, labels)
    decreases |labels|
  {
    labels != [] ==>
      Gated(y, labels[0], s, mark) && GatedRun(cfg, Next(cfg, y, labels[0]), labels[1..], s, mark)
  }

  /** The standing of a sale on a run from a cold start, where every sale has it. */
  ghost function StandingOf(cfg: D.Config, db: Db, labels: seq<Label>, s: SaleId): Option<nat>
    requires Runs(cfg, Boot(db), labels)
  {
    Standing(cfg, Boot(db), labels, s, if s in db.sales then Some(0) else None)
  }

  lemma BootIsBacked(db: Db, s: SaleId)
    requires SchemaHolds(db) && s in db.sales
    ensures Backed(Boot(db), s, 0)
  {
    assert SaleChecks(db.sales[s]);
    assert D.Bodies([]) == [];
    assert Owed(Boot(db), s, 0) == {};
  }

  lemma StandingIsBacked(cfg: D.Config, db: Db, labels: seq<Label>, s: SaleId)
    requires SchemaHolds(db) && Runs(cfg, Boot(db), labels)
    ensures Safe(cfg, After(cfg, Boot(db), labels)) && Since(db, After(cfg, Boot(db), labels))
    ensures StandingOf(cfg, db, labels, s).Some? ==>
            Backed(After(cfg, Boot(db), labels), s, StandingOf(cfg, db, labels, s).value)
  {
    BootIsSafe(cfg, db);
    RunKeepsSafe(cfg, db, Boot(db), labels);
    if s in db.sales {
      BootIsBacked(db, s);
    }
    BackingIsKeptOverRuns(cfg, db, Boot(db), labels, s, if s in db.sales then Some(0) else None);
  }

  // ---------------------------------------------------------------- what backing gives the worker

  lemma PromisedDemandIsOwed(y: Sys, entries: seq<Entry>, s: SaleId, mark: nat)
    requires forall e :: e in entries && e.saleId == s ==> e in Promised(y, mark)
    ensures Demand(y.db, entries, s) <= |Owed(y, s, mark)|
  {
    forall email | email in EmailsOf(NewKeys(y.db, entries), s) ensures email in Owed(y, s, mark) {
      var e :| e in entries && KeyOf(e) == Key(s, email);
      assert e in Promised(y, mark);
    }
    SubsetSize(EmailsOf(NewKeys(y.db, entries), s), Owed(y, s, mark));
  }

  lemma PromisedIsLawful(y: Sys, e: Entry, mark: nat)
    requires EntriesOk(y) && Accounted(y) && e in Promised(y, mark)
    ensures Lawful(y.db.sales, e)
  {
    var dead := y.drain.channel.dead;
    if e in DeadSince(y.drain, mark) {
      assert dead == dead[..mark] + dead[mark..];
      EntriesInConcat(dead[..mark], dead[mark..]);
      assert e in y.published;
    }
  }

  /** The sale of each entry is backed, since a mark from which on the entry is promised. */
  ghost predicate EachBacked(y: Sys, entries: seq<Entry>, marks: map<SaleId, nat>) {
    forall e :: e in entries ==>
      e.saleId in marks && e in Promised(y, marks[e.saleId]) && Backed(y, e.saleId, marks[e.saleId])
  }

  lemma BackedBatchIsAffordable(y: Sys, entries: seq<Entry>, marks: map<SaleId, nat>)
    requires SchemaHolds(y.db) && EachBacked(y, entries, marks)
    ensures Affordable(y.db, entries)
  {
    forall e | e in entries ensures Demand(y.db, entries, e.saleId) <= y.db.sales[e.saleId].remainingStock {
      PromisedDemandIsOwed(y, entries, e.saleId, marks[e.saleId]);
    }
    OnlyDemandedSalesMatter(y.db, entries);
  }

  /**
   "Redis already guaranteed this stock": while the sales of a batch are backed, any batch of promised
   entries commits, given-up messages included; the guard's throw is unreachable and only infrastructure
   can dead-letter it.
   */
  lemma BackedBatchCommits(y: Sys, entries: seq<Entry>, marks: map<SaleId, nat>)
    requires Books(y) && EachBacked(y, entries, marks)
    ensures WriteBatch(y.db, entries).Committed?
  {
    BackedBatchIsAffordable(y, entries, marks);
    forall e | e in entries ensures Lawful(y.db.sales, e) {
      PromisedIsLawful(y, e, marks[e.saleId]);
    }
    BatchCommitsIff(y.db, entries);
  }

  /** Every batch of promised entries of the sale could be written now. */
  ghost predicate PromisesCanCommit(y: Sys, s: SaleId, mark: nat) {
    forall entries: seq<Entry> :: (forall e :: e in entries ==> e.saleId == s && e in Promised(y, mark)) ==>
      WriteBatch(y.db, entries).Committed?
  }

  lemma {:induction false} SomeOrder<T>(xs: set<T>) returns (order: seq<T>)
    ensures SetOf(order) == xs
  {
    if xs == {} {
      order := [];
    } else {
      var x :| x in xs;
      var rest := SomeOrder(xs - {x});
      order := [x] + rest;
      assert forall y :: y in order <==> y == x || y in rest;
      assert forall y :: y in rest <==> y in SetOf(rest);
    }
  }

  lemma PromisedBatchCommitsIffAffordable(y: Sys, entries: seq<Entry>, s: SaleId, mark: nat)
    requires Books(y) && s in y.db.sales && forall e :: e in entries ==> e.saleId == s && e in Promised(y, mark)
    ensures WriteBatch(y.db, entries).Committed? <==> Demand(y.db, entries, s) <= y.db.sales[s].remainingStock
  {
    forall e | e in entries ensures Lawful(y.db.sales, e) {
      PromisedIsLawful(y, e, mark);
    }
    BatchCommitsIff(y.db, entries);
    OnlyDemandedSalesMatter(y.db, entries);
    if entries == [] {
      EmptyBatchDemandsNothing(y.db, s);
      assert SaleChecks(y.db.sales[s]);
    } else {
      assert entries[0] in entries;
    }
  }

  lemma AllPromisesDemandAllOwed(y: Sys, s: SaleId, mark: nat) returns (entries: seq<Entry>)
    ensures forall e :: e in entries ==> e.saleId == s && e in Promised(y, mark)
    ensures EmailsOf(NewKeys(y.db, entries), s) == Owed(y, s, mark)
  {
    var promises := set e | e in Promised(y, mark) && e.saleId == s;
    entries := SomeOrder(promises);
    assert forall e :: e in entries <==> e in SetOf(entries);
    assert forall e :: e in entries ==> e in promises;
    forall email | email in Owed(y, s, mark) ensures email in EmailsOf(NewKeys(y.db, entries), s) {
      var e :| e in Promised(y, mark) && KeyOf(e) == Key(s, email);
      assert e in promises;
    }
    forall email | email in EmailsOf(NewKeys(y.db, entries), s) ensures email in Owed(y, s, mark) {
      var e :| e in entries && KeyOf(e) == Key(s, email);
      assert e in promises;
    }
  }

  /**
   Exactly when promises can be kept, in every reachable state and whatever Redis holds: all batches of a sale's
   promised entries can commit if and only if its buyers still owed a unit do not outnumber the table's stock.
   */
  lemma PromisesCanCommitIff(y: Sys, s: SaleId, mark: nat)
    requires Books(y) && s in y.db.sales
    ensures PromisesCanCommit(y, s, mark) <==> |Owed(y, s, mark)| <= y.db.sales[s].remainingStock
  {
    var all := AllPromisesDemandAllOwed(y, s, mark);
    PromisedBatchCommitsIffAffordable(y, all, s, mark);
    if |Owed(y, s, mark)| <= y.db.sales[s].remainingStock {
      forall entries: seq<Entry> | forall e :: e in entries ==> e.saleId == s && e in Promised(y, mark)
        ensures WriteBatch(y.db, entries).Committed? {
        PromisedDemandIsOwed(y, entries, s, mark);
        PromisedBatchCommitsIffAffordable(y, entries, s, mark);
      }
    }
  }

  /** The stock guard, the worker's only data-dependent throw, is what a starved sale runs into. */
  ghost predicate Starved(y: Sys, b: Entry) {
    b.saleId in y.db.sales && y.db.sales[b.saleId].remainingStock == 0 && KeyOf(b) !in y.db.purchases
  }

  /**
   One starved sale holds back its whole batch: the other messages could be written without it, and are
   rolled back with it; the error names the starved sale.
   */
  lemma StarvedSaleHoldsBackTheBatch(y: Sys, entries: seq<Entry>, marks: map<SaleId, nat>, b: Entry)
    requires Books(y) && EachBacked(y, entries, marks) && Starved(y, b) && Lawful(y.db.sales, b)
    requires forall e :: e in entries ==> e.saleId != b.saleId
    ensures WriteBatch(y.db, entries).Committed?
    ensures WriteBatch(y.db, entries + [b]) == Aborted(CannotAbsorb(b.saleId))
  {
    BackedBatchCommits(y, entries, marks);
    StarvedEntryAborts(y, b);
    DisjointBatchesShareFate(y.db, entries, [b]);
    var both := entries + [b];
    forall e | e in both ensures Lawful(y.db.sales, e) {
      if e in entries {
        PromisedIsLawful(y, e, marks[e.saleId]);
      }
    }
    LawfulBatchMeetsOnlyGuards(y.db, both);
    RejectionNamesAStarvedSale(y.db, both);
    var s := WriteBatch(y.db, both).error.saleId;
    if s != b.saleId {
      NoEntriesNoDemand(y.db, [b], s);
      DisjointDemand(y.db, entries, [b], s);
      BatchCommitsIff(y.db, entries);
    }
  }

  lemma StarvedEntryAborts(y: Sys, b: Entry)
    requires SchemaHolds(y.db) && Starved(y, b) && Lawful(y.db.sales, b)
    ensures !WriteBatch(y.db, [b]).Committed?
  {
    assert KeyOf(b) in NewKeys(y.db, [b]);
    assert Key(b.saleId, KeyOf(b).email) == KeyOf(b);
    assert KeyOf(b).email in EmailsOf(NewKeys(y.db, [b]), b.saleId);
    BatchCommitsIff(y.db, [b]);
  }

  /** The marks of all sales that have standing at the end of a run from a cold start. */
  ghost function StandingMarks(cfg: D.Config, db: Db, labels: seq<Label>): map<SaleId, nat>
    requires Runs(cfg, Boot(db), labels)
  {
    map s | s in db.sales && StandingOf(cfg, db, labels, s).Some? :: StandingOf(cfg, db, labels, s).value
  }

  /**
   At every moment of every run from a cold start, any batch of messages of sales with standing can commit,
   whatever mix of sales it is: through crashes, redelivery, leaked reservations, dead letters, late commits
   and sweeps of Redis, whole or partial. Messages given up since the sale's mark can be replayed as well.
   */
  lemma QueuedWritesCanCommit(cfg: D.Config, db: Db, labels: seq<Label>, entries: seq<Entry>)
    requires SchemaHolds(db) && Runs(cfg, Boot(db), labels)
    requires forall e :: e in entries ==>
               && e.saleId in StandingMarks(cfg, db, labels)
               && e in Sent(After(cfg, Boot(db), labels).drain, StandingMarks(cfg, db, labels)[e.saleId])
    ensures WriteBatch(After(cfg, Boot(db), labels).db, entries).Committed?
  {
    var y, marks := After(cfg, Boot(db), labels), StandingMarks(cfg, db, labels);
    BootIsSafe(cfg, db);
    RunKeepsSafe(cfg, db, Boot(db), labels);
    forall e | e in entries ensures Backed(y, e.saleId, marks[e.saleId]) {
      StandingIsBacked(cfg, db, labels, e.saleId);
    }
    BackedBatchCommits(y, entries, marks);
  }

  // ---------------------------------------------------------------- what backing gives the fallback

  /** The answer of the single-row write to a reserved call. */
  function FallbackOutcome(y: Sys, e: Entry, databaseNow: int): Outcome
    requires e.saleId in y.db.sales
  {
    var sale := y.db.sales[e.saleId];
    if databaseNow < sale.startsAt || databaseNow > sale.endsAt then SaleNotActive
    else if KeyOf(e) in y.db.purchases then AlreadyPurchased
    else Success
  }

  /**
   After `reserved`, if the publish fails, the synchronous write never finds the sale sold out. It is refused
   exactly when the database clock is outside the sale's period or the buyer has a row already, which the
   gate can only have missed if its buyers set did not hold that buyer.
   */
  lemma FallbackKeepsThePromise(y: Sys, id: nat, mark: nat, databaseNow: int)
    requires id in y.limbo && Backed(y, y.limbo[id].saleId, mark)
    ensures var e := y.limbo[id];
      var r := WriteOne(y.db, e.saleId, e.email, databaseNow);
      r.Answered? && r.outcome == FallbackOutcome(y, e, databaseNow)
  {
    var e := y.limbo[id];
    if KeyOf(e) !in y.db.purchases {
      assert e in Promised(y, mark) && KeyOf(e) in KeysFor(Promised(y, mark));
      assert Key(e.saleId, KeyOf(e).email) == KeyOf(e);
      assert KeyOf(e).email in Owed(y, e.saleId, mark);
    }
  }

  /** Over every run from a cold start, sweeps included, for every open reservation of a sale with standing. */
  lemma ReservationsAreHonoured(cfg: D.Config, db: Db, labels: seq<Label>, id: nat, databaseNow: int)
    requires SchemaHolds(db) && Runs(cfg, Boot(db), labels) && id in After(cfg, Boot(db), labels).limbo
    requires StandingOf(cfg, db, labels, After(cfg, Boot(db), labels).limbo[id].saleId).Some?
    ensures var y := After(cfg, Boot(db), labels);
      var e := y.limbo[id];
      && e.saleId in y.db.sales
      && var r := WriteOne(y.db, e.saleId, e.email, databaseNow);
      r.Answered? && r.outcome == FallbackOutcome(y, e, databaseNow)
  {
    var y := After(cfg, Boot(db), labels);
    var s := y.limbo[id].saleId;
    StandingIsBacked(cfg, db, labels, s);
    FallbackKeepsThePromise(y, id, StandingOf(cfg, db, labels, s).value, databaseNow);
  }

  // ---------------------------------------------------------------- one reservation per buyer

  /** Whoever asks now, only a buyer without a row and without an open promise can be given a reservation. */
  ghost predicate ReservesOncePerBuyer(y: Sys, s: SaleId, now: int, mark: nat) {
    forall email :: Decide(y.redis, s, NormalizeEmail(email), now) == Reserved ==>
      var key := Key(s, NormalizeEmail(email));
      key !in y.db.purchases && key !in KeysFor(Promised(y, mark))
  }

  /** A buyer whom the table or a promise knows has an email that somebody can ask with. */
  lemma SomeEmailFor(y: Sys, key: Key, mark: nat) returns (email: string)
    requires SchemaHolds(y.db) && key in y.db.purchases.Keys + KeysFor(Promised(y, mark))
    ensures NormalizeEmail(email) == key.email
  {
    if key in y.db.purchases {
      assert RowChecks(y.db.sales, key, y.db.purchases[key]);
      email := y.db.purchases[key].email;
    } else {
      var e :| e in Promised(y, mark) && KeyOf(e) == key;
      email := e.email;
    }
  }

  /**
   Exactly when the gate keeps the rule of one reservation per buyer: it gives out none at all, or its buyers set
   holds everyone the table or a promise knows. Any missing buyer can be reserved again.
   */
  lemma ReservesOncePerBuyerIff(y: Sys, s: SaleId, now: int, mark: nat)
    requires SchemaHolds(y.db)
    ensures ReservesOncePerBuyer(y, s, now, mark) <==>
            || !Warmed(y.redis, s) || !WindowOpen(y.redis.meta[s], now) || StockOf(y.redis, s) <= 0
            || BuyersOf(y.db, s) + EmailsOf(KeysFor(Promised(y, mark)), s) <= Members(y.redis, s)
  {
    var known := BuyersOf(y.db, s) + EmailsOf(KeysFor(Promised(y, mark)), s);
    if !(known <= Members(y.redis, s)) {
      var missing :| missing in known && missing !in Members(y.redis, s);
      var email := SomeEmailFor(y, Key(s, missing), mark);
      assert NormalizeEmail(email) == missing;
    }
  }
}
