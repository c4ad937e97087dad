/**
 What holds on every run, whatever fails and whoever bypasses Redis: the tables stay lawful and no
 unit is lost or minted, an acknowledged message is in the table, a published message is never
 lost without a trace, and no queued write can trip the window trigger.
 */
module SystemSafety {
  import opened Prelude
  import opened Emails
  import opened Store
  import opened StoreTheorems
  import opened Sales
  import opened Gate
  import opened Api
  import opened System
  import D = Drain
  import DT = DrainTheorems

  // ---------------------------------------------------------------- bookkeeping of entries

  lemma EntriesInConcat(a: seq<D.Body>, b: seq<D.Body>)
    ensures EntriesIn(a + b) == EntriesIn(a) + EntriesIn(b)
  {
    assert forall x :: x in a + b <==> x in a || x in b;
  }

  lemma BodiesConcat(a: seq<D.Delivery>, b: seq<D.Delivery>)
    ensures D.Bodies(a + b) == D.Bodies(a) + D.Bodies(b)
  {
  }

  lemma UnackedConcat(a: seq<D.Delivery>, b: seq<D.Delivery>)
    ensures EntriesIn(D.Bodies(a + b)) == EntriesIn(D.Bodies(a)) + EntriesIn(D.Bodies(b))
  {
    BodiesConcat(a, b);
    EntriesInConcat(D.Bodies(a), D.Bodies(b));
  }

  lemma EntriesOfParsed(ds: seq<D.Delivery>)
    requires D.AllParsed(ds)
    ensures SetOf(EntriesOf(ds)) == EntriesIn(D.Bodies(ds))
  {
    var es, bodies := EntriesOf(ds), D.Bodies(ds);
    assert forall i :: 0 <= i < |ds| ==> bodies[i] == D.Parsed(es[i]);
    forall e ensures e in es <==> D.Parsed(e) in bodies {
      if e in es {
        var i :| 0 <= i < |es| && es[i] == e;
        assert bodies[i] == D.Parsed(e);
      }
      if D.Parsed(e) in bodies {
        var i :| 0 <= i < |bodies| && bodies[i] == D.Parsed(e);
        assert es[i] == e;
      }
    }
    forall e ensures e in EntriesIn(bodies) <==> D.Parsed(e) in bodies {
      if D.Parsed(e) in bodies {
        assert D.Parsed(e).entry in EntriesIn(bodies);
      }
    }
  }

  lemma DeliverMovesOne(cfg: D.Config, d: D.State)
    requires D.Enabled(cfg, d, D.Deliver)
    ensures Outstanding(D.Next(cfg, d, D.Deliver)) == Outstanding(d)
  {
    var c := d.channel;
    var next := D.Delivery(c.nextTag, c.ready[0]);
    assert c.ready == [c.ready[0]] + c.ready[1..];
    EntriesInConcat([c.ready[0]], c.ready[1..]);
    UnackedConcat(c.unacked, [next]);
    assert D.Bodies([next]) == [c.ready[0]];
  }

  lemma GivenUpGoesDead(c: D.Channel, batch: seq<D.Delivery>, rest: seq<D.Delivery>, c': D.Channel)
    requires c.unacked == batch + rest && c'.unacked == rest && c'.dead == c.dead + D.Bodies(batch)
    ensures c'.dead[|c.dead|..] == D.Bodies(batch)
    ensures EntriesIn(D.Bodies(c.unacked)) == EntriesIn(D.Bodies(batch)) + EntriesIn(D.Bodies(c'.unacked))
    ensures EntriesIn(c'.dead) == EntriesIn(c.dead) + EntriesIn(D.Bodies(batch))
  {
    UnackedConcat(batch, rest);
    EntriesInConcat(c.dead, D.Bodies(batch));
  }

  /** What moves from the broker's care to the dead queue, entry by entry. */
  ghost predicate MovesToDead(c: D.Channel, c': D.Channel) {
    && c.dead <= c'.dead
    && var newlyDead := EntriesIn(c'.dead[|c.dead|..]);
    && EntriesIn(c.ready) + EntriesIn(D.Bodies(c.unacked)) ==
       EntriesIn(c'.ready) + EntriesIn(D.Bodies(c'.unacked)) + newlyDead
    && EntriesIn(c'.dead) == EntriesIn(c.dead) + newlyDead
  }

  lemma SameDeadMovesNothing(c: D.Channel, c': D.Channel)
    requires c'.dead == c.dead
    requires EntriesIn(c.ready) + EntriesIn(D.Bodies(c.unacked)) ==
             EntriesIn(c'.ready) + EntriesIn(D.Bodies(c'.unacked))
    ensures MovesToDead(c, c')
  {
    assert c'.dead[|c.dead|..] == [];
  }

  lemma FlushStartMovesToDead(cfg: D.Config, d: D.State)
    requires D.Inv(cfg, d) && D.Enabled(cfg, d, D.FlushStarts)
    ensures MovesToDead(d.channel, D.StartFlush(cfg, d).channel)
  {
    var c, c' := d.channel, D.StartFlush(cfg, d).channel;
    var batch, rest := d.worker.pending, d.worker.ignored;
    if batch != [] && D.AllParsed(batch) && cfg.maxAttempts < 1 {
      assert c.unacked == batch + rest;
      DT.NackEachRemoves(c, batch, rest);
      GivenUpGoesDead(c, batch, rest, c');
    } else {
      SameDeadMovesNothing(c, c');
    }
  }

  lemma FailureMovesToDead(cfg: D.Config, d: D.State)
    requires D.Inv(cfg, d) && d.worker.flushing.Writing?
    ensures MovesToDead(d.channel, D.Fail(cfg, d).channel)
  {
    var c, c' := d.channel, D.Fail(cfg, d).channel;
    var batch, rest := d.worker.flushing.batch, d.worker.pending + d.worker.ignored;
    if d.worker.flushing.attempt >= cfg.maxAttempts {
      DT.GivingUpSettlesTheBatch(cfg, d);
      assert c.unacked == batch + rest;
      GivenUpGoesDead(c, batch, rest, c');
    } else {
      SameDeadMovesNothing(c, c');
    }
  }

  lemma ReopeningMovesNothing(c: D.Channel)
    ensures MovesToDead(c, D.Reopened(c))
  {
    EntriesInConcat(D.Bodies(c.unacked), c.ready);
    assert D.Bodies([]) == [];
    SameDeadMovesNothing(c, D.Reopened(c));
  }

  /** Whatever the worker does short of an ack, an entry stays outstanding or is appended to the dead queue. */
  lemma WorkerKeepsEntries(cfg: D.Config, d: D.State, ev: D.Event)
    requires D.Inv(cfg, d) && D.Enabled(cfg, d, ev) && WorkerEvent(ev)
    ensures MovesToDead(d.channel, D.Next(cfg, d, ev).channel)
  {
    if ev.Deliver? {
      DeliverMovesOne(cfg, d);
      SameDeadMovesNothing(d.channel, D.Next(cfg, d, ev).channel);
    } else if ev.FlushStarts? {
      FlushStartMovesToDead(cfg, d);
    } else if ev.WriteFails? {
      FailureMovesToDead(cfg, d);
    } else if ev.ChannelCloses? {
      ReopeningMovesNothing(d.channel);
    } else {
      SameDeadMovesNothing(d.channel, D.Next(cfg, d, ev).channel);
    }
  }

  lemma DeadTail(a: seq<D.Body>, b: seq<D.Body>, mark: nat)
    requires a <= b && mark <= |a|
    ensures EntriesIn(b[mark..]) == EntriesIn(a[mark..]) + EntriesIn(b[|a|..])
  {
    EntriesInConcat(a[mark..], b[|a|..]);
    assert b[mark..] == a[mark..] + b[|a|..];
  }

  /** Short of an ack, what a worker may have in a transaction stays that way, dead-lettered or not. */
  lemma WorkerKeepsSent(cfg: D.Config, d: D.State, ev: D.Event, mark: nat)
    requires D.Inv(cfg, d) && D.Enabled(cfg, d, ev) && WorkerEvent(ev) && mark <= |d.channel.dead|
    ensures var d' := D.Next(cfg, d, ev); mark <= |d'.channel.dead| && Sent(d', mark) == Sent(d, mark)
  {
    WorkerKeepsEntries(cfg, d, ev);
    DeadTail(d.channel.dead, D.Next(cfg, d, ev).channel.dead, mark);
  }

  lemma PublishAddsOne(cfg: D.Config, d: D.State, body: D.Body)
    ensures var d' := D.Next(cfg, d, D.Publish(body));
      && Outstanding(d') == Outstanding(d) + EntriesIn([body])
      && d'.channel.dead == d.channel.dead
  {
    EntriesInConcat(d.channel.ready, [body]);
  }

  /** The ack takes the written batch, and only it, off the broker. */
  lemma AckTakesTheBatch(cfg: D.Config, d: D.State)
    requires D.Inv(cfg, d) && d.worker.flushing.Writing?
    ensures var d', written := D.Next(cfg, d, D.WriteSucceeds), SetOf(EntriesOf(d.worker.flushing.batch));
      && Outstanding(d) == Outstanding(d') + written
      && d'.channel.dead == d.channel.dead
      && NewlyAcked(d.channel, d'.channel) == written
  {
    var batch, rest := d.worker.flushing.batch, d.worker.pending + d.worker.ignored;
    var d' := D.Next(cfg, d, D.WriteSucceeds);
    DT.CumulativeAckSettlesTheBatch(cfg, d);
    assert d.channel.unacked == batch + rest;
    UnackedConcat(batch, rest);
    EntriesOfParsed(batch);
    assert d'.channel.settled[|d.channel.settled|..] == D.Marked(batch, D.Acked);
    AckedAreTheBatch(batch, D.Marked(batch, D.Acked), NewlyAcked(d.channel, d'.channel));
  }

  /** What an acknowledged batch changes, and what it leaves alone. */
  lemma BatchOkFrame(cfg: D.Config, y: Sys)
    requires Enabled(cfg, y, BatchOk)
    ensures var y', entries := Next(cfg, y, BatchOk), EntriesOf(y.drain.worker.flushing.batch);
      && WriteBatch(y.db, entries).Committed? && y'.db == WriteBatch(y.db, entries).db
      && y'.drain == D.Next(cfg, y.drain, D.WriteSucceeds)
      && y'.acked == y.acked + NewlyAcked(y.drain.channel, y'.drain.channel)
      && y'.redis == y.redis && y'.cache == y.cache && y'.calls == y.calls && y'.limbo == y.limbo
      && y'.replies == y.replies && y'.published == y.published && y'.direct == y.direct
  {
  }

  lemma BatchOkMoves(cfg: D.Config, d: D.State)
    requires D.Inv(cfg, d) && d.worker.flushing.Writing? && D.AllParsed(d.worker.flushing.batch)
    ensures var d', entries := D.Next(cfg, d, D.WriteSucceeds), EntriesOf(d.worker.flushing.batch);
      && Outstanding(d) == Outstanding(d') + SetOf(entries)
      && d'.channel.dead == d.channel.dead
      && (forall e :: e in entries ==> e in Outstanding(d))
  {
    BatchEntriesOutstanding(cfg, d);
    AckTakesTheBatch(cfg, d);
  }

  lemma AckedAreTheBatch(batch: seq<D.Delivery>, marked: seq<D.Settlement>, acked: set<Entry>)
    requires D.AllParsed(batch) && marked == D.Marked(batch, D.Acked)
    requires acked ==
             set st | st in marked && st.verdict == D.Acked && st.delivery.body.Parsed? :: st.delivery.body.entry
    ensures acked == SetOf(EntriesOf(batch))
  {
    var es := EntriesOf(batch);
    forall e | e in es ensures e in acked {
      var i :| 0 <= i < |es| && es[i] == e;
      assert marked[i] in marked && marked[i].delivery.body.entry == e;
      assert batch[i] in batch;
    }
    forall e | e in acked ensures e in es {
      var st :| st in marked && st.delivery.body.Parsed? && st.delivery.body.entry == e;
      var i :| 0 <= i < |marked| && marked[i] == st;
      assert es[i] == e;
    }
  }

  // ---------------------------------------------------------------- invariant

  predicate Lawful(sales: map<SaleId, Sale>, e: Entry) {
    && e.saleId in sales
    && sales[e.saleId].startsAt <= e.reservedAt < sales[e.saleId].endsAt
    && sales[e.saleId].cancelledAt == None
  }

  ghost predicate TablesOk(y: Sys) {
    SchemaHolds(y.db) && CacheLags(y.cache, y.db) && MetaTrue(y.redis, y.db.sales)
  }

  ghost predicate EntriesOk(y: Sys) {
    && (forall id :: id in y.limbo ==> Lawful(y.db.sales, y.limbo[id]))
    && (forall e :: e in y.published ==> Lawful(y.db.sales, e))
  }

  /** Nothing the broker holds was not published; nothing published is unaccounted for; acked means written. */
  ghost predicate Accounted(y: Sys) {
    && Outstanding(y.drain) <= y.published
    && DeadEntries(y.drain) <= y.published
    && (forall e :: e in y.published ==>
          KeyOf(e) in y.db.purchases || e in Outstanding(y.drain) || e in DeadEntries(y.drain))
    && (forall e :: e in y.acked ==> KeyOf(e) in y.db.purchases)
  }

  ghost predicate CallsOk(y: Sys) {
    && (forall id :: id in y.limbo ==> id < y.calls && id !in y.replies)
    && (forall id :: id in y.replies ==> id < y.calls)
  }

  ghost predicate Books(y: Sys) {
    TablesOk(y) && EntriesOk(y) && Accounted(y) && CallsOk(y)
  }

  ghost predicate Safe(cfg: D.Config, y: Sys) {
    D.Inv(cfg, y.drain) && Books(y)
  }

  /** How a state relates to the tables a run started from. */
  ghost predicate Since(start: Db, y: Sys) {
    && Advances(start, y.db)
    && y.db.purchases.Keys <= start.purchases.Keys + KeysFor(y.published) + y.direct
    && y.direct <= y.db.purchases.Keys
  }

  // ---------------------------------------------------------------- what the tables do to the rest

  lemma LawfulStays(db: Db, db': Db, e: Entry)
    requires Advances(db, db') && Lawful(db.sales, e)
    ensures Lawful(db'.sales, e)
  {
    assert SameBut(db.sales[e.saleId], db'.sales[e.saleId]);
  }

  lemma AdvancingKeepsEntriesOk(y: Sys, db': Db)
    requires EntriesOk(y) && Advances(y.db, db')
    ensures EntriesOk(y.(db := db'))
  {
    forall id | id in y.limbo ensures Lawful(db'.sales, y.limbo[id]) {
      LawfulStays(y.db, db', y.limbo[id]);
    }
    forall e | e in y.published ensures Lawful(db'.sales, e) {
      LawfulStays(y.db, db', e);
    }
  }

  lemma AdvancingKeepsTablesOk(y: Sys, db': Db)
    requires TablesOk(y) && Advances(y.db, db') && SchemaHolds(db')
    ensures TablesOk(y.(db := db'))
  {
    CacheKeepsLagging(y.cache, y.db, db');
    forall s | s in y.redis.meta
      ensures s in db'.sales
      ensures var sale := db'.sales[s];
        y.redis.meta[s] == Meta(Some(sale.startsAt), Some(sale.endsAt), sale.cancelledAt.Some?) {
      assert SameBut(y.db.sales[s], db'.sales[s]);
    }
  }

  lemma AdvancingKeepsTheRest(y: Sys, db': Db)
    requires TablesOk(y) && EntriesOk(y) && Accounted(y) && Advances(y.db, db') && SchemaHolds(db')
    ensures TablesOk(y.(db := db')) && EntriesOk(y.(db := db')) && Accounted(y.(db := db'))
  {
    AdvancingKeepsTablesOk(y, db');
    AdvancingKeepsEntriesOk(y, db');
  }

  lemma BatchEntriesOutstanding(cfg: D.Config, d: D.State)
    requires D.Inv(cfg, d) && d.worker.flushing.Writing?
    ensures forall e :: e in EntriesOf(d.worker.flushing.batch) ==> e in Outstanding(d)
  {
    var batch, rest := d.worker.flushing.batch, d.worker.pending + d.worker.ignored;
    assert d.channel.unacked == batch + rest;
    UnackedConcat(batch, rest);
    EntriesOfParsed(batch);
    assert forall e :: e in EntriesOf(batch) ==> e in SetOf(EntriesOf(batch));
  }

  lemma CommitKeepsSafe(cfg: D.Config, start: Db, y: Sys, entries: seq<Entry>)
    requires Safe(cfg, y) && Since(start, y)
    requires WriteBatch(y.db, entries).Committed? && forall e :: e in entries ==> e in y.published
    ensures Safe(cfg, CommitNext(y, entries)) && Since(start, CommitNext(y, entries))
    ensures KeysOf(entries) <= CommitNext(y, entries).db.purchases.Keys
    ensures Advances(y.db, CommitNext(y, entries).db)
  {
    var db' := WriteBatch(y.db, entries).db;
    CommittedBatchAdvances(y.db, entries);
    CommittedBatchKeepsSchema(y.db, entries);
    CommittedBatchAbsorbs(y.db, entries);
    AdvancingKeepsTheRest(y, db');
    AdvancesTransitive(start, y.db, db');
    assert KeysOf(entries) <= KeysFor(y.published);
  }

  lemma WriteOneAddsOneKey(db: Db, s: SaleId, email: string, at: int)
    ensures var r := WriteOne(db, s, email, at);
      TablesAfter(r, db).purchases.Keys ==
        if r.Answered? && r.outcome == Success then db.purchases.Keys + {Key(s, NormalizeEmail(email))}
        else db.purchases.Keys
  {
  }

  /** One single-row write, in a transaction of its own. */
  lemma WriteOneStep(db: Db, s: SaleId, email: string, at: int)
    requires SchemaHolds(db)
    ensures var db' := TablesAfter(WriteOne(db, s, email, at), db); Advances(db, db') && SchemaHolds(db')
  {
    if WriteOne(db, s, email, at).Answered? {
      WriteOneAdvances(db, s, email, at);
      WriteOneKeepsSchema(db, s, email, at);
    }
  }

  lemma KeysForGrow(a: set<Entry>, b: set<Entry>)
    requires a <= b
    ensures KeysFor(a) <= KeysFor(b)
  {
  }

  lemma WriteOneKeepsBooks(y: Sys, s: SaleId, email: string, at: int)
    requires Books(y)
    ensures Books(y.(db := TablesAfter(WriteOne(y.db, s, email, at), y.db)))
  {
    WriteOneStep(y.db, s, email, at);
    AdvancingKeepsTheRest(y, TablesAfter(WriteOne(y.db, s, email, at), y.db));
  }

  lemma SinceAfter(start: Db, y: Sys, db': Db, direct: set<Key>)
    requires Since(start, y) && Advances(y.db, db') && y.direct <= direct
    requires db'.purchases.Keys <= y.db.purchases.Keys + direct && direct <= db'.purchases.Keys
    ensures Since(start, y.(db := db', direct := direct))
  {
    AdvancesTransitive(start, y.db, db');
  }

  // ---------------------------------------------------------------- one step

  /** A reservation is only ever given for an existing, uncancelled sale inside its window. */
  lemma ReservedIsLawful(y: Sys, s: SaleId, email: string, now: int)
    requires MetaTrue(y.redis, y.db.sales) && Decide(y.redis, s, NormalizeEmail(email), now) == Reserved
    ensures Lawful(y.db.sales, Entry(s, email, now))
  {
    assert s in y.redis.meta;
  }

  lemma AskKeepsBooks(y: Sys, s: SaleId, email: string, now: int)
    requires Books(y)
    ensures Books(AskNext(y, s, email, now))
  {
    var y' := AskNext(y, s, email, now);
    if Decide(y.redis, s, NormalizeEmail(email), now) == Reserved {
      ReservedIsLawful(y, s, email, now);
      assert y'.redis.meta == y.redis.meta;
      assert Accounted(y');
      assert EntriesOk(y');
    }
  }

  lemma PublishKeepsBooks(cfg: D.Config, y: Sys, id: nat)
    requires Books(y) && id in y.limbo
    ensures Books(PublishNext(cfg, y, id))
  {
    var e, y' := y.limbo[id], PublishNext(cfg, y, id);
    PublishAddsOne(cfg, y.drain, D.Parsed(e));
    assert EntriesIn([D.Parsed(e)]) == {e} by {
      assert D.Parsed(e) in [D.Parsed(e)] && D.Parsed(e).entry == e;
    }
    assert Accounted(y');
  }

  lemma FallBackKeepsBooks(y: Sys, id: nat, databaseNow: int, seen: bool)
    requires Books(y) && id in y.limbo
    ensures Books(FallBackNext(y, id, databaseNow, seen))
  {
    var e := y.limbo[id];
    WriteOneKeepsBooks(y, e.saleId, e.email, databaseNow);
  }

  lemma FallBackKeepsSince(start: Db, y: Sys, id: nat, databaseNow: int, seen: bool)
    requires Since(start, y) && SchemaHolds(y.db) && id in y.limbo
    ensures Since(start, FallBackNext(y, id, databaseNow, seen))
    ensures Advances(y.db, FallBackNext(y, id, databaseNow, seen).db)
  {
    var e, y' := y.limbo[id], FallBackNext(y, id, databaseNow, seen);
    OneWriteKeepsSince(start, y, e.saleId, e.email, databaseNow, y'.direct);
    SinceFrame(start, y.(db := y'.db, direct := y'.direct), y');
  }

  lemma BypassKeepsBooks(y: Sys, s: SaleId, email: string, now: int, databaseNow: int, seen: bool)
    requires Books(y)
    ensures Books(BypassNext(y, s, email, now, databaseNow, seen))
  {
    StaleRowIsHarmless(y.cache, y.db, s, now);
    var cached := y.(cache := FindRowById(y.cache, y.db.sales, s).cache);
    WriteOneKeepsBooks(cached, s, email, databaseNow);
  }

  /** A bypass either leaves the tables alone or is one single-row write. */
  lemma BypassIsOneWrite(y: Sys, s: SaleId, email: string, now: int, databaseNow: int, seen: bool)
    ensures var y', r := BypassNext(y, s, email, now, databaseNow, seen), WriteOne(y.db, s, email, databaseNow);
      && y' == y.(db := y'.db, cache := y'.cache, calls := y'.calls, replies := y'.replies, direct := y'.direct)
      && (|| (y'.db == y.db && y'.direct == y.direct)
          || (y'.db == TablesAfter(r, y.db) &&
              y'.direct ==
                if r.Answered? && r.outcome == Success then y.direct + {Key(s, NormalizeEmail(email))} else y.direct))
  {
  }

  lemma SinceFrame(start: Db, y: Sys, y': Sys)
    requires Since(start, y) && y'.db == y.db && y'.published == y.published && y'.direct == y.direct
    ensures Since(start, y')
  {
  }

  lemma OneWriteKeepsSince(start: Db, y: Sys, s: SaleId, email: string, at: int, direct: set<Key>)
    requires Since(start, y) && SchemaHolds(y.db)
    requires var r := WriteOne(y.db, s, email, at);
      direct == if r.Answered? && r.outcome == Success then y.direct + {Key(s, NormalizeEmail(email))} else y.direct
    ensures var db' := TablesAfter(WriteOne(y.db, s, email, at), y.db);
      Advances(y.db, db') && Since(start, y.(db := db', direct := direct))
  {
    WriteOneStep(y.db, s, email, at);
    WriteOneAddsOneKey(y.db, s, email, at);
    SinceAfter(start, y, TablesAfter(WriteOne(y.db, s, email, at), y.db), direct);
  }

  lemma BypassKeepsSince(start: Db, y: Sys, s: SaleId, email: string, now: int, databaseNow: int, seen: bool)
    requires Since(start, y) && SchemaHolds(y.db)
    ensures var y' := BypassNext(y, s, email, now, databaseNow, seen);
      Since(start, y') && Advances(y.db, y'.db)
  {
    var y' := BypassNext(y, s, email, now, databaseNow, seen);
    BypassIsOneWrite(y, s, email, now, databaseNow, seen);
    if y'.db == y.db && y'.direct == y.direct {
      SinceFrame(start, y, y');
    } else {
      OneWriteKeepsSince(start, y, s, email, databaseNow, y'.direct);
      SinceFrame(start, y.(db := y'.db, direct := y'.direct), y');
    }
  }

  lemma ConsumeKeepsSafe(cfg: D.Config, start: Db, y: Sys, ev: D.Event)
    requires Safe(cfg, y) && Since(start, y) && WorkerEvent(ev) && D.Enabled(cfg, y.drain, ev)
    ensures var y' := y.(drain := D.Next(cfg, y.drain, ev)); Safe(cfg, y') && Since(start, y')
  {
    DT.StepKeepsInv(cfg, y.drain, ev);
    WorkerKeepsEntries(cfg, y.drain, ev);
    var d, d' := y.drain, D.Next(cfg, y.drain, ev);
    assert Outstanding(d') <= Outstanding(d) && DeadEntries(d') <= Outstanding(d) + DeadEntries(d);
  }

  lemma AckKeepsAccounts(y: Sys, y': Sys, entries: seq<Entry>)
    requires Accounted(y) && y'.published == y.published && y.db.purchases.Keys <= y'.db.purchases.Keys
    requires Outstanding(y.drain) == Outstanding(y'.drain) + SetOf(entries)
    requires y'.drain.channel.dead == y.drain.channel.dead
    requires KeysOf(entries) <= y'.db.purchases.Keys && y'.acked == y.acked + SetOf(entries)
    ensures Accounted(y')
  {
    forall e | e in SetOf(entries) ensures KeyOf(e) in y'.db.purchases {
      assert KeyOf(e) in KeysOf(entries);
    }
  }

  lemma DrainStepFrame(cfg: D.Config, start: Db, y: Sys, y': Sys)
    requires Books(y) && Since(start, y) && D.Inv(cfg, y'.drain) && Accounted(y')
    requires y' == y.(drain := y'.drain, acked := y'.acked)
    ensures Safe(cfg, y') && Since(start, y')
  {
  }

  lemma BatchOkKeepsSafe(cfg: D.Config, start: Db, y: Sys)
    requires Safe(cfg, y) && Since(start, y) && Enabled(cfg, y, BatchOk)
    ensures Safe(cfg, Next(cfg, y, BatchOk)) && Since(start, Next(cfg, y, BatchOk))
    ensures Advances(y.db, Next(cfg, y, BatchOk).db)
  {
    var entries, y' := EntriesOf(y.drain.worker.flushing.batch), Next(cfg, y, BatchOk);
    BatchOkFrame(cfg, y);
    BatchOkMoves(cfg, y.drain);
    AckTakesTheBatch(cfg, y.drain);
    PublishedFromOutstanding(y, entries);
    CommitKeepsSafe(cfg, start, y, entries);
    DT.StepKeepsInv(cfg, y.drain, D.WriteSucceeds);
    AckKeepsAccounts(y, y', entries);
    DrainStepFrame(cfg, start, CommitNext(y, entries), y');
  }

  lemma PublishedFromOutstanding(y: Sys, entries: seq<Entry>)
    requires Accounted(y) && forall e :: e in entries ==> e in Outstanding(y.drain)
    ensures forall e :: e in entries ==> e in y.published
  {
  }

  lemma JunkKeepsAccounts(cfg: D.Config, y: Sys, d': D.State)
    requires Accounted(y) && d' == D.Next(cfg, y.drain, D.Publish(D.Malformed))
    ensures Accounted(y.(drain := d'))
  {
    PublishAddsOne(cfg, y.drain, D.Malformed);
    assert EntriesIn([D.Malformed]) == {};
  }

  lemma JunkKeepsSafe(cfg: D.Config, start: Db, y: Sys)
    requires Safe(cfg, y) && Since(start, y)
    ensures Safe(cfg, Next(cfg, y, Junk)) && Since(start, Next(cfg, y, Junk))
  {
    DT.StepKeepsInv(cfg, y.drain, D.Publish(D.Malformed));
    JunkKeepsAccounts(cfg, y, D.Next(cfg, y.drain, D.Publish(D.Malformed)));
    DrainStepFrame(cfg, start, y, Next(cfg, y, Junk));
  }

  lemma RequestKeepsSafe(cfg: D.Config, y: Sys, l: Label)
    requires Safe(cfg, y) && Enabled(cfg, y, l)
    requires l.Ask? || l.PublishOk? || l.FallBack? || l.Abandon? || l.Bypass?
    ensures Safe(cfg, Next(cfg, y, l))
  {
    match l
    case Ask(s, email, now) => AskKeepsBooks(y, s, email, now);
    case PublishOk(id) =>
      PublishKeepsBooks(cfg, y, id);
      DT.StepKeepsInv(cfg, y.drain, D.Publish(D.Parsed(y.limbo[id])));
    case FallBack(id, databaseNow, seen) => FallBackKeepsBooks(y, id, databaseNow, seen);
    case Bypass(s, email, now, databaseNow, _, seen) => BypassKeepsBooks(y, s, email, now, databaseNow, seen);
    case Abandon(id) => assert Books(Next(cfg, y, l));
  }

  lemma PublishKeepsSince(cfg: D.Config, start: Db, y: Sys, id: nat)
    requires Since(start, y) && id in y.limbo
    ensures Since(start, PublishNext(cfg, y, id))
  {
    KeysForGrow(y.published, y.published + {y.limbo[id]});
  }

  lemma RequestKeepsSince(cfg: D.Config, start: Db, y: Sys, l: Label)
    requires Since(start, y) && SchemaHolds(y.db) && Enabled(cfg, y, l)
    requires l.Ask? || l.PublishOk? || l.FallBack? || l.Abandon? || l.Bypass?
    ensures Since(start, Next(cfg, y, l)) && Advances(y.db, Next(cfg, y, l).db)
  {
    if l.PublishOk? {
      PublishKeepsSince(cfg, start, y, l.id);
    } else if l.FallBack? {
      FallBackKeepsSince(start, y, l.id, l.databaseNow, l.seen);
    } else if l.Bypass? {
      BypassKeepsSince(start, y, l.saleId, l.email, l.now, l.databaseNow, l.seen);
    } else {
      SinceFrame(start, y, Next(cfg, y, l));
    }
  }

  lemma CacheStepKeepsBooks(y: Sys, s: SaleId)
    requires Books(y)
    ensures Books(y.(cache := FindRowById(y.cache, y.db.sales, s).cache)) && Books(y.(cache := y.cache - {s}))
  {
    StaleRowIsHarmless(y.cache, y.db, s, 0);
  }

  lemma RedisStepKeepsBooks(y: Sys, redis: Redis)
    requires Books(y) && MetaTrue(redis, y.db.sales)
    ensures Books(y.(redis := redis))
  {
  }

  lemma UpkeepKeepsSafe(cfg: D.Config, y: Sys, l: Label)
    requires Safe(cfg, y) && Enabled(cfg, y, l)
    requires l.ReadSale? || l.ExpireRow? || l.WarmSale? || l.DeleteKeys? || l.RedisRestarts?
    ensures Safe(cfg, Next(cfg, y, l))
  {
    match l
    case ReadSale(s) => CacheStepKeepsBooks(y, s);
    case ExpireRow(s) => CacheStepKeepsBooks(y, s);
    case WarmSale(s, remaining, emails) => RedisStepKeepsBooks(y, WarmNext(y, s, remaining, emails).redis);
    case DeleteKeys(keys) => RedisStepKeepsBooks(y, Del(y.redis, keys));
    case RedisRestarts(redis) => RedisStepKeepsBooks(y, redis);
  }

  lemma UpkeepStep(cfg: D.Config, start: Db, y: Sys, l: Label)
    requires Safe(cfg, y) && Since(start, y) && Enabled(cfg, y, l)
    requires l.ReadSale? || l.ExpireRow? || l.WarmSale? || l.DeleteKeys? || l.RedisRestarts?
    ensures Safe(cfg, Next(cfg, y, l)) && Since(start, Next(cfg, y, l)) && Next(cfg, y, l).db == y.db
  {
    UpkeepKeepsSafe(cfg, y, l);
    SinceFrame(start, y, Next(cfg, y, l));
  }

  lemma WorkerStepKeepsSafe(cfg: D.Config, start: Db, y: Sys, l: Label)
    requires Safe(cfg, y) && Since(start, y) && Enabled(cfg, y, l)
    requires l.Junk? || l.Consume? || l.BatchOk? || l.StrayCommit?
    ensures Safe(cfg, Next(cfg, y, l)) && Since(start, Next(cfg, y, l))
    ensures Advances(y.db, Next(cfg, y, l).db)
  {
    if l.Junk? {
      JunkKeepsSafe(cfg, start, y);
    } else if l.Consume? {
      ConsumeKeepsSafe(cfg, start, y, l.ev);
    } else if l.BatchOk? {
      BatchOkKeepsSafe(cfg, start, y);
    } else {
      CommitKeepsSafe(cfg, start, y, l.entries);
    }
  }

  /** Every step keeps the invariant and moves the tables forward only. */
  lemma StepKeepsSafe(cfg: D.Config, start: Db, y: Sys, l: Label)
    requires Safe(cfg, y) && Since(start, y) && Enabled(cfg, y, l)
    ensures Safe(cfg, Next(cfg, y, l)) && Since(start, Next(cfg, y, l))
    ensures Advances(y.db, Next(cfg, y, l).db)
  {
    if l.Ask? || l.PublishOk? || l.FallBack? || l.Abandon? || l.Bypass? {
      RequestKeepsSafe(cfg, y, l);
      RequestKeepsSince(cfg, start, y, l);
    } else if l.Junk? || l.Consume? || l.BatchOk? || l.StrayCommit? {
      WorkerStepKeepsSafe(cfg, start, y, l);
    } else {
      UpkeepStep(cfg, start, y, l);
    }
  }

  lemma {:induction false} RunKeepsSafe(cfg: D.Config, start: Db, y: Sys, labels: seq<Label>)
    requires Safe(cfg, y) && Since(start, y) && Runs(cfg, y, labels)
    ensures Safe(cfg, After(cfg, y, labels)) && Since(start, After(cfg, y, labels))
    ensures Advances(y.db, After(cfg, y, labels).db)
    decreases |labels|
  {
    if labels != [] {
      StepKeepsSafe(cfg, start, y, labels[0]);
      RunKeepsSafe(cfg, start, Next(cfg, y, labels[0]), labels[1..]);
      AdvancesTransitive(y.db, Next(cfg, y, labels[0]).db, After(cfg, y, labels).db);
    }
  }

  // ---------------------------------------------------------------- theorems over runs

  /** A deployment before its first request: lawful tables, a cold Redis, an empty broker. */
  function Boot(db: Db): Sys {
    Sys(Redis(map[], map[], map[]), db, map[], DT.Opened([], []), 0, map[], map[], {}, {}, {})
  }

  lemma BootIsSafe(cfg: D.Config, db: Db)
    requires SchemaHolds(db)
    ensures Safe(cfg, Boot(db)) && Since(db, Boot(db))
  {
  }

  /**
   Unconditional store safety: on every run, with racing warms, sweeps, bypassing requests, crashes,
   redelivery and lost replies, each sale keeps its units (left plus sold is constant), stock stays
   between zero and the total, every row lies in its sale's period under a key held once, rows are
   never lost or changed, and the invariant checker keeps passing if it passed at the start.
   */
  lemma StoreIsAlwaysSafe(cfg: D.Config, db: Db, labels: seq<Label>, s: SaleId)
    requires SchemaHolds(db) && Runs(cfg, Boot(db), labels) && s in db.sales
    ensures var db' := After(cfg, Boot(db), labels).db;
      && SchemaHolds(db')
      && s in db'.sales
      && Units(db', s) == Units(db, s)
      && 0 <= db'.sales[s].remainingStock <= db.sales[s].remainingStock <= db'.sales[s].totalStock
      && (forall k :: k in db.purchases ==> k in db'.purchases && db'.purchases[k] == db.purchases[k])
      && (forall rows, keys :: Selects(rows, keys, db', s) ==>
            (Passes(db'.sales[s], rows) <==> Units(db, s) == db.sales[s].totalStock))
  {
    BootIsSafe(cfg, db);
    RunKeepsSafe(cfg, db, Boot(db), labels);
    var db' := After(cfg, Boot(db), labels).db;
    assert SameBut(db.sales[s], db'.sales[s]) && SaleChecks(db'.sales[s]) && SaleChecks(db.sales[s]);
    forall rows, keys | Selects(rows, keys, db', s)
      ensures Passes(db'.sales[s], rows) <==> Units(db, s) == db.sales[s].totalStock {
      VerifyPassesIffNoUnitLost(db', s, rows, keys);
    }
  }

  lemma {:induction false} RunsSplit(cfg: D.Config, y: Sys, a: seq<Label>, b: seq<Label>)
    requires Runs(cfg, y, a + b)
    ensures Runs(cfg, y, a) && Runs(cfg, After(cfg, y, a), b)
    ensures After(cfg, y, a + b) == After(cfg, After(cfg, y, a), b)
    decreases |a|
  {
    if a == [] {
      assert a + b == b;
    } else {
      assert (a + b)[1..] == a[1..] + b;
      RunsSplit(cfg, Next(cfg, y, a[0]), a[1..], b);
    }
  }

  /**
   Acked implies written, and stays written: whatever was acknowledged by any point of a run is in the
   table at that point and at every later one.
   */
  lemma AckedImpliesWritten(cfg: D.Config, db: Db, labels: seq<Label>, more: seq<Label>, e: Entry)
    requires SchemaHolds(db) && Runs(cfg, Boot(db), labels + more)
    requires Runs(cfg, Boot(db), labels) && e in After(cfg, Boot(db), labels).acked
    ensures KeyOf(e) in After(cfg, Boot(db), labels).db.purchases
    ensures KeyOf(e) in After(cfg, Boot(db), labels + more).db.purchases
  {
    BootIsSafe(cfg, db);
    RunsSplit(cfg, Boot(db), labels, more);
    RunKeepsSafe(cfg, db, Boot(db), labels);
    RunKeepsSafe(cfg, db, After(cfg, Boot(db), labels), more);
  }

  /**
   Exactly-once effect: purchases come only from the initial table, published messages and direct
   writes; whenever the queue, the unacked deliveries and the dead queue are empty they are exactly
   these keys; and at every moment each sale has given up exactly as many units as it gained buyers.
   */
  lemma ExactlyOnceEffect(cfg: D.Config, db: Db, labels: seq<Label>, s: SaleId)
    requires SchemaHolds(db) && Runs(cfg, Boot(db), labels) && s in db.sales
    ensures var y := After(cfg, Boot(db), labels);
      && y.db.purchases.Keys <= db.purchases.Keys + KeysFor(y.published) + y.direct
      && (Outstanding(y.drain) == {} && DeadEntries(y.drain) == {} ==>
            y.db.purchases.Keys == db.purchases.Keys + KeysFor(y.published) + y.direct)
      && s in y.db.sales
      && db.sales[s].remainingStock - y.db.sales[s].remainingStock == |BuyersOf(y.db, s) - BuyersOf(db, s)|
  {
    BootIsSafe(cfg, db);
    RunKeepsSafe(cfg, db, Boot(db), labels);
    SettledBooks(db, After(cfg, Boot(db), labels));
    UnitsTakenAreBuyersGained(db, After(cfg, Boot(db), labels).db, s);
  }

  lemma SettledBooks(start: Db, y: Sys)
    requires Accounted(y) && Since(start, y)
    ensures Outstanding(y.drain) == {} && DeadEntries(y.drain) == {} ==>
            y.db.purchases.Keys == start.purchases.Keys + KeysFor(y.published) + y.direct
  {
    PublishedIsWritten(y);
  }

  lemma PublishedIsWritten(y: Sys)
    requires Accounted(y)
    ensures Outstanding(y.drain) == {} && DeadEntries(y.drain) == {} ==> KeysFor(y.published) <= y.db.purchases.Keys
  {
  }

  lemma UnitsTakenAreBuyersGained(db: Db, db': Db, s: SaleId)
    requires Advances(db, db') && s in db.sales
    ensures s in db'.sales
    ensures db.sales[s].remainingStock - db'.sales[s].remainingStock == |BuyersOf(db', s) - BuyersOf(db, s)|
  {
    assert Units(db', s) == Units(db, s);
    SubsetSize(BuyersOf(db, s), BuyersOf(db', s));
  }

  /**
   Window closure never costs a queued write: every message ever published names an uncancelled sale and
   a moment inside its half-open window, so however late or often its batch is written, the batch can
   only be turned down by a stock guard, never by the trigger or the foreign key.
   */
  lemma QueuedWritesNeverTripTheTrigger(cfg: D.Config, db: Db, labels: seq<Label>, entries: seq<Entry>)
    requires SchemaHolds(db) && Runs(cfg, Boot(db), labels)
    requires forall e :: e in entries ==> e in After(cfg, Boot(db), labels).published
    ensures var y := After(cfg, Boot(db), labels);
      && (forall e :: e in entries ==> Lawful(y.db.sales, e))
      && Admissible(y.db.sales, entries)
      && (WriteBatch(y.db, entries).Committed? || WriteBatch(y.db, entries).error.CannotAbsorb?)
  {
    BootIsSafe(cfg, db);
    RunKeepsSafe(cfg, db, Boot(db), labels);
    LawfulBatchMeetsOnlyGuards(After(cfg, Boot(db), labels).db, entries);
  }

  lemma LawfulBatchMeetsOnlyGuards(db: Db, entries: seq<Entry>)
    requires SchemaHolds(db) && forall e :: e in entries ==> Lawful(db.sales, e)
    ensures Admissible(db.sales, entries)
    ensures WriteBatch(db, entries).Committed? || WriteBatch(db, entries).error.CannotAbsorb?
  {
    BatchCommitsIff(db, entries);
    assert TriggerAllowsAll(db.sales, entries);
  }

  /** Over any stretch of a run, no sale's displayed phase moves back while the clock does not. */
  lemma PhasesMoveForwardOverRuns(
    cfg: D.Config, db: Db, labels: seq<Label>, more: seq<Label>, s: SaleId, now: int, later: int)
    requires SchemaHolds(db) && Runs(cfg, Boot(db), labels + more) && s in db.sales && now <= later
    ensures Runs(cfg, Boot(db), labels)
    ensures var mid, last := After(cfg, Boot(db), labels).db, After(cfg, Boot(db), labels + more).db;
      && s in mid.sales && s in last.sales
      && Rank(DerivePhase(mid.sales[s], now)) <= Rank(DerivePhase(last.sales[s], later))
  {
    BootIsSafe(cfg, db);
    RunsSplit(cfg, Boot(db), labels, more);
    RunKeepsSafe(cfg, db, Boot(db), labels);
    RunKeepsSafe(cfg, db, After(cfg, Boot(db), labels), more);
    PhasesOnlyMoveForward(After(cfg, Boot(db), labels).db, After(cfg, Boot(db), labels + more).db, s, now, later);
  }

  /**
   When a sale is shown as sold out: at every point of every run, exactly while its window is open and its
   buyers make up all units it ever had to sell.
   */
  lemma SoldOutIffAllUnitsSold(cfg: D.Config, db: Db, labels: seq<Label>, s: SaleId, now: int)
    requires SchemaHolds(db) && Runs(cfg, Boot(db), labels) && s in db.sales
    ensures var db' := After(cfg, Boot(db), labels).db;
      && s in db'.sales
      && (DerivePhase(db'.sales[s], now) == SoldOutPhase <==>
            db.sales[s].startsAt <= now < db.sales[s].endsAt && |BuyersOf(db', s)| == Units(db, s))
      && (DerivePhase(db'.sales[s], now) == Active <==>
            db.sales[s].startsAt <= now < db.sales[s].endsAt && |BuyersOf(db', s)| < Units(db, s))
  {
    BootIsSafe(cfg, db);
    RunKeepsSafe(cfg, db, Boot(db), labels);
    var db' := After(cfg, Boot(db), labels).db;
    assert SameBut(db.sales[s], db'.sales[s]) && SaleChecks(db'.sales[s]) && Units(db', s) == Units(db, s);
    PhaseMeans(db'.sales[s], now);
  }

  // ---------------------------------------------------------------- where cached rows come from

  /** A step caches nothing but rows as the table held them before it. */
  lemma CacheStep(cfg: D.Config, y: Sys, l: Label)
    requires Enabled(cfg, y, l)
    ensures var y' := Next(cfg, y, l);
      forall s :: s in y'.cache ==>
        (s in y.cache && y'.cache[s] == y.cache[s]) || (s in y.db.sales && y'.cache[s] == y.db.sales[s])
  {
    if l.ReadSale? {
      LookupMeans(y.cache, y.db.sales, l.saleId);
    } else if l.Bypass? {
      LookupMeans(y.cache, y.db.sales, l.saleId);
    } else if l.BatchOk? {
      BatchOkFrame(cfg, y);
    }
  }

  /** After `n` of the labels, the table held this row for the sale. */
  ghost predicate HeldAfter(cfg: D.Config, y: Sys, labels: seq<Label>, n: nat, s: SaleId, row: Sale)
    requires n <= |labels| && Runs(cfg, y, labels[..n])
  {
    var tables := After(cfg, y, labels[..n]).db;
    s in tables.sales && tables.sales[s] == row
  }

  /** Every cached row is the row the table held at some earlier point of the same run. */
  lemma {:induction false} CachedRowsWereRead(cfg: D.Config, y: Sys, labels: seq<Label>, s: SaleId) returns (n: nat)
    requires y.cache == map[] && Runs(cfg, y, labels) && s in After(cfg, y, labels).cache
    ensures n < |labels| && Runs(cfg, y, labels[..n])
    ensures HeldAfter(cfg, y, labels, n, s, After(cfg, y, labels).cache[s])
    decreases |labels|
  {
    var k := |labels| - 1;
    var front, last := labels[..k], labels[k];
    assert labels == front + [last];
    RunsSplit(cfg, y, front, [last]);
    LastStep(cfg, After(cfg, y, front), last);
    CacheStep(cfg, After(cfg, y, front), last);
    var row := After(cfg, y, labels).cache[s];
    if s in After(cfg, y, front).cache && After(cfg, y, front).cache[s] == row {
      n := CachedRowsWereRead(cfg, y, front, s);
      assert labels[..n] == front[..n];
    } else {
      n := k;
    }
  }

  lemma LastStep(cfg: D.Config, y: Sys, l: Label)
    requires Runs(cfg, y, [l])
    ensures Enabled(cfg, y, l) && After(cfg, y, [l]) == Next(cfg, y, l)
  {
    assert [l][1..] == [];
  }
}
