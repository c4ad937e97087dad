/**
 What the purchase endpoint answers, stated over the rows, the keys and the clocks alone, for each way a request
 can go: rejected or reserved by the gate, queued, written directly, or sent down the Postgres-only path.
 */
module ApiTheorems {
  import opened Prelude
  import opened Emails
  import opened Store
  import opened StoreTheorems
  import opened Sales
  import opened Gate
  import opened Api

  /** One row and one unit more for the buyer. */
  function Sold(db: Db, s: SaleId, email: string, at: int): Db
    requires s in db.sales
  {
    Db(db.sales[s := db.sales[s].(remainingStock := db.sales[s].remainingStock - 1)],
       db.purchases[Key(s, NormalizeEmail(email)) := Purchase(email, at)])
  }

  /** What a direct write answers and leaves. */
  ghost predicate DirectAnswer(db: Db, s: SaleId, email: string, env: Weather, reply: Reply, db': Db) {
    && (s !in db.sales ==> reply == ServerError(NoSuchSale))
    && (s in db.sales ==>
          reply == Answer(
            if env.databaseNow < db.sales[s].startsAt || env.databaseNow > db.sales[s].endsAt then SaleNotActive
            else if Key(s, NormalizeEmail(email)) in db.purchases then AlreadyPurchased
            else if db.sales[s].remainingStock == 0 then SoldOut
            else Success))
    && db' == if reply == Answer(Success) && s in db.sales then Sold(db, s, email, env.databaseNow) else db
  }

  lemma DirectWriteAnswers(db: Db, s: SaleId, email: string, env: Weather)
    requires SchemaHolds(db)
    ensures var r := WriteOne(db, s, email, env.databaseNow);
      DirectAnswer(db, s, email, env, ReplyOf(r), TablesAfter(r, db))
  {
    WriteOneMeans(db, s, email, env.databaseNow);
    if s in db.sales {
      assert SaleChecks(db.sales[s]);
    }
  }

  /** One unit less and one buyer more, in Redis. */
  predicate TakenFrom(r: Redis, s: SaleId, key: string, r': Redis)
    requires s in r.stock && r.stock[s].Some?
  {
    && r'.meta == r.meta
    && r'.stock == r.stock[s := Some(r.stock[s].value - 1)]
    && r'.buyers == r.buyers[s := (if s in r.buyers then r.buyers[s] else {}) + {key}]
  }

  lemma ReservationTakes(r: Redis, s: SaleId, email: string, now: int)
    requires Decide(r, s, NormalizeEmail(email), now) == Reserved
    ensures s in r.stock && r.stock[s].Some?
    ensures Reserve(r, s, email, now).0 == Reserved
    ensures TakenFrom(r, s, NormalizeEmail(email), Reserve(r, s, email, now).1)
  {
  }

  /**
   The Postgres-only path, taken when Redis is down or the sale is cold: not found exactly for an unknown sale;
   else not active if cancelled or closed on the API clock; else not active outside the period on the database
   clock; else a duplicate, sold out, or success. Only success touches the tables. Neither Redis nor the queue is
   touched, and a row that was read is cached.
   */
  lemma ColdRequest(w: World, s: SaleId, email: string, env: Weather)
    requires SchemaHolds(w.db) && CacheLags(w.cache, w.db)
    requires !env.redisUp || s !in w.redis.stock || s !in w.redis.meta
    ensures var (reply, w') := Api.Purchase(w, s, email, env);
      && (reply == SaleNotFound <==> s !in w.db.sales)
      && (s in w.db.sales ==>
            var sale := w.db.sales[s];
            reply == Answer(
              if sale.cancelledAt != None then SaleNotActive
              else if env.laterNow < sale.startsAt || env.laterNow >= sale.endsAt then SaleNotActive
              else if env.databaseNow < sale.startsAt || env.databaseNow > sale.endsAt then SaleNotActive
              else if Key(s, NormalizeEmail(email)) in w.db.purchases then AlreadyPurchased
              else if sale.remainingStock == 0 then SoldOut
              else Success))
      && w'.db == (if reply == Answer(Success) then Sold(w.db, s, email, env.databaseNow) else w.db)
      && w'.redis == w.redis && w'.queue == w.queue
      && w'.cache == (if s in w.cache || s !in w.db.sales then w.cache else w.cache[s := w.db.sales[s]])
  {
    LookupMeans(w.cache, w.db.sales, s);
    WriteOneMeans(w.db, s, email, env.databaseNow);
    if s in w.cache {
      assert SameBut(w.cache[s], w.db.sales[s]);
    }
    if s in w.db.sales {
      assert SaleChecks(w.db.sales[s]);
    }
  }

  /** The gate is open for new reservations: window read, not cancelled, and the clock inside it. */
  predicate OpenAt(meta: Meta, now: int) {
    !meta.cancelled && meta.startsAt.Some? && meta.endsAt.Some? && now >= meta.startsAt.value && now < meta.endsAt.value
  }

  /**
   What the script answers, on whatever its keys hold: cold without stock or meta key; else not active unless the
   window is readable, uncancelled and open; else a duplicate for a known buyer; else sold out unless stock is a
   positive number; else reserved.
   */
  lemma DecisionMeans(r: Redis, s: SaleId, email: string, now: int)
    ensures var code := Decide(r, s, email, now);
      && (code == NotWarmed <==> s !in r.stock || s !in r.meta)
      && (code != NotWarmed ==>
            code ==
              if !OpenAt(r.meta[s], now) then Rejected(SaleNotActive)
              else if s in r.buyers && email in r.buyers[s] then Rejected(AlreadyPurchased)
              else if r.stock[s] == None || r.stock[s].value <= 0 then Rejected(SoldOut)
              else Reserved)
  {
  }

  /**
   A request the gate answers: a rejection changes nothing. A reservation takes one unit and adds the buyer; then
   it is queued with the request's own clock value and answered with success, or, without a broker, written
   directly and answered by the table.
   */
  lemma WarmRequest(w: World, s: SaleId, email: string, env: Weather)
    requires SchemaHolds(w.db) && env.redisUp && s in w.redis.stock && s in w.redis.meta
    ensures var (reply, w') := Api.Purchase(w, s, email, env);
      var code := Decide(w.redis, s, NormalizeEmail(email), env.now);
      && code != NotWarmed
      && w'.cache == w.cache
      && (code.Rejected? ==> reply == Answer(code.outcome) && w' == w)
      && (code == Reserved ==>
            w.redis.stock[s].Some? && TakenFrom(w.redis, s, NormalizeEmail(email), w'.redis))
      && (code == Reserved && env.brokerUp ==>
            reply == Answer(Success) && w'.db == w.db && w'.queue == w.queue + [Entry(s, email, env.now)])
      && (code == Reserved && !env.brokerUp ==> w'.queue == w.queue && DirectAnswer(w.db, s, email, env, reply, w'.db))
  {
    if Decide(w.redis, s, NormalizeEmail(email), env.now) == Reserved {
      ReservationTakes(w.redis, s, email, env.now);
      DirectWriteAnswers(w.db, s, email, env);
    }
  }
}
