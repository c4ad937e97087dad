/** The endpoint as it runs, against a Redis server, a database, a row cache and a queue it updates in place. */
module PurchasesService {
  import opened Prelude
  import opened Emails
  import opened Store
  import opened Database
  import opened Sales
  import opened Gate
  import opened RedisServer
  import opened Api

  class SalesService {
    const db: PurchaseDatabase
    var cache: Cache

    constructor (db: PurchaseDatabase)
      ensures this.db == db && cache == map[]
    {
      this.db, this.cache := db, map[];
    }

    method FindRow(id: SaleId) returns (row: Option<Sale>)
      modifies `cache
      ensures id in old(cache) ==> row == Some(old(cache)[id]) && cache == old(cache)
      ensures id !in old(cache) && id in db.sales ==>
        row == Some(db.sales[id]) && cache == old(cache)[id := db.sales[id]]
      ensures id !in old(cache) && id !in db.sales ==> row == None && cache == old(cache)
      ensures Lookup(row, cache) == FindRowById(old(cache), db.sales, id)
    {
      if id in cache {
        return Some(cache[id]);
      }
      if id !in db.sales {
        return None;
      }
      row := Some(db.sales[id]);
      cache := cache[id := db.sales[id]];
    }
  }

  class Service {
    const redis: Server
    const db: PurchaseDatabase
    const sales: SalesService
    var queue: seq<Entry>

    ghost predicate Wired()
      reads this
    {
      sales.db == db
    }

    ghost function State(): World
      reads this, redis, db, sales
    {
      World(redis.Keyspace(), db.Tables(), sales.cache, queue)
    }

    constructor (redis: Server, db: PurchaseDatabase, sales: SalesService)
      requires sales.db == db
      ensures this.redis == redis && this.db == db && this.sales == sales && queue == [] && Wired()
    {
      this.redis, this.db, this.sales, this.queue := redis, db, sales, [];
    }

    method WriteSynchronously(saleId: SaleId, email: string, databaseNow: int) returns (reply: Reply)
      modifies db
      ensures var r := WriteOne(old(db.Tables()), saleId, email, databaseNow);
        reply == ReplyOf(r) && db.Tables() == TablesAfter(r, old(db.Tables()))
    {
      var written := db.WritePurchase(saleId, email, databaseNow);
      reply := if written.Ok? then Answer(written.value) else ServerError(written.error);
    }

    method Record(saleId: SaleId, email: string, apiNow: int, databaseNow: int) returns (reply: Reply)
      requires Wired()
      modifies db, sales
      ensures Recorded(reply, db.Tables(), sales.cache) ==
              RecordPurchase(old(db.Tables()), old(sales.cache), saleId, email, apiNow, databaseNow)
    {
      var sale := sales.FindRow(saleId);
      if sale.None? {
        return SaleNotFound;
      }
      if !IsSaleOpen(sale.value, apiNow) {
        return Answer(SaleNotActive);
      }
      reply := WriteSynchronously(saleId, email, databaseNow);
    }

    method Purchase(saleId: SaleId, email: string, env: Weather) returns (reply: Reply)
      requires Wired()
      modifies this`queue, redis, db, sales
      ensures Wired()
      ensures (reply, State()) == Api.Purchase(old(State()), saleId, email, env)
    {
      var code := NotWarmed;
      if env.redisUp {
        code := redis.ReservePurchase(saleId, email, env.now);
      }
      match code {
        case Rejected(outcome) =>
          reply := Answer(outcome);
        case Reserved =>
          if env.brokerUp {
            queue := queue + [Entry(saleId, email, env.now)];
            reply := Answer(Success);
          } else {
            reply := WriteSynchronously(saleId, email, env.databaseNow);
          }
        case NotWarmed =>
          reply := Record(saleId, email, env.laterNow, env.databaseNow);
      }
    }
  }

  // ---------------------------------------------------------------- warm

  /** Emails as stored, before folding. */
  function StoredEmails(db: Db, s: SaleId): set<string> {
    set k | k in db.purchases && k.saleId == s :: db.purchases[k].email
  }

  lemma FoldedEmailsAreTheBuyers(db: Db, s: SaleId, emails: seq<string>)
    requires SchemaHolds(db) && SetOf(emails) == StoredEmails(db, s)
    ensures Folded(emails) == BuyersOf(db, s)
  {
    forall email ensures email in Folded(emails) <==> email in BuyersOf(db, s) {
      if email in Folded(emails) {
        var stored :| stored in emails && NormalizeEmail(stored) == email;
        assert stored in SetOf(emails);
        var k :| k in db.purchases && k.saleId == s && db.purchases[k].email == stored;
        assert RowChecks(db.sales, k, db.purchases[k]);
      }
      if email in BuyersOf(db, s) {
        var k := Key(s, email);
        assert RowChecks(db.sales, k, db.purchases[k]);
        assert db.purchases[k].email in SetOf(emails);
      }
    }
  }

  /** `SELECT email FROM purchases WHERE sale_id = s`, in no particular order. */
  method SelectEmails(db: PurchaseDatabase, s: SaleId) returns (emails: seq<string>)
    ensures SetOf(emails) == StoredEmails(db.Tables(), s)
  {
    var left := StoredEmails(db.Tables(), s);
    emails := [];
    while left != {}
      invariant SetOf(emails) + left == StoredEmails(db.Tables(), s)
      decreases left
    {
      var email :| email in left;
      assert SetOf(emails + [email]) == SetOf(emails) + {email};
      left, emails := left - {email}, emails + [email];
    }
  }

  /** Which sales a warm loads. */
  predicate Warmable(sale: Sale, now: int) {
    sale.cancelledAt == None && sale.endsAt > now
  }

  /** A warm loads exactly the sales that the Postgres-only path could still sell from, now or at some later moment. */
  lemma WarmLoadsWhatCanStillSell(sale: Sale, now: int)
    requires SaleChecks(sale)
    ensures Warmable(sale, now) <==> exists later :: later >= now && IsSaleOpen(sale, later)
  {
    if Warmable(sale, now) {
      var later := if now < sale.startsAt then sale.startsAt else now;
      assert IsSaleOpen(sale, later);
    }
  }

  /** The Redis state of `s` says exactly what the tables say. */
  ghost predicate InSync(r: Redis, db: Db, s: SaleId)
    requires s in db.sales
  {
    && s in r.stock && r.stock[s] == Some(db.sales[s].remainingStock)
    && s in r.meta
    && r.meta[s] == Meta(Some(db.sales[s].startsAt), Some(db.sales[s].endsAt), db.sales[s].cancelledAt.Some?)
    && Members(r, s) == BuyersOf(db, s)
  }

  predicate SameSale(r: Redis, r': Redis, s: SaleId) {
    && (s in r.stock <==> s in r'.stock) && (s in r.stock ==> r.stock[s] == r'.stock[s])
    && (s in r.meta <==> s in r'.meta) && (s in r.meta ==> r.meta[s] == r'.meta[s])
    && Members(r, s) == Members(r', s)
  }

  lemma SyncedSale(r: Redis, db: Db, s: SaleId, emails: seq<string>)
    requires SchemaHolds(db) && s in db.sales && SetOf(emails) == StoredEmails(db, s)
    ensures var sale := db.sales[s];
      var r' := SyncSale(r, s, SyncInput(sale.remainingStock, sale.startsAt, sale.endsAt, sale.cancelledAt), emails);
      InSync(r', db, s) && forall t :: t != s ==> SameSale(r, r', t)
  {
    FoldedEmailsAreTheBuyers(db, s, emails);
    if emails == [] {
      assert Folded(emails) == {};
    }
  }

  /**
   `redis:warm` with nothing else running: every open or upcoming uncancelled sale ends up in step with
   the tables, whatever Redis held before, and no other sale is touched.
   */
  method Warm(redis: Server, db: PurchaseDatabase, now: int)
    requires SchemaHolds(db.Tables())
    modifies redis
    ensures forall s :: s in db.sales && Warmable(db.sales[s], now) ==> InSync(redis.Keyspace(), db.Tables(), s)
    ensures forall s :: s !in db.sales || !Warmable(db.sales[s], now) ==>
              SameSale(old(redis.Keyspace()), redis.Keyspace(), s)
  {
    var rows := set s | s in db.sales && Warmable(db.sales[s], now);
    var left := rows;
    while left != {}
      invariant left <= rows
      invariant forall s :: s in rows - left ==> InSync(redis.Keyspace(), db.Tables(), s)
      invariant forall s :: s !in rows ==> SameSale(old(redis.Keyspace()), redis.Keyspace(), s)
      decreases left
    {
      var s :| s in left;
      var sale := db.sales[s];
      var emails := SelectEmails(db, s);
      ghost var before := redis.Keyspace();
      assert forall t :: t in rows - left ==> InSync(before, db.Tables(), t);
      redis.SyncSale(s, SyncInput(sale.remainingStock, sale.startsAt, sale.endsAt, sale.cancelledAt), emails);
      SyncedSale(before, db.Tables(), s, emails);
      forall t | t in rows - (left - {s}) ensures InSync(redis.Keyspace(), db.Tables(), t) {
        if t != s {
          assert t in rows - left;
          assert InSync(before, db.Tables(), t) && SameSale(before, redis.Keyspace(), t);
        }
      }
      left := left - {s};
    }
  }
}
