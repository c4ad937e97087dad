/**
 The purchase endpoint: ask the gate, hand a reservation to the queue or write it synchronously, and
 fall back to the Postgres-only path when Redis is down or the sale is cold.
 */
module Api {
  import opened Store
  import opened Sales
  import opened Gate

  datatype Reply = Answer(outcome: Outcome) | SaleNotFound | ServerError(error: DbError)

  function ReplyOf(r: WriteResult): Reply {
    match r
    case Answered(outcome, _) => Answer(outcome)
    case Threw(error) => ServerError(error)
  }

  function TablesAfter(r: WriteResult, db: Db): Db {
    if r.Answered? then r.db else db
  }

  datatype Recorded = Recorded(reply: Reply, db: Db, cache: Cache)

  /** The Postgres-only path: precheck on a possibly cached row, then the single-row write on the database's clock. */
  function RecordPurchase(
    db: Db, cache: Cache, saleId: SaleId, email: string, apiNow: int, databaseNow: int): Recorded
  {
    var found := FindRowById(cache, db.sales, saleId);
    if found.row.None? then Recorded(SaleNotFound, db, found.cache)
    else if !IsSaleOpen(found.row.value, apiNow) then Recorded(Answer(SaleNotActive), db, found.cache)
    else
      var r := WriteOne(db, saleId, email, databaseNow);
      Recorded(ReplyOf(r), TablesAfter(r, db), found.cache)
  }

  /** What one request can see and change. */
  datatype World = World(redis: Redis, db: Db, cache: Cache, queue: seq<Entry>)

  /** What the environment does to one request: which services answer, and what the clocks say. */
  datatype Weather = Weather(redisUp: bool, brokerUp: bool, now: int, laterNow: int, databaseNow: int)

  function Purchase(w: World, saleId: SaleId, email: string, env: Weather): (Reply, World) {
    var (code, redis) := if env.redisUp then Reserve(w.redis, saleId, email, env.now) else (NotWarmed, w.redis);
    match code
    case Rejected(outcome) => (Answer(outcome), w.(redis := redis))
    case Reserved =>
      if env.brokerUp then (Answer(Success), w.(redis := redis, queue := w.queue + [Entry(saleId, email, env.now)]))
      else
        var r := WriteOne(w.db, saleId, email, env.databaseNow);
        (ReplyOf(r), w.(redis := redis, db := TablesAfter(r, w.db)))
    case NotWarmed =>
      var done := RecordPurchase(w.db, w.cache, saleId, email, env.laterNow, env.databaseNow);
      (done.reply, w.(redis := redis, db := done.db, cache := done.cache))
  }
}
