/**
 The whole purchase pipeline as one step relation: requests, publishes and fallbacks, the consumer and
 its failures, warms, sweeps and requests that bypass Redis, interleaved in any order. Every database
 transaction and every Redis script is one atomic step.
 */
module System {
  import opened Prelude
  import opened Emails
  import opened Store
  import opened Sales
  import opened Gate
  import opened Api
  import D = Drain

  /**
   `limbo` holds the calls that have a reservation and no publish result yet; `replies` what each call was
   answered. `published`, `acked` and `direct` are histories: what the broker took, what a worker
   acknowledged, and the keys that single-row writes inserted.
   */
  datatype Sys = Sys(
    redis: Redis, db: Db, cache: Cache, drain: D.State,
    calls: nat, limbo: map<nat, Entry>, replies: map<nat, Reply>,
    published: set<Entry>, acked: set<Entry>, direct: set<Key>)

  datatype Label =
    | Ask(saleId: SaleId, email: string, now: int)
    | PublishOk(id: nat)
    | FallBack(id: nat, databaseNow: int, seen: bool)
    | Abandon(id: nat)
    | Bypass(saleId: SaleId, email: string, now: int, databaseNow: int, cold: bool, seen: bool)
    | ReadSale(saleId: SaleId)
    | ExpireRow(saleId: SaleId)
    | Junk
    | Consume(ev: D.Event)
    | BatchOk
    | StrayCommit(entries: seq<Entry>)
    | WarmSale(saleId: SaleId, remainingStock: int, emails: seq<string>)
    | DeleteKeys(keys: set<RedisKey>)
    | RedisRestarts(redis: Redis)

  // ---------------------------------------------------------------- what is where

  function EntriesIn(bodies: seq<D.Body>): set<Entry> {
    set b | b in bodies && b.Parsed? :: b.entry
  }

  /** Entries the broker still holds for the worker, delivered or not. */
  function Outstanding(d: D.State): set<Entry> {
    EntriesIn(d.channel.ready) + EntriesIn(D.Bodies(d.channel.unacked))
  }

  function DeadEntries(d: D.State): set<Entry> {
    EntriesIn(d.channel.dead)
  }

  /** Entries dead-lettered since the dead queue held `mark` messages. */
  function DeadSince(d: D.State, mark: nat): set<Entry> {
    if mark <= |d.channel.dead| then EntriesIn(d.channel.dead[mark..]) else {}
  }

  /**
   Entries a worker may have in a transaction, one whose outcome it never learnt included: a COMMIT can land
   after the message was given up.
   */
  function Sent(d: D.State, mark: nat): set<Entry> {
    Outstanding(d) + DeadSince(d, mark)
  }

  /** Entries that have been promised to a buyer and may still be written. */
  function Promised(y: Sys, mark: nat): set<Entry> {
    y.limbo.Values + Sent(y.drain, mark)
  }

  function EntriesOf(ds: seq<D.Delivery>): seq<Entry>
    requires D.AllParsed(ds)
  {
    seq(|ds|, i requires 0 <= i < |ds| => assert ds[i] in ds; ds[i].body.entry)
  }

  function KeysFor(es: set<Entry>): set<Key> {
    set e | e in es :: KeyOf(e)
  }

  /** The entries of the deliveries that the broker took as acknowledged by this step. */
  function NewlyAcked(before: D.Channel, after: D.Channel): set<Entry> {
    if |before.settled| <= |after.settled| then
      set st | st in after.settled[|before.settled|..] && st.verdict == D.Acked && st.delivery.body.Parsed?
        :: st.delivery.body.entry
    else {}
  }

  // ---------------------------------------------------------------- steps

  predicate WorkerEvent(ev: D.Event) {
    !ev.Publish? && !ev.WriteSucceeds?
  }

  /** The gate's idea of a sale's window is the table's. */
  predicate MetaTrue(redis: Redis, sales: map<SaleId, Sale>) {
    forall s :: s in redis.meta ==>
      s in sales && redis.meta[s] == Meta(Some(sales[s].startsAt), Some(sales[s].endsAt), sales[s].cancelledAt.Some?)
  }

  /**
   What may happen. A restarted Redis comes back with some keyspace that a warm once wrote windows into: it may
   have lost reservations, forgotten buyers, or revived keys that were swept.
   */
  predicate Enabled(cfg: D.Config, y: Sys, l: Label) {
    match l
    case Ask(s, email, now) => Decide(y.redis, s, NormalizeEmail(email), now) != NotWarmed
    case PublishOk(id) => id in y.limbo
    case FallBack(id, _, _) => id in y.limbo
    case Abandon(id) => id in y.limbo
    case Bypass(s, email, now, _, cold, _) => cold ==> Decide(y.redis, s, NormalizeEmail(email), now) == NotWarmed
    case Consume(ev) => WorkerEvent(ev) && D.Enabled(cfg, y.drain, ev)
    case BatchOk =>
      && D.Enabled(cfg, y.drain, D.WriteSucceeds)
      && D.AllParsed(y.drain.worker.flushing.batch)
      && WriteBatch(y.db, EntriesOf(y.drain.worker.flushing.batch)).Committed?
    case StrayCommit(entries) => (forall e :: e in entries ==> e in y.published) && WriteBatch(y.db, entries).Committed?
    case WarmSale(s, remaining, emails) =>
      && s in y.db.sales
      && y.db.sales[s].remainingStock <= remaining <= y.db.sales[s].totalStock
      && Folded(emails) <= BuyersOf(y.db, s)
    case RedisRestarts(redis) => MetaTrue(redis, y.db.sales)
    case _ => true
  }

  function AskNext(y: Sys, s: SaleId, email: string, now: int): Sys {
    var (code, redis) := Reserve(y.redis, s, email, now);
    match code
    case Reserved => y.(redis := redis, calls := y.calls + 1, limbo := y.limbo[y.calls := Entry(s, email, now)])
    case Rejected(outcome) => y.(calls := y.calls + 1, replies := y.replies[y.calls := Answer(outcome)])
    case NotWarmed => y
  }

  function PublishNext(cfg: D.Config, y: Sys, id: nat): Sys
    requires id in y.limbo
  {
    var e := y.limbo[id];
    y.(drain := D.Next(cfg, y.drain, D.Publish(D.Parsed(e))), limbo := y.limbo - {id},
       replies := y.replies[id := Answer(Success)], published := y.published + {e})
  }

  function FallBackNext(y: Sys, id: nat, databaseNow: int, seen: bool): Sys
    requires id in y.limbo
  {
    var e := y.limbo[id];
    var r := WriteOne(y.db, e.saleId, e.email, databaseNow);
    y.(db := TablesAfter(r, y.db), limbo := y.limbo - {id},
       replies := if seen then y.replies[id := ReplyOf(r)] else y.replies,
       direct := if r.Answered? && r.outcome == Success then y.direct + {KeyOf(e)} else y.direct)
  }

  function BypassNext(y: Sys, s: SaleId, email: string, now: int, databaseNow: int, seen: bool): Sys {
    var r := RecordPurchase(y.db, y.cache, s, email, now, databaseNow);
    y.(db := r.db, cache := r.cache, calls := y.calls + 1,
       replies := if seen then y.replies[y.calls := r.reply] else y.replies,
       direct := if r.reply == Answer(Success) then y.direct + {Key(s, NormalizeEmail(email))} else y.direct)
  }

  function CommitNext(y: Sys, entries: seq<Entry>): Sys
    requires WriteBatch(y.db, entries).Committed?
  {
    y.(db := WriteBatch(y.db, entries).db)
  }

  /** A warm copies the window and the cancellation of the row, with stock and buyers as read at some earlier moment. */
  function WarmNext(y: Sys, s: SaleId, remaining: int, emails: seq<string>): Sys
    requires s in y.db.sales
  {
    var sale := y.db.sales[s];
    y.(redis := SyncSale(y.redis, s, SyncInput(remaining, sale.startsAt, sale.endsAt, sale.cancelledAt), emails))
  }

  function Next(cfg: D.Config, y: Sys, l: Label): Sys
    requires Enabled(cfg, y, l)
  {
    match l
    case Ask(s, email, now) => AskNext(y, s, email, now)
    case PublishOk(id) => PublishNext(cfg, y, id)
    case FallBack(id, databaseNow, seen) => FallBackNext(y, id, databaseNow, seen)
    case Abandon(id) => y.(limbo := y.limbo - {id})
    case Bypass(s, email, now, databaseNow, _, seen) => BypassNext(y, s, email, now, databaseNow, seen)
    case ReadSale(s) => y.(cache := FindRowById(y.cache, y.db.sales, s).cache)
    case ExpireRow(s) => y.(cache := y.cache - {s})
    case Junk => y.(drain := D.Next(cfg, y.drain, D.Publish(D.Malformed)))
    case Consume(ev) => y.(drain := D.Next(cfg, y.drain, ev))
    case BatchOk =>
      var drain := D.Next(cfg, y.drain, D.WriteSucceeds);
      CommitNext(y, EntriesOf(y.drain.worker.flushing.batch))
        .(drain := drain, acked := y.acked + NewlyAcked(y.drain.channel, drain.channel))
    case StrayCommit(entries) => CommitNext(y, entries)
    case WarmSale(s, remaining, emails) => WarmNext(y, s, remaining, emails)
    case DeleteKeys(keys) => y.(redis := Del(y.redis, keys))
    case RedisRestarts(redis) => y.(redis := redis)
  }

  predicate Runs(cfg: D.Config, y: Sys, labels: seq<Label>)
    decreases |labels|
  {
    labels != [] ==> Enabled(cfg, y, labels[0]) && Runs(cfg, Next(cfg, y, labels[0]), labels[1..])
  }

  function After(cfg: D.Config, y: Sys, labels: seq<Label>): Sys
    requires Runs(cfg, y, labels)
    decreases |labels|
  {
    if labels == [] then y else After(cfg, Next(cfg, y, labels[0]), labels[1..])
  }
}
