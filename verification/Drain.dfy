/**
 The batching consumer as an event-driven state machine: the broker's channel on one side, the
 closure variables of the worker on the other. One event is one run-to-completion segment.
 */
module Drain {
  import opened Store

  /** `prefetch` 0 means unlimited, as in basic.qos. */
  datatype Config = Config(prefetch: nat, batchSize: int, maxAttempts: int)

  /** A message body either parses as a purchase write or makes `JSON.parse` throw. */
  datatype Body = Parsed(entry: Entry) | Malformed

  datatype Delivery = Delivery(tag: nat, body: Body)

  // ---------------------------------------------------------------- channel

  datatype Verdict = Acked | DeadLettered

  datatype Settlement = Settlement(delivery: Delivery, verdict: Verdict)

  /** `settled` is the history of this channel: what the broker took as settled, and how, in order. */
  datatype Channel = Channel(
    ready: seq<Body>, unacked: seq<Delivery>, dead: seq<Body>, nextTag: nat, settled: seq<Settlement>)

  function Marked(ds: seq<Delivery>, verdict: Verdict): seq<Settlement> {
    seq(|ds|, i requires 0 <= i < |ds| => Settlement(ds[i], verdict))
  }

  function UpTo(ds: seq<Delivery>, tag: nat): seq<Delivery> {
    if ds == [] then []
    else UpTo(ds[..|ds| - 1], tag) + if ds[|ds| - 1].tag <= tag then [ds[|ds| - 1]] else []
  }

  function Beyond(ds: seq<Delivery>, tag: nat): seq<Delivery> {
    if ds == [] then []
    else Beyond(ds[..|ds| - 1], tag) + if ds[|ds| - 1].tag > tag then [ds[|ds| - 1]] else []
  }

  /** basic.ack with `multiple`: every outstanding delivery up to and including the tag is settled. */
  function AckUpTo(c: Channel, tag: nat): Channel {
    c.(unacked := Beyond(c.unacked, tag), settled := c.settled + Marked(UpTo(c.unacked, tag), Acked))
  }

  function Without(ds: seq<Delivery>, tag: nat): seq<Delivery> {
    if ds == [] then []
    else if ds[0].tag == tag then ds[1..]
    else [ds[0]] + Without(ds[1..], tag)
  }

  /** basic.nack of one delivery, not requeued: the queue's dead-letter routing takes the message. */
  function NackOne(c: Channel, d: Delivery): Channel {
    c.(unacked := Without(c.unacked, d.tag),
       dead := c.dead + [d.body],
       settled := c.settled + [Settlement(d, DeadLettered)])
  }

  function NackEach(c: Channel, ds: seq<Delivery>): Channel {
    if ds == [] then c else NackOne(NackEach(c, ds[..|ds| - 1]), ds[|ds| - 1])
  }

  function Bodies(ds: seq<Delivery>): seq<Body> {
    seq(|ds|, i requires 0 <= i < |ds| => ds[i].body)
  }

  /** The channel is gone: outstanding messages return to the queue, and a new channel starts its tags anew. */
  function Reopened(c: Channel): Channel {
    Channel(Bodies(c.unacked) + c.ready, [], c.dead, 1, [])
  }

  // ---------------------------------------------------------------- worker

  /** The running `flush`: none, in its retry loop, or rejected by a throw, which blocks the chain for good. */
  datatype Flushing = Idle | Writing(batch: seq<Delivery>, attempt: int) | Broken(batch: seq<Delivery>)

  /** `stop`: not called, waiting for the consumer to be cancelled, or waiting for the chain. */
  datatype StopState = Running | Cancelling | Awaiting

  /** `accepted` and `ignored` are histories: deliveries pushed to `pending`, and deliveries dropped because stopped. */
  datatype Worker = Worker(
    pending: seq<Delivery>, timerArmed: bool, queuedFlushes: nat, flushing: Flushing, stop: StopState,
    accepted: seq<Delivery>, ignored: seq<Delivery>)

  datatype State = State(channel: Channel, worker: Worker)

  const FRESH_WORKER := Worker([], false, 0, Idle, Running, [], [])

  /** The `consume` callback. */
  function OnMessage(cfg: Config, w: Worker, d: Delivery): Worker {
    if w.stop != Running then w.(ignored := w.ignored + [d])
    else
      var w' := w.(pending := w.pending + [d], accepted := w.accepted + [d]);
      if |w'.pending| >= cfg.batchSize then w'.(timerArmed := false, queuedFlushes := w.queuedFlushes + 1)
      else w'.(timerArmed := true)
  }

  predicate AllParsed(ds: seq<Delivery>) {
    forall d :: d in ds ==> d.body.Parsed?
  }

  datatype Event =
    | Publish(body: Body)
    | Deliver
    | TimerFires
    | FlushStarts
    | WriteSucceeds
    | WriteFails
    | StopCalled
    | CancelConfirmed
    | ChannelCloses

  predicate Enabled(cfg: Config, s: State, ev: Event) {
    match ev
    case Publish(_) => true
    case Deliver =>
      && s.channel.ready != [] && s.worker.stop != Awaiting
      && (cfg.prefetch == 0 || |s.channel.unacked| < cfg.prefetch)
    case TimerFires => s.worker.timerArmed
    case FlushStarts => s.worker.queuedFlushes > 0 && s.worker.flushing.Idle?
    case WriteSucceeds => s.worker.flushing.Writing? && s.worker.flushing.batch != []
    case WriteFails => s.worker.flushing.Writing?
    case StopCalled => s.worker.stop == Running
    case CancelConfirmed => s.worker.stop == Cancelling
    case ChannelCloses => true
  }

  /** `flush` up to its first `await`: take everything pending, parse it, and enter the retry loop. */
  function StartFlush(cfg: Config, s: State): State
    requires s.worker.queuedFlushes > 0
  {
    var w := s.worker.(queuedFlushes := s.worker.queuedFlushes - 1);
    var batch := w.pending;
    if batch == [] then s.(worker := w)
    else if !AllParsed(batch) then s.(worker := w.(pending := [], flushing := Broken(batch)))
    else if cfg.maxAttempts < 1 then State(NackEach(s.channel, batch), w.(pending := []))
    else s.(worker := w.(pending := [], flushing := Writing(batch, 1)))
  }

  /** A write attempt succeeded: acknowledge the last message of the batch, cumulatively. */
  function Succeed(s: State): State
    requires s.worker.flushing.Writing? && s.worker.flushing.batch != []
  {
    var batch := s.worker.flushing.batch;
    State(AckUpTo(s.channel, batch[|batch| - 1].tag), s.worker.(flushing := Idle))
  }

  /** A write attempt failed: try again, or give the batch up message by message. */
  function Fail(cfg: Config, s: State): State
    requires s.worker.flushing.Writing?
  {
    var Writing(batch, attempt) := s.worker.flushing;
    if attempt < cfg.maxAttempts then s.(worker := s.worker.(flushing := Writing(batch, attempt + 1)))
    else State(NackEach(s.channel, batch), s.worker.(flushing := Idle))
  }

  function Next(cfg: Config, s: State, ev: Event): State
    requires Enabled(cfg, s, ev)
  {
    var c, w := s.channel, s.worker;
    match ev
    case Publish(body) => s.(channel := c.(ready := c.ready + [body]))
    case Deliver =>
      var d := Delivery(c.nextTag, c.ready[0]);
      State(c.(ready := c.ready[1..], unacked := c.unacked + [d], nextTag := c.nextTag + 1), OnMessage(cfg, w, d))
    case TimerFires => s.(worker := w.(timerArmed := false, queuedFlushes := w.queuedFlushes + 1))
    case FlushStarts => StartFlush(cfg, s)
    case WriteSucceeds => Succeed(s)
    case WriteFails => Fail(cfg, s)
    case StopCalled => s.(worker := w.(stop := Cancelling))
    case CancelConfirmed =>
      s.(worker := w.(stop := Awaiting, timerArmed := false, queuedFlushes := w.queuedFlushes + 1))
    case ChannelCloses => State(Reopened(c), FRESH_WORKER)
  }

  // ---------------------------------------------------------------- invariant

  function InFlight(f: Flushing): seq<Delivery> {
    if f.Idle? then [] else f.batch
  }

  function Deliveries(settled: seq<Settlement>): seq<Delivery> {
    seq(|settled|, i requires 0 <= i < |settled| => settled[i].delivery)
  }

  predicate TagsIncrease(ds: seq<Delivery>) {
    forall i, j :: 0 <= i < j < |ds| ==> ds[i].tag < ds[j].tag
  }

  /** Arrival order is settlement order: what was settled, then what is in flight, then what is pending. */
  ghost predicate Ordered(s: State) {
    && s.channel.unacked == InFlight(s.worker.flushing) + s.worker.pending + s.worker.ignored
    && s.worker.accepted == Deliveries(s.channel.settled) + InFlight(s.worker.flushing) + s.worker.pending
    && TagsIncrease(s.worker.accepted + s.worker.ignored)
    && (forall d :: d in s.worker.accepted + s.worker.ignored ==> d.tag < s.channel.nextTag)
    && (s.worker.ignored != [] ==> s.worker.stop != Running)
  }

  /** Pending work always has a wake-up call outstanding. */
  predicate Scheduled(w: Worker) {
    && (w.pending != [] ==> w.timerArmed || w.queuedFlushes > 0)
    && (w.stop == Awaiting ==> !w.timerArmed)
  }

  predicate FlushShape(cfg: Config, f: Flushing) {
    && (f.Writing? ==> f.batch != [] && 1 <= f.attempt <= cfg.maxAttempts && AllParsed(f.batch))
    && (f.Broken? ==> f.batch != [] && !AllParsed(f.batch))
  }

  ghost predicate Inv(cfg: Config, s: State) {
    Ordered(s) && Scheduled(s.worker) && FlushShape(cfg, s.worker.flushing)
  }
}
