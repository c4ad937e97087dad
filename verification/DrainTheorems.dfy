/**
 What the consumer guarantees: the cumulative ack settles exactly the written batch, every accepted
 message is settled once and in arrival order, nothing pending is ever left without a wake-up,
 draining takes boundedly many steps, and `stop` resolves only when everything is settled.
 */
module DrainTheorems {
  import opened Prelude
  import opened Drain

  // ---------------------------------------------------------------- channel operations on ordered tags

  lemma {:induction false} AllUpToTag(a: seq<Delivery>, tag: nat)
    requires forall d :: d in a ==> d.tag <= tag
    ensures UpTo(a, tag) == a && Beyond(a, tag) == []
  {
    if a != [] {
      AllUpToTag(a[..|a| - 1], tag);
    }
  }

  lemma {:induction false} SplitAtTag(a: seq<Delivery>, b: seq<Delivery>, tag: nat)
    requires forall d :: d in a ==> d.tag <= tag
    requires forall d :: d in b ==> d.tag > tag
    ensures UpTo(a + b, tag) == a
    ensures Beyond(a + b, tag) == b
  {
    if b == [] {
      assert a + b == a;
      AllUpToTag(a, tag);
    } else {
      var front := b[..|b| - 1];
      SplitAtTag(a, front, tag);
      assert (a + b)[..|a + b| - 1] == a + front;
      assert b[|b| - 1] in b;
    }
  }

  lemma WithoutFirst(d: Delivery, rest: seq<Delivery>)
    ensures Without([d] + rest, d.tag) == rest
  {
  }

  /** A nack of one tag takes that delivery off and no other, wherever it stands and even if it is not there. */
  lemma {:induction false} WithoutRemovesOnlyTheTag(ds: seq<Delivery>, tag: nat)
    requires TagsIncrease(ds)
    ensures forall d :: d in Without(ds, tag) <==> d in ds && d.tag != tag
  {
    if ds != [] {
      assert ds == [ds[0]] + ds[1..];
      assert forall d :: d in ds[1..] ==> d.tag > ds[0].tag;
      WithoutRemovesOnlyTheTag(ds[1..], tag);
    }
  }

  /** Nacking a batch one by one removes exactly that batch from the front. */
  lemma {:induction false} NackEachRemoves(c: Channel, batch: seq<Delivery>, rest: seq<Delivery>)
    requires c.unacked == batch + rest
    ensures NackEach(c, batch) ==
            c.(unacked := rest, dead := c.dead + Bodies(batch), settled := c.settled + Marked(batch, DeadLettered))
  {
    if batch != [] {
      var front, last := batch[..|batch| - 1], batch[|batch| - 1];
      assert batch + rest == front + ([last] + rest);
      NackEachRemoves(c, front, [last] + rest);
      WithoutFirst(last, rest);
      assert Bodies(batch) == Bodies(front) + [last.body];
      assert Marked(batch, DeadLettered) == Marked(front, DeadLettered) + [Settlement(last, DeadLettered)];
    } else {
      assert c.dead + Bodies(batch) == c.dead && c.settled + Marked(batch, DeadLettered) == c.settled;
    }
  }

  lemma SettledThenUnacked(s: State)
    requires Ordered(s)
    ensures s.worker.accepted + s.worker.ignored == Deliveries(s.channel.settled) + s.channel.unacked
    ensures TagsIncrease(s.channel.unacked)
  {
    var all := s.worker.accepted + s.worker.ignored;
    var k := |s.channel.settled|;
    assert all == Deliveries(s.channel.settled) + s.channel.unacked;
    forall i, j | 0 <= i < j < |s.channel.unacked| ensures s.channel.unacked[i].tag < s.channel.unacked[j].tag {
      assert all[k + i].tag < all[k + j].tag;
    }
  }

  lemma DeliveriesOfMarked(settled: seq<Settlement>, ds: seq<Delivery>, verdict: Verdict)
    ensures Deliveries(settled + Marked(ds, verdict)) == Deliveries(settled) + ds
  {
  }

  /**
   The cumulative ack is safe: acknowledging the last message of the batch with `multiple` settles the
   batch, all of it and nothing else, although newer deliveries are outstanding on the same channel.
   */
  lemma CumulativeAckSettlesTheBatch(cfg: Config, s: State)
    requires Inv(cfg, s) && s.worker.flushing.Writing?
    ensures var batch, c, c' := s.worker.flushing.batch, s.channel, Succeed(s).channel;
      && c'.unacked == s.worker.pending + s.worker.ignored
      && c'.settled == c.settled + Marked(batch, Acked)
      && c'.ready == c.ready && c'.dead == c.dead && c'.nextTag == c.nextTag
  {
    var batch := s.worker.flushing.batch;
    var rest := s.worker.pending + s.worker.ignored;
    var tag := batch[|batch| - 1].tag;
    SettledThenUnacked(s);
    var u := s.channel.unacked;
    assert u == batch + rest;
    forall d | d in batch ensures d.tag <= tag {
      var i :| 0 <= i < |batch| && batch[i] == d;
      assert u[i] == d && u[|batch| - 1].tag == tag;
    }
    forall d | d in rest ensures d.tag > tag {
      var i :| 0 <= i < |rest| && rest[i] == d;
      assert u[|batch| + i] == d && u[|batch| - 1].tag == tag;
    }
    SplitAtTag(batch, rest, tag);
  }

  /** A given-up batch is dead-lettered message by message, and nothing else is touched. */
  lemma GivingUpSettlesTheBatch(cfg: Config, s: State)
    requires Inv(cfg, s) && s.worker.flushing.Writing? && s.worker.flushing.attempt >= cfg.maxAttempts
    ensures var batch, c, c' := s.worker.flushing.batch, s.channel, Fail(cfg, s).channel;
      && c'.unacked == s.worker.pending + s.worker.ignored
      && c'.settled == c.settled + Marked(batch, DeadLettered)
      && c'.dead == c.dead + Bodies(batch)
      && c'.ready == c.ready && c'.nextTag == c.nextTag
  {
    var batch := s.worker.flushing.batch;
    assert s.channel.unacked == batch + (s.worker.pending + s.worker.ignored);
    NackEachRemoves(s.channel, batch, s.worker.pending + s.worker.ignored);
  }

  // ---------------------------------------------------------------- the invariant over every run

  lemma OrderedAfterSettling(s: State, s': State, batch: seq<Delivery>, verdict: Verdict)
    requires Ordered(s)
    requires InFlight(s.worker.flushing) + s.worker.pending == batch + s'.worker.pending
    requires s'.worker.flushing.Idle?
    requires s'.channel.unacked == s'.worker.pending + s'.worker.ignored
    requires s'.channel.settled == s.channel.settled + Marked(batch, verdict)
    requires s'.channel.nextTag == s.channel.nextTag
    requires s'.worker.accepted == s.worker.accepted && s'.worker.ignored == s.worker.ignored
    requires s'.worker.stop == s.worker.stop
    ensures Ordered(s')
  {
    DeliveriesOfMarked(s.channel.settled, batch, verdict);
    assert s'.worker.accepted == Deliveries(s'.channel.settled) + s'.worker.pending by {
      assert s.worker.accepted == Deliveries(s.channel.settled) + (InFlight(s.worker.flushing) + s.worker.pending);
    }
  }

  lemma DeliverKeepsOrder(cfg: Config, s: State)
    requires Ordered(s) && Enabled(cfg, s, Deliver)
    ensures Ordered(Next(cfg, s, Deliver))
  {
    var s' := Next(cfg, s, Deliver);
    var d := Delivery(s.channel.nextTag, s.channel.ready[0]);
    if s.worker.stop == Running {
      assert s.worker.ignored == [];
      assert s'.worker.accepted + s'.worker.ignored == s.worker.accepted + [d];
      assert s.worker.accepted + s.worker.ignored == s.worker.accepted;
    } else {
      assert s'.worker.accepted + s'.worker.ignored == s.worker.accepted + s.worker.ignored + [d];
    }
  }

  lemma FlushStartKeepsInv(cfg: Config, s: State)
    requires Inv(cfg, s) && Enabled(cfg, s, FlushStarts)
    ensures Inv(cfg, Next(cfg, s, FlushStarts))
  {
    var s', batch := StartFlush(cfg, s), s.worker.pending;
    if batch != [] && AllParsed(batch) && cfg.maxAttempts < 1 {
      assert s.channel.unacked == batch + s.worker.ignored;
      NackEachRemoves(s.channel, batch, s.worker.ignored);
      OrderedAfterSettling(s, s', batch, DeadLettered);
    }
  }

  lemma StepKeepsInv(cfg: Config, s: State, ev: Event)
    requires Inv(cfg, s) && Enabled(cfg, s, ev)
    ensures Inv(cfg, Next(cfg, s, ev))
  {
    match ev
    case Deliver => DeliverKeepsOrder(cfg, s);
    case FlushStarts => FlushStartKeepsInv(cfg, s);
    case WriteSucceeds =>
      CumulativeAckSettlesTheBatch(cfg, s);
      OrderedAfterSettling(s, Succeed(s), s.worker.flushing.batch, Acked);
    case WriteFails =>
      if s.worker.flushing.attempt >= cfg.maxAttempts {
        GivingUpSettlesTheBatch(cfg, s);
        OrderedAfterSettling(s, Fail(cfg, s), s.worker.flushing.batch, DeadLettered);
      }
    case _ =>
  }

  predicate Runs(cfg: Config, s: State, events: seq<Event>)
    decreases |events|
  {
    events != [] ==> Enabled(cfg, s, events[0]) && Runs(cfg, Next(cfg, s, events[0]), events[1..])
  }

  function After(cfg: Config, s: State, events: seq<Event>): State
    requires Runs(cfg, s, events)
    decreases |events|
  {
    if events == [] then s else After(cfg, Next(cfg, s, events[0]), events[1..])
  }

  function Opened(ready: seq<Body>, dead: seq<Body>): State {
    State(Channel(ready, [], dead, 1, []), FRESH_WORKER)
  }

  lemma {:induction false} RunKeepsInv(cfg: Config, s: State, events: seq<Event>)
    requires Inv(cfg, s) && Runs(cfg, s, events)
    ensures Inv(cfg, After(cfg, s, events))
    decreases |events|
  {
    if events != [] {
      StepKeepsInv(cfg, s, events[0]);
      RunKeepsInv(cfg, Next(cfg, s, events[0]), events[1..]);
    }
  }

  /**
   Over every run of a worker, whatever its configuration and whatever fails: the unacked deliveries
   are, in tag order, the batch in flight, the pending messages and those ignored after stop; and no
   delivery is settled twice or settled while still unacked.
   */
  lemma EveryRunSettlesOnceInOrder(cfg: Config, ready: seq<Body>, dead: seq<Body>, events: seq<Event>)
    requires Runs(cfg, Opened(ready, dead), events)
    ensures var s := After(cfg, Opened(ready, dead), events);
      && s.channel.unacked == InFlight(s.worker.flushing) + s.worker.pending + s.worker.ignored
      && s.worker.accepted == Deliveries(s.channel.settled) + InFlight(s.worker.flushing) + s.worker.pending
      && TagsIncrease(Deliveries(s.channel.settled) + s.channel.unacked)
      && Distinct(Deliveries(s.channel.settled) + s.channel.unacked)
  {
    var s0 := Opened(ready, dead);
    assert Inv(cfg, s0);
    RunKeepsInv(cfg, s0, events);
    SettledThenUnacked(After(cfg, s0, events));
  }

  // ---------------------------------------------------------------- batch size

  /** The broker respects the prefetch limit, and a full batch does not wait for the timer. */
  predicate WithinLimits(cfg: Config, s: State) {
    && (cfg.prefetch > 0 ==> |s.channel.unacked| <= cfg.prefetch)
    && (s.worker.pending != [] && |s.worker.pending| >= cfg.batchSize ==> s.worker.queuedFlushes > 0)
  }

  lemma SettlingKeepsLimits(cfg: Config, s: State, ev: Event)
    requires Inv(cfg, s) && WithinLimits(cfg, s) && Enabled(cfg, s, ev)
    requires ev.FlushStarts? || ev.WriteSucceeds? || ev.WriteFails?
    ensures WithinLimits(cfg, Next(cfg, s, ev))
  {
    if ev.WriteSucceeds? {
      CumulativeAckSettlesTheBatch(cfg, s);
    } else if ev.WriteFails? {
      if s.worker.flushing.attempt >= cfg.maxAttempts {
        GivingUpSettlesTheBatch(cfg, s);
      }
    } else if s.worker.pending != [] && AllParsed(s.worker.pending) && cfg.maxAttempts < 1 {
      assert s.channel.unacked == s.worker.pending + s.worker.ignored;
      NackEachRemoves(s.channel, s.worker.pending, s.worker.ignored);
    }
  }

  lemma {:induction false} RunKeepsLimits(cfg: Config, s: State, events: seq<Event>)
    requires Inv(cfg, s) && WithinLimits(cfg, s) && Runs(cfg, s, events)
    ensures Inv(cfg, After(cfg, s, events)) && WithinLimits(cfg, After(cfg, s, events))
    decreases |events|
  {
    if events != [] {
      StepKeepsInv(cfg, s, events[0]);
      if events[0].FlushStarts? || events[0].WriteSucceeds? || events[0].WriteFails? {
        SettlingKeepsLimits(cfg, s, events[0]);
      }
      RunKeepsLimits(cfg, Next(cfg, s, events[0]), events[1..]);
    }
  }

  /**
   What bounds a batch: with a prefetch limit, the batch in flight and the messages that may join the next
   one never outnumber it; and once `batchSize` messages are pending their flush is already queued.
   */
  lemma PrefetchBoundsTheBatch(cfg: Config, ready: seq<Body>, dead: seq<Body>, events: seq<Event>)
    requires Runs(cfg, Opened(ready, dead), events)
    ensures var w := After(cfg, Opened(ready, dead), events).worker;
      && (cfg.prefetch > 0 ==> |InFlight(w.flushing)| + |w.pending| <= cfg.prefetch)
      && (w.pending != [] && |w.pending| >= cfg.batchSize ==> w.queuedFlushes > 0)
  {
    RunKeepsLimits(cfg, Opened(ready, dead), events);
  }

  /** Whatever a run has done so far, a flush that starts now takes at most `n` messages. */
  ghost predicate FlushesTakeAtMost(cfg: Config, n: int) {
    forall ready, dead, events ::
      Runs(cfg, Opened(ready, dead), events) && Enabled(cfg, After(cfg, Opened(ready, dead), events), FlushStarts) ==>
        |After(cfg, Opened(ready, dead), events).worker.pending| <= n
  }

  function Delivers(n: nat): seq<Event> {
    seq(n, _ => Deliver)
  }

  /** Deliveries in a row, with no flush between them, pile up as far as the prefetch limit allows. */
  lemma {:induction false} DeliveriesPileUp(cfg: Config, s: State, n: nat)
    requires s.worker.stop == Running && s.worker.flushing.Idle? && |s.channel.ready| >= n
    requires cfg.prefetch == 0 || |s.channel.unacked| + n <= cfg.prefetch
    ensures Runs(cfg, s, Delivers(n))
    ensures var w := After(cfg, s, Delivers(n)).worker; |w.pending| == |s.worker.pending| + n && w.flushing.Idle?
    decreases n
  {
    if n > 0 {
      assert Delivers(n)[0] == Deliver && Delivers(n)[1..] == Delivers(n - 1);
      DeliveriesPileUp(cfg, Next(cfg, s, Deliver), n - 1);
    }
  }

  /** More than `batchSize` messages in one batch, whenever prefetch lets that many be outstanding. */
  lemma ABatchExceedsItsSize(cfg: Config, body: Body, n: nat)
    requires n >= 1 && n > cfg.batchSize && (cfg.prefetch == 0 || n <= cfg.prefetch)
    ensures var s0, events := Opened(seq(n, _ => body), []), Delivers(n);
      && Runs(cfg, s0, events)
      && Enabled(cfg, After(cfg, s0, events), FlushStarts)
      && |After(cfg, s0, events).worker.pending| == n
  {
    DeliveriesPileUp(cfg, Opened(seq(n, _ => body), []), n);
    PrefetchBoundsTheBatch(cfg, seq(n, _ => body), [], Delivers(n));
  }

  /**
   `batchSize` only triggers flushes. It also bounds what they take exactly when there is a prefetch limit no
   larger than itself.
   */
  lemma BatchSizeBoundsBatchesIff(cfg: Config)
    ensures FlushesTakeAtMost(cfg, cfg.batchSize) <==> 0 < cfg.prefetch <= cfg.batchSize
  {
    if 0 < cfg.prefetch <= cfg.batchSize {
      forall ready, dead, events | Runs(cfg, Opened(ready, dead), events)
        ensures |After(cfg, Opened(ready, dead), events).worker.pending| <= cfg.batchSize {
        PrefetchBoundsTheBatch(cfg, ready, dead, events);
      }
    } else {
      var n := if cfg.batchSize < 0 then 1 else cfg.batchSize + 1;
      ABatchExceedsItsSize(cfg, Malformed, n);
    }
  }

  /** The worker's defaults: prefetch 500, batches of 200, five attempts. */
  const DEFAULTS := Config(500, 200, 5)

  /** With the defaults a batch may exceed 200 messages, though never 500. */
  lemma DefaultBatches()
    ensures !FlushesTakeAtMost(DEFAULTS, 200) && FlushesTakeAtMost(DEFAULTS, 500)
  {
    BatchSizeBoundsBatchesIff(DEFAULTS);
    forall ready, dead, events | Runs(DEFAULTS, Opened(ready, dead), events)
      ensures |After(DEFAULTS, Opened(ready, dead), events).worker.pending| <= 500 {
      PrefetchBoundsTheBatch(DEFAULTS, ready, dead, events);
    }
  }

  // ---------------------------------------------------------------- when a flush is triggered

  /**
   A run of deliveries to a running worker at rest: a partial batch only arms the timer, the message that
   fills it disarms the timer and queues one flush, and so does each one beyond it.
   */
  lemma {:induction false} PartialBatchesWait(cfg: Config, s: State, n: nat)
    requires s.worker.stop == Running && |s.channel.ready| >= n
    requires s.worker.pending == [] && !s.worker.timerArmed && s.worker.queuedFlushes == 0
    requires cfg.prefetch == 0 || |s.channel.unacked| + n <= cfg.prefetch
    ensures Runs(cfg, s, Delivers(n))
    ensures var w, full := After(cfg, s, Delivers(n)).worker, if cfg.batchSize < 1 then 1 else cfg.batchSize;
      && |w.pending| == n
      && (w.timerArmed <==> 0 < n < full)
      && w.queuedFlushes == if n < full then 0 else n - full + 1
  {
    DeliveriesWakeUp(cfg, s, n, if cfg.batchSize < 1 then 1 else cfg.batchSize);
  }

  lemma {:induction false} DeliveriesWakeUp(cfg: Config, s: State, n: nat, full: nat)
    requires full == if cfg.batchSize < 1 then 1 else cfg.batchSize
    requires s.worker.stop == Running && |s.channel.ready| >= n
    requires cfg.prefetch == 0 || |s.channel.unacked| + n <= cfg.prefetch
    requires s.worker.timerArmed <==> 0 < |s.worker.pending| < full
    ensures Runs(cfg, s, Delivers(n))
    ensures var w, had := After(cfg, s, Delivers(n)).worker, |s.worker.pending|;
      && |w.pending| == had + n
      && (w.timerArmed <==> 0 < had + n < full)
      && w.queuedFlushes == s.worker.queuedFlushes + Positive(had + n - full + 1) - Positive(had - full + 1)
    decreases n
  {
    if n > 0 {
      assert Delivers(n)[0] == Deliver && Delivers(n)[1..] == Delivers(n - 1);
      DeliveriesWakeUp(cfg, Next(cfg, s, Deliver), n - 1, full);
    }
  }

  function Positive(n: int): nat {
    if n < 0 then 0 else n
  }

  /** What queues a flush: the timer, the end of `stop`, or a message that completes a batch. */
  predicate Triggers(cfg: Config, s: State, ev: Event) {
    || ev.TimerFires? || ev.CancelConfirmed?
    || (ev.Deliver? && s.worker.stop == Running && |s.worker.pending| + 1 >= cfg.batchSize)
  }

  /**
   A flush is queued by its three triggers and nothing else, one at a time; only a message short of a batch arms
   the timer.
   */
  lemma FlushesHaveTriggers(cfg: Config, s: State, ev: Event)
    requires Enabled(cfg, s, ev) && !ev.ChannelCloses?
    ensures var w, w' := s.worker, Next(cfg, s, ev).worker;
      && w'.queuedFlushes ==
         w.queuedFlushes + (if Triggers(cfg, s, ev) then 1 else 0) - (if ev.FlushStarts? then 1 else 0)
      && w'.timerArmed ==
         if ev.Deliver? && w.stop == Running then |w.pending| + 1 < cfg.batchSize
         else w.timerArmed && !ev.TimerFires? && !ev.CancelConfirmed?
  {
  }

  /** How many of the events of a run triggered a flush. */
  function TriggersIn(cfg: Config, s: State, events: seq<Event>): nat
    requires Runs(cfg, s, events)
    decreases |events|
  {
    if events == [] then 0
    else
      (if Triggers(cfg, s, events[0]) then 1 else 0) + TriggersIn(cfg, Next(cfg, s, events[0]), events[1..])
  }

  function StartsIn(events: seq<Event>): nat {
    if events == [] then 0 else (if events[0].FlushStarts? then 1 else 0) + StartsIn(events[1..])
  }

  /** Over every run on one channel: flushes started and flushes still queued are exactly the triggers seen. */
  lemma {:induction false} EveryFlushWasTriggered(cfg: Config, s: State, events: seq<Event>)
    requires Runs(cfg, s, events) && ChannelCloses !in events
    ensures StartsIn(events) + After(cfg, s, events).worker.queuedFlushes ==
            s.worker.queuedFlushes + TriggersIn(cfg, s, events)
    decreases |events|
  {
    if events != [] {
      assert events[0] in events && forall ev :: ev in events[1..] ==> ev in events;
      FlushesHaveTriggers(cfg, s, events[0]);
      EveryFlushWasTriggered(cfg, Next(cfg, s, events[0]), events[1..]);
    }
  }

  // ---------------------------------------------------------------- attempts

  /** What can run while a flush awaits a write or sleeps between attempts. */
  predicate RunsMeanwhile(ev: Event) {
    ev.Publish? || ev.Deliver? || ev.TimerFires? || ev.StopCalled? || ev.CancelConfirmed?
  }

  predicate OnlyFailures(events: seq<Event>) {
    forall ev :: ev in events ==> ev.WriteFails? || RunsMeanwhile(ev)
  }

  function FailuresIn(events: seq<Event>): nat {
    if events == [] then 0 else (if events[0].WriteFails? then 1 else 0) + FailuresIn(events[1..])
  }

  /** Nothing that runs meanwhile touches the batch in flight or settles anything. */
  lemma MeanwhileKeepsFlush(cfg: Config, s: State, ev: Event)
    requires Inv(cfg, s) && Enabled(cfg, s, ev) && RunsMeanwhile(ev)
    ensures var s' := Next(cfg, s, ev);
      && Inv(cfg, s')
      && s'.worker.flushing == s.worker.flushing
      && s'.channel.settled == s.channel.settled && s'.channel.dead == s.channel.dead
      && s.worker.accepted <= s'.worker.accepted
  {
    StepKeepsInv(cfg, s, ev);
  }

  lemma {:induction false} NothingFailsBetweenFlushes(cfg: Config, s: State, events: seq<Event>)
    requires Inv(cfg, s) && s.worker.flushing.Idle? && Runs(cfg, s, events) && OnlyFailures(events)
    ensures var s' := After(cfg, s, events);
      && FailuresIn(events) == 0
      && s'.worker.flushing.Idle? && s'.channel.settled == s.channel.settled && s'.channel.dead == s.channel.dead
    decreases |events|
  {
    if events != [] {
      assert events[0] in events && forall ev :: ev in events[1..] ==> ev in events;
      MeanwhileKeepsFlush(cfg, s, events[0]);
      NothingFailsBetweenFlushes(cfg, Next(cfg, s, events[0]), events[1..]);
    }
  }

  /** How a batch in flight stands after `failures` more failed attempts out of `left`. */
  ghost predicate AfterFailures(s: State, s': State, failures: nat, left: int)
    requires s.worker.flushing.Writing?
  {
    && failures <= left
    && (failures < left ==>
          && s'.worker.flushing.Writing? && s'.worker.flushing.batch == s.worker.flushing.batch
          && s'.channel.settled == s.channel.settled && s'.channel.dead == s.channel.dead)
    && (failures == left ==>
          && s'.worker.flushing.Idle?
          && s'.channel.settled == s.channel.settled + Marked(s.worker.flushing.batch, DeadLettered)
          && s'.channel.dead == s.channel.dead + Bodies(s.worker.flushing.batch))
  }

  lemma {:induction false} FailuresAreCounted(cfg: Config, s: State, events: seq<Event>)
    requires Inv(cfg, s) && s.worker.flushing.Writing? && Runs(cfg, s, events) && OnlyFailures(events)
    ensures AfterFailures(s, After(cfg, s, events), FailuresIn(events), cfg.maxAttempts - s.worker.flushing.attempt + 1)
    decreases |events|
  {
    if events != [] {
      assert events[0] in events && forall ev :: ev in events[1..] ==> ev in events;
      var s' := Next(cfg, s, events[0]);
      StepKeepsInv(cfg, s, events[0]);
      if !events[0].WriteFails? {
        MeanwhileKeepsFlush(cfg, s, events[0]);
        FailuresAreCounted(cfg, s', events[1..]);
      } else if s.worker.flushing.attempt < cfg.maxAttempts {
        FailuresAreCounted(cfg, s', events[1..]);
      } else {
        GivingUpSettlesTheBatch(cfg, s);
        NothingFailsBetweenFlushes(cfg, s', events[1..]);
      }
    }
  }

  /**
   Every batch gets all its attempts: once a flush has taken a batch that parses, it stays in flight and nothing
   is settled while fewer than `maxAttempts` attempts have failed, whatever runs meanwhile; with the failure of
   that number it is dead-lettered, and no further attempt is made.
   */
  lemma EveryBatchGetsAllItsAttempts(cfg: Config, s: State, events: seq<Event>)
    requires Inv(cfg, s) && Enabled(cfg, s, FlushStarts) && cfg.maxAttempts >= 1
    requires s.worker.pending != [] && AllParsed(s.worker.pending)
    requires Runs(cfg, Next(cfg, s, FlushStarts), events) && OnlyFailures(events)
    ensures var s', failed := After(cfg, Next(cfg, s, FlushStarts), events), FailuresIn(events);
      && failed <= cfg.maxAttempts
      && (failed < cfg.maxAttempts ==>
            && s'.worker.flushing.Writing? && s'.worker.flushing.batch == s.worker.pending
            && s'.channel.settled == s.channel.settled && s'.channel.dead == s.channel.dead)
      && (failed == cfg.maxAttempts ==>
            && s'.worker.flushing.Idle?
            && s'.channel.settled == s.channel.settled + Marked(s.worker.pending, DeadLettered)
            && s'.channel.dead == s.channel.dead + Bodies(s.worker.pending))
  {
    StepKeepsInv(cfg, s, FlushStarts);
    FailuresAreCounted(cfg, Next(cfg, s, FlushStarts), events);
  }

  // ---------------------------------------------------------------- progress

  function MaxAttempts(cfg: Config): nat {
    if cfg.maxAttempts < 1 then 1 else cfg.maxAttempts
  }

  function AttemptsLeft(cfg: Config, f: Flushing): nat {
    if f.Writing? && f.attempt <= MaxAttempts(cfg) then MaxAttempts(cfg) - f.attempt + 1 else 0
  }

  /** Linear in ready and pending messages, timer, queued flushes and attempts left. */
  function Measure(cfg: Config, s: State): nat
    requires FlushShape(cfg, s.worker.flushing)
  {
    var m := MaxAttempts(cfg);
    (m + 4) * |s.channel.ready| + (m + 1) * |s.worker.pending| + (if s.worker.timerArmed then 2 else 0)
    + s.worker.queuedFlushes + AttemptsLeft(cfg, s.worker.flushing) + (if s.worker.stop == Cancelling then 2 else 0)
  }

  /** The events the system performs on its own, without new publishes, stop requests or lost channels. */
  predicate Internal(ev: Event) {
    ev.Deliver? || ev.TimerFires? || ev.FlushStarts? || ev.WriteSucceeds? || ev.WriteFails? || ev.CancelConfirmed?
  }

  lemma ScaledLess(k: nat, n: nat)
    requires n > 0
    ensures k * n == k * (n - 1) + k
    ensures k * n >= k
  {
  }

  lemma NackEachKeepsReady(c: Channel, batch: seq<Delivery>)
    ensures NackEach(c, batch).ready == c.ready
  {
  }

  lemma DeliverDecreases(cfg: Config, s: State)
    requires Inv(cfg, s) && Enabled(cfg, s, Deliver)
    ensures Measure(cfg, Next(cfg, s, Deliver)) < Measure(cfg, s)
  {
    var m, s' := MaxAttempts(cfg), Next(cfg, s, Deliver);
    ScaledLess(m + 4, |s.channel.ready|);
    if s.worker.stop == Running {
      ScaledLess(m + 1, |s'.worker.pending|);
    }
  }

  lemma FlushStartDecreases(cfg: Config, s: State)
    requires Inv(cfg, s) && Enabled(cfg, s, FlushStarts) && FlushShape(cfg, StartFlush(cfg, s).worker.flushing)
    ensures Measure(cfg, StartFlush(cfg, s)) < Measure(cfg, s)
  {
    NackEachKeepsReady(s.channel, s.worker.pending);
    if s.worker.pending != [] {
      ScaledLess(MaxAttempts(cfg) + 1, |s.worker.pending|);
    }
  }

  lemma WriteEndDecreases(cfg: Config, s: State, s': State)
    requires Inv(cfg, s) && s.worker.flushing.Writing?
    requires s' == Succeed(s) || s' == Fail(cfg, s)
    requires FlushShape(cfg, s'.worker.flushing)
    ensures Measure(cfg, s') < Measure(cfg, s)
  {
    NackEachKeepsReady(s.channel, s.worker.flushing.batch);
    assert s'.channel.ready == s.channel.ready;
  }

  lemma InternalStepDecreases(cfg: Config, s: State, ev: Event)
    requires Inv(cfg, s) && Enabled(cfg, s, ev) && Internal(ev)
    ensures Inv(cfg, Next(cfg, s, ev))
    ensures Measure(cfg, Next(cfg, s, ev)) < Measure(cfg, s)
  {
    StepKeepsInv(cfg, s, ev);
    match ev
    case Deliver => DeliverDecreases(cfg, s);
    case FlushStarts => FlushStartDecreases(cfg, s);
    case WriteSucceeds => WriteEndDecreases(cfg, s, Succeed(s));
    case WriteFails => WriteEndDecreases(cfg, s, Fail(cfg, s));
    case _ =>
  }

  predicate AllInternal(events: seq<Event>) {
    forall ev :: ev in events ==> Internal(ev)
  }

  /** Left to itself, the consumer takes at most `Measure` steps, whatever each write attempt returns. */
  lemma {:induction false} DrainingIsBounded(cfg: Config, s: State, events: seq<Event>)
    requires Inv(cfg, s) && Runs(cfg, s, events) && AllInternal(events)
    ensures Inv(cfg, After(cfg, s, events))
    ensures |events| + Measure(cfg, After(cfg, s, events)) <= Measure(cfg, s)
    decreases |events|
  {
    if events != [] {
      assert events[0] in events && forall ev :: ev in events[1..] ==> ev in events;
      InternalStepDecreases(cfg, s, events[0]);
      DrainingIsBounded(cfg, Next(cfg, s, events[0]), events[1..]);
    }
  }

  predicate Quiet(cfg: Config, s: State) {
    && !Enabled(cfg, s, Deliver) && !Enabled(cfg, s, TimerFires) && !Enabled(cfg, s, FlushStarts)
    && !Enabled(cfg, s, WriteSucceeds) && !Enabled(cfg, s, WriteFails) && !Enabled(cfg, s, CancelConfirmed)
  }

  /**
   Nothing is stranded: when no step is left to take and the chain was not broken by a malformed body,
   nothing is pending or in flight and no wake-up is outstanding; a running consumer has also emptied
   the queue, whatever the prefetch limit.
   */
  lemma QuietMeansDrained(cfg: Config, s: State)
    requires Inv(cfg, s) && Quiet(cfg, s) && !s.worker.flushing.Broken?
    ensures s.worker.pending == [] && s.worker.flushing.Idle? && !s.worker.timerArmed && s.worker.queuedFlushes == 0
    ensures s.worker.accepted == Deliveries(s.channel.settled)
    ensures s.channel.unacked == s.worker.ignored
    ensures s.worker.stop == Running ==> s.channel.ready == [] && s.channel.unacked == []
    ensures s.worker.stop != Cancelling
  {
  }

  predicate WellFormedMessages(s: State) {
    && (forall b :: b in s.channel.ready ==> b.Parsed?)
    && AllParsed(s.channel.unacked)
  }

  /** Only a malformed body breaks the chain: without one, no internal step can. */
  lemma WellFormedNeverBreaks(cfg: Config, s: State, ev: Event)
    requires Inv(cfg, s) && Enabled(cfg, s, ev) && (ev.Publish? ==> ev.body.Parsed?)
    requires WellFormedMessages(s) && !s.worker.flushing.Broken?
    ensures var s' := Next(cfg, s, ev); WellFormedMessages(s') && !s'.worker.flushing.Broken?
  {
    var s' := Next(cfg, s, ev);
    StepKeepsInv(cfg, s, ev);
    match ev
    case FlushStarts =>
      assert AllParsed(s.worker.pending);
      if s.worker.pending != [] && cfg.maxAttempts < 1 {
        assert s.channel.unacked == s.worker.pending + s.worker.ignored;
        NackEachRemoves(s.channel, s.worker.pending, s.worker.ignored);
      }
    case WriteSucceeds => CumulativeAckSettlesTheBatch(cfg, s);
    case WriteFails =>
      if s.worker.flushing.attempt >= cfg.maxAttempts {
        GivingUpSettlesTheBatch(cfg, s);
      }
    case ChannelCloses =>
      forall b | b in s'.channel.ready ensures b.Parsed? {
        if b in Bodies(s.channel.unacked) {
          var i :| 0 <= i < |s.channel.unacked| && Bodies(s.channel.unacked)[i] == b;
          assert s.channel.unacked[i] in s.channel.unacked;
        }
      }
    case _ =>
  }

  predicate SettledParse(s: State) {
    AllParsed(Deliveries(s.channel.settled))
  }

  lemma ParsedWithMarked(settled: seq<Settlement>, batch: seq<Delivery>, verdict: Verdict)
    requires AllParsed(Deliveries(settled)) && AllParsed(batch)
    ensures AllParsed(Deliveries(settled + Marked(batch, verdict)))
  {
    DeliveriesOfMarked(settled, batch, verdict);
  }

  /** No message that does not parse is ever acknowledged or dead-lettered. */
  lemma StepSettlesOnlyParsed(cfg: Config, s: State, ev: Event)
    requires Inv(cfg, s) && SettledParse(s) && Enabled(cfg, s, ev)
    ensures SettledParse(Next(cfg, s, ev))
  {
    if ev.WriteSucceeds? {
      CumulativeAckSettlesTheBatch(cfg, s);
      ParsedWithMarked(s.channel.settled, s.worker.flushing.batch, Acked);
    } else if ev.WriteFails? && s.worker.flushing.attempt >= cfg.maxAttempts {
      GivingUpSettlesTheBatch(cfg, s);
      ParsedWithMarked(s.channel.settled, s.worker.flushing.batch, DeadLettered);
    } else if ev.FlushStarts? && s.worker.pending != [] && AllParsed(s.worker.pending) && cfg.maxAttempts < 1 {
      assert s.channel.unacked == s.worker.pending + s.worker.ignored;
      NackEachRemoves(s.channel, s.worker.pending, s.worker.ignored);
      ParsedWithMarked(s.channel.settled, s.worker.pending, DeadLettered);
    }
  }

  lemma {:induction false} RunSettlesOnlyParsed(cfg: Config, s: State, events: seq<Event>)
    requires Inv(cfg, s) && SettledParse(s) && Runs(cfg, s, events)
    ensures Inv(cfg, After(cfg, s, events)) && SettledParse(After(cfg, s, events))
    decreases |events|
  {
    if events != [] {
      StepKeepsInv(cfg, s, events[0]);
      StepSettlesOnlyParsed(cfg, s, events[0]);
      RunSettlesOnlyParsed(cfg, Next(cfg, s, events[0]), events[1..]);
    }
  }

  lemma BrokenIff(cfg: Config, s: State)
    requires Inv(cfg, s) && SettledParse(s) && Quiet(cfg, s)
    ensures s.worker.flushing.Broken? <==> !AllParsed(s.worker.accepted)
  {
    if s.worker.flushing.Broken? {
      assert forall d :: d in s.worker.flushing.batch ==> d in s.worker.accepted;
    } else {
      QuietMeansDrained(cfg, s);
    }
  }

  /**
   Exactly when a consumer gets stuck: a run that has come to rest has a broken chain if and only if the
   consumer accepted a body that does not parse.
   */
  lemma BrokenIffMalformedAccepted(cfg: Config, ready: seq<Body>, dead: seq<Body>, events: seq<Event>)
    requires Runs(cfg, Opened(ready, dead), events) && Quiet(cfg, After(cfg, Opened(ready, dead), events))
    ensures var w := After(cfg, Opened(ready, dead), events).worker;
      w.flushing.Broken? <==> !AllParsed(w.accepted)
  {
    assert Inv(cfg, Opened(ready, dead)) && SettledParse(Opened(ready, dead));
    RunSettlesOnlyParsed(cfg, Opened(ready, dead), events);
    BrokenIff(cfg, After(cfg, Opened(ready, dead), events));
  }

  /** How a single bad body breaks a fresh consumer. */
  function BreakingEvents(cfg: Config): seq<Event> {
    if cfg.batchSize <= 1 then [Deliver, FlushStarts] else [Deliver, TimerFires, FlushStarts]
  }

  /** One body that does not parse is enough, under every configuration. */
  lemma OneBadBodyBreaksTheChain(cfg: Config)
    ensures Runs(cfg, Opened([Malformed], []), BreakingEvents(cfg))
    ensures After(cfg, Opened([Malformed], []), BreakingEvents(cfg)).worker.flushing == Broken([Delivery(1, Malformed)])
  {
    var s0, events := Opened([Malformed], []), BreakingEvents(cfg);
    var s1 := Next(cfg, s0, Deliver);
    var bad := Delivery(1, Malformed);
    assert s1.worker.pending == [bad] && bad in s1.worker.pending;
    if cfg.batchSize <= 1 {
      assert events[1..] == [FlushStarts] && events[1..][1..] == [];
      assert After(cfg, s1, [FlushStarts]) == StartFlush(cfg, s1);
    } else {
      var s2 := Next(cfg, s1, TimerFires);
      assert events[1..] == [TimerFires, FlushStarts] && events[1..][1..] == [FlushStarts];
      assert Runs(cfg, s2, [FlushStarts]) && After(cfg, s2, [FlushStarts]) == StartFlush(cfg, s2);
      assert Runs(cfg, s1, [TimerFires, FlushStarts]);
    }
  }

  /**
   From then on nothing is ever settled: whatever happens short of losing the channel, the chain stays broken
   and deliveries only pile up; and losing the channel puts the bad body back into the queue.
   */
  lemma {:induction false} BrokenChainSettlesNothing(cfg: Config, s: State, events: seq<Event>)
    requires Inv(cfg, s) && s.worker.flushing.Broken? && Runs(cfg, s, events) && ChannelCloses !in events
    ensures var s' := After(cfg, s, events);
      && s'.worker.flushing == s.worker.flushing
      && s'.channel.settled == s.channel.settled
      && s.channel.unacked <= s'.channel.unacked
      && Malformed in Reopened(s'.channel).ready
    decreases |events|
  {
    if events == [] {
      BadBodyComesBack(cfg, s);
    } else {
      assert events[0] in events && forall ev :: ev in events[1..] ==> ev in events;
      StepKeepsInv(cfg, s, events[0]);
      BrokenChainSettlesNothing(cfg, Next(cfg, s, events[0]), events[1..]);
    }
  }

  lemma BadBodyComesBack(cfg: Config, s: State)
    requires Inv(cfg, s) && s.worker.flushing.Broken?
    ensures Malformed in Reopened(s.channel).ready
  {
    var d :| d in s.worker.flushing.batch && !d.body.Parsed?;
    assert d in s.channel.unacked;
    var i :| 0 <= i < |s.channel.unacked| && s.channel.unacked[i] == d;
    assert Bodies(s.channel.unacked)[i] == Malformed;
  }

  // ---------------------------------------------------------------- stop

  /** The promise returned by `stop` has resolved: the flush it chained has run, and so has all before it. */
  predicate StopResolved(s: State) {
    s.worker.stop == Awaiting && s.worker.queuedFlushes == 0 && s.worker.flushing.Idle?
  }

  /**
   Stop drains: once `stop` has resolved nothing is pending, in flight or scheduled, and the settled
   batches put together are the accepted messages in arrival order, each settled once; only what
   arrived after the call is still unacked, and the broker will hand that to someone else.
   */
  lemma StopDrains(cfg: Config, s: State)
    requires Inv(cfg, s) && StopResolved(s)
    ensures s.worker.pending == [] && !s.worker.timerArmed
    ensures Deliveries(s.channel.settled) == s.worker.accepted
    ensures Distinct(Deliveries(s.channel.settled))
    ensures s.channel.unacked == s.worker.ignored
    ensures Reopened(s.channel).ready == Bodies(s.worker.ignored) + s.channel.ready
  {
    SettledThenUnacked(s);
    var all := s.worker.accepted + s.worker.ignored;
    assert forall i :: 0 <= i < |s.worker.accepted| ==> all[i] == s.worker.accepted[i];
  }

  /** Stop always resolves: from the call on, the steps left are bounded, and only a resolved stop is quiet. */
  lemma StopResolves(cfg: Config, s: State, events: seq<Event>)
    requires Inv(cfg, s) && s.worker.stop != Running && Runs(cfg, s, events) && AllInternal(events)
    ensures |events| <= Measure(cfg, s)
    ensures var s' := After(cfg, s, events);
      Quiet(cfg, s') && !s'.worker.flushing.Broken? ==> StopResolved(s')
  {
    DrainingIsBounded(cfg, s, events);
    StopIsNotUndone(cfg, s, events);
    var s' := After(cfg, s, events);
    if Quiet(cfg, s') && !s'.worker.flushing.Broken? {
      QuietMeansDrained(cfg, s');
    }
  }

  /** Nothing is accepted any more once `stop` has been called, on this channel: whatever still arrives is ignored. */
  lemma {:induction false} StopAcceptsNothing(cfg: Config, s: State, events: seq<Event>)
    requires s.worker.stop != Running && Runs(cfg, s, events) && ChannelCloses !in events
    ensures var s' := After(cfg, s, events);
      && s'.worker.stop != Running
      && s'.worker.accepted == s.worker.accepted
      && s.worker.ignored <= s'.worker.ignored
      && |s'.worker.ignored| == |s.worker.ignored| + DeliveriesIn(events)
    decreases |events|
  {
    if events != [] {
      assert events[0] in events && forall ev :: ev in events[1..] ==> ev in events;
      StopAcceptsNothing(cfg, Next(cfg, s, events[0]), events[1..]);
    }
  }

  function DeliveriesIn(events: seq<Event>): nat {
    if events == [] then 0 else (if events[0].Deliver? then 1 else 0) + DeliveriesIn(events[1..])
  }

  function StopRank(stop: StopState): nat {
    match stop
    case Running => 0
    case Cancelling => 1
    case Awaiting => 2
  }

  /** On one channel `stop` only ever moves forward: called, cancelled, awaiting the chain. */
  lemma {:induction false} StopOnlyMovesForward(cfg: Config, s: State, events: seq<Event>)
    requires Runs(cfg, s, events) && ChannelCloses !in events
    ensures StopRank(s.worker.stop) <= StopRank(After(cfg, s, events).worker.stop)
    decreases |events|
  {
    if events != [] {
      assert events[0] in events && forall ev :: ev in events[1..] ==> ev in events;
      StopOnlyMovesForward(cfg, Next(cfg, s, events[0]), events[1..]);
    }
  }

  /** The consumer stays attached until the broker has confirmed its cancellation, and no longer. */
  lemma DeliveriesUntilCancelled(cfg: Config, s: State)
    requires s.channel.ready != [] && (cfg.prefetch == 0 || |s.channel.unacked| < cfg.prefetch)
    ensures Enabled(cfg, s, Deliver) <==> s.worker.stop == Running || s.worker.stop == Cancelling
  {
  }

  lemma {:induction false} StopIsNotUndone(cfg: Config, s: State, events: seq<Event>)
    requires s.worker.stop != Running && Runs(cfg, s, events) && AllInternal(events)
    ensures After(cfg, s, events).worker.stop != Running
    decreases |events|
  {
    if events != [] {
      assert events[0] in events && forall ev :: ev in events[1..] ==> ev in events;
      StopIsNotUndone(cfg, Next(cfg, s, events[0]), events[1..]);
    }
  }
}
