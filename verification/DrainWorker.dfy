/** The consumer as it runs: closure variables updated by callbacks, a retry loop and a nack loop. */
module DrainWorker {
  import opened Prelude
  import opened Drain
  import opened DrainTheorems

  class AmqpChannel {
    var ready: seq<Body>
    var unacked: seq<Delivery>
    var dead: seq<Body>
    var nextTag: nat
    ghost var settled: seq<Settlement>

    ghost function View(): Channel
      reads this
    {
      Channel(ready, unacked, dead, nextTag, settled)
    }

    /** A publisher's message arrives. */
    method Enqueue(body: Body)
      modifies this
      ensures View() == old(View()).(ready := old(ready) + [body])
    {
      ready := ready + [body];
    }

    method DeliverNext() returns (d: Delivery)
      requires ready != []
      modifies this
      ensures d == Delivery(old(nextTag), old(ready)[0])
      ensures View() ==
              old(View()).(ready := old(ready)[1..], unacked := old(unacked) + [d], nextTag := old(nextTag) + 1)
    {
      d := Delivery(nextTag, ready[0]);
      ready, unacked, nextTag := ready[1..], unacked + [d], nextTag + 1;
    }

    method AckMultiple(d: Delivery)
      modifies this
      ensures View() == AckUpTo(old(View()), d.tag)
    {
      settled := settled + Marked(UpTo(unacked, d.tag), Acked);
      unacked := Beyond(unacked, d.tag);
    }

    method NackWithoutRequeue(d: Delivery)
      modifies this
      ensures View() == NackOne(old(View()), d)
    {
      unacked, dead := Without(unacked, d.tag), dead + [d.body];
      settled := settled + [Settlement(d, DeadLettered)];
    }
  }

  /**
   Attempt `k`, counted from zero, writes its batch and can acknowledge it: the channel is lost from attempt
   `lost` on.
   */
  predicate Acks(writes: seq<bool>, lost: nat, k: nat)
    requires k < |writes|
  {
    writes[k] && k < lost
  }

  /**
   How a flush ends: acknowledged by its first attempt that can; else dead-lettered after the last one, unless
   the channel was lost meanwhile, in which case nothing is settled.
   */
  function VerdictOf(writes: seq<bool>, lost: nat, maxAttempts: int): Option<Verdict>
    requires |writes| >= maxAttempts
  {
    if exists k: nat :: k < maxAttempts && Acks(writes, lost, k) then Some(Acked)
    else if lost < maxAttempts then None
    else Some(DeadLettered)
  }

  /** The three ways a flush can end, over the attempts and the loss of the channel alone. */
  lemma VerdictMeans(writes: seq<bool>, lost: nat, maxAttempts: int)
    requires |writes| >= maxAttempts
    ensures VerdictOf(writes, lost, maxAttempts) == Some(Acked) <==>
            exists k: nat :: k < maxAttempts && k < lost && writes[k]
    ensures VerdictOf(writes, lost, maxAttempts) == Some(DeadLettered) <==>
            maxAttempts <= lost && forall k: nat :: k < maxAttempts ==> !writes[k]
  {
    assert forall k: nat :: k < maxAttempts ==> (Acks(writes, lost, k) <==> writes[k] && k < lost);
  }

  function MarkedIf(ds: seq<Delivery>, verdict: Option<Verdict>): seq<Settlement> {
    if verdict.Some? then Marked(ds, verdict.value) else []
  }

  /** The last attempt settles the batch under one verdict and leaves the consumer ready for the next. */
  lemma EndOfFlush(cfg: Config, s: State)
    requires Inv(cfg, s) && s.worker.flushing.Writing?
    ensures Inv(cfg, Succeed(s)) && Succeed(s).worker == s.worker.(flushing := Idle)
    ensures Succeed(s).channel.settled == s.channel.settled + Marked(s.worker.flushing.batch, Acked)
    ensures s.worker.flushing.attempt >= cfg.maxAttempts ==>
      var s' := Fail(cfg, s);
      && Inv(cfg, s') && s'.worker == s.worker.(flushing := Idle)
      && s'.channel.settled == s.channel.settled + Marked(s.worker.flushing.batch, DeadLettered)
  {
    StepKeepsInv(cfg, s, WriteSucceeds);
    CumulativeAckSettlesTheBatch(cfg, s);
    if s.worker.flushing.attempt >= cfg.maxAttempts {
      StepKeepsInv(cfg, s, WriteFails);
      GivingUpSettlesTheBatch(cfg, s);
    }
  }

  /** A flush that writes nothing: no message, a body that does not parse, or no attempt allowed. */
  lemma UnwrittenFlush(cfg: Config, s: State, verdict: Verdict)
    requires Inv(cfg, s) && Enabled(cfg, s, FlushStarts) && (cfg.maxAttempts < 1 ==> verdict == DeadLettered)
    ensures var s' := StartFlush(cfg, s);
      && (s'.worker.flushing.Idle? ==>
            s'.channel.settled == s.channel.settled + Marked(s.worker.pending, verdict))
      && (!s'.worker.flushing.Idle? ==> s'.channel.settled == s.channel.settled)
  {
    if s.worker.pending == [] {
      assert Marked(s.worker.pending, verdict) == [];
    } else if cfg.maxAttempts < 1 {
      assert s.channel.unacked == s.worker.pending + s.worker.ignored;
      NackEachRemoves(s.channel, s.worker.pending, s.worker.ignored);
    }
  }

  predicate AllMeanwhile(events: seq<Event>) {
    forall ev :: ev in events ==> RunsMeanwhile(ev)
  }

  predicate Undisturbed(meanwhile: seq<seq<Event>>) {
    forall events :: events in meanwhile ==> events == []
  }

  /** What was accepted beyond the settled batch is pending. */
  lemma AcceptedAfterFlush(cfg: Config, s: State, s': State, verdict: Verdict)
    requires Inv(cfg, s) && Inv(cfg, s') && s.worker.flushing.Idle? && s'.worker.flushing.Idle?
    requires s'.channel.settled == s.channel.settled + Marked(s.worker.pending, verdict)
    ensures s'.worker.accepted == s.worker.accepted + s'.worker.pending
  {
    DeliveriesOfMarked(s.channel.settled, s.worker.pending, verdict);
  }

  class BatchConsumer {
    const channel: AmqpChannel
    const cfg: Config
    var pending: seq<Delivery>
    var timerArmed: bool
    var queuedFlushes: nat
    var flushing: Flushing
    var stop: StopState
    ghost var accepted: seq<Delivery>
    ghost var ignored: seq<Delivery>

    ghost function Closure(): Worker
      reads this
    {
      Worker(pending, timerArmed, queuedFlushes, flushing, stop, accepted, ignored)
    }

    ghost function View(): State
      reads this, channel
    {
      State(channel.View(), Closure())
    }

    constructor (channel: AmqpChannel, cfg: Config)
      ensures this.channel == channel && this.cfg == cfg && Closure() == FRESH_WORKER
    {
      this.channel, this.cfg := channel, cfg;
      pending, timerArmed, queuedFlushes, flushing, stop := [], false, 0, Idle, Running;
      accepted, ignored := [], [];
    }

    method OnDelivery()
      requires Enabled(cfg, View(), Deliver)
      modifies this, channel
      ensures View() == Next(cfg, old(View()), Deliver)
    {
      var msg := channel.DeliverNext();
      if stop != Running {
        ignored := ignored + [msg];
        return;
      }
      pending := pending + [msg];
      accepted := accepted + [msg];
      if |pending| >= cfg.batchSize {
        if timerArmed {
          timerArmed := false;
        }
        queuedFlushes := queuedFlushes + 1;
      } else if !timerArmed {
        timerArmed := true;
      }
    }

    method OnTimer()
      requires Enabled(cfg, View(), TimerFires)
      modifies this
      ensures View() == Next(cfg, old(View()), TimerFires)
    {
      timerArmed := false;
      queuedFlushes := queuedFlushes + 1;
    }

    /** The nack loop over a given-up batch. */
    method GiveUp(batch: seq<Delivery>)
      modifies channel
      ensures channel.View() == NackEach(old(channel.View()), batch)
    {
      for i := 0 to |batch|
        invariant channel.View() == NackEach(old(channel.View()), batch[..i])
      {
        channel.NackWithoutRequeue(batch[i]);
        assert batch[..i + 1][..i] == batch[..i];
      }
      assert batch[..|batch|] == batch;
    }

    method BeginFlush()
      requires Enabled(cfg, View(), FlushStarts)
      modifies this, channel
      ensures View() == Next(cfg, old(View()), FlushStarts)
    {
      queuedFlushes := queuedFlushes - 1;
      if |pending| == 0 {
        return;
      }
      var batch := pending;
      pending := [];
      if !AllParsed(batch) {
        flushing := Broken(batch);
      } else if cfg.maxAttempts < 1 {
        GiveUp(batch);
      } else {
        flushing := Writing(batch, 1);
      }
    }

    method AttemptSucceeded()
      requires Enabled(cfg, View(), WriteSucceeds)
      modifies this, channel
      ensures View() == Next(cfg, old(View()), WriteSucceeds)
    {
      var batch := flushing.batch;
      channel.AckMultiple(batch[|batch| - 1]);
      flushing := Idle;
    }

    method AttemptFailed()
      requires Enabled(cfg, View(), WriteFails)
      modifies this, channel
      ensures View() == Next(cfg, old(View()), WriteFails)
    {
      if flushing.attempt < cfg.maxAttempts {
        flushing := Writing(flushing.batch, flushing.attempt + 1);
      } else {
        var batch := flushing.batch;
        flushing := Idle;
        GiveUp(batch);
      }
    }

    method CanHappen(ev: Event) returns (can: bool)
      requires RunsMeanwhile(ev)
      ensures can == Enabled(cfg, View(), ev)
    {
      match ev {
        case Publish(_) =>
          can := true;
        case Deliver =>
          can := channel.ready != [] && stop != Awaiting && (cfg.prefetch == 0 || |channel.unacked| < cfg.prefetch);
        case TimerFires =>
          can := timerArmed;
        case StopCalled =>
          can := stop == Running;
        case CancelConfirmed =>
          can := stop == Cancelling;
      }
    }

    method Happen(ev: Event)
      requires RunsMeanwhile(ev) && Enabled(cfg, View(), ev)
      modifies this, channel
      ensures View() == Next(cfg, old(View()), ev)
    {
      match ev {
        case Publish(body) =>
          channel.Enqueue(body);
        case Deliver =>
          OnDelivery();
        case TimerFires =>
          OnTimer();
        case StopCalled =>
          RequestStop();
        case CancelConfirmed =>
          OnCancelConfirmed();
      }
    }

    /**
     An `await` inside a flush: the events named happen in turn, as far as they can. A lost channel delivers
     nothing more.
     */
    method Await(events: seq<Event>, open: bool)
      requires Inv(cfg, View()) && AllMeanwhile(events)
      modifies this, channel
      ensures Inv(cfg, View()) && flushing == old(flushing) && channel.settled == old(channel.settled)
      ensures old(accepted) <= accepted && (events == [] || !open ==> accepted == old(accepted))
    {
      for i := 0 to |events|
        invariant Inv(cfg, View()) && flushing == old(flushing) && channel.settled == old(channel.settled)
        invariant old(accepted) <= accepted && (i == 0 || !open ==> accepted == old(accepted))
      {
        assert events[i] in events;
        var can := CanHappen(events[i]);
        if can && (open || !events[i].Deliver?) {
          MeanwhileKeepsFlush(cfg, View(), events[i]);
          Happen(events[i]);
        }
      }
    }

    method NextAttempt(events: seq<Event>, open: bool)
      requires Inv(cfg, View()) && flushing.Writing? && flushing.attempt < cfg.maxAttempts && AllMeanwhile(events)
      modifies this, channel
      ensures Inv(cfg, View()) && flushing == Writing(old(flushing.batch), old(flushing.attempt) + 1)
      ensures channel.settled == old(channel.settled) && old(accepted) <= accepted
      ensures events == [] ==> accepted == old(accepted)
    {
      StepKeepsInv(cfg, View(), WriteFails);
      AttemptFailed();
      Await(events, open);
    }

    /**
     The retry loop, given how each attempt ends and when the channel is lost: an acknowledgement on a lost
     channel throws and counts as a failed attempt. It stops at the first acknowledgement or with the last attempt.
     */
    method Retry(writes: seq<bool>, meanwhile: seq<seq<Event>>, lost: nat)
      requires Inv(cfg, View()) && flushing.Writing? && flushing.attempt == 1
      requires |writes| >= cfg.maxAttempts && |meanwhile| >= cfg.maxAttempts
      requires forall events :: events in meanwhile ==> AllMeanwhile(events)
      modifies this, channel
      ensures Inv(cfg, View()) && flushing.Writing? && flushing.batch == old(flushing.batch)
      ensures Acks(writes, lost, flushing.attempt - 1) || flushing.attempt == cfg.maxAttempts
      ensures VerdictOf(writes, lost, cfg.maxAttempts) ==
              if Acks(writes, lost, flushing.attempt - 1) then Some(Acked)
              else if lost < cfg.maxAttempts then None
              else Some(DeadLettered)
      ensures channel.settled == old(channel.settled) && old(accepted) <= accepted
      ensures Undisturbed(meanwhile) ==> accepted == old(accepted)
    {
      assert meanwhile[0] in meanwhile;
      Await(meanwhile[0], 0 < lost);
      while !(writes[flushing.attempt - 1] && flushing.attempt - 1 < lost) && flushing.attempt < cfg.maxAttempts
        invariant Inv(cfg, View()) && flushing.Writing? && flushing.batch == old(flushing.batch)
        invariant forall k: nat :: k < flushing.attempt - 1 ==> !Acks(writes, lost, k)
        invariant channel.settled == old(channel.settled) && old(accepted) <= accepted
        invariant Undisturbed(meanwhile) ==> accepted == old(accepted)
        decreases cfg.maxAttempts - flushing.attempt
      {
        assert meanwhile[flushing.attempt] in meanwhile;
        NextAttempt(meanwhile[flushing.attempt], flushing.attempt < lost);
      }
    }

    method Settle(succeeded: bool)
      requires Inv(cfg, View()) && flushing.Writing? && (succeeded || flushing.attempt == cfg.maxAttempts)
      modifies this, channel
      ensures Inv(cfg, View()) && Closure() == old(Closure()).(flushing := Idle)
      ensures channel.settled ==
              old(channel.settled) + Marked(old(flushing.batch), if succeeded then Acked else DeadLettered)
    {
      EndOfFlush(cfg, View());
      if succeeded {
        AttemptSucceeded();
      } else {
        AttemptFailed();
      }
    }

    /** A flush up to its first attempt; `verdict` is how it will end if it is to end at once. */
    method TakeBatch(ghost verdict: Verdict)
      requires Inv(cfg, View()) && Enabled(cfg, View(), FlushStarts)
      requires cfg.maxAttempts < 1 ==> verdict == DeadLettered
      modifies this, channel
      ensures Inv(cfg, View()) && accepted == old(accepted) && pending == []
      ensures match flushing
        case Idle =>
          && (old(pending) == [] || (AllParsed(old(pending)) && cfg.maxAttempts < 1))
          && channel.settled == old(channel.settled) + Marked(old(pending), verdict)
        case Writing(batch, attempt) =>
          && batch == old(pending) && batch != [] && AllParsed(batch) && attempt == 1 && cfg.maxAttempts >= 1
          && channel.settled == old(channel.settled)
        case Broken(batch) =>
          batch == old(pending) && !AllParsed(batch) && channel.settled == old(channel.settled)
    {
      StepKeepsInv(cfg, View(), FlushStarts);
      UnwrittenFlush(cfg, View(), verdict);
      BeginFlush();
    }

    /** After the retry loop: settle the batch, or throw on the first nack because the channel is gone. */
    method Finish(acks: bool, gone: bool)
      requires Inv(cfg, View()) && flushing.Writing? && (acks || flushing.attempt == cfg.maxAttempts)
      modifies this, channel
      ensures accepted == old(accepted)
      ensures acks || !gone ==>
        && Inv(cfg, View()) && flushing.Idle?
        && channel.settled ==
           old(channel.settled) + Marked(old(flushing.batch), if acks then Acked else DeadLettered)
      ensures !acks && gone ==> flushing == Broken(old(flushing.batch)) && channel.settled == old(channel.settled)
    {
      if !acks && gone {
        flushing := Broken(flushing.batch);
      } else {
        Settle(acks);
      }
    }

    /** A flush whose batch is not empty and parses, from its first attempt on. */
    method AttemptBatch(writes: seq<bool>, meanwhile: seq<seq<Event>>, lost: nat)
      requires Inv(cfg, View()) && flushing.Writing? && flushing.attempt == 1
      requires |writes| >= cfg.maxAttempts && |meanwhile| >= cfg.maxAttempts
      requires forall events :: events in meanwhile ==> AllMeanwhile(events)
      modifies this, channel
      ensures old(accepted) <= accepted && (Undisturbed(meanwhile) ==> accepted == old(accepted))
      ensures var verdict := VerdictOf(writes, lost, cfg.maxAttempts);
        if verdict.None? then flushing == Broken(old(flushing.batch)) && channel.settled == old(channel.settled)
        else
          && Inv(cfg, View()) && flushing.Idle?
          && channel.settled == old(channel.settled) + Marked(old(flushing.batch), verdict.value)
    {
      Retry(writes, meanwhile, lost);
      Finish(writes[flushing.attempt - 1] && flushing.attempt - 1 < lost, lost < cfg.maxAttempts);
    }

    /**
     One whole `flush`; `writes` says how each attempt ends, `meanwhile` what arrives, fires or is stopped during
     each attempt and the sleep before it, and `lost` from which attempt on the channel is gone (any number of at
     least `maxAttempts` if never). A batch that parses is settled exactly, acknowledged if one of the first
     `maxAttempts` attempts can, else dead-lettered, and everything accepted meanwhile is pending afterwards.
     When the channel was lost before an acknowledgement, the nack throws: all attempts were made, nothing is
     settled and the chain is broken. A batch that does not parse is left alone, and breaks the chain too.
     */
    method Flush(writes: seq<bool>, meanwhile: seq<seq<Event>>, lost: nat)
      requires Inv(cfg, View()) && Enabled(cfg, View(), FlushStarts)
      requires |writes| >= cfg.maxAttempts && |meanwhile| >= cfg.maxAttempts
      requires forall events :: events in meanwhile ==> AllMeanwhile(events)
      modifies this, channel
      ensures AllParsed(old(pending)) && (old(pending) == [] || VerdictOf(writes, lost, cfg.maxAttempts).Some?) ==>
        && Inv(cfg, View()) && flushing.Idle?
        && channel.settled == old(channel.settled) + MarkedIf(old(pending), VerdictOf(writes, lost, cfg.maxAttempts))
        && accepted == old(accepted) + pending
        && (Undisturbed(meanwhile) ==> pending == [])
      ensures AllParsed(old(pending)) && old(pending) != [] && VerdictOf(writes, lost, cfg.maxAttempts).None? ==>
        flushing == Broken(old(pending)) && channel.settled == old(channel.settled)
      ensures !AllParsed(old(pending)) ==>
        && Inv(cfg, View())
        && flushing == Broken(old(pending)) && pending == [] && channel.settled == old(channel.settled)
    {
      ghost var start, verdict := View(), VerdictOf(writes, lost, cfg.maxAttempts);
      ghost var settling := if verdict.Some? then verdict.value else DeadLettered;
      TakeBatch(settling);
      if flushing.Writing? {
        AttemptBatch(writes, meanwhile, lost);
      }
      if flushing.Idle? {
        AcceptedAfterFlush(cfg, start, View(), settling);
      }
    }

    method RequestStop()
      requires Enabled(cfg, View(), StopCalled)
      modifies this
      ensures View() == Next(cfg, old(View()), StopCalled)
    {
      stop := Cancelling;
    }

    method OnCancelConfirmed()
      requires Enabled(cfg, View(), CancelConfirmed)
      modifies this
      ensures View() == Next(cfg, old(View()), CancelConfirmed)
    {
      if timerArmed {
        timerArmed := false;
      }
      stop := Awaiting;
      queuedFlushes := queuedFlushes + 1;
    }
  }
}
