/** Draining to the end: while sales are backed, the pipeline finishes and every promise is in the table. */
module SystemProgress {
  import opened Prelude
  import opened Store
  import opened StoreTheorems
  import opened System
  import opened SystemSafety
  import opened SystemFast
  import D = Drain
  import DT = DrainTheorems

  /** The pipeline's own steps when no write attempt fails. */
  predicate Smooth(l: Label) {
    l == BatchOk || l == Consume(D.Deliver) || l == Consume(D.TimerFires) || l == Consume(D.FlushStarts)
  }

  ghost predicate AllBacked(y: Sys) {
    forall s :: s in y.db.sales ==> Backed(y, s, |y.drain.channel.dead|)
  }

  /** A running consumer with well-formed messages and at least one attempt per batch. */
  predicate Draining(cfg: D.Config, y: Sys) {
    && cfg.maxAttempts >= 1
    && y.drain.worker.stop == D.Running && !y.drain.worker.flushing.Broken?
    && DT.WellFormedMessages(y.drain)
  }

  lemma OutstandingCanCommit(y: Sys, entries: seq<Entry>)
    requires Books(y) && AllBacked(y) && forall e :: e in entries ==> e in Outstanding(y.drain)
    ensures WriteBatch(y.db, entries).Committed?
  {
    var marks := map s | s in y.db.sales :: |y.drain.channel.dead|;
    forall e | e in entries ensures e.saleId in marks {
      assert Lawful(y.db.sales, e);
    }
    BackedBatchCommits(y, entries, marks);
  }

  lemma FlightCanCommit(cfg: D.Config, y: Sys, batch: seq<D.Delivery>)
    requires D.Inv(cfg, y.drain) && Books(y) && AllBacked(y)
    requires y.drain.worker.flushing.Writing? && y.drain.worker.flushing.batch == batch && D.AllParsed(batch)
    ensures WriteBatch(y.db, EntriesOf(batch)).Committed?
  {
    BatchEntriesOutstanding(cfg, y.drain);
    OutstandingCanCommit(y, EntriesOf(batch));
  }

  lemma FlightIsWellFormed(cfg: D.Config, d: D.State)
    requires D.Inv(cfg, d) && d.worker.flushing.Writing?
    ensures d.worker.flushing.batch != [] && D.AllParsed(d.worker.flushing.batch)
  {
  }

  lemma BatchOkIsEnabled(cfg: D.Config, y: Sys)
    requires y.drain.worker.flushing.Writing? && y.drain.worker.flushing.batch != []
    requires D.AllParsed(y.drain.worker.flushing.batch)
    requires WriteBatch(y.db, EntriesOf(y.drain.worker.flushing.batch)).Committed?
    ensures Enabled(cfg, y, BatchOk)
  {
  }

  /** With every sale backed, the batch in flight can commit: no attempt fails for want of stock. */
  lemma WritingCanCommit(cfg: D.Config, y: Sys)
    requires Safe(cfg, y) && AllBacked(y) && y.drain.worker.flushing.Writing?
    ensures Enabled(cfg, y, BatchOk)
  {
    FlightIsWellFormed(cfg, y.drain);
    FlightCanCommit(cfg, y, y.drain.worker.flushing.batch);
    BatchOkIsEnabled(cfg, y);
  }

  lemma StepKeepsAllBacked(cfg: D.Config, y: Sys, l: Label)
    requires D.Inv(cfg, y.drain) && AllBacked(y) && Enabled(cfg, y, l) && Advances(y.db, Next(cfg, y, l).db)
    requires Smooth(l) && Next(cfg, y, l).drain.channel.dead == y.drain.channel.dead
    ensures AllBacked(Next(cfg, y, l))
  {
    forall s | s in Next(cfg, y, l).db.sales ensures Backed(Next(cfg, y, l), s, |y.drain.channel.dead|) {
      BackingIsKept(cfg, y, l, s, |y.drain.channel.dead|);
    }
  }

  predicate SmoothEvent(ev: D.Event) {
    ev.Deliver? || ev.TimerFires? || ev.FlushStarts? || ev.WriteSucceeds?
  }

  lemma SmoothEventDrains(cfg: D.Config, d: D.State, ev: D.Event)
    requires D.Inv(cfg, d) && D.Enabled(cfg, d, ev) && SmoothEvent(ev) && cfg.maxAttempts >= 1
    requires d.worker.stop == D.Running && !d.worker.flushing.Broken? && DT.WellFormedMessages(d)
    ensures var d' := D.Next(cfg, d, ev);
      && D.Inv(cfg, d') && DT.Measure(cfg, d') < DT.Measure(cfg, d)
      && d'.worker.stop == D.Running && !d'.worker.flushing.Broken? && DT.WellFormedMessages(d')
      && d'.channel.dead == d.channel.dead
  {
    DT.InternalStepDecreases(cfg, d, ev);
    DT.WellFormedNeverBreaks(cfg, d, ev);
  }

  function SmoothEventOf(l: Label): D.Event
    requires Smooth(l)
  {
    if l == BatchOk then D.WriteSucceeds else l.ev
  }

  lemma SmoothFrame(cfg: D.Config, y: Sys, l: Label)
    requires Enabled(cfg, y, l) && Smooth(l)
    ensures D.Enabled(cfg, y.drain, SmoothEventOf(l)) && SmoothEvent(SmoothEventOf(l))
    ensures Next(cfg, y, l).drain == D.Next(cfg, y.drain, SmoothEventOf(l)) && Next(cfg, y, l).published == y.published
  {
  }

  lemma SmoothStep(cfg: D.Config, start: Db, y: Sys, l: Label)
    requires Safe(cfg, y) && Since(start, y) && AllBacked(y) && Draining(cfg, y) && Enabled(cfg, y, l) && Smooth(l)
    ensures var y' := Next(cfg, y, l);
      && Safe(cfg, y') && Since(start, y') && AllBacked(y') && Draining(cfg, y')
      && DT.Measure(cfg, y'.drain) < DT.Measure(cfg, y.drain)
      && y'.drain.channel.dead == y.drain.channel.dead
      && y'.published == y.published
  {
    SmoothFrame(cfg, y, l);
    SmoothEventDrains(cfg, y.drain, SmoothEventOf(l));
    StepKeepsSafe(cfg, start, y, l);
    StepKeepsAllBacked(cfg, y, l);
  }

  lemma {:induction false} SmoothRun(cfg: D.Config, start: Db, y: Sys, labels: seq<Label>)
    requires Safe(cfg, y) && Since(start, y) && AllBacked(y) && Draining(cfg, y) && Runs(cfg, y, labels)
    requires forall l :: l in labels ==> Smooth(l)
    ensures var y' := After(cfg, y, labels);
      && Safe(cfg, y') && AllBacked(y') && Draining(cfg, y')
      && |labels| + DT.Measure(cfg, y'.drain) <= DT.Measure(cfg, y.drain)
      && y'.drain.channel.dead == y.drain.channel.dead
      && y'.published == y.published
    decreases |labels|
  {
    if labels != [] {
      assert labels[0] in labels && forall l :: l in labels[1..] ==> l in labels;
      SmoothStep(cfg, start, y, labels[0]);
      SmoothRun(cfg, start, Next(cfg, y, labels[0]), labels[1..]);
    }
  }

  /**
   Draining finishes and keeps every promise: with all sales backed, left to itself and to a database
   that answers, the pipeline runs out of steps within a linear bound, and when it has, every message
   ever published is in the table except those that were dead-lettered before.
   */
  lemma DrainingWritesEverything(cfg: D.Config, start: Db, y: Sys, labels: seq<Label>)
    requires Safe(cfg, y) && Since(start, y) && AllBacked(y) && Draining(cfg, y) && Runs(cfg, y, labels)
    requires forall l :: l in labels ==> Smooth(l)
    ensures |labels| <= DT.Measure(cfg, y.drain)
    ensures var y' := After(cfg, y, labels);
      (forall l :: Smooth(l) ==> !Enabled(cfg, y', l)) ==>
        && Outstanding(y'.drain) == {}
        && y'.published == y.published
        && forall e :: e in y.published && e !in DeadEntries(y.drain) ==> KeyOf(e) in y'.db.purchases
  {
    SmoothRun(cfg, start, y, labels);
    var y' := After(cfg, y, labels);
    assert Smooth(BatchOk) && Smooth(Consume(D.Deliver));
    assert Smooth(Consume(D.TimerFires)) && Smooth(Consume(D.FlushStarts));
    if forall l :: Smooth(l) ==> !Enabled(cfg, y', l) {
      StuckMeansWritten(cfg, y');
    }
  }

  lemma StuckMeansWritten(cfg: D.Config, y: Sys)
    requires Safe(cfg, y) && AllBacked(y) && Draining(cfg, y)
    requires !Enabled(cfg, y, BatchOk) && !Enabled(cfg, y, Consume(D.Deliver))
    requires !Enabled(cfg, y, Consume(D.TimerFires)) && !Enabled(cfg, y, Consume(D.FlushStarts))
    ensures Outstanding(y.drain) == {}
    ensures forall e :: e in y.published && e !in DeadEntries(y.drain) ==> KeyOf(e) in y.db.purchases
  {
    if y.drain.worker.flushing.Writing? {
      WritingCanCommit(cfg, y);
    } else {
      DT.QuietMeansDrained(cfg, y.drain);
    }
  }

  // ---------------------------------------------------------------- from a cold start

  /** What a step of the pipeline is to the consumer: one of its events, or nothing. */
  function DrainEvent(y: Sys, l: Label): Option<D.Event> {
    match l
    case PublishOk(id) => if id in y.limbo then Some(D.Publish(D.Parsed(y.limbo[id]))) else None
    case Junk => Some(D.Publish(D.Malformed))
    case Consume(ev) => Some(ev)
    case BatchOk => Some(D.WriteSucceeds)
    case _ => None
  }

  lemma DrainFollowsEvent(cfg: D.Config, y: Sys, l: Label)
    requires Enabled(cfg, y, l)
    ensures var ev := DrainEvent(y, l);
      && (ev.Some? ==> D.Enabled(cfg, y.drain, ev.value))
      && Next(cfg, y, l).drain == if ev.Some? then D.Next(cfg, y.drain, ev.value) else y.drain
  {
    if l.BatchOk? {
      BatchOkFrame(cfg, y);
    }
  }

  predicate Clean(d: D.State) {
    DT.WellFormedMessages(d) && !d.worker.flushing.Broken?
  }

  /** Publishers of the pipeline only send purchase writes: without junk from elsewhere the chain never breaks. */
  lemma {:induction false} RunsWithoutJunkStayClean(cfg: D.Config, start: Db, y: Sys, labels: seq<Label>)
    requires Safe(cfg, y) && Since(start, y) && Clean(y.drain) && Runs(cfg, y, labels) && Junk !in labels
    ensures Clean(After(cfg, y, labels).drain)
    decreases |labels|
  {
    if labels != [] {
      var l := labels[0];
      assert l != Junk && Junk !in labels[1..];
      DrainFollowsEvent(cfg, y, l);
      if DrainEvent(y, l).Some? {
        DT.WellFormedNeverBreaks(cfg, y.drain, DrainEvent(y, l).value);
      }
      StepKeepsSafe(cfg, start, y, l);
      RunsWithoutJunkStayClean(cfg, start, Next(cfg, y, l), labels[1..]);
    }
  }

  /** Every sale has standing at the end of a run from a cold start. */
  ghost predicate AllStanding(cfg: D.Config, db: Db, labels: seq<Label>)
    requires Runs(cfg, Boot(db), labels)
  {
    forall s :: s in db.sales ==> StandingOf(cfg, db, labels, s).Some?
  }

  lemma StandingMeansAllBacked(cfg: D.Config, db: Db, labels: seq<Label>)
    requires SchemaHolds(db) && Runs(cfg, Boot(db), labels) && AllStanding(cfg, db, labels)
    ensures AllBacked(After(cfg, Boot(db), labels))
  {
    var y := After(cfg, Boot(db), labels);
    BootIsSafe(cfg, db);
    RunKeepsSafe(cfg, db, Boot(db), labels);
    forall s | s in y.db.sales ensures Backed(y, s, |y.drain.channel.dead|) {
      StandingIsBacked(cfg, db, labels, s);
      MarkMayMove(y, s, StandingOf(cfg, db, labels, s).value, |y.drain.channel.dead|);
    }
  }

  lemma BootIsClean(db: Db)
    ensures Clean(Boot(db).drain)
  {
  }

  lemma RunIsClean(cfg: D.Config, db: Db, before: seq<Label>)
    requires Safe(cfg, Boot(db)) && Since(db, Boot(db)) && Runs(cfg, Boot(db), before) && Junk !in before
    ensures Clean(After(cfg, Boot(db), before).drain)
  {
    BootIsClean(db);
    RunsWithoutJunkStayClean(cfg, db, Boot(db), before);
  }

  lemma RunIsSafeAndClean(cfg: D.Config, db: Db, before: seq<Label>)
    requires SchemaHolds(db) && Runs(cfg, Boot(db), before) && Junk !in before
    ensures var y := After(cfg, Boot(db), before); Safe(cfg, y) && Since(db, y) && Clean(y.drain)
  {
    BootIsSafe(cfg, db);
    RunKeepsSafe(cfg, db, Boot(db), before);
    RunIsClean(cfg, db, before);
  }

  /** What a run has left once it can take no more steps of its own. */
  ghost predicate DrainedAfter(cfg: D.Config, y: Sys, y': Sys) {
    (forall l :: Smooth(l) ==> !Enabled(cfg, y', l)) ==>
      && Outstanding(y'.drain) == {}
      && forall e :: e in y.published && e !in DeadEntries(y.drain) ==> KeyOf(e) in y'.db.purchases
  }

  lemma DrainsFrom(cfg: D.Config, db: Db, y: Sys, labels: seq<Label>)
    requires Safe(cfg, y) && Since(db, y) && AllBacked(y) && Clean(y.drain)
    requires cfg.maxAttempts >= 1 && y.drain.worker.stop == D.Running
    requires Runs(cfg, y, labels) && forall l :: l in labels ==> Smooth(l)
    ensures |labels| <= DT.Measure(cfg, y.drain) && DrainedAfter(cfg, y, After(cfg, y, labels))
  {
    DrainingWritesEverything(cfg, db, y, labels);
  }

  /**
   From a cold start: take any run without junk at whose end every sale has standing and a consumer is
   running. Left to itself and to a database that answers, the pipeline then runs out of steps within a linear
   bound, and every message ever published is in the table except those that were dead-lettered before.
   */
  lemma EveryRunCanBeDrained(cfg: D.Config, db: Db, before: seq<Label>, labels: seq<Label>)
    requires SchemaHolds(db) && Runs(cfg, Boot(db), before) && AllStanding(cfg, db, before)
    requires Junk !in before && cfg.maxAttempts >= 1 && After(cfg, Boot(db), before).drain.worker.stop == D.Running
    requires Runs(cfg, After(cfg, Boot(db), before), labels) && forall l :: l in labels ==> Smooth(l)
    ensures var y := After(cfg, Boot(db), before);
      && D.FlushShape(cfg, y.drain.worker.flushing)
      && |labels| <= DT.Measure(cfg, y.drain)
      && DrainedAfter(cfg, y, After(cfg, y, labels))
  {
    RunIsSafeAndClean(cfg, db, before);
    StandingMeansAllBacked(cfg, db, before);
    DrainsFrom(cfg, db, After(cfg, Boot(db), before), labels);
  }
}
