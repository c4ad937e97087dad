/**
 Between a warm at quiescence and the next bypass, warm or sweep of a sale: gate, promises and table stay in
 step, so each open reservation is the only trace of its buyer outside the gate and can be written.
 */
module SystemInStep {
  import opened Prelude
  import opened Emails
  import opened Store
  import opened StoreTheorems
  import opened Gate
  import opened System
  import opened SystemSafety
  import opened SystemFast
  import D = Drain

  /**
   The gate knows everyone the table or a promise knows, and each reservation still in limbo is the only
   trace of its buyer outside the gate.
   */
  ghost predicate InStep(y: Sys, s: SaleId, mark: nat) {
    Known(y, s, mark) && Warmed(y.redis, s) && LimboAlone(y, s, mark)
  }

  ghost predicate LimboAlone(y: Sys, s: SaleId, mark: nat) {
    && (forall id :: id in y.limbo && y.limbo[id].saleId == s ==>
          KeyOf(y.limbo[id]) !in y.db.purchases && KeyOf(y.limbo[id]) !in KeysFor(Sent(y.drain, mark)))
    && (forall a, b :: a in y.limbo && b in y.limbo && a != b && y.limbo[a].saleId == s ==>
          KeyOf(y.limbo[a]) != KeyOf(y.limbo[b]))
  }

  /** A warm at quiescence: Redis says what the table says, and nothing of the sale is on its way. */
  ghost predicate JustWarmed(y: Sys, s: SaleId) {
    && s in y.db.sales
    && s in y.redis.stock && y.redis.stock[s] == Some(y.db.sales[s].remainingStock)
    && s in y.redis.meta
    && Members(y.redis, s) == BuyersOf(y.db, s)
    && (forall e :: e in Promised(y, |y.drain.channel.dead|) ==> e.saleId != s)
  }

  /** Warming from current reads while nothing of the sale is outstanding produces such a state. */
  lemma QuiescentWarm(cfg: D.Config, y: Sys, s: SaleId, emails: seq<string>)
    requires s in y.db.sales && Folded(emails) == BuyersOf(y.db, s) && SchemaHolds(y.db)
    requires forall e :: e in Promised(y, |y.drain.channel.dead|) ==> e.saleId != s
    ensures Enabled(cfg, y, WarmSale(s, y.db.sales[s].remainingStock, emails))
    ensures JustWarmed(Next(cfg, y, WarmSale(s, y.db.sales[s].remainingStock, emails)), s)
  {
    assert SaleChecks(y.db.sales[s]);
    if emails == [] {
      assert Folded(emails) == {};
    }
  }

  /** A warm at quiescence gives a sale its standing back, whatever happened before. */
  lemma QuiescentWarmGivesStanding(cfg: D.Config, y: Sys, s: SaleId, emails: seq<string>, standing: Option<nat>)
    requires s in y.db.sales && Folded(emails) == BuyersOf(y.db, s) && SchemaHolds(y.db)
    requires forall e :: e in Promised(y, |y.drain.channel.dead|) ==> e.saleId != s
    ensures var l := WarmSale(s, y.db.sales[s].remainingStock, emails);
      Enabled(cfg, y, l) && StandingAfter(cfg, y, l, s, standing) == Some(|y.drain.channel.dead|)
  {
    assert SaleChecks(y.db.sales[s]);
  }

  lemma JustWarmedIsInStep(y: Sys, s: SaleId)
    requires JustWarmed(y, s) && SchemaHolds(y.db)
    ensures InStep(y, s, |y.drain.channel.dead|)
  {
    var mark := |y.drain.channel.dead|;
    assert SaleChecks(y.db.sales[s]);
    forall id | id in y.limbo ensures y.limbo[id].saleId != s {
      assert y.limbo[id] in Promised(y, mark);
    }
    assert EmailsOf(KeysFor(Promised(y, mark)), s) == {};
  }

  /** Gated, with the sale's keys left alone. */
  predicate Fast(y: Sys, l: Label, s: SaleId, mark: nat) {
    Gated(y, l, s, mark) && KeepsKeys(l, s)
  }

  lemma ContainedAfter(y: Sys, y': Sys, s: SaleId, mark: nat)
    requires Known(y, s, mark) && DriftLaw(y', s) && mark <= |y'.drain.channel.dead|
    requires BuyersOf(y'.db, s) <= BuyersOf(y.db, s) + EmailsOf(KeysFor(Promised(y, mark)), s)
    requires Promised(y', mark) <= Promised(y, mark)
    requires Members(y.redis, s) <= Members(y'.redis, s)
    ensures Known(y', s, mark)
  {
    KeysForGrow(Promised(y', mark), Promised(y, mark));
  }

  lemma LimboAloneAfter(y: Sys, y': Sys, s: SaleId, mark: nat)
    requires LimboAlone(y, s, mark)
    requires forall id :: id in y'.limbo ==> id in y.limbo && y'.limbo[id] == y.limbo[id]
    requires forall k: Key :: k.saleId == s && k in y'.db.purchases ==>
               || k in y.db.purchases || k in KeysFor(Sent(y.drain, mark))
               || forall id :: id in y'.limbo ==> KeyOf(y'.limbo[id]) != k
    requires Sent(y'.drain, mark) <= Sent(y.drain, mark)
    ensures LimboAlone(y', s, mark)
  {
    KeysForGrow(Sent(y'.drain, mark), Sent(y.drain, mark));
    forall id | id in y'.limbo && y'.limbo[id].saleId == s ensures KeyOf(y'.limbo[id]) !in y'.db.purchases {
      assert KeyOf(y'.limbo[id]).saleId == s;
    }
  }

  // ---------------------------------------------------------------- how promises move

  lemma DrainMoves(cfg: D.Config, y: Sys, l: Label, mark: nat)
    requires D.Inv(cfg, y.drain) && Enabled(cfg, y, l) && mark <= |y.drain.channel.dead|
    ensures var d, d' := y.drain, Next(cfg, y, l).drain;
      && mark <= |d'.channel.dead|
      && Sent(d', mark) <= Sent(d, mark) + if l.PublishOk? then {y.limbo[l.id]} else {}
  {
    if l.PublishOk? {
      PublishAddsOne(cfg, y.drain, D.Parsed(y.limbo[l.id]));
    } else if l.Junk? {
      PublishAddsOne(cfg, y.drain, D.Malformed);
    } else if l.Consume? {
      WorkerKeepsSent(cfg, y.drain, l.ev, mark);
    } else if l.BatchOk? {
      BatchOkFrame(cfg, y);
      BatchOkMoves(cfg, y.drain);
    }
  }

  lemma LimboMoves(cfg: D.Config, y: Sys, l: Label)
    requires Enabled(cfg, y, l)
    ensures Next(cfg, y, l).limbo.Values <=
            y.limbo.Values + if l.Ask? then {Entry(l.saleId, l.email, l.now)} else {}
    ensures !l.Ask? ==>
            forall id :: id in Next(cfg, y, l).limbo ==> id in y.limbo && Next(cfg, y, l).limbo[id] == y.limbo[id]
  {
  }

  /** Only a reservation adds a promise. */
  lemma PromisesGrowByReservation(cfg: D.Config, y: Sys, l: Label, mark: nat)
    requires D.Inv(cfg, y.drain) && Enabled(cfg, y, l) && mark <= |y.drain.channel.dead|
    ensures Promised(Next(cfg, y, l), mark) <=
            Promised(y, mark) + if l.Ask? then {Entry(l.saleId, l.email, l.now)} else {}
  {
    DrainMoves(cfg, y, l, mark);
    LimboMoves(cfg, y, l);
  }

  // ---------------------------------------------------------------- in step is kept

  /** Every row a step adds for the sale was promised, and each row but a fallback's own was sent. */
  lemma NewRowsWerePromised(cfg: D.Config, y: Sys, l: Label, s: SaleId, mark: nat)
    requires D.Inv(cfg, y.drain) && Enabled(cfg, y, l) && Gated(y, l, s, mark)
    ensures forall k :: k in Next(cfg, y, l).db.purchases && k.saleId == s ==>
              || k in y.db.purchases || k in KeysFor(Sent(y.drain, mark))
              || (l.FallBack? && k == KeyOf(y.limbo[l.id]))
  {
    if l.FallBack? {
      var e := y.limbo[l.id];
      WriteOneAddsOneKey(y.db, e.saleId, e.email, l.databaseNow);
    } else if l.Bypass? {
      BypassIsOneWrite(y, l.saleId, l.email, l.now, l.databaseNow, l.seen);
      WriteOneAddsOneKey(y.db, l.saleId, l.email, l.databaseNow);
    } else if l.BatchOk? {
      BatchOkFrame(cfg, y);
      BatchOkMoves(cfg, y.drain);
      CommittedRowsWereSent(y, EntriesOf(y.drain.worker.flushing.batch), s, mark);
    } else if l.StrayCommit? {
      CommittedRowsWereSent(y, l.entries, s, mark);
    }
  }

  lemma CommittedRowsWereSent(y: Sys, entries: seq<Entry>, s: SaleId, mark: nat)
    requires WriteBatch(y.db, entries).Committed? && Timely(y, StrayCommit(entries), s, mark)
    ensures forall k :: k in WriteBatch(y.db, entries).db.purchases && k.saleId == s ==>
              k in y.db.purchases || k in KeysFor(Sent(y.drain, mark))
  {
    CommittedBatchAbsorbs(y.db, entries);
  }

  lemma PromisedKeys(y: Sys, s: SaleId, mark: nat)
    ensures forall id :: id in y.limbo ==> KeyOf(y.limbo[id]) in KeysFor(Promised(y, mark))
    ensures KeysFor(Sent(y.drain, mark)) <= KeysFor(Promised(y, mark))
  {
    KeysForGrow(Sent(y.drain, mark), Promised(y, mark));
    assert forall id :: id in y.limbo ==> y.limbo[id] in Promised(y, mark);
  }

  lemma ReservationStaysKnown(y: Sys, y': Sys, e: Entry, s: SaleId, mark: nat)
    requires EmailsOf(KeysFor(Promised(y, mark)), s) <= Members(y.redis, s)
    requires Promised(y', mark) <= Promised(y, mark) + {e}
    requires Members(y'.redis, s) == Members(y.redis, s) + if e.saleId == s then {KeyOf(e).email} else {}
    ensures EmailsOf(KeysFor(Promised(y', mark)), s) <= Members(y'.redis, s)
  {
    forall email | email in EmailsOf(KeysFor(Promised(y', mark)), s) ensures email in Members(y'.redis, s) {
      var p :| p in Promised(y', mark) && KeyOf(p) == Key(s, email);
      if p != e {
        assert KeyOf(p) in KeysFor(Promised(y, mark));
      }
    }
  }

  /** Whom the gate does not know, nobody knows. */
  lemma UnknownToGate(y: Sys, key: Key, mark: nat)
    requires Known(y, key.saleId, mark) && key.email !in Members(y.redis, key.saleId)
    ensures key !in y.db.purchases && key !in KeysFor(Promised(y, mark))
  {
    assert Key(key.saleId, key.email) == key;
  }

  /** A new reservation is for a buyer that neither table, broker nor limbo knew. */
  lemma ReservationIsAlone(y: Sys, y': Sys, e: Entry, s: SaleId, mark: nat)
    requires LimboAlone(y, s, mark) && y'.limbo == y.limbo[y.calls := e] && y'.db == y.db && y'.drain == y.drain
    requires y.calls !in y.limbo
    requires e.saleId == s ==> KeyOf(e) !in y.db.purchases && KeyOf(e) !in KeysFor(Promised(y, mark))
    ensures LimboAlone(y', s, mark)
  {
    PromisedKeys(y, s, mark);
  }

  lemma AskKeepsKnown(y: Sys, t: SaleId, email: string, now: int, s: SaleId, mark: nat)
    requires Known(y, s, mark) && DriftLaw(AskNext(y, t, email, now), s)
    ensures Known(AskNext(y, t, email, now), s, mark)
  {
    var y', e := AskNext(y, t, email, now), Entry(t, email, now);
    if Decide(y.redis, t, NormalizeEmail(email), now) == Reserved {
      assert y'.limbo.Values <= y.limbo.Values + {e};
      ReservationStaysKnown(y, y', e, s, mark);
    } else {
      assert Promised(y', mark) == Promised(y, mark);
    }
  }

  lemma AskKeepsLimboAlone(y: Sys, t: SaleId, email: string, now: int, s: SaleId, mark: nat)
    requires Known(y, s, mark) && LimboAlone(y, s, mark) && y.calls !in y.limbo
    ensures LimboAlone(AskNext(y, t, email, now), s, mark)
  {
    var y', e := AskNext(y, t, email, now), Entry(t, email, now);
    if Decide(y.redis, t, NormalizeEmail(email), now) == Reserved {
      if t == s {
        UnknownToGate(y, KeyOf(e), mark);
      }
      ReservationIsAlone(y, y', e, s, mark);
    }
  }

  lemma PublishKeepsLimboAlone(cfg: D.Config, y: Sys, id: nat, s: SaleId, mark: nat)
    requires LimboAlone(y, s, mark) && id in y.limbo
    ensures LimboAlone(PublishNext(cfg, y, id), s, mark)
  {
    var y', e := PublishNext(cfg, y, id), y.limbo[id];
    PublishAddsOne(cfg, y.drain, D.Parsed(e));
    assert Sent(y'.drain, mark) <= Sent(y.drain, mark) + {e};
    forall other | other in y'.limbo && y'.limbo[other].saleId == s
      ensures KeyOf(y'.limbo[other]) !in KeysFor(Sent(y'.drain, mark)) {
      forall p | p in Sent(y'.drain, mark) ensures KeyOf(p) != KeyOf(y'.limbo[other]) {
        assert p != e ==> KeyOf(p) in KeysFor(Sent(y.drain, mark));
      }
    }
  }

  lemma StepKeepsLimboAlone(cfg: D.Config, y: Sys, l: Label, s: SaleId, mark: nat)
    requires D.Inv(cfg, y.drain) && LimboAlone(y, s, mark) && Enabled(cfg, y, l) && Gated(y, l, s, mark) && !l.Ask?
    requires mark <= |y.drain.channel.dead|
    ensures LimboAlone(Next(cfg, y, l), s, mark)
  {
    if l.PublishOk? {
      PublishKeepsLimboAlone(cfg, y, l.id, s, mark);
    } else {
      DrainMoves(cfg, y, l, mark);
      LimboMoves(cfg, y, l);
      NewRowsWerePromised(cfg, y, l, s, mark);
      if l.FallBack? {
        FallBackFrame(y, l.id, l.databaseNow, l.seen);
      }
      LimboAloneAfter(y, Next(cfg, y, l), s, mark);
    }
  }

  lemma FallBackFrame(y: Sys, id: nat, databaseNow: int, seen: bool)
    requires id in y.limbo
    ensures var y' := FallBackNext(y, id, databaseNow, seen);
      && y'.limbo == y.limbo - {id} && y'.calls == y.calls && y'.redis == y.redis && y'.drain == y.drain
      && (id !in y.replies ==> y'.replies - {id} == y.replies)
  {
  }

  lemma OtherStepKeepsKnown(cfg: D.Config, y: Sys, l: Label, s: SaleId, mark: nat)
    requires D.Inv(cfg, y.drain) && Known(y, s, mark) && Enabled(cfg, y, l) && Fast(y, l, s, mark) && !l.Ask?
    requires DriftLaw(Next(cfg, y, l), s)
    ensures Known(Next(cfg, y, l), s, mark)
  {
    GateMoves(cfg, y, l, s);
    NewRowsWerePromised(cfg, y, l, s, mark);
    PromisedKeys(y, s, mark);
    PromisesGrowByReservation(cfg, y, l, mark);
    DrainMoves(cfg, y, l, mark);
    ContainedAfter(y, Next(cfg, y, l), s, mark);
  }

  /** Fast, or a request that goes round the gate for a buyer the gate has counted already. */
  predicate Knowing(y: Sys, l: Label, s: SaleId, mark: nat) {
    Fast(y, l, s, mark) || (l.Bypass? && l.saleId == s && NormalizeEmail(l.email) in Members(y.redis, s))
  }

  /** A gate that knows every buyer goes on knowing them, repeated requests round the gate included. */
  lemma KnownIsKept(cfg: D.Config, y: Sys, l: Label, s: SaleId, mark: nat)
    requires D.Inv(cfg, y.drain) && Known(y, s, mark) && Enabled(cfg, y, l) && Knowing(y, l, s, mark)
    requires Advances(y.db, Next(cfg, y, l).db)
    ensures Known(Next(cfg, y, l), s, mark)
  {
    if !Fast(y, l, s, mark) {
      RepeatBypassKeepsKnown(cfg, y, l, s, mark);
    } else {
      DriftLawIsKept(cfg, y, l, s);
      if l.Ask? {
        AskKeepsKnown(y, l.saleId, l.email, l.now, s, mark);
      } else {
        OtherStepKeepsKnown(cfg, y, l, s, mark);
      }
    }
  }

  /** Gate, promises and table stay in step through every step that neither bypasses, warms nor sweeps the sale. */
  lemma InStepIsKept(cfg: D.Config, start: Db, y: Sys, l: Label, s: SaleId, mark: nat)
    requires Safe(cfg, y) && Since(start, y) && InStep(y, s, mark) && Enabled(cfg, y, l) && Fast(y, l, s, mark)
    ensures InStep(Next(cfg, y, l), s, mark)
  {
    StepKeepsSafe(cfg, start, y, l);
    KnownIsKept(cfg, y, l, s, mark);
    GateMoves(cfg, y, l, s);
    if l.Ask? {
      AskKeepsLimboAlone(y, l.saleId, l.email, l.now, s, mark);
    } else {
      StepKeepsLimboAlone(cfg, y, l, s, mark);
    }
  }

  predicate FastRun(cfg: D.Config, y: Sys, labels: seq<Label>, s: SaleId, mark: nat)
    requires Runs(cfg, y, labels)
    decreases |labels|
  {
    labels != [] ==> Fast(y, labels[0], s, mark) && FastRun(cfg, Next(cfg, y, labels[0]), labels[1..], s, mark)
  }

  lemma {:induction false} InStepOverRuns(cfg: D.Config, start: Db, y: Sys, labels: seq<Label>, s: SaleId, mark: nat)
    requires Safe(cfg, y) && Since(start, y) && InStep(y, s, mark) && Runs(cfg, y, labels)
    requires FastRun(cfg, y, labels, s, mark)
    ensures Safe(cfg, After(cfg, y, labels)) && InStep(After(cfg, y, labels), s, mark)
    decreases |labels|
  {
    if labels != [] {
      StepKeepsSafe(cfg, start, y, labels[0]);
      InStepIsKept(cfg, start, y, labels[0], s, mark);
      InStepOverRuns(cfg, start, Next(cfg, y, labels[0]), labels[1..], s, mark);
    }
  }

  /** While gate and table are in step, an open reservation finds neither its buyer's row nor an empty stock. */
  lemma InStepFallbackSucceeds(y: Sys, id: nat, mark: nat, databaseNow: int)
    requires id in y.limbo && InStep(y, y.limbo[id].saleId, mark)
    ensures var e := y.limbo[id];
      var r := WriteOne(y.db, e.saleId, e.email, databaseNow);
      && r.Answered?
      && r.outcome == if InPeriod(y.db.sales[e.saleId], databaseNow) then Success else SaleNotActive
  {
    KnownIsBacked(y, y.limbo[id].saleId, mark);
    FallbackKeepsThePromise(y, id, mark, databaseNow);
  }

  /**
   Whatever happened before a warm at quiescence: from then on, while no request for the sale goes round the
   gate and its keys are left alone, the fallback of every open reservation succeeds in the sale's period.
   */
  lemma UnsweptReservationsSucceed(
    cfg: D.Config, db: Db, before: seq<Label>, labels: seq<Label>, s: SaleId, id: nat, databaseNow: int)
    requires SchemaHolds(db) && Runs(cfg, Boot(db), before) && JustWarmed(After(cfg, Boot(db), before), s)
    requires Runs(cfg, After(cfg, Boot(db), before), labels)
    requires var y := After(cfg, Boot(db), before); FastRun(cfg, y, labels, s, |y.drain.channel.dead|)
    requires var y := After(cfg, After(cfg, Boot(db), before), labels); id in y.limbo && y.limbo[id].saleId == s
    ensures var y := After(cfg, After(cfg, Boot(db), before), labels);
      var r := WriteOne(y.db, s, y.limbo[id].email, databaseNow);
      && s in y.db.sales && r.Answered?
      && r.outcome == if y.db.sales[s].startsAt <= databaseNow <= y.db.sales[s].endsAt then Success else SaleNotActive
  {
    var y := After(cfg, Boot(db), before);
    BootIsSafe(cfg, db);
    RunKeepsSafe(cfg, db, Boot(db), before);
    JustWarmedIsInStep(y, s);
    InStepOverRuns(cfg, db, y, labels, s, |y.drain.channel.dead|);
    InStepFallbackSucceeds(After(cfg, y, labels), id, |y.drain.channel.dead|, databaseNow);
  }

  // ---------------------------------------------------------------- repeated requests round the gate

  predicate KnowingRun(cfg: D.Config, y: Sys, labels: seq<Label>, s: SaleId, mark: nat)
    requires Runs(cfg, y, labels)
    decreases |labels|
  {
    labels != [] ==> Knowing(y, labels[0], s, mark) && KnowingRun(cfg, Next(cfg, y, labels[0]), labels[1..], s, mark)
  }

  lemma KnowingKeepsStanding(cfg: D.Config, y: Sys, l: Label, s: SaleId, mark: nat)
    requires Known(y, s, mark) && Enabled(cfg, y, l) && Knowing(y, l, s, mark)
    ensures StandingAfter(cfg, y, l, s, Some(mark)) == Some(mark)
  {
  }

  lemma {:induction false} KnownOverRuns(cfg: D.Config, start: Db, y: Sys, labels: seq<Label>, s: SaleId, mark: nat)
    requires Safe(cfg, y) && Since(start, y) && Known(y, s, mark) && Runs(cfg, y, labels)
    requires KnowingRun(cfg, y, labels, s, mark)
    ensures Safe(cfg, After(cfg, y, labels)) && Known(After(cfg, y, labels), s, mark)
    decreases |labels|
  {
    if labels != [] {
      StepKeepsSafe(cfg, start, y, labels[0]);
      KnownIsKept(cfg, y, labels[0], s, mark);
      KnownOverRuns(cfg, start, Next(cfg, y, labels[0]), labels[1..], s, mark);
    }
  }

  /** Nor does the sale lose its standing on such a run. */
  lemma {:induction false} KnowingRunsKeepStanding(
    cfg: D.Config, start: Db, y: Sys, labels: seq<Label>, s: SaleId, mark: nat)
    requires Safe(cfg, y) && Since(start, y) && Known(y, s, mark) && Runs(cfg, y, labels)
    requires KnowingRun(cfg, y, labels, s, mark)
    ensures Standing(cfg, y, labels, s, Some(mark)) == Some(mark)
    decreases |labels|
  {
    if labels != [] {
      StepKeepsSafe(cfg, start, y, labels[0]);
      KnownIsKept(cfg, y, labels[0], s, mark);
      KnowingKeepsStanding(cfg, y, labels[0], s, mark);
      KnowingRunsKeepStanding(cfg, start, Next(cfg, y, labels[0]), labels[1..], s, mark);
    }
  }

  /**
   From a warm at quiescence, as long as the sale's keys are left alone and whoever goes round the gate has been
   counted by it, the gate never reserves for a buyer who has a row or a promise.
   */
  lemma KnowingGateReservesOnce(cfg: D.Config, db: Db, before: seq<Label>, labels: seq<Label>, s: SaleId, now: int)
    requires SchemaHolds(db) && Runs(cfg, Boot(db), before) && JustWarmed(After(cfg, Boot(db), before), s)
    requires Runs(cfg, After(cfg, Boot(db), before), labels)
    requires var y := After(cfg, Boot(db), before); KnowingRun(cfg, y, labels, s, |y.drain.channel.dead|)
    ensures var y := After(cfg, Boot(db), before);
      ReservesOncePerBuyer(After(cfg, y, labels), s, now, |y.drain.channel.dead|)
  {
    var y := After(cfg, Boot(db), before);
    BootIsSafe(cfg, db);
    RunKeepsSafe(cfg, db, Boot(db), before);
    JustWarmedIsInStep(y, s);
    KnownOverRuns(cfg, db, y, labels, s, |y.drain.channel.dead|);
    ReservesOncePerBuyerIff(After(cfg, y, labels), s, now, |y.drain.channel.dead|);
  }

  /** A reservation whose reply from Redis was lost, so that the request went round the gate after all. */
  function LostReply(y: Sys, s: SaleId, email: string, now: int, later: int, databaseNow: int): seq<Label> {
    [Ask(s, email, now), Abandon(y.calls), Bypass(s, email, later, databaseNow, false, true)]
  }

  /** Such a request costs the sale nothing while its gate knows every buyer: the buyer was counted by the script. */
  lemma LostReplyKeepsKnown(
    cfg: D.Config, y: Sys, s: SaleId, email: string, now: int, later: int, databaseNow: int, mark: nat)
    requires Decide(y.redis, s, NormalizeEmail(email), now) == Reserved
    ensures var labels := LostReply(y, s, email, now, later, databaseNow);
      Runs(cfg, y, labels) && KnowingRun(cfg, y, labels, s, mark)
  {
    var labels := LostReply(y, s, email, now, later, databaseNow);
    var y1 := Next(cfg, y, labels[0]);
    var y2 := Next(cfg, y1, labels[1]);
    assert labels[1..] == [labels[1], labels[2]] && labels[1..][1..] == [labels[2]] && [labels[2]][1..] == [];
    assert Enabled(cfg, y2, labels[2]) && NormalizeEmail(email) in Members(y2.redis, s);
    assert Runs(cfg, y2, [labels[2]]) && Runs(cfg, y1, labels[1..]);
    assert KnowingRun(cfg, y2, [labels[2]], s, mark);
    assert KnowingRun(cfg, y1, labels[1..], s, mark);
  }
}
