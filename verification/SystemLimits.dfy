/**
 Where the guarantees end, and how the endpoint fits in: one request is one or two steps of the pipeline;
 a single purchase that bypasses Redis can cost another buyer a promised unit; and a gate that does not hold
 every buyer, after a partial sweep or a stale warm, lets one in again.
 */
module SystemLimits {
  import opened Prelude
  import opened Emails
  import opened Store
  import opened StoreTheorems
  import opened Gate
  import opened Api
  import opened System
  import opened SystemSafety
  import opened SystemFast
  import opened SystemInStep
  import D = Drain
  import DT = DrainTheorems

  // ---------------------------------------------------------------- one request as steps

  /** The steps that one call of the endpoint takes when nothing comes in between. */
  function RequestSteps(y: Sys, s: SaleId, email: string, env: Weather): seq<Label> {
    var code := Decide(y.redis, s, NormalizeEmail(email), env.now);
    if !env.redisUp || code == NotWarmed then [Bypass(s, email, env.laterNow, env.databaseNow, env.redisUp, true)]
    else if code != Reserved then [Ask(s, email, env.now)]
    else if env.brokerUp then [Ask(s, email, env.now), PublishOk(y.calls)]
    else [Ask(s, email, env.now), FallBack(y.calls, env.databaseNow, true)]
  }

  function Bodies(queue: seq<Entry>): seq<D.Body> {
    seq(|queue|, i requires 0 <= i < |queue| => D.Parsed(queue[i]))
  }

  /** From `y`, the pipeline reached what the endpoint left behind, with the same answer to its caller. */
  predicate AnsweredAlike(y: Sys, y': Sys, reply: Reply, w: World) {
    && y.calls in y'.replies && y'.replies[y.calls] == reply
    && y'.limbo == y.limbo
    && y'.redis == w.redis && y'.db == w.db && y'.cache == w.cache
    && y'.drain.channel.ready == y.drain.channel.ready + Bodies(w.queue)
  }

  lemma OneStepRequest(cfg: D.Config, y: Sys, s: SaleId, email: string, env: Weather)
    requires y.calls !in y.limbo && |RequestSteps(y, s, email, env)| == 1
    ensures var l := RequestSteps(y, s, email, env)[0];
      var (reply, w) := Api.Purchase(World(y.redis, y.db, y.cache, []), s, email, env);
      Enabled(cfg, y, l) && AnsweredAlike(y, Next(cfg, y, l), reply, w)
  {
  }

  lemma TwoStepRequest(cfg: D.Config, y: Sys, s: SaleId, email: string, env: Weather)
    requires y.calls !in y.limbo && |RequestSteps(y, s, email, env)| == 2
    ensures var labels := RequestSteps(y, s, email, env);
      var (reply, w) := Api.Purchase(World(y.redis, y.db, y.cache, []), s, email, env);
      && Enabled(cfg, y, labels[0])
      && Enabled(cfg, Next(cfg, y, labels[0]), labels[1])
      && AnsweredAlike(y, Next(cfg, Next(cfg, y, labels[0]), labels[1]), reply, w)
  {
    var y1 := Next(cfg, y, RequestSteps(y, s, email, env)[0]);
    assert y1.limbo - {y.calls} == y.limbo;
  }

  /**
   The endpoint takes exactly these steps: they can be taken, they give the call the endpoint's answer, and
   they leave Redis, tables, cache and queue as the endpoint does.
   */
  lemma EndpointIsSteps(cfg: D.Config, y: Sys, s: SaleId, email: string, env: Weather)
    requires y.calls !in y.limbo
    ensures var labels := RequestSteps(y, s, email, env);
      Runs(cfg, y, labels) &&
      var (reply, w) := Api.Purchase(World(y.redis, y.db, y.cache, []), s, email, env);
      AnsweredAlike(y, After(cfg, y, labels), reply, w)
  {
    var labels := RequestSteps(y, s, email, env);
    if |labels| == 1 {
      OneStepRequest(cfg, y, s, email, env);
      RunsCons(cfg, y, labels[0], []);
    } else {
      TwoStepRequest(cfg, y, s, email, env);
      RunsCons(cfg, Next(cfg, y, labels[0]), labels[1], []);
      RunsCons(cfg, y, labels[0], [labels[1]]);
    }
  }

  // ---------------------------------------------------------------- a bypass can starve a batch

  const SALE := "s"

  const CFG := D.Config(0, 1, 1)

  /** One unit, on sale from 0 to 10. */
  const ONE_UNIT := Db(map[SALE := Sale(1, 1, 0, 10, None)], map[])

  const B_ENTRY := Entry(SALE, "b", 5)

  lemma RunsCons(cfg: D.Config, y: Sys, l: Label, rest: seq<Label>)
    requires Enabled(cfg, y, l) && Runs(cfg, Next(cfg, y, l), rest)
    ensures Runs(cfg, y, [l] + rest) && After(cfg, y, [l] + rest) == After(cfg, Next(cfg, y, l), rest)
  {
    assert ([l] + rest)[1..] == rest;
  }

  const WINDOW := map[SALE := Meta(Some(0), Some(10), false)]

  function Resting(redis: Redis, db: Db): Sys {
    Boot(ONE_UNIT).(redis := redis, db := db)
  }

  const WARMED := Resting(Redis(map[SALE := Some(1)], WINDOW, map[]), ONE_UNIT)

  /** `b` holds the only reservation. */
  const RESERVED :=
    Resting(Redis(map[SALE := Some(0)], WINDOW, map[SALE := {"b"}]), ONE_UNIT).(calls := 1, limbo := map[0 := B_ENTRY])

  /** `a` has bought the only unit without asking Redis. */
  const SOLD_TO_A := RESERVED.(
    db := Db(map[SALE := Sale(1, 0, 0, 10, None)], map[Key(SALE, "a") := Purchase("a", 5)]),
    cache := ONE_UNIT.sales, calls := 2, replies := map[1 := Answer(Success)], direct := {Key(SALE, "a")})

  /** The broker has taken the write for `b`, who has been told success as well. */
  const SOLD_TWICE := SOLD_TO_A.(
    limbo := map[], replies := map[0 := Answer(Success), 1 := Answer(Success)],
    drain := DT.Opened([D.Parsed(B_ENTRY)], []), published := {B_ENTRY})

  const SELL_TWICE: seq<Label> :=
    [WarmSale(SALE, 1, []), Ask(SALE, "b", 5), Bypass(SALE, "a", 5, 5, false, true), PublishOk(0)]

  lemma WarmStep()
    ensures Enabled(CFG, Boot(ONE_UNIT), SELL_TWICE[0]) && Next(CFG, Boot(ONE_UNIT), SELL_TWICE[0]) == WARMED
  {
    var y := Boot(ONE_UNIT);
    assert Folded([]) == {};
    assert y.redis.stock[SALE := Some(1)] == WARMED.redis.stock;
    assert y.redis.meta[SALE := Meta(Some(0), Some(10), false)] == WINDOW;
    assert y.redis.buyers - {SALE} == WARMED.redis.buyers;
    assert WarmNext(y, SALE, 1, []).redis == WARMED.redis;
  }

  lemma AskStep()
    ensures Enabled(CFG, WARMED, SELL_TWICE[1]) && Next(CFG, WARMED, SELL_TWICE[1]) == RESERVED
  {
    assert NormalizeEmail("b") == "b";
    var (code, redis) := Reserve(WARMED.redis, SALE, "b", 5);
    assert code == Reserved;
    assert redis.stock == RESERVED.redis.stock;
    assert redis.buyers == RESERVED.redis.buyers by {
      assert Members(WARMED.redis, SALE) + {"b"} == {"b"};
    }
    assert WARMED.limbo[0 := B_ENTRY] == RESERVED.limbo;
  }

  lemma BypassStep()
    ensures Enabled(CFG, RESERVED, SELL_TWICE[2]) && Next(CFG, RESERVED, SELL_TWICE[2]) == SOLD_TO_A
  {
    assert NormalizeEmail("a") == "a";
  }

  lemma PublishStep()
    ensures Enabled(CFG, SOLD_TO_A, SELL_TWICE[3]) && Next(CFG, SOLD_TO_A, SELL_TWICE[3]) == SOLD_TWICE
  {
    assert SOLD_TO_A.limbo - {0} == map[];
  }

  lemma TwoBuyersAreToldSuccess()
    ensures Runs(CFG, Boot(ONE_UNIT), SELL_TWICE)
    ensures After(CFG, Boot(ONE_UNIT), SELL_TWICE) == SOLD_TWICE
  {
    WarmStep();
    AskStep();
    BypassStep();
    PublishStep();
    RunsCons(CFG, SOLD_TO_A, SELL_TWICE[3], []);
    RunsCons(CFG, RESERVED, SELL_TWICE[2], [SELL_TWICE[3]]);
    RunsCons(CFG, WARMED, SELL_TWICE[1], [SELL_TWICE[2], SELL_TWICE[3]]);
    RunsCons(CFG, Boot(ONE_UNIT), SELL_TWICE[0], [SELL_TWICE[1], SELL_TWICE[2], SELL_TWICE[3]]);
  }

  lemma BIsOutstanding()
    ensures B_ENTRY in Outstanding(SOLD_TWICE.drain)
  {
    assert D.Parsed(B_ENTRY) in SOLD_TWICE.drain.channel.ready && D.Parsed(B_ENTRY).entry == B_ENTRY;
  }

  lemma BCannotBeWritten()
    ensures WriteBatch(SOLD_TWICE.db, [B_ENTRY]) == Aborted(CannotAbsorb(SALE))
  {
    assert NormalizeEmail("a") == "a" && NormalizeEmail("b") == "b";
    SingletonBatch(SOLD_TWICE.db, B_ENTRY);
  }

  lemma BIsStarved()
    ensures Starved(SOLD_TWICE, B_ENTRY)
  {
    assert NormalizeEmail("b") == "b";
  }

  lemma DriftLawHoldsAnyway()
    ensures DriftLaw(SOLD_TWICE, SALE) && !(BuyersOf(SOLD_TWICE.db, SALE) <= Members(SOLD_TWICE.redis, SALE))
  {
    assert BuyersOf(SOLD_TWICE.db, SALE) == {"a"};
    assert Members(SOLD_TWICE.redis, SALE) == {"b"};
  }

  /**
   "Redis already guaranteed this stock" fails once a purchase has gone round Redis while the sale's keys
   were live: both buyers are told success for one unit, and the queued write cannot commit. The drift
   law still holds; what broke is that the gate does not know every buyer the table knows.
   */
  lemma BypassCanStarveABatch()
    ensures Runs(CFG, Boot(ONE_UNIT), SELL_TWICE)
    ensures After(CFG, Boot(ONE_UNIT), SELL_TWICE) == SOLD_TWICE
    ensures SOLD_TWICE.replies == map[0 := Answer(Success), 1 := Answer(Success)]
    ensures B_ENTRY in Outstanding(SOLD_TWICE.drain)
    ensures WriteBatch(SOLD_TWICE.db, [B_ENTRY]) == Aborted(CannotAbsorb(SALE)) && Starved(SOLD_TWICE, B_ENTRY)
    ensures DriftLaw(SOLD_TWICE, SALE) && !(BuyersOf(SOLD_TWICE.db, SALE) <= Members(SOLD_TWICE.redis, SALE))
  {
    TwoBuyersAreToldSuccess();
    BIsOutstanding();
    BCannotBeWritten();
    BIsStarved();
    DriftLawHoldsAnyway();
  }

  // ---------------------------------------------------------------- a partial sweep forgets the buyers

  const B_ROW := map[Key(SALE, "b") := Purchase("b", 5)]

  /** Two units, one of them sold to `b`. */
  const B_BOUGHT := Db(map[SALE := Sale(2, 1, 0, 10, None)], B_ROW)

  function Bought(redis: Redis): Sys {
    Boot(B_BOUGHT).(redis := redis)
  }

  const KNOWS_B := Bought(Redis(map[SALE := Some(1)], WINDOW, map[SALE := {"b"}]))

  const FORGOT_B := Bought(Redis(map[SALE := Some(1)], WINDOW, map[]))

  const RESERVED_AGAIN :=
    Bought(Redis(map[SALE := Some(0)], WINDOW, map[SALE := {"b"}])).(calls := 1, limbo := map[0 := B_ENTRY])

  const SWEEP_THEN_ASK: seq<Label> := [WarmSale(SALE, 1, ["b"]), DeleteKeys({BuyersKey(SALE)}), Ask(SALE, "b", 5)]

  lemma WarmWithBuyerStep()
    ensures Enabled(CFG, Boot(B_BOUGHT), SWEEP_THEN_ASK[0])
    ensures Next(CFG, Boot(B_BOUGHT), SWEEP_THEN_ASK[0]) == KNOWS_B
    ensures JustWarmed(KNOWS_B, SALE) && Clear(KNOWS_B, SALE)
  {
    var y := Boot(B_BOUGHT);
    assert NormalizeEmail("b") == "b";
    assert Folded(["b"]) == {"b"};
    assert BuyersOf(B_BOUGHT, SALE) == {"b"};
    assert y.redis.stock[SALE := Some(1)] == KNOWS_B.redis.stock;
    assert y.redis.meta[SALE := Meta(Some(0), Some(10), false)] == WINDOW;
    assert y.redis.buyers[SALE := {"b"}] == KNOWS_B.redis.buyers;
    assert WarmNext(y, SALE, 1, ["b"]).redis == KNOWS_B.redis;
  }

  lemma SweepStep()
    ensures Next(CFG, KNOWS_B, SWEEP_THEN_ASK[1]) == FORGOT_B
  {
    var swept := Del(KNOWS_B.redis, {BuyersKey(SALE)});
    assert swept.stock == FORGOT_B.redis.stock && swept.meta == WINDOW && swept.buyers == map[];
  }

  lemma AskAgainStep()
    ensures Enabled(CFG, FORGOT_B, SWEEP_THEN_ASK[2]) && Next(CFG, FORGOT_B, SWEEP_THEN_ASK[2]) == RESERVED_AGAIN
  {
    assert NormalizeEmail("b") == "b";
    var (code, redis) := Reserve(FORGOT_B.redis, SALE, "b", 5);
    assert code == Reserved;
    assert redis.stock == RESERVED_AGAIN.redis.stock;
    assert redis.buyers == RESERVED_AGAIN.redis.buyers by {
      assert Members(FORGOT_B.redis, SALE) + {"b"} == {"b"};
    }
    assert FORGOT_B.limbo[0 := B_ENTRY] == RESERVED_AGAIN.limbo;
  }

  lemma SweepRuns()
    ensures Runs(CFG, Boot(B_BOUGHT), SWEEP_THEN_ASK)
    ensures After(CFG, Boot(B_BOUGHT), SWEEP_THEN_ASK) == RESERVED_AGAIN
  {
    WarmWithBuyerStep();
    SweepStep();
    AskAgainStep();
    RunsCons(CFG, FORGOT_B, SWEEP_THEN_ASK[2], []);
    RunsCons(CFG, KNOWS_B, SWEEP_THEN_ASK[1], [SWEEP_THEN_ASK[2]]);
    RunsCons(CFG, Boot(B_BOUGHT), SWEEP_THEN_ASK[0], [SWEEP_THEN_ASK[1], SWEEP_THEN_ASK[2]]);
  }

  lemma StandingCons(cfg: D.Config, y: Sys, l: Label, rest: seq<Label>, s: SaleId, standing: Option<nat>)
    requires Enabled(cfg, y, l) && Runs(cfg, Next(cfg, y, l), rest)
    ensures Runs(cfg, y, [l] + rest)
    ensures Standing(cfg, y, [l] + rest, s, standing) ==
            Standing(cfg, Next(cfg, y, l), rest, s, StandingAfter(cfg, y, l, s, standing))
  {
    assert ([l] + rest)[1..] == rest;
  }

  lemma SweptSaleKeepsStanding()
    ensures Runs(CFG, Boot(B_BOUGHT), SWEEP_THEN_ASK)
    ensures StandingOf(CFG, B_BOUGHT, SWEEP_THEN_ASK, SALE) == Some(0)
  {
    SweepRuns();
    WarmWithBuyerStep();
    SweepStep();
    AskAgainStep();
    StandingCons(CFG, FORGOT_B, SWEEP_THEN_ASK[2], [], SALE, Some(0));
    StandingCons(CFG, KNOWS_B, SWEEP_THEN_ASK[1], [SWEEP_THEN_ASK[2]], SALE, Some(0));
    StandingCons(CFG, Boot(B_BOUGHT), SWEEP_THEN_ASK[0], [SWEEP_THEN_ASK[1], SWEEP_THEN_ASK[2]], SALE, Some(0));
  }

  /**
   A sweep that has only removed the buyers key, with no bypass anywhere: the sale keeps its standing, and yet a
   buyer who has a row already is given a reservation. The fallback then answers `already_purchased`; a publish
   that succeeds answers success a second time, for a message that will write nothing.
   */
  lemma PartialSweepReservesTwice()
    ensures Runs(CFG, Boot(B_BOUGHT), SWEEP_THEN_ASK)
    ensures After(CFG, Boot(B_BOUGHT), SWEEP_THEN_ASK) == RESERVED_AGAIN
    ensures JustWarmed(Next(CFG, Boot(B_BOUGHT), SWEEP_THEN_ASK[0]), SALE)
    ensures StandingOf(CFG, B_BOUGHT, SWEEP_THEN_ASK, SALE) == Some(0)
    ensures RESERVED_AGAIN.limbo == map[0 := B_ENTRY] && KeyOf(B_ENTRY) in B_ROW
    ensures WriteOne(RESERVED_AGAIN.db, SALE, "b", 5) == Answered(AlreadyPurchased, RESERVED_AGAIN.db)
    ensures PublishNext(CFG, RESERVED_AGAIN, 0).replies == map[0 := Answer(Success)]
    ensures WriteBatch(RESERVED_AGAIN.db, [B_ENTRY]) == Committed(RESERVED_AGAIN.db, 0)
  {
    assert NormalizeEmail("b") == "b";
    SweepRuns();
    WarmWithBuyerStep();
    SweptSaleKeepsStanding();
    SingletonBatch(RESERVED_AGAIN.db, B_ENTRY);
  }

  // ---------------------------------------------------------------- a stale warm never knew them

  const TWO_UNITS := Db(map[SALE := Sale(2, 2, 0, 10, None)], map[])

  /** `b` has bought while the sale was cold. */
  const BOUGHT_COLD := Boot(B_BOUGHT).(
    cache := TWO_UNITS.sales, calls := 1, replies := map[0 := Answer(Success)], direct := {Key(SALE, "b")})

  /** A warm that had read its rows before that purchase. */
  const WARMED_STALE := BOUGHT_COLD.(redis := Redis(map[SALE := Some(2)], WINDOW, map[]))

  const C_ENTRY := Entry(SALE, "c", 5)

  const RESERVED_C := WARMED_STALE.(
    redis := Redis(map[SALE := Some(1)], WINDOW, map[SALE := {"c"}]), calls := 2, limbo := map[1 := C_ENTRY])

  /** The reservation of `c` leaks, so stock in Redis and in the table agree by accident. */
  const LEAKED_C := RESERVED_C.(limbo := map[])

  const RESERVED_B := LEAKED_C.(
    redis := Redis(map[SALE := Some(0)], WINDOW, map[SALE := {"b", "c"}]), calls := 3, limbo := map[2 := B_ENTRY])

  const ASK_BOTH: seq<Label> := [Ask(SALE, "c", 5), Abandon(1), Ask(SALE, "b", 5)]

  const WARM_AND_ASK: seq<Label> := [WarmSale(SALE, 2, [])] + ASK_BOTH

  const STALE_WARM: seq<Label> := [Bypass(SALE, "b", 5, 5, true, true)] + WARM_AND_ASK

  /** A run, with where it leads and what it does to the sale's standing. */
  ghost predicate Leads(y: Sys, labels: seq<Label>, y': Sys, standing: Option<nat>, standing': Option<nat>) {
    && Runs(CFG, y, labels) && After(CFG, y, labels) == y'
    && Standing(CFG, y, labels, SALE, standing) == standing'
  }

  lemma LeadsOn(y: Sys, l: Label, mid: Sys, rest: seq<Label>, y': Sys,
    standing: Option<nat>, between: Option<nat>, standing': Option<nat>)
    requires Enabled(CFG, y, l) && Next(CFG, y, l) == mid && StandingAfter(CFG, y, l, SALE, standing) == between
    requires Leads(mid, rest, y', between, standing')
    ensures Leads(y, [l] + rest, y', standing, standing')
  {
    RunsCons(CFG, y, l, rest);
    StandingCons(CFG, y, l, rest, SALE, standing);
  }

  lemma ColdPurchaseStep()
    ensures Enabled(CFG, Boot(TWO_UNITS), STALE_WARM[0]) && Next(CFG, Boot(TWO_UNITS), STALE_WARM[0]) == BOUGHT_COLD
    ensures StandingAfter(CFG, Boot(TWO_UNITS), STALE_WARM[0], SALE, Some(0)) == Some(0)
  {
    assert NormalizeEmail("b") == "b";
  }

  lemma StaleWarmStep()
    ensures Enabled(CFG, BOUGHT_COLD, WARM_AND_ASK[0]) && Next(CFG, BOUGHT_COLD, WARM_AND_ASK[0]) == WARMED_STALE
    ensures StandingAfter(CFG, BOUGHT_COLD, WARM_AND_ASK[0], SALE, Some(0)) == None
  {
    var y := BOUGHT_COLD;
    assert Folded([]) == {};
    assert y.redis.stock[SALE := Some(2)] == WARMED_STALE.redis.stock;
    assert y.redis.meta[SALE := Meta(Some(0), Some(10), false)] == WINDOW;
    assert y.redis.buyers - {SALE} == WARMED_STALE.redis.buyers;
    assert WarmNext(y, SALE, 2, []).redis == WARMED_STALE.redis;
  }

  lemma AskCStep()
    ensures Enabled(CFG, WARMED_STALE, ASK_BOTH[0]) && Next(CFG, WARMED_STALE, ASK_BOTH[0]) == RESERVED_C
    ensures StandingAfter(CFG, WARMED_STALE, ASK_BOTH[0], SALE, None) == None
  {
    assert NormalizeEmail("c") == "c";
    var (code, redis) := Reserve(WARMED_STALE.redis, SALE, "c", 5);
    assert code == Reserved;
    assert redis.stock == RESERVED_C.redis.stock;
    assert redis.buyers == RESERVED_C.redis.buyers by {
      assert Members(WARMED_STALE.redis, SALE) + {"c"} == {"c"};
    }
    assert WARMED_STALE.limbo[1 := C_ENTRY] == RESERVED_C.limbo;
    assert RESERVED_C.limbo[1] in Promised(RESERVED_C, 0);
  }

  lemma LeakStep()
    ensures Enabled(CFG, RESERVED_C, ASK_BOTH[1]) && Next(CFG, RESERVED_C, ASK_BOTH[1]) == LEAKED_C
    ensures StandingAfter(CFG, RESERVED_C, ASK_BOTH[1], SALE, None) == Some(0)
  {
    assert RESERVED_C.limbo - {1} == map[];
  }

  lemma AskBStep()
    ensures Enabled(CFG, LEAKED_C, ASK_BOTH[2]) && Next(CFG, LEAKED_C, ASK_BOTH[2]) == RESERVED_B
    ensures StandingAfter(CFG, LEAKED_C, ASK_BOTH[2], SALE, Some(0)) == Some(0)
  {
    assert NormalizeEmail("b") == "b";
    var (code, redis) := Reserve(LEAKED_C.redis, SALE, "b", 5);
    assert code == Reserved;
    assert redis.stock == RESERVED_B.redis.stock;
    assert redis.buyers == RESERVED_B.redis.buyers by {
      assert Members(LEAKED_C.redis, SALE) + {"b"} == {"b", "c"};
    }
    assert LEAKED_C.limbo[2 := B_ENTRY] == RESERVED_B.limbo;
  }

  lemma AskBothLeads()
    ensures Leads(WARMED_STALE, ASK_BOTH, RESERVED_B, None, Some(0))
  {
    AskCStep();
    LeakStep();
    AskBStep();
    LeadsOn(LEAKED_C, ASK_BOTH[2], RESERVED_B, [], RESERVED_B, Some(0), Some(0), Some(0));
    LeadsOn(RESERVED_C, ASK_BOTH[1], LEAKED_C, [ASK_BOTH[2]], RESERVED_B, None, Some(0), Some(0));
    LeadsOn(WARMED_STALE, ASK_BOTH[0], RESERVED_C, [ASK_BOTH[1], ASK_BOTH[2]], RESERVED_B, None, None, Some(0));
  }

  lemma WarmAndAskLeads()
    ensures Leads(BOUGHT_COLD, WARM_AND_ASK, RESERVED_B, Some(0), Some(0))
  {
    AskBothLeads();
    StaleWarmStep();
    LeadsOn(BOUGHT_COLD, WARM_AND_ASK[0], WARMED_STALE, ASK_BOTH, RESERVED_B, Some(0), None, Some(0));
  }

  lemma StaleWarmLeads()
    ensures Leads(Boot(TWO_UNITS), STALE_WARM, RESERVED_B, Some(0), Some(0))
  {
    WarmAndAskLeads();
    ColdPurchaseStep();
    LeadsOn(Boot(TWO_UNITS), STALE_WARM[0], BOUGHT_COLD, WARM_AND_ASK, RESERVED_B, Some(0), Some(0), Some(0));
  }

  /** The gate's buyers set misses a buyer of the table. */
  lemma BIsMissing()
    ensures BuyersOf(LEAKED_C.db, SALE) == {"b"} && Members(LEAKED_C.redis, SALE) == {"c"}
    ensures KeysIn(LEAKED_C.redis) == {StockKey(SALE), MetaKey(SALE), BuyersKey(SALE)}
    ensures !ReservesOncePerBuyer(LEAKED_C, SALE, 5, 0)
  {
    AskBStep();
    assert NormalizeEmail("b") == "b";
    assert Decide(LEAKED_C.redis, SALE, NormalizeEmail("b"), 5) == Reserved;
  }

  /**
   No sweep is needed: a warm that raced with a purchase has all three keys written and still misses a buyer.
   The sale even has standing again, once a leaked reservation has made the stocks agree; stock is safe, and yet
   the buyer with a row is given a reservation.
   */
  lemma StaleWarmReservesTwice()
    ensures Runs(CFG, Boot(TWO_UNITS), STALE_WARM) && After(CFG, Boot(TWO_UNITS), STALE_WARM) == RESERVED_B
    ensures StandingOf(CFG, TWO_UNITS, STALE_WARM, SALE) == Some(0)
    ensures KeysIn(LEAKED_C.redis) == {StockKey(SALE), MetaKey(SALE), BuyersKey(SALE)}
    ensures !ReservesOncePerBuyer(LEAKED_C, SALE, 5, 0)
    ensures RESERVED_B.limbo == map[2 := B_ENTRY] && KeyOf(B_ENTRY) in B_ROW
    ensures WriteOne(RESERVED_B.db, SALE, "b", 5) == Answered(AlreadyPurchased, RESERVED_B.db)
  {
    StaleWarmLeads();
    BIsMissing();
    assert NormalizeEmail("b") == "b";
  }
}
