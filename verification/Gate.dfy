/**
 The Redis side: the keys of each sale, the reservation script, the wholesale replacement done by a
 warm, and the deletion of keys. The script runs as one atomic step.
 */
module Gate {
  import opened Prelude
  import opened Emails
  import opened Store

  /** The three keys of a sale; a sweep may delete them one at a time. */
  datatype RedisKey = StockKey(saleId: SaleId) | MetaKey(saleId: SaleId) | BuyersKey(saleId: SaleId)

  /** `None` stands for a field that is missing or does not parse as a number. */
  datatype Meta = Meta(startsAt: Option<int>, endsAt: Option<int>, cancelled: bool)

  /** `None` as a stock value stands for a key whose value does not parse as a number. */
  datatype Redis = Redis(stock: map<SaleId, Option<int>>, meta: map<SaleId, Meta>, buyers: map<SaleId, set<string>>)

  function Members(r: Redis, saleId: SaleId): set<string> {
    if saleId in r.buyers then r.buyers[saleId] else {}
  }

  /** Units the gate may still hand out. */
  function StockOf(r: Redis, saleId: SaleId): int {
    if saleId in r.stock && r.stock[saleId].Some? then r.stock[saleId].value else 0
  }

  predicate Warmed(r: Redis, saleId: SaleId) {
    saleId in r.stock && saleId in r.meta
  }

  predicate WindowOpen(meta: Meta, now: int) {
    !meta.cancelled && meta.startsAt.Some? && meta.endsAt.Some? && meta.startsAt.value <= now < meta.endsAt.value
  }

  datatype Code = NotWarmed | Rejected(outcome: Outcome) | Reserved

  /** The script's decision on an already normalised key. */
  function Decide(r: Redis, saleId: SaleId, email: string, now: int): Code {
    if !Warmed(r, saleId) then NotWarmed
    else if !WindowOpen(r.meta[saleId], now) then Rejected(SaleNotActive)
    else if email in Members(r, saleId) then Rejected(AlreadyPurchased)
    else if r.stock[saleId].None? || r.stock[saleId].value <= 0 then Rejected(SoldOut)
    else Reserved
  }

  /** DECR and SADD. */
  function Take(r: Redis, saleId: SaleId, email: string): Redis {
    r.(stock := r.stock[saleId := Some(StockOf(r, saleId) - 1)],
       buyers := r.buyers[saleId := Members(r, saleId) + {email}])
  }

  /** `reservePurchase` normalises the email, then runs the script. */
  function Reserve(r: Redis, saleId: SaleId, email: string, now: int): (Code, Redis) {
    var key := NormalizeEmail(email);
    var code := Decide(r, saleId, key, now);
    (code, if code == Reserved then Take(r, saleId, key) else r)
  }

  datatype SyncInput = SyncInput(remainingStock: int, startsAt: int, endsAt: int, cancelledAt: Option<int>)

  function Folded(emails: seq<string>): set<string> {
    set email | email in emails :: NormalizeEmail(email)
  }

  /** `syncSale`: delete the three keys, then write them afresh; an empty set is no key at all. */
  function SyncSale(r: Redis, saleId: SaleId, sale: SyncInput, buyerEmails: seq<string>): Redis {
    Redis(
      r.stock[saleId := Some(sale.remainingStock)],
      r.meta[saleId := Meta(Some(sale.startsAt), Some(sale.endsAt), sale.cancelledAt.Some?)],
      if |buyerEmails| > 0 then r.buyers[saleId := Folded(buyerEmails)] else r.buyers - {saleId})
  }

  function KeysIn(r: Redis): set<RedisKey> {
    (set s | s in r.stock :: StockKey(s)) +
    (set s | s in r.meta :: MetaKey(s)) +
    (set s | s in r.buyers :: BuyersKey(s))
  }

  /** DEL of any number of keys. */
  function Del(r: Redis, keys: set<RedisKey>): Redis {
    Redis(
      map s | s in r.stock && StockKey(s) !in keys :: r.stock[s],
      map s | s in r.meta && MetaKey(s) !in keys :: r.meta[s],
      map s | s in r.buyers && BuyersKey(s) !in keys :: r.buyers[s])
  }

  lemma DelKeys(r: Redis, keys: set<RedisKey>)
    ensures KeysIn(Del(r, keys)) == KeysIn(r) - keys
  {
  }

  lemma DelTwice(r: Redis, a: set<RedisKey>, b: set<RedisKey>)
    ensures Del(Del(r, a), b) == Del(r, a + b)
  {
  }

  // ---------------------------------------------------------------- exact winners

  datatype Call = Call(email: string, now: int)

  /** Codes answered to a sequence of calls on one sale, and the state they leave. */
  function Answers(r: Redis, saleId: SaleId, calls: seq<Call>): (seq<Code>, Redis)
    decreases |calls|
  {
    if calls == [] then ([], r)
    else
      var (code, after) := Reserve(r, saleId, calls[0].email, calls[0].now);
      var (codes, last) := Answers(after, saleId, calls[1..]);
      ([code] + codes, last)
  }

  /** Keys of the calls answered `reserved`, in call order. */
  function Winners(calls: seq<Call>, codes: seq<Code>): seq<string>
    requires |calls| == |codes|
  {
    if calls == [] then []
    else (if codes[0] == Reserved then [NormalizeEmail(calls[0].email)] else []) + Winners(calls[1..], codes[1..])
  }

  /** The contenders, defined without any stock: distinct in-window keys outside `bought`, by first call. */
  function Contenders(calls: seq<Call>, meta: Meta, bought: set<string>): seq<string> {
    if calls == [] then []
    else
      var key := NormalizeEmail(calls[0].email);
      if WindowOpen(meta, calls[0].now) && key !in bought then [key] + Contenders(calls[1..], meta, bought + {key})
      else Contenders(calls[1..], meta, bought)
  }

  function Min(a: nat, b: nat): nat {
    if a <= b then a else b
  }

  lemma {:induction false} AnswersLength(r: Redis, saleId: SaleId, calls: seq<Call>)
    ensures |Answers(r, saleId, calls).0| == |calls|
    decreases |calls|
  {
    if calls != [] {
      AnswersLength(Reserve(r, saleId, calls[0].email, calls[0].now).1, saleId, calls[1..]);
    }
  }

  lemma {:induction false} SoldOutStaysSoldOut(r: Redis, saleId: SaleId, calls: seq<Call>)
    requires Warmed(r, saleId) && StockOf(r, saleId) <= 0
    ensures var (codes, last) := Answers(r, saleId, calls);
      last == r && |codes| == |calls| && Winners(calls, codes) == []
  {
    if calls != [] {
      SoldOutStaysSoldOut(r, saleId, calls[1..]);
    }
  }

  lemma HeadWins(key: string, rest: seq<string>, m: nat, bought: set<string>)
    requires m <= |rest|
    ensures ([key] + rest)[..m + 1] == [key] + rest[..m]
    ensures bought + {key} + SetOf(rest[..m]) == bought + SetOf(([key] + rest)[..m + 1])
  {
    assert ([key] + rest)[..m + 1] == [key] + rest[..m];
  }

  /**
   Exact winners: whatever the order and repetition of calls, the buyers answered `reserved` are the
   first `stock` contenders, no more and no fewer; stock falls by exactly their number and never below
   zero, and they are exactly the keys added to the buyers set.
   */
  lemma {:induction false} ExactWinners(r: Redis, saleId: SaleId, calls: seq<Call>)
    requires Warmed(r, saleId) && StockOf(r, saleId) >= 0
    ensures var (codes, last) := Answers(r, saleId, calls);
      && |codes| == |calls|
      && var contenders := Contenders(calls, r.meta[saleId], Members(r, saleId));
      var n := Min(StockOf(r, saleId), |contenders|);
      && Winners(calls, codes) == contenders[..n]
      && StockOf(last, saleId) == StockOf(r, saleId) - n
      && Members(last, saleId) == Members(r, saleId) + SetOf(contenders[..n])
    decreases |calls|
  {
    var contenders := Contenders(calls, r.meta[saleId], Members(r, saleId));
    if calls == [] {
      assert Members(r, saleId) + SetOf(contenders[..0]) == Members(r, saleId);
    } else if StockOf(r, saleId) == 0 {
      SoldOutStaysSoldOut(r, saleId, calls);
      assert contenders[..0] == [];
      assert Members(r, saleId) + SetOf(contenders[..0]) == Members(r, saleId);
    } else {
      var (code, after) := Reserve(r, saleId, calls[0].email, calls[0].now);
      ExactWinners(after, saleId, calls[1..]);
      if code == Reserved {
        var key := NormalizeEmail(calls[0].email);
        var rest := Contenders(calls[1..], r.meta[saleId], Members(after, saleId));
        var m := Min(StockOf(after, saleId), |rest|);
        HeadWins(key, rest, m, Members(r, saleId));
      }
    }
  }

  /** The contenders themselves: distinct, none an earlier buyer, and each the key of some in-window call. */
  lemma {:induction false} ContendersAre(calls: seq<Call>, meta: Meta, bought: set<string>)
    ensures var c := Contenders(calls, meta, bought);
      && Distinct(c)
      && (forall key :: key in c <==>
            && key !in bought
            && exists i :: 0 <= i < |calls| && WindowOpen(meta, calls[i].now) && NormalizeEmail(calls[i].email) == key)
  {
    if calls != [] {
      var key := NormalizeEmail(calls[0].email);
      var enters := WindowOpen(meta, calls[0].now) && key !in bought;
      ContendersAre(calls[1..], meta, if enters then bought + {key} else bought);
      assert forall i :: 0 < i < |calls| ==> calls[i] == calls[1..][i - 1];
    }
  }
}
