/** Redis as it runs: the reservation script and the key maintenance of `sync.ts`, updating keys in place. */
module RedisServer {
  import opened Prelude
  import opened Emails
  import opened Store
  import opened Gate

  class Server {
    var stock: map<SaleId, Option<int>>
    var meta: map<SaleId, Meta>
    var buyers: map<SaleId, set<string>>

    function Keyspace(): Redis
      reads this
    {
      Redis(stock, meta, buyers)
    }

    constructor ()
      ensures Keyspace() == Redis(map[], map[], map[])
    {
      stock, meta, buyers := map[], map[], map[];
    }

    method ReservePurchase(saleId: SaleId, email: string, now: int) returns (code: Code)
      modifies this
      ensures (code, Keyspace()) == Reserve(old(Keyspace()), saleId, email, now)
    {
      var key := NormalizeEmail(email);
      if saleId !in stock || saleId !in meta {
        return NotWarmed;
      }
      if meta[saleId].cancelled {
        return Rejected(SaleNotActive);
      }
      var startsAt, endsAt := meta[saleId].startsAt, meta[saleId].endsAt;
      if startsAt.None? || endsAt.None? || now < startsAt.value || now >= endsAt.value {
        return Rejected(SaleNotActive);
      }
      if saleId in buyers && key in buyers[saleId] {
        return Rejected(AlreadyPurchased);
      }
      if stock[saleId].None? || stock[saleId].value <= 0 {
        return Rejected(SoldOut);
      }
      stock := stock[saleId := Some(stock[saleId].value - 1)];
      buyers := buyers[saleId := (if saleId in buyers then buyers[saleId] else {}) + {key}];
      return Reserved;
    }

    /** One `MULTI`/`EXEC` pipeline. */
    method SyncSale(saleId: SaleId, sale: SyncInput, buyerEmails: seq<string>)
      modifies this
      ensures Keyspace() == Gate.SyncSale(old(Keyspace()), saleId, sale, buyerEmails)
    {
      stock, meta, buyers := stock - {saleId}, meta - {saleId}, buyers - {saleId};
      stock := stock[saleId := Some(sale.remainingStock)];
      assert stock == old(stock)[saleId := Some(sale.remainingStock)];
      var fields := Meta(Some(sale.startsAt), Some(sale.endsAt), sale.cancelledAt.Some?);
      meta := meta[saleId := fields];
      assert meta == old(meta)[saleId := fields];
      if |buyerEmails| > 0 {
        buyers := buyers[saleId := Folded(buyerEmails)];
        assert buyers == old(buyers)[saleId := Folded(buyerEmails)];
      }
    }

    method Delete(keys: set<RedisKey>) returns (deleted: nat)
      modifies this
      ensures Keyspace() == Del(old(Keyspace()), keys)
      ensures deleted == |KeysIn(old(Keyspace())) * keys|
    {
      deleted := |KeysIn(Keyspace()) * keys|;
      var after := Del(Keyspace(), keys);
      stock, meta, buyers := after.stock, after.meta, after.buyers;
    }

    /**
     The cursor loop; `pages` are the replies of SCAN until the cursor returns to zero. What is left is
     what no page named, and the count is the number of keys that went away.
     */
    method FlushSaleKeys(pages: seq<set<RedisKey>>) returns (deleted: nat)
      modifies this
      ensures Keyspace() == Del(old(Keyspace()), Union(pages))
      ensures deleted == |KeysIn(old(Keyspace()))| - |KeysIn(Keyspace())|
    {
      ghost var atStart := Keyspace();
      deleted := 0;
      DelNothing(atStart);
      for cursor := 0 to |pages|
        invariant Keyspace() == Del(atStart, Union(pages[..cursor]))
        invariant deleted == |KeysIn(atStart)| - |KeysIn(Keyspace())|
      {
        var keys := pages[cursor];
        UnionNext(pages, cursor);
        DelTwice(atStart, Union(pages[..cursor]), keys);
        DelCounts(Keyspace(), keys);
        if keys != {} {
          var n := Delete(keys);
          deleted := deleted + n;
        } else {
          DelNothing(Keyspace());
        }
      }
      assert pages[..|pages|] == pages;
    }
  }

  function Union(pages: seq<set<RedisKey>>): set<RedisKey> {
    if pages == [] then {} else Union(pages[..|pages| - 1]) + pages[|pages| - 1]
  }

  lemma EmptyKeyspace(r: Redis)
    requires KeysIn(r) == {}
    ensures r == Redis(map[], map[], map[])
  {
    forall s ensures s !in r.stock && s !in r.meta && s !in r.buyers {
      assert StockKey(s) !in KeysIn(r) && MetaKey(s) !in KeysIn(r) && BuyersKey(s) !in KeysIn(r);
    }
  }

  lemma UnionNext(pages: seq<set<RedisKey>>, i: nat)
    requires i < |pages|
    ensures Union(pages[..i + 1]) == Union(pages[..i]) + pages[i]
  {
    assert pages[..i + 1][..i] == pages[..i];
  }

  lemma DelNothing(r: Redis)
    ensures Del(r, {}) == r
  {
    assert Del(r, {}).stock == r.stock && Del(r, {}).meta == r.meta && Del(r, {}).buyers == r.buyers;
  }

  lemma DelCounts(r: Redis, keys: set<RedisKey>)
    ensures |KeysIn(r) * keys| == |KeysIn(r)| - |KeysIn(Del(r, keys))|
  {
    DelKeys(r, keys);
    assert KeysIn(r) == (KeysIn(r) - keys) + KeysIn(r) * keys;
  }

  /** A complete scan leaves nothing behind, however its replies overlap: every sale is cold afterwards. */
  lemma CompleteScanClearsEverything(r: Redis, pages: seq<set<RedisKey>>, saleId: SaleId, email: string, now: int)
    requires KeysIn(r) <= Union(pages)
    ensures Del(r, Union(pages)) == Redis(map[], map[], map[])
    ensures Reserve(Del(r, Union(pages)), saleId, email, now).0 == NotWarmed
  {
    DelKeys(r, Union(pages));
    EmptyKeyspace(Del(r, Union(pages)));
  }
}
