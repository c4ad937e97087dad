/** The API's reconnect handler: when a sweep is started, and what a sweep does to the gate. */
module RedisProvider {
  import opened Store
  import opened Gate

  datatype ConnectionEvent = Close | Ready

  /** The connection was closed, and has not been ready again since. */
  ghost predicate ClosedSinceReady(history: seq<ConnectionEvent>) {
    exists j :: 0 <= j < |history| && history[j] == Close && forall k :: j < k < |history| ==> history[k] != Ready
  }

  class ReconnectHandler {
    var wasDown: bool
    ghost var history: seq<ConnectionEvent>

    ghost predicate Valid()
      reads this
    {
      wasDown == ClosedSinceReady(history)
    }

    constructor ()
      ensures Valid() && history == []
    {
      wasDown, history := false, [];
    }

    method OnClose()
      requires Valid()
      modifies this
      ensures Valid() && history == old(history) + [Close]
    {
      wasDown := true;
      history := history + [Close];
      assert history[|history| - 1] == Close;
    }

    /**
     A sweep is started exactly when the connection was closed and has not been ready since: a failed first
     attempt counts as an outage.
     */
    method OnReady() returns (sweep: bool)
      requires Valid()
      modifies this
      ensures Valid() && history == old(history) + [Ready]
      ensures sweep <==> ClosedSinceReady(old(history))
    {
      history := history + [Ready];
      assert history[|history| - 1] == Ready;
      if !wasDown {
        return false;
      }
      wasDown := false;
      return true;
    }
  }

  /** At the first ready event a sweep is started unless the very first attempt succeeded. */
  lemma FirstReadySweepsIff(history: seq<ConnectionEvent>)
    requires Ready !in history
    ensures ClosedSinceReady(history) <==> history != []
  {
    if history != [] {
      assert history[0] in history;
      assert history[0] == Close;
      assert forall k :: 0 < k < |history| ==> history[k] in history;
    }
  }

  /** What follows a ready event decides alone: earlier outages have been swept for. */
  lemma ReadyForgets(before: seq<ConnectionEvent>, since: seq<ConnectionEvent>)
    requires Ready !in since
    ensures ClosedSinceReady(before + [Ready] + since) <==> since != []
  {
    var history := before + [Ready] + since;
    assert history[|before|] == Ready;
    if since != [] {
      assert history[|before| + 1] == since[0] && since[0] in since;
      assert forall k :: |before| + 1 < k < |history| ==> history[k] == since[k - |before| - 1] && history[k] in since;
    }
  }

  /**
   A sweep takes effect key by key: from the page that names the sale's stock or meta key on, whatever
   further pages do, the sale is cold; before it, the gate still answers from the old stock count.
   */
  lemma SweepTakesEffectWithStockOrMeta(
    r: Redis, swept: set<RedisKey>, more: set<RedisKey>, s: SaleId, email: string, now: int)
    requires Warmed(r, s)
    ensures StockKey(s) in swept || MetaKey(s) in swept <==> Reserve(Del(r, swept), s, email, now).0 == NotWarmed
    ensures StockKey(s) in swept || MetaKey(s) in swept ==>
            Reserve(Del(Del(r, swept), more), s, email, now).0 == NotWarmed
    ensures StockKey(s) !in swept && MetaKey(s) !in swept ==> StockOf(Del(r, swept), s) == StockOf(r, s)
  {
  }
}
