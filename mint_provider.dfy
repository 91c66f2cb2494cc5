/** providers/mint_provider.ts: watches both pots of every open game and
    turns each SOL transfer into a pot into a buy. The buy calls are issued
    without waiting; a listener run returns the calls it issued. */
module MintProvider {
  import opened Types
  import opened Pot
  import opened Listeners
  import Helpers

  class Minter {
    const registry: Registry
    /** Whether the one-second interval is set. */
    var scheduled: bool

    ghost predicate Valid()
      reads this, registry
    {
      registry.State().Consistent()
    }

    constructor ()
      ensures Valid() && fresh(registry) && registry.State() == Subscriptions(map[], map[], 0) && !scheduled
    {
      registry := new Registry();
      scheduled := false;
    }

    /** `ready`: no watcher in the api role. */
    method Ready(role: string)
      modifies this
      ensures scheduled == (old(scheduled) || role != "api")
    {
      if role == "api" {
        return;
      }
      scheduled := true;
    }

    /** One tick: every game with `timeEnded` null that has no pair yet gets
        a pair of subscriptions on its over and under pot. */
    method Tick(games: seq<GameRow>)
      requires Valid()
      modifies registry
      ensures Valid()
      ensures !scheduled ==> registry.State() == old(registry.State())
      ensures scheduled ==> (registry.State() ==
        RegisteredAll(old(registry.State()), Select(games, Open(old(registry.State()).listeners.Keys)), PotAccount))
    {
      if !scheduled {
        return;
      }
      var listened := registry.listeners.Keys;
      var open := Select(games, Open(listened));
      RegisteredAllConsistent(registry.State(), open, PotAccount);
      registry.RegisterEach(open, PotAccount);
    }

    /** `shutdown`: clears the interval and removes every subscription. */
    method Shutdown()
      requires Valid()
      modifies this, registry
      ensures Valid() && !scheduled
      ensures registry.State() == old(registry.State()).Closed()
    {
      scheduled := false;
      ClosedConsistent(registry.State());
      registry.Shutdown();
    }
  }

  /** The callback of the subscription `w` on a pot: the newest buy of the
      game and side is the cursor, the pot's transactions after it are
      fetched oldest first (`history(cursor)` is the ledger's answer to each
      attempt), and every SOL transfer into the pot becomes a buy for its
      source. `buys` is the buy table. */
  method OnAccountChange(w: Watch, buys: map<Signature, BuyRecord>,
                         history: Option<Signature> -> nat -> Helpers.FetchAttempt)
    returns (r: Dispatched, latest: Option<Signature>)
    ensures latest.None? <==> forall s :: s in buys ==> !(buys[s].gameId == w.gameId && buys[s].side == w.side)
    ensures latest.Some? ==> (
      && latest.value in buys && buys[latest.value].gameId == w.gameId && buys[latest.value].side == w.side
      && forall s :: s in buys && buys[s].gameId == w.gameId && buys[s].side == w.side ==>
           buys[s].createdAt <= buys[latest.value].createdAt)
    ensures var cursor := if latest.Some? then Some(buys[latest.value].solanaTxSignature) else None;
      r == AfterFetch(Minter, w, Helpers.History(history(cursor), true), map[])
  {
    var key := Newest(buys, (b: BuyRecord) => b.gameId == w.gameId && b.side == w.side, (b: BuyRecord) => b.createdAt);
    latest := key;
    var cursor := if key.Some? then Some(buys[key.value].solanaTxSignature) else None;
    var fetched := Helpers.GetParsedTransactionsFromAccount(history(cursor), true);
    if fetched.Err? {
      return Dispatched([], Some(fetched.error)), latest;
    }
    r := DispatchEntries(Minter, w, fetched.value, map[]);
  }
}
