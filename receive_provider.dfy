/** providers/receive_provider.ts: watches the token account of both pots
    of every open game and turns each token transfer into one into a sell.
    The sell calls are issued without waiting; a listener run returns the
    calls it issued. */
module ReceiveProvider {
  import opened Types
  import opened Chain
  import opened Pot
  import opened Listeners
  import Helpers

  class Receiver {
    const registry: Registry
    /** The associated-token-account derivation of the token program, for
        a mint and an owner. */
    const ata: (Address, Address) -> Address
    /** Whether the one-second interval is set. */
    var scheduled: bool

    ghost predicate Valid()
      reads this, registry
    {
      registry.State().Consistent()
    }

    constructor (ata: (Address, Address) -> Address)
      ensures Valid() && fresh(registry) && registry.State() == Subscriptions(map[], map[], 0)
      ensures this.ata == ata && !scheduled
    {
      registry := new Registry();
      this.ata := ata;
      scheduled := false;
    }

    /** `ready`: no watcher in the api role. */
    method Ready(role: string)
      modifies this
      ensures scheduled == (old(scheduled) || role != "api")
    {
      if role == "api" {
        return;
      }
      scheduled := true;
    }

    /** One tick: every game with `timeEnded` null that has no pair yet gets
        a pair of subscriptions on the token accounts of its over and under
        pot. */
    method Tick(games: seq<GameRow>)
      requires Valid()
      modifies registry
      ensures Valid()
      ensures !scheduled ==> registry.State() == old(registry.State())
      ensures scheduled ==> (registry.State() ==
        RegisteredAll(old(registry.State()), Select(games, Open(old(registry.State()).listeners.Keys)), TokenAccount(ata)))
    {
      if !scheduled {
        return;
      }
      var listened := registry.listeners.Keys;
      var open := Select(games, Open(listened));
      RegisteredAllConsistent(registry.State(), open, TokenAccount(ata));
      registry.RegisterEach(open, TokenAccount(ata));
    }

    /** `shutdown`: clears the interval and removes every subscription. */
    method Shutdown()
      requires Valid()
      modifies this, registry
      ensures Valid() && !scheduled
      ensures registry.State() == old(registry.State()).Closed()
    {
      scheduled := false;
      ClosedConsistent(registry.State());
      registry.Shutdown();
    }
  }

  /** The callback of the subscription `w` on a pot's token account: the
      newest sell of the game and side is the cursor (its payout
      signature), the account's transactions after it are fetched oldest
      first, and every token transfer into the account becomes a sell for
      the owner of its source account. `sells` is the sell table and
      `owners` the owner of every token account. */
  method OnAccountChange(w: Watch, sells: map<Signature, SellRecord>, owners: map<Address, Address>,
                         history: Option<Signature> -> nat -> Helpers.FetchAttempt)
    returns (r: Dispatched, latest: Option<Signature>)
    ensures latest.None? <==> forall s :: s in sells ==> !(sells[s].gameId == w.gameId && sells[s].side == w.side)
    ensures latest.Some? ==> (
      && latest.value in sells && sells[latest.value].gameId == w.gameId && sells[latest.value].side == w.side
      && forall s :: s in sells && sells[s].gameId == w.gameId && sells[s].side == w.side ==>
           sells[s].createdAt <= sells[latest.value].createdAt)
    ensures var cursor := if latest.Some? then Some(sells[latest.value].solanaTxSignature) else None;
      r == AfterFetch(Receiver, w, Helpers.History(history(cursor), true), owners)
  {
    var key := Newest(sells, (b: SellRecord) => b.gameId == w.gameId && b.side == w.side, (b: SellRecord) => b.createdAt);
    latest := key;
    var cursor := if key.Some? then Some(sells[key.value].solanaTxSignature) else None;
    var fetched := Helpers.GetParsedTransactionsFromAccount(history(cursor), true);
    if fetched.Err? {
      return Dispatched([], Some(fetched.error)), latest;
    }
    r := DispatchEntries(Receiver, w, fetched.value, owners);
  }
}
