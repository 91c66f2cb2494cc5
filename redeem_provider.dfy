/** providers/redeem_provider.ts: watches the token account of both pots
    of every ended game that still has a claimable pot, and turns each
    token transfer into one into a redeem of that game. The redeem calls
    are issued without waiting; a listener run returns the calls it
    issued. */
module RedeemProvider {
  import opened Types
  import opened Pot
  import opened Listeners
  import Helpers

  class Redeemer {
    const registry: Registry
    /** The associated-token-account derivation of the token program, for
        a mint and an owner. */
    const ata: (Address, Address) -> Address
    /** Whether the one-second interval is set. */
    var scheduled: bool

    ghost predicate Valid()
      reads this, registry
    {
      registry.State().Consistent()
    }

    constructor (ata: (Address, Address) -> Address)
      ensures Valid() && fresh(registry) && registry.State() == Subscriptions(map[], map[], 0)
      ensures this.ata == ata && !scheduled
    {
      registry := new Registry();
      this.ata := ata;
      scheduled := false;
    }

    /** `ready`: no watcher in the api role. */
    method Ready(role: string)
      modifies this
      ensures scheduled == (old(scheduled) || role != "api")
    {
      if role == "api" {
        return;
      }
      scheduled := true;
    }

    /** One tick: every game with `timeEnded` set and a positive claimable
        pot that has no pair yet gets a pair of subscriptions on the token
        accounts of its over and under pot. */
    method Tick(games: seq<GameRow>)
      requires Valid()
      modifies registry
      ensures Valid()
      ensures !scheduled ==> registry.State() == old(registry.State())
      ensures scheduled ==> (registry.State() ==
        RegisteredAll(old(registry.State()), Select(games, Claimable(old(registry.State()).listeners.Keys)), TokenAccount(ata)))
    {
      if !scheduled {
        return;
      }
      var listened := registry.listeners.Keys;
      var claimable := Select(games, Claimable(listened));
      RegisteredAllConsistent(registry.State(), claimable, TokenAccount(ata));
      registry.RegisterEach(claimable, TokenAccount(ata));
    }

    /** `shutdown`: clears the interval and removes every subscription. */
    method Shutdown()
      requires Valid()
      modifies this, registry
      ensures Valid() && !scheduled
      ensures registry.State() == old(registry.State()).Closed()
    {
      scheduled := false;
      ClosedConsistent(registry.State());
      registry.Shutdown();
    }
  }

  // ---------------------------------------------------------------------------
  // The cursor query on the claim table
  // ---------------------------------------------------------------------------

  /** The columns of the claim table. It has no `side` column: a claim is
      always of the winning side. */
  const CLAIM_COLUMNS: set<string> := {
    "id", "game_id", "solana_wallet_address", "target_solana_wallet_address",
    "solana_tx_signature", "fees", "claim_token_amount", "sol_received",
    "burn_tx_signature", "created_at", "updated_at"}

  /** How the database answers a query whose filters name `columns` of a
      table with the columns `table`: it rejects the query on the first
      filter column the table does not have. */
  function Rejection(table: set<string>, columns: seq<string>): (r: Option<Error>)
    ensures r.None? <==> forall i :: 0 <= i < |columns| ==> columns[i] in table
    ensures r.Some? ==> exists i :: (
      && 0 <= i < |columns| && columns[i] !in table
      && r.value == DatabaseFailure("column " + columns[i] + " does not exist"))
  {
    if columns == [] then None
    else if columns[0] !in table then Some(DatabaseFailure("column " + columns[0] + " does not exist"))
    else
      var rest := Rejection(table, columns[1..]);
      assert forall i :: 1 <= i < |columns| ==> columns[i] == columns[1..][i - 1];
      if rest.Some? then
        var i :| 0 <= i < |columns[1..]| && columns[1..][i] !in table &&
          rest.value == DatabaseFailure("column " + columns[1..][i] + " does not exist");
        assert columns[i + 1] == columns[1..][i];
        rest
      else rest
  }

  /** The watcher's cursor query filters the claim table on the game and
      the side, and the database rejects it; filtering on the game alone
      is accepted. */
  lemma ClaimCursorRejected()
    ensures Rejection(CLAIM_COLUMNS, ["game_id", "side"]) == Some(DatabaseFailure("column side does not exist"))
    ensures Rejection(CLAIM_COLUMNS, ["game_id"]).None?
  {
    assert ["game_id", "side"][1..] == ["side"];
    assert "game_id" in CLAIM_COLUMNS && "side" !in CLAIM_COLUMNS;
    assert "column " + "side" + " does not exist" == "column side does not exist";
    assert Rejection(CLAIM_COLUMNS, ["side"]) == Some(DatabaseFailure("column " + "side" + " does not exist"));
  }

  /** The callback of the subscription `w` as written: the cursor query
      names the side, the database rejects it, and the callback ends before
      the fetch, issuing no redeem. */
  method OnAccountChangeAsWritten(w: Watch, claims: map<Signature, ClaimRecord>, owners: map<Address, Address>,
                                  history: Option<Signature> -> nat -> Helpers.FetchAttempt)
    returns (r: Dispatched)
    ensures r.calls == [] && r.error == Some(DatabaseFailure("column side does not exist"))
  {
    var rejected := Rejection(CLAIM_COLUMNS, ["game_id", "side"]);
    ClaimCursorRejected();
    r := Dispatched([], rejected);
  }

  /** The callback of the subscription `w` as evidently intended: the
      newest claim of the game is the cursor (its payout signature), the
      account's transactions after it are fetched oldest first, and every
      token transfer into the account becomes a redeem of the game for the
      owner of its source account. `claims` is the claim table and `owners`
      the owner of every token account. */
  method OnAccountChange(w: Watch, claims: map<Signature, ClaimRecord>, owners: map<Address, Address>,
                         history: Option<Signature> -> nat -> Helpers.FetchAttempt)
    returns (r: Dispatched, latest: Option<Signature>)
    ensures latest.None? <==> forall s :: s in claims ==> claims[s].gameId != w.gameId
    ensures latest.Some? ==> (
      && latest.value in claims && claims[latest.value].gameId == w.gameId
      && forall s :: s in claims && claims[s].gameId == w.gameId ==>
           claims[s].createdAt <= claims[latest.value].createdAt)
    ensures var cursor := if latest.Some? then Some(claims[latest.value].solanaTxSignature) else None;
      r == AfterFetch(Redeemer, w, Helpers.History(history(cursor), true), owners)
  {
    var key := Newest(claims, (c: ClaimRecord) => c.gameId == w.gameId, (c: ClaimRecord) => c.createdAt);
    latest := key;
    var cursor := if key.Some? then Some(claims[key.value].solanaTxSignature) else None;
    var fetched := Helpers.GetParsedTransactionsFromAccount(history(cursor), true);
    if fetched.Err? {
      return Dispatched([], Some(fetched.error)), latest;
    }
    r := DispatchEntries(Redeemer, w, fetched.value, owners);
  }

  /** What the rejected query costs: whenever the fetch after the cursor
      succeeds and holds a token transfer into the watched account, the
      intended callback redeems it for its owner, while the callback as
      written issues no call at all. */
  lemma {:induction false} AsWrittenLosesRedeems(w: Watch, entries: seq<Helpers.Entry>, owners: map<Address, Address>,
                                                 k: nat, j: nat, asWritten: Dispatched)
    requires asWritten.calls == []
    requires forall i :: 0 <= i < |entries| ==> Decoded(Redeemer, entries[i].transaction, owners).Some?
    requires k < |entries| && j < |Decoded(Redeemer, entries[k].transaction, owners).value|
    requires Decoded(Redeemer, entries[k].transaction, owners).value[j].destination == w.address
    ensures var a := Decoded(Redeemer, entries[k].transaction, owners).value[j];
      && RedeemCall(w.gameId, a.owner, entries[k].signature, a.amount) in AfterFetch(Redeemer, w, Ok(entries), owners).calls
      && RedeemCall(w.gameId, a.owner, entries[k].signature, a.amount) !in asWritten.calls
  {
    DispatchComplete(Redeemer, w, entries, owners, k, j);
  }
}
