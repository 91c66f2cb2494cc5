/** Properties of `buy`, `sell` and `redeem` of app/services/pot.ts, stated
    about the functions the engine's methods are proved against. */
module PotProperties {
  import opened Types
  import opened Chain
  import opened Accounting
  import opened Pot

  /** `buy` stops before the mint, with nothing booked, on a recorded
      signature (an error), when no game exists (an error), or when the
      owner is one of the newest game's four keys (silently). */
  lemma BuyStops(games: seq<GameRow>, buys: map<Signature, BuyRecord>, owner: Address, side: Side,
                 signature: Signature, lamports: nat, now: int, mint: MintOutcome)
    ensures signature in buys ==>
      BuyPlan(games, buys, owner, side, signature, lamports, now, mint) == Failed(TransactionSignatureAlreadyExists)
    ensures signature !in buys && games == [] ==>
      BuyPlan(games, buys, owner, side, signature, lamports, now, mint) == Failed(NoActiveGame)
    ensures signature !in buys && LatestGame(games, false).Some? && games[LatestGame(games, false).value].keys.Has(owner) ==>
      BuyPlan(games, buys, owner, side, signature, lamports, now, mint) == Skipped
    ensures !BuyPlan(games, buys, owner, side, signature, lamports, now, mint).Done? ==>
      BuyGate(games, buys, owner, side, signature).Some? || !mint.Minted?
    ensures BuyGate(games, buys, owner, side, signature).Some? <==>
      BuyMint(games, buys, owner, side, signature, lamports).None?
  {
  }

  /** A booked buy goes to the newest game whether or not it has ended, adds
      the lamports to the bought pot and the total, mints the calculated
      quantity, adds the buy fee, and resets the claimable pot to the total
      less the fees; the record carries the buy's own signature and the
      mint requested is that quantity of the bought side's mint. */
  lemma BuyDone(games: seq<GameRow>, buys: map<Signature, BuyRecord>, owner: Address, side: Side,
                signature: Signature, lamports: nat, now: int, mint: MintOutcome)
    requires BuyPlan(games, buys, owner, side, signature, lamports, now, mint).Done?
    ensures LatestGame(games, false).Some?
    ensures var g := games[LatestGame(games, false).value];
      var r := BuyPlan(games, buys, owner, side, signature, lamports, now, mint);
      && signature !in buys && !g.keys.Has(owner) && g.books.PriceOf(side) > 0 && mint.Minted?
      && r.game.id == g.id && r.game.times == g.times && r.game.keys == g.keys
      && r.game.books.PotOf(side) == g.books.PotOf(side) + lamports
      && r.game.books.PotOf(side.Other()) == g.books.PotOf(side.Other())
      && r.game.books.totalPot == g.books.totalPot + lamports
      && r.game.books.MintedOf(side) == g.books.MintedOf(side) + Calculate(lamports, g.books.PriceOf(side))
      && r.game.books.claimable == (r.game.books.totalPot - (r.game.books.buyFee + r.game.books.sellFee)) as real
      && r.record.gameId == g.id && r.record.solanaTxSignature == signature && r.record.side == side
      && r.record.totalInSolana == lamports && r.signature == mint.signature
      && BuyMint(games, buys, owner, side, signature, lamports) ==
           Some(MintRequest(owner, g.keys.MintOf(side), Calculate(lamports, g.books.PriceOf(side))))
  {
    var g := games[LatestGame(games, false).value];
    BuyBooksEffect(g.books, side, lamports);
  }

  /** Once a buy is booked its signature is recorded, and the same signature
      is refused from then on. */
  lemma BuyNoReplay(games: seq<GameRow>, buys: map<Signature, BuyRecord>, owner: Address, side: Side,
                    signature: Signature, lamports: nat, now: int, mint: MintOutcome,
                    owner': Address, side': Side, lamports': nat, now': int, mint': MintOutcome)
    requires BuyPlan(games, buys, owner, side, signature, lamports, now, mint).Done?
    ensures var r := BuyPlan(games, buys, owner, side, signature, lamports, now, mint);
      var k := LatestGame(games, false).value;
      BuyPlan(games[k := r.game], buys[signature := r.record], owner', side', signature, lamports', now', mint') ==
        Failed(TransactionSignatureAlreadyExists)
  {
  }

  /** `sell` stops before the payout on a recorded signature, when no game
      has a null `timeEnded`, or when the owner is one of that game's keys. */
  lemma SellStops(games: seq<GameRow>, sells: map<Signature, SellRecord>, owner: Address, side: Side,
                  signature: Signature, amount: nat, now: int, payout: SendOutcome)
    ensures signature in sells ==>
      SellPlan(games, sells, owner, side, signature, amount, now, payout) == Failed(TransactionSignatureAlreadyExists)
    ensures signature !in sells && (forall j :: 0 <= j < |games| ==> games[j].times.timeEnded.Some?) ==>
      SellPlan(games, sells, owner, side, signature, amount, now, payout) == Failed(NoActiveGame)
    ensures signature !in sells && LatestGame(games, true).Some? && games[LatestGame(games, true).value].keys.Has(owner) ==>
      SellPlan(games, sells, owner, side, signature, amount, now, payout) == Skipped
    ensures SellGate(games, sells, owner, signature).Some? <==>
      SellPayout(games, sells, owner, side, signature, amount, now).None?
  {
  }

  /** A booked sell goes to the newest game whose `timeEnded` is null,
      burns the sold tokens, moves the redistribution, leaves the claimable
      pot as it was, and records the incoming signature as the burn and the
      payout's signature as the transfer; the payout's two legs hand out
      the redistribution and the seller's share less the network fee. */
  lemma SellDone(games: seq<GameRow>, sells: map<Signature, SellRecord>, owner: Address, side: Side,
                 signature: Signature, amount: nat, now: int, payout: SendOutcome)
    requires SellPlan(games, sells, owner, side, signature, amount, now, payout).Done?
    ensures LatestGame(games, true).Some?
    ensures var g := games[LatestGame(games, true).value];
      var q := QuoteIn(g, side, amount, now);
      var r := SellPlan(games, sells, owner, side, signature, amount, now, payout);
      && g.times.timeEnded.None? && signature !in sells && !g.keys.Has(owner) && payout.Sent?
      && r.game.id == g.id && r.game.times == g.times
      && r.game.books.BurntOf(side) == g.books.BurntOf(side) + amount
      && r.game.books.PotOf(side.Other()) == g.books.PotOf(side.Other()) + q.redistribution
      && r.game.books.PotOf(side) == g.books.PotOf(side) - (q.redistribution + SELL_POT_FEE)
      && r.game.books.claimable == g.books.claimable
      && r.record.burnTxSignature == signature && r.record.solanaTxSignature == payout.signature == r.signature
      && r.record.solReceived == q.payout
      && SellPayout(games, sells, owner, side, signature, amount, now) ==
           Some(Payout(g.keys.PotOf(side), [Leg(g.keys.PotOf(side.Other()), q.redistribution),
                                            Leg(owner, q.payout - NETWORK_FEE)]))
  {
    var g := games[LatestGame(games, true).value];
    SellBooksEffect(g.books, side, amount, QuoteIn(g, side, amount, now));
  }

  /** Once a sell is booked its burn signature is recorded, and the same
      signature is refused from then on. */
  lemma SellNoReplay(games: seq<GameRow>, sells: map<Signature, SellRecord>, owner: Address, side: Side,
                     signature: Signature, amount: nat, now: int, payout: SendOutcome,
                     owner': Address, side': Side, amount': nat, now': int, payout': SendOutcome)
    requires SellPlan(games, sells, owner, side, signature, amount, now, payout).Done?
    ensures var r := SellPlan(games, sells, owner, side, signature, amount, now, payout);
      var k := LatestGame(games, true).value;
      SellPlan(games[k := r.game], sells[signature := r.record], owner', side', signature, amount', now', payout') ==
        Failed(TransactionSignatureAlreadyExists)
  {
  }

  /** `redeem` refuses in the source's order: a game not ended, less than
      one lamport claimable, a recorded signature, no circulating winning
      tokens, and only then a burn that does not validate. */
  lemma RedeemRefusals(g: GameRow, claims: map<Signature, ClaimRecord>, signature: Signature, valid: Result<bool>)
    ensures g.times.timeEnded.None? ==> RedeemGate(g, claims, signature, valid) == Some(GameIsNotEnded)
    ensures g.times.timeEnded.Some? && g.books.claimable < 1.0 ==>
      RedeemGate(g, claims, signature, valid) == Some(NoClaimableSolInGame)
    ensures g.times.timeEnded.Some? && g.books.claimable >= 1.0 && signature in claims ==>
      RedeemGate(g, claims, signature, valid) == Some(TransactionSignatureAlreadyExists)
    ensures RedeemGate(g, claims, signature, valid).None? <==>
      && g.times.timeEnded.Some? && g.books.claimable >= 1.0 && signature !in claims
      && g.books.Outstanding(RedeemWinner(g.times.priceStart, g.times.priceEnd)) != 0 && valid == Ok(true)
  {
  }

  /** A paid claim records its burn signature, so the same burn is never
      paid twice, whatever the burn validation says the second time. */
  lemma {:induction false} RedeemNoReplay(games: seq<GameRow>, claims: map<Signature, ClaimRecord>,
                                          games': seq<GameRow>, claims': map<Signature, ClaimRecord>, k: nat,
                                          owner: Address, amount: nat, signature: Signature,
                                          parsed: Option<ParsedTransaction>, accountMints: map<Address, Address>,
                                          ata: (Address, Address) -> Address, payout: FinalSend, now: int,
                                          r: Result<ClaimPayout>, valid: Result<bool>)
    requires k < |games|
    requires RedeemCommitted(games, claims, games', claims', k, owner, amount, signature, parsed,
                             accountMints, ata, payout, now, r)
    requires r.Ok?
    ensures k < |games'| && RedeemGate(games'[k], claims', signature, valid).Some?
  {
    var g := games[k];
    var side := RedeemWinner(g.times.priceStart, g.times.priceEnd);
    var mint := g.keys.MintOf(side);
    var v := if parsed.None? then Ok(false)
      else Token.ScanBurn(parsed.value.instructions, accountMints, mint, ata(mint, owner), amount);
    assert RedeemGate(g, claims, signature, v).None?;
    assert payout.Sent?;
    assert signature in claims';
  }
}
