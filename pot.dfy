/** app/services/pot.ts: the game engine. A `Game` holds the columns of one
    game row; `PotService` holds the game table, the buy, sell and claim
    record tables keyed by signature, and the module-level `processing`
    sets. The ledger, the price oracle and the clock are parameters: each
    operation receives the answers the ledger would give it. */
module Pot {
  import opened Types
  import opened Chain
  import opened Accounting
  import Helpers
  import Token

  /** The four ledger keys of a game (the source stores their secret keys and
      derives these public keys from them). */
  datatype GameKeys = GameKeys(overPot: Address, underPot: Address, overMint: Address, underMint: Address)
  {
    function PotOf(s: Side): Address { if s.Over? then overPot else underPot }
    function MintOf(s: Side): Address { if s.Over? then overMint else underMint }
    predicate Has(a: Address) { a == overPot || a == underPot || a == overMint || a == underMint }
  }

  /** What `getTokenMetadata` returns. */
  datatype TokenMetadata = TokenMetadata(name: string, symbol: string, decimals: nat)

  /** What `getTokenPrice` returns: the token's price in SOL and in USD. */
  datatype TokenPrice = TokenPrice(sol: real, usd: real)

  /** The non-accounting columns the engine writes. */
  datatype Timeline = Timeline(
    initiatorSignature: Option<Signature>, timeStarted: Option<int>, timeEnded: Option<int>,
    priceStart: real, priceEnd: real, usdStart: real, usdEnd: real)

  /** One row of the games table: its identity columns, the columns of its
      timeline and its accounting columns. */
  datatype GameRow = GameRow(
    id: nat, initiator: Address, contractAddress: Address, memecoinName: string,
    memecoinSymbol: string, tokenDecimal: nat, keys: GameKeys, createdAt: int,
    times: Timeline, books: Books)
  {
    /** The time the sell tax and the settlement scheduler count from:
        `timeStarted || createdAt`. */
    function StartTime(): int { times.timeStarted.GetOr(createdAt) }
  }

  // ---------------------------------------------------------------------------
  // The column updates of the loaded game instance. Each operation loads a
  // fresh instance of its row, changes its columns in the source's order and
  // saves it back; nothing else refers to the instance, so it is modelled as
  // a local row value.
  // ---------------------------------------------------------------------------

  /** The column updates of an admitted buy. */
  method ApplyBuy(game: GameRow, side: Side, lamports: nat) returns (saved: GameRow)
    requires game.books.PriceOf(side) > 0
    ensures saved == game.(books := BuyBooks(game.books, side, lamports))
  {
    var b := game.books;
    var price := if side.Over? then b.overPrice else b.underPrice;
    b := b.(totalPot := b.totalPot + lamports);
    var calculated := Calculate(lamports, price);
    if side.Over? {
      b := b.(overPot := b.overPot + lamports);
      b := b.(overTokenMinted := b.overTokenMinted + calculated);
    } else {
      b := b.(underPot := b.underPot + lamports);
      b := b.(underTokenMinted := b.underTokenMinted + calculated);
    }
    b := b.(buyFee := b.buyFee + BuyFee(lamports));
    b := b.(claimable := (b.totalPot - (b.buyFee + b.sellFee)) as real);
    saved := game.(books := b);
  }

  /** The column updates of an admitted sell valued at `q`: burn, fee, pot
      moves, total, then the repricing of both sides. */
  method ApplySell(game: GameRow, side: Side, amount: nat, q: SellQuote) returns (saved: GameRow)
    ensures saved == game.(books := SellBooks(game.books, side, amount, q))
  {
    var b := game.books;
    if side.Under? {
      b := b.(underTokenBurnt := b.underTokenBurnt + amount);
      b := b.(sellFee := b.sellFee + q.fee);
      b := b.(overPot := b.overPot + q.redistribution);
      b := b.(underPot := b.underPot - (q.redistribution + SELL_POT_FEE));
    } else {
      b := b.(overTokenBurnt := b.overTokenBurnt + amount);
      b := b.(sellFee := b.sellFee + q.fee);
      b := b.(overPot := b.overPot - (q.redistribution + SELL_POT_FEE));
      b := b.(underPot := b.underPot + q.redistribution);
    }
    b := b.(totalPot := b.overPot + b.underPot);
    // A side keeps its price while none of its tokens are outstanding.
    b := b.(underPrice := Reprice(b.underPot, b.underTokenMinted - b.underTokenBurnt, b.underPrice));
    b := b.(overPrice := Reprice(b.overPot, b.overTokenMinted - b.overTokenBurnt, b.overPrice));
    saved := game.(books := b);
  }

  /** The column updates of an admitted redemption of `amount` tokens of the
      winning side; `value` is the unrounded pro-rata payout. */
  method ApplyRedeem(game: GameRow, side: Side, amount: nat) returns (saved: GameRow, value: real)
    requires game.books.Outstanding(side) != 0
    ensures value == RedeemValue(amount, game.books.Outstanding(side), game.books.claimable)
    ensures saved == game.(books := RedeemBooks(game.books, side, amount))
  {
    var b := game.books;
    var supply := if side.Over? then b.overTokenMinted - b.overTokenBurnt else b.underTokenMinted - b.underTokenBurnt;
    value := (amount as real / supply as real) * b.claimable;
    if side.Under? {
      b := b.(underTokenBurnt := b.underTokenBurnt + amount);
    } else {
      b := b.(overTokenBurnt := b.overTokenBurnt + amount);
    }
    b := b.(claimable := b.claimable - value);
    saved := game.(books := b);
  }

  /** The column updates of a settled game: the loser's pot merged into the
      winner's, the end time and the end prices. */
  method ApplySettlement(game: GameRow, winner: Side, now: int, price: TokenPrice) returns (saved: GameRow)
    ensures saved == game.(books := MergeBooks(game.books, winner),
                           times := game.times.(timeEnded := Some(now), priceEnd := price.sol, usdEnd := price.usd))
  {
    var b := game.books;
    if winner.Over? {
      b := b.(overPot := b.overPot + b.underPot);
      b := b.(underPot := 0);
    } else {
      b := b.(underPot := b.underPot + b.overPot);
      b := b.(overPot := 0);
    }
    var t := game.times.(timeEnded := Some(now));
    t := t.(usdEnd := price.usd);
    t := t.(priceEnd := price.sol);
    saved := game.(books := b, times := t);
  }

  /** `orderBy('createdAt', 'desc').first()` over the games, optionally only
      those with `timeEnded` null: the index of a game with the greatest
      creation time (the last such in table order on a tie). */
  function LatestGame(gs: seq<GameRow>, activeOnly: bool): (r: Option<nat>)
    ensures r.Some? ==> r.value < |gs| && (activeOnly ==> gs[r.value].times.timeEnded.None?)
    ensures r.Some? ==> forall j :: 0 <= j < |gs| && (!activeOnly || gs[j].times.timeEnded.None?) ==>
      gs[j].createdAt <= gs[r.value].createdAt
    ensures r.None? <==> forall j :: 0 <= j < |gs| ==> activeOnly && gs[j].times.timeEnded.Some?
  {
    if gs == [] then None
    else
      var n := |gs| - 1;
      var rest := LatestGame(gs[..n], activeOnly);
      if activeOnly && gs[n].times.timeEnded.Some? then rest
      else if rest.Some? && gs[rest.value].createdAt > gs[n].createdAt then rest
      else Some(n)
  }

  /** `Game.findByOrFail('id', id)`. */
  function IndexOfId(gs: seq<GameRow>, id: nat): (r: Option<nat>)
    ensures r.Some? ==> r.value < |gs| && gs[r.value].id == id
    ensures r.None? <==> forall j :: 0 <= j < |gs| ==> gs[j].id != id
  {
    if gs == [] then None
    else if gs[|gs| - 1].id == id then Some(|gs| - 1)
    else IndexOfId(gs[..|gs| - 1], id)
  }

  datatype BuyRecord = BuyRecord(
    gameId: nat, solanaWalletAddress: Address, tokenPrice: int, totalInSolana: nat,
    solanaTxSignature: Signature, side: Side, fees: int, createdAt: int)

  datatype SellRecord = SellRecord(
    gameId: nat, solanaWalletAddress: Address, side: Side, tokenPrice: int,
    sellTokenAmount: nat, solReceived: int, burnTxSignature: Signature,
    solanaTxSignature: Signature, createdAt: int)

  datatype ClaimRecord = ClaimRecord(
    gameId: nat, solanaWalletAddress: Address, targetSolanaWalletAddress: Address,
    claimTokenAmount: nat, solReceived: real, burnTxSignature: Signature,
    solanaTxSignature: Signature, createdAt: int)

  /** What one attempt of `buy` or `sell` ends with: nothing (undefined), the
      saved game and record with the mint or payout signature, a failed send
      the source answers by running the operation again from the top, or a
      thrown error. */
  datatype Outcome<R> =
    | Skipped
    | Done(game: GameRow, record: R, signature: Signature)
    | Retry
    | Failed(error: Error)

  /** The failure `mintToken` raises when the mint quantity is not a finite
      non-negative number, which happens exactly when the side's price is not
      positive. */
  const INVALID_MINT_AMOUNT: string := "mint amount is not a valid u64"

  /** The mint `buy` requests: `amount` base units of `mint` to `owner`. */
  datatype MintRequest = MintRequest(owner: Address, mint: Address, amount: int)

  /** A multi-recipient transfer from one pot. */
  datatype Payout = Payout(from: Address, legs: seq<Leg>)

  /** The claim transfer `redeem` sends: from the winning pot to the owner,
      the unrounded pro-rata value less the network fee. */
  datatype ClaimPayout = ClaimPayout(from: Address, to: Address, lamports: real)

  /** What `start` returns: the mint-creation signature and the new game,
      with the instruction list of the mint-creation transaction. */
  datatype Started = Started(signature: Signature, game: GameRow, instructions: seq<Instruction>)

  /** What `settle` ends with; the source returns nothing and logs. */
  datatype SettleOutcome =
    | NotDue
    | NoStartTime
    | EndedWithoutBuyers
    | Aborted(error: Error)
    | Settled(winner: Side, signature: Signature)

  /** The keys and the memo of the settlement transaction: the winner's pot
      and mint, the loser's pot and mint, and `goatSettle_<id>`. */
  datatype SettlementRequest = SettlementRequest(
    winnerPot: Address, winnerMint: Address, loserPot: Address, loserMint: Address, memo: string)

  /** The memo of game `id`'s settlement transaction. */
  function SettleMemo(id: nat): string
  {
    "goatSettle_" + NatToString(id)
  }

  /** Distinct games settle under distinct memos. */
  lemma SettleMemoDistinct(a: nat, b: nat)
    ensures a != b ==> SettleMemo(a) != SettleMemo(b)
  {
    var pre := "goatSettle_";
    if SettleMemo(a) == SettleMemo(b) {
      assert SettleMemo(a)[|pre|..] == NatToString(a);
      assert SettleMemo(b)[|pre|..] == NatToString(b);
      NatToStringInjective(a, b);
    }
  }

  /** The settlement transaction `settle` sends for `game` once `winner` is
      known: the winner's keys first, the loser's second. */
  function SettleRequestOf(game: GameRow, winner: Side): (q: SettlementRequest)
    ensures {q.winnerPot, q.loserPot} == {game.keys.overPot, game.keys.underPot}
    ensures {q.winnerMint, q.loserMint} == {game.keys.overMint, game.keys.underMint}
    ensures q.winnerPot == game.keys.PotOf(winner) && q.winnerMint == game.keys.MintOf(winner)
    ensures q.memo == SettleMemo(game.id)
  {
    SettlementRequest(game.keys.PotOf(winner), game.keys.MintOf(winner),
                      game.keys.PotOf(winner.Other()), game.keys.MintOf(winner.Other()), SettleMemo(game.id))
  }

  /** The reason recorded when the settlement transaction was sent but its
      confirmation wait threw. */
  const SETTLEMENT_UNCONFIRMED: string := "settlement transaction not confirmed"

  /** The module-level `processing` object: the signatures `buy`, `sell`
      and `redeem` are handling. */
  class Processing {
    var buys: set<Signature>
    var sells: set<Signature>
    var redeem: set<Signature>

    constructor ()
      ensures buys == {} && sells == {} && redeem == {}
    {
      buys, sells, redeem := {}, {}, {};
    }
  }

  /** The invariant every row keeps: an id below the id counter, no
      initiator signature, and pots summing to the recorded total. */
  predicate RowInvariant(row: GameRow, nextId: nat)
  {
    row.id < nextId && row.times.initiatorSignature.None? && row.books.Balanced()
  }

  // ---------------------------------------------------------------------------
  // buy: what the database transaction does on given tables
  // ---------------------------------------------------------------------------

  /** Where the database transaction of `buy` stops before the mint, in the
      source's order: a recorded signature, no game at all, an owner that is
      one of the newest game's keys, or a side price at which the mint
      quantity is not a valid amount. None when the mint is requested. */
  function BuyGate(games: seq<GameRow>, buys: map<Signature, BuyRecord>, owner: Address, side: Side,
                   signature: Signature): Option<Outcome<BuyRecord>>
  {
    if signature in buys then Some(Failed(TransactionSignatureAlreadyExists))
    else match LatestGame(games, false)
      case None => Some(Failed(NoActiveGame))
      case Some(k) =>
        if games[k].keys.Has(owner) then Some(Skipped)
        else if games[k].books.PriceOf(side) <= 0 then Some(Failed(LedgerFailure(INVALID_MINT_AMOUNT)))
        else None
  }

  /** The outcome of the database transaction of `buy`, given the outcome of
      the mint: the newest game's row with the buy booked, and the record. */
  function BuyPlan(games: seq<GameRow>, buys: map<Signature, BuyRecord>, owner: Address, side: Side,
                   signature: Signature, lamports: nat, now: int, mint: MintOutcome): Outcome<BuyRecord>
  {
    match BuyGate(games, buys, owner, side, signature)
    case Some(stop) => stop
    case None =>
      var g := games[LatestGame(games, false).value];
      match mint
      case MintTransient => Retry
      case MintFatal(reason) => Failed(LedgerFailure(reason))
      case Minted(sig) =>
        Done(g.(books := BuyBooks(g.books, side, lamports)),
             BuyRecord(g.id, owner, g.books.PriceOf(side), lamports, signature, side, BuyFee(lamports), now), sig)
  }

  /** The mint the database transaction of `buy` requests: the claim tokens
      of the bought side of the newest game, to the owner. */
  function BuyMint(games: seq<GameRow>, buys: map<Signature, BuyRecord>, owner: Address, side: Side,
                   signature: Signature, lamports: nat): Option<MintRequest>
  {
    if BuyGate(games, buys, owner, side, signature).Some? then None
    else
      var g := games[LatestGame(games, false).value];
      Some(MintRequest(owner, g.keys.MintOf(side), Calculate(lamports, g.books.PriceOf(side))))
  }

  // ---------------------------------------------------------------------------
  // sell: what the database transaction does on given tables
  // ---------------------------------------------------------------------------

  /** Where the database transaction of `sell` stops before the payout, in
      the source's order: a recorded signature, no game whose `timeEnded` is
      null, or an owner that is one of that game's keys. None when the payout
      is sent. */
  function SellGate(games: seq<GameRow>, sells: map<Signature, SellRecord>, owner: Address,
                    signature: Signature): Option<Outcome<SellRecord>>
  {
    if signature in sells then Some(Failed(TransactionSignatureAlreadyExists))
    else match LatestGame(games, true)
      case None => Some(Failed(NoActiveGame))
      case Some(k) => if games[k].keys.Has(owner) then Some(Skipped) else None
  }

  /** The valuation of selling `amount` tokens of `side` of `g` at `now`. */
  function QuoteIn(g: GameRow, side: Side, amount: nat, now: int): SellQuote
  {
    QuoteSell(g.books.PriceOf(side), amount, ElapsedMinutes(now, g.StartTime()))
  }

  /** The outcome of the database transaction of `sell`, given the outcome of
      the payout: the newest active game's row with the sell booked, and the
      record. */
  function SellPlan(games: seq<GameRow>, sells: map<Signature, SellRecord>, owner: Address, side: Side,
                    signature: Signature, amount: nat, now: int, payout: SendOutcome): Outcome<SellRecord>
  {
    match SellGate(games, sells, owner, signature)
    case Some(stop) => stop
    case None =>
      var g := games[LatestGame(games, true).value];
      var q := QuoteIn(g, side, amount, now);
      match payout
      case SendTransient => Retry
      case SendFatal(reason) => Failed(LedgerFailure(reason))
      case Sent(sig, _) =>
        Done(g.(books := SellBooks(g.books, side, amount, q)),
             SellRecord(g.id, owner, side, g.books.PriceOf(side), amount, q.payout, signature, sig, now), sig)
  }

  /** The payout the database transaction of `sell` sends: from the sold
      side's pot, the redistribution to the other pot and the seller's share
      less the network fee. */
  function SellPayout(games: seq<GameRow>, sells: map<Signature, SellRecord>, owner: Address, side: Side,
                      signature: Signature, amount: nat, now: int): Option<Payout>
  {
    if SellGate(games, sells, owner, signature).Some? then None
    else
      var g := games[LatestGame(games, true).value];
      Some(Payout(g.keys.PotOf(side), SellLegs(QuoteIn(g, side, amount, now), g.keys.PotOf(side.Other()), owner)))
  }

  // ---------------------------------------------------------------------------
  // redeem
  // ---------------------------------------------------------------------------

  /** What `redeem` on row `k` of `games` leads to: the first error of the
      gate, a failed claim transfer, or the claim paid from the winning pot
      with the redemption booked and the claim recorded. */
  predicate RedeemCommitted(games: seq<GameRow>, claims: map<Signature, ClaimRecord>,
                            games': seq<GameRow>, claims': map<Signature, ClaimRecord>, k: nat,
                            owner: Address, amount: nat, signature: Signature,
                            parsed: Option<ParsedTransaction>, accountMints: map<Address, Address>,
                            ata: (Address, Address) -> Address, payout: FinalSend, now: int,
                            r: Result<ClaimPayout>)
    requires k < |games|
  {
    var g := games[k];
    var side := RedeemWinner(g.times.priceStart, g.times.priceEnd);
    var mint := g.keys.MintOf(side);
    var valid := if parsed.None? then Ok(false)
      else Token.ScanBurn(parsed.value.instructions, accountMints, mint, ata(mint, owner), amount);
    var gate := RedeemGate(g, claims, signature, valid);
    if gate.Some? then r == Err(gate.value)
    else if payout.SendFatal? then r == Err(LedgerFailure(payout.reason))
    else
      var value := RedeemValue(amount, g.books.Outstanding(side), g.books.claimable);
      && r == Ok(ClaimPayout(g.keys.PotOf(side), owner, value - NETWORK_FEE as real))
      && games' == games[k := g.(books := RedeemBooks(g.books, side, amount))]
      && claims' == claims[signature := ClaimRecord(g.id, owner, owner, amount, value, signature, payout.signature, now)]
  }

  /** The error `redeem` raises on game `g`, in the source's order, given the
      verdict of the burn validation: a game not yet ended, less than one
      lamport to claim, a recorded signature, no circulating tokens of the
      winning side, or a burn that does not validate. None when the claim is
      paid. */
  function RedeemGate(g: GameRow, claims: map<Signature, ClaimRecord>, signature: Signature,
                      valid: Result<bool>): Option<Error>
  {
    if g.times.timeEnded.None? then Some(GameIsNotEnded)
    else if g.books.claimable < 1.0 then Some(NoClaimableSolInGame)
    else if signature in claims then Some(TransactionSignatureAlreadyExists)
    else if g.books.Outstanding(RedeemWinner(g.times.priceStart, g.times.priceEnd)) == 0 then Some(ZeroGameTokenSupply)
    else if valid != Ok(true) then Some(InvalidTransaction)
    else None
  }

  // ---------------------------------------------------------------------------
  // settle
  // ---------------------------------------------------------------------------

  /** Whether the game has a buy record. */
  predicate HasBuyer(buys: map<Signature, BuyRecord>, gameId: nat)
  {
    exists s :: s in buys && buys[s].gameId == gameId
  }

  // ---------------------------------------------------------------------------
  // start
  // ---------------------------------------------------------------------------

  /** The initiating transaction's first transfer into `master` carries at
      least `threshold` lamports, or no threshold is configured. */
  ghost predicate Initiates(ts: seq<Helpers.SolTransfer>, master: Address, threshold: nat)
  {
    exists i :: Helpers.FirstTo(ts, master, i) && (threshold == 0 || ts[i].lamports >= threshold)
  }

  /** The error `start` raises, in the source's order: no transaction for the
      signature, a malformed system instruction in it, no qualifying transfer
      into the master wallet, no metadata for the contract, no price, or a
      failed mint creation. None when the game is created. */
  ghost function StartGate(master: Address, parsed: Option<ParsedTransaction>, threshold: nat,
                           metadata: Option<TokenMetadata>, price: Result<TokenPrice>,
                           created: Result<Signature>): Option<Error>
  {
    if parsed.None? then Some(TransactionSignatureNotExists)
    else if exists i :: 0 <= i < |parsed.value.instructions| && Helpers.SolMalformed(parsed.value.instructions[i]) then
      Some(MalformedInstruction)
    else if !Initiates(Helpers.SolTransfersOf(parsed.value.instructions), master, threshold) then
      Some(InvalidSignatureForInitiateGame)
    else if metadata.None? then Some(InvalidContractAddress)
    else if price.Err? then Some(price.error)
    else if created.Err? then Some(created.error)
    else None
  }

  class PotService {
    /** The master wallet's address. */
    const master: Address
    /** The games table, in insertion order. */
    var games: seq<GameRow>
    /** The next id the games table hands out. */
    var nextId: nat
    /** Buy records by `solanaTxSignature`. */
    var buys: map<Signature, BuyRecord>
    /** Sell records by `burnTxSignature`. */
    var sells: map<Signature, SellRecord>
    /** Claim records by `burnTxSignature`. */
    var claims: map<Signature, ClaimRecord>
    /** The module-level in-flight signature sets. */
    const processing: Processing

    /** The table invariants: distinct ids, every row keeping its invariant,
        and every record stored under its own signature. */
    ghost predicate Valid()
      reads this
    {
      && (forall i, j :: 0 <= i < j < |games| ==> games[i].id != games[j].id)
      && (forall i :: 0 <= i < |games| ==> RowInvariant(games[i], nextId))
      && (forall s :: s in buys ==> buys[s].solanaTxSignature == s)
      && (forall s :: s in sells ==> sells[s].burnTxSignature == s)
      && (forall s :: s in claims ==> claims[s].burnTxSignature == s)
    }

    constructor (master: Address)
      ensures Valid() && this.master == master
      ensures games == [] && nextId == 1 && buys == map[] && sells == map[] && claims == map[]
      ensures fresh(processing) && processing.buys == {} && processing.sells == {} && processing.redeem == {}
    {
      this.master := master;
      games := [];
      nextId := 1;
      buys, sells, claims := map[], map[], map[];
      processing := new Processing();
    }

    /** Replaces row `k` with a row that keeps the invariant and the id. */
    method SaveRow(k: nat, row: GameRow)
      requires Valid() && k < |games| && row.id == games[k].id && RowInvariant(row, nextId)
      modifies this
      ensures Valid()
      ensures games == old(games)[k := row]
      ensures nextId == old(nextId) && buys == old(buys) && sells == old(sells) && claims == old(claims)
    {
      games := games[k := row];
    }

    /** Saves an admitted buy: its game row and its record. */
    method CommitBuy(k: nat, row: GameRow, record: BuyRecord)
      requires Valid() && k < |games| && row.id == games[k].id && RowInvariant(row, nextId)
      modifies this
      ensures Valid()
      ensures games == old(games)[k := row] && buys == old(buys)[record.solanaTxSignature := record]
      ensures nextId == old(nextId) && sells == old(sells) && claims == old(claims)
    {
      buys := buys[record.solanaTxSignature := record];
      games := games[k := row];
    }

    /** Saves an admitted sell: its game row and its record. */
    method CommitSell(k: nat, row: GameRow, record: SellRecord)
      requires Valid() && k < |games| && row.id == games[k].id && RowInvariant(row, nextId)
      modifies this
      ensures Valid()
      ensures games == old(games)[k := row] && sells == old(sells)[record.burnTxSignature := record]
      ensures nextId == old(nextId) && buys == old(buys) && claims == old(claims)
    {
      sells := sells[record.burnTxSignature := record];
      games := games[k := row];
    }

    /** Saves an admitted redemption: its claim record and its game row. */
    method CommitClaim(k: nat, row: GameRow, record: ClaimRecord)
      requires Valid() && k < |games| && row.id == games[k].id && RowInvariant(row, nextId)
      modifies this
      ensures Valid()
      ensures games == old(games)[k := row] && claims == old(claims)[record.burnTxSignature := record]
      ensures nextId == old(nextId) && buys == old(buys) && sells == old(sells)
    {
      claims := claims[record.burnTxSignature := record];
      games := games[k := row];
    }

    // -------------------------------------------------------------------------
    // start
    // -------------------------------------------------------------------------

    /** `start`: `parsed` is the ledger's answer for the initiating signature,
        `threshold` the configured initiation fee (0 when unset), `metadata`
        the token metadata (None when the lookup failed), `price` the oracle's
        answer, `keys` the freshly generated pot and mint keys, `minimum` the
        rent minimum, `ata` the associated-account derivation and `created`
        the outcome of the mint-creation transaction. */
    method Start(contract: Address, signature: Signature, parsed: Option<ParsedTransaction>, threshold: nat,
                 metadata: Option<TokenMetadata>, price: Result<TokenPrice>, keys: GameKeys,
                 minimum: int, ata: (Address, Address) -> Address, created: Result<Signature>, now: int)
      returns (r: Result<Started>)
      requires Valid()
      modifies this
      ensures Valid()
      ensures buys == old(buys) && sells == old(sells) && claims == old(claims)
      ensures var gate := StartGate(master, parsed, threshold, metadata, price, created);
        gate.Some? ==> r == Err(gate.value) && games == old(games) && nextId == old(nextId)
      ensures StartGate(master, parsed, threshold, metadata, price, created).None? ==> r.Ok?
      ensures r.Ok? ==>
        && parsed.Some? && metadata.Some? && price.Ok? && created.Ok?
        && games == old(games) + [r.value.game] && nextId == old(nextId) + 1
        && r.value.signature == created.value
        && r.value.instructions == Token.CreateOverUnderTokenInstructions(
             master, keys.overPot, keys.underPot, keys.overMint, keys.underMint, minimum, Token.DEFAULT_DECIMALS, ata)
        && r.value.game == GameRow(old(nextId), r.value.game.initiator, contract, metadata.value.name,
             metadata.value.symbol, metadata.value.decimals, keys, now,
             Timeline(None, Some(now), None, price.value.sol, price.value.sol, price.value.usd, price.value.usd),
             InitialBooks())
      ensures r.Ok? ==> parsed.Some? && exists i :: (
        && Helpers.FirstTo(Helpers.SolTransfersOf(parsed.value.instructions), master, i)
        && (threshold == 0 || Helpers.SolTransfersOf(parsed.value.instructions)[i].lamports >= threshold)
        && r.value.game.initiator == Helpers.SolTransfersOf(parsed.value.instructions)[i].source)
    {
      var initiator := Helpers.GetSourceTransferFromDestination(parsed, master, threshold);
      if initiator.Err? {
        return Err(initiator.error);
      }
      if initiator.value.None? {
        return Err(InvalidSignatureForInitiateGame);
      }
      if metadata.None? {
        return Err(InvalidContractAddress);
      }
      if price.Err? {
        return Err(price.error);
      }
      var instructions := Token.CreateOverUnderTokenInstructions(
        master, keys.overPot, keys.underPot, keys.overMint, keys.underMint, minimum, Token.DEFAULT_DECIMALS, ata);
      if created.Err? {
        return Err(created.error);
      }
      var row := GameRow(nextId, initiator.value.value.source, contract, metadata.value.name, metadata.value.symbol,
                         metadata.value.decimals, keys, now,
                         Timeline(None, Some(now), None, price.value.sol, price.value.sol, price.value.usd, price.value.usd),
                         InitialBooks());
      InitialBooksEmpty();
      games := games + [row];
      nextId := nextId + 1;
      return Ok(Started(created.value, row, instructions));
    }

    // -------------------------------------------------------------------------
    // buy
    // -------------------------------------------------------------------------

    /** `buy`: `mint` is the outcome of the `mintToken` call, `request` the
        mint it asks for. The master wallet and a signature already in flight
        are ignored; otherwise the signature is held in flight for the
        duration of the database transaction. */
    method Buy(owner: Address, side: Side, signature: Signature, lamports: nat, now: int, mint: MintOutcome)
      returns (r: Outcome<BuyRecord>, request: Option<MintRequest>)
      requires Valid()
      modifies this, processing
      ensures Valid()
      ensures nextId == old(nextId) && sells == old(sells) && claims == old(claims)
      ensures processing.buys == old(processing.buys)
      ensures processing.sells == old(processing.sells) && processing.redeem == old(processing.redeem)
      ensures owner == master || signature in old(processing.buys) ==> r == Skipped && request.None?
      ensures owner != master && signature !in old(processing.buys) ==>
        && r == BuyPlan(old(games), old(buys), owner, side, signature, lamports, now, mint)
        && request == BuyMint(old(games), old(buys), owner, side, signature, lamports)
      ensures r.Done? ==>
        && LatestGame(old(games), false).Some?
        && games == old(games)[LatestGame(old(games), false).value := r.game]
        && buys == old(buys)[signature := r.record]
      ensures !r.Done? ==> games == old(games) && buys == old(buys)
    {
      if owner == master {
        return Skipped, None;
      }
      if signature in processing.buys {
        return Skipped, None;
      }
      processing.buys := processing.buys + {signature};
      r, request := BuyInTransaction(owner, side, signature, lamports, now, mint);
      processing.buys := processing.buys - {signature};
    }

    /** The database transaction of `buy`. */
    method BuyInTransaction(owner: Address, side: Side, signature: Signature, lamports: nat, now: int,
                            mint: MintOutcome)
      returns (r: Outcome<BuyRecord>, request: Option<MintRequest>)
      requires Valid()
      modifies this
      ensures Valid()
      ensures nextId == old(nextId) && sells == old(sells) && claims == old(claims)
      ensures r == BuyPlan(old(games), old(buys), owner, side, signature, lamports, now, mint)
      ensures request == BuyMint(old(games), old(buys), owner, side, signature, lamports)
      ensures r.Done? ==>
        && LatestGame(old(games), false).Some?
        && games == old(games)[LatestGame(old(games), false).value := r.game]
        && buys == old(buys)[signature := r.record]
      ensures !r.Done? ==> games == old(games) && buys == old(buys)
    {
      if signature in buys {
        return Failed(TransactionSignatureAlreadyExists), None;
      }
      var latest := LatestGame(games, false);
      if latest.None? {
        return Failed(NoActiveGame), None;
      }
      var row := games[latest.value];
      if row.keys.Has(owner) {
        return Skipped, None;
      }
      var price := row.books.PriceOf(side);
      if price <= 0 {
        return Failed(LedgerFailure(INVALID_MINT_AMOUNT)), None;
      }
      var tokenMint := row.keys.MintOf(side);
      var record := BuyRecord(row.id, owner, price, lamports, signature, side, BuyFee(lamports), now);
      var game := ApplyBuy(row, side, lamports);
      request := Some(MintRequest(owner, tokenMint, Calculate(lamports, price)));
      // A failed mint rolls the transaction back: the changed instance is not saved.
      if mint.MintTransient? {
        return Retry, request;
      }
      if mint.MintFatal? {
        return Failed(LedgerFailure(mint.reason)), request;
      }
      BuyKeepsBalanced(row.books, side, lamports);
      CommitBuy(latest.value, game, record);
      return Done(game, record, mint.signature), request;
    }

    // -------------------------------------------------------------------------
    // sell
    // -------------------------------------------------------------------------

    /** `sell`: `payout` is the outcome of the `transferToMany` call that
        sends `sent`; an unconfirmed payout still commits. The master wallet
        and a signature already in flight are ignored; otherwise the
        signature is held in flight for the duration of the database
        transaction. */
    method Sell(owner: Address, side: Side, signature: Signature, amount: nat, now: int, payout: SendOutcome)
      returns (r: Outcome<SellRecord>, sent: Option<Payout>)
      requires Valid()
      modifies this, processing
      ensures Valid()
      ensures nextId == old(nextId) && buys == old(buys) && claims == old(claims)
      ensures processing.sells == old(processing.sells)
      ensures processing.buys == old(processing.buys) && processing.redeem == old(processing.redeem)
      ensures owner == master || signature in old(processing.sells) ==> r == Skipped && sent.None?
      ensures owner != master && signature !in old(processing.sells) ==>
        && r == SellPlan(old(games), old(sells), owner, side, signature, amount, now, payout)
        && sent == SellPayout(old(games), old(sells), owner, side, signature, amount, now)
      ensures r.Done? ==>
        && LatestGame(old(games), true).Some?
        && games == old(games)[LatestGame(old(games), true).value := r.game]
        && sells == old(sells)[signature := r.record]
      ensures !r.Done? ==> games == old(games) && sells == old(sells)
    {
      if owner == master {
        return Skipped, None;
      }
      if signature in processing.sells {
        return Skipped, None;
      }
      processing.sells := processing.sells + {signature};
      r, sent := SellInTransaction(owner, side, signature, amount, now, payout);
      processing.sells := processing.sells - {signature};
    }

    /** The database transaction of `sell`. */
    method SellInTransaction(owner: Address, side: Side, signature: Signature, amount: nat, now: int,
                             payout: SendOutcome)
      returns (r: Outcome<SellRecord>, sent: Option<Payout>)
      requires Valid()
      modifies this
      ensures Valid()
      ensures nextId == old(nextId) && buys == old(buys) && claims == old(claims)
      ensures r == SellPlan(old(games), old(sells), owner, side, signature, amount, now, payout)
      ensures sent == SellPayout(old(games), old(sells), owner, side, signature, amount, now)
      ensures r.Done? ==>
        && LatestGame(old(games), true).Some?
        && games == old(games)[LatestGame(old(games), true).value := r.game]
        && sells == old(sells)[signature := r.record]
      ensures !r.Done? ==> games == old(games) && sells == old(sells)
    {
      if signature in sells {
        return Failed(TransactionSignatureAlreadyExists), None;
      }
      var latest := LatestGame(games, true);
      if latest.None? {
        return Failed(NoActiveGame), None;
      }
      var row := games[latest.value];
      if row.keys.Has(owner) {
        return Skipped, None;
      }
      var price := row.books.PriceOf(side);
      var q := QuoteIn(row, side, amount, now);
      var source := if side.Under? then row.keys.underPot else row.keys.overPot;
      var target := if side.Under? then row.keys.overPot else row.keys.underPot;
      var game := ApplySell(row, side, amount, q);
      sent := Some(Payout(source, SellLegs(q, target, owner)));
      // A failed payout rolls the transaction back: the changed instance is not saved.
      if payout.SendTransient? {
        return Retry, sent;
      }
      if payout.SendFatal? {
        return Failed(LedgerFailure(payout.reason)), sent;
      }
      var record := SellRecord(row.id, owner, side, price, amount, q.payout, signature, payout.signature, now);
      SellRebalances(row.books, side, amount, q);
      CommitSell(latest.value, game, record);
      return Done(game, record, payout.signature), sent;
    }

    // -------------------------------------------------------------------------
    // redeem
    // -------------------------------------------------------------------------

    /** `redeem`: `parsed` and `accountMints` are the ledger's answers the
        burn validation reads, `ata` the associated-account derivation, and
        `payout` the outcome of the claim transfer. */
    method Redeem(id: nat, owner: Address, amount: nat, signature: Signature,
                  parsed: Option<ParsedTransaction>, accountMints: map<Address, Address>,
                  ata: (Address, Address) -> Address, payout: FinalSend, now: int)
      returns (r: Result<ClaimPayout>)
      requires Valid()
      modifies this
      ensures Valid()
      ensures nextId == old(nextId) && buys == old(buys) && sells == old(sells)
      ensures r.Err? ==> games == old(games) && claims == old(claims)
      ensures IndexOfId(old(games), id).None? ==> r == Err(RowNotFound)
      ensures IndexOfId(old(games), id).Some? ==>
        RedeemCommitted(old(games), old(claims), games, claims, IndexOfId(old(games), id).value,
                        owner, amount, signature, parsed, accountMints, ata, payout, now, r)
    {
      var index := IndexOfId(games, id);
      if index.None? {
        return Err(RowNotFound);
      }
      r := RedeemRow(index.value, owner, amount, signature, parsed, accountMints, ata, payout, now);
    }

    /** `redeem` once the game's row `k` is found. */
    method RedeemRow(k: nat, owner: Address, amount: nat, signature: Signature,
                     parsed: Option<ParsedTransaction>, accountMints: map<Address, Address>,
                     ata: (Address, Address) -> Address, payout: FinalSend, now: int)
      returns (r: Result<ClaimPayout>)
      requires Valid() && k < |games|
      modifies this
      ensures Valid()
      ensures nextId == old(nextId) && buys == old(buys) && sells == old(sells)
      ensures r.Err? ==> games == old(games) && claims == old(claims)
      ensures RedeemCommitted(old(games), old(claims), games, claims, k, owner, amount, signature,
                              parsed, accountMints, ata, payout, now, r)
    {
      var row := games[k];
      if row.times.timeEnded.None? {
        return Err(GameIsNotEnded);
      }
      if row.books.claimable < 1.0 {
        return Err(NoClaimableSolInGame);
      }
      if signature in claims {
        return Err(TransactionSignatureAlreadyExists);
      }
      var side := RedeemWinner(row.times.priceStart, row.times.priceEnd);
      var supply := row.books.Outstanding(side);
      if supply == 0 {
        return Err(ZeroGameTokenSupply);
      }
      var mint := row.keys.MintOf(side);
      var valid := Token.ValidateBurnTransaction(parsed, accountMints, owner, mint, amount, ata);
      if valid.Err? {
        return Err(InvalidTransaction);
      }
      if !valid.value {
        return Err(InvalidTransaction);
      }
      var game, value := ApplyRedeem(row, side, amount);
      var source := row.keys.PotOf(side);
      if payout.SendFatal? {
        return Err(LedgerFailure(payout.reason));
      }
      CommitClaim(k, game, ClaimRecord(row.id, owner, owner, amount, value, signature, payout.signature, now));
      return Ok(ClaimPayout(source, owner, value - NETWORK_FEE as real));
    }

    // -------------------------------------------------------------------------
    // settle
    // -------------------------------------------------------------------------

    /** `settle` on the game in row `k`: `now` is the instant of the due check
        and of the first end time, `price` the oracle's current price of the
        meme coin, `settlement` the outcome of the settlement transaction and
        `settledAt` the instant the clock is read again once it is confirmed.
        The source catches and logs both kinds of failure, after the first end
        time is saved. */
    method Settle(k: nat, now: int, price: Result<TokenPrice>, settlement: FinalSend, settledAt: int)
      returns (r: SettleOutcome, request: Option<SettlementRequest>)
      requires Valid() && k < |games|
      modifies this
      ensures Valid()
      ensures nextId == old(nextId) && buys == old(buys) && sells == old(sells) && claims == old(claims)
      ensures
        var g := old(games)[k];
        if g.times.timeStarted.None? then r == NoStartTime && request == None && games == old(games)
        else if ElapsedMinutes(now, g.times.timeStarted.value) < GAME_MINUTES as real then
          r == NotDue && request == None && games == old(games)
        else if !HasBuyer(buys, g.id) || price.Err? then
          && r == (if !HasBuyer(buys, g.id) then EndedWithoutBuyers else Aborted(price.error))
          && request == None
          && games == old(games)[k := g.(times := g.times.(timeEnded := Some(now)))]
        else
          var winner := SettleWinner(g.times.priceStart, price.value.sol);
          && request == Some(SettleRequestOf(g, winner))
          && if settlement.SendFatal? || !settlement.confirmed then
               && r == Aborted(LedgerFailure(if settlement.SendFatal? then settlement.reason
                                             else SETTLEMENT_UNCONFIRMED))
               && games == old(games)[k := g.(times := g.times.(timeEnded := Some(now)))]
             else
               && r == Settled(winner, settlement.signature)
               && games == old(games)[k := g.(times := g.times.(timeEnded := Some(settledAt), priceEnd := price.value.sol,
                                                                 usdEnd := price.value.usd),
                                              books := MergeBooks(g.books, winner))]
    {
      request := None;
      var game := games[k];
      if game.times.timeStarted.None? {
        return NoStartTime, request;
      }
      var elapsed := ElapsedMinutes(now, game.times.timeStarted.value);
      if elapsed < GAME_MINUTES as real {
        return NotDue, request;
      }
      game := game.(times := game.times.(timeEnded := Some(now)));
      SaveRow(k, game);
      var hasBuyer := exists s | s in buys :: buys[s].gameId == game.id;
      if !hasBuyer {
        return EndedWithoutBuyers, request;
      }
      if price.Err? {
        return Aborted(price.error), request;
      }
      var isOverWinner := price.value.sol > game.times.priceStart;
      var winner := if isOverWinner then Over else Under;
      var keys := game.keys;
      request := Some(SettlementRequest(
        if isOverWinner then keys.overPot else keys.underPot,
        if isOverWinner then keys.overMint else keys.underMint,
        if isOverWinner then keys.underPot else keys.overPot,
        if isOverWinner then keys.underMint else keys.overMint,
        "goatSettle_" + NatToString(game.id)));
      if settlement.SendFatal? {
        return Aborted(LedgerFailure(settlement.reason)), request;
      }
      // the confirmation wait of the settlement transaction is not caught
      if !settlement.confirmed {
        return Aborted(LedgerFailure(SETTLEMENT_UNCONFIRMED)), request;
      }
      MergeKeepsBalanced(game.books, winner);
      game := ApplySettlement(game, winner, settledAt, price.value);
      SaveRow(k, game);
      return Settled(winner, settlement.signature), request;
    }
  }
}
