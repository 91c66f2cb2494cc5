# goatarena_api — a Dafny model of the over/under pot engine

goatarena_api runs a pari-mutuel game on a memecoin's price. It is played on Solana. A game lasts one hour from its start:

- **Buying.** A player sends SOL to the game's *over* pot or its *under* pot. The engine mints the player claim tokens of that side, priced at the side's current token price.
- **Selling.** Before the hour is up, a player can burn claim tokens back to the pot:
  - The player is paid their value, less a 1% fee and a progressive tax that grows with the time elapsed.
  - Two thirds of the tax is moved to the other pot.
  - Both token prices are then set again from the pots.
- **Settlement.** When the hour is up, a scheduler settles the game: the side that won the price bet receives the loser's pot.
- **Redeeming.** Holders of the winning side burn their tokens and are paid their pro-rata share of the claimable pot.

HTTP handlers turn a submitted transaction signature into these engine calls. Three account watchers do the same for every transfer that arrives at a game's pots (buys), at the pots' token accounts (sells) and at the same token accounts after the game ended (redeems).

The model is one Dafny module per source file, plus two shared modules:

| module | file | models |
|---|---|---|
| `Types` | types.dfy | Shared types. JavaScript's `Math.floor`, `Math.round` and `toFixed(0)` on exact reals. The minute difference of two instants. |
| `Chain` | chain.dfy | The parsed instructions the ledger returns, the instructions the engine builds, and the final outcomes of sending a transaction or minting. |
| `Accounting` | accounting.dfy | The accounting columns of a game (`Books`) and the pure arithmetic of app/services/pot.ts: `calculate`, buy fee, sell quote with its tax, repricing, redeem value, settlement winner and pot merge. |
| `Pot` | pot.dfy | app/services/pot.ts. `PotService` is a class holding the games table, the buy/sell/claim record tables, the next row id and the in-flight `processing` sets. `start`, `buy`, `sell`, `redeem` and `settle` are methods that change those fields. |
| `PotProperties` | pot_properties.dfy | What `buy`, `sell` and `redeem` promise, stated on the plan functions `PotService` is proved against. |
| `Helpers` | helpers.dfy | app/chain/solana/helpers.ts: the instruction lists of `transfer` and `transferToMany`, the three-attempt history fetch, and the extraction of SOL and token transfers from a parsed transaction. |
| `Token` | token.dfy | app/chain/solana/token.ts: the instruction lists of mint creation and settlement, the token balance read, and the transfer and burn validations. |
| `GamesController` | games_controller.dfy | app/controllers/games_controller.ts: `startWithCustomContract`, `buy`, `sell` and `redeem`. |
| `Listeners` | listeners.dfy | What the providers share. The game query each tick runs. The subscription registry (a class whose state is the handle→watch and game→pair maps). The rule that turns a watched address's transactions into engine calls. |
| `SettlementProvider`, `MintProvider`, `ReceiveProvider`, `RedeemProvider` | settlement_provider.dfy, mint_provider.dfy, receive_provider.dfy, redeem_provider.dfy | The four providers under providers/. |

Everything the code reads from outside is a parameter of the operation: the ledger, the database's answers, the price oracle, the clock and randomness. This covers:

- the parsed transaction of a signature;
- the account owners and mints;
- the final outcome of a send or a mint;
- the current instant;
- freshly generated key pairs;
- the associated-token-account derivation `ata(mint, owner)`.

The engine's tables are fields of `PotService`. The one game row that an operation loads, changes and saves is a local value (`GameRow`). Retries of ledger calls that fail transiently become a `Retry` outcome that leaves the state unchanged. The results of un-awaited engine calls become returned lists (`Dispatched`, `DueIds`).

Where the code and its description differ, the model follows the code:

- `buy` takes the newest game whether or not it ended.
- `sell` does not update `claimableWinningPotInSol`.
- The redeem value is not rounded.
- On an unchanged price, `settle` declares *under* the winner and `redeem` pays *over* (`Accounting.WinnersDisagreeOnlyOnTie`).
- The handlers match transfers against games whose `timeEnded` is **not** null.
- `start` never stores `initiatorSignature`, so the handler's "Signature has been initiated" check never fires (`GamesController.NeverInitiated`).

## Model

| member | source | states |
|---|---|---|
| Types.MathRound | app/services/pot.ts:397-406 | `Math.round` yields the integer within half of its argument, halves rounding up |
| Types.ToFixed0 | app/services/pot.ts:144 | `Number(x.toFixed(0))` is the nearest integer with halves away from zero, and keeps the sign |
| Types.ElapsedMinutes | app/services/pot.ts:567-571 | the minute difference is below 60 exactly when fewer than 60·60000 ms elapsed, and non-negative exactly when now is not before the start |
| Accounting.CalculateWith | app/services/pot.ts:137-145 | `calculate` returns the `toFixed(0)` rounding of lamports·0.99/10^9 over price/10^decimals, times 10^decimals, within half a unit |
| Accounting.CalculateExpression | app/services/pot.ts:137-145 | with 9 decimals, the floating expression of `calculate` equals 99·lamports·10^9 / (100·price) |
| Accounting.CalculateIsNearest | app/services/pot.ts:137-145 | the tokens minted for a buy are the nearest integer to 99·lamports·10^9/(100·price), and never negative |
| Accounting.CalculateMonotone | app/services/pot.ts:137-145 | paying more lamports at the same price never mints fewer tokens |
| Accounting.InitialBooksEmpty | app/services/pot.ts:88-125 | a started game has empty pots and fees, no tokens in circulation, both prices at 0.001 SOL, and balanced books |
| Accounting.BuyFee | app/services/pot.ts:247 | the buy fee is 1% of the lamports rounded to the nearest lamport |
| Accounting.BuyBooksEffect | app/services/pot.ts:223-252 | a buy adds the lamports to its side's pot and to the total, mints `calculate` tokens of that side only, adds the fee, sets claimable to total minus fees, and changes nothing else |
| Accounting.BuyKeepsBalanced | app/services/pot.ts:223-252 | a buy keeps over pot + under pot = total pot |
| Accounting.BuyGrowsSupply | app/services/pot.ts:223-252 | a buy never decreases the circulating tokens of either side |
| Accounting.TaxWithinHour | app/services/pot.ts:355-373 | the progressive tax is non-negative after the start and at most 99% within the hour |
| Accounting.QuoteSellValuation | app/services/pot.ts:355-373 | the sell quote values the tokens at price·amount/10^9, takes a rounded 1% fee, and floors the payout (1−tax)·nett and redistribution 2·tax·nett/3 |
| Accounting.QuoteAtStart | app/services/pot.ts:355-373 | selling at the start pays the whole nett and redistributes nothing |
| Accounting.QuoteNettSign | app/services/pot.ts:355-373 | at a non-negative price the nett value is non-negative |
| Accounting.QuoteMonotoneInTime | app/services/pot.ts:355-373 | selling later never pays more and never redistributes less |
| Accounting.QuotesOrdered | app/services/pot.ts:372-373 | of two quotes with one nett, the one with the larger tax pays no more and redistributes no less |
| Accounting.QuoteSharesWithinNett | app/services/pot.ts:355-373 | payout and redistribution together never exceed the nett value |
| Accounting.RepriceIsNearest | app/services/pot.ts:393-406 | a side with tokens in circulation is repriced to the nearest integer of pot/outstanding·10^9; otherwise its price is kept |
| Accounting.SellBooksEffect | app/services/pot.ts:375-406 | a sell burns the amount on its side, moves the redistribution to the other pot, takes the redistribution and the 5000-lamport fee from its own pot, recomputes the total, adds the fee, keeps claimable, and reprices both sides |
| Accounting.SellRebalances | app/services/pot.ts:383-391 | after a sell the books balance and the total is 5000 lamports lower |
| Accounting.SellLegs | app/services/pot.ts:424-431 | the payout sends the redistribution to the other pot and the payout less the network fee to the seller, in that order |
| Accounting.RedeemWinner | app/services/pot.ts:506 | redeem pays the under side exactly when the end price is strictly below the start price |
| Accounting.RedeemBooksEffect | app/services/pot.ts:536-550 | a redeem takes the pro-rata value from claimable, burns the amount on the winning side, and changes nothing else |
| Accounting.RedeemKeepsShare | app/services/pot.ts:536-550 | after a redeem each remaining token still claims the same share: claimable/outstanding is unchanged |
| Accounting.ProRata | app/services/pot.ts:536-550 | the real identity behind the pro-rata share |
| Accounting.RedeemWithinClaimable | app/services/pot.ts:536-550 | redeeming no more than the circulating supply pays between 0 and the claimable amount and leaves claimable non-negative |
| Accounting.SettleWinner | app/services/pot.ts:592 | settle declares over the winner exactly when the price strictly increased |
| Accounting.WinnersDisagreeOnlyOnTie | app/services/pot.ts:506 | settle and redeem pick the same winner exactly when the price changed; on a tie settle picks under and redeem pays over |
| Accounting.MergeBooksEffect | app/services/pot.ts:632-642 | settlement moves both pots to the winner's pot, empties the loser's pot, and keeps every other column |
| Accounting.MergeKeepsBalanced | app/services/pot.ts:632-642 | settlement keeps the books balanced |
| Pot.LatestGame | app/services/pot.ts:191-195 | the newest game by creation time (of the active ones when asked), and none exactly when there is no such game |
| Pot.IndexOfId | app/services/pot.ts:485 | the position of the row with that id, none exactly when no row has it |
| Pot.ApplyBuy | app/services/pot.ts:223-252 | the saved row is the loaded row with the buy's books |
| Pot.ApplySell | app/services/pot.ts:375-406 | the saved row is the loaded row with the sell's books |
| Pot.ApplyRedeem | app/services/pot.ts:536-550 | the claim value is the pro-rata value and the saved row has the redeem's books |
| Pot.ApplySettlement | app/services/pot.ts:592-642 | the saved row is ended now, records the end price and has the merged books |
| Pot.Processing.constructor | app/services/pot.ts:147-151 | the three in-flight sets start empty |
| Pot.PotService.constructor | app/services/pot.ts:147-151 | the engine starts with empty tables and empty in-flight sets |
| Pot.PotService.SaveRow | app/services/pot.ts:129 | saving a row replaces that row and changes no other table |
| Pot.PotService.CommitBuy | app/services/pot.ts:258-261 | the buy record and the row are saved together |
| Pot.PotService.CommitSell | app/services/pot.ts:449-450 | the sell record and the row are saved together |
| Pot.PotService.CommitClaim | app/services/pot.ts:560-561 | the claim record and the row are saved together |
| Pot.PotService.Start | app/services/pot.ts:62-135 | fails with the first error of `StartGate`, in the source's order, with no table changed: no transaction for the signature, a malformed system instruction, no first transfer into the master wallet meeting the threshold, no metadata, no price, a failed mint creation. Otherwise it succeeds. The row appended gets the next id and the initiator of that transfer. It takes the token's metadata and price, starts now, has no end time and no initiator signature, and has the initial books. The instruction list is the mint-creation list |
| Pot.PotService.Buy | app/services/pot.ts:171-284 | the master wallet and an in-flight signature are skipped. Otherwise the outcome and the mint request are those of the buy plan. A completed buy replaces the newest game and records the buy. Anything else changes no table, and the in-flight set is restored |
| Pot.PotService.BuyInTransaction | app/services/pot.ts:183-268 | the body of `buy`'s transaction: outcome and mint request as the buy plan says, and the games and buy tables change only on a completed buy |
| Pot.PotService.Sell | app/services/pot.ts:305-471 | as `buy` for sells: skip rules, sell plan, payout request; a completed sell replaces the newest active game and records the sell |
| Pot.PotService.SellInTransaction | app/services/pot.ts:317-457 | the body of `sell`'s transaction against the sell plan |
| Pot.PotService.Redeem | app/services/pot.ts:475-562 | an unknown id fails with row-not-found; otherwise the redeem of that row commits as the claim rule says |
| Pot.PotService.RedeemRow | app/services/pot.ts:487-562 | refusals in the source's order, a fatal payout fails, and a paid claim burns the tokens, lowers claimable, records the claim under the burn signature and pays value − 5000 from the winning pot |
| Pot.PotService.Settle | app/services/pot.ts:564-651 | no start time or fewer than 60 minutes: nothing changes and nothing is sent. No buyer or a failed price: the game only ends, nothing is sent. Otherwise the settlement transaction is requested with the winner's pot and mint, the loser's pot and mint and the memo `goatSettle_<id>`. If it fails or its confirmation throws, the game only ends. Otherwise it ends at the second clock reading, with the end price and the pots merged to the winner |
| Pot.SettleRequestOf | app/services/pot.ts:590-598 | the settlement keys are the winner's pot and mint and the other side's pot and mint, so together they are the game's two pots and two mints, under the memo `goatSettle_<id>` |
| Pot.SettleMemoDistinct | app/services/pot.ts:598 | two distinct games settle under distinct memos |
| Types.NatToString | app/services/pot.ts:598 | the decimal numeral of an id is non-empty and made of digits |
| Types.DecimalRoundTrip | app/services/pot.ts:598 | reading the numeral of a number back gives the number |
| Types.NatToStringInjective | app/services/pot.ts:598 | distinct numbers have distinct numerals |
| PotProperties.BuyStops | app/services/pot.ts:185-207 | a recorded signature and a missing game each fail with their error, an owner that is one of the newest game's own keys is skipped, and a mint is requested exactly when the gates pass |
| PotProperties.BuyDone | app/services/pot.ts:191-256 | a completed buy is on the newest game, adds the lamports and the minted tokens, sets claimable, and records owner, side, amounts and the mint signature |
| PotProperties.BuyNoReplay | app/services/pot.ts:185-189 | once a buy is recorded, the same signature is refused |
| PotProperties.SellStops | app/services/pot.ts:319-341 | the refusals of `sell` in order, and a payout requested exactly when the gates pass |
| PotProperties.SellDone | app/services/pot.ts:325-447 | a completed sell is on the newest active game, keeps claimable, records the burn and payout signatures and the payout, and pays the two legs |
| PotProperties.SellNoReplay | app/services/pot.ts:319-323 | once a sell is recorded, the same burn signature is refused |
| PotProperties.RedeemRefusals | app/services/pot.ts:487-534 | `redeem` refuses in order: game not ended, less than one lamport claimable, recorded signature, no winning tokens, burn not valid; it pays exactly when none applies |
| PotProperties.RedeemNoReplay | app/services/pot.ts:493-497 | once a claim is paid, the same burn signature is refused whatever the burn validation says |
| Helpers.TransferInstructions | app/chain/solana/helpers.ts:55-105 | the optional compute-limit, compute-price and memo instructions, then one transfer of the amount, less the fee when asked |
| Helpers.TransferToManyInstructions | app/chain/solana/helpers.ts:226-262 | the same prefix, then one transfer per recipient in order |
| Helpers.Collect | app/chain/solana/helpers.ts:347-374 | one entry per distinct signature whose transaction exists, each with its transaction |
| Helpers.CollectCovers | app/chain/solana/helpers.ts:347-374 | the entries cover exactly the fetched signatures whose transaction exists |
| Helpers.GetParsedTransactionsFromAccount | app/chain/solana/helpers.ts:323-388 | the first of three attempts that succeeds gives the entries, reversed when asked; three failures raise the last error |
| Helpers.SolTransfersOfAppend | app/chain/solana/helpers.ts:390-417 | the SOL extraction keeps instruction order |
| Helpers.GetSolTransferInfoFromParsedTransaction | app/chain/solana/helpers.ts:390-417 | succeeds exactly when no system instruction is malformed, and then yields the system transfers in order |
| Helpers.GetTransferSolFromSignature | app/chain/solana/helpers.ts:477-493 | a missing transaction raises signature-not-exists; otherwise the SOL extraction |
| Helpers.GetSourceTransferFromDestination | app/chain/solana/helpers.ts:495-517 | the first transfer into the destination decides: its source and lamports when it meets the threshold, null otherwise or when there is none |
| Helpers.TokenTransfersOfSound | app/chain/solana/helpers.ts:419-475 | every token transfer found comes from a transfer-kind token instruction whose source account exists, with that account's owner and amount |
| Helpers.GetTokenTransferInfoFromParsedTransaction | app/chain/solana/helpers.ts:419-475 | succeeds exactly when every token instruction is well formed, and then yields the token transfers in order |
| Helpers.GetTransferTokenFromSignature | app/chain/solana/helpers.ts:519-535 | a missing transaction raises signature-not-exists; otherwise the token extraction |
| Token.CreateOverUnderTokenInstructions | app/chain/solana/token.ts:46-116 | nine instructions. The payer funds the two pots and creates the two mints with the rent minimum, then initialises both with itself as authority, and creates each pot's associated account. Every mint is created before it is initialised, and initialised before its account |
| Token.CreateOverUnderTokenFundsEachPot | app/chain/solana/token.ts:46-116 | each pot is funded once and each mint created once |
| Token.GetTokenBalance | app/chain/solana/token.ts:446-455 | the UI balance, non-negative, zero when the read fails, and positive exactly when the raw amount is |
| Token.SettlementInstructions | app/chain/solana/token.ts:193-231 | compute price, a burn of each non-zero pot balance, then the loser pot's whole balance to the winner pot, the loser's allocation and the memo |
| Token.ScanTransferAccepts | app/chain/solana/token.ts:280-316 | the transfer validation accepts exactly when a system instruction moves at least the amount from sender to target and no earlier system instruction is malformed |
| Token.ValidateTransferTransaction | app/chain/solana/token.ts:280-316 | no transaction is false; otherwise the scan's verdict |
| Token.ScanBurnAccepts | app/chain/solana/token.ts:318-374 | the burn validation accepts exactly when a token instruction from the sender's associated account of the mint moves exactly the amount and no earlier candidate throws |
| Token.ScanBurnSkipsNonCandidates | app/chain/solana/token.ts:318-374 | instructions without parsed token info never affect the verdict |
| Token.ValidateBurnTransaction | app/chain/solana/token.ts:318-374 | no transaction is false; otherwise the scan over the sender's associated account |
| GamesController.ErrorReply | app/controllers/games_controller.ts:180-202 | the domain errors are answered 400 with the error, all others 500 |
| GamesController.StartErrorReply | app/controllers/games_controller.ts:112-124 | invalid-contract and route-not-found are answered 400, all others 500 |
| GamesController.Receipts | app/controllers/games_controller.ts:160-179 | the receipts are empty exactly when no engine call returned a value |
| GamesController.ReceiptsInOrder | app/controllers/games_controller.ts:160-179 | each receipt reports one call that returned a value, in call order |
| GamesController.SolMoves | app/controllers/games_controller.ts:140-151 | SOL transfers are matched by source, destination and lamports |
| GamesController.TokenMoves | app/controllers/games_controller.ts:218-230 | token transfers are matched by source account, destination and amount |
| GamesController.MatchedComplete | app/controllers/games_controller.ts:133-152 | every transfer into a pot of an ended game yields a candidate with that game, owner, side and amount |
| GamesController.MatchedSound | app/controllers/games_controller.ts:133-152 | every candidate comes from such a transfer |
| GamesController.MatchedInComplete | app/controllers/games_controller.ts:136-151 | within one game, every transfer into one of its pots yields its candidate |
| GamesController.MatchedInSound | app/controllers/games_controller.ts:136-151 | within one game, every candidate comes from a transfer into one of its pots |
| GamesController.MatchedEmpty | app/controllers/games_controller.ts:154-158 | there is no candidate exactly when no transfer goes into a pot of an ended game |
| GamesController.MatchTransfers | app/controllers/games_controller.ts:133-152 | the matching loop yields the matched candidates |
| GamesController.NeverInitiated | app/services/pot.ts:88-125 | no stored game carries an initiator signature, so the signature check never rejects |
| GamesController.StartWithCustomContract | app/controllers/games_controller.ts:83-125 | a contract with an active game is refused with nothing changed. Otherwise, when `StartGate` names an error, the reply is that error classified (400 for an invalid contract, 500 for a missing or malformed transaction and the rest) with nothing changed. When it names none, the created game is appended and returned with the next id, the contract and the mint-creation signature. There is never a signature-initiated refusal |
| GamesController.BuyBooksOnce | app/controllers/games_controller.ts:160-179 | of the calls for one signature, at most one books a buy: every later call is skipped or refused as a recorded signature |
| GamesController.BuyOne | app/controllers/games_controller.ts:163-168 | one call of the loop is one `BuyStep`: the master wallet and an in-flight signature are skipped. Otherwise the outcome is the buy plan's, and the newest game is replaced and the buy recorded exactly when it completes |
| GamesController.BuyEach | app/controllers/games_controller.ts:160-179 | one engine call per candidate, in order, each a buy step from the tables the previous one left. It stops at the first thrown error, whose reply it is; otherwise the reply is the receipts. The tables end as the last step left them |
| GamesController.Buy | app/controllers/games_controller.ts:127-203 | a missing transaction is 400, a malformed one 500, no candidate 400 with nothing changed. Otherwise the candidates of the ended games are bought in order, as `BuyEach` states |
| GamesController.SellBooksOnce | app/controllers/games_controller.ts:240-257 | of the calls for one burn signature, at most one books a sell |
| GamesController.SellOne | app/controllers/games_controller.ts:241-246 | one call of the loop is one `SellStep`: as `BuyOne`, with the sell plan and the newest active game |
| GamesController.SellEach | app/controllers/games_controller.ts:240-257 | as `BuyEach`, for sells |
| GamesController.Sell | app/controllers/games_controller.ts:205-280 | as `Buy`, over the token transfers, as `SellEach` states |
| GamesController.RedeemReply | app/controllers/games_controller.ts:318-335 | when every redeem call succeeds the reply is an empty list |
| GamesController.RedeemPaysOnce | app/controllers/games_controller.ts:318-335 | of the calls for one burn signature, every call after a paid claim fails |
| GamesController.RedeemCallsAtMostTwice | app/controllers/games_controller.ts:318-335 | so a redeem request makes at most two engine calls |
| GamesController.RedeemOne | app/controllers/games_controller.ts:319-324 | one call of the loop is one `RedeemStep`: an unknown game fails with row-not-found. Otherwise the claim rule applies on that row, and an error changes nothing |
| GamesController.RedeemEach | app/controllers/games_controller.ts:318-335 | one redeem per candidate, in order, each a redeem step from the tables the previous one left, stopping at the first error, whose reply it is |
| GamesController.Redeem | app/controllers/games_controller.ts:282-358 | as `Sell`, with redeem calls whose success answers an empty list, as `RedeemEach` states |
| Listeners.Select | providers/mint_provider.ts:45-46 | the query keeps exactly the games that pass its filter |
| Listeners.SelectDistinct | providers/mint_provider.ts:45-46 | a query of a table with distinct ids has distinct ids |
| Listeners.UnsubscribedKeeps | providers/mint_provider.ts:118-121 | removing a game's two handles keeps every other open watch |
| Listeners.RegisterConsistent | providers/mint_provider.ts:118-126 | registering a game keeps the registry consistent and opens exactly two fresh handles watching its two addresses |
| Listeners.RegisterKeepsOthers | providers/mint_provider.ts:118-126 | registering a game keeps every watch of the other games |
| Listeners.RegisterKeepsPair | providers/mint_provider.ts:118-126 | registering a game keeps both watches of another game |
| Listeners.RegisteredAllConsistent | providers/mint_provider.ts:49-127 | a tick's registrations keep the registry consistent |
| Listeners.RegisteredAllKeeps | providers/mint_provider.ts:49-127 | a tick adds exactly the queried game ids and keeps the pairs of the others |
| Listeners.RegisteredAllWatches | providers/mint_provider.ts:49-127 | after a tick every queried game is watched on both of its addresses |
| Listeners.ClosedConsistent | providers/mint_provider.ts:134-143 | shutdown closes every handle and keeps the game→pair map |
| Listeners.Registry.constructor | providers/mint_provider.ts:16 | the registry starts with no listeners |
| Listeners.Registry.RegisterEach | providers/mint_provider.ts:49-127 | the registry's new state is the registrations of the queried games in order |
| Listeners.Registry.RegisterOne | providers/mint_provider.ts:118-126 | one game's old handles are removed and its two new ones opened |
| Listeners.Registry.Shutdown | providers/mint_provider.ts:139-142 | every handle is removed |
| Listeners.Newest | providers/mint_provider.ts:74-78 | the cursor query finds the newest matching record, and none exactly when no record matches |
| Listeners.SolArrivals | providers/mint_provider.ts:86-90 | the SOL transfers of an entry, by source, destination and lamports |
| Listeners.TokenArrivals | providers/receive_provider.ts:102-108 | the token transfers of an entry, by owner, destination and amount |
| Listeners.Decode | providers/mint_provider.ts:86-87 | an entry decodes exactly when its extraction succeeds, and a failure is a malformed instruction |
| Listeners.CallsForSound | providers/mint_provider.ts:89-110 | each engine call comes from a transfer into the watched address |
| Listeners.CallsForComplete | providers/mint_provider.ts:89-110 | each transfer into the watched address gives its engine call |
| Listeners.DispatchSound | providers/mint_provider.ts:86-112 | each call dispatched comes from a transfer into the watched address in a decoded entry |
| Listeners.DispatchComplete | providers/mint_provider.ts:86-112 | when every entry decodes, every transfer into the watched address is dispatched and nothing fails |
| Listeners.DispatchEnds | providers/mint_provider.ts:86-112 | the callback ends with an error exactly when some entry fails to decode, and that error is a malformed instruction |
| Listeners.DispatchStep | providers/mint_provider.ts:86-112 | one entry of the callback: a failed decode ends it, a decoded entry adds its calls before the rest |
| Listeners.CallsOfEntry | providers/mint_provider.ts:89-110 | the loop over one entry's transfers yields its engine calls |
| Listeners.EntryCalls | providers/mint_provider.ts:86-110 | one entry's calls, or a malformed instruction when it does not decode |
| Listeners.DispatchEntries | providers/mint_provider.ts:86-112 | the loop over the fetched entries yields the dispatch |
| SettlementProvider.SkippedWindow | providers/settlement_provider.ts:49-57 | a game is skipped exactly when it started less than an hour ago |
| SettlementProvider.SkipAgreesWithSettle | providers/settlement_provider.ts:49-57 | a skipped game is one `settle` finds not due, and of the dispatched ones `settle` finds not due exactly those starting in the future |
| SettlementProvider.DueIdsExact | providers/settlement_provider.ts:44-63 | a tick dispatches exactly the queried games outside the skip window |
| SettlementProvider.TickStep | providers/settlement_provider.ts:49-63 | one game of a tick keeps the tick's invariant, and a dispatched game was not settling |
| SettlementProvider.Scheduler.constructor | providers/settlement_provider.ts:9-10 | nothing is settling and no interval is set |
| SettlementProvider.Scheduler.Ready | providers/settlement_provider.ts:32-41 | the interval is set unless the role is api or settlement is disabled |
| SettlementProvider.Scheduler.Tick | providers/settlement_provider.ts:43-69 | a tick dispatches the due ids of the active games not settling, once each, and adds them to the settling set; a game already settling is skipped |
| SettlementProvider.Scheduler.Finish | providers/settlement_provider.ts:65-68 | a completed settle call releases its id |
| SettlementProvider.Scheduler.Shutdown | providers/settlement_provider.ts:76-80 | the interval is cleared |
| SettlementProvider.NoDoubleDispatch | providers/settlement_provider.ts:44-63 | while a tick's settle calls are pending, no later tick dispatches their games again |
| MintProvider.Minter.constructor | providers/mint_provider.ts:16-17 | no listeners and no interval |
| MintProvider.Minter.Ready | providers/mint_provider.ts:40-44 | the interval is set unless the role is api |
| MintProvider.Minter.Tick | providers/mint_provider.ts:44-128 | each tick registers the active games not yet listened to, watching both pots |
| MintProvider.Minter.Shutdown | providers/mint_provider.ts:134-143 | the interval is cleared and every handle removed |
| MintProvider.OnAccountChange | providers/mint_provider.ts:64-112 | the cursor is the newest buy of the game and side. The history up to it is fetched, and a buy is dispatched for every SOL transfer into the pot |
| ReceiveProvider.Receiver.constructor | providers/receive_provider.ts:17-18 | no listeners and no interval |
| ReceiveProvider.Receiver.Ready | providers/receive_provider.ts:41-43 | the interval is set unless the role is api |
| ReceiveProvider.Receiver.Tick | providers/receive_provider.ts:45-146 | each tick registers the active games not yet listened to, watching both pots' token accounts |
| ReceiveProvider.Receiver.Shutdown | providers/receive_provider.ts:152-161 | the interval is cleared and every handle removed |
| ReceiveProvider.OnAccountChange | providers/receive_provider.ts:82-130 | the cursor is the payout signature of the newest sell of the game and side, and a sell is dispatched for every token transfer into the token account |
| RedeemProvider.Redeemer.constructor | providers/redeem_provider.ts:17-18 | no listeners and no interval |
| RedeemProvider.Redeemer.Ready | providers/redeem_provider.ts:40-43 | the interval is set unless the role is api |
| RedeemProvider.Redeemer.Tick | providers/redeem_provider.ts:45-150 | each tick registers the ended games with a positive claimable pot not yet listened to |
| RedeemProvider.Redeemer.Shutdown | providers/redeem_provider.ts:155-164 | the interval is cleared and every handle removed |
| RedeemProvider.Rejection | database/migrations/1736236512573_create_claim_transactions_table.ts:7-33 | a query is accepted exactly when every filter column exists; otherwise it is rejected naming a missing column |
| RedeemProvider.ClaimCursorRejected | providers/redeem_provider.ts:93-97 | the cursor query on game and side is rejected; on the game alone it is accepted |
| RedeemProvider.OnAccountChangeAsWritten | providers/redeem_provider.ts:83-135 | as written, the callback ends at the cursor query and dispatches no redeem |
| RedeemProvider.OnAccountChange | providers/redeem_provider.ts:83-135 | corrected: the cursor is the newest claim of the game, and a redeem is dispatched for every token transfer into the token account |
| RedeemProvider.AsWrittenLosesRedeems | providers/redeem_provider.ts:93-131 | every transfer the corrected callback turns into a redeem is missing from the callback as written |

## Left out

- I/O, the ledger, the database, the price oracle, the token metadata read and the clock are parameters; logging is left out. The database transaction of `buy` and `sell` is modelled as their atomic effect on the tables.
- Retries: `transfer`, `transferToMany`, the settlement transaction and minting retry forever on transient failures. The model takes each send's final outcome as a parameter, and a transient failure inside `buy`/`sell` as the `Retry` outcome that leaves every table unchanged. The 100 ms and 200 ms sleeps are left out.
- The un-awaited engine calls of the watchers and `finally` of the scheduler are returned lists (`Dispatched`, `DueIds`) plus the completion callback `Scheduler.Finish`. Interleavings of concurrent callbacks are not modelled. So the branch that removes an already registered game's handles holds, but is reached only when two ticks overlap.
- SettlementProvider.Scheduler.Tick: the code reads the clock once per game; the model uses one instant for the whole tick.
- The `until` cursor semantics of the ledger's signature history: `history(cursor)` is the answer to the fetch with that cursor.
- The associated-token-account derivation and the token-account owners and mints are parameters (`ata`, `owners`, `accountMints`).
- Key pair generation in `start`: the pots' and mints' keys are the parameter `keys`. Private keys and their encryption are not modelled.
- The receipts omit the database id of the stored record (`transactionId`). The memo texts and the compute budget of payouts are constants. The memo of a payout is a parameter of `Helpers.TransferInstructions` only.
- IEEE double arithmetic is modelled with exact reals. `Math.floor`, `Math.round` and `toFixed(0)` are modelled exactly on those reals. Integer columns are unbounded.
- A buy at a non-positive token price. At price 0 the code divides by zero and asks for a non-finite mint amount. At a negative price it asks for a finite negative amount. The mint refuses either, and the model treats both as one fatal chain error that leaves the tables unchanged.
- Helpers.GetSolTransferInfoFromParsedTransaction: a system transfer without a `lamports` field is kept by the code with a NaN amount. The model instead fails the extraction with a malformed instruction (`SolMalformed`), so it does not capture what later comparisons do with NaN.
- Helpers.GetTokenTransferInfoFromParsedTransaction: a token transfer without an amount yields NaN in the code. The model reports a malformed instruction.
- `getTokenBalance` answers the UI amount, which the settlement transaction burns as a raw amount. The model keeps this as written (`Token.SettlementInstructions`).
- Pot.PotService.Start: the games table declares `initiator_signature` not nullable (database/migrations/1736236400567_create_games_table.ts:10), and `start` never sets it. Whether the save at app/services/pot.ts:129 then fails depends on the database's strictness, which is not part of this model. The model has the save succeed.
- The paginated game list, `fighting`, `show`, `redeemables`, `positions`, `closeAccount`, `createToken`, `getTokenMetadata`, `getTokenPrice` and the Jupiter swap code are outside the modelled core.

## Findings

| source | as written | input that shows it | evidently intended | confidence | as-written member | corrected member |
|---|---|---|---|---|---|---|
| providers/redeem_provider.ts:93-97 | the cursor query filters `claim_transactions` on a `side` column, which the table created by database/migrations/1736236512573_create_claim_transactions_table.ts:7-33 does not have, so the query is rejected and the callback ends before any redeem | any account change on a watched token account of an ended game, e.g. one burn transfer into it | the cursor is the newest claim of the game, filtered on `game_id` only (a claim is always of the winning side) | medium: a later migration not in this model could add the column; not executed | RedeemProvider.OnAccountChangeAsWritten, RedeemProvider.AsWrittenLosesRedeems | RedeemProvider.OnAccountChange |
