/** app/controllers/games_controller.ts: the HTTP handlers that start a game
    and turn the transfers of a submitted signature into engine calls. The
    ledger's answers and the outcomes of the engine's ledger calls are
    parameters; the engine is a `PotService`. */
module GamesController {
  import opened Types
  import opened Chain
  import opened Pot
  import Helpers

  // ---------------------------------------------------------------------------
  // Replies
  // ---------------------------------------------------------------------------

  /** What one engine call that returned a value is reported as: the game and
      the mint or payout signature. */
  datatype Receipt = Receipt(gameId: nat, signature: Signature)

  /** Why a request is answered with 400. */
  datatype Reason =
    | GameIsOnFight
    | SignatureHasBeenInitiated
    | NoValidTransfer
    | Raised(error: Error)
  {
    /** The fixed messages of the handlers. */
    function Message(): string
      requires !Raised?
    {
      match this
      case GameIsOnFight => "Game is on fight"
      case SignatureHasBeenInitiated => "Signature has been initiated"
      case NoValidTransfer => "No valid transfer to over or under address"
    }
  }

  datatype Reply =
    | Created(receipts: seq<Receipt>)
    | GameCreated(started: Started)
    | BadRequest(reason: Reason)
    | InternalServerError(error: Error)

  /** The domain errors the buy, sell and redeem handlers answer with 400. */
  predicate IsDomainError(e: Error)
  {
    e.NoActiveGame? || e.TransactionSignatureAlreadyExists? || e.InvalidTransaction? ||
    e.GameIsNotEnded? || e.NoClaimableSolInGame? || e.ZeroGameTokenSupply? ||
    e.TransactionSignatureNotExists?
  }

  /** The reply of the buy, sell and redeem handlers to a thrown error. */
  function ErrorReply(e: Error): (r: Reply)
    ensures r.BadRequest? <==> IsDomainError(e)
    ensures r.BadRequest? ==> r.reason == Raised(e)
    ensures r.InternalServerError? <==> !IsDomainError(e)
    ensures r.InternalServerError? ==> r.error == e
  {
    if IsDomainError(e) then BadRequest(Raised(e)) else InternalServerError(e)
  }

  /** The reply of the start handler to a thrown error. */
  function StartErrorReply(e: Error): (r: Reply)
    ensures r.BadRequest? <==> e == InvalidContractAddress || e == RouteNotFound
    ensures r.BadRequest? ==> r.reason == Raised(e)
    ensures r.InternalServerError? <==> !(e == InvalidContractAddress || e == RouteNotFound)
    ensures r.InternalServerError? ==> r.error == e
  {
    if e == InvalidContractAddress || e == RouteNotFound then BadRequest(Raised(e)) else InternalServerError(e)
  }

  /** The receipts of the engine calls that returned a value, in call order. */
  function Receipts<R>(outcomes: seq<Outcome<R>>): (r: seq<Receipt>)
    ensures |r| <= |outcomes|
    ensures r == [] <==> forall i :: 0 <= i < |outcomes| ==> !outcomes[i].Done?
  {
    if outcomes == [] then []
    else
      var front := Receipts(outcomes[..|outcomes| - 1]);
      var last := outcomes[|outcomes| - 1];
      assert forall i :: 0 <= i < |outcomes| - 1 ==> outcomes[..|outcomes| - 1][i] == outcomes[i];
      if last.Done? then front + [Receipt(last.game.id, last.signature)] else front
  }

  /** Every receipt is the report of one call that returned a value, and the
      receipts keep the order of the calls. */
  lemma {:induction false} ReceiptsInOrder<R>(outcomes: seq<Outcome<R>>, k: nat)
    requires k < |Receipts(outcomes)|
    ensures exists i :: (
      && 0 <= i < |outcomes| && outcomes[i].Done?
      && Receipts(outcomes)[k] == Receipt(outcomes[i].game.id, outcomes[i].signature)
      && |Receipts(outcomes[..i])| == k)
  {
    var n := |outcomes| - 1;
    var front := outcomes[..n];
    if k < |Receipts(front)| {
      ReceiptsInOrder(front, k);
      var i :| 0 <= i < |front| && front[i].Done? &&
        Receipts(front)[k] == Receipt(front[i].game.id, front[i].signature) && |Receipts(front[..i])| == k;
      assert front[..i] == outcomes[..i];
      assert outcomes[i] == front[i];
    } else {
      assert outcomes[..n] == front;
    }
  }

  // ---------------------------------------------------------------------------
  // Matching transfers against the pots of the ended games
  // ---------------------------------------------------------------------------

  /** A transfer as the matching reads it: source, destination and amount. */
  datatype Move = Move(source: Address, destination: Address, amount: nat)

  /** A matched transfer: the game, the owner, the side and the amount. */
  datatype Candidate = Candidate(gameId: nat, owner: Address, side: Side, amount: nat)

  /** The SOL transfers as moves of their lamports. */
  function SolMoves(ts: seq<Helpers.SolTransfer>): (r: seq<Move>)
    ensures |r| == |ts|
    ensures forall i :: 0 <= i < |ts| ==> r[i] == Move(ts[i].source, ts[i].destination, ts[i].lamports)
  {
    seq(|ts|, i requires 0 <= i < |ts| => Move(ts[i].source, ts[i].destination, ts[i].lamports))
  }

  /** The token transfers as moves from their source token account. */
  function TokenMoves(ts: seq<Helpers.TokenTransfer>): (r: seq<Move>)
    ensures |r| == |ts|
    ensures forall i :: 0 <= i < |ts| ==> r[i] == Move(ts[i].source, ts[i].destination, ts[i].amount)
  {
    seq(|ts|, i requires 0 <= i < |ts| => Move(ts[i].source, ts[i].destination, ts[i].amount))
  }

  /** The move goes into one of the game's two pots. */
  predicate Hits(g: GameRow, t: Move)
  {
    t.destination == g.keys.overPot || t.destination == g.keys.underPot
  }

  /** The entry the handlers push for a move into a pot of `g`. */
  function CandidateOf(g: GameRow, t: Move): Candidate
  {
    Candidate(g.id, t.source, if t.destination == g.keys.overPot then Over else Under, t.amount)
  }

  /** The entries for one game, in transfer order. */
  function MatchedIn(g: GameRow, ts: seq<Move>): seq<Candidate>
  {
    if ts == [] then []
    else
      var last := ts[|ts| - 1];
      MatchedIn(g, ts[..|ts| - 1]) + (if Hits(g, last) then [CandidateOf(g, last)] else [])
  }

  /** The entries for every game whose `timeEnded` is set, game by game in
      table order, each game's in transfer order. */
  function Matched(gs: seq<GameRow>, ts: seq<Move>): seq<Candidate>
  {
    if gs == [] then []
    else
      var last := gs[|gs| - 1];
      Matched(gs[..|gs| - 1], ts) + (if last.times.timeEnded.Some? then MatchedIn(last, ts) else [])
  }

  lemma {:induction false} MatchedInComplete(g: GameRow, ts: seq<Move>, j: nat)
    requires j < |ts| && Hits(g, ts[j])
    ensures CandidateOf(g, ts[j]) in MatchedIn(g, ts)
  {
    var n := |ts| - 1;
    if j < n {
      assert ts[..n][j] == ts[j];
      MatchedInComplete(g, ts[..n], j);
    }
  }

  lemma {:induction false} MatchedInSound(g: GameRow, ts: seq<Move>, c: Candidate)
    requires c in MatchedIn(g, ts)
    ensures exists j :: 0 <= j < |ts| && Hits(g, ts[j]) && c == CandidateOf(g, ts[j])
  {
    var n := |ts| - 1;
    if c in MatchedIn(g, ts[..n]) {
      MatchedInSound(g, ts[..n], c);
      var j :| 0 <= j < n && Hits(g, ts[..n][j]) && c == CandidateOf(g, ts[..n][j]);
      assert ts[..n][j] == ts[j];
    }
  }

  /** Every move into a pot of an ended game yields its entry: that game,
      the move's source as owner, over exactly when it went into the over
      pot, and the move's amount. */
  lemma {:induction false} MatchedComplete(gs: seq<GameRow>, ts: seq<Move>, i: nat, j: nat)
    requires i < |gs| && j < |ts| && gs[i].times.timeEnded.Some? && Hits(gs[i], ts[j])
    ensures Candidate(gs[i].id, ts[j].source, if ts[j].destination == gs[i].keys.overPot then Over else Under,
                      ts[j].amount) in Matched(gs, ts)
  {
    var n := |gs| - 1;
    if i < n {
      assert gs[..n][i] == gs[i];
      MatchedComplete(gs[..n], ts, i, j);
    } else {
      MatchedInComplete(gs[i], ts, j);
    }
  }

  /** Every entry comes from a move into a pot of an ended game. */
  lemma {:induction false} MatchedSound(gs: seq<GameRow>, ts: seq<Move>, c: Candidate)
    requires c in Matched(gs, ts)
    ensures exists i, j :: (
      && 0 <= i < |gs| && 0 <= j < |ts| && gs[i].times.timeEnded.Some?
      && Hits(gs[i], ts[j]) && c == CandidateOf(gs[i], ts[j]))
  {
    var n := |gs| - 1;
    if c in Matched(gs[..n], ts) {
      MatchedSound(gs[..n], ts, c);
      var i, j :| 0 <= i < n && 0 <= j < |ts| && gs[..n][i].times.timeEnded.Some? &&
        Hits(gs[..n][i], ts[j]) && c == CandidateOf(gs[..n][i], ts[j]);
      assert gs[..n][i] == gs[i];
    } else {
      MatchedInSound(gs[n], ts, c);
    }
  }

  /** The handlers answer "no valid transfer" exactly when no move goes into
      a pot of an ended game. */
  lemma {:induction false} MatchedEmpty(gs: seq<GameRow>, ts: seq<Move>)
    ensures Matched(gs, ts) == [] <==>
      forall i, j :: 0 <= i < |gs| && 0 <= j < |ts| && gs[i].times.timeEnded.Some? ==> !Hits(gs[i], ts[j])
  {
    if Matched(gs, ts) != [] {
      MatchedSound(gs, ts, Matched(gs, ts)[0]);
    }
    forall i, j | 0 <= i < |gs| && 0 <= j < |ts| && gs[i].times.timeEnded.Some? && Hits(gs[i], ts[j])
      ensures Matched(gs, ts) != []
    {
      MatchedComplete(gs, ts, i, j);
    }
  }

  /** The nested loops of the handlers that collect the entries: for each
      game with `timeEnded` set, for each move into one of its pots. */
  method MatchTransfers(gs: seq<GameRow>, ts: seq<Move>) returns (validated: seq<Candidate>)
    ensures validated == Matched(gs, ts)
  {
    validated := [];
    for i := 0 to |gs|
      invariant validated == Matched(gs[..i], ts)
    {
      var g := gs[i];
      assert gs[..i + 1][..i] == gs[..i];
      if g.times.timeEnded.Some? {
        for j := 0 to |ts|
          invariant validated == Matched(gs[..i], ts) + MatchedIn(g, ts[..j])
        {
          var t := ts[j];
          assert ts[..j + 1][..j] == ts[..j];
          if t.destination == g.keys.overPot || t.destination == g.keys.underPot {
            validated := validated + [Candidate(g.id, t.source, if t.destination == g.keys.overPot then Over else Under, t.amount)];
          }
        }
        assert ts[..|ts|] == ts;
      }
    }
    assert gs[..|gs|] == gs;
  }

  // ---------------------------------------------------------------------------
  // startWithCustomContract
  // ---------------------------------------------------------------------------

  /** A game of `contract` whose `timeEnded` is null exists. */
  predicate OnFight(gs: seq<GameRow>, contract: Address)
  {
    exists i :: 0 <= i < |gs| && gs[i].times.timeEnded.None? && gs[i].contractAddress == contract
  }

  /** A game initiated by `signature` exists. */
  predicate Initiated(gs: seq<GameRow>, signature: Signature)
  {
    exists i :: 0 <= i < |gs| && gs[i].times.initiatorSignature == Some(signature)
  }

  /** Since `start` never stores an initiator signature, the second check
      of the start handler never rejects. */
  lemma NeverInitiated(gs: seq<GameRow>, nextId: nat, signature: Signature)
    requires forall i :: 0 <= i < |gs| ==> RowInvariant(gs[i], nextId)
    ensures !Initiated(gs, signature)
  {
  }

  /** `startWithCustomContract`: the two table checks, then `start` with its
      errors classified. The parameters after `signature` are those of
      `PotService.Start`. */
  method StartWithCustomContract(pot: PotService, contract: Address, signature: Signature,
                                 parsed: Option<ParsedTransaction>, threshold: nat,
                                 metadata: Option<TokenMetadata>, price: Result<TokenPrice>, keys: GameKeys,
                                 minimum: int, ata: (Address, Address) -> Address, created: Result<Signature>,
                                 now: int)
    returns (reply: Reply)
    requires pot.Valid()
    modifies pot
    ensures pot.Valid()
    ensures reply != BadRequest(SignatureHasBeenInitiated)
    ensures OnFight(old(pot.games), contract) ==> reply == BadRequest(GameIsOnFight) && unchanged(pot)
    ensures !OnFight(old(pot.games), contract) ==>
      var gate := StartGate(pot.master, parsed, threshold, metadata, price, created);
      if gate.Some? then reply == StartErrorReply(gate.value) && pot.games == old(pot.games)
      else
        && reply.GameCreated? && pot.games == old(pot.games) + [reply.started.game]
        && reply.started.signature == created.value
        && reply.started.game.id == old(pot.nextId) && reply.started.game.contractAddress == contract
  {
    var fighting := exists i | 0 <= i < |pot.games| :: pot.games[i].times.timeEnded.None? && pot.games[i].contractAddress == contract;
    if fighting {
      return BadRequest(GameIsOnFight);
    }
    var initiated := exists i | 0 <= i < |pot.games| :: pot.games[i].times.initiatorSignature == Some(signature);
    NeverInitiated(pot.games, pot.nextId, signature);
    if initiated {
      return BadRequest(SignatureHasBeenInitiated);
    }
    var started := pot.Start(contract, signature, parsed, threshold, metadata, price, keys, minimum, ata, created, now);
    if started.Err? {
      return StartErrorReply(started.error);
    }
    return GameCreated(started.value);
  }

  // ---------------------------------------------------------------------------
  // buy, sell, redeem
  // ---------------------------------------------------------------------------

  /** The reply to a run of engine calls that stops at the first thrown
      error: that error's reply, or the receipts of the calls that returned
      a value. */
  function Collected<R>(outcomes: seq<Outcome<R>>): Reply
  {
    if outcomes != [] && outcomes[|outcomes| - 1].Failed? then ErrorReply(outcomes[|outcomes| - 1].error)
    else Created(Receipts(outcomes))
  }

  /** The calls ran in matching order and stopped at the first thrown error. */
  predicate StopsAtFirstError<R>(outcomes: seq<Outcome<R>>, validated: seq<Candidate>)
  {
    && |outcomes| <= |validated|
    && (forall i :: 0 <= i < |outcomes| - 1 ==> !outcomes[i].Failed?)
    && (|outcomes| < |validated| ==> outcomes != [] && outcomes[|outcomes| - 1].Failed?)
  }

  /** The engine tables one kind of call reads and writes: the games table
      and the records of that kind, by signature. */
  datatype Tables<Rec> = Tables(games: seq<GameRow>, records: map<Signature, Rec>)

  /** One `PotService.Buy` call on candidate `c`, from tables `t` to `t'`,
      with `inFlight` the signatures `buy` is already handling. */
  ghost predicate BuyStep(t: Tables<BuyRecord>, t': Tables<BuyRecord>, master: Address, inFlight: set<Signature>,
                          c: Candidate, signature: Signature, now: int, mint: MintOutcome, o: Outcome<BuyRecord>)
  {
    if c.owner == master || signature in inFlight then o == Skipped && t' == t
    else
      && o == BuyPlan(t.games, t.records, c.owner, c.side, signature, c.amount, now, mint)
      && (o.Done? ==>
            && LatestGame(t.games, false).Some?
            && t' == Tables(t.games[LatestGame(t.games, false).value := o.game], t.records[signature := o.record]))
      && (!o.Done? ==> t' == t)
  }

  /** The successive tables and outcomes of the buy calls on `validated`. */
  ghost predicate BuyTrace(states: seq<Tables<BuyRecord>>, outcomes: seq<Outcome<BuyRecord>>, master: Address,
                           inFlight: set<Signature>, validated: seq<Candidate>, signature: Signature, now: int,
                           mint: nat -> FinalMint)
  {
    && |states| == |outcomes| + 1 && |outcomes| <= |validated|
    && forall k :: 0 <= k < |outcomes| ==>
         BuyStep(states[k], states[k + 1], master, inFlight, validated[k], signature, now, mint(k), outcomes[k])
  }

  /** All the matched entries of one signature book at most one buy: the
      buy records are keyed by that signature. */
  lemma {:induction false} BuyBooksOnce(states: seq<Tables<BuyRecord>>, outcomes: seq<Outcome<BuyRecord>>,
                                        master: Address, inFlight: set<Signature>, validated: seq<Candidate>,
                                        signature: Signature, now: int, mint: nat -> FinalMint, i: nat, j: nat)
    requires BuyTrace(states, outcomes, master, inFlight, validated, signature, now, mint)
    requires i < j < |outcomes| && outcomes[i].Done?
    ensures outcomes[j] == Skipped || outcomes[j] == Failed(TransactionSignatureAlreadyExists)
  {
    var k := i + 1;
    while k < j
      invariant i < k <= j && signature in states[k].records
    {
      assert BuyStep(states[k], states[k + 1], master, inFlight, validated[k], signature, now, mint(k), outcomes[k]);
      k := k + 1;
    }
    assert BuyStep(states[j], states[j + 1], master, inFlight, validated[j], signature, now, mint(j), outcomes[j]);
  }

  /** A trace extended by one more call is a trace. */
  lemma BuyTraceExtend(states: seq<Tables<BuyRecord>>, outcomes: seq<Outcome<BuyRecord>>, master: Address,
                       inFlight: set<Signature>, validated: seq<Candidate>, signature: Signature, now: int,
                       mint: nat -> FinalMint, t': Tables<BuyRecord>, o: Outcome<BuyRecord>)
    requires BuyTrace(states, outcomes, master, inFlight, validated, signature, now, mint)
    requires |outcomes| < |validated|
    requires BuyStep(states[|outcomes|], t', master, inFlight, validated[|outcomes|], signature, now,
                     mint(|outcomes|), o)
    ensures BuyTrace(states + [t'], outcomes + [o], master, inFlight, validated, signature, now, mint)
  {
    var states', outcomes' := states + [t'], outcomes + [o];
    forall k | 0 <= k < |outcomes'|
      ensures BuyStep(states'[k], states'[k + 1], master, inFlight, validated[k], signature, now, mint(k), outcomes'[k])
    {
      if k < |outcomes| {
        assert states'[k] == states[k] && states'[k + 1] == states[k + 1] && outcomes'[k] == outcomes[k];
      }
    }
  }

  /** One engine call of the `buy` loop, as one step of its trace. */
  method BuyOne(pot: PotService, c: Candidate, signature: Signature, mint: MintOutcome, now: int)
    returns (o: Outcome<BuyRecord>)
    requires pot.Valid()
    modifies pot, pot.processing
    ensures pot.Valid()
    ensures BuyStep(Tables(old(pot.games), old(pot.buys)), Tables(pot.games, pot.buys), pot.master,
                    old(pot.processing.buys), c, signature, now, mint, o)
    ensures pot.nextId == old(pot.nextId) && pot.sells == old(pot.sells) && pot.claims == old(pot.claims)
    ensures pot.processing.buys == old(pot.processing.buys)
  {
    var request;
    o, request := pot.Buy(c.owner, c.side, signature, c.amount, now, mint);
  }

  /** The loop of `buy` over the matched entries: one engine call each,
      stopping at the first thrown error. */
  method BuyEach(pot: PotService, validated: seq<Candidate>, signature: Signature, mint: nat -> FinalMint, now: int)
    returns (reply: Reply, ghost outcomes: seq<Outcome<BuyRecord>>, ghost states: seq<Tables<BuyRecord>>)
    requires pot.Valid() && validated != []
    modifies pot, pot.processing
    ensures pot.Valid()
    ensures StopsAtFirstError(outcomes, validated) && reply == Collected(outcomes)
    ensures BuyTrace(states, outcomes, pot.master, old(pot.processing.buys), validated, signature, now, mint)
    ensures states[0] == Tables(old(pot.games), old(pot.buys)) && states[|states| - 1] == Tables(pot.games, pot.buys)
    ensures pot.nextId == old(pot.nextId) && pot.sells == old(pot.sells) && pot.claims == old(pot.claims)
    ensures pot.processing.buys == old(pot.processing.buys)
  {
    outcomes, states := [], [Tables(pot.games, pot.buys)];
    var receipts := [];
    for k := 0 to |validated|
      invariant pot.Valid()
      invariant |outcomes| == k && forall i :: 0 <= i < k ==> !outcomes[i].Failed?
      invariant receipts == Receipts(outcomes)
      invariant BuyTrace(states, outcomes, pot.master, old(pot.processing.buys), validated, signature, now, mint)
      invariant states[0] == Tables(old(pot.games), old(pot.buys)) && states[k] == Tables(pot.games, pot.buys)
      invariant pot.nextId == old(pot.nextId) && pot.sells == old(pot.sells) && pot.claims == old(pot.claims)
      invariant pot.processing.buys == old(pot.processing.buys)
    {
      var c := validated[k];
      var bought := BuyOne(pot, c, signature, mint(k), now);
      BuyTraceExtend(states, outcomes, pot.master, old(pot.processing.buys), validated, signature, now, mint,
                     Tables(pot.games, pot.buys), bought);
      outcomes, states := outcomes + [bought], states + [Tables(pot.games, pot.buys)];
      assert outcomes[..k] == outcomes[..|outcomes| - 1];
      if bought.Failed? {
        return ErrorReply(bought.error), outcomes, states;
      }
      if bought.Done? {
        receipts := receipts + [Receipt(bought.game.id, bought.signature)];
      }
    }
    return Created(receipts), outcomes, states;
  }

  /** `buy`: `parsed` is the ledger's answer for the signature and `mint(k)`
      the final outcome of the mint of the k-th engine call. */
  method Buy(pot: PotService, signature: Signature, parsed: Option<ParsedTransaction>,
             mint: nat -> FinalMint, now: int)
    returns (reply: Reply, ghost validated: seq<Candidate>, ghost outcomes: seq<Outcome<BuyRecord>>,
             ghost states: seq<Tables<BuyRecord>>)
    requires pot.Valid()
    modifies pot, pot.processing
    ensures pot.Valid()
    ensures parsed.None? ==> reply == BadRequest(Raised(TransactionSignatureNotExists))
    ensures outcomes == [] ==> unchanged(pot) && unchanged(pot.processing)
    ensures parsed.Some? && (exists i :: 0 <= i < |parsed.value.instructions| && Helpers.SolMalformed(parsed.value.instructions[i])) ==>
      reply == InternalServerError(MalformedInstruction) && outcomes == []
    ensures parsed.Some? && (forall i :: 0 <= i < |parsed.value.instructions| ==> !Helpers.SolMalformed(parsed.value.instructions[i])) ==>
      && validated == Matched(old(pot.games), SolMoves(Helpers.SolTransfersOf(parsed.value.instructions)))
      && (validated == [] ==> reply == BadRequest(NoValidTransfer) && outcomes == [])
      && (validated != [] ==>
            && StopsAtFirstError(outcomes, validated) && reply == Collected(outcomes)
            && BuyTrace(states, outcomes, pot.master, old(pot.processing.buys), validated, signature, now, mint)
            && states[0] == Tables(old(pot.games), old(pot.buys))
            && states[|states| - 1] == Tables(pot.games, pot.buys)
            && pot.sells == old(pot.sells) && pot.claims == old(pot.claims))
  {
    validated, outcomes, states := [], [], [];
    var transfers := Helpers.GetTransferSolFromSignature(parsed);
    if transfers.Err? {
      return ErrorReply(transfers.error), validated, outcomes, states;
    }
    var matched := MatchTransfers(pot.games, SolMoves(transfers.value));
    validated := matched;
    if |matched| == 0 {
      return BadRequest(NoValidTransfer), validated, outcomes, states;
    }
    reply, outcomes, states := BuyEach(pot, matched, signature, mint, now);
  }

  /** One `PotService.Sell` call on candidate `c`, from tables `t` to `t'`,
      with `inFlight` the signatures `sell` is already handling. */
  ghost predicate SellStep(t: Tables<SellRecord>, t': Tables<SellRecord>, master: Address, inFlight: set<Signature>,
                           c: Candidate, signature: Signature, now: int, payout: SendOutcome, o: Outcome<SellRecord>)
  {
    if c.owner == master || signature in inFlight then o == Skipped && t' == t
    else
      && o == SellPlan(t.games, t.records, c.owner, c.side, signature, c.amount, now, payout)
      && (o.Done? ==>
            && LatestGame(t.games, true).Some?
            && t' == Tables(t.games[LatestGame(t.games, true).value := o.game], t.records[signature := o.record]))
      && (!o.Done? ==> t' == t)
  }

  /** The successive tables and outcomes of the sell calls on `validated`. */
  ghost predicate SellTrace(states: seq<Tables<SellRecord>>, outcomes: seq<Outcome<SellRecord>>, master: Address,
                            inFlight: set<Signature>, validated: seq<Candidate>, signature: Signature, now: int,
                            payout: nat -> FinalSend)
  {
    && |states| == |outcomes| + 1 && |outcomes| <= |validated|
    && forall k :: 0 <= k < |outcomes| ==>
         SellStep(states[k], states[k + 1], master, inFlight, validated[k], signature, now, payout(k), outcomes[k])
  }

  /** All the matched entries of one burn signature book at most one sell:
      the sell records are keyed by that signature. */
  lemma {:induction false} SellBooksOnce(states: seq<Tables<SellRecord>>, outcomes: seq<Outcome<SellRecord>>,
                                         master: Address, inFlight: set<Signature>, validated: seq<Candidate>,
                                         signature: Signature, now: int, payout: nat -> FinalSend, i: nat, j: nat)
    requires SellTrace(states, outcomes, master, inFlight, validated, signature, now, payout)
    requires i < j < |outcomes| && outcomes[i].Done?
    ensures outcomes[j] == Skipped || outcomes[j] == Failed(TransactionSignatureAlreadyExists)
  {
    var k := i + 1;
    while k < j
      invariant i < k <= j && signature in states[k].records
    {
      assert SellStep(states[k], states[k + 1], master, inFlight, validated[k], signature, now, payout(k), outcomes[k]);
      k := k + 1;
    }
    assert SellStep(states[j], states[j + 1], master, inFlight, validated[j], signature, now, payout(j), outcomes[j]);
  }

  /** A trace extended by one more call is a trace. */
  lemma SellTraceExtend(states: seq<Tables<SellRecord>>, outcomes: seq<Outcome<SellRecord>>, master: Address,
                        inFlight: set<Signature>, validated: seq<Candidate>, signature: Signature, now: int,
                        payout: nat -> FinalSend, t': Tables<SellRecord>, o: Outcome<SellRecord>)
    requires SellTrace(states, outcomes, master, inFlight, validated, signature, now, payout)
    requires |outcomes| < |validated|
    requires SellStep(states[|outcomes|], t', master, inFlight, validated[|outcomes|], signature, now,
                      payout(|outcomes|), o)
    ensures SellTrace(states + [t'], outcomes + [o], master, inFlight, validated, signature, now, payout)
  {
    var states', outcomes' := states + [t'], outcomes + [o];
    forall k | 0 <= k < |outcomes'|
      ensures SellStep(states'[k], states'[k + 1], master, inFlight, validated[k], signature, now, payout(k),
                       outcomes'[k])
    {
      if k < |outcomes| {
        assert states'[k] == states[k] && states'[k + 1] == states[k + 1] && outcomes'[k] == outcomes[k];
      }
    }
  }

  /** One engine call of the `sell` loop, as one step of its trace. */
  method SellOne(pot: PotService, c: Candidate, signature: Signature, payout: SendOutcome, now: int)
    returns (o: Outcome<SellRecord>)
    requires pot.Valid()
    modifies pot, pot.processing
    ensures pot.Valid()
    ensures SellStep(Tables(old(pot.games), old(pot.sells)), Tables(pot.games, pot.sells), pot.master,
                     old(pot.processing.sells), c, signature, now, payout, o)
    ensures pot.nextId == old(pot.nextId) && pot.buys == old(pot.buys) && pot.claims == old(pot.claims)
    ensures pot.processing.sells == old(pot.processing.sells)
  {
    var sent;
    o, sent := pot.Sell(c.owner, c.side, signature, c.amount, now, payout);
  }

  /** The loop of `sell` over the matched entries. */
  method SellEach(pot: PotService, validated: seq<Candidate>, signature: Signature, payout: nat -> FinalSend, now: int)
    returns (reply: Reply, ghost outcomes: seq<Outcome<SellRecord>>, ghost states: seq<Tables<SellRecord>>)
    requires pot.Valid() && validated != []
    modifies pot, pot.processing
    ensures pot.Valid()
    ensures StopsAtFirstError(outcomes, validated) && reply == Collected(outcomes)
    ensures SellTrace(states, outcomes, pot.master, old(pot.processing.sells), validated, signature, now, payout)
    ensures states[0] == Tables(old(pot.games), old(pot.sells)) && states[|states| - 1] == Tables(pot.games, pot.sells)
    ensures pot.nextId == old(pot.nextId) && pot.buys == old(pot.buys) && pot.claims == old(pot.claims)
    ensures pot.processing.sells == old(pot.processing.sells)
  {
    outcomes, states := [], [Tables(pot.games, pot.sells)];
    var receipts := [];
    for k := 0 to |validated|
      invariant pot.Valid()
      invariant |outcomes| == k && forall i :: 0 <= i < k ==> !outcomes[i].Failed?
      invariant receipts == Receipts(outcomes)
      invariant SellTrace(states, outcomes, pot.master, old(pot.processing.sells), validated, signature, now, payout)
      invariant states[0] == Tables(old(pot.games), old(pot.sells)) && states[k] == Tables(pot.games, pot.sells)
      invariant pot.nextId == old(pot.nextId) && pot.buys == old(pot.buys) && pot.claims == old(pot.claims)
      invariant pot.processing.sells == old(pot.processing.sells)
    {
      var c := validated[k];
      var sold := SellOne(pot, c, signature, payout(k), now);
      SellTraceExtend(states, outcomes, pot.master, old(pot.processing.sells), validated, signature, now, payout,
                      Tables(pot.games, pot.sells), sold);
      outcomes, states := outcomes + [sold], states + [Tables(pot.games, pot.sells)];
      assert outcomes[..k] == outcomes[..|outcomes| - 1];
      if sold.Failed? {
        return ErrorReply(sold.error), outcomes, states;
      }
      if sold.Done? {
        receipts := receipts + [Receipt(sold.game.id, sold.signature)];
      }
    }
    return Created(receipts), outcomes, states;
  }

  /** `sell`: `parsed` is the ledger's answer for the signature, `owners` the
      owner of every token account the ledger knows, and `payout(k)` the
      final outcome of the payout of the k-th engine call. The handler
      passes the source token account as the owner. */
  method Sell(pot: PotService, signature: Signature, parsed: Option<ParsedTransaction>,
              owners: map<Address, Address>, payout: nat -> FinalSend, now: int)
    returns (reply: Reply, ghost validated: seq<Candidate>, ghost outcomes: seq<Outcome<SellRecord>>,
             ghost states: seq<Tables<SellRecord>>)
    requires pot.Valid()
    modifies pot, pot.processing
    ensures pot.Valid()
    ensures parsed.None? ==> reply == BadRequest(Raised(TransactionSignatureNotExists))
    ensures outcomes == [] ==> unchanged(pot) && unchanged(pot.processing)
    ensures parsed.Some? && !(forall i :: 0 <= i < |parsed.value.instructions| ==> Helpers.TokenWellFormed(parsed.value.instructions[i], owners)) ==>
      reply == InternalServerError(MalformedInstruction) && outcomes == []
    ensures parsed.Some? && (forall i :: 0 <= i < |parsed.value.instructions| ==> Helpers.TokenWellFormed(parsed.value.instructions[i], owners)) ==>
      && validated == Matched(old(pot.games), TokenMoves(Helpers.TokenTransfersOf(parsed.value.instructions, owners)))
      && (validated == [] ==> reply == BadRequest(NoValidTransfer) && outcomes == [])
      && (validated != [] ==>
            && StopsAtFirstError(outcomes, validated) && reply == Collected(outcomes)
            && SellTrace(states, outcomes, pot.master, old(pot.processing.sells), validated, signature, now, payout)
            && states[0] == Tables(old(pot.games), old(pot.sells))
            && states[|states| - 1] == Tables(pot.games, pot.sells)
            && pot.buys == old(pot.buys) && pot.claims == old(pot.claims))
  {
    validated, outcomes, states := [], [], [];
    var transfers := Helpers.GetTransferTokenFromSignature(parsed, owners);
    if transfers.Err? {
      return ErrorReply(transfers.error), validated, outcomes, states;
    }
    var matched := MatchTransfers(pot.games, TokenMoves(transfers.value));
    validated := matched;
    if |matched| == 0 {
      return BadRequest(NoValidTransfer), validated, outcomes, states;
    }
    reply, outcomes, states := SellEach(pot, matched, signature, payout, now);
  }

  /** The reply to a run of `redeem` calls that stops at the first thrown
      error; `redeem` returns nothing, so success is an empty list. */
  function RedeemReply(results: seq<Result<ClaimPayout>>): (r: Reply)
    ensures r.Created? ==> r.receipts == []
  {
    if results != [] && results[|results| - 1].Err? then ErrorReply(results[|results| - 1].error) else Created([])
  }

  /** One `PotService.Redeem` call on candidate `c`, from tables `t` to `t'`. */
  ghost predicate RedeemStep(t: Tables<ClaimRecord>, t': Tables<ClaimRecord>, c: Candidate, signature: Signature,
                             parsed: Option<ParsedTransaction>, accountMints: map<Address, Address>,
                             ata: (Address, Address) -> Address, payout: FinalSend, now: int, r: Result<ClaimPayout>)
  {
    && (r.Err? ==> t' == t)
    && match IndexOfId(t.games, c.gameId)
       case None => r == Err(RowNotFound)
       case Some(k) =>
         RedeemCommitted(t.games, t.records, t'.games, t'.records, k, c.owner, c.amount, signature,
                         parsed, accountMints, ata, payout, now, r)
  }

  /** The successive tables and results of the redeem calls on `validated`. */
  ghost predicate RedeemTrace(states: seq<Tables<ClaimRecord>>, results: seq<Result<ClaimPayout>>,
                              validated: seq<Candidate>, signature: Signature, parsed: Option<ParsedTransaction>,
                              accountMints: map<Address, Address>, ata: (Address, Address) -> Address,
                              payout: nat -> FinalSend, now: int)
  {
    && |states| == |results| + 1 && |results| <= |validated|
    && forall k :: 0 <= k < |results| ==>
         RedeemStep(states[k], states[k + 1], validated[k], signature, parsed, accountMints, ata, payout(k), now,
                    results[k])
  }

  /** All the matched entries of one burn signature pay at most one claim:
      the claim records are keyed by that signature. */
  lemma {:induction false} RedeemPaysOnce(states: seq<Tables<ClaimRecord>>, results: seq<Result<ClaimPayout>>,
                                          validated: seq<Candidate>, signature: Signature,
                                          parsed: Option<ParsedTransaction>, accountMints: map<Address, Address>,
                                          ata: (Address, Address) -> Address, payout: nat -> FinalSend, now: int,
                                          i: nat, j: nat)
    requires RedeemTrace(states, results, validated, signature, parsed, accountMints, ata, payout, now)
    requires i < j < |results| && results[i].Ok?
    ensures results[j].Err?
  {
    assert RedeemStep(states[i], states[i + 1], validated[i], signature, parsed, accountMints, ata, payout(i), now,
                      results[i]);
    var k := i + 1;
    while k < j
      invariant i < k <= j && signature in states[k].records
    {
      assert RedeemStep(states[k], states[k + 1], validated[k], signature, parsed, accountMints, ata, payout(k), now,
                        results[k]);
      k := k + 1;
    }
    assert RedeemStep(states[j], states[j + 1], validated[j], signature, parsed, accountMints, ata, payout(j), now,
                      results[j]);
  }

  /** Since the calls stop at the first error and one signature pays at most
      once, a `redeem` request makes at most two engine calls. */
  lemma RedeemCallsAtMostTwice(states: seq<Tables<ClaimRecord>>, results: seq<Result<ClaimPayout>>,
                               validated: seq<Candidate>, signature: Signature,
                               parsed: Option<ParsedTransaction>, accountMints: map<Address, Address>,
                               ata: (Address, Address) -> Address, payout: nat -> FinalSend, now: int)
    requires RedeemTrace(states, results, validated, signature, parsed, accountMints, ata, payout, now)
    requires forall i :: 0 <= i < |results| - 1 ==> results[i].Ok?
    ensures |results| <= 2
  {
    if |results| > 2 {
      RedeemPaysOnce(states, results, validated, signature, parsed, accountMints, ata, payout, now, 0, 1);
    }
  }

  /** A trace extended by one more call is a trace. */
  lemma RedeemTraceExtend(states: seq<Tables<ClaimRecord>>, results: seq<Result<ClaimPayout>>,
                          validated: seq<Candidate>, signature: Signature, parsed: Option<ParsedTransaction>,
                          accountMints: map<Address, Address>, ata: (Address, Address) -> Address,
                          payout: nat -> FinalSend, now: int, t': Tables<ClaimRecord>, r: Result<ClaimPayout>)
    requires RedeemTrace(states, results, validated, signature, parsed, accountMints, ata, payout, now)
    requires |results| < |validated|
    requires RedeemStep(states[|results|], t', validated[|results|], signature, parsed, accountMints, ata,
                        payout(|results|), now, r)
    ensures RedeemTrace(states + [t'], results + [r], validated, signature, parsed, accountMints, ata, payout, now)
  {
    var states', results' := states + [t'], results + [r];
    forall k | 0 <= k < |results'|
      ensures RedeemStep(states'[k], states'[k + 1], validated[k], signature, parsed, accountMints, ata, payout(k),
                         now, results'[k])
    {
      if k < |results| {
        assert states'[k] == states[k] && states'[k + 1] == states[k + 1] && results'[k] == results[k];
      }
    }
  }

  /** One engine call of the `redeem` loop, as one step of its trace. */
  method RedeemOne(pot: PotService, c: Candidate, signature: Signature, parsed: Option<ParsedTransaction>,
                   accountMints: map<Address, Address>, ata: (Address, Address) -> Address, payout: FinalSend,
                   now: int)
    returns (r: Result<ClaimPayout>)
    requires pot.Valid()
    modifies pot
    ensures pot.Valid()
    ensures RedeemStep(Tables(old(pot.games), old(pot.claims)), Tables(pot.games, pot.claims), c, signature,
                       parsed, accountMints, ata, payout, now, r)
    ensures pot.nextId == old(pot.nextId) && pot.buys == old(pot.buys) && pot.sells == old(pot.sells)
  {
    r := pot.Redeem(c.gameId, c.owner, c.amount, signature, parsed, accountMints, ata, payout, now);
  }

  /** The loop of `redeem` over the matched entries. */
  method RedeemEach(pot: PotService, validated: seq<Candidate>, signature: Signature,
                    parsed: Option<ParsedTransaction>, accountMints: map<Address, Address>,
                    ata: (Address, Address) -> Address, payout: nat -> FinalSend, now: int)
    returns (reply: Reply, ghost results: seq<Result<ClaimPayout>>, ghost states: seq<Tables<ClaimRecord>>)
    requires pot.Valid() && validated != []
    modifies pot
    ensures pot.Valid()
    ensures forall i :: 0 <= i < |results| - 1 ==> results[i].Ok?
    ensures |results| < |validated| ==> results != [] && results[|results| - 1].Err?
    ensures reply == RedeemReply(results)
    ensures RedeemTrace(states, results, validated, signature, parsed, accountMints, ata, payout, now)
    ensures states[0] == Tables(old(pot.games), old(pot.claims)) && states[|states| - 1] == Tables(pot.games, pot.claims)
    ensures pot.nextId == old(pot.nextId) && pot.buys == old(pot.buys) && pot.sells == old(pot.sells)
  {
    results, states := [], [Tables(pot.games, pot.claims)];
    for k := 0 to |validated|
      invariant pot.Valid()
      invariant |results| == k && forall i :: 0 <= i < k ==> results[i].Ok?
      invariant RedeemTrace(states, results, validated, signature, parsed, accountMints, ata, payout, now)
      invariant states[0] == Tables(old(pot.games), old(pot.claims)) && states[k] == Tables(pot.games, pot.claims)
      invariant pot.nextId == old(pot.nextId) && pot.buys == old(pot.buys) && pot.sells == old(pot.sells)
    {
      var c := validated[k];
      var redeemed := RedeemOne(pot, c, signature, parsed, accountMints, ata, payout(k), now);
      RedeemTraceExtend(states, results, validated, signature, parsed, accountMints, ata, payout, now,
                        Tables(pot.games, pot.claims), redeemed);
      results, states := results + [redeemed], states + [Tables(pot.games, pot.claims)];
      if redeemed.Err? {
        return ErrorReply(redeemed.error), results, states;
      }
    }
    return Created([]), results, states;
  }

  /** `redeem`: as `sell`, with `accountMints` the mint of every token
      account (read by the burn validation of the same signature), `ata` the
      associated-account derivation and `payout(k)` the final outcome of the
      claim transfer of the k-th engine call. */
  method Redeem(pot: PotService, signature: Signature, parsed: Option<ParsedTransaction>,
                owners: map<Address, Address>, accountMints: map<Address, Address>,
                ata: (Address, Address) -> Address, payout: nat -> FinalSend, now: int)
    returns (reply: Reply, ghost validated: seq<Candidate>, ghost results: seq<Result<ClaimPayout>>,
             ghost states: seq<Tables<ClaimRecord>>)
    requires pot.Valid()
    modifies pot
    ensures pot.Valid()
    ensures parsed.None? ==> reply == BadRequest(Raised(TransactionSignatureNotExists))
    ensures results == [] ==> unchanged(pot)
    ensures reply.Created? ==> reply.receipts == []
    ensures parsed.Some? && !(forall i :: 0 <= i < |parsed.value.instructions| ==> Helpers.TokenWellFormed(parsed.value.instructions[i], owners)) ==>
      reply == InternalServerError(MalformedInstruction) && results == []
    ensures parsed.Some? && (forall i :: 0 <= i < |parsed.value.instructions| ==> Helpers.TokenWellFormed(parsed.value.instructions[i], owners)) ==>
      && validated == Matched(old(pot.games), TokenMoves(Helpers.TokenTransfersOf(parsed.value.instructions, owners)))
      && (validated == [] ==> reply == BadRequest(NoValidTransfer) && results == [])
      && (validated != [] ==>
            && (forall i :: 0 <= i < |results| - 1 ==> results[i].Ok?)
            && (|results| < |validated| ==> results != [] && results[|results| - 1].Err?)
            && reply == RedeemReply(results)
            && RedeemTrace(states, results, validated, signature, parsed, accountMints, ata, payout, now)
            && states[0] == Tables(old(pot.games), old(pot.claims))
            && states[|states| - 1] == Tables(pot.games, pot.claims)
            && pot.buys == old(pot.buys) && pot.sells == old(pot.sells))
  {
    validated, results, states := [], [], [];
    var transfers := Helpers.GetTransferTokenFromSignature(parsed, owners);
    if transfers.Err? {
      return ErrorReply(transfers.error), validated, results, states;
    }
    var matched := MatchTransfers(pot.games, TokenMoves(transfers.value));
    validated := matched;
    if |matched| == 0 {
      return BadRequest(NoValidTransfer), validated, results, states;
    }
    reply, results, states := RedeemEach(pot, matched, signature, parsed, accountMints, ata, payout, now);
  }
}
