/** app/chain/solana/token.ts: the instruction lists of the game's two ledger
    transactions (creating the claim-token mints, and the settlement), the
    validation of a SOL transfer and of a token burn against a parsed
    transaction, and the token balance read. */
module Token {
  import opened Types
  import opened Chain

  /** Unit price of the mint-creation transaction, in micro-lamports. */
  const CREATE_UNIT_PRICE: nat := 100_000

  /** Unit price of the settlement transaction, in micro-lamports. */
  const SETTLE_UNIT_PRICE: nat := 50_000

  /** Decimals of the claim tokens when the caller gives none. */
  const DEFAULT_DECIMALS: nat := 9

  // ---------------------------------------------------------------------------
  // createOverUnderToken
  // ---------------------------------------------------------------------------

  /** The instruction list of `createOverUnderToken`: the payer (the master
      wallet) funds both pots with the rent minimum, creates both mint
      accounts, initialises both mints with itself as mint and freeze
      authority, and creates each pot's associated token account. The
      associated-account derivation is the parameter `ata(mint, owner)`. */
  function CreateOverUnderTokenInstructions(
    payer: Address, overPot: Address, underPot: Address,
    overMint: Address, underMint: Address,
    minimum: int, decimals: nat, ata: (Address, Address) -> Address): (r: seq<Instruction>)
    ensures |r| == 9 && r[0] == SetComputeUnitPrice(CREATE_UNIT_PRICE)
    ensures forall i :: 0 <= i < |r| && r[i].Transfer? ==>
      r[i].from == payer && r[i].lamports == minimum && r[i].to in {overPot, underPot}
    ensures forall i :: 0 <= i < |r| && r[i].CreateAccount? ==>
      r[i].from == payer && r[i].space == MINT_SIZE && r[i].lamports == minimum &&
      r[i].programId == TOKEN_PROGRAM_ID && r[i].newAccount in {overMint, underMint}
    ensures forall i :: 0 <= i < |r| && r[i].InitializeMint? ==>
      r[i].decimals == decimals && r[i].mintAuthority == payer && r[i].freezeAuthority == payer
    ensures forall i :: 0 <= i < |r| && r[i].CreateAssociatedTokenAccount? ==>
      r[i].payer == payer && r[i].account == ata(r[i].mint, r[i].owner) &&
      (r[i].owner, r[i].mint) in {(overPot, overMint), (underPot, underMint)}
    // every mint is created before it is initialised, and initialised before
    // an associated account of it is created
    ensures forall j :: 0 <= j < |r| && r[j].InitializeMint? ==>
      exists i :: 0 <= i < j && r[i].CreateAccount? && r[i].newAccount == r[j].mint
    ensures forall j :: 0 <= j < |r| && r[j].CreateAssociatedTokenAccount? ==>
      exists i :: 0 <= i < j && r[i].InitializeMint? && r[i].mint == r[j].mint
  {
    var r := [
      SetComputeUnitPrice(CREATE_UNIT_PRICE),
      Transfer(payer, overPot, minimum),
      Transfer(payer, underPot, minimum),
      CreateAccount(payer, overMint, MINT_SIZE, minimum, TOKEN_PROGRAM_ID),
      CreateAccount(payer, underMint, MINT_SIZE, minimum, TOKEN_PROGRAM_ID),
      InitializeMint(overMint, decimals, payer, payer),
      InitializeMint(underMint, decimals, payer, payer),
      CreateAssociatedTokenAccount(payer, ata(overMint, overPot), overPot, overMint),
      CreateAssociatedTokenAccount(payer, ata(underMint, underPot), underPot, underMint)
    ];
    assert r[5].mint == r[3].newAccount && r[6].mint == r[4].newAccount;
    assert r[7].mint == r[5].mint && r[8].mint == r[6].mint;
    r
  }

  /** Positions of the transfers into `p`. */
  function Fundings(r: seq<Instruction>, p: Address): set<int> {
    set i | 0 <= i < |r| && r[i].Transfer? && r[i].to == p
  }

  /** Positions of the account creations of `m`. */
  function Creations(r: seq<Instruction>, m: Address): set<int> {
    set i | 0 <= i < |r| && r[i].CreateAccount? && r[i].newAccount == m
  }

  /** Each pot is funded exactly once, and each mint created exactly once. */
  lemma CreateOverUnderTokenFundsEachPot(
    payer: Address, overPot: Address, underPot: Address,
    overMint: Address, underMint: Address,
    minimum: int, decimals: nat, ata: (Address, Address) -> Address)
    requires overPot != underPot && overMint != underMint
    ensures var r := CreateOverUnderTokenInstructions(payer, overPot, underPot, overMint, underMint, minimum, decimals, ata);
      |Fundings(r, overPot)| == 1 && |Fundings(r, underPot)| == 1 &&
      |Creations(r, overMint)| == 1 && |Creations(r, underMint)| == 1
  {
    var r := CreateOverUnderTokenInstructions(payer, overPot, underPot, overMint, underMint, minimum, decimals, ata);
    assert Fundings(r, overPot) == {1};
    assert Fundings(r, underPot) == {2};
    assert Creations(r, overMint) == {3};
    assert Creations(r, underMint) == {4};
  }

  // ---------------------------------------------------------------------------
  // getTokenBalance
  // ---------------------------------------------------------------------------

  /** The ledger's answer to `getTokenAccountBalance`: the raw amount and the
      mint's decimals. */
  datatype TokenAccountBalance = TokenAccountBalance(amount: nat, decimals: nat)

  /** `getTokenBalance`: the UI amount (raw amount over 10^decimals); any
      failure of the ledger call (`None`) reads as 0. */
  function GetTokenBalance(answer: Option<TokenAccountBalance>): (r: real)
    ensures r >= 0.0
    ensures answer.None? ==> r == 0.0
    ensures answer.Some? ==> r * Pow10(answer.value.decimals) as real == answer.value.amount as real
    ensures r > 0.0 <==> answer.Some? && answer.value.amount > 0
  {
    match answer
    case None => 0.0
    case Some(b) => b.amount as real / Pow10(b.decimals) as real
  }

  // ---------------------------------------------------------------------------
  // transferToWinningPotAndBurnOverUnderToken
  // ---------------------------------------------------------------------------

  /** The instruction list of the settlement transaction. `loserLamports` is the
      loser pot's whole balance and the two balances are the pots' claim-token
      balances, all as the ledger answers them. */
  method SettlementInstructions(
    winnerPot: Address, winnerMint: Address, loserPot: Address, loserMint: Address,
    loserLamports: int, winnerBalance: Option<TokenAccountBalance>,
    loserBalance: Option<TokenAccountBalance>, memo: string,
    ata: (Address, Address) -> Address)
    returns (instructions: seq<Instruction>)
    ensures var w := GetTokenBalance(winnerBalance); var l := GetTokenBalance(loserBalance);
      var burns := (if w > 0.0 then 1 else 0) + (if l > 0.0 then 1 else 0);
      && |instructions| == 4 + burns
      && instructions[0] == SetComputeUnitPrice(SETTLE_UNIT_PRICE)
      && (w > 0.0 ==> instructions[1] == Burn(ata(winnerMint, winnerPot), winnerMint, winnerPot, w))
      && (l > 0.0 ==> instructions[burns] == Burn(ata(loserMint, loserPot), loserMint, loserPot, l))
      && instructions[|instructions| - 3..] ==
           [Transfer(loserPot, winnerPot, loserLamports), Allocate(loserPot, 0), Memo(memo)]
    ensures forall i :: 0 <= i < |instructions| && instructions[i].Burn? ==> instructions[i].amount > 0.0
    ensures forall i :: 0 <= i < |instructions| && instructions[i].Transfer? ==>
      instructions[i] == Transfer(loserPot, winnerPot, loserLamports)
  {
    instructions := [SetComputeUnitPrice(SETTLE_UNIT_PRICE)];
    var winnerAccount := ata(winnerMint, winnerPot);
    var winnerTokenBalance := GetTokenBalance(winnerBalance);
    var loserAccount := ata(loserMint, loserPot);
    var loserTokenBalance := GetTokenBalance(loserBalance);
    if winnerTokenBalance > 0.0 {
      instructions := instructions + [Burn(winnerAccount, winnerMint, winnerPot, winnerTokenBalance)];
    }
    if loserTokenBalance > 0.0 {
      instructions := instructions + [Burn(loserAccount, loserMint, loserPot, loserTokenBalance)];
    }
    instructions := instructions + [Transfer(loserPot, winnerPot, loserLamports), Allocate(loserPot, 0), Memo(memo)];
  }

  // ---------------------------------------------------------------------------
  // validateTransferTransaction
  // ---------------------------------------------------------------------------

  /** A system instruction on which the validation throws: no parsed data, or
      no source or destination to build a key from. */
  predicate TransferThrows(ins: ParsedInstruction) {
    ins.program == "system" &&
    (ins.parsed.None? || ins.parsed.value.info.source.None? || ins.parsed.value.info.destination.None?)
  }

  /** A system instruction moving at least `amount` lamports from `sender` to
      `target`; a missing lamports field reads as NaN and never matches. */
  predicate TransferMatches(ins: ParsedInstruction, sender: Address, target: Address, amount: int) {
    ins.program == "system" && ins.parsed.Some? &&
    var info := ins.parsed.value.info;
    info.source == Some(sender) && info.destination == Some(target) &&
    info.lamports.Some? && info.lamports.value >= amount
  }

  /** The verdict of the scan, read instruction by instruction from the left. */
  function ScanTransfer(instrs: seq<ParsedInstruction>, sender: Address, target: Address, amount: int): Result<bool> {
    if instrs == [] then Ok(false)
    else if TransferThrows(instrs[0]) then Err(MalformedInstruction)
    else if TransferMatches(instrs[0], sender, target, amount) then Ok(true)
    else ScanTransfer(instrs[1..], sender, target, amount)
  }

  /** The scan accepts exactly when some instruction matches and no
      instruction before it throws. */
  lemma {:induction false} ScanTransferAccepts(instrs: seq<ParsedInstruction>, sender: Address, target: Address, amount: int)
    ensures ScanTransfer(instrs, sender, target, amount) == Ok(true) <==>
      exists i :: 0 <= i < |instrs| && TransferMatches(instrs[i], sender, target, amount) &&
        forall j :: 0 <= j < i ==> !TransferThrows(instrs[j])
    decreases |instrs|
  {
    if instrs != [] {
      ScanTransferAccepts(instrs[1..], sender, target, amount);
      if ScanTransfer(instrs, sender, target, amount) == Ok(true) && !TransferMatches(instrs[0], sender, target, amount) {
        var i :| 0 <= i < |instrs[1..]| && TransferMatches(instrs[1..][i], sender, target, amount) &&
          forall j :: 0 <= j < i ==> !TransferThrows(instrs[1..][j]);
        assert forall j :: 0 <= j < i + 1 ==> !TransferThrows(instrs[j]) by {
          forall j | 0 <= j < i + 1 ensures !TransferThrows(instrs[j]) {
            if j > 0 { assert instrs[j] == instrs[1..][j - 1]; }
          }
        }
      }
      if exists i :: 0 <= i < |instrs| && TransferMatches(instrs[i], sender, target, amount) &&
          forall j :: 0 <= j < i ==> !TransferThrows(instrs[j]) {
        var i :| 0 <= i < |instrs| && TransferMatches(instrs[i], sender, target, amount) &&
          forall j :: 0 <= j < i ==> !TransferThrows(instrs[j]);
        if i > 0 {
          assert !TransferThrows(instrs[0]);
          assert TransferMatches(instrs[1..][i - 1], sender, target, amount);
          assert forall j :: 0 <= j < i - 1 ==> !TransferThrows(instrs[1..][j]) by {
            forall j | 0 <= j < i - 1 ensures !TransferThrows(instrs[1..][j]) {
              assert instrs[1..][j] == instrs[j + 1];
            }
          }
        }
      }
    }
  }

  /** `validateTransferTransaction`: `parsed` is the ledger's answer for the
      signature (None for null); a throw is `Err(MalformedInstruction)`. */
  method ValidateTransferTransaction(parsed: Option<ParsedTransaction>, sender: Address, target: Address, amount: int)
    returns (r: Result<bool>)
    ensures parsed.None? ==> r == Ok(false)
    ensures parsed.Some? ==> r == ScanTransfer(parsed.value.instructions, sender, target, amount)
  {
    if parsed.None? {
      return Ok(false);
    }
    var instrs := parsed.value.instructions;
    for k := 0 to |instrs|
      invariant ScanTransfer(instrs[k..], sender, target, amount) == ScanTransfer(instrs, sender, target, amount)
    {
      var ins := instrs[k];
      assert instrs[k..][0] == ins && instrs[k..][1..] == instrs[k + 1..];
      if ins.program == "system" {
        if ins.parsed.None? {
          return Err(MalformedInstruction);
        }
        var info := ins.parsed.value.info;
        if info.source.None? || info.destination.None? {
          return Err(MalformedInstruction);
        }
        if info.source.value == sender && info.destination.value == target &&
           info.lamports.Some? && info.lamports.value >= amount {
          return Ok(true);
        }
      }
    }
    return Ok(false);
  }

  // ---------------------------------------------------------------------------
  // validateBurnTransaction
  // ---------------------------------------------------------------------------

  /** A token-program instruction the validation looks at (one with parsed info). */
  predicate BurnCandidate(ins: ParsedInstruction) {
    ins.programId == TOKEN_PROGRAM_ID && ins.parsed.Some?
  }

  /** A candidate on which the validation throws: no source, destination or
      mint to build a key from, or a source account whose mint the ledger
      does not know (`accountMints` maps token accounts to their mint). */
  predicate BurnThrows(ins: ParsedInstruction, accountMints: map<Address, Address>) {
    BurnCandidate(ins) &&
    var info := ins.parsed.value.info;
    info.source.None? || info.destination.None? || info.mint.None? || info.source.value !in accountMints
  }

  /** A candidate whose source is the sender's associated account for `mint`,
      whose source account holds `mint`, and which moves exactly `amount`
      (a missing token amount reads as 0). The instruction's own mint field
      is read but not compared. */
  predicate BurnMatches(ins: ParsedInstruction, accountMints: map<Address, Address>,
                        mint: Address, senderAccount: Address, amount: int) {
    BurnCandidate(ins) && !BurnThrows(ins, accountMints) &&
    var info := ins.parsed.value.info;
    senderAccount == info.source.value && mint == accountMints[info.source.value] &&
    info.tokenAmount.GetOr(0) == amount
  }

  function ScanBurn(instrs: seq<ParsedInstruction>, accountMints: map<Address, Address>,
                    mint: Address, senderAccount: Address, amount: int): Result<bool> {
    if instrs == [] then Ok(false)
    else if BurnThrows(instrs[0], accountMints) then Err(MalformedInstruction)
    else if BurnMatches(instrs[0], accountMints, mint, senderAccount, amount) then Ok(true)
    else ScanBurn(instrs[1..], accountMints, mint, senderAccount, amount)
  }

  /** The scan accepts exactly when some candidate matches and no candidate
      before it throws; instructions without parsed info never matter. */
  lemma {:induction false} ScanBurnAccepts(instrs: seq<ParsedInstruction>, accountMints: map<Address, Address>,
                                           mint: Address, senderAccount: Address, amount: int)
    ensures ScanBurn(instrs, accountMints, mint, senderAccount, amount) == Ok(true) <==>
      exists i :: 0 <= i < |instrs| && BurnMatches(instrs[i], accountMints, mint, senderAccount, amount) &&
        forall j :: 0 <= j < i ==> !BurnThrows(instrs[j], accountMints)
    decreases |instrs|
  {
    if instrs != [] {
      ScanBurnAccepts(instrs[1..], accountMints, mint, senderAccount, amount);
      if ScanBurn(instrs, accountMints, mint, senderAccount, amount) == Ok(true) &&
         !BurnMatches(instrs[0], accountMints, mint, senderAccount, amount) {
        var i :| 0 <= i < |instrs[1..]| && BurnMatches(instrs[1..][i], accountMints, mint, senderAccount, amount) &&
          forall j :: 0 <= j < i ==> !BurnThrows(instrs[1..][j], accountMints);
        assert forall j :: 0 <= j < i + 1 ==> !BurnThrows(instrs[j], accountMints) by {
          forall j | 0 <= j < i + 1 ensures !BurnThrows(instrs[j], accountMints) {
            if j > 0 { assert instrs[j] == instrs[1..][j - 1]; }
          }
        }
      }
      if exists i :: 0 <= i < |instrs| && BurnMatches(instrs[i], accountMints, mint, senderAccount, amount) &&
          forall j :: 0 <= j < i ==> !BurnThrows(instrs[j], accountMints) {
        var i :| 0 <= i < |instrs| && BurnMatches(instrs[i], accountMints, mint, senderAccount, amount) &&
          forall j :: 0 <= j < i ==> !BurnThrows(instrs[j], accountMints);
        if i > 0 {
          assert !BurnThrows(instrs[0], accountMints);
          assert BurnMatches(instrs[1..][i - 1], accountMints, mint, senderAccount, amount);
          assert forall j :: 0 <= j < i - 1 ==> !BurnThrows(instrs[1..][j], accountMints) by {
            forall j | 0 <= j < i - 1 ensures !BurnThrows(instrs[1..][j], accountMints) {
              assert instrs[1..][j] == instrs[j + 1];
            }
          }
        }
      }
    }
  }

  /** Instructions outside the token program, or without parsed info, can be
      removed without changing the verdict. */
  lemma {:induction false} ScanBurnSkipsNonCandidates(ins: ParsedInstruction, rest: seq<ParsedInstruction>,
    accountMints: map<Address, Address>, mint: Address, senderAccount: Address, amount: int)
    requires !BurnCandidate(ins)
    ensures ScanBurn([ins] + rest, accountMints, mint, senderAccount, amount)
         == ScanBurn(rest, accountMints, mint, senderAccount, amount)
  {
    assert ([ins] + rest)[0] == ins && ([ins] + rest)[1..] == rest;
  }

  /** `validateBurnTransaction`: the sender's associated account for `mint` is
      `ata(mint, sender)`; `parsed` is the ledger's answer (None for null); a
      throw is `Err(MalformedInstruction)`. */
  method ValidateBurnTransaction(parsed: Option<ParsedTransaction>, accountMints: map<Address, Address>,
                                 sender: Address, mint: Address, amount: int,
                                 ata: (Address, Address) -> Address)
    returns (r: Result<bool>)
    ensures parsed.None? ==> r == Ok(false)
    ensures parsed.Some? ==> r == ScanBurn(parsed.value.instructions, accountMints, mint, ata(mint, sender), amount)
  {
    var associated := ata(mint, sender);
    if parsed.None? {
      return Ok(false);
    }
    var instrs := parsed.value.instructions;
    for k := 0 to |instrs|
      invariant ScanBurn(instrs[k..], accountMints, mint, associated, amount)
             == ScanBurn(instrs, accountMints, mint, associated, amount)
    {
      var ins := instrs[k];
      assert instrs[k..][0] == ins && instrs[k..][1..] == instrs[k + 1..];
      if ins.programId == TOKEN_PROGRAM_ID {
        if ins.parsed.None? {
          continue;
        }
        var info := ins.parsed.value.info;
        if info.source.None? || info.destination.None? || info.mint.None? {
          return Err(MalformedInstruction);
        }
        var source := info.source.value;
        var transferred := info.tokenAmount.GetOr(0);
        if source !in accountMints {
          return Err(MalformedInstruction);
        }
        var senderMint := accountMints[source];
        if associated == source && mint == senderMint && transferred == amount {
          return Ok(true);
        }
      }
    }
    return Ok(false);
  }
}
