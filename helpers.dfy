/** app/chain/solana/helpers.ts: instruction assembly for transfers, the
    post-processing of an address's transaction history, and the extraction
    of SOL and token transfers from parsed transactions. */
module Helpers {
  import opened Types
  import opened Chain

  // ---------------------------------------------------------------------------
  // Instruction assembly
  // ---------------------------------------------------------------------------

  /** The optional instructions `transfer` and `transferToMany` put first. Each
      option is falsy in JavaScript when 0 (or the empty memo), exactly as
      when it is left out, so 0 and "" stand for "not given". */
  function Prefix(units: nat, microLamports: nat, memo: string): (p: seq<Instruction>)
    ensures |p| == (if units > 0 then 1 else 0) + (if microLamports > 0 then 1 else 0)
                   + (if memo != "" then 1 else 0)
    ensures units > 0 ==> p[0] == SetComputeUnitLimit(units)
    ensures microLamports > 0 ==> p[if units > 0 then 1 else 0] == SetComputeUnitPrice(microLamports)
    ensures memo != "" ==> p[|p| - 1] == Memo(memo)
    ensures forall i :: 0 <= i < |p| ==> !p[i].Transfer?
  {
    (if units > 0 then [SetComputeUnitLimit(units)] else [])
    + (if microLamports > 0 then [SetComputeUnitPrice(microLamports)] else [])
    + (if memo != "" then [Memo(memo)] else [])
  }

  /** The instructions of `transfer`: the optional prefix, then one system
      transfer. With `decreaseWithFee`, the amount is first lowered by the fee
      the ledger quotes for the prefix (`fee`, a ledger answer). */
  method TransferInstructions(
    sender: Address, recipient: Address, amount: int,
    memo: string, decreaseWithFee: bool, units: nat, microLamports: nat, fee: int)
    returns (instructions: seq<Instruction>, lamports: int)
    ensures lamports == if decreaseWithFee then amount - fee else amount
    ensures |instructions| == |Prefix(units, microLamports, memo)| + 1
    ensures instructions[..|instructions| - 1] == Prefix(units, microLamports, memo)
    ensures instructions[|instructions| - 1] == Transfer(sender, recipient, lamports)
  {
    instructions := [];
    if units > 0 {
      instructions := instructions + [SetComputeUnitLimit(units)];
    }
    if microLamports > 0 {
      instructions := instructions + [SetComputeUnitPrice(microLamports)];
    }
    if memo != "" {
      instructions := instructions + [Memo(memo)];
    }
    lamports := amount;
    if decreaseWithFee {
      lamports := lamports - fee;
    }
    instructions := instructions + [Transfer(sender, recipient, lamports)];
  }

  datatype Recipient = Recipient(address: Address, lamports: int)

  /** The instructions of `transferToMany`: the optional prefix, then one system
      transfer per recipient, in the order given. */
  method TransferToManyInstructions(
    sender: Address, recipients: seq<Recipient>,
    memo: string, units: nat, microLamports: nat)
    returns (instructions: seq<Instruction>)
    ensures |instructions| == |Prefix(units, microLamports, memo)| + |recipients|
    ensures instructions[..|Prefix(units, microLamports, memo)|] == Prefix(units, microLamports, memo)
    ensures forall i :: 0 <= i < |recipients| ==>
      instructions[|Prefix(units, microLamports, memo)| + i]
        == Transfer(sender, recipients[i].address, recipients[i].lamports)
  {
    instructions := [];
    if units > 0 {
      instructions := instructions + [SetComputeUnitLimit(units)];
    }
    if microLamports > 0 {
      instructions := instructions + [SetComputeUnitPrice(microLamports)];
    }
    if memo != "" {
      instructions := instructions + [Memo(memo)];
    }
    ghost var prefix := instructions;
    assert prefix == Prefix(units, microLamports, memo);
    for k := 0 to |recipients|
      invariant |instructions| == |prefix| + k
      invariant instructions[..|prefix|] == prefix
      invariant forall i :: 0 <= i < k ==>
        instructions[|prefix| + i] == Transfer(sender, recipients[i].address, recipients[i].lamports)
    {
      instructions := instructions + [Transfer(sender, recipients[k].address, recipients[k].lamports)];
    }
  }

  // ---------------------------------------------------------------------------
  // Transaction history of an address
  // ---------------------------------------------------------------------------

  /** One attempt of `getParsedTransactionsFromAccount`: either the signature
      list (newest first, as the ledger returns it) together with the ledger's
      answer for each signature (a missing key is a `null` transaction), or
      the error one of the two calls threw. */
  datatype FetchAttempt =
    | Fetched(signatures: seq<Signature>, transactions: map<Signature, ParsedTransaction>)
    | FetchFailed(reason: string)

  datatype Entry = Entry(signature: Signature, transaction: ParsedTransaction)

  function Reverse<T>(s: seq<T>): (r: seq<T>)
    ensures |r| == |s|
    ensures forall i :: 0 <= i < |s| ==> r[i] == s[|s| - 1 - i]
  {
    if s == [] then [] else Reverse(s[1..]) + [s[0]]
  }

  function Signatures(entries: seq<Entry>): set<Signature> {
    set k | 0 <= k < |entries| :: entries[k].signature
  }

  /** `Object.fromEntries` over the signatures whose transaction is not null,
      read back with `Object.entries`: one entry per distinct signature, at the
      position of its first occurrence. */
  function Collect(sigs: seq<Signature>, txs: map<Signature, ParsedTransaction>): (r: seq<Entry>)
    ensures forall k :: 0 <= k < |r| ==> r[k].signature in txs && r[k].transaction == txs[r[k].signature]
    ensures forall k, j :: 0 <= k < j < |r| ==> r[k].signature != r[j].signature
  {
    if sigs == [] then []
    else
      var front := Collect(sigs[..|sigs| - 1], txs);
      var s := sigs[|sigs| - 1];
      if s in txs && s !in Signatures(front) then front + [Entry(s, txs[s])] else front
  }

  /** Every signature with a transaction gets an entry, and no other does. */
  lemma {:induction false} CollectCovers(sigs: seq<Signature>, txs: map<Signature, ParsedTransaction>)
    ensures Signatures(Collect(sigs, txs)) == set s | s in sigs && s in txs
    decreases |sigs|
  {
    if sigs != [] {
      var init := sigs[..|sigs| - 1];
      var s := sigs[|sigs| - 1];
      assert sigs == init + [s];
      CollectCovers(init, txs);
      var front := Collect(init, txs);
      if s in txs && s !in Signatures(front) {
        var next := front + [Entry(s, txs[s])];
        assert next[|front|].signature == s;
        assert forall k :: 0 <= k < |front| ==> next[k] == front[k];
        assert Signatures(next) == Signatures(front) + {s};
      }
    }
  }

  /** What one successful attempt returns. */
  function Entries(attempt: FetchAttempt, reverse: bool): seq<Entry>
    requires attempt.Fetched?
  {
    Collect(if reverse then Reverse(attempt.signatures) else attempt.signatures, attempt.transactions)
  }

  /** The answer of the first of three attempts that succeeds, or the last
      attempt's error. */
  function History(attempt: nat -> FetchAttempt, reverse: bool): Result<seq<Entry>>
  {
    if attempt(0).Fetched? then Ok(Entries(attempt(0), reverse))
    else if attempt(1).Fetched? then Ok(Entries(attempt(1), reverse))
    else if attempt(2).Fetched? then Ok(Entries(attempt(2), reverse))
    else Err(LedgerFailure(attempt(2).reason))
  }

  /** `getParsedTransactionsFromAccount`: at most three attempts; the first that
      succeeds decides, and when all three fail the last error is rethrown.
      The 200 ms pause between attempts is not modelled. */
  method GetParsedTransactionsFromAccount(attempt: nat -> FetchAttempt, reverse: bool)
    returns (r: Result<seq<Entry>>)
    ensures attempt(0).Fetched? ==> r == Ok(Entries(attempt(0), reverse))
    ensures attempt(0).FetchFailed? && attempt(1).Fetched? ==> r == Ok(Entries(attempt(1), reverse))
    ensures attempt(0).FetchFailed? && attempt(1).FetchFailed? && attempt(2).Fetched?
      ==> r == Ok(Entries(attempt(2), reverse))
    ensures attempt(0).FetchFailed? && attempt(1).FetchFailed? && attempt(2).FetchFailed?
      ==> r == Err(LedgerFailure(attempt(2).reason))
    ensures r == History(attempt, reverse)
  {
    var error := "";
    var i := 0;
    while i < 3
      invariant 0 <= i <= 3
      invariant forall j :: 0 <= j < i ==> attempt(j).FetchFailed?
      invariant i > 0 ==> error == attempt(i - 1).reason
    {
      var a := attempt(i);
      if a.Fetched? {
        var sigs := a.signatures;
        if reverse {
          sigs := Reverse(sigs);
        }
        return Ok(Collect(sigs, a.transactions));
      }
      error := a.reason;
      i := i + 1;
    }
    return Err(LedgerFailure(error));
  }

  // ---------------------------------------------------------------------------
  // SOL transfers of a parsed transaction
  // ---------------------------------------------------------------------------

  datatype SolTransfer = SolTransfer(source: Address, destination: Address, lamports: nat)

  predicate IsSystem(ins: ParsedInstruction) {
    ins.programId == SYSTEM_PROGRAM_ID
  }

  /** A system-program `transfer` with everything the extraction reads. */
  predicate IsSolTransfer(ins: ParsedInstruction) {
    && IsSystem(ins) && ins.parsed.Some? && ins.parsed.value.kind == "transfer"
    && ins.parsed.value.info.source.Some?
    && ins.parsed.value.info.destination.Some?
    && ins.parsed.value.info.lamports.Some?
  }

  /** A system-program instruction the model's extraction rejects: nothing to
      destructure or a transfer without the addresses it reads, on which the
      code throws, or a transfer without its lamports, which the code keeps
      with a NaN amount. */
  predicate SolMalformed(ins: ParsedInstruction) {
    IsSystem(ins) &&
    (ins.parsed.None? ||
     (ins.parsed.value.kind == "transfer" && !IsSolTransfer(ins)))
  }

  function ToSolTransfer(ins: ParsedInstruction): SolTransfer
    requires IsSolTransfer(ins)
  {
    var info := ins.parsed.value.info;
    SolTransfer(info.source.value, info.destination.value, info.lamports.value)
  }

  /** The system transfers of an instruction list, in instruction order. */
  function SolTransfersOf(instrs: seq<ParsedInstruction>): seq<SolTransfer> {
    if instrs == [] then []
    else
      var last := instrs[|instrs| - 1];
      SolTransfersOf(instrs[..|instrs| - 1]) + (if IsSolTransfer(last) then [ToSolTransfer(last)] else [])
  }

  /** The extraction keeps instruction order: it distributes over concatenation. */
  lemma {:induction false} SolTransfersOfAppend(a: seq<ParsedInstruction>, b: seq<ParsedInstruction>)
    ensures SolTransfersOf(a + b) == SolTransfersOf(a) + SolTransfersOf(b)
    decreases |b|
  {
    if b == [] {
      assert a + b == a;
    } else {
      var b' := b[..|b| - 1];
      assert (a + b)[..|a + b| - 1] == a + b';
      assert (a + b)[|a + b| - 1] == b[|b| - 1];
      SolTransfersOfAppend(a, b');
    }
  }

  /** Exactly one entry per system `transfer` instruction, and nothing else. */
  lemma SolTransfersOfSingle(ins: ParsedInstruction)
    ensures SolTransfersOf([ins]) == if IsSolTransfer(ins) then [ToSolTransfer(ins)] else []
  {
    assert [ins][..0] == [];
  }

  /** `getSolTransferInfoFromParsedTransaction`. */
  method GetSolTransferInfoFromParsedTransaction(tx: ParsedTransaction)
    returns (r: Result<seq<SolTransfer>>)
    ensures r.Ok? <==> forall i :: 0 <= i < |tx.instructions| ==> !SolMalformed(tx.instructions[i])
    ensures r.Ok? ==> r.value == SolTransfersOf(tx.instructions)
    ensures r.Err? ==> r.error == MalformedInstruction
  {
    var instrs := tx.instructions;
    var transfers := [];
    for k := 0 to |instrs|
      invariant forall i :: 0 <= i < k ==> !SolMalformed(instrs[i])
      invariant transfers == SolTransfersOf(instrs[..k])
    {
      var ins := instrs[k];
      assert instrs[..k + 1][..k] == instrs[..k];
      if IsSystem(ins) {
        if ins.parsed.None? {
          return Err(MalformedInstruction);
        }
        if ins.parsed.value.kind == "transfer" {
          var info := ins.parsed.value.info;
          if info.source.None? || info.destination.None? || info.lamports.None? {
            return Err(MalformedInstruction);
          }
          transfers := transfers + [SolTransfer(info.source.value, info.destination.value, info.lamports.value)];
        }
      }
    }
    assert instrs[..|instrs|] == instrs;
    return Ok(transfers);
  }

  /** `getTransferSolFromSignature`: `parsed` is the ledger's answer for the
      signature, None when the fetch threw or returned null. */
  method GetTransferSolFromSignature(parsed: Option<ParsedTransaction>)
    returns (r: Result<seq<SolTransfer>>)
    ensures parsed.None? ==> r == Err(TransactionSignatureNotExists)
    ensures parsed.Some? && r.Ok? ==> r.value == SolTransfersOf(parsed.value.instructions)
    ensures parsed.Some? ==> (r.Ok? <==>
      forall i :: 0 <= i < |parsed.value.instructions| ==> !SolMalformed(parsed.value.instructions[i]))
    ensures parsed.Some? && r.Err? ==> r.error == MalformedInstruction
  {
    if parsed.None? {
      return Err(TransactionSignatureNotExists);
    }
    r := GetSolTransferInfoFromParsedTransaction(parsed.value);
  }

  datatype TransferSource = TransferSource(source: Address, lamports: nat)

  /** The first transfer into `destination`. */
  predicate FirstTo(transfers: seq<SolTransfer>, destination: Address, i: int) {
    0 <= i < |transfers| && transfers[i].destination == destination &&
    forall j :: 0 <= j < i ==> transfers[j].destination != destination
  }

  /** `getSourceTransferFromDestination`: the first transfer into `destination`
      decides; below a non-zero `threshold` it yields null even if a later
      transfer would qualify. */
  method GetSourceTransferFromDestination(
    parsed: Option<ParsedTransaction>, destination: Address, threshold: nat)
    returns (r: Result<Option<TransferSource>>)
    ensures parsed.None? ==> r == Err(TransactionSignatureNotExists)
    ensures r.Ok? ==> parsed.Some? && var ts := SolTransfersOf(parsed.value.instructions);
      (r.value.Some? <==> exists i :: FirstTo(ts, destination, i) && (threshold == 0 || ts[i].lamports >= threshold)) &&
      (forall i :: FirstTo(ts, destination, i) && r.value.Some? ==>
         r.value.value == TransferSource(ts[i].source, ts[i].lamports))
    ensures parsed.Some? ==> (r.Err? <==>
      exists i :: 0 <= i < |parsed.value.instructions| && SolMalformed(parsed.value.instructions[i]))
    ensures parsed.Some? && r.Err? ==> r.error == MalformedInstruction
  {
    var fetched := GetTransferSolFromSignature(parsed);
    if fetched.Err? {
      return Err(fetched.error);
    }
    var transfers := fetched.value;
    for k := 0 to |transfers|
      invariant forall j :: 0 <= j < k ==> transfers[j].destination != destination
    {
      var t := transfers[k];
      if t.destination == destination {
        assert FirstTo(transfers, destination, k);
        if threshold > 0 && t.lamports < threshold {
          return Ok(None);
        }
        return Ok(Some(TransferSource(t.source, t.lamports)));
      }
    }
    return Ok(None);
  }

  // ---------------------------------------------------------------------------
  // Token transfers of a parsed transaction
  // ---------------------------------------------------------------------------

  /** `s` contains `t` as a substring (`String.prototype.includes`). */
  predicate Includes(s: string, t: string) {
    exists i :: 0 <= i <= |s| - |t| && OccursAt(s, t, i)
  }

  predicate OccursAt(s: string, t: string, i: int) {
    0 <= i <= |s| - |t| && s[i..i + |t|] == t
  }

  datatype TokenTransfer = TokenTransfer(owner: Address, source: Address, destination: Address, amount: nat)

  predicate IsTokenTransferKind(ins: ParsedInstruction) {
    ins.programId == TOKEN_PROGRAM_ID && ins.parsed.Some? && Includes(ins.parsed.value.kind, "transfer")
  }

  /** A token-program instruction on which the extraction throws: nothing to
      destructure, or a transfer kind without the source or destination it
      reads. */
  predicate TokenMalformed(ins: ParsedInstruction) {
    ins.programId == TOKEN_PROGRAM_ID &&
    (ins.parsed.None? ||
     (IsTokenTransferKind(ins) &&
      (ins.parsed.value.info.source.None? || ins.parsed.value.info.destination.None?)))
  }

  /** A well-formed transfer-kind instruction whose source account exists but
      which carries no amount field at all. */
  predicate TokenAmountMissing(ins: ParsedInstruction, owners: map<Address, Address>) {
    IsTokenTransferKind(ins) && !TokenMalformed(ins) &&
    ins.parsed.value.info.source.value in owners &&
    ins.parsed.value.info.tokenAmount.None? && ins.parsed.value.info.amount.None?
  }

  /** The instructions the extraction accepts. */
  predicate TokenWellFormed(ins: ParsedInstruction, owners: map<Address, Address>) {
    !TokenMalformed(ins) && !TokenAmountMissing(ins, owners)
  }

  /** The amount read: `tokenAmount.amount`, falling back to `amount`. */
  function TransferAmount(info: Info): nat
    requires info.tokenAmount.Some? || info.amount.Some?
  {
    if info.tokenAmount.Some? then info.tokenAmount.value else info.amount.value
  }

  /** The entry a well-formed transfer-kind instruction yields, given the owner
      of every token account the ledger knows (`owners`); a source account the
      ledger does not know yields no entry. */
  function TokenTransfersOf(instrs: seq<ParsedInstruction>, owners: map<Address, Address>): seq<TokenTransfer>
    requires forall i :: 0 <= i < |instrs| ==> TokenWellFormed(instrs[i], owners)
  {
    if instrs == [] then []
    else
      var ins := instrs[|instrs| - 1];
      assert TokenWellFormed(ins, owners);
      var front := TokenTransfersOf(instrs[..|instrs| - 1], owners);
      if IsTokenTransferKind(ins) && ins.parsed.value.info.source.value in owners then
        var info := ins.parsed.value.info;
        front + [TokenTransfer(owners[info.source.value], info.source.value, info.destination.value, TransferAmount(info))]
      else front
  }

  /** `ins` is a well-formed token-program transfer whose source account exists,
      and `e` is the entry read from it. */
  predicate YieldsEntry(ins: ParsedInstruction, owners: map<Address, Address>, e: TokenTransfer) {
    TokenWellFormed(ins, owners) && IsTokenTransferKind(ins) &&
    var info := ins.parsed.value.info;
    info.source.value in owners &&
    e == TokenTransfer(owners[info.source.value], info.source.value, info.destination.value, TransferAmount(info))
  }

  /** Every entry comes from a token-program transfer instruction whose source
      account exists, with the amount and owner read as the extraction reads them. */
  lemma {:induction false} TokenTransfersOfSound(instrs: seq<ParsedInstruction>, owners: map<Address, Address>, k: nat)
    requires forall i :: 0 <= i < |instrs| ==> TokenWellFormed(instrs[i], owners)
    requires k < |TokenTransfersOf(instrs, owners)|
    ensures exists i :: 0 <= i < |instrs| && YieldsEntry(instrs[i], owners, TokenTransfersOf(instrs, owners)[k])
    decreases |instrs|
  {
    var n := |instrs|;
    var front := instrs[..n - 1];
    assert forall i :: 0 <= i < |front| ==> front[i] == instrs[i];
    if k < |TokenTransfersOf(front, owners)| {
      TokenTransfersOfSound(front, owners, k);
      var i :| 0 <= i < |front| && YieldsEntry(front[i], owners, TokenTransfersOf(front, owners)[k]);
      assert instrs[i] == front[i];
    } else {
      assert YieldsEntry(instrs[n - 1], owners, TokenTransfersOf(instrs, owners)[k]);
    }
  }

  /** `getTokenTransferInfoFromParsedTransaction` for the token program; the
      account lookup of each source is the `owners` map. */
  method GetTokenTransferInfoFromParsedTransaction(tx: ParsedTransaction, owners: map<Address, Address>)
    returns (r: Result<seq<TokenTransfer>>)
    ensures r.Ok? <==> forall i :: 0 <= i < |tx.instructions| ==> TokenWellFormed(tx.instructions[i], owners)
    ensures r.Ok? ==> r.value == TokenTransfersOf(tx.instructions, owners)
    ensures r.Err? ==> r.error == MalformedInstruction
  {
    var instrs := tx.instructions;
    var transfers := [];
    for k := 0 to |instrs|
      invariant forall i :: 0 <= i < k ==> TokenWellFormed(instrs[i], owners)
      invariant transfers == TokenTransfersOf(instrs[..k], owners)
    {
      var ins := instrs[k];
      assert instrs[..k + 1][..k] == instrs[..k];
      if ins.programId == TOKEN_PROGRAM_ID {
        if ins.parsed.None? {
          return Err(MalformedInstruction);
        }
        var info := ins.parsed.value.info;
        if Includes(ins.parsed.value.kind, "transfer") {
          if info.source.None? || info.destination.None? {
            return Err(MalformedInstruction);
          }
          if info.source.value in owners {
            if info.tokenAmount.None? && info.amount.None? {
              return Err(MalformedInstruction);
            }
            var amount := if info.tokenAmount.Some? then info.tokenAmount.value else info.amount.value;
            transfers := transfers + [TokenTransfer(owners[info.source.value], info.source.value, info.destination.value, amount)];
          }
        }
      }
    }
    assert instrs[..|instrs|] == instrs;
    return Ok(transfers);
  }

  /** `getTransferTokenFromSignature`. */
  method GetTransferTokenFromSignature(parsed: Option<ParsedTransaction>, owners: map<Address, Address>)
    returns (r: Result<seq<TokenTransfer>>)
    ensures parsed.None? ==> r == Err(TransactionSignatureNotExists)
    ensures parsed.Some? ==> (r.Ok? <==>
      forall i :: 0 <= i < |parsed.value.instructions| ==> TokenWellFormed(parsed.value.instructions[i], owners))
    ensures parsed.Some? && r.Ok? ==> r.value == TokenTransfersOf(parsed.value.instructions, owners)
    ensures parsed.Some? && r.Err? ==> r.error == MalformedInstruction
  {
    if parsed.None? {
      return Err(TransactionSignatureNotExists);
    }
    r := GetTokenTransferInfoFromParsedTransaction(parsed.value, owners);
  }
}
