/** The ledger values the services read and build: parsed instructions as the
    ledger's JSON parser returns them, and the instructions the services
    assemble into transactions. Every ledger call is abstracted into such
    values; nothing here talks to the ledger. */
module Chain {
  import opened Types

  /** Program ids the matching code compares instruction program ids with. */
  const SYSTEM_PROGRAM_ID: Address := "11111111111111111111111111111111"
  const TOKEN_PROGRAM_ID: Address := "TokenkegQfeZyiNwAJbNbGKPFXCWuBvf9Ss623VQ5DA"

  /** Size in bytes of a token mint account. */
  const MINT_SIZE: nat := 82

  /** The `info` object of a parsed instruction. Each field is present only for
      the instruction kinds that carry it: a system `transfer` carries source,
      destination and lamports; a token `transferChecked` carries source,
      destination, mint and tokenAmount.amount; a plain token `transfer`
      carries amount instead of mint and tokenAmount. */
  datatype Info = Info(
    source: Option<Address>,
    destination: Option<Address>,
    lamports: Option<nat>,
    mint: Option<Address>,
    tokenAmount: Option<nat>,
    amount: Option<nat>)

  /** The `parsed` object: the instruction kind (`type`) and its info. */
  datatype Parsed = Parsed(kind: string, info: Info)

  /** One top-level instruction of a parsed transaction; `parsed` is absent when
      the ledger could not decode the instruction. */
  datatype ParsedInstruction = ParsedInstruction(
    programId: Address,
    program: string,
    parsed: Option<Parsed>)

  datatype ParsedTransaction = ParsedTransaction(instructions: seq<ParsedInstruction>)

  /** The instructions the services assemble. */
  datatype Instruction =
    | SetComputeUnitLimit(units: nat)
    | SetComputeUnitPrice(microLamports: nat)
    | Memo(text: string)
    | Transfer(from: Address, to: Address, lamports: int)
    | CreateAccount(from: Address, newAccount: Address, space: nat, lamports: int, programId: Address)
    | InitializeMint(mint: Address, decimals: nat, mintAuthority: Address, freezeAuthority: Address)
    | CreateAssociatedTokenAccount(payer: Address, account: Address, owner: Address, mint: Address)
    | Burn(account: Address, mint: Address, owner: Address, amount: real)
    | Allocate(account: Address, space: nat)

  /** The outcome of submitting one transaction: its signature and whether the
      confirmation wait succeeded, or a failure the services retry from the
      top (an expired blockhash or a send error), or any other failure. */
  datatype SendOutcome =
    | Sent(signature: Signature, confirmed: bool)
    | SendTransient
    | SendFatal(reason: string)

  /** The outcome of the last attempt of an operation: every transient attempt
      before it was rolled back, so only a final outcome reaches a caller that
      the source makes wait for the retries. */
  type FinalSend = s: SendOutcome | !s.SendTransient? witness SendFatal("")

  /** The outcome of a `mintTo` call: the mint signature, a send failure the
      services retry from the top, or any other failure. */
  datatype MintOutcome =
    | Minted(signature: Signature)
    | MintTransient
    | MintFatal(reason: string)

  /** The outcome of the last attempt of a buy's mint. */
  type FinalMint = m: MintOutcome | !m.MintTransient? witness MintFatal("")
}
