/** Shared vocabulary of the over/under engine: ledger addresses and signatures,
    the two sides of a game, the error kinds the services raise, and the
    JavaScript rounding primitives the accounting formulas use. */
module Types {

  /** A ledger address (public key), compared only for equality. */
  type Address = string

  /** A ledger transaction signature, compared only for equality. */
  type Signature = string

  datatype Option<T> = None | Some(value: T) {
    function GetOr(default: T): T {
      match this
      case Some(v) => v
      case None => default
    }
  }

  /** The two pots of a game: betting that the price rises, or that it falls. */
  datatype Side = Over | Under {
    function Other(): (s: Side)
      ensures s != this
    {
      if Over? then Under else Over
    }
  }

  /** The error kinds of app/services/errors.ts and app/chain/solana/errors.ts,
      plus the kinds of failure that come from below the services: a ledger
      call that failed for good, a thrown TypeError on a malformed parsed
      instruction, and a query the database rejects. */
  datatype Error =
    | InvalidSignatureForInitiateGame
    | InvalidContractAddress
    | RouteNotFound
    | FailedGetSolanaPriceInUsd
    | TransactionSignatureAlreadyExists
    | TransactionSignatureNotExists
    | NoActiveGame
    | GameIsNotEnded
    | ZeroGameTokenSupply
    | NoClaimableSolInGame
    | InvalidTransaction
    | RowNotFound
    | LedgerFailure(reason: string)
    | MalformedInstruction
    | DatabaseFailure(reason: string)

  datatype Result<T> = Ok(value: T) | Err(error: Error)

  /** Lamports in one SOL; also the fixed-point scale of the claim-token prices. */
  const LAMPORTS_PER_SOL: int := 1_000_000_000

  /** Lamports kept back on every payout leg for the network fee. */
  const NETWORK_FEE: int := 5000

  /** Milliseconds in a minute; times are modelled as millisecond instants. */
  const MS_PER_MINUTE: int := 60_000

  /** Length of a game's active window, in minutes. */
  const GAME_MINUTES: int := 60

  /** 10 to the power `n`. */
  function Pow10(n: nat): (r: nat)
    ensures r >= 1
  {
    if n == 0 then 1 else 10 * Pow10(n - 1)
  }

  /** Math.floor on an exact real. */
  function Floor(x: real): (r: int)
    ensures r as real <= x < r as real + 1.0
  {
    x.Floor
  }

  /** Math.round on an exact real: the nearest integer, halves upward. */
  function MathRound(x: real): (r: int)
    ensures x - 0.5 < r as real <= x + 0.5
  {
    Floor(x + 0.5)
  }

  /** Number(x.toFixed(0)) on an exact real: the nearest integer, halves away
      from zero. */
  function ToFixed0(x: real): (r: int)
    ensures x >= 0.0 ==> r >= 0 && x - 0.5 < r as real <= x + 0.5
    ensures x < 0.0 ==> r <= 0 && x - 0.5 <= r as real < x + 0.5
  {
    if x >= 0.0 then MathRound(x) else -MathRound(-x)
  }

  /** The decimal numeral of `n`, as a template literal renders a number. */
  function NatToString(n: nat): (s: string)
    ensures |s| >= 1
    ensures forall i :: 0 <= i < |s| ==> '0' <= s[i] <= '9'
    decreases n
  {
    if n < 10 then [(48 + n) as char] else NatToString(n / 10) + NatToString(n % 10)
  }

  /** The number a string of decimal digits denotes. */
  function DecimalValue(s: string): nat
    requires forall i :: 0 <= i < |s| ==> '0' <= s[i] <= '9'
  {
    if |s| == 0 then 0 else 10 * DecimalValue(s[..|s| - 1]) + (s[|s| - 1] as int - 48)
  }

  /** Reading the numeral back gives the number. */
  lemma {:induction false} DecimalRoundTrip(n: nat)
    ensures DecimalValue(NatToString(n)) == n
    decreases n
  {
    if n >= 10 {
      var hi, lo := NatToString(n / 10), NatToString(n % 10);
      DecimalRoundTrip(n / 10);
      assert (hi + lo)[..|hi + lo| - 1] == hi;
    }
  }

  /** Distinct numbers have distinct numerals. */
  lemma NatToStringInjective(m: nat, n: nat)
    ensures NatToString(m) == NatToString(n) ==> m == n
  {
    DecimalRoundTrip(m);
    DecimalRoundTrip(n);
  }

  /** (now - start) in fractional minutes, as luxon's diff(..., 'minutes') gives it. */
  function ElapsedMinutes(now: int, start: int): (m: real)
    ensures m < GAME_MINUTES as real <==> now - start < GAME_MINUTES * MS_PER_MINUTE
    ensures m >= 0.0 <==> now >= start
  {
    (now - start) as real / MS_PER_MINUTE as real
  }
}
