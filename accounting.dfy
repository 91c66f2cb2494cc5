/** The arithmetic of app/services/pot.ts: the mint quantity of a buy, the
    valuation, fee and progressive tax of a sell, the re-pricing after a
    sell, the pro-rata payout of a redemption and the settlement merge, all
    stated over a snapshot of a game's accounting columns. JavaScript
    doubles are modelled as exact rationals with the rounding written out. */
module Accounting {
  import opened Types

  /** A snapshot of the accounting columns of one game. The claimable pot is a
      real because redemption stores an unrounded value in it. */
  datatype Books = Books(
    overPot: int, underPot: int, totalPot: int,
    overTokenMinted: int, underTokenMinted: int,
    overTokenBurnt: int, underTokenBurnt: int,
    overPrice: int, underPrice: int,
    buyFee: int, sellFee: int,
    claimable: real)
  {
    function PotOf(s: Side): int { if s.Over? then overPot else underPot }
    function MintedOf(s: Side): int { if s.Over? then overTokenMinted else underTokenMinted }
    function BurntOf(s: Side): int { if s.Over? then overTokenBurnt else underTokenBurnt }
    function PriceOf(s: Side): int { if s.Over? then overPrice else underPrice }

    /** Claim tokens of side `s` in circulation. */
    function Outstanding(s: Side): int { MintedOf(s) - BurntOf(s) }

    /** The recorded total equals the sum of the two pots. */
    predicate Balanced() { overPot + underPot == totalPot }
  }

  /** Initial price of both claim tokens: 0.001 SOL in lamports. */
  const INITIAL_PRICE: int := 1_000_000

  /** The accounting columns of a game `start` has just created: every column
      at its default 0, both prices at the initial price. */
  function InitialBooks(): Books
  {
    Books(0, 0, 0, 0, 0, 0, 0, INITIAL_PRICE, INITIAL_PRICE, 0, 0, 0.0)
  }

  /** A new game is balanced, empty, owes nothing to claimants, and prices
      both sides at the initial price. */
  lemma InitialBooksEmpty()
    ensures InitialBooks().Balanced() && InitialBooks().totalPot == 0 && InitialBooks().claimable == 0.0
    ensures InitialBooks().buyFee == 0 && InitialBooks().sellFee == 0
    ensures forall s: Side :: (InitialBooks().Outstanding(s) == 0 && InitialBooks().MintedOf(s) == 0 &&
      InitialBooks().PriceOf(s) == INITIAL_PRICE && InitialBooks().PotOf(s) == 0)
  {
  }

  lemma Pow10Of9()
    ensures Pow10(9) == LAMPORTS_PER_SOL
  {
  }

  // ---------------------------------------------------------------------------
  // calculate
  // ---------------------------------------------------------------------------

  /** `calculate(lamports, price, decimals)`: the lamports after the 1% fee,
      in SOL, divided by the token price in SOL (price / 10^decimals), scaled
      back by 10^decimals and rounded with toFixed(0). */
  function CalculateWith(lamports: int, price: int, decimals: nat): (r: int)
    requires price > 0
    ensures var m := Pow10(decimals) as real;
      var x := ((lamports as real * 0.99) / 1_000_000_000.0) / (price as real / m) * m;
      (x >= 0.0 ==> x - 0.5 < r as real <= x + 0.5) && (x < 0.0 ==> x - 0.5 <= r as real < x + 0.5)
  {
    var m := Pow10(decimals) as real;
    ToFixed0(((lamports as real * 0.99) / 1_000_000_000.0) / (price as real / m) * m)
  }

  /** `calculate` with its default of 9 decimals, the only way `buy` calls it. */
  function Calculate(lamports: nat, price: int): (r: int)
    requires price > 0
  {
    CalculateWith(lamports, price, 9)
  }

  lemma CalculateExpression(lamports: nat, price: int)
    requires price > 0
    ensures ((lamports as real * 0.99) / 1_000_000_000.0) / (price as real / Pow10(9) as real) * Pow10(9) as real
         == (99 * lamports * LAMPORTS_PER_SOL) as real / (100 * price) as real
  {
    Pow10Of9();
    var p := price as real;
    var l := lamports as real;
    calc {
      ((l * 0.99) / 1_000_000_000.0) / (p / 1_000_000_000.0) * 1_000_000_000.0;
      (l * 0.99) / p * 1_000_000_000.0;
      (99 * lamports * LAMPORTS_PER_SOL) as real / (100 * price) as real;
    }
  }

  /** With 9 decimals the mint quantity is the nearest integer to
      0.99 * lamports * 10^9 / price, halves rounded up, and never negative. */
  lemma CalculateIsNearest(lamports: nat, price: int)
    requires price > 0
    ensures var x := (99 * lamports * LAMPORTS_PER_SOL) as real / (100 * price) as real;
      Calculate(lamports, price) >= 0 && x - 0.5 < Calculate(lamports, price) as real <= x + 0.5
  {
    CalculateExpression(lamports, price);
  }

  lemma FloorMonotone(x: real, y: real)
    requires x <= y
    ensures Floor(x) <= Floor(y)
  {
  }

  /** For a fixed positive price, more lamports never mint fewer tokens. */
  lemma {:induction false} CalculateMonotone(l1: nat, l2: nat, price: int)
    requires price > 0 && l1 <= l2
    ensures Calculate(l1, price) <= Calculate(l2, price)
  {
    CalculateExpression(l1, price);
    CalculateExpression(l2, price);
    var x1 := (99 * l1 * LAMPORTS_PER_SOL) as real / (100 * price) as real;
    var x2 := (99 * l2 * LAMPORTS_PER_SOL) as real / (100 * price) as real;
    assert (99 * l1 * LAMPORTS_PER_SOL) <= (99 * l2 * LAMPORTS_PER_SOL);
    assert x1 <= x2;
    FloorMonotone(x1 + 0.5, x2 + 0.5);
  }

  // ---------------------------------------------------------------------------
  // buy
  // ---------------------------------------------------------------------------

  /** The buy fee: `Number((lamports * 0.01).toFixed(0))`. */
  function BuyFee(lamports: nat): (f: int)
    ensures f >= 0 && lamports as real / 100.0 - 0.5 < f as real <= lamports as real / 100.0 + 0.5
  {
    ToFixed0(lamports as real * 0.01)
  }

  /** The accounting effect of a buy of `lamports` on side `s`. */
  function BuyBooks(b: Books, s: Side, lamports: nat): Books
    requires b.PriceOf(s) > 0
  {
    var minted := Calculate(lamports, b.PriceOf(s));
    var fee := BuyFee(lamports);
    var b1 := b.(totalPot := b.totalPot + lamports, buyFee := b.buyFee + fee);
    var b2 := if s.Over? then b1.(overPot := b.overPot + lamports, overTokenMinted := b.overTokenMinted + minted)
              else b1.(underPot := b.underPot + lamports, underTokenMinted := b.underTokenMinted + minted);
    b2.(claimable := (b2.totalPot - (b2.buyFee + b2.sellFee)) as real)
  }

  /** A buy adds the lamports to the bought pot and to the total, mints the
      calculated quantity of the bought side, adds the buy fee, and sets the
      claimable pot to the total less all fees; nothing else changes. */
  lemma BuyBooksEffect(b: Books, s: Side, lamports: nat)
    requires b.PriceOf(s) > 0
    ensures var r := BuyBooks(b, s, lamports);
      && r.PotOf(s) == b.PotOf(s) + lamports && r.PotOf(s.Other()) == b.PotOf(s.Other())
      && r.totalPot == b.totalPot + lamports
      && r.MintedOf(s) == b.MintedOf(s) + Calculate(lamports, b.PriceOf(s))
      && r.MintedOf(s.Other()) == b.MintedOf(s.Other())
      && (forall t: Side :: r.BurntOf(t) == b.BurntOf(t) && r.PriceOf(t) == b.PriceOf(t))
      && r.buyFee == b.buyFee + BuyFee(lamports) && r.sellFee == b.sellFee
      && r.claimable == (r.totalPot - (r.buyFee + r.sellFee)) as real
  {
  }

  /** A buy keeps the recorded total equal to the sum of the pots. */
  lemma BuyKeepsBalanced(b: Books, s: Side, lamports: nat)
    requires b.PriceOf(s) > 0 && b.Balanced()
    ensures BuyBooks(b, s, lamports).Balanced()
  {
  }

  /** A buy never shrinks the circulating supply of either side. */
  lemma BuyGrowsSupply(b: Books, s: Side, lamports: nat)
    requires b.PriceOf(s) > 0
    ensures forall t: Side :: BuyBooks(b, s, lamports).Outstanding(t) >= b.Outstanding(t)
  {
    CalculateIsNearest(lamports, b.PriceOf(s));
  }

  // ---------------------------------------------------------------------------
  // sell
  // ---------------------------------------------------------------------------

  /** The valuation of a sell. */
  datatype SellQuote = SellQuote(
    solValue: real, fee: int, nett: real, tax: real, payout: int, redistribution: int)

  /** Network fee kept back from the seller's leg and taken from the pot. */
  const SELL_POT_FEE: int := NETWORK_FEE

  /** The progressive tax rate after `elapsed` minutes: 0 at the start,
      growing linearly to 0.99 at 60 minutes. */
  function Tax(elapsed: real): real
  {
    (elapsed / 60.0) * (99.0 / 100.0)
  }

  /** Within the hour the tax rate lies between 0 and 0.99. */
  lemma TaxWithinHour(elapsed: real)
    ensures elapsed >= 0.0 ==> Tax(elapsed) >= 0.0
    ensures elapsed <= 60.0 ==> Tax(elapsed) <= 0.99
  {
  }

  /** The valuation of selling `amount` base units at `price` lamports per
      token after `elapsed` minutes: the value in lamports, the 1% fee rounded
      with toFixed(0), the nett value, the tax rate, the seller's payout
      (floor of the untaxed share) and the redistribution to the other pot
      (floor of two thirds of the taxed share). */
  function QuoteSell(price: int, amount: nat, elapsed: real): SellQuote
  {
    var solValue := price as real * (amount as real / 1_000_000_000.0);
    var fee := ToFixed0(solValue * 0.01);
    var nett := solValue - fee as real;
    var tax := Tax(elapsed);
    SellQuote(solValue, fee, nett, tax, Floor((1.0 - tax) * nett), Floor((2.0 * tax * nett) / 3.0))
  }

  /** The quote is the token value in lamports, its 1% fee rounded to the
      nearest lamport, the nett value after the fee, the tax rate, the
      untaxed share of the nett value rounded down, and two thirds of the
      taxed share rounded down. */
  lemma QuoteSellValuation(price: int, amount: nat, elapsed: real)
    ensures var q := QuoteSell(price, amount, elapsed);
      && q.solValue == price as real * amount as real / 1_000_000_000.0
      && q.nett == q.solValue - q.fee as real
      && (q.solValue >= 0.0 ==> q.solValue / 100.0 - 0.5 < q.fee as real <= q.solValue / 100.0 + 0.5)
      && q.tax == Tax(elapsed)
      && q.payout as real <= (1.0 - q.tax) * q.nett < q.payout as real + 1.0
      && q.redistribution as real <= 2.0 * q.tax * q.nett / 3.0 < q.redistribution as real + 1.0
  {
  }

  /** Selling at the very start pays the whole nett value, rounded down, and
      moves nothing to the other pot. */
  lemma QuoteAtStart(price: int, amount: nat)
    ensures QuoteSell(price, amount, 0.0).payout == Floor(QuoteSell(price, amount, 0.0).nett)
    ensures QuoteSell(price, amount, 0.0).redistribution == 0
  {
  }

  /** At a non-negative price the nett value is non-negative. */
  lemma QuoteNettSign(price: int, amount: nat, elapsed: real)
    requires price >= 0
    ensures QuoteSell(price, amount, elapsed).nett >= 0.0
  {
    var q := QuoteSell(price, amount, elapsed);
    assert q.solValue >= 0.0;
  }

  /** Waiting longer never pays the seller more and never moves less to the
      other pot (for a non-negative nett value). */
  lemma {:induction false} QuoteMonotoneInTime(price: int, amount: nat, e1: real, e2: real)
    requires e1 <= e2
    requires QuoteSell(price, amount, e1).nett >= 0.0
    ensures QuoteSell(price, amount, e2).payout <= QuoteSell(price, amount, e1).payout
    ensures QuoteSell(price, amount, e1).redistribution <= QuoteSell(price, amount, e2).redistribution
  {
    var q1 := QuoteSell(price, amount, e1);
    var q2 := QuoteSell(price, amount, e2);
    QuotesOrdered(q1, q2);
  }

  /** Two quotes of the same non-negative nett value: the one with the
      higher tax rate leaves the seller no more and moves no less to the
      other pot. */
  lemma QuotesOrdered(q1: SellQuote, q2: SellQuote)
    requires q1.nett == q2.nett && q1.nett >= 0.0 && q1.tax <= q2.tax
    requires q1.payout == Floor((1.0 - q1.tax) * q1.nett) && q2.payout == Floor((1.0 - q2.tax) * q2.nett)
    requires q1.redistribution == Floor(2.0 * q1.tax * q1.nett / 3.0)
    requires q2.redistribution == Floor(2.0 * q2.tax * q2.nett / 3.0)
    ensures q2.payout <= q1.payout && q1.redistribution <= q2.redistribution
  {
    var t1, t2, n := q1.tax, q2.tax, q1.nett;
    assert (1.0 - t1) * n - (1.0 - t2) * n == (t2 - t1) * n;
    MulNonNegative(t2 - t1, n);
    FloorMonotone((1.0 - t2) * n, (1.0 - t1) * n);
    assert 2.0 * t2 * n / 3.0 - 2.0 * t1 * n / 3.0 == 2.0 * ((t2 - t1) * n) / 3.0;
    FloorMonotone(2.0 * t1 * n / 3.0, 2.0 * t2 * n / 3.0);
  }

  /** Within the hour the seller's and the other pot's shares together never
      exceed the nett value. */
  lemma QuoteSharesWithinNett(price: int, amount: nat, elapsed: real)
    requires 0.0 <= elapsed
    requires QuoteSell(price, amount, elapsed).nett >= 0.0
    ensures var q := QuoteSell(price, amount, elapsed);
      (q.payout + q.redistribution) as real <= q.nett
  {
    var q := QuoteSell(price, amount, elapsed);
    assert (1.0 - q.tax) * q.nett + 2.0 * q.tax * q.nett / 3.0 == q.nett - q.tax * q.nett / 3.0;
    assert q.tax >= 0.0;
    MulNonNegative(q.tax, q.nett);
  }

  lemma MulNonNegative(a: real, b: real)
    requires a >= 0.0 && b >= 0.0
    ensures a * b >= 0.0
  {
  }

  /** The price of a side after a sell: the pot per outstanding token, scaled
      to lamports and rounded with Math.round, when tokens are outstanding;
      otherwise the previous price. */
  function Reprice(pot: int, outstanding: int, previous: int): int
  {
    if outstanding > 0 then MathRound(pot as real / outstanding as real * LAMPORTS_PER_SOL as real)
    else previous
  }

  /** With tokens outstanding the new price is the nearest integer to the pot
      per outstanding token in lamports; without, the price stays. */
  lemma RepriceIsNearest(pot: int, outstanding: int, previous: int)
    ensures outstanding > 0 ==>
      var x := pot as real / outstanding as real * LAMPORTS_PER_SOL as real;
      x - 0.5 < Reprice(pot, outstanding, previous) as real <= x + 0.5
    ensures outstanding <= 0 ==> Reprice(pot, outstanding, previous) == previous
  {
  }

  /** The accounting effect of a sell of `amount` on side `s` valued by `q`. */
  function SellBooks(b: Books, s: Side, amount: nat, q: SellQuote): Books
  {
    var b1 := if s.Under? then b.(underTokenBurnt := b.underTokenBurnt + amount)
              else b.(overTokenBurnt := b.overTokenBurnt + amount);
    var b2 := b1.(sellFee := b.sellFee + q.fee);
    var b3 := if s.Under? then b2.(overPot := b.overPot + q.redistribution,
                                   underPot := b.underPot - (q.redistribution + SELL_POT_FEE))
              else b2.(overPot := b.overPot - (q.redistribution + SELL_POT_FEE),
                       underPot := b.underPot + q.redistribution);
    var b4 := b3.(totalPot := b3.overPot + b3.underPot);
    b4.(underPrice := Reprice(b4.underPot, b4.Outstanding(Under), b.underPrice),
        overPrice := Reprice(b4.overPot, b4.Outstanding(Over), b.overPrice))
  }

  /** A sell burns the sold tokens, moves the redistribution to the other pot
      and it plus the network fee out of the sold pot, recomputes the total
      from the pots, adds the sell fee, leaves the claimable pot alone, and
      reprices each side from its new pot and circulating supply. */
  lemma SellBooksEffect(b: Books, s: Side, amount: nat, q: SellQuote)
    ensures var r := SellBooks(b, s, amount, q);
      && r.BurntOf(s) == b.BurntOf(s) + amount && r.BurntOf(s.Other()) == b.BurntOf(s.Other())
      && (forall t: Side :: r.MintedOf(t) == b.MintedOf(t))
      && r.PotOf(s.Other()) == b.PotOf(s.Other()) + q.redistribution
      && r.PotOf(s) == b.PotOf(s) - (q.redistribution + SELL_POT_FEE)
      && r.totalPot == r.overPot + r.underPot == b.overPot + b.underPot - SELL_POT_FEE
      && r.sellFee == b.sellFee + q.fee && r.buyFee == b.buyFee
      && r.claimable == b.claimable
      && (forall t: Side :: r.PriceOf(t) == Reprice(r.PotOf(t), r.Outstanding(t), b.PriceOf(t)))
  {
  }

  /** The recorded total after a sell is the previous total less the network
      fee, whatever the previous bookkeeping said, and it is balanced. */
  lemma SellRebalances(b: Books, s: Side, amount: nat, q: SellQuote)
    requires b.Balanced()
    ensures SellBooks(b, s, amount, q).Balanced()
    ensures SellBooks(b, s, amount, q).totalPot == b.totalPot - SELL_POT_FEE
  {
  }

  /** The legs of the sell payout: the redistribution to the other pot, then
      the seller's payout less the network fee. */
  datatype Leg = Leg(to: Address, lamports: int)

  function SellLegs(q: SellQuote, otherPot: Address, seller: Address): (legs: seq<Leg>)
    ensures |legs| == 2
    ensures legs[0] == Leg(otherPot, q.redistribution)
    ensures legs[1] == Leg(seller, q.payout - NETWORK_FEE)
  {
    [Leg(otherPot, q.redistribution), Leg(seller, q.payout - NETWORK_FEE)]
  }

  // ---------------------------------------------------------------------------
  // redeem
  // ---------------------------------------------------------------------------

  /** The side `redeem` pays: under when the end price fell strictly below the
      start price, over otherwise. */
  function RedeemWinner(priceStart: real, priceEnd: real): (s: Side)
    ensures s.Under? <==> priceEnd < priceStart
  {
    if priceEnd < priceStart then Under else Over
  }

  /** The pro-rata payout of `amount` claim tokens out of `supply`. */
  function RedeemValue(amount: nat, supply: int, claimable: real): real
    requires supply != 0
  {
    (amount as real / supply as real) * claimable
  }

  /** The accounting effect of redeeming `amount` tokens of the winning side `s`. */
  function RedeemBooks(b: Books, s: Side, amount: nat): Books
    requires b.Outstanding(s) != 0
  {
    var value := RedeemValue(amount, b.Outstanding(s), b.claimable);
    var b1 := if s.Under? then b.(underTokenBurnt := b.underTokenBurnt + amount)
              else b.(overTokenBurnt := b.overTokenBurnt + amount);
    b1.(claimable := b.claimable - value)
  }

  /** A redemption burns the redeemed tokens of the winning side and takes
      exactly their pro-rata value out of the claimable pot; nothing else
      changes. */
  lemma RedeemBooksEffect(b: Books, s: Side, amount: nat)
    requires b.Outstanding(s) != 0
    ensures var r := RedeemBooks(b, s, amount);
      && r.claimable == b.claimable - RedeemValue(amount, b.Outstanding(s), b.claimable)
      && r.BurntOf(s) == b.BurntOf(s) + amount && r.BurntOf(s.Other()) == b.BurntOf(s.Other())
      && (forall t: Side :: r.PotOf(t) == b.PotOf(t) && r.MintedOf(t) == b.MintedOf(t) && r.PriceOf(t) == b.PriceOf(t))
      && r.totalPot == b.totalPot && r.buyFee == b.buyFee && r.sellFee == b.sellFee
  {
  }

  /** Redemption is pro rata: redeeming part of the supply leaves every
      remaining token the same share of the claimable pot, so the order in
      which holders redeem does not change what each receives. */
  lemma RedeemKeepsShare(b: Books, s: Side, amount: nat)
    requires b.Outstanding(s) != 0 && b.Outstanding(s) - amount != 0
    ensures var r := RedeemBooks(b, s, amount);
      r.Outstanding(s) == b.Outstanding(s) - amount &&
      r.claimable / r.Outstanding(s) as real == b.claimable / b.Outstanding(s) as real
  {
    var S := b.Outstanding(s) as real;
    var a := amount as real;
    var c := b.claimable;
    var r := RedeemBooks(b, s, amount);
    assert r.claimable == c - (a / S) * c;
    ProRata(c, a, S);
  }

  /** Taking the share a/S of c leaves, per remaining unit, what each unit
      had before. */
  lemma ProRata(c: real, a: real, S: real)
    requires S != 0.0 && S - a != 0.0
    ensures (c - (a / S) * c) / (S - a) == c / S
  {
    var x := c / S;
    assert c == x * S;
    assert (a / S) * c == a * x;
    assert c - (a / S) * c == x * (S - a);
  }

  /** A redemption of at most the outstanding supply never overdraws the
      claimable pot. */
  lemma RedeemWithinClaimable(b: Books, s: Side, amount: nat)
    requires b.Outstanding(s) > 0 && amount <= b.Outstanding(s) && b.claimable >= 0.0
    ensures 0.0 <= RedeemValue(amount, b.Outstanding(s), b.claimable) <= b.claimable
    ensures RedeemBooks(b, s, amount).claimable >= 0.0
  {
    var f := amount as real / b.Outstanding(s) as real;
    assert 0.0 <= f <= 1.0;
    MulNonNegative(f, b.claimable);
    MulNonNegative(1.0 - f, b.claimable);
    assert b.claimable - f * b.claimable == (1.0 - f) * b.claimable;
  }

  // ---------------------------------------------------------------------------
  // settle
  // ---------------------------------------------------------------------------

  /** The side `settle` declares the winner: over only when the current price
      is strictly above the start price. */
  function SettleWinner(priceStart: real, current: real): (s: Side)
    ensures s.Over? <==> current > priceStart
  {
    if current > priceStart then Over else Under
  }

  /** Settlement stores the price it judged by as the end price; `redeem`
      then pays the side `settle` chose except on an exact tie, where
      `settle` chose under and `redeem` pays over. */
  lemma WinnersDisagreeOnlyOnTie(priceStart: real, current: real)
    ensures SettleWinner(priceStart, current) == RedeemWinner(priceStart, current) <==> current != priceStart
    ensures current == priceStart ==>
      SettleWinner(priceStart, current) == Under && RedeemWinner(priceStart, current) == Over
  {
  }

  /** The merge of a successful settlement: the loser's pot moves to the winner. */
  function MergeBooks(b: Books, winner: Side): Books
  {
    if winner.Over? then b.(overPot := b.overPot + b.underPot, underPot := 0)
    else b.(underPot := b.underPot + b.overPot, overPot := 0)
  }

  /** The merge empties the loser's pot into the winner's and changes nothing
      else, so the pots keep their sum. */
  lemma MergeBooksEffect(b: Books, winner: Side)
    ensures var r := MergeBooks(b, winner);
      && r.PotOf(winner) == b.overPot + b.underPot && r.PotOf(winner.Other()) == 0
      && r.overPot + r.underPot == b.overPot + b.underPot
      && r.totalPot == b.totalPot && r.claimable == b.claimable
      && (forall t: Side :: r.MintedOf(t) == b.MintedOf(t) && r.BurntOf(t) == b.BurntOf(t) && r.PriceOf(t) == b.PriceOf(t))
      && r.buyFee == b.buyFee && r.sellFee == b.sellFee
  {
  }

  /** The merge keeps the books balanced. */
  lemma MergeKeepsBalanced(b: Books, winner: Side)
    requires b.Balanced()
    ensures MergeBooks(b, winner).Balanced()
  {
  }
}
