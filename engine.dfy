/** engine.py: the permutation count of a 4D number, the odds and commission
    tables, and `calculate`, which writes stake, payout and commission into
    each bet record and sums them up. Money is exact `real`. */
module Engine {
  import opened Wrappers
  import opened BetParser
  import opened Arith

  // ---------------------------------------------------------------------
  // The permutation count of a number

  /** How often `c` occurs in `s`: `Counter(s)[c]`. */
  function Occurrences(s: string, c: char): (n: nat)
    ensures n <= |s|
  {
    if s == [] then 0
    else Occurrences(s[..|s| - 1], c) + (if s[|s| - 1] == c then 1 else 0)
  }

  predicate NoDuplicates(d: string) {
    forall i, j :: 0 <= i < j < |d| ==> d[i] != d[j]
  }

  /** The keys of `Counter(s)`: each character of `s` once, in order of first
      occurrence. */
  function Distinct(s: string): (d: string)
    ensures forall c :: c in d <==> c in s
    ensures NoDuplicates(d)
    ensures |d| <= |s|
  {
    if s == [] then []
    else
      var p := Distinct(s[..|s| - 1]);
      if s[|s| - 1] in s[..|s| - 1] then p else p + [s[|s| - 1]]
  }

  /** The multiplicities of the characters `ds` in `s`, in the order of `ds`. */
  function CountsOf(s: string, ds: string): (cs: seq<nat>)
    ensures |cs| == |ds|
  {
    if ds == [] then []
    else CountsOf(s, ds[..|ds| - 1]) + [Occurrences(s, ds[|ds| - 1])]
  }

  /** `Counter(s).values()`. */
  function Counts(s: string): seq<nat> {
    CountsOf(s, Distinct(s))
  }

  function Fact(n: nat): (f: nat)
    ensures f >= 1
  {
    if n == 0 then 1 else n * Fact(n - 1)
  }

  /** The product of the factorials of `cs`. */
  function FactProduct(cs: seq<nat>): (p: nat)
    ensures p >= 1
  {
    if cs == [] then 1 else FactProduct(cs[..|cs| - 1]) * Fact(cs[|cs| - 1])
  }

  function Sum(cs: seq<nat>): nat {
    if cs == [] then 0 else Sum(cs[..|cs| - 1]) + cs[|cs| - 1]
  }

  /** `4! / Π count(d)!`, the number of distinct orderings of a 4D number. */
  function PermutationCount(number: string): nat {
    Fact(4) / FactProduct(Counts(number))
  }

  /** `_combination_count(number)`: start from `4!` and floor-divide by the
      factorial of each multiplicity in turn. */
  method CombinationCount(number: string) returns (comb: nat)
    ensures comb == PermutationCount(number)
  {
    var values := Counts(number);
    comb := Fact(4);
    assert values[..0] == [];
    for i := 0 to |values|
      invariant comb == Fact(4) / FactProduct(values[..i])
    {
      assert values[..i + 1][..i] == values[..i];
      DivDiv(Fact(4), FactProduct(values[..i]), Fact(values[i]));
      comb := comb / Fact(values[i]);
    }
    assert values[..|values|] == values;
  }

  // --- multiplicities

  lemma {:induction false} OccurrencesPositive(s: string, c: char)
    requires c in s
    ensures Occurrences(s, c) >= 1
  {
    var p := s[..|s| - 1];
    if s[|s| - 1] != c {
      assert s == p + [s[|s| - 1]];
      assert c in p;
      OccurrencesPositive(p, c);
    }
  }

  lemma {:induction false} OccurrencesAbsent(s: string, c: char)
    requires c !in s
    ensures Occurrences(s, c) == 0
  {
    if s != [] {
      var p := s[..|s| - 1];
      assert forall x :: x in p ==> x in s;
      OccurrencesAbsent(p, c);
    }
  }

  lemma {:induction false} CountsOfPositive(s: string, ds: string)
    requires forall c :: c in ds ==> c in s
    ensures forall i :: 0 <= i < |ds| ==> CountsOf(s, ds)[i] >= 1
  {
    if ds != [] {
      var p := ds[..|ds| - 1];
      assert forall c :: c in p ==> c in ds;
      CountsOfPositive(s, p);
      OccurrencesPositive(s, ds[|ds| - 1]);
    }
  }

  /** Adding one character adds one to its own multiplicity and leaves the
      others alone. */
  lemma {:induction false} CountsOfSnoc(p: string, c: char, ds: string)
    requires NoDuplicates(ds)
    ensures Sum(CountsOf(p + [c], ds)) == Sum(CountsOf(p, ds)) + (if c in ds then 1 else 0)
  {
    if ds != [] {
      var q := ds[..|ds| - 1];
      var last := ds[|ds| - 1];
      assert (p + [c])[..|p + [c]| - 1] == p;
      CountsOfSnoc(p, c, q);
      assert c in ds <==> c in q || c == last;
      assert c == last ==> c !in q;
    }
  }

  /** The multiplicities of a string add up to its length. */
  lemma {:induction false} CountsSum(s: string)
    ensures Sum(Counts(s)) == |s|
  {
    if s != [] {
      var p := s[..|s| - 1];
      var c := s[|s| - 1];
      assert s == p + [c];
      CountsSum(p);
      if c in p {
        CountsOfSnoc(p, c, Distinct(p));
      } else {
        var dp := Distinct(p);
        assert Distinct(s) == dp + [c];
        assert (dp + [c])[..|dp|] == dp;
        CountsOfSnoc(p, c, dp);
        OccurrencesAbsent(p, c);
      }
    }
  }

  /** Every value of `Counter(s)` is at least 1 and together they make up `|s|`. */
  lemma CountsArePartition(s: string)
    ensures Sum(Counts(s)) == |s|
    ensures forall i :: 0 <= i < |Counts(s)| ==> Counts(s)[i] >= 1
    ensures |Counts(s)| == |Distinct(s)|
  {
    CountsSum(s);
    CountsOfPositive(s, Distinct(s));
  }

  lemma {:induction false} SumAtLeastLength(cs: seq<nat>)
    requires forall i :: 0 <= i < |cs| ==> cs[i] >= 1
    ensures Sum(cs) >= |cs|
  {
    if cs != [] {
      SumAtLeastLength(cs[..|cs| - 1]);
    }
  }

  lemma FactProductSnoc(cs: seq<nat>, x: nat)
    ensures FactProduct(cs + [x]) == FactProduct(cs) * Fact(x)
    ensures Sum(cs + [x]) == Sum(cs) + x
  {
    assert (cs + [x])[..|cs|] == cs;
  }

  lemma TwoParts(a: nat, b: nat)
    requires a >= 1 && b >= 1 && a + b == 4
    ensures FactProduct([a, b]) in {4, 6} && Sum([a, b]) == 4
  {
    FactProductSnoc([], a);
    FactProductSnoc([a], b);
    assert [] + [a] == [a] && [a] + [b] == [a, b];
    assert Fact(1) == 1 && Fact(2) == 2 && Fact(3) == 6;
  }

  lemma ThreeParts(a: nat, b: nat, c: nat)
    requires a >= 1 && b >= 1 && c >= 1 && a + b + c == 4
    ensures FactProduct([a, b, c]) == 2
  {
    FactProductSnoc([], a);
    FactProductSnoc([a], b);
    FactProductSnoc([a, b], c);
    assert [] + [a] == [a] && [a] + [b] == [a, b] && [a, b] + [c] == [a, b, c];
    assert Fact(1) == 1 && Fact(2) == 2;
  }

  lemma FourParts(a: nat, b: nat, c: nat, d: nat)
    requires a == 1 && b == 1 && c == 1 && d == 1
    ensures FactProduct([a, b, c, d]) == 1
  {
    FactProductSnoc([], a);
    FactProductSnoc([a], b);
    FactProductSnoc([a, b], c);
    FactProductSnoc([a, b, c], d);
    assert [] + [a] == [a] && [a] + [b] == [a, b] && [a, b] + [c] == [a, b, c];
    assert [a, b, c] + [d] == [a, b, c, d];
    assert Fact(1) == 1;
  }

  lemma OnePartOf(cs: seq<nat>)
    requires |cs| == 1 && Sum(cs) == 4
    ensures FactProduct(cs) == 24
  {
    FactProductSnoc([], cs[0]);
    assert [] + [cs[0]] == cs;
    assert Fact(4) == 24;
  }

  lemma TwoPartsOf(cs: seq<nat>)
    requires |cs| == 2 && cs[0] >= 1 && cs[1] >= 1 && Sum(cs) == 4
    ensures FactProduct(cs) in {4, 6}
  {
    FactProductSnoc([], cs[0]);
    FactProductSnoc([cs[0]], cs[1]);
    assert [] + [cs[0]] == [cs[0]] && [cs[0]] + [cs[1]] == cs;
    TwoParts(cs[0], cs[1]);
  }

  lemma ThreePartsOf(cs: seq<nat>)
    requires |cs| == 3 && cs[0] >= 1 && cs[1] >= 1 && cs[2] >= 1 && Sum(cs) == 4
    ensures FactProduct(cs) == 2
  {
    var p := [cs[0], cs[1]];
    FactProductSnoc([], cs[0]);
    FactProductSnoc([cs[0]], cs[1]);
    FactProductSnoc(p, cs[2]);
    assert [] + [cs[0]] == [cs[0]] && [cs[0]] + [cs[1]] == p && p + [cs[2]] == cs;
    ThreeParts(cs[0], cs[1], cs[2]);
  }

  lemma FourPartsOf(cs: seq<nat>)
    requires |cs| == 4 && cs[0] >= 1 && cs[1] >= 1 && cs[2] >= 1 && cs[3] >= 1 && Sum(cs) == 4
    ensures FactProduct(cs) == 1
  {
    var p := [cs[0], cs[1], cs[2]];
    FactProductSnoc([], cs[0]);
    FactProductSnoc([cs[0]], cs[1]);
    FactProductSnoc([cs[0], cs[1]], cs[2]);
    FactProductSnoc(p, cs[3]);
    assert [] + [cs[0]] == [cs[0]] && [cs[0]] + [cs[1]] == [cs[0], cs[1]];
    assert [cs[0], cs[1]] + [cs[2]] == p && p + [cs[3]] == cs;
    FourParts(cs[0], cs[1], cs[2], cs[3]);
  }

  /** The partitions of four: one part of 4 gives 4! = 24, four parts of 1
      give 1, and two or three parts give 2, 4 or 6. */
  lemma PartitionsOfFour(cs: seq<nat>)
    requires forall i :: 0 <= i < |cs| ==> cs[i] >= 1
    requires Sum(cs) == 4
    ensures 1 <= |cs| <= 4
    ensures |cs| == 1 ==> FactProduct(cs) == 24
    ensures |cs| == 4 ==> FactProduct(cs) == 1
    ensures 2 <= |cs| <= 3 ==> FactProduct(cs) in {2, 4, 6}
  {
    SumAtLeastLength(cs);
    if |cs| == 1 {
      OnePartOf(cs);
    } else if |cs| == 2 {
      TwoPartsOf(cs);
    } else if |cs| == 3 {
      ThreePartsOf(cs);
    } else {
      FourPartsOf(cs);
    }
  }

  // --- distinct characters

  lemma {:induction false} DistinctOfDistinct(s: string)
    requires NoDuplicates(s)
    ensures Distinct(s) == s
  {
    if s != [] {
      var p := s[..|s| - 1];
      DistinctOfDistinct(p);
      assert s[|s| - 1] !in p;
      assert s == p + [s[|s| - 1]];
    }
  }

  lemma {:induction false} RepeatShrinksDistinct(s: string, i: nat, j: nat)
    requires i < j < |s| && s[i] == s[j]
    ensures |Distinct(s)| < |s|
  {
    var p := s[..|s| - 1];
    if j < |s| - 1 {
      RepeatShrinksDistinct(p, i, j);
    } else {
      assert p[i] == s[j];
    }
  }

  /** A string has as many distinct characters as it is long exactly when no
      character repeats. */
  lemma AllDistinctIff(s: string)
    ensures |Distinct(s)| == |s| <==> NoDuplicates(s)
  {
    if NoDuplicates(s) {
      DistinctOfDistinct(s);
    } else {
      var i, j :| 0 <= i < j < |s| && s[i] == s[j];
      RepeatShrinksDistinct(s, i, j);
    }
  }

  /** A non-empty string has a single distinct character exactly when all its
      characters are equal. */
  lemma AllEqualIff(s: string)
    requires s != []
    ensures |Distinct(s)| == 1 <==> forall i :: 0 <= i < |s| ==> s[i] == s[0]
  {
    var d := Distinct(s);
    assert s[0] in s;
    if |d| == 1 {
      forall i | 0 <= i < |s| ensures s[i] == s[0] {
        assert s[i] in s;
      }
    }
    if forall i :: 0 <= i < |s| ==> s[i] == s[0] {
      assert forall c :: c in d ==> c == s[0];
    }
  }

  /** For a four-character number the count is one of 1, 4, 6, 12, 24, and it
      times the product of the factorials of the multiplicities is 4!. */
  lemma PermutationCountValues(number: string)
    requires |number| == 4
    ensures PermutationCount(number) in {1, 4, 6, 12, 24}
    ensures PermutationCount(number) * FactProduct(Counts(number)) == 24
  {
    CountsArePartition(number);
    var fp := FactProduct(Counts(number));
    PartitionsOfFour(Counts(number));
    assert fp in {1, 2, 4, 6, 24};
    assert Fact(4) == 24;
    if fp == 1 {
    } else if fp == 2 {
      assert 24 / fp == 12;
    } else if fp == 4 {
      assert 24 / fp == 6;
    } else if fp == 6 {
      assert 24 / fp == 4;
    } else {
      assert 24 / fp == 1;
    }
  }

  /** 24 orderings exactly when the four characters are pairwise distinct. */
  lemma PermutationCountAllDistinct(number: string)
    requires |number| == 4
    ensures PermutationCount(number) == 24 <==> NoDuplicates(number)
  {
    CountsArePartition(number);
    PartitionsOfFour(Counts(number));
    AllDistinctIff(number);
  }

  /** A single ordering exactly when the four characters are all equal. */
  lemma PermutationCountAllEqual(number: string)
    requires |number| == 4
    ensures PermutationCount(number) == 1 <==> forall i :: 0 <= i < 4 ==> number[i] == number[0]
  {
    CountsArePartition(number);
    PartitionsOfFour(Counts(number));
    AllEqualIff(number);
  }

  // ---------------------------------------------------------------------
  // Tables

  const MktsOdds: map<char, real> := map['B' := 2750.0, 'S' := 3850.0, 'A' := 726.0, 'C' := 242.0]
  const HlOdds: map<char, real> := map['B' := 3045.0, 'S' := 4095.0, 'A' := 740.25, 'C' := 246.75]

  /** STANDARD_ODDS: the payout per unit staked, by odds row and bet type. */
  const StandardOdds: map<char, map<char, real>> :=
    map['M' := MktsOdds, 'K' := MktsOdds, 'T' := MktsOdds, 'S' := MktsOdds,
        'H' := HlOdds, 'L' := HlOdds]

  /** COMMISSION_RATES. */
  const CommissionRates: map<string, real> := map["MKTS" := 0.26, "HL" := 0.19]

  /** `_commission_rate_for_market(market)`. */
  function CommissionRate(market: char): real {
    if market in "MKTS" then CommissionRates["MKTS"] else CommissionRates["HL"]
  }

  /** The rate is 0.26 for M, K, T, S and 0.19 for any other code, H and E
      included. */
  lemma CommissionRateValues(market: char)
    ensures market in "MKTS" ==> CommissionRate(market) == 0.26
    ensures market !in "MKTS" ==> CommissionRate(market) == 0.19
    ensures CommissionRate('H') == CommissionRate('E') == 0.19
  {
  }

  /** The odds row of a market list: H if present, else L, else M. */
  function OddsRow(markets: seq<char>): (row: char)
    ensures row in StandardOdds
  {
    if 'H' in markets then 'H' else if 'L' in markets then 'L' else 'M'
  }

  /** The parser never emits L, so the row is H when H is among the markets
      and M otherwise; a bet on E alone is paid at the M row. */
  lemma OddsRowOfParsedMarkets(markets: seq<char>)
    requires forall c :: c in markets ==> c in ValidMarkets
    ensures OddsRow(markets) == (if 'H' in markets then 'H' else 'M')
    ensures OddsRow(['E']) == 'M'
  {
    assert 'L' !in ValidMarkets;
  }

  // ---------------------------------------------------------------------
  // One bet

  /** What `calculate` needs of a bet to not raise: a type that is a key of
      the odds row and, for `ibox`, a non-zero count to divide by. */
  predicate Computable(b: Bet) {
    b.betType in BetTypes && (b.mode == IBox ==> PermutationCount(b.number) > 0)
  }

  // The amounts of one bet, given its count `comb` and its odds `odds`.

  /** `stake_per_market`: the amount times the count for `box`, the amount
      otherwise. */
  function StakeFor(b: Bet, comb: nat): real {
    if b.mode == Box then (b.amount as real) * (comb as real) else b.amount as real
  }

  /** `potential_per_market`: `ibox` divides the odds by the count and pays
      them on the amount, `box` pays the odds on the amount, and a plain bet
      pays the odds on its stake. */
  function PayoutFor(b: Bet, odds: real, comb: nat): real
    requires b.mode == IBox ==> comb > 0
  {
    match b.mode
    case IBox => odds / (comb as real) * (b.amount as real)
    case Box => odds * (b.amount as real)
    case NoMode => odds * StakeFor(b, comb)
  }

  /** `bet_total_stake`: the stake on every market. */
  function TotalStakeFor(b: Bet, comb: nat): real {
    StakeFor(b, comb) * (|b.markets| as real)
  }

  /** `bet_total_potential`: the payout on every market. */
  function WinFor(b: Bet, odds: real, comb: nat): real
    requires b.mode == IBox ==> comb > 0
  {
    PayoutFor(b, odds, comb) * (|b.markets| as real)
  }

  /** The commission of one bet: the stake times the rate of each market,
      repetitions counted. */
  function Commission(stake: real, markets: seq<char>): real {
    if markets == [] then 0.0
    else stake * CommissionRate(markets[0]) + Commission(stake, markets[1..])
  }

  // The same amounts with the bet's own count and odds.

  /** `std_odds`: the entry of the bet's odds row for its bet type. */
  function Odds(b: Bet): real
    requires b.betType in BetTypes
  {
    StandardOdds[OddsRow(b.markets)][b.betType]
  }

  function Stake(b: Bet): real {
    StakeFor(b, PermutationCount(b.number))
  }

  function TotalStake(b: Bet): real {
    TotalStakeFor(b, PermutationCount(b.number))
  }

  function PotentialPerMarket(b: Bet): real
    requires Computable(b)
  {
    PayoutFor(b, Odds(b), PermutationCount(b.number))
  }

  /** `potential_win`. */
  function PotentialWin(b: Bet): real
    requires Computable(b)
  {
    WinFor(b, Odds(b), PermutationCount(b.number))
  }

  function CountIn(markets: seq<char>, group: seq<char>): nat {
    if markets == [] then 0
    else (if markets[0] in group then 1 else 0) + CountIn(markets[1..], group)
  }

  /** A bet's commission is its stake times 0.26 per M, K, T, S market and
      0.19 per other market. */
  lemma {:induction false} CommissionByGroup(stake: real, markets: seq<char>)
    ensures var k := CountIn(markets, "MKTS");
      Commission(stake, markets) == stake * (0.26 * (k as real) + 0.19 * ((|markets| - k) as real))
  {
    if markets != [] {
      CommissionByGroup(stake, markets[1..]);
      CommissionRateValues(markets[0]);
    }
  }

  /** No stake is negative, and so no commission is. */
  lemma {:induction false} CommissionNonNegative(stake: real, markets: seq<char>)
    requires stake >= 0.0
    ensures Commission(stake, markets) >= 0.0
  {
    if markets != [] {
      CommissionNonNegative(stake, markets[1..]);
      CommissionRateValues(markets[0]);
      NonNegative(stake, CommissionRate(markets[0]));
    }
  }

  /** The `ibox` payout spread over the orderings: times the count it is the
      full payout on the amount. */
  lemma IboxPayoutTimesCount(b: Bet, odds: real, comb: nat)
    requires b.mode == IBox && comb > 0
    ensures PayoutFor(b, odds, comb) * (comb as real) == odds * (b.amount as real)
  {
    DivThenScale(odds, comb as real, b.amount as real);
  }

  /** Per unit of stake, `box` and `ibox` pay the odds divided by the count,
      and a plain bet pays the odds. */
  lemma PayoutPerStake(b: Bet, odds: real, comb: nat)
    requires comb > 0
    ensures PayoutFor(b, odds, comb)
         == if b.mode == NoMode then odds * StakeFor(b, comb) else odds * StakeFor(b, comb) / (comb as real)
  {
    var c := comb as real;
    var amount := b.amount as real;
    if b.mode == Box {
      ScaleThenDiv(odds, amount, c);
    } else if b.mode == IBox {
      DivThenScale(odds, c, amount);
    }
  }

  /** With non-negative odds nothing a bet costs or pays is negative. */
  lemma AmountsNonNegative(b: Bet, odds: real, comb: nat)
    requires odds >= 0.0 && (b.mode == IBox ==> comb > 0)
    ensures StakeFor(b, comb) >= 0.0 && TotalStakeFor(b, comb) >= 0.0
    ensures PayoutFor(b, odds, comb) >= 0.0 && WinFor(b, odds, comb) >= 0.0
    ensures Commission(StakeFor(b, comb), b.markets) >= 0.0
  {
    var amount := b.amount as real;
    NonNegative(amount, comb as real);
    if b.mode == IBox {
      NonNegativeQuotient(odds, comb as real, amount);
    } else if b.mode == Box {
      NonNegative(odds, amount);
    } else {
      NonNegative(odds, StakeFor(b, comb));
    }
    NonNegative(StakeFor(b, comb), |b.markets| as real);
    NonNegative(PayoutFor(b, odds, comb), |b.markets| as real);
    CommissionNonNegative(StakeFor(b, comb), b.markets);
  }

  /** The payout on all markets covers the payout on one, and exceeds it
      when the payout is positive and there are two markets or more. */
  lemma WinCoversOneMarket(b: Bet, odds: real, comb: nat)
    requires odds >= 0.0 && (b.mode == IBox ==> comb > 0) && |b.markets| >= 1
    ensures PayoutFor(b, odds, comb) <= WinFor(b, odds, comb)
    ensures |b.markets| >= 2 && PayoutFor(b, odds, comb) > 0.0 ==> PayoutFor(b, odds, comb) < WinFor(b, odds, comb)
  {
    AmountsNonNegative(b, odds, comb);
    var p, n := PayoutFor(b, odds, comb), |b.markets| as real;
    assert WinFor(b, odds, comb) == p * n;
    ScaleUp(p, n);
    if |b.markets| >= 2 && p > 0.0 {
      assert n >= 2.0;
      assert p < p * n;
    }
  }

  /** Every entry of the odds table is positive. */
  lemma OddsPositive(b: Bet)
    requires b.betType in BetTypes
    ensures Odds(b) > 0.0
  {
    var row := OddsRow(b.markets);
    assert StandardOdds[row] == MktsOdds || StandardOdds[row] == HlOdds;
  }

  /** Nothing a computable bet costs or pays is negative. */
  lemma BetAmountsNonNegative(b: Bet)
    requires Computable(b)
    ensures Stake(b) >= 0.0 && TotalStake(b) >= 0.0
    ensures PotentialPerMarket(b) >= 0.0 && PotentialWin(b) >= 0.0
    ensures Commission(Stake(b), b.markets) >= 0.0
  {
    OddsPositive(b);
    AmountsNonNegative(b, Odds(b), PermutationCount(b.number));
  }

  // ---------------------------------------------------------------------
  // The bet list and the totals

  predicate AllComputable(bets: seq<Bet>) {
    forall i :: 0 <= i < |bets| ==> Computable(bets[i])
  }

  /** The three totals `calculate` returns. */
  datatype Summary = Summary(totalAmount: real, totalPotential: real, totalCommission: real)

  function SumTotalStake(bets: seq<Bet>): real {
    if bets == [] then 0.0 else SumTotalStake(bets[..|bets| - 1]) + TotalStake(bets[|bets| - 1])
  }

  function SumPotentialPerMarket(bets: seq<Bet>): real
    requires AllComputable(bets)
  {
    if bets == [] then 0.0
    else SumPotentialPerMarket(bets[..|bets| - 1]) + PotentialPerMarket(bets[|bets| - 1])
  }

  function SumCommission(bets: seq<Bet>): real {
    if bets == [] then 0.0
    else SumCommission(bets[..|bets| - 1]) + Commission(Stake(bets[|bets| - 1]), bets[|bets| - 1].markets)
  }

  function SumPotentialWin(bets: seq<Bet>): real
    requires AllComputable(bets)
  {
    if bets == [] then 0.0 else SumPotentialWin(bets[..|bets| - 1]) + PotentialWin(bets[|bets| - 1])
  }

  /** One more bet adds its own share to each total. */
  lemma SumsSnoc(bets: seq<Bet>, i: nat)
    requires AllComputable(bets) && i < |bets|
    ensures SumTotalStake(bets[..i + 1]) == SumTotalStake(bets[..i]) + TotalStake(bets[i])
    ensures SumPotentialPerMarket(bets[..i + 1]) == SumPotentialPerMarket(bets[..i]) + PotentialPerMarket(bets[i])
    ensures SumCommission(bets[..i + 1]) == SumCommission(bets[..i]) + Commission(Stake(bets[i]), bets[i].markets)
  {
    assert bets[..i + 1][..i] == bets[..i];
  }

  /** The running totals after one more bet. */
  lemma SumsStep(bets: seq<Bet>, i: nat, amount: real, potential: real, commission: real,
                 betAmount: real, betPotential: real, betCommission: real)
    requires AllComputable(bets) && i < |bets|
    requires amount == SumTotalStake(bets[..i]) && betAmount == TotalStake(bets[i])
    requires potential == SumPotentialPerMarket(bets[..i]) && betPotential == PotentialPerMarket(bets[i])
    requires commission == SumCommission(bets[..i]) && betCommission == Commission(Stake(bets[i]), bets[i].markets)
    ensures amount + betAmount == SumTotalStake(bets[..i + 1])
    ensures potential + betPotential == SumPotentialPerMarket(bets[..i + 1])
    ensures commission + betCommission == SumCommission(bets[..i + 1])
  {
    SumsSnoc(bets, i);
  }

  /** The summary of a bet list: total amount, total per-market potential,
      total commission. */
  function Totals(bets: seq<Bet>): Summary
    requires AllComputable(bets)
  {
    Summary(SumTotalStake(bets), SumPotentialPerMarket(bets), SumCommission(bets))
  }

  /** No total is negative. */
  lemma {:induction false} TotalsNonNegative(bets: seq<Bet>)
    requires AllComputable(bets)
    ensures Totals(bets).totalAmount >= 0.0
    ensures Totals(bets).totalPotential >= 0.0
    ensures Totals(bets).totalCommission >= 0.0
  {
    if bets != [] {
      TotalsNonNegative(bets[..|bets| - 1]);
      BetAmountsNonNegative(bets[|bets| - 1]);
    }
  }

  /** The total potential sums one market's payout per bet, while each bet's
      `potential_win` covers all its markets: when every bet has one market
      the two agree. */
  lemma {:induction false} TotalPotentialSingleMarket(bets: seq<Bet>)
    requires AllComputable(bets)
    requires forall i :: 0 <= i < |bets| ==> |bets[i].markets| == 1
    ensures SumPotentialPerMarket(bets) == SumPotentialWin(bets)
  {
    if bets != [] {
      TotalPotentialSingleMarket(bets[..|bets| - 1]);
    }
  }

  /** The per-market payout of a computable bet is at most its
      `potential_win`, and below it when positive on two markets or more. */
  lemma BetWinCoversOneMarket(b: Bet)
    requires Computable(b) && |b.markets| >= 1
    ensures PotentialPerMarket(b) <= PotentialWin(b)
    ensures |b.markets| >= 2 && PotentialPerMarket(b) > 0.0 ==> PotentialPerMarket(b) < PotentialWin(b)
  {
    OddsPositive(b);
    WinCoversOneMarket(b, Odds(b), PermutationCount(b.number));
  }

  /** With at least one market per bet the total potential never exceeds the
      sum of the `potential_win` values, and it falls short as soon as one
      bet with a positive payout is on two or more markets. */
  lemma {:induction false} TotalPotentialAtMostWins(bets: seq<Bet>)
    requires AllComputable(bets)
    requires forall i :: 0 <= i < |bets| ==> |bets[i].markets| >= 1
    ensures SumPotentialPerMarket(bets) <= SumPotentialWin(bets)
    ensures (exists i :: 0 <= i < |bets| && |bets[i].markets| >= 2 && PotentialPerMarket(bets[i]) > 0.0)
            ==> SumPotentialPerMarket(bets) < SumPotentialWin(bets)
  {
    if bets != [] {
      var p := bets[..|bets| - 1];
      var b := bets[|bets| - 1];
      TotalPotentialAtMostWins(p);
      BetWinCoversOneMarket(b);
      if exists i :: 0 <= i < |bets| && |bets[i].markets| >= 2 && PotentialPerMarket(bets[i]) > 0.0 {
        var i :| 0 <= i < |bets| && |bets[i].markets| >= 2 && PotentialPerMarket(bets[i]) > 0.0;
        if i < |bets| - 1 {
          assert p[i] == bets[i];
        }
      }
    }
  }

  // ---------------------------------------------------------------------
  // The bet records

  /** One bet dict: the fields the parser set, fixed, and the four keys
      `calculate` adds, absent until it runs. */
  class BetRecord {
    const bet: Bet
    var comb: Option<nat>
    var stake: Option<real>
    var potentialWin: Option<real>
    var commission: Option<real>

    constructor(b: Bet)
      ensures bet == b
      ensures comb == None && stake == None && potentialWin == None && commission == None
    {
      bet := b;
      comb := None;
      stake := None;
      potentialWin := None;
      commission := None;
    }

    /** The stake, payout and commission keys hold the amounts for count
        `c` and odds `odds`. */
    predicate PricedWith(c: nat, odds: real)
      reads this
      requires bet.mode == IBox ==> c > 0
    {
      && stake == Some(StakeFor(bet, c))
      && potentialWin == Some(WinFor(bet, odds, c))
      && commission == Some(Commission(StakeFor(bet, c), bet.markets))
    }

    /** The four keys hold what `calculate` derives from the bet. */
    predicate Calculated()
      reads this
    {
      && Computable(bet)
      && comb == Some(PermutationCount(bet.number))
      && stake == Some(Stake(bet))
      && potentialWin == Some(PotentialWin(bet))
      && commission == Some(Commission(Stake(bet), bet.markets))
    }
  }

  function BetsOf(records: seq<BetRecord>): (bets: seq<Bet>)
    ensures |bets| == |records|
    ensures forall i :: 0 <= i < |records| ==> bets[i] == records[i].bet
  {
    seq(|records|, i requires 0 <= i < |records| => records[i].bet)
  }

  /** The rest of `calculate`'s loop body for one record whose count and
      odds are known: the stake, the payout, the totals over the markets and
      the commission, written back into the record; the amounts that go into
      the running totals are returned. */
  method Price(r: BetRecord, comb: nat, stdOdds: real)
      returns (betTotalStake: real, potentialPerMarket: real, commission: real)
    requires r.bet.mode == IBox ==> comb > 0
    modifies r
    ensures r.comb == Some(comb) && r.PricedWith(comb, stdOdds)
    ensures betTotalStake == TotalStakeFor(r.bet, comb)
    ensures potentialPerMarket == PayoutFor(r.bet, stdOdds, comb)
    ensures commission == Commission(StakeFor(r.bet, comb), r.bet.markets)
  {
    var bet := r.bet;
    var stakePerMarket: real;
    if bet.mode == Box {
      stakePerMarket := (bet.amount as real) * (comb as real);
    } else {
      stakePerMarket := bet.amount as real;
    }
    if bet.mode == IBox {
      potentialPerMarket := stdOdds / (comb as real) * (bet.amount as real);
    } else if bet.mode == Box {
      potentialPerMarket := stdOdds * (bet.amount as real);
    } else {
      potentialPerMarket := stdOdds * stakePerMarket;
    }
    assert stakePerMarket == StakeFor(bet, comb);
    assert potentialPerMarket == PayoutFor(bet, stdOdds, comb);
    var nMarkets := |bet.markets| as real;
    SameScale(stakePerMarket, StakeFor(bet, comb), nMarkets);
    SameScale(potentialPerMarket, PayoutFor(bet, stdOdds, comb), nMarkets);
    betTotalStake := stakePerMarket * nMarkets;
    var betTotalPotential := potentialPerMarket * nMarkets;
    assert betTotalPotential == WinFor(bet, stdOdds, comb);
    commission := Commission(stakePerMarket, bet.markets);
    r.comb := Some(comb);
    r.stake := Some(stakePerMarket);
    r.potentialWin := Some(betTotalPotential);
    r.commission := Some(commission);
  }

  /** One pass of `calculate`'s loop: derive the count, look up the odds,
      and price the record. */
  method CalculateOne(r: BetRecord) returns (betTotalStake: real, potentialPerMarket: real, commission: real)
    requires Computable(r.bet)
    modifies r
    ensures r.Calculated()
    ensures betTotalStake == TotalStake(r.bet)
    ensures potentialPerMarket == PotentialPerMarket(r.bet)
    ensures commission == Commission(Stake(r.bet), r.bet.markets)
  {
    var bet := r.bet;
    var comb := CombinationCount(bet.number);
    var oddsMarket := OddsRow(bet.markets);
    var stdOdds := StandardOdds[oddsMarket][bet.betType];
    betTotalStake, potentialPerMarket, commission := Price(r, comb, stdOdds);
  }

  /** `calculate(bets)`: for each record in order, fill in its four keys and
      add the bet's amounts to the totals. */
  method Calculate(records: seq<BetRecord>) returns (summary: Summary)
    requires AllComputable(BetsOf(records))
    modifies records
    ensures forall i :: 0 <= i < |records| ==> records[i].Calculated()
    ensures summary == Totals(BetsOf(records))
  {
    var bets := BetsOf(records);
    var totalAmount, totalPotential, totalCommission := 0.0, 0.0, 0.0;
    for i := 0 to |records|
      invariant forall j :: 0 <= j < i ==> records[j].Calculated()
      invariant totalAmount == SumTotalStake(bets[..i])
      invariant totalPotential == SumPotentialPerMarket(bets[..i])
      invariant totalCommission == SumCommission(bets[..i])
    {
      assert Computable(bets[i]);
      label before:
      var betTotalStake, potentialPerMarket, commission := CalculateOne(records[i]);
      forall j | 0 <= j < i
        ensures records[j].Calculated()
      {
        if records[j] != records[i] {
          assert unchanged@before(records[j]);
        }
      }
      assert forall j :: 0 <= j < i + 1 ==> records[j].Calculated();
      SumsStep(bets, i, totalAmount, totalPotential, totalCommission, betTotalStake, potentialPerMarket, commission);
      totalAmount := totalAmount + betTotalStake;
      totalPotential := totalPotential + potentialPerMarket;
      totalCommission := totalCommission + commission;
    }
    assert bets[..|records|] == bets;
    summary := Summary(totalAmount, totalPotential, totalCommission);
  }
}
