/** How the parser's output feeds `calculate`: every bet `parse_bet_text`
    emits can be priced without a `KeyError` or a division by zero. */
module Pipeline {
  import opened Wrappers
  import opened BetParser
  import opened ParserProps
  import opened Engine

  /** A bet with a four-digit number and a type among B, S, A, C can be
      priced, and its count is one of 1, 4, 6, 12, 24. */
  lemma WellFormedBetIsComputable(b: Bet)
    requires IsBetNumber(b.number) && b.betType in BetTypes
    ensures Computable(b) && PermutationCount(b.number) in {1, 4, 6, 12, 24}
  {
    PermutationCountValues(b.number);
  }

  /** Every bet `parse_bet_text` emits can be priced: its count is never
      zero, and it has at least one market. */
  lemma ParsedBetsAreComputable(text: string, year: nat)
    requires 1000 <= year <= 9999
    requires Parse(text, year).Ok?
    ensures AllComputable(Parse(text, year).value)
    ensures forall b :: b in Parse(text, year).value ==>
      PermutationCount(b.number) in {1, 4, 6, 12, 24} && |b.markets| >= 1
  {
    var bets := Parse(text, year).value;
    ParsedBetsWellFormed(text, year);
    var markets := HeaderOf(text, year).markets;
    assert markets != [];
    assert forall b :: b in bets ==> IsBetNumber(b.number) && b.betType in BetTypes && b.markets == markets;
    forall b | b in bets
      ensures Computable(b) && PermutationCount(b.number) in {1, 4, 6, 12, 24} && |b.markets| >= 1
    {
      WellFormedBetIsComputable(b);
    }
    forall i | 0 <= i < |bets| ensures Computable(bets[i]) {
      assert bets[i] in bets;
    }
  }

  /** The totals over a parsed message are never negative. */
  lemma ParsedTotalsNonNegative(text: string, year: nat)
    requires 1000 <= year <= 9999
    requires Parse(text, year).Ok?
    ensures AllComputable(Parse(text, year).value)
    ensures var s := Totals(Parse(text, year).value);
      s.totalAmount >= 0.0 && s.totalPotential >= 0.0 && s.totalCommission >= 0.0
  {
    ParsedBetsAreComputable(text, year);
    TotalsNonNegative(Parse(text, year).value);
  }
}
