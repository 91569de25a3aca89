/** The bet-text parser of parser.py: a `DD/MM` date line, a line of market
    codes, then wager lines of `NNNN-<amount><type>` and `<amount><type>`
    tokens with an optional trailing `box`/`ibox` word. The functions below
    give the meaning of each step; `ParseBetText` is the loop the source
    runs, proved to compute `Parse`. */
module BetParser {
  import opened Wrappers
  import opened Text

  /** VALID_MARKETS. */
  const ValidMarkets: seq<char> := "MKTSHE"

  /** The wager types a token may carry, after upper-casing. */
  const BetTypes: seq<char> := "BSAC"

  /** The wager types a `box`/`ibox` line may carry. */
  const BoxTypes: seq<char> := "BS"

  /** `None`, "box" or "ibox". */
  datatype Mode = NoMode | Box | IBox

  /** One bet dict as the parser builds it. */
  datatype Bet = Bet(
    date: string,
    markets: seq<char>,
    number: string,
    betType: char,
    mode: Mode,
    amount: nat)

  /** The ValueErrors the parser raises. */
  datatype ParseError =
    | TooFewLines
    | BadDateFormat(line: string)
    | InvalidDate(day: nat, month: nat)
    | NoMarkets(line: string)
    | ModeNotAllowed(mode: Mode, betType: char)
    | MissingNumber(token: string)

  /** What the first two lines fix for every bet of the text. */
  datatype Header = Header(date: string, markets: seq<char>)

  // ---------------------------------------------------------------------
  // Lines

  /** A line whose first character begins a word, so that `split()` gives
      it at least one token. Every line the blank-line filter keeps is one. */
  predicate StartsWithWord(l: string) {
    l != [] && !IsSpace(l[0])
  }

  /** `[line.strip() for line in text.splitlines() if line.strip()]`. */
  function NonBlankLines(text: string): (r: seq<string>)
    ensures forall l :: l in r ==> l != [] && Strip(l) == l && StartsWithWord(l)
  {
    StrippedNonBlank(SplitLines(text))
  }

  function StrippedNonBlank(ls: seq<string>): (r: seq<string>)
    ensures |r| <= |ls|
    ensures forall l :: l in r ==> l != [] && Strip(l) == l && StartsWithWord(l)
  {
    if ls == [] then []
    else
      var l := Strip(ls[0]);
      (if l != [] then [l] else []) + StrippedNonBlank(ls[1..])
  }

  // ---------------------------------------------------------------------
  // Date line

  /** `re.match(r"^(\d{1,2})/(\d{1,2})$", line)` and its two groups. */
  function MatchDate(line: string): (m: Option<(string, string)>)
    ensures m.Some? ==>
      && 1 <= |m.value.0| <= 2 && AllDigits(m.value.0)
      && 1 <= |m.value.1| <= 2 && AllDigits(m.value.1)
  {
    var k := IndexOf(line, '/');
    if 1 <= k <= 2 && k + 2 <= |line| <= k + 3 && AllDigits(line[..k]) && AllDigits(line[k + 1..])
    then Some((line[..k], line[k + 1..]))
    else None
  }

  predicate IsLeapYear(y: int) {
    y % 4 == 0 && (y % 100 != 0 || y % 400 == 0)
  }

  function DaysInMonth(y: int, m: int): (n: nat)
    requires 1 <= m <= 12
    ensures 28 <= n <= 31
  {
    if m == 2 then (if IsLeapYear(y) then 29 else 28)
    else if m == 4 || m == 6 || m == 9 || m == 11 then 30
    else 31
  }

  /** What `datetime(y, m, d)` accepts for a year in range. */
  predicate IsCalendarDate(y: int, m: int, d: int) {
    1 <= m <= 12 && 1 <= d <= DaysInMonth(y, m)
  }

  function TwoDigits(n: nat): (s: string)
    requires n < 100
  {
    [DigitChar(n / 10), DigitChar(n % 10)]
  }

  function FourDigits(n: nat): (s: string)
    requires n < 10000
  {
    [DigitChar(n / 1000), DigitChar(n / 100 % 10), DigitChar(n / 10 % 10), DigitChar(n % 10)]
  }

  /** `strftime("%Y-%m-%d")`. */
  function FormatDate(y: nat, m: nat, d: nat): (s: string)
    requires y < 10000 && m < 100 && d < 100
    ensures |s| == 10 && s[4] == '-' && s[7] == '-'
  {
    FourDigits(y) + "-" + TwoDigits(m) + "-" + TwoDigits(d)
  }

  /** The date line read in `year`, as the zero-padded `YYYY-MM-DD` string. */
  function ParseDate(line: string, year: nat): (r: Result<string, ParseError>)
    requires 1000 <= year <= 9999
  {
    match MatchDate(line)
    case None => Err(BadDateFormat(line))
    case Some((dd, mm)) =>
      var day, month := DigitsValue(dd), DigitsValue(mm);
      if IsCalendarDate(year, month, day) then Ok(FormatDate(year, month, day))
      else Err(InvalidDate(day, month))
  }

  // ---------------------------------------------------------------------
  // Market line

  /** `[c for c in s if c in VALID_MARKETS]`. */
  function KeepMarkets(s: string): (r: seq<char>)
    ensures |r| <= |s|
    ensures forall c :: c in r ==> c in ValidMarkets
  {
    if s == [] then []
    else (if s[0] in ValidMarkets then [s[0]] else []) + KeepMarkets(s[1..])
  }

  /** The market codes of the second line: spaces removed, upper-cased,
      filtered to VALID_MARKETS, order and repetitions kept. */
  function MarketCodes(line: string): (r: seq<char>)
    ensures forall c :: c in r ==> c in ValidMarkets
  {
    KeepMarkets(Upper(RemoveChar(line, ' ')))
  }

  // ---------------------------------------------------------------------
  // Wager tokens

  /** The regex class `[BSAC]` under `re.IGNORECASE`. */
  predicate IsBetLetter(c: char) {
    UpperChar(c) in BetTypes
  }

  /** `re.match(r"^(\d{1,4})-(\d+)([BSAC])$", tok, re.IGNORECASE)` and its groups. */
  function MatchFull(tok: string): (m: Option<(string, string, char)>)
    ensures m.Some? ==>
      && 1 <= |m.value.0| <= 4 && AllDigits(m.value.0)
      && 1 <= |m.value.1| && AllDigits(m.value.1)
      && IsBetLetter(m.value.2)
  {
    if |tok| < 4 || !IsBetLetter(tok[|tok| - 1]) then None
    else
      var body := tok[..|tok| - 1];
      var k := IndexOf(body, '-');
      if 1 <= k <= 4 && k + 1 < |body| && AllDigits(body[..k]) && AllDigits(body[k + 1..])
      then Some((body[..k], body[k + 1..], tok[|tok| - 1]))
      else None
  }

  /** `re.match(r"^(\d+)([BSAC])$", tok, re.IGNORECASE)` and its groups. */
  function MatchPartial(tok: string): (m: Option<(string, char)>)
    ensures m.Some? ==> 1 <= |m.value.0| && AllDigits(m.value.0) && IsBetLetter(m.value.1)
  {
    if |tok| < 2 || !IsBetLetter(tok[|tok| - 1]) || !AllDigits(tok[..|tok| - 1]) then None
    else Some((tok[..|tok| - 1], tok[|tok| - 1]))
  }

  /** The bet dict appended for one recognised token. */
  function NewBet(h: Header, number: string, letter: char, mode: Mode, amt: string): Bet
    requires AllDigits(amt)
  {
    Bet(h.date, h.markets, number, UpperChar(letter), mode, DigitsValue(amt))
  }

  /** What one token does to the line: the bets it appends and the number
      it leaves current for later amount-only tokens. */
  datatype Step = Step(added: seq<Bet>, current: Option<string>)

  /** One pass of the inner token loop. A full token `NNNN-<amt><type>`
      appends a bet on its own zero-filled number and makes that number
      current; an amount-only token `<amt><type>` appends a bet on the
      current number; anything else is skipped. */
  function TokenStep(tok: string, mode: Mode, current: Option<string>, h: Header)
    : (r: Result<Step, ParseError>)
  {
    match MatchFull(tok)
    case Some((num, amt, t)) =>
      if mode != NoMode && UpperChar(t) !in BoxTypes then Err(ModeNotAllowed(mode, UpperChar(t)))
      else
        var number := ZeroFill(num, 4);
        Ok(Step([NewBet(h, number, t, mode, amt)], Some(number)))
    case None =>
      match MatchPartial(tok)
      case Some((amt, t)) =>
        if current.None? then Err(MissingNumber(tok))
        else if mode != NoMode && UpperChar(t) !in BoxTypes then Err(ModeNotAllowed(mode, UpperChar(t)))
        else Ok(Step([NewBet(h, current.value, t, mode, amt)], current))
      case None =>
        Ok(Step([], current))
  }

  /** The inner token loop of one wager line, from the token at hand on, with
      `current` the number of the latest full token seen before it. */
  function ParseTokens(toks: seq<string>, mode: Mode, current: Option<string>, h: Header)
    : (r: Result<seq<Bet>, ParseError>)
    decreases |toks|
  {
    if toks == [] then Ok([])
    else
      match TokenStep(toks[0], mode, current, h)
      case Err(e) => Err(e)
      case Ok(step) => Prepend(step.added, ParseTokens(toks[1..], mode, step.current, h))
  }

  /** The mode a line's last token sets, and the tokens left to parse. */
  function SplitMode(toks: seq<string>): (Mode, seq<string>)
    requires toks != []
  {
    var last := Lower(toks[|toks| - 1]);
    if last == "ibox" then (IBox, toks[..|toks| - 1])
    else if last == "box" then (Box, toks[..|toks| - 1])
    else (NoMode, toks)
  }

  function LineMode(line: string): Mode
    requires StartsWithWord(line)
  {
    SplitMode(Tokens(line)).0
  }

  /** The bets of one wager line. */
  function ParseLine(line: string, h: Header): Result<seq<Bet>, ParseError>
    requires StartsWithWord(line)
  {
    var (mode, toks) := SplitMode(Tokens(line));
    ParseTokens(toks, mode, None, h)
  }

  /** The bets of the wager lines, line after line; the first error wins. */
  function ParseLines(lines: seq<string>, h: Header): Result<seq<Bet>, ParseError>
    requires forall l :: l in lines ==> StartsWithWord(l)
  {
    if lines == [] then Ok([])
    else
      match ParseLine(lines[0], h)
      case Err(e) => Err(e)
      case Ok(bs) => Prepend(bs, ParseLines(lines[1..], h))
  }

  /** `parse_bet_text(text, year)`: the bets, or the error it raises. */
  function Parse(text: string, year: nat): Result<seq<Bet>, ParseError>
    requires 1000 <= year <= 9999
  {
    var lines := NonBlankLines(text);
    if |lines| < 3 then Err(TooFewLines)
    else
      match ParseDate(lines[0], year)
      case Err(e) => Err(e)
      case Ok(date) =>
        var markets := MarketCodes(lines[1]);
        if markets == [] then Err(NoMarkets(lines[1]))
        else ParseLines(lines[2..], Header(date, markets))
  }

  /** parse_bet_text as the source runs it: the header checks in order, then
      the loop over the wager lines. */
  method ParseBetText(text: string, defaultYear: nat := 2025) returns (r: Result<seq<Bet>, ParseError>)
    requires 1000 <= defaultYear <= 9999
    ensures r == Parse(text, defaultYear)
  {
    var lines := NonBlankLines(text);
    if |lines| < 3 {
      return Err(TooFewLines);
    }
    var date := ParseDate(lines[0], defaultYear);
    if date.Err? {
      assert Parse(text, defaultYear) == Err(date.error);
      return Err(date.error);
    }
    var markets := MarketCodes(lines[1]);
    if markets == [] {
      assert Parse(text, defaultYear) == Err(NoMarkets(lines[1]));
      return Err(NoMarkets(lines[1]));
    }
    var h := Header(date.value, markets);
    assert Parse(text, defaultYear) == ParseLines(lines[2..], h);
    r := ParseWagerLines(lines[2..], h);
  }

  /** Step 4 of parse_bet_text: the loop over the wager lines, appending the
      bets of each line in turn. */
  method ParseWagerLines(wagerLines: seq<string>, h: Header) returns (r: Result<seq<Bet>, ParseError>)
    requires forall l :: l in wagerLines ==> StartsWithWord(l)
    ensures r == ParseLines(wagerLines, h)
  {
    var bets: seq<Bet> := [];
    var k := 0;
    assert wagerLines[k..] == wagerLines;
    PrependNothing(ParseLines(wagerLines, h));
    while k < |wagerLines|
      invariant 0 <= k <= |wagerLines|
      invariant ParseLines(wagerLines, h) == Prepend(bets, ParseLines(wagerLines[k..], h))
    {
      assert wagerLines[k..][1..] == wagerLines[k + 1..];
      var lineBets := LineBets(wagerLines[k], h);
      if lineBets.Err? {
        assert ParseLines(wagerLines[k..], h) == Err(lineBets.error);
        return Err(lineBets.error);
      }
      PrependTwice(bets, lineBets.value, ParseLines(wagerLines[k + 1..], h));
      bets := bets + lineBets.value;
      k := k + 1;
    }
    assert wagerLines[k..] == [];
    assert bets + [] == bets;
    assert ParseLines(wagerLines, h) == Ok(bets);
    return Ok(bets);
  }

  /** Lines 80-83 of the loop body: a last token reading `box` or `ibox` in
      any case sets the mode and is dropped. */
  method TrailingMode(words: seq<string>) returns (mode: Mode, tokens: seq<string>)
    requires words != []
    ensures (mode, tokens) == SplitMode(words)
  {
    mode, tokens := NoMode, words;
    var last := Lower(words[|words| - 1]);
    if last == "ibox" || last == "box" {
      mode := if last == "ibox" then IBox else Box;
      tokens := words[..|words| - 1];
    }
  }

  /** The body of the loop over wager lines: split off a trailing mode word,
      then walk the tokens, collecting one bet per recognised token and
      carrying `current` from token to token. */
  method LineBets(line: string, h: Header) returns (r: Result<seq<Bet>, ParseError>)
    requires StartsWithWord(line)
    ensures r == ParseLine(line, h)
  {
    var mode, tokens := TrailingMode(Tokens(line));
    assert ParseLine(line, h) == ParseTokens(tokens, mode, None, h);

    var out: seq<Bet> := [];
    var current: Option<string> := None;
    var i := 0;
    assert tokens[i..] == tokens;
    PrependNothing(ParseTokens(tokens, mode, None, h));
    while i < |tokens|
      invariant 0 <= i <= |tokens|
      invariant ParseTokens(tokens, mode, None, h)
             == Prepend(out, ParseTokens(tokens[i..], mode, current, h))
    {
      var tok := tokens[i];
      assert tokens[i..][1..] == tokens[i + 1..];
      ghost var before := current;
      var full := MatchFull(tok);
      if full.Some? {
        var (num, amt, t) := full.value;
        if mode != NoMode && UpperChar(t) !in BoxTypes {
          return Err(ModeNotAllowed(mode, UpperChar(t)));
        }
        current := Some(ZeroFill(num, 4));
        var bet := NewBet(h, current.value, t, mode, amt);
        assert TokenStep(tok, mode, before, h) == Ok(Step([bet], current));
        assert ParseTokens(tokens[i..], mode, before, h) == Prepend([bet], ParseTokens(tokens[i + 1..], mode, current, h));
        PrependTwice(out, [bet], ParseTokens(tokens[i + 1..], mode, current, h));
        out := out + [bet];
      } else {
        var part := MatchPartial(tok);
        if part.Some? {
          var (amt, t) := part.value;
          if current.None? {
            assert TokenStep(tok, mode, before, h) == Err(MissingNumber(tok));
            return Err(MissingNumber(tok));
          }
          if mode != NoMode && UpperChar(t) !in BoxTypes {
            return Err(ModeNotAllowed(mode, UpperChar(t)));
          }
          var bet := NewBet(h, current.value, t, mode, amt);
          assert TokenStep(tok, mode, before, h) == Ok(Step([bet], current));
          assert ParseTokens(tokens[i..], mode, before, h) == Prepend([bet], ParseTokens(tokens[i + 1..], mode, current, h));
          PrependTwice(out, [bet], ParseTokens(tokens[i + 1..], mode, current, h));
          out := out + [bet];
        } else {
          assert TokenStep(tok, mode, before, h) == Ok(Step([], current));
          assert ParseTokens(tokens[i..], mode, before, h) == Prepend([], ParseTokens(tokens[i + 1..], mode, current, h));
          PrependNothing(ParseTokens(tokens[i + 1..], mode, current, h));
        }
      }
      i := i + 1;
    }
    assert tokens[i..] == [];
    assert out + [] == out;
    return Ok(out);
  }
}
