/** Worked examples of parse_bet_text, computed from the model. */
module ParserExamples {
  import opened Wrappers
  import opened Text
  import opened BetParser
  import opened ParserProps

  lemma TwoSteps(toks: seq<string>, mode: Mode, h: Header, b1: Bet, b2: Bet, c1: Option<string>, c2: Option<string>)
    requires |toks| == 2
    requires TokenStep(toks[0], mode, None, h) == Ok(Step([b1], c1))
    requires TokenStep(toks[1], mode, c1, h) == Ok(Step([b2], c2))
    ensures ParseTokens(toks, mode, None, h) == Ok([b1, b2])
  {
    var rest := toks[1..];
    assert rest[0] == toks[1] && rest[1..] == [];
    assert ParseTokens(rest, mode, c1, h) == Prepend([b2], ParseTokens([], mode, c2, h));
    assert [b2] + [] == [b2];
    assert [b1] + [b2] == [b1, b2];
  }

  lemma TwoDigitsOf(s: string)
    requires |s| == 2 && AllDigits(s)
    ensures DigitsValue(s) == DigitValue(s[0]) * 10 + DigitValue(s[1])
  {
    var p := s[..1];
    assert p[..0] == [] && p[0] == s[0];
    assert DigitsValue(p) == DigitValue(s[0]);
  }

  // --- 08/06 / MKT / 1526-1B 1S ibox

  lemma IboxCleanLines(ls: seq<string>)
    requires ls == ["08/06", "MKT", "1526-1B 1S ibox"]
    ensures forall l :: l in ls ==> IsCleanLine(l)
  {
    assert IsCleanLine(ls[0]) && IsCleanLine(ls[1]) && IsCleanLine(ls[2]);
  }

  lemma IboxText(text: string)
    requires text == "08/06\nMKT\n1526-1B 1S ibox"
    ensures text == JoinLines(["08/06", "MKT", "1526-1B 1S ibox"])
  {
  }

  lemma IboxLines(text: string)
    requires text == "08/06\nMKT\n1526-1B 1S ibox"
    ensures NonBlankLines(text) == ["08/06", "MKT", "1526-1B 1S ibox"]
  {
    var ls := ["08/06", "MKT", "1526-1B 1S ibox"];
    IboxText(text);
    IboxCleanLines(ls);
    NonBlankLinesOfJoin(ls);
  }

  lemma DigitsOf08And06(dd: string, mm: string)
    requires dd == "08" && mm == "06"
    ensures DigitsValue(dd) == 8 && DigitsValue(mm) == 6
  {
    TwoDigitsOf(dd);
    TwoDigitsOf(mm);
  }

  lemma Date20250608()
    ensures FormatDate(2025, 6, 8) == "2025-06-08"
  {
    assert FourDigits(2025) == "2025";
    assert TwoDigits(6) == "06" && TwoDigits(8) == "08";
  }

  lemma IboxDate(line: string)
    requires line == "08/06"
    ensures ParseDate(line, 2025) == Ok("2025-06-08")
  {
    assert line == "08" + "/" + "06";
    ParseDateOfDayMonth("08", "06", 2025);
    DigitsOf08And06("08", "06");
    Date20250608();
  }

  lemma MarketsMKT(line: string)
    requires line == "MKT"
    ensures MarketCodes(line) == "MKT"
  {
    assert line == "M" + ("K" + "T");
    MarketCodesConcat("M", "K" + "T");
    MarketCodesConcat("K", "T");
    MarketCodesOfChar('M');
    MarketCodesOfChar('K');
    MarketCodesOfChar('T');
  }

  lemma IboxTokens(line: string)
    requires line == "1526-1B 1S ibox"
    ensures Tokens(line) == ["1526-1B", "1S", "ibox"]
  {
    var ws := ["1526-1B", "1S", "ibox"];
    assert line == JoinWords(ws);
    assert IsWord(ws[0]) && IsWord(ws[1]) && IsWord(ws[2]);
    SplitJoinWords(ws);
  }

  lemma IboxMode(ws: seq<string>)
    requires ws == ["1526-1B", "1S", "ibox"]
    ensures SplitMode(ws) == (IBox, ["1526-1B", "1S"])
  {
    assert Lower(ws[2]) == "ibox";
    assert ws[..2] == ["1526-1B", "1S"];
  }

  lemma FullToken1526B(tok: string, h: Header)
    requires tok == "1526-1B"
    ensures TokenStep(tok, IBox, None, h)
         == Ok(Step([Bet(h.date, h.markets, "1526", 'B', IBox, 1)], Some("1526")))
  {
    assert tok == "1526" + "-" + "1" + ['B'];
    MatchFullAccepts("1526", "1", 'B');
    assert MatchFull(tok) == Some(("1526", "1", 'B'));
    var number := ZeroFill("1526", 4);
    assert number[4 - 4..] == "1526";
    assert number == "1526";
    assert "1"[..0] == [];
    assert DigitsValue("1") == 1;
    assert UpperChar('B') == 'B';
  }

  lemma AmountToken1S(tok: string, h: Header)
    requires tok == "1S"
    ensures TokenStep(tok, IBox, Some("1526"), h)
         == Ok(Step([Bet(h.date, h.markets, "1526", 'S', IBox, 1)], Some("1526")))
  {
    assert tok == "1" + ['S'];
    MatchPartialAccepts("1", 'S');
    assert "1"[..0] == [];
    assert MatchFull(tok) == None;
  }

  lemma IboxLineBets(line: string, h: Header)
    requires line == "1526-1B 1S ibox"
    ensures ParseLine(line, h) == Ok([Bet(h.date, h.markets, "1526", 'B', IBox, 1),
                                      Bet(h.date, h.markets, "1526", 'S', IBox, 1)])
  {
    IboxTokens(line);
    IboxMode(Tokens(line));
    var toks := SplitMode(Tokens(line)).1;
    FullToken1526B(toks[0], h);
    AmountToken1S(toks[1], h);
    TwoSteps(toks, IBox, h, Bet(h.date, h.markets, "1526", 'B', IBox, 1),
      Bet(h.date, h.markets, "1526", 'S', IBox, 1), Some("1526"), Some("1526"));
  }

  lemma IboxHeader(text: string)
    requires NonBlankLines(text) == ["08/06", "MKT", "1526-1B 1S ibox"]
    ensures var lines := NonBlankLines(text);
      && |lines| == 3
      && ParseDate(lines[0], 2025) == Ok("2025-06-08")
      && MarketCodes(lines[1]) == "MKT"
      && lines[2] == "1526-1B 1S ibox"
  {
    var lines := NonBlankLines(text);
    IboxDate(lines[0]);
    MarketsMKT(lines[1]);
  }

  lemma IboxBets(text: string)
    requires NonBlankLines(text) == ["08/06", "MKT", "1526-1B 1S ibox"]
    ensures Parse(text, 2025)
         == Ok([Bet("2025-06-08", "MKT", "1526", 'B', IBox, 1),
                Bet("2025-06-08", "MKT", "1526", 'S', IBox, 1)])
  {
    IboxHeader(text);
    ParseOfOneWagerLine(text, 2025);
    IboxLineBets(NonBlankLines(text)[2], HeaderOf(text, 2025));
  }

  /** The ibox example of the documentation: one number, a big and a small
      bet of 1 each, all of them `ibox`, on markets M, K, T. */
  lemma IboxMessage(text: string)
    requires text == "08/06\nMKT\n1526-1B 1S ibox"
    ensures Parse(text, 2025)
         == Ok([Bet("2025-06-08", "MKT", "1526", 'B', IBox, 1),
                Bet("2025-06-08", "MKT", "1526", 'S', IBox, 1)])
  {
    IboxLines(text);
    IboxBets(text);
  }

  /** The first sample message of the module's self-test, whose last line
      ends in a line feed: the final line feed changes nothing. */
  lemma IboxSample(text: string)
    requires text == "08/06\nMKT\n1526-1B 1S ibox\n"
    ensures Parse(text, 2025)
         == Ok([Bet("2025-06-08", "MKT", "1526", 'B', IBox, 1),
                Bet("2025-06-08", "MKT", "1526", 'S', IBox, 1)])
  {
    var ls := ["08/06", "MKT", "1526-1B 1S ibox"];
    assert text == JoinLines(ls) + "\n";
    IboxCleanLines(ls);
    NonBlankLinesOfTerminatedJoin(ls);
    IboxBets(text);
  }

  // --- 1234-2C box 5A

  lemma MiddleBoxTokens(line: string)
    requires line == "1234-2C box 5A"
    ensures Tokens(line) == ["1234-2C", "box", "5A"]
  {
    var ws := ["1234-2C", "box", "5A"];
    assert line == JoinWords(ws);
    assert IsWord(ws[0]) && IsWord(ws[1]) && IsWord(ws[2]);
    SplitJoinWords(ws);
  }

  lemma MiddleBoxMode(ws: seq<string>)
    requires ws == ["1234-2C", "box", "5A"]
    ensures SplitMode(ws) == (NoMode, ws)
  {
    assert Lower(ws[2]) == "5a";
  }

  lemma BoxWordIsNoWager(word: string)
    requires word == "box"
    ensures !Recognized(word)
  {
    assert !IsBetLetter('x');
  }

  lemma FullToken1234C(tok: string, h: Header)
    requires tok == "1234-2C"
    ensures TokenStep(tok, NoMode, None, h)
         == Ok(Step([Bet(h.date, h.markets, "1234", 'C', NoMode, 2)], Some("1234")))
  {
    assert tok == "1234" + "-" + "2" + ['C'];
    MatchFullAccepts("1234", "2", 'C');
    assert "2"[..0] == [];
  }

  lemma AmountToken5A(tok: string, h: Header)
    requires tok == "5A"
    ensures TokenStep(tok, NoMode, Some("1234"), h)
         == Ok(Step([Bet(h.date, h.markets, "1234", 'A', NoMode, 5)], Some("1234")))
  {
    assert tok == "5" + ['A'];
    MatchPartialAccepts("5", 'A');
    assert "5"[..0] == [];
    assert MatchFull(tok) == None;
  }

  lemma MiddleBoxSkip(ws: seq<string>, h: Header)
    requires ws == ["1234-2C", "box", "5A"]
    ensures ParseTokens(ws, NoMode, None, h) == ParseTokens([ws[0], ws[2]], NoMode, None, h)
  {
    BoxWordIsNoWager(ws[1]);
    assert ws == [ws[0]] + [ws[1]] + [ws[2]];
    assert [ws[0]] + [ws[2]] == [ws[0], ws[2]];
    SkipUnrecognized([ws[0]], ws[1], [ws[2]], NoMode, None, h);
  }

  lemma MiddleBoxBets(toks: seq<string>, h: Header)
    requires toks == ["1234-2C", "5A"]
    ensures ParseTokens(toks, NoMode, None, h) == Ok([Bet(h.date, h.markets, "1234", 'C', NoMode, 2),
                                                     Bet(h.date, h.markets, "1234", 'A', NoMode, 5)])
  {
    FullToken1234C(toks[0], h);
    AmountToken5A(toks[1], h);
    TwoSteps(toks, NoMode, h, Bet(h.date, h.markets, "1234", 'C', NoMode, 2),
      Bet(h.date, h.markets, "1234", 'A', NoMode, 5), Some("1234"), Some("1234"));
  }

  /** A `box` word that is not the last token is only a skipped token: the
      mode is read from the last token alone, so this line has no mode and
      its consolation and 3D bets are accepted. */
  lemma BoxInMiddleIsSkipped(line: string, h: Header)
    requires line == "1234-2C box 5A"
    ensures ParseLine(line, h) == Ok([Bet(h.date, h.markets, "1234", 'C', NoMode, 2),
                                      Bet(h.date, h.markets, "1234", 'A', NoMode, 5)])
  {
    MiddleBoxTokens(line);
    var ws := Tokens(line);
    MiddleBoxMode(ws);
    MiddleBoxSkip(ws, h);
    MiddleBoxBets([ws[0], ws[2]], h);
  }

  // --- 09/06 / MS / 1234-2C box 5A

  lemma MiddleBoxCleanLines(ls: seq<string>)
    requires ls == ["09/06", "MS", "1234-2C box 5A"]
    ensures forall l :: l in ls ==> IsCleanLine(l)
  {
    assert IsCleanLine(ls[0]) && IsCleanLine(ls[1]) && IsCleanLine(ls[2]);
  }

  lemma DigitsOf09And06(dd: string, mm: string)
    requires dd == "09" && mm == "06"
    ensures DigitsValue(dd) == 9 && DigitsValue(mm) == 6
  {
    TwoDigitsOf(dd);
    TwoDigitsOf(mm);
  }

  lemma Date20250609()
    ensures FormatDate(2025, 6, 9) == "2025-06-09"
  {
    assert FourDigits(2025) == "2025";
    assert TwoDigits(6) == "06" && TwoDigits(9) == "09";
  }

  lemma MiddleBoxDate(line: string)
    requires line == "09/06"
    ensures ParseDate(line, 2025) == Ok("2025-06-09")
  {
    assert line == "09" + "/" + "06";
    ParseDateOfDayMonth("09", "06", 2025);
    DigitsOf09And06("09", "06");
    Date20250609();
  }

  lemma MarketsMS(line: string)
    requires line == "MS"
    ensures MarketCodes(line) == "MS"
  {
    assert line == "M" + "S";
    MarketCodesConcat("M", "S");
    MarketCodesOfChar('M');
    MarketCodesOfChar('S');
  }

  lemma MiddleBoxLines(text: string)
    requires text == "09/06\nMS\n1234-2C box 5A\n"
    ensures NonBlankLines(text) == ["09/06", "MS", "1234-2C box 5A"]
  {
    var ls := ["09/06", "MS", "1234-2C box 5A"];
    assert text == JoinLines(ls) + "\n";
    MiddleBoxCleanLines(ls);
    NonBlankLinesOfTerminatedJoin(ls);
  }

  lemma MiddleBoxHeader(lines: seq<string>)
    requires lines == ["09/06", "MS", "1234-2C box 5A"]
    ensures ParseDate(lines[0], 2025) == Ok("2025-06-09") && MarketCodes(lines[1]) == "MS"
  {
    MiddleBoxDate(lines[0]);
    MarketsMS(lines[1]);
  }

  /** The second sample message of the module's self-test: the `box` word
      sits between the tokens, so both bets carry no mode. */
  lemma MiddleBoxSample(text: string)
    requires text == "09/06\nMS\n1234-2C box 5A\n"
    ensures Parse(text, 2025)
         == Ok([Bet("2025-06-09", "MS", "1234", 'C', NoMode, 2),
                Bet("2025-06-09", "MS", "1234", 'A', NoMode, 5)])
  {
    MiddleBoxLines(text);
    var lines := NonBlankLines(text);
    MiddleBoxHeader(lines);
    ParseOfOneWagerLine(text, 2025);
    BoxInMiddleIsSkipped(lines[2], HeaderOf(text, 2025));
  }

  // --- the four-line message of the documentation

  lemma TwoLines(ls: seq<string>, h: Header, xs: seq<Bet>, ys: seq<Bet>)
    requires |ls| == 2 && StartsWithWord(ls[0]) && StartsWithWord(ls[1])
    requires ParseLine(ls[0], h) == Ok(xs) && ParseLine(ls[1], h) == Ok(ys)
    ensures forall l :: l in ls ==> StartsWithWord(l)
    ensures ParseLines(ls, h) == Ok(xs + ys)
  {
    var tail := ls[1..];
    assert tail == [ls[1]];
    ParseLinesOfOne(tail, h);
    assert ParseLines(ls, h) == Prepend(xs, ParseLines(tail, h));
  }

  lemma DocumentCleanLines(ls: seq<string>)
    requires ls == ["08/06", "MKT", "1526-1B 1S ibox", "1234-2C box 5A"]
    ensures forall l :: l in ls ==> IsCleanLine(l)
  {
    IboxCleanLines(ls[..3]);
    MiddleBoxCleanLines(["09/06", "MS", ls[3]]);
    assert ls == ls[..3] + [ls[3]];
  }

  lemma JoinLinesSnoc(ls: seq<string>, l: string)
    requires ls != []
    ensures JoinLines(ls + [l]) == JoinLines(ls) + "\n" + l
  {
    if |ls| == 1 {
      assert (ls + [l])[1..] == [l];
    } else {
      assert (ls + [l])[1..] == ls[1..] + [l];
      JoinLinesSnoc(ls[1..], l);
    }
  }

  lemma DocumentText(text: string)
    requires text == "08/06\nMKT\n1526-1B 1S ibox\n1234-2C box 5A"
    ensures text == JoinLines(["08/06", "MKT", "1526-1B 1S ibox", "1234-2C box 5A"])
  {
    var ls, last := ["08/06", "MKT", "1526-1B 1S ibox"], "1234-2C box 5A";
    var first := "08/06\nMKT\n1526-1B 1S ibox";
    assert text == first + "\n" + last;
    assert first == JoinLines(ls) by { IboxText(first); }
    assert JoinLines(ls + [last]) == JoinLines(ls) + "\n" + last by { JoinLinesSnoc(ls, last); }
    assert ls + [last] == ["08/06", "MKT", "1526-1B 1S ibox", "1234-2C box 5A"];
  }

  lemma DocumentLines(text: string)
    requires text == "08/06\nMKT\n1526-1B 1S ibox\n1234-2C box 5A"
    ensures NonBlankLines(text) == ["08/06", "MKT", "1526-1B 1S ibox", "1234-2C box 5A"]
  {
    var ls := ["08/06", "MKT", "1526-1B 1S ibox", "1234-2C box 5A"];
    DocumentText(text);
    DocumentCleanLines(ls);
    NonBlankLinesOfJoin(ls);
  }

  lemma ConcatTwoPairs(xs: seq<Bet>, ys: seq<Bet>, a: Bet, b: Bet, c: Bet, d: Bet)
    requires xs == [a, b] && ys == [c, d]
    ensures xs + ys == [a, b, c, d]
  {
  }

  lemma DocumentWagerLines(ls: seq<string>, h: Header)
    requires |ls| == 2 && ls[0] == "1526-1B 1S ibox" && ls[1] == "1234-2C box 5A"
    ensures forall l :: l in ls ==> StartsWithWord(l)
    ensures ParseLines(ls, h)
         == Ok([Bet(h.date, h.markets, "1526", 'B', IBox, 1),
                Bet(h.date, h.markets, "1526", 'S', IBox, 1),
                Bet(h.date, h.markets, "1234", 'C', NoMode, 2),
                Bet(h.date, h.markets, "1234", 'A', NoMode, 5)])
  {
    var a, b := Bet(h.date, h.markets, "1526", 'B', IBox, 1), Bet(h.date, h.markets, "1526", 'S', IBox, 1);
    var c, d := Bet(h.date, h.markets, "1234", 'C', NoMode, 2), Bet(h.date, h.markets, "1234", 'A', NoMode, 5);
    assert StartsWithWord(ls[0]) && StartsWithWord(ls[1]);
    assert ParseLine(ls[0], h) == Ok([a, b]) by { IboxLineBets(ls[0], h); }
    assert ParseLine(ls[1], h) == Ok([c, d]) by { BoxInMiddleIsSkipped(ls[1], h); }
    TwoLines(ls, h, [a, b], [c, d]);
    ConcatTwoPairs([a, b], [c, d], a, b, c, d);
  }

  lemma DocumentHeader(lines: seq<string>)
    requires lines == ["08/06", "MKT", "1526-1B 1S ibox", "1234-2C box 5A"]
    ensures ParseDate(lines[0], 2025) == Ok("2025-06-08") && MarketCodes(lines[1]) == "MKT"
    ensures lines[2..] == ["1526-1B 1S ibox", "1234-2C box 5A"]
  {
    IboxDate(lines[0]);
    MarketsMKT(lines[1]);
  }

  /** The four-line message of the documentation. The second wager line's
      `box` is not its last token, so its bets carry no mode, where the
      documentation shows mode `box` for them. */
  lemma DocumentMessage(text: string)
    requires text == "08/06\nMKT\n1526-1B 1S ibox\n1234-2C box 5A"
    ensures Parse(text, 2025)
         == Ok([Bet("2025-06-08", "MKT", "1526", 'B', IBox, 1),
                Bet("2025-06-08", "MKT", "1526", 'S', IBox, 1),
                Bet("2025-06-08", "MKT", "1234", 'C', NoMode, 2),
                Bet("2025-06-08", "MKT", "1234", 'A', NoMode, 5)])
  {
    DocumentLines(text);
    var lines := NonBlankLines(text);
    DocumentHeader(lines);
    ParseOfWagerLines(text, 2025);
    DocumentWagerLines(lines[2..], HeaderOf(text, 2025));
  }

  // --- 5B

  /** An amount-only token before any number is rejected. */
  lemma AmountFirstIsRejected(line: string, h: Header)
    requires line == "5B"
    ensures ParseLine(line, h) == Err(MissingNumber("5B"))
  {
    assert IsWord(line);
    TokensOneWord(line);
    assert Lower(line) == "5b";
    assert line == "5" + ['B'];
    MatchPartialAccepts("5", 'B');
    assert MatchFull(line) == None;
  }

  // --- 29/02

  lemma DigitsOf29And02(dd: string, mm: string)
    requires dd == "29" && mm == "02"
    ensures DigitsValue(dd) == 29 && DigitsValue(mm) == 2
  {
    TwoDigitsOf(dd);
    TwoDigitsOf(mm);
  }

  lemma Date20240229()
    ensures FormatDate(2024, 2, 29) == "2024-02-29"
  {
    assert FourDigits(2024) == "2024";
    assert TwoDigits(2) == "02" && TwoDigits(29) == "29";
  }

  /** 29 February exists in a leap year only. */
  lemma LeapDay(line: string)
    requires line == "29/02"
    ensures ParseDate(line, 2024) == Ok("2024-02-29")
    ensures ParseDate(line, 2025) == Err(InvalidDate(29, 2))
  {
    assert line == "29" + "/" + "02";
    ParseDateOfDayMonth("29", "02", 2024);
    ParseDateOfDayMonth("29", "02", 2025);
    DigitsOf29And02("29", "02");
    Date20240229();
  }
}
