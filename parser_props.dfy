/** What parse_bet_text promises about its output and its errors, proved
    about the functions of `BetParser`. */
module ParserProps {
  import opened Wrappers
  import opened Text
  import opened BetParser

  // ---------------------------------------------------------------------
  // The token patterns, read back as regular expressions

  /** A token matched as `NNNN-<amt><type>` is exactly its groups joined. */
  lemma MatchFullShape(tok: string)
    requires MatchFull(tok).Some?
    ensures var (num, amt, t) := MatchFull(tok).value;
      tok == num + "-" + amt + [t]
  {
    var body := tok[..|tok| - 1];
    var k := IndexOf(body, '-');
    assert tok == body[..k] + "-" + body[k + 1..] + [tok[|tok| - 1]];
  }

  /** Every string of the form `\d{1,4}-\d+[BSACbsac]` is matched, with its
      parts as the groups. */
  lemma MatchFullAccepts(num: string, amt: string, t: char)
    requires 1 <= |num| <= 4 && AllDigits(num)
    requires 1 <= |amt| && AllDigits(amt)
    requires IsBetLetter(t)
    ensures MatchFull(num + "-" + amt + [t]) == Some((num, amt, t))
  {
    var tok := num + "-" + amt + [t];
    var body := tok[..|tok| - 1];
    assert body == num + "-" + amt;
    assert body[|num|] == '-';
    var k := IndexOf(body, '-');
    assert k == |num|;
    assert body[..k] == num;
    assert body[k + 1..] == amt;
  }

  /** A token matched as `<amt><type>` is exactly its groups joined. */
  lemma MatchPartialShape(tok: string)
    requires MatchPartial(tok).Some?
    ensures tok == MatchPartial(tok).value.0 + [MatchPartial(tok).value.1]
  {
  }

  /** Every string of the form `\d+[BSACbsac]` is matched as an amount-only token. */
  lemma MatchPartialAccepts(amt: string, t: char)
    requires 1 <= |amt| && AllDigits(amt)
    requires IsBetLetter(t)
    ensures MatchPartial(amt + [t]) == Some((amt, t))
  {
    var tok := amt + [t];
    assert tok[..|tok| - 1] == amt;
  }

  /** A full token is never also read as an amount-only token: its dash is
      not a digit. */
  lemma FullIsNotPartial(tok: string)
    requires MatchFull(tok).Some?
    ensures MatchPartial(tok).None?
  {
    MatchFullShape(tok);
    var (num, amt, t) := MatchFull(tok).value;
    assert tok[|num|] == '-';
  }

  // ---------------------------------------------------------------------
  // Lines

  /** A non-empty line with no whitespace at its ends and no line break. */
  predicate IsCleanLine(l: string) {
    && l != [] && !IsSpace(l[0]) && !IsSpace(l[|l| - 1])
    && forall j :: 0 <= j < |l| ==> !IsLineBreak(l[j])
  }

  /** Lines that are already stripped and non-empty pass the blank-line
      filter unchanged. */
  lemma {:induction false} StrippedLinesKept(ls: seq<string>)
    requires forall l :: l in ls ==> IsCleanLine(l)
    ensures StrippedNonBlank(ls) == ls
  {
    if ls != [] {
      assert ls[0] in ls;
      StripUnpadded(ls[0]);
      StrippedLinesKept(ls[1..]);
    }
  }

  /** Every line the blank-line filter keeps is the strip of some line. */
  lemma {:induction false} StrippedNonBlankSound(ls: seq<string>)
    ensures forall l :: l in StrippedNonBlank(ls) ==> exists i :: 0 <= i < |ls| && Strip(ls[i]) == l
  {
    if ls != [] {
      var tail := ls[1..];
      StrippedNonBlankSound(tail);
      var l, rest := Strip(ls[0]), StrippedNonBlank(tail);
      assert StrippedNonBlank(ls) == (if l != [] then [l] else []) + rest;
      forall x | x in StrippedNonBlank(ls)
        ensures exists i :: 0 <= i < |ls| && Strip(ls[i]) == x
      {
        if x in rest {
          var j :| 0 <= j < |tail| && Strip(tail[j]) == x;
          assert ls[j + 1] == tail[j];
        } else {
          assert Strip(ls[0]) == x;
        }
      }
    }
  }

  /** Every line whose strip is not empty has its strip kept. */
  lemma {:induction false} StrippedNonBlankComplete(ls: seq<string>)
    ensures forall i :: 0 <= i < |ls| && Strip(ls[i]) != [] ==> Strip(ls[i]) in StrippedNonBlank(ls)
  {
    if ls != [] {
      var tail := ls[1..];
      StrippedNonBlankComplete(tail);
      var l, rest := Strip(ls[0]), StrippedNonBlank(tail);
      assert StrippedNonBlank(ls) == (if l != [] then [l] else []) + rest;
      forall i | 0 <= i < |ls| && Strip(ls[i]) != []
        ensures Strip(ls[i]) in StrippedNonBlank(ls)
      {
        if i > 0 {
          assert tail[i - 1] == ls[i];
          assert Strip(ls[i]) in rest;
        }
      }
    }
  }

  /** `NonBlankLines` holds exactly the non-empty strips of the text's lines. */
  lemma NonBlankLinesExactly(text: string)
    ensures forall l :: l in NonBlankLines(text) ==>
      exists i :: 0 <= i < |SplitLines(text)| && Strip(SplitLines(text)[i]) == l
    ensures forall i :: 0 <= i < |SplitLines(text)| && Strip(SplitLines(text)[i]) != [] ==>
      Strip(SplitLines(text)[i]) in NonBlankLines(text)
  {
    var ls := SplitLines(text);
    assert NonBlankLines(text) == StrippedNonBlank(ls);
    StrippedNonBlankSound(ls);
    StrippedNonBlankComplete(ls);
  }

  /** The non-blank lines of stripped lines joined by line feeds are those lines. */
  lemma NonBlankLinesOfJoin(ls: seq<string>)
    requires forall l :: l in ls ==> IsCleanLine(l)
    ensures NonBlankLines(JoinLines(ls)) == ls
  {
    SplitJoinLines(ls);
    StrippedLinesKept(ls);
  }

  /** The same holds when the last line too ends in a line feed. */
  lemma NonBlankLinesOfTerminatedJoin(ls: seq<string>)
    requires ls != [] && forall l :: l in ls ==> IsCleanLine(l)
    ensures NonBlankLines(JoinLines(ls) + "\n") == ls
  {
    SplitJoinLinesTerminated(ls);
    StrippedLinesKept(ls);
  }

  // ---------------------------------------------------------------------
  // The date line

  /** A date line that matches is its two groups around a slash. */
  lemma MatchDateShape(line: string)
    requires MatchDate(line).Some?
    ensures line == MatchDate(line).value.0 + "/" + MatchDate(line).value.1
  {
    var k := IndexOf(line, '/');
    assert line == line[..k] + "/" + line[k + 1..];
  }

  /** Every `\d{1,2}/\d{1,2}` line matches, with its parts as the groups. */
  lemma MatchDateAccepts(dd: string, mm: string)
    requires 1 <= |dd| <= 2 && AllDigits(dd)
    requires 1 <= |mm| <= 2 && AllDigits(mm)
    ensures MatchDate(dd + "/" + mm) == Some((dd, mm))
  {
    var line := dd + "/" + mm;
    assert line[|dd|] == '/';
    var k := IndexOf(line, '/');
    assert k == |dd|;
    assert line[..k] == dd;
    assert line[k + 1..] == mm;
  }

  lemma TwoDigitsValue(n: nat)
    requires n < 100
    ensures AllDigits(TwoDigits(n)) && DigitsValue(TwoDigits(n)) == n
  {
    var s := TwoDigits(n);
    assert s[..1][..0] == [];
    assert DigitsValue(s[..1]) == n / 10;
  }

  lemma FourDigitsValue(n: nat)
    requires n < 10000
    ensures AllDigits(FourDigits(n)) && DigitsValue(FourDigits(n)) == n
  {
    var s := FourDigits(n);
    assert s[..3][..2] == s[..2];
    assert s[..2][..1] == s[..1];
    assert s[..1][..0] == [];
    assert DigitsValue(s[..1]) == n / 1000;
    assert DigitsValue(s[..2]) == n / 1000 * 10 + n / 100 % 10 == n / 100;
    assert DigitsValue(s[..3]) == n / 100 * 10 + n / 10 % 10 == n / 10;
  }

  /** The emitted date string reads back as the year, month and day it was
      made from: four digits, a dash, two digits, a dash, two digits. */
  lemma FormatDateRoundTrip(y: nat, m: nat, d: nat)
    requires y < 10000 && m < 100 && d < 100
    ensures var s := FormatDate(y, m, d);
      && AllDigits(s[..4]) && DigitsValue(s[..4]) == y
      && AllDigits(s[5..7]) && DigitsValue(s[5..7]) == m
      && AllDigits(s[8..10]) && DigitsValue(s[8..10]) == d
  {
    var s := FormatDate(y, m, d);
    assert s[..4] == FourDigits(y);
    assert s[5..7] == TwoDigits(m);
    assert s[8..10] == TwoDigits(d);
    FourDigitsValue(y);
    TwoDigitsValue(m);
    TwoDigitsValue(d);
  }

  /** A `D/M` line is accepted exactly when day and month form a calendar
      date of `year`, and then yields that date as `YYYY-MM-DD`. */
  lemma ParseDateOfDayMonth(dd: string, mm: string, year: nat)
    requires 1000 <= year <= 9999
    requires 1 <= |dd| <= 2 && AllDigits(dd)
    requires 1 <= |mm| <= 2 && AllDigits(mm)
    ensures var day, month := DigitsValue(dd), DigitsValue(mm);
      ParseDate(dd + "/" + mm, year)
        == if IsCalendarDate(year, month, day) then Ok(FormatDate(year, month, day))
           else Err(InvalidDate(day, month))
  {
    MatchDateAccepts(dd, mm);
  }

  // ---------------------------------------------------------------------
  // The market line

  lemma RemoveCharConcat(a: string, b: string, c: char)
    ensures RemoveChar(a + b, c) == RemoveChar(a, c) + RemoveChar(b, c)
    decreases |a|
  {
    if a != [] {
      assert (a + b)[1..] == a[1..] + b;
      RemoveCharConcat(a[1..], b, c);
    } else {
      assert a + b == b;
    }
  }

  lemma KeepMarketsConcat(a: string, b: string)
    ensures KeepMarkets(a + b) == KeepMarkets(a) + KeepMarkets(b)
    decreases |a|
  {
    if a != [] {
      assert (a + b)[1..] == a[1..] + b;
      KeepMarketsConcat(a[1..], b);
    } else {
      assert a + b == b;
    }
  }

  /** The market codes of two pieces of a line are those of each piece in
      turn: order and repetitions are kept. */
  lemma {:induction false} MarketCodesConcat(a: string, b: string)
    ensures MarketCodes(a + b) == MarketCodes(a) + MarketCodes(b)
  {
    var c := ' ';
    RemoveCharConcat(a, b, c);
    assert Upper(RemoveChar(a, c) + RemoveChar(b, c)) == Upper(RemoveChar(a, c)) + Upper(RemoveChar(b, c));
    KeepMarketsConcat(Upper(RemoveChar(a, c)), Upper(RemoveChar(b, c)));
  }

  /** One character contributes its upper-case form when that is one of
      M, K, T, S, H, E, and nothing otherwise. */
  lemma MarketCodesOfChar(c: char)
    ensures MarketCodes([c]) == if UpperChar(c) in ValidMarkets then [UpperChar(c)] else []
  {
    if c == ' ' {
      assert RemoveChar([c], ' ') == [];
    } else {
      assert RemoveChar([c], ' ') == [c];
      assert Upper([c]) == [UpperChar(c)];
    }
  }

  // ---------------------------------------------------------------------
  // The wager tokens of one line

  predicate Recognized(tok: string) {
    MatchFull(tok).Some? || MatchPartial(tok).Some?
  }

  /** The upper-cased type letter of a recognised token. */
  function TokenType(tok: string): char
    requires Recognized(tok)
  {
    if MatchFull(tok).Some? then UpperChar(MatchFull(tok).value.2)
    else UpperChar(MatchPartial(tok).value.1)
  }

  function RecognizedCount(toks: seq<string>): (n: nat)
    ensures n <= |toks|
  {
    if toks == [] then 0
    else (if Recognized(toks[0]) then 1 else 0) + RecognizedCount(toks[1..])
  }

  /** The number a line's current number becomes once `toks` have been
      read: the zero-filled number of the most recent full token, or `cur`
      when there is none. */
  function LatestNumber(toks: seq<string>, cur: Option<string>): Option<string>
  {
    if toks == [] then cur
    else
      match MatchFull(toks[|toks| - 1])
      case Some((num, _, _)) => Some(ZeroFill(num, 4))
      case None => LatestNumber(toks[..|toks| - 1], cur)
  }

  function NextCurrent(tok: string, cur: Option<string>): Option<string> {
    match MatchFull(tok)
    case Some((num, _, _)) => Some(ZeroFill(num, 4))
    case None => cur
  }

  lemma {:induction false} LatestNumberCons(t: string, rest: seq<string>, cur: Option<string>)
    ensures LatestNumber([t] + rest, cur) == LatestNumber(rest, NextCurrent(t, cur))
    decreases |rest|
  {
    var toks := [t] + rest;
    if rest == [] {
      assert toks[..0] == [];
    } else {
      assert toks[|toks| - 1] == rest[|rest| - 1];
      assert toks[..|toks| - 1] == [t] + rest[..|rest| - 1];
      LatestNumberCons(t, rest[..|rest| - 1], cur);
    }
  }

  /** A successful step leaves as current number what `NextCurrent` says. */
  lemma TokenStepCurrent(tok: string, mode: Mode, cur: Option<string>, h: Header)
    requires TokenStep(tok, mode, cur, h).Ok?
    ensures TokenStep(tok, mode, cur, h).value.current == NextCurrent(tok, cur)
  {
  }

  /** Parsing the tokens `a + b` is parsing `a`, then parsing `b` with the
      latest number of `a` as current number; an error in `a` stops it. */
  lemma {:induction false} ParseTokensSplit(a: seq<string>, b: seq<string>, mode: Mode, cur: Option<string>, h: Header)
    ensures ParseTokens(a + b, mode, cur, h)
         == match ParseTokens(a, mode, cur, h)
            case Err(e) => Err(e)
            case Ok(x) => Prepend(x, ParseTokens(b, mode, LatestNumber(a, cur), h))
    decreases |a|
  {
    if a == [] {
      assert a + b == b;
      PrependNothing(ParseTokens(b, mode, cur, h));
    } else {
      assert (a + b)[0] == a[0];
      assert (a + b)[1..] == a[1..] + b;
      var step := TokenStep(a[0], mode, cur, h);
      if step.Ok? {
        TokenStepCurrent(a[0], mode, cur, h);
        ParseTokensSplit(a[1..], b, mode, step.value.current, h);
        assert [a[0]] + a[1..] == a;
        LatestNumberCons(a[0], a[1..], cur);
        var rest := ParseTokens(a[1..], mode, step.value.current, h);
        if rest.Ok? {
          PrependTwice(step.value.added, rest.value, ParseTokens(b, mode, LatestNumber(a, cur), h));
        }
      }
    }
  }

  /** A token that is neither a full nor an amount-only wager changes
      nothing: no bet, no error, the same current number. */
  lemma {:induction false} SkipUnrecognized(a: seq<string>, t: string, b: seq<string>, mode: Mode, cur: Option<string>, h: Header)
    requires !Recognized(t)
    ensures ParseTokens(a + [t] + b, mode, cur, h) == ParseTokens(a + b, mode, cur, h)
  {
    assert a + [t] + b == a + ([t] + b);
    ParseTokensSplit(a, [t] + b, mode, cur, h);
    ParseTokensSplit(a, b, mode, cur, h);
    var L := LatestNumber(a, cur);
    assert ([t] + b)[1..] == b;
    assert TokenStep(t, mode, L, h) == Ok(Step([], L));
    PrependNothing(ParseTokens(b, mode, L, h));
  }

  /** An amount-only token that comes before any recognised token raises
      `MissingNumber` for that token. */
  lemma {:induction false} AmountBeforeNumberFails(a: seq<string>, t: string, b: seq<string>, mode: Mode, h: Header)
    requires forall i :: 0 <= i < |a| ==> !Recognized(a[i])
    requires MatchFull(t).None? && MatchPartial(t).Some?
    ensures ParseTokens(a + [t] + b, mode, None, h) == Err(MissingNumber(t))
    decreases |a|
  {
    var toks := a + [t] + b;
    if a == [] {
      assert toks == [t] + b;
      assert toks[0] == t;
    } else {
      assert toks[0] == a[0];
      assert !Recognized(a[0]);
      assert toks[1..] == a[1..] + [t] + b;
      AmountBeforeNumberFails(a[1..], t, b, mode, h);
    }
  }

  /** An amount-only token reuses the number of the most recent full token
      before it on the same line: its bet, at the position that follows the
      bets of the earlier tokens, carries that number and its own amount and
      type. */
  lemma AmountOnlyUsesLatestNumber(a: seq<string>, t: string, b: seq<string>, mode: Mode, h: Header)
    requires MatchFull(t).None? && MatchPartial(t).Some?
    requires ParseTokens(a + [t] + b, mode, None, h).Ok?
    ensures ParseTokens(a, mode, None, h).Ok?
    ensures LatestNumber(a, None).Some?
    ensures var bs := ParseTokens(a + [t] + b, mode, None, h).value;
      var k := |ParseTokens(a, mode, None, h).value|;
      var (amt, letter) := MatchPartial(t).value;
      && k < |bs|
      && bs[k].number == LatestNumber(a, None).value
      && bs[k].amount == DigitsValue(amt)
      && bs[k].betType == UpperChar(letter)
  {
    assert a + [t] + b == a + ([t] + b);
    ParseTokensSplit(a, [t] + b, mode, None, h);
    var L := LatestNumber(a, None);
    assert ([t] + b)[0] == t && ([t] + b)[1..] == b;
  }

  /** Every recognised token yields exactly one bet, so a line never has more
      bets than tokens. */
  lemma {:induction false} BetCountIsRecognizedCount(toks: seq<string>, mode: Mode, cur: Option<string>, h: Header)
    requires ParseTokens(toks, mode, cur, h).Ok?
    ensures |ParseTokens(toks, mode, cur, h).value| == RecognizedCount(toks) <= |toks|
    decreases |toks|
  {
    if toks != [] {
      var step := TokenStep(toks[0], mode, cur, h);
      assert |step.value.added| == if Recognized(toks[0]) then 1 else 0;
      BetCountIsRecognizedCount(toks[1..], mode, step.value.current, h);
    }
  }

  /** Under `box` or `ibox`, a recognised A or C token raises an error. */
  lemma StepRejectsOtherTypes(tok: string, mode: Mode, cur: Option<string>, h: Header)
    requires mode != NoMode
    requires Recognized(tok) && TokenType(tok) !in BoxTypes
    ensures TokenStep(tok, mode, cur, h).Err?
  {
  }

  /** Under `box` or `ibox`, a recognised A or C token anywhere on the line
      makes the line fail. */
  lemma {:induction false} ModeRejectsOtherTypes(toks: seq<string>, j: nat, mode: Mode, cur: Option<string>, h: Header)
    requires mode != NoMode
    requires j < |toks| && Recognized(toks[j]) && TokenType(toks[j]) !in BoxTypes
    ensures ParseTokens(toks, mode, cur, h).Err?
    decreases j
  {
    var step := TokenStep(toks[0], mode, cur, h);
    if j == 0 {
      StepRejectsOtherTypes(toks[0], mode, cur, h);
    } else if step.Ok? {
      assert toks[1..][j - 1] == toks[j];
      ModeRejectsOtherTypes(toks[1..], j - 1, mode, step.value.current, h);
      assert ParseTokens(toks, mode, cur, h) == Prepend(step.value.added, ParseTokens(toks[1..], mode, step.value.current, h));
    }
  }

  // ---------------------------------------------------------------------
  // The bets of a text

  predicate IsBetNumber(s: string) {
    |s| == 4 && AllDigits(s)
  }

  /** What every emitted bet looks like: a four-digit number, a type among
      B, S, A, C, and the mode of its line, allowed only on B and S. */
  predicate IsWellFormedBet(b: Bet, h: Header, mode: Mode) {
    && b.date == h.date
    && b.markets == h.markets
    && IsBetNumber(b.number)
    && b.betType in BetTypes
    && b.mode == mode
    && (mode != NoMode ==> b.betType in BoxTypes)
  }

  /** One token's bet is well formed, and the number it leaves current is a
      four-digit number. */
  lemma StepWellFormed(tok: string, mode: Mode, cur: Option<string>, h: Header)
    requires cur.Some? ==> IsBetNumber(cur.value)
    requires TokenStep(tok, mode, cur, h).Ok?
    ensures var step := TokenStep(tok, mode, cur, h).value;
      && (forall b :: b in step.added ==> IsWellFormedBet(b, h, mode))
      && (step.current.Some? ==> IsBetNumber(step.current.value))
  {
    var r := TokenStep(tok, mode, cur, h);
    if MatchFull(tok).Some? {
      var (num, amt, t) := MatchFull(tok).value;
      var number := ZeroFill(num, 4);
      ZeroFillValue(num, 4);
      var bet := NewBet(h, number, t, mode, amt);
      assert r == Ok(Step([bet], Some(number)));
      assert mode != NoMode ==> UpperChar(t) in BoxTypes;
      assert IsWellFormedBet(bet, h, mode);
    } else if MatchPartial(tok).Some? {
      var (amt, t) := MatchPartial(tok).value;
      var bet := NewBet(h, cur.value, t, mode, amt);
      assert r == Ok(Step([bet], cur));
      assert mode != NoMode ==> UpperChar(t) in BoxTypes;
      assert IsWellFormedBet(bet, h, mode);
    } else {
      assert r == Ok(Step([], cur));
    }
  }

  lemma {:induction false} TokenBetsWellFormed(toks: seq<string>, mode: Mode, cur: Option<string>, h: Header)
    requires cur.Some? ==> IsBetNumber(cur.value)
    requires ParseTokens(toks, mode, cur, h).Ok?
    ensures forall b :: b in ParseTokens(toks, mode, cur, h).value ==> IsWellFormedBet(b, h, mode)
    decreases |toks|
  {
    if toks != [] {
      var step := TokenStep(toks[0], mode, cur, h).value;
      StepWellFormed(toks[0], mode, cur, h);
      TokenBetsWellFormed(toks[1..], mode, step.current, h);
      assert ParseTokens(toks, mode, cur, h).value == step.added + ParseTokens(toks[1..], mode, step.current, h).value;
    }
  }

  /** Every bet of a wager line is well formed and carries the line's mode. */
  lemma LineBetsWellFormed(line: string, h: Header)
    requires StartsWithWord(line)
    requires ParseLine(line, h).Ok?
    ensures forall b :: b in ParseLine(line, h).value ==> IsWellFormedBet(b, h, LineMode(line))
  {
    var (mode, toks) := SplitMode(Tokens(line));
    TokenBetsWellFormed(toks, mode, None, h);
  }

  lemma {:induction false} LinesBetsWellFormed(lines: seq<string>, h: Header)
    requires forall l :: l in lines ==> StartsWithWord(l)
    requires ParseLines(lines, h).Ok?
    ensures forall b :: b in ParseLines(lines, h).value ==>
      exists l :: l in lines && IsWellFormedBet(b, h, LineMode(l))
  {
    if lines != [] {
      LineBetsWellFormed(lines[0], h);
      LinesBetsWellFormed(lines[1..], h);
      forall b | b in ParseLines(lines, h).value
        ensures exists l :: l in lines && IsWellFormedBet(b, h, LineMode(l))
      {
        if b in ParseLine(lines[0], h).value {
          assert lines[0] in lines && IsWellFormedBet(b, h, LineMode(lines[0]));
        } else {
          var l :| l in lines[1..] && IsWellFormedBet(b, h, LineMode(l));
          assert l in lines;
        }
      }
    }
  }

  /** The header of a text whose first three non-blank lines exist and whose
      date and market lines are accepted. */
  function HeaderOf(text: string, year: nat): Header
    requires 1000 <= year <= 9999
    requires |NonBlankLines(text)| >= 3 && ParseDate(NonBlankLines(text)[0], year).Ok?
  {
    var lines := NonBlankLines(text);
    Header(ParseDate(lines[0], year).value, MarketCodes(lines[1]))
  }

  /** Every bet parse_bet_text returns carries the parsed date and the
      non-empty market list of the header, a four-digit number, a type among
      B, S, A, C and, when it has a mode, a type among B, S. */
  lemma ParsedBetsWellFormed(text: string, year: nat)
    requires 1000 <= year <= 9999
    requires Parse(text, year).Ok?
    ensures var lines := NonBlankLines(text);
      && |lines| >= 3 && ParseDate(lines[0], year).Ok? && MarketCodes(lines[1]) != []
      && forall b :: b in Parse(text, year).value ==>
           && b.date == HeaderOf(text, year).date
           && b.markets == HeaderOf(text, year).markets
           && IsBetNumber(b.number)
           && b.betType in BetTypes
           && (b.mode != NoMode ==> b.betType in BoxTypes)
  {
    var lines := NonBlankLines(text);
    var h := HeaderOf(text, year);
    LinesBetsWellFormed(lines[2..], h);
    forall b | b in Parse(text, year).value
      ensures b.date == h.date && b.markets == h.markets && IsBetNumber(b.number)
      ensures b.betType in BetTypes && (b.mode != NoMode ==> b.betType in BoxTypes)
    {
      var l :| l in lines[2..] && IsWellFormedBet(b, h, LineMode(l));
    }
  }

  // ---------------------------------------------------------------------
  // Errors

  lemma {:induction false} TokenErrors(toks: seq<string>, mode: Mode, cur: Option<string>, h: Header)
    requires ParseTokens(toks, mode, cur, h).Err?
    ensures ParseTokens(toks, mode, cur, h).error.ModeNotAllowed?
         || ParseTokens(toks, mode, cur, h).error.MissingNumber?
    decreases |toks|
  {
    var step := TokenStep(toks[0], mode, cur, h);
    if step.Ok? {
      TokenErrors(toks[1..], mode, step.value.current, h);
    }
  }

  /** The wager lines only ever raise the mode error or the missing-number error. */
  lemma {:induction false} WagerLineErrors(lines: seq<string>, h: Header)
    requires forall l :: l in lines ==> StartsWithWord(l)
    requires ParseLines(lines, h).Err?
    ensures ParseLines(lines, h).error.ModeNotAllowed? || ParseLines(lines, h).error.MissingNumber?
  {
    assert lines[0] in lines;
    var (mode, toks) := SplitMode(Tokens(lines[0]));
    if ParseLine(lines[0], h).Err? {
      TokenErrors(toks, mode, None, h);
    } else {
      WagerLineErrors(lines[1..], h);
    }
  }

  /** Each header error is raised exactly when its check fails: fewer than
      three non-blank lines; a first line that is not `D/M`; a day and month
      that are no calendar date of the year; no valid market code. */
  lemma HeaderErrors(text: string, year: nat)
    requires 1000 <= year <= 9999
    ensures var lines := NonBlankLines(text);
      var r := Parse(text, year);
      && (r == Err(TooFewLines) <==> |lines| < 3)
      && (r.Err? && r.error.BadDateFormat? <==> |lines| >= 3 && MatchDate(lines[0]).None?)
      && (r.Err? && r.error.InvalidDate? <==>
            |lines| >= 3 && MatchDate(lines[0]).Some? && ParseDate(lines[0], year).Err?)
      && (r.Err? && r.error.NoMarkets? <==>
            |lines| >= 3 && ParseDate(lines[0], year).Ok? && MarketCodes(lines[1]) == [])
  {
    var lines := NonBlankLines(text);
    if |lines| >= 3 && ParseDate(lines[0], year).Ok? && MarketCodes(lines[1]) != [] {
      var h := Header(ParseDate(lines[0], year).value, MarketCodes(lines[1]));
      if ParseLines(lines[2..], h).Err? {
        WagerLineErrors(lines[2..], h);
      }
    }
  }

  /** Once the header is accepted, the bets are those of the wager lines. */
  lemma ParseOfWagerLines(text: string, year: nat)
    requires 1000 <= year <= 9999
    requires |NonBlankLines(text)| >= 3 && ParseDate(NonBlankLines(text)[0], year).Ok?
    requires MarketCodes(NonBlankLines(text)[1]) != []
    ensures Parse(text, year) == ParseLines(NonBlankLines(text)[2..], HeaderOf(text, year))
  {
  }

  lemma ParseLinesOfOne(ls: seq<string>, h: Header)
    requires |ls| == 1 && StartsWithWord(ls[0])
    ensures forall l :: l in ls ==> StartsWithWord(l)
    ensures ParseLines(ls, h) == ParseLine(ls[0], h)
  {
    assert ls[1..] == [];
    var r := ParseLine(ls[0], h);
    if r.Ok? {
      assert r.value + [] == r.value;
    }
  }

  /** A text with a single wager line has that line's bets. */
  lemma ParseOfOneWagerLine(text: string, year: nat)
    requires 1000 <= year <= 9999
    requires |NonBlankLines(text)| == 3 && ParseDate(NonBlankLines(text)[0], year).Ok?
    requires MarketCodes(NonBlankLines(text)[1]) != []
    ensures Parse(text, year) == ParseLine(NonBlankLines(text)[2], HeaderOf(text, year))
  {
    var lines := NonBlankLines(text);
    var wager, h := lines[2..], HeaderOf(text, year);
    assert wager[0] == lines[2] && lines[2] in lines;
    ParseOfWagerLines(text, year);
    ParseLinesOfOne(wager, h);
  }

  /** The bets of the wager lines come line after line: those of the first
      line, then those of the rest. */
  lemma LinesInOrder(lines: seq<string>, h: Header)
    requires forall l :: l in lines ==> StartsWithWord(l)
    requires lines != [] && ParseLines(lines, h).Ok?
    ensures ParseLine(lines[0], h).Ok? && ParseLines(lines[1..], h).Ok?
    ensures ParseLines(lines, h).value == ParseLine(lines[0], h).value + ParseLines(lines[1..], h).value
  {
  }
}
