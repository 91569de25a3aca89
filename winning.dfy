/** utils.py: `check_group_winning`, which matches a group's locked bets
    against the result texts of one draw date. The bets the database query
    would return are a parameter. */
module Winning {
  import opened Wrappers
  import opened Text

  /** The columns of a locked bet row that the matcher reads. */
  datatype LockedBet = LockedBet(number: string, market: string, betType: string, amount: real)

  /** One winning entry: `{"number", "prize_type", "amount"}`. */
  datatype Win = Win(number: string, prizeType: string, amount: real)

  /** The `ValueError` raised when a result line with two colons or more is
      unpacked into a title and a number list. */
  datatype WinningError = TooManyColons(line: string)

  /** `results_data`: the result text of each (date, market) pair. */
  type ResultsData = map<(string, string), string>

  /** Some key of the results has the date. */
  predicate HasDate(data: ResultsData, date: string) {
    exists key :: key in data && key.0 == date
  }

  /** Lines 4-7: the results of the date, keyed by market, are empty
      exactly when no key of the results has the date. */
  lemma DateFilter(data: ResultsData, date: string, results: map<string, string>)
    requires results == map key | key in data && key.0 == date :: key.1 := data[key]
    ensures |results| == 0 <==> !HasDate(data, date)
    ensures forall market :: market in results <==> (date, market) in data
  {
    if HasDate(data, date) {
      var key :| key in data && key.0 == date;
      assert key.1 in results;
    }
    forall market ensures market in results <==> (date, market) in data {
      if (date, market) in data {
        assert (date, market).1 in results;
      }
    }
  }

  // ---------------------------------------------------------------------
  // The result lines

  /** The title of a line with one colon: the text before it, stripped. */
  function Prize(line: string): string
    requires ':' in line
  {
    Strip(line[..IndexOf(line, ':')])
  }

  /** The numbers of a line with one colon: the words after it. */
  function Numbers(line: string): seq<string>
    requires ':' in line
  {
    Tokens(Strip(line[IndexOf(line, ':') + 1..]))
  }

  /** The line is a well-formed `title: n1 n2 ...` line listing the number. */
  predicate Lists(line: string, number: string) {
    CountChar(line, ':') == 1 && number in Numbers(line)
  }

  /** The entry a matching line gives a bet. */
  function EntryOf(b: LockedBet, line: string): Win
    requires CountChar(line, ':') == 1
  {
    Win(b.number, Prize(line), b.amount * 1.0)
  }

  /** What one result line gives a bet: nothing without a colon, an error
      with two colons or more, and otherwise one entry when the bet's number
      is among the words after the colon. */
  function LineWins(b: LockedBet, line: string): Result<seq<Win>, WinningError> {
    var colons := CountChar(line, ':');
    if colons == 0 then Ok([])
    else if colons >= 2 then Err(TooManyColons(line))
    else if Lists(line, b.number) then Ok([EntryOf(b, line)])
    else Ok([])
  }

  /** The lines of one result text, in order; the first bad line stops the
      scan. */
  function LinesWins(b: LockedBet, lines: seq<string>): Result<seq<Win>, WinningError> {
    if lines == [] then Ok([])
    else
      match LineWins(b, lines[0])
      case Err(e) => Err(e)
      case Ok(w) => Prepend(w, LinesWins(b, lines[1..]))
  }

  /** The lines of the result text of the bet's market on the date. */
  function ResultLines(data: ResultsData, date: string, b: LockedBet): seq<string>
    requires (date, b.market) in data
  {
    SplitLines(data[(date, b.market)])
  }

  /** One bet: nothing when its market has no result on the date, otherwise
      the scan of that market's result text. */
  function BetWins(data: ResultsData, date: string, b: LockedBet): Result<seq<Win>, WinningError> {
    if (date, b.market) !in data then Ok([]) else LinesWins(b, ResultLines(data, date, b))
  }

  function BetsWins(data: ResultsData, date: string, bets: seq<LockedBet>): Result<seq<Win>, WinningError> {
    if bets == [] then Ok([])
    else
      match BetWins(data, date, bets[0])
      case Err(e) => Err(e)
      case Ok(w) => Prepend(w, BetsWins(data, date, bets[1..]))
  }

  /** `check_group_winning(chat_id, results_data, date_str)` on the bets the
      query returns. */
  function GroupWinnings(data: ResultsData, date: string, bets: seq<LockedBet>): Result<seq<Win>, WinningError> {
    if !HasDate(data, date) then Ok([]) else BetsWins(data, date, bets)
  }

  /** One more line of the scan: an error ends it, entries are appended. */
  lemma ScanStep(b: LockedBet, lines: seq<string>, j: nat, acc: seq<Win>)
    requires j < |lines|
    ensures LineWins(b, lines[j]).Err? ==> Prepend(acc, LinesWins(b, lines[j..])) == LineWins(b, lines[j])
    ensures LineWins(b, lines[j]).Ok? ==>
      Prepend(acc, LinesWins(b, lines[j..])) == Prepend(acc + LineWins(b, lines[j]).value, LinesWins(b, lines[j + 1..]))
  {
    assert lines[j..][0] == lines[j];
    assert lines[j..][1..] == lines[j + 1..];
    var first := LineWins(b, lines[j]);
    if first.Ok? {
      PrependTwice(acc, first.value, LinesWins(b, lines[j + 1..]));
    }
  }

  /** Lines 26-35 for one line: a line with a colon is unpacked into title
      and numbers, which raises unless there is exactly one colon, and gives
      an entry when the bet's number is among the numbers. */
  method MatchLine(bet: LockedBet, line: string) returns (r: Result<seq<Win>, WinningError>)
    ensures r == LineWins(bet, line)
  {
    if ':' !in line {
      return Ok([]);
    }
    var parts := SplitOn(line, ':');
    SplitOnCount(line, ':');
    if |parts| != 2 {
      return Err(TooManyColons(line));
    }
    SplitOnOnce(line, ':');
    var title, numbers := parts[0], parts[1];
    assert title == line[..IndexOf(line, ':')] && numbers == line[IndexOf(line, ':') + 1..];
    var words := Tokens(Strip(numbers));
    assert words == Numbers(line);
    if bet.number !in words {
      return Ok([]);
    }
    var prize := Strip(title);
    assert prize == Prize(line);
    return Ok([Win(bet.number, prize, bet.amount * 1.0)]);
  }

  /** Lines 25-35 for one bet: scan the result lines in order and append to
      `winnings` the entries each line gives; a line with two colons or more
      raises. */
  method ScanLines(bet: LockedBet, lines: seq<string>, winnings: seq<Win>)
      returns (r: Result<seq<Win>, WinningError>)
    ensures r == Prepend(winnings, LinesWins(bet, lines))
  {
    var acc := winnings;
    var j := 0;
    assert lines[j..] == lines;
    while j < |lines|
      invariant 0 <= j <= |lines|
      invariant Prepend(winnings, LinesWins(bet, lines)) == Prepend(acc, LinesWins(bet, lines[j..]))
    {
      var entries := MatchLine(bet, lines[j]);
      ScanStep(bet, lines, j, acc);
      if entries.Err? {
        return Err(entries.error);
      }
      acc := acc + entries.value;
      j := j + 1;
    }
    assert lines[j..] == [];
    assert acc + [] == acc;
    return Ok(acc);
  }

  /** The function itself: filter the results by date, then for each bet
      whose market has a result, scan its lines and append an entry for each
      line listing the bet's number. */
  method CheckGroupWinning(resultsData: ResultsData, dateStr: string, bets: seq<LockedBet>)
      returns (r: Result<seq<Win>, WinningError>)
    ensures r == GroupWinnings(resultsData, dateStr, bets)
    ensures !HasDate(resultsData, dateStr) ==> r == Ok([])
  {
    var results := map key | key in resultsData && key.0 == dateStr :: key.1 := resultsData[key];
    DateFilter(resultsData, dateStr, results);
    if |results| == 0 {
      return Ok([]);
    }

    var winnings: seq<Win> := [];
    var i := 0;
    assert bets[i..] == bets;
    PrependNothing(BetsWins(resultsData, dateStr, bets));
    while i < |bets|
      invariant 0 <= i <= |bets|
      invariant BetsWins(resultsData, dateStr, bets) == Prepend(winnings, BetsWins(resultsData, dateStr, bets[i..]))
    {
      var bet := bets[i];
      BetsStep(resultsData, dateStr, bets, i, winnings);
      var key := (dateStr, bet.market);
      if key !in resultsData {
        assert winnings + [] == winnings;
        i := i + 1;
        continue;
      }
      var scanned := ScanLines(bet, SplitLines(resultsData[key]), winnings);
      if scanned.Err? {
        return scanned;
      }
      winnings := scanned.value;
      i := i + 1;
    }
    assert bets[i..] == [];
    assert winnings + [] == winnings;
    return Ok(winnings);
  }

  /** One more bet of the loop: an error ends it, entries are appended. */
  lemma BetsStep(data: ResultsData, date: string, bets: seq<LockedBet>, i: nat, acc: seq<Win>)
    requires i < |bets|
    ensures BetWins(data, date, bets[i]).Err? ==>
      Prepend(acc, BetsWins(data, date, bets[i..])) == BetWins(data, date, bets[i])
    ensures BetWins(data, date, bets[i]).Ok? ==>
      Prepend(acc, BetsWins(data, date, bets[i..]))
        == Prepend(acc + BetWins(data, date, bets[i]).value, BetsWins(data, date, bets[i + 1..]))
  {
    assert bets[i..][0] == bets[i];
    assert bets[i..][1..] == bets[i + 1..];
    var first := BetWins(data, date, bets[i]);
    if first.Ok? {
      PrependTwice(acc, first.value, BetsWins(data, date, bets[i + 1..]));
    }
  }

  // ---------------------------------------------------------------------
  // Properties

  /** Scanning two blocks of lines is scanning the first, then the second:
      entries come in line order. */
  lemma {:induction false} LinesWinsConcat(b: LockedBet, xs: seq<string>, ys: seq<string>)
    ensures LinesWins(b, xs + ys) == Concat(LinesWins(b, xs), LinesWins(b, ys))
  {
    if xs == [] {
      assert xs + ys == ys;
      PrependNothing(LinesWins(b, ys));
    } else {
      assert (xs + ys)[0] == xs[0];
      assert (xs + ys)[1..] == xs[1..] + ys;
      LinesWinsConcat(b, xs[1..], ys);
      var first := LineWins(b, xs[0]);
      if first.Ok? && LinesWins(b, xs[1..]).Ok? {
        PrependTwice(first.value, LinesWins(b, xs[1..]).value, LinesWins(b, ys));
      }
    }
  }

  /** Scanning two lists of bets is scanning the first, then the second:
      entries come in bet order. */
  lemma {:induction false} BetsWinsConcat(data: ResultsData, date: string, xs: seq<LockedBet>, ys: seq<LockedBet>)
    ensures BetsWins(data, date, xs + ys) == Concat(BetsWins(data, date, xs), BetsWins(data, date, ys))
  {
    if xs == [] {
      assert xs + ys == ys;
      PrependNothing(BetsWins(data, date, ys));
    } else {
      assert (xs + ys)[0] == xs[0];
      assert (xs + ys)[1..] == xs[1..] + ys;
      BetsWinsConcat(data, date, xs[1..], ys);
      var first := BetWins(data, date, xs[0]);
      if first.Ok? && BetsWins(data, date, xs[1..]).Ok? {
        PrependTwice(first.value, BetsWins(data, date, xs[1..]).value, BetsWins(data, date, ys));
      }
    }
  }

  /** A line without a colon is skipped wherever it stands. */
  lemma LineWithoutColonIsSkipped(b: LockedBet, xs: seq<string>, line: string, ys: seq<string>)
    requires ':' !in line
    ensures LinesWins(b, xs + [line] + ys) == LinesWins(b, xs + ys)
  {
    assert xs + [line] + ys == xs + ([line] + ys);
    LinesWinsConcat(b, xs, [line] + ys);
    LinesWinsConcat(b, xs, ys);
    assert ([line] + ys)[1..] == ys;
    PrependNothing(LinesWins(b, ys));
  }

  /** A bet whose market has no result on the date is skipped wherever it
      stands. */
  lemma AbsentMarketIsSkipped(data: ResultsData, date: string, xs: seq<LockedBet>, b: LockedBet, ys: seq<LockedBet>)
    requires (date, b.market) !in data
    ensures GroupWinnings(data, date, xs + [b] + ys) == GroupWinnings(data, date, xs + ys)
  {
    assert xs + [b] + ys == xs + ([b] + ys);
    BetsWinsConcat(data, date, xs, [b] + ys);
    BetsWinsConcat(data, date, xs, ys);
    assert ([b] + ys)[1..] == ys;
    PrependNothing(BetsWins(data, date, ys));
  }

  /** The line fails to unpack into a title and a number list. */
  predicate Malformed(line: string) {
    CountChar(line, ':') >= 2
  }

  /** The scan of a result text raises exactly when one of its lines has two
      colons or more, and then reports the first such line. */
  lemma {:induction false} LinesWinsErr(b: LockedBet, lines: seq<string>)
    ensures LinesWins(b, lines).Err? <==> exists j :: 0 <= j < |lines| && Malformed(lines[j])
    ensures LinesWins(b, lines).Err? ==>
      exists k :: 0 <= k < |lines| && Malformed(lines[k]) && LinesWins(b, lines).error == TooManyColons(lines[k])
        && forall j :: 0 <= j < k ==> !Malformed(lines[j])
  {
    if lines != [] {
      var rest := lines[1..];
      LinesWinsErr(b, rest);
      if Malformed(lines[0]) {
        assert LinesWins(b, lines).error == TooManyColons(lines[0]);
      } else {
        assert LinesWins(b, lines).Err? <==> LinesWins(b, rest).Err?;
        if exists j :: 0 <= j < |rest| && Malformed(rest[j]) {
          var j :| 0 <= j < |rest| && Malformed(rest[j]);
          assert Malformed(lines[j + 1]);
          var k :| 0 <= k < |rest| && Malformed(rest[k]) && LinesWins(b, rest).error == TooManyColons(rest[k])
            && forall j :: 0 <= j < k ==> !Malformed(rest[j]);
          assert LinesWins(b, lines).error == TooManyColons(lines[k + 1]);
          assert forall j :: 0 <= j < k + 1 ==> !Malformed(lines[j]) by {
            forall j | 0 <= j < k + 1 ensures !Malformed(lines[j]) {
              if j > 0 {
                assert lines[j] == rest[j - 1];
              }
            }
          }
        } else {
          forall j | 0 <= j < |lines| ensures !Malformed(lines[j]) {
            if j > 0 {
              assert lines[j] == rest[j - 1];
            }
          }
        }
      }
    }
  }

  /** The bet reads a result text that has a line with two colons or more. */
  predicate ReadsMalformedLine(data: ResultsData, date: string, b: LockedBet) {
    (date, b.market) in data
    && exists j :: 0 <= j < |ResultLines(data, date, b)| && Malformed(ResultLines(data, date, b)[j])
  }

  lemma {:induction false} BetsWinsErr(data: ResultsData, date: string, bets: seq<LockedBet>)
    ensures BetsWins(data, date, bets).Err? <==> exists i :: 0 <= i < |bets| && ReadsMalformedLine(data, date, bets[i])
  {
    if bets != [] {
      var rest := bets[1..];
      BetsWinsErr(data, date, rest);
      var b := bets[0];
      if (date, b.market) in data {
        LinesWinsErr(b, ResultLines(data, date, b));
      }
      assert BetWins(data, date, b).Err? <==> ReadsMalformedLine(data, date, b);
      if exists i :: 0 <= i < |rest| && ReadsMalformedLine(data, date, rest[i]) {
        var i :| 0 <= i < |rest| && ReadsMalformedLine(data, date, rest[i]);
        assert bets[i + 1] == rest[i];
      }
      if exists i :: 0 <= i < |bets| && ReadsMalformedLine(data, date, bets[i]) {
        var i :| 0 <= i < |bets| && ReadsMalformedLine(data, date, bets[i]);
        if i > 0 {
          assert rest[i - 1] == bets[i];
        }
      }
    }
  }

  /** `check_group_winning` raises exactly when the date has results and some
      bet's market has a result line with two colons or more; the bets'
      numbers play no part in it. */
  lemma GroupWinningsErr(data: ResultsData, date: string, bets: seq<LockedBet>)
    ensures GroupWinnings(data, date, bets).Err?
        <==> HasDate(data, date) && exists i :: 0 <= i < |bets| && ReadsMalformedLine(data, date, bets[i])
  {
    BetsWinsErr(data, date, bets);
  }

  /** Every entry of a scan is the bet's entry for one of the lines that
      list its number, with the bet's number and amount. */
  lemma {:induction false} LinesWinsSound(b: LockedBet, lines: seq<string>)
    requires LinesWins(b, lines).Ok?
    ensures forall w :: w in LinesWins(b, lines).value ==>
      w.number == b.number && w.amount == b.amount
      && exists l :: l in lines && Lists(l, b.number) && w == EntryOf(b, l)
  {
    if lines != [] {
      var rest := lines[1..];
      LinesWinsSound(b, rest);
      forall w | w in LinesWins(b, lines).value
        ensures w.number == b.number && w.amount == b.amount
        ensures exists l :: l in lines && Lists(l, b.number) && w == EntryOf(b, l)
      {
        if w !in LinesWins(b, rest).value {
          assert w == EntryOf(b, lines[0]);
        } else {
          var l :| l in rest && Lists(l, b.number) && w == EntryOf(b, l);
          assert l in lines;
        }
      }
    }
  }

  /** Every line that lists the bet's number gives its entry. */
  lemma {:induction false} LinesWinsComplete(b: LockedBet, lines: seq<string>, line: string)
    requires LinesWins(b, lines).Ok? && line in lines && Lists(line, b.number)
    ensures EntryOf(b, line) in LinesWins(b, lines).value
  {
    var rest := lines[1..];
    if line != lines[0] {
      assert line in rest;
      LinesWinsComplete(b, rest, line);
    }
  }

  /** The number of lines that list `number`. */
  function MatchCount(number: string, lines: seq<string>): nat {
    if lines == [] then 0
    else (if Lists(lines[0], number) then 1 else 0) + MatchCount(number, lines[1..])
  }

  /** One entry per line that lists the number: a bet can win several times
      on one result text. */
  lemma {:induction false} LinesWinsCount(b: LockedBet, lines: seq<string>)
    requires LinesWins(b, lines).Ok?
    ensures |LinesWins(b, lines).value| == MatchCount(b.number, lines)
  {
    if lines != [] {
      LinesWinsCount(b, lines[1..]);
    }
  }

  /** The bet wins entry `w`: its market has a result on the date, and `w` is
      its entry for a line of that result that lists its number. */
  predicate WinsWith(data: ResultsData, date: string, b: LockedBet, w: Win) {
    (date, b.market) in data
    && exists l :: l in ResultLines(data, date, b) && Lists(l, b.number) && w == EntryOf(b, l)
  }

  lemma {:induction false} BetsWinsSound(data: ResultsData, date: string, bets: seq<LockedBet>)
    requires BetsWins(data, date, bets).Ok?
    ensures forall w :: w in BetsWins(data, date, bets).value ==>
      exists i :: 0 <= i < |bets| && WinsWith(data, date, bets[i], w)
  {
    if bets != [] {
      var b, rest := bets[0], bets[1..];
      BetsWinsSound(data, date, rest);
      if (date, b.market) in data {
        LinesWinsSound(b, ResultLines(data, date, b));
      }
      forall w | w in BetsWins(data, date, bets).value
        ensures exists i :: 0 <= i < |bets| && WinsWith(data, date, bets[i], w)
      {
        if w in BetsWins(data, date, rest).value {
          var i :| 0 <= i < |rest| && WinsWith(data, date, rest[i], w);
          assert bets[i + 1] == rest[i];
        } else {
          assert WinsWith(data, date, bets[0], w);
        }
      }
    }
  }

  /** When no bet raises, each bet's own entries appear in the result. */
  lemma {:induction false} BetsWinsIncludes(data: ResultsData, date: string, bets: seq<LockedBet>, i: nat)
    requires BetsWins(data, date, bets).Ok? && i < |bets|
    ensures BetWins(data, date, bets[i]).Ok?
    ensures forall w :: w in BetWins(data, date, bets[i]).value ==> w in BetsWins(data, date, bets).value
  {
    var rest := bets[1..];
    var first, tail := BetWins(data, date, bets[0]), BetsWins(data, date, rest);
    assert first.Ok? && tail.Ok?;
    assert BetsWins(data, date, bets).value == first.value + tail.value;
    if i == 0 {
      forall w | w in first.value
        ensures w in BetsWins(data, date, bets).value
      {
      }
    } else {
      BetsWinsIncludes(data, date, rest, i - 1);
      assert rest[i - 1] == bets[i];
      forall w | w in BetWins(data, date, bets[i]).value
        ensures w in BetsWins(data, date, bets).value
      {
        assert w in tail.value;
      }
    }
  }

  lemma BetsWinsComplete(data: ResultsData, date: string, bets: seq<LockedBet>, i: nat, line: string)
    requires BetsWins(data, date, bets).Ok? && i < |bets|
    requires (date, bets[i].market) in data && line in ResultLines(data, date, bets[i])
    requires Lists(line, bets[i].number)
    ensures EntryOf(bets[i], line) in BetsWins(data, date, bets).value
  {
    BetsWinsIncludes(data, date, bets, i);
    LinesWinsComplete(bets[i], ResultLines(data, date, bets[i]), line);
  }

  /** Every entry `check_group_winning` returns comes from a bet and a result
      line of its market that lists its number, with the bet's number, the
      line's stripped title and the bet's amount. */
  lemma GroupWinningsSound(data: ResultsData, date: string, bets: seq<LockedBet>, w: Win)
    requires GroupWinnings(data, date, bets).Ok? && w in GroupWinnings(data, date, bets).value
    ensures HasDate(data, date)
    ensures exists i :: 0 <= i < |bets| && WinsWith(data, date, bets[i], w)
  {
    BetsWinsSound(data, date, bets);
  }

  /** When the date has results and nothing raises, every line of a bet's
      market that lists its number gives an entry. */
  lemma GroupWinningsComplete(data: ResultsData, date: string, bets: seq<LockedBet>, i: nat, line: string)
    requires GroupWinnings(data, date, bets).Ok? && HasDate(data, date) && i < |bets|
    requires (date, bets[i].market) in data && line in ResultLines(data, date, bets[i])
    requires Lists(line, bets[i].number)
    ensures EntryOf(bets[i], line) in GroupWinnings(data, date, bets).value
  {
    BetsWinsComplete(data, date, bets, i, line);
  }
}
