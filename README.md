# 4D betting bot: parser, pricing engine and winning matcher

A Dafny model of the core of a Telegram bot that takes 4D-lottery bets. The
core has three pieces:

- **parse_bet_text** (parser.py). It reads a betting message into bet records.
  - The first line is a `DD/MM` date and the second lists market codes.
  - Each further line holds wagers: `NNNN-<amount><type>` tokens and
    `<amount><type>` tokens that reuse the latest number.
  - A trailing `box` or `ibox` word sets the mode of the whole line.
- **The pricing engine** (engine.py). It has three parts:
  - the permutation count `4!/Π mult!` of a number;
  - the odds and commission tables;
  - `calculate`, which writes `comb`, `stake`, `potential_win` and `commission` into every bet record and returns three totals.
- **check_group_winning** (utils.py). It takes the result texts of one draw
  date. For every locked bet whose market has a result, it emits one winning
  entry per `title: n1 n2 …` line that lists the bet's number.

Each piece has three layers:

- **Specification functions.** `BetParser.Parse`, `Engine.PermutationCount`,
  `Engine.Totals` and `Winning.GroupWinnings` give the meaning of each step.
- **Methods that mirror the source loops.** `BetParser.ParseBetText`,
  `Engine.CombinationCount`, `Engine.Calculate` and
  `Winning.CheckGroupWinning` are proved to compute those functions.
- **Lemmas.** They state what the source promises: errors, shapes, counts,
  order, round trips and bounds.

`Engine.BetRecord` is a class whose four derived fields `calculate` fills in
place. The parser's fields of a record are constant, so `calculate` cannot
change them.

Files:

| file | contents |
|---|---|
| wrappers.dfy | `Option`, `Result`, appending to a result |
| text.dfy | the Python string built-ins the source relies on: `strip`, `split()`, `split(":")`, `splitlines`, `zfill`, `int()` on digits, ASCII `upper`/`lower` |
| arith.dfy | integer division and real arithmetic facts |
| parser.dfy | `BetParser`: the message grammar and `ParseBetText` |
| parser_props.dfy | what the parser guarantees |
| parser_examples.dfy | the messages of the parser's own documentation, parsed |
| engine.dfy | `Engine`: permutation count, tables, `calculate` |
| winning.dfy | `Winning`: `check_group_winning` |
| pipeline.dfy | every parsed bet can be priced |

Where the documentation and the code disagree, the model follows the code:

- **Mode.** The mode is read from a line's last token only. In the
  documented line `1234-2C box 5A` the word `box` is skipped as an
  unrecognised token, so both bets get no mode, and the C and A types are
  accepted (`ParserExamples.BoxInMiddleIsSkipped`). The docstring shows both
  bets with mode `box`.
- **Date line.** Exactly one `D/M` date is accepted: no year and no second
  date.
- **Total potential.** `calculate` adds each bet's payout on one market to
  `total_potential`. The `potential_win` it stores covers all of the bet's
  markets. The two agree only when every bet has a single market, and the
  total is strictly smaller as soon as one paying bet has two markets
  (`Engine.TotalPotentialSingleMarket`, `Engine.TotalPotentialAtMostWins`).

## Model

| member | source | states |
|---|---|---|
| BetParser.ParseBetText | parser.py:10-127 | parse_bet_text, with the year defaulting to 2025, returns the bets `Parse` gives. When a header check fails it returns that check's error instead. The checks are: fewer than three non-blank lines, a bad date line, then no market code. |
| BetParser.ParseWagerLines | parser.py:76-127 | The loop over wager lines returns the bets of each line in line order. The first line that raises ends it with that error. |
| BetParser.LineBets | parser.py:78-125 | The body of the line loop returns that line's bets as `ParseLine` defines them: one per recognised token, the current number carried from token to token, other tokens skipped. |
| BetParser.TrailingMode | parser.py:80-83 | A last token reading `box` or `ibox` in any case sets the mode and is dropped. Otherwise there is no mode and the tokens stay as they are. |
| BetParser.NonBlankLines | parser.py:57 | Every kept line is non-empty, is its own strip, and so begins with a word. |
| BetParser.Parse | parser.py:10-127 | The meaning of parse_bet_text. The header checks come in order: fewer than three non-blank lines, then the date line, then the market line. After them come the wager lines' bets under the header. Its properties are `ParserProps.HeaderErrors`, `ParserProps.ParseOfWagerLines` and `ParserProps.ParsedBetsWellFormed`. |
| BetParser.ParseDate | parser.py:62-67 | The date line read in the given year. A line that is not `D/M` gives the bad-format error, and a day and month that form no calendar date give the invalid-date error. Otherwise the result is `YYYY-MM-DD` (`ParserProps.ParseDateOfDayMonth`). |
| BetParser.KeepMarkets | parser.py:71 | Only characters of VALID_MARKETS are kept, so the result is never longer than the line. |
| BetParser.TokenStep | parser.py:88-125 | One pass of the token loop. A full token adds a bet on its zero-filled number and makes that number current. An amount-only token adds a bet on the current number, or raises when there is none. Any other token is skipped. Under a mode, an A or C type raises. The properties are `ParserProps.TokenStepCurrent`, `ParserProps.StepWellFormed` and `ParserProps.StepRejectsOtherTypes`. |
| BetParser.ParseTokens | parser.py:85-125 | The token loop of one line, starting with no current number. Steps are taken in token order and the first error stops the loop (`ParserProps.ParseTokensSplit`, `ParserProps.SkipUnrecognized`). |
| BetParser.SplitMode | parser.py:80-83 | A last token reading `box` or `ibox` in any case becomes the mode and is dropped. Otherwise there is no mode. |
| BetParser.ParseLine | parser.py:78-125 | The bets of one wager line: its tokens, minus a trailing mode word, parsed under that mode. |
| BetParser.ParseLines | parser.py:76-127 | The bets of the wager lines, line after line. The first line that raises gives the result (`ParserProps.LinesInOrder`). |
| BetParser.MatchDate | parser.py:62 | A matched date line gives two groups of one or two ASCII digits. |
| BetParser.DaysInMonth | parser.py:66 | Every month has 28 to 31 days. |
| BetParser.FormatDate | parser.py:67 | The date string is ten characters long with dashes at positions 4 and 7. |
| BetParser.MarketCodes | parser.py:70-71 | Only M, K, T, S, H and E survive the market filter. |
| BetParser.MatchFull | parser.py:88 | The groups of a full token are a number of 1 to 4 digits, an amount of at least one digit and a type letter in B, S, A, C in either case. |
| BetParser.MatchPartial | parser.py:107 | The groups of an amount-only token are an amount of at least one digit and a type letter in B, S, A, C in either case. |
| ParserProps.MatchFullShape | parser.py:88 | A token matched as a full wager is exactly its three groups joined by the dash. |
| ParserProps.MatchFullAccepts | parser.py:88 | Every `\d{1,4}-\d+[BSAC]` string is matched, case-insensitively, with its parts as the groups. |
| ParserProps.MatchPartialShape | parser.py:107 | A token matched as an amount-only wager is exactly its amount followed by its type letter. |
| ParserProps.MatchPartialAccepts | parser.py:107 | Every `\d+[BSAC]` string is matched, case-insensitively, as an amount-only token. |
| ParserProps.FullIsNotPartial | parser.py:88-108 | A full token never also matches the amount-only pattern. |
| ParserProps.StrippedNonBlankSound | parser.py:57 | Every kept line is the strip of some line of the list. |
| ParserProps.StrippedNonBlankComplete | parser.py:57 | Every line whose strip is not empty has its strip kept. |
| ParserProps.NonBlankLinesExactly | parser.py:57 | The kept lines are exactly the non-empty strips of the text's `splitlines()` lines, in both directions. |
| ParserProps.StrippedLinesKept | parser.py:57 | Lines that are already stripped and non-empty pass the blank-line filter unchanged. |
| ParserProps.NonBlankLinesOfJoin | parser.py:57 | Clean lines joined by line feeds come back as the same lines. |
| ParserProps.NonBlankLinesOfTerminatedJoin | parser.py:57 | The same holds when the last line also ends in a line feed. |
| ParserProps.MatchDateShape | parser.py:62 | A matched date line is its day group, a slash and its month group. |
| ParserProps.MatchDateAccepts | parser.py:62 | Every `\d{1,2}/\d{1,2}` line matches, with its two parts as the groups. |
| ParserProps.TwoDigitsValue | parser.py:67 | `%m` and `%d` print a number below 100 as two digits that read back as that number. |
| ParserProps.FourDigitsValue | parser.py:67 | `%Y` prints a year below 10000 as four digits that read back as the year. |
| ParserProps.FormatDateRoundTrip | parser.py:67 | The emitted `YYYY-MM-DD` string reads back as the year, month and day it was made from. |
| ParserProps.ParseDateOfDayMonth | parser.py:62-67 | A `D/M` line is accepted exactly when day and month form a calendar date of the year. It then yields that date zero-padded; otherwise it raises the invalid-date error with the day and month. |
| ParserProps.RemoveCharConcat | parser.py:70 | Removing spaces from two pieces of a line is removing them from each piece in turn. |
| ParserProps.KeepMarketsConcat | parser.py:71 | The market filter works piece by piece. |
| ParserProps.MarketCodesConcat | parser.py:70-71 | The market codes of a line are those of its pieces in order, so order and repetitions are kept. |
| ParserProps.MarketCodesOfChar | parser.py:70-71 | One character contributes its upper-case form when that is a valid market code, and nothing otherwise. |
| ParserProps.LatestNumberCons | parser.py:85-95 | The number left current after a token and the rest is the one the rest leaves, starting from that token's. |
| ParserProps.TokenStepCurrent | parser.py:88-122 | A full token makes its zero-filled number current. Any other token that does not raise leaves the current number alone. |
| ParserProps.ParseTokensSplit | parser.py:86-122 | Parsing tokens `a + b` parses `a`, then `b` with `a`'s latest number current. An error in `a` stops everything, so the bets come in token order. |
| ParserProps.SkipUnrecognized | parser.py:124-125 | An unrecognised token anywhere on a line changes nothing: no bet, no error, the same current number. |
| ParserProps.AmountBeforeNumberFails | parser.py:108-110 | An amount-only token before any recognised token of its line raises the missing-number error for that token. The current number does not carry over from earlier lines. |
| ParserProps.AmountOnlyUsesLatestNumber | parser.py:95-121 | The bet of an amount-only token carries the zero-filled number of the latest full token before it on the line, with its own amount and upper-cased type. The bet sits right after the earlier tokens' bets. |
| ParserProps.BetCountIsRecognizedCount | parser.py:86-122 | A line has exactly one bet per recognised token, so never more bets than tokens. |
| ParserProps.StepRejectsOtherTypes | parser.py:88-113 | Under `box` or `ibox`, a recognised A or C token raises. |
| ParserProps.ModeRejectsOtherTypes | parser.py:86-113 | Under `box` or `ibox`, a recognised A or C token anywhere on the line makes the line raise. |
| ParserProps.StepWellFormed | parser.py:88-122 | One token's bet has the header's date and markets, a four-digit number, a type in B, S, A, C and the line's mode, with a mode only on B and S. The number left current is four digits. |
| ParserProps.TokenBetsWellFormed | parser.py:86-122 | Every bet of a token run is well formed in that sense. |
| ParserProps.LineBetsWellFormed | parser.py:78-122 | Every bet of a wager line is well formed and carries the mode of the line's last token. |
| ParserProps.LinesBetsWellFormed | parser.py:77-122 | Every bet of the wager lines is well formed for the mode of some line. |
| ParserProps.ParsedBetsWellFormed | parser.py:57-122 | Every bet parse_bet_text returns has the parsed date, the non-empty market list, a four-digit number, a type in B, S, A, C, and B or S whenever it has a mode. |
| ParserProps.TokenErrors | parser.py:86-122 | The tokens of a line only raise the mode error or the missing-number error. |
| ParserProps.WagerLineErrors | parser.py:76-127 | The wager lines only raise the mode error or the missing-number error. |
| ParserProps.HeaderErrors | parser.py:57-73 | Each header error is raised exactly when its check fails: fewer than three non-blank lines, a first line that is not `D/M`, no calendar date, no valid market code. |
| ParserProps.ParseOfWagerLines | parser.py:76-127 | Once the header is accepted, the result is the bets of the wager lines under that header. |
| ParserProps.ParseOfOneWagerLine | parser.py:76-127 | A message with a single wager line returns exactly that line's bets. |
| ParserProps.LinesInOrder | parser.py:77-127 | The bets of the wager lines are those of the first line followed by those of the rest. |
| ParserExamples.IboxMessage | parser.py:14-37 | `08/06`, `MKT`, `1526-1B 1S ibox` parses in 2025 to two `ibox` bets on `1526`, B then S, amount 1 each, markets M, K, T, date `2025-06-08`. |
| ParserExamples.IboxSample | parser.py:132-136 | The first sample message of the module's self-test, which ends in a line feed, parses to the same two bets. |
| ParserExamples.MiddleBoxSample | parser.py:137-141 | The second sample message, `09/06`, `MS`, `1234-2C box 5A` with a final line feed, parses in 2025 to a C bet of 2 and an A bet of 5 on 1234. Both are on markets M and S, date `2025-06-09`, with no mode. |
| ParserExamples.DocumentMessage | parser.py:14-53 | The four-line message of the documentation parses in 2025 to four bets on markets M, K, T, date `2025-06-08`. The first two are the `ibox` B and S bets on 1526. The last two are the C bet of 2 and the A bet of 5 on 1234, with no mode, where the documentation shows mode `box`. |
| ParserExamples.DocumentWagerLines | parser.py:76-127 | The two wager lines of that message give the first line's two bets followed by the second line's two. |
| ParserExamples.MiddleBoxDate | parser.py:62-67 | `09/06` in 2025 is `2025-06-09`. |
| ParserExamples.MarketsMS | parser.py:70-71 | `MS` gives markets M and S. |
| ParserExamples.IboxLineBets | parser.py:78-122 | The line `1526-1B 1S ibox` gives the B bet and then the S bet on 1526. |
| ParserExamples.IboxDate | parser.py:62-67 | `08/06` in 2025 is `2025-06-08`. |
| ParserExamples.MarketsMKT | parser.py:70-71 | `MKT` gives markets M, K, T. |
| ParserExamples.BoxInMiddleIsSkipped | parser.py:80-125 | `1234-2C box 5A` gives a C bet of 2 and an A bet of 5 on 1234, both without a mode. |
| ParserExamples.AmountFirstIsRejected | parser.py:108-110 | A line `5B` raises the missing-number error. |
| ParserExamples.LeapDay | parser.py:62-67 | `29/02` is `2024-02-29` in 2024 and an invalid date in 2025. |
| Engine.CombinationCount | engine.py:21-27 | The loop that floor-divides `4!` by each multiplicity's factorial in turn ends with `4! / Π mult!`. |
| Engine.PermutationCount | engine.py:21-27 | The number of distinct orderings of a number, `4! / Π mult!` over the counter's values. Its values are proved in `Engine.PermutationCountValues`, `Engine.PermutationCountAllDistinct` and `Engine.PermutationCountAllEqual`. |
| Engine.Distinct | engine.py:23 | The keys of the counter are the characters of the number, each once. |
| Engine.CountsArePartition | engine.py:23 | The counter's values are all at least 1, there is one per distinct character, and they add up to the number's length. |
| Engine.PartitionsOfFour | engine.py:24-26 | For multiplicities adding up to four, the product of factorials is 24 for one part, 1 for four parts, and 2, 4 or 6 otherwise. |
| Engine.PermutationCountValues | engine.py:21-27 | For a four-character number the count is one of 1, 4, 6, 12, 24. The division is exact: the count times the product of factorials is 24. |
| Engine.PermutationCountAllDistinct | engine.py:21-27 | The count is 24 exactly when the four characters are pairwise distinct. |
| Engine.PermutationCountAllEqual | engine.py:21-27 | The count is 1 exactly when all four characters are equal. |
| Engine.CommissionRate | engine.py:29-31 | `_commission_rate_for_market`: the MKTS rate of the table for M, K, T, S, and the HL rate for any other code (`Engine.CommissionRateValues`). |
| Engine.CommissionRateValues | engine.py:16-31 | The rate is 0.26 for M, K, T, S and 0.19 for every other code, H and E included. |
| Engine.OddsRow | engine.py:73-78 | The chosen odds row is a key of the odds table. |
| Engine.OddsRowOfParsedMarkets | engine.py:73-79 | For parsed markets, which never include L, the row is H when H is present and M otherwise. A bet on E alone is paid at the M row. |
| Engine.OddsPositive | engine.py:8-13 | Every entry of the odds table is positive. |
| Engine.Odds | engine.py:73-79 | `std_odds`: the entry for the bet's type in the odds row of its markets. |
| Engine.StakeFor | engine.py:64-70 | `stake_per_market`: the amount times the count under `box`, and the amount otherwise. |
| Engine.PayoutFor | engine.py:81-90 | `potential_per_market`: under `ibox`, the odds divided by the count times the amount. Under `box`, the odds times the amount. Otherwise the odds times the stake (`Engine.PayoutPerStake`, `Engine.IboxPayoutTimesCount`). |
| Engine.TotalStakeFor | engine.py:93-94 | `bet_total_stake`: the stake times the number of markets. |
| Engine.WinFor | engine.py:93-95 | `bet_total_potential`, stored as `potential_win`: the payout times the number of markets (`Engine.WinCoversOneMarket`). |
| Engine.Commission | engine.py:98-101 | The commission of a bet: the stake times the rate of each market, repetitions counted (`Engine.CommissionByGroup`). |
| Engine.CommissionByGroup | engine.py:98-101 | A bet's commission is its stake times 0.26 per M, K, T, S market and 0.19 per other market, repetitions counted. |
| Engine.CommissionNonNegative | engine.py:98-101 | A non-negative stake gives a non-negative commission. |
| Engine.IboxPayoutTimesCount | engine.py:81-83 | The `ibox` payout per market times the count is the odds times the amount. |
| Engine.PayoutPerStake | engine.py:64-90 | Per unit of stake, `box` and `ibox` pay the odds divided by the count, and a plain bet pays the odds. |
| Engine.AmountsNonNegative | engine.py:64-101 | With non-negative odds, no stake, payout, total or commission of a bet is negative. |
| Engine.WinCoversOneMarket | engine.py:93-95 | The payout on all markets is at least the payout on one. It is strictly more when the payout is positive and there are two markets or more. |
| Engine.BetAmountsNonNegative | engine.py:55-101 | Nothing a priceable bet costs or pays is negative. |
| Engine.SumsSnoc | engine.py:104-106 | One more bet adds its own total stake, per-market payout and commission to the three totals. |
| Engine.SumsStep | engine.py:104-106 | The running totals after a bet are the totals over the bets so far. |
| Engine.Totals | engine.py:103-118 | The summary `calculate` returns: the sum of the total stakes, the sum of the per-market payouts, and the sum of the commissions. `Engine.Calculate` is proved to return it. |
| Engine.TotalsNonNegative | engine.py:50-118 | None of the three totals is negative. |
| Engine.TotalPotentialSingleMarket | engine.py:105-111 | When every bet has one market, `total_potential` is the sum of the `potential_win` values. |
| Engine.BetWinCoversOneMarket | engine.py:81-111 | A bet's per-market payout is at most its `potential_win`, and below it when positive on two markets or more. |
| Engine.TotalPotentialAtMostWins | engine.py:105-111 | `total_potential` never exceeds the sum of the `potential_win` values. It falls short as soon as one bet with a positive payout has two or more markets. |
| Engine.BetRecord.constructor | parser.py:96-103 | A fresh record holds the parser's fields and none of the four derived keys. |
| Engine.Price | engine.py:64-112 | The stake, the payout on every market and the commission are written into the record. The record's total stake, per-market payout and commission are returned. |
| Engine.CalculateOne | engine.py:55-112 | One pass of the loop leaves the record holding its count, stake, `potential_win` and commission. It returns what goes into the totals. |
| Engine.Calculate | engine.py:33-118 | Every record ends up holding its four derived keys. The summary is the total stake over all markets, the sum of per-market payouts and the total commission. |
| Winning.LineWins | utils.py:26-35 | What one result line gives a bet. A line without a colon gives nothing, and one with two colons or more raises. A line with one colon gives the bet's entry exactly when its number is among the words after the colon. |
| Winning.LinesWins | utils.py:25-35 | The result lines scanned in order, the first malformed line raising. |
| Winning.BetWins | utils.py:19-35 | A bet whose market has no result on the date gives nothing. Otherwise it gets the scan of that market's result text. |
| Winning.BetsWins | utils.py:14-35 | The bets matched in order, the first raising bet giving the result. |
| Winning.GroupWinnings | utils.py:3-37 | The meaning of check_group_winning: nothing when the date has no result, otherwise the matches of the bets. Its properties are `Winning.GroupWinningsSound`, `Winning.GroupWinningsComplete` and `Winning.GroupWinningsErr`. |
| Winning.DateFilter | utils.py:4-9 | The results of the date are empty exactly when no key has the date. A market is among them exactly when the date and the market form a key. |
| Winning.MatchLine | utils.py:26-35 | A line gives no entry without a colon and raises with two colons or more. With exactly one colon it gives one entry exactly when the bet's number is among the words after the colon. |
| Winning.ScanLines | utils.py:25-35 | Scanning a result text appends each line's entries in line order, and the first malformed line raises. |
| Winning.CheckGroupWinning | utils.py:3-37 | The result is empty when the date has no result. Otherwise it is the entries of each bet in bet order, skipping bets whose market has no result, and a malformed line raises. |
| Winning.LinesWinsConcat | utils.py:25-35 | Scanning two blocks of lines is scanning the first, then the second, so entries come in line order. |
| Winning.BetsWinsConcat | utils.py:14-35 | Matching two lists of bets is matching the first, then the second, so entries come in bet order. |
| Winning.LineWithoutColonIsSkipped | utils.py:26 | A line without a colon contributes nothing wherever it stands. |
| Winning.AbsentMarketIsSkipped | utils.py:19-22 | A bet whose market has no result on the date contributes nothing wherever it stands. |
| Winning.LinesWinsErr | utils.py:25-27 | A scan raises exactly when some line has two colons or more, and it reports the first such line. |
| Winning.BetsWinsErr | utils.py:14-35 | Matching the bets raises exactly when some bet's market text has a line with two colons or more. |
| Winning.GroupWinningsErr | utils.py:3-37 | check_group_winning raises exactly when the date has results and some bet reads a malformed line. The bets' numbers play no part in it. |
| Winning.LinesWinsSound | utils.py:28-35 | Every entry has the bet's number and amount. It is the bet's entry for a line with one colon whose words after the colon include the number, and its prize is that line's stripped title. |
| Winning.LinesWinsComplete | utils.py:28-35 | Every line that lists the bet's number gives its entry. |
| Winning.LinesWinsCount | utils.py:25-35 | A scan gives one entry per listing line, so a bet can win several times. |
| Winning.BetsWinsSound | utils.py:14-35 | Every entry comes from some bet, through a result line of its market that lists its number. |
| Winning.BetsWinsIncludes | utils.py:14-35 | When nothing raises, each bet's own entries appear in the result. |
| Winning.BetsWinsComplete | utils.py:14-35 | When nothing raises, each line of a bet's market that lists its number gives that bet's entry. |
| Winning.GroupWinningsSound | utils.py:3-37 | Every entry check_group_winning returns comes from a bet and a listing line of its market on the date, and the date has results. |
| Winning.GroupWinningsComplete | utils.py:3-37 | When the date has results and nothing raises, every listing line of every bet's market gives an entry. |
| Pipeline.WellFormedBetIsComputable | engine.py:62-83 | A bet with a four-digit number and a type in B, S, A, C can be priced without a `KeyError` or a division by zero. Its count is one of 1, 4, 6, 12, 24. |
| Pipeline.ParsedBetsAreComputable | engine.py:54-83 | Every bet parse_bet_text returns can be priced: its count is never zero and it has at least one market. |
| Pipeline.ParsedTotalsNonNegative | engine.py:33-118 | The totals `calculate` returns for a parsed message are never negative. |
| Text.ZeroFillValue | parser.py:95 | `zfill` keeps the digits and the value they spell. |
| Text.SplitJoinWords | parser.py:78 | `split()` takes words joined by single spaces back apart. |
| Text.SplitJoinLines | parser.py:57 | `splitlines()` takes non-empty lines joined by line feeds back apart. |
| Text.SplitJoinLinesTerminated | parser.py:57 | A final line feed after the last line opens no further line in `splitlines()`. |
| Text.SplitOnCount | utils.py:27 | `split(":")` gives one more piece than there are colons, so the two-name unpacking succeeds exactly for one colon. |
| Text.SplitOnOnce | utils.py:27 | A line with one colon splits into the text before it and the text after it. |
| Text.SplitOnPieces | utils.py:27 | No piece of a split contains the separator. |
| Text.JoinSplitOn | utils.py:27 | Joining the pieces of a split with the separator gives back the line. |

## Left out

- bot.py: the Telegram handlers, the configuration and the in-memory pending bets are user-interface glue. This file is not part of this model.
- db.py and the locked-bet query (utils.py:1, 11): persistence. `Winning.CheckGroupWinning` takes the bet list as a parameter, and `chat_id` is only passed to that query, so it is dropped.
- Floating point: money, odds and rates are exact `real` numbers. `amount * 1.0` in utils.py is kept as written. No claim is made about float rounding.
- Unicode: `\d`, `int()`, `upper()` and `lower()` are modelled on ASCII only. Python accepts other decimal digits and case-maps other letters. Whitespace and line boundaries use Python's full sets.
- BetParser.ParseBetText: requires a year between 1000 and 9999, where `%Y` gives four digits. Other years raise in `datetime` or print with platform-dependent padding.
- BetParser.ParseDate: `datetime` is replaced by a month-length and leap-year check. Its own errors are modelled as the invalid-date error.
- Engine.Calculate: requires every bet to have a type in B, S, A, C and, under `ibox`, a non-zero count. Otherwise the source raises `KeyError` or `ZeroDivisionError` midway and leaves earlier records updated. That partial update is not modelled. Parsed bets always meet the requirement (`Pipeline.ParsedBetsAreComputable`).
- Engine.Calculate: a bet record's parser fields are constants of `BetRecord`, so the proof that `calculate` leaves them alone comes from the type and not from a postcondition. The list itself is a value and is not reordered.
- Winning.CheckGroupWinning: a locked bet's `bet_type` is read but never used, and the model carries it unused.
- The `__main__` block of parser.py (lines 130-148) prints what its two sample messages parse to. Printing is left out. What the two messages parse to is stated in `ParserExamples.IboxSample` and `ParserExamples.MiddleBoxSample`.
