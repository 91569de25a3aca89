/** The Python string built-ins the bot relies on: `str.isspace`,
    `str.strip`, `str.split()` with no separator, `str.splitlines`,
    ASCII `upper`/`lower`, the regex class `\d`, `int()` on a run of digits
    and `str.zfill`. */
module Text {

  /** `c.isspace()`: the characters Python treats as whitespace. */
  predicate IsSpace(c: char) {
    c == ' ' || c == '\t' || c == '\n' || c == '\r'
    || c == '\U{0B}' || c == '\U{0C}'
    || ('\U{1C}' <= c <= '\U{1F}')
    || c == '\U{85}' || c == '\U{A0}' || c == '\U{1680}'
    || ('\U{2000}' <= c <= '\U{200A}')
    || c == '\U{2028}' || c == '\U{2029}' || c == '\U{202F}'
    || c == '\U{205F}' || c == '\U{3000}'
  }

  /** The characters at which `str.splitlines` ends a line. */
  predicate IsLineBreak(c: char) {
    c == '\n' || c == '\r' || c == '\U{0B}' || c == '\U{0C}'
    || c == '\U{1C}' || c == '\U{1D}' || c == '\U{1E}'
    || c == '\U{85}' || c == '\U{2028}' || c == '\U{2029}'
  }

  /** The regex class `\d`, restricted to ASCII. */
  predicate IsDigit(c: char) {
    '0' <= c <= '9'
  }

  predicate AllDigits(s: string) {
    forall i :: 0 <= i < |s| ==> IsDigit(s[i])
  }

  function DigitValue(c: char): (d: nat)
    requires IsDigit(c)
    ensures d < 10
  {
    (c as int) - ('0' as int)
  }

  /** `int(s)` for a run of ASCII digits, leading zeros allowed; the empty run reads as 0. */
  function DigitsValue(s: string): nat
    requires AllDigits(s)
  {
    if s == [] then 0
    else DigitsValue(s[..|s| - 1]) * 10 + DigitValue(s[|s| - 1])
  }

  function DigitChar(d: nat): (c: char)
    requires d < 10
    ensures IsDigit(c) && DigitValue(c) == d
  {
    ('0' as int + d) as char
  }

  /** A leading zero does not change the value `int()` reads. */
  lemma {:induction false} LeadingZero(s: string)
    requires AllDigits(s)
    ensures AllDigits("0" + s) && DigitsValue("0" + s) == DigitsValue(s)
  {
    if s != [] {
      var t := "0" + s;
      assert t[..|t| - 1] == "0" + s[..|s| - 1];
      LeadingZero(s[..|s| - 1]);
    } else {
      assert DigitsValue("0") == DigitsValue("0"[..0]) * 10 + DigitValue('0');
    }
  }

  /** `s.zfill(width)` for a string of digits: zeros on the left up to `width`. */
  function ZeroFill(s: string, width: nat): (r: string)
    ensures |s| <= width ==> |r| == width
    ensures |s| > width ==> r == s
    ensures r[|r| - |s|..] == s
    ensures forall i :: 0 <= i < |r| - |s| ==> r[i] == '0'
    decreases width - |s|
  {
    if |s| >= width then s else ZeroFill("0" + s, width)
  }

  /** Zero filling keeps the digits and the number they spell. */
  lemma {:induction false} ZeroFillValue(s: string, width: nat)
    requires AllDigits(s)
    ensures AllDigits(ZeroFill(s, width))
    ensures DigitsValue(ZeroFill(s, width)) == DigitsValue(s)
    decreases width - |s|
  {
    if |s| < width {
      LeadingZero(s);
      ZeroFillValue("0" + s, width);
    }
  }

  /** ASCII `upper()` and `lower()` of one character. */
  function UpperChar(c: char): char {
    if 'a' <= c <= 'z' then (c as int - 32) as char else c
  }

  function LowerChar(c: char): char {
    if 'A' <= c <= 'Z' then (c as int + 32) as char else c
  }

  function Upper(s: string): (r: string)
    ensures |r| == |s|
    ensures forall i :: 0 <= i < |s| ==> r[i] == UpperChar(s[i])
  {
    seq(|s|, i requires 0 <= i < |s| => UpperChar(s[i]))
  }

  function Lower(s: string): (r: string)
    ensures |r| == |s|
    ensures forall i :: 0 <= i < |s| ==> r[i] == LowerChar(s[i])
  {
    seq(|s|, i requires 0 <= i < |s| => LowerChar(s[i]))
  }

  /** `s.replace(c, "")`. */
  function RemoveChar(s: string, c: char): (r: string)
    ensures c !in r
    ensures |r| <= |s|
  {
    if s == [] then []
    else (if s[0] == c then [] else [s[0]]) + RemoveChar(s[1..], c)
  }

  /** The first index at or after `i` whose character satisfies `stop`, or `|s|`. */
  function FindFrom(s: string, i: nat, stop: char -> bool): (k: nat)
    requires i <= |s|
    ensures i <= k <= |s|
    ensures k < |s| ==> stop(s[k])
    ensures forall j :: i <= j < k ==> !stop(s[j])
    decreases |s| - i
  {
    if i == |s| || stop(s[i]) then i else FindFrom(s, i + 1, stop)
  }

  /** The index of the first occurrence of `c`, or `|s|` when there is none. */
  function IndexOf(s: string, c: char): (k: nat)
    ensures k <= |s|
    ensures k < |s| ==> s[k] == c
    ensures forall j :: 0 <= j < k ==> s[j] != c
  {
    FindFrom(s, 0, x => x == c)
  }

  /** `s.count(c)`. */
  function CountChar(s: string, c: char): (n: nat)
    ensures n <= |s|
    ensures n == 0 <==> c !in s
  {
    if s == [] then 0
    else (if s[0] == c then 1 else 0) + CountChar(s[1..], c)
  }

  /** Characters before the first `c` add nothing to its count. */
  lemma {:induction false} CountCharSkip(s: string, c: char, k: nat)
    requires k <= |s| && forall j :: 0 <= j < k ==> s[j] != c
    ensures CountChar(s, c) == CountChar(s[k..], c)
  {
    if k > 0 {
      CountCharSkip(s[1..], c, k - 1);
      assert s[1..][k - 1..] == s[k..];
    }
  }

  /** `s.split(sep)` for a one-character separator: the pieces between
      separators, always one more than there are separators. */
  function SplitOn(s: string, sep: char): seq<string>
    decreases |s|
  {
    var k := IndexOf(s, sep);
    if k == |s| then [s] else [s[..k]] + SplitOn(s[k + 1..], sep)
  }

  /** A split gives one more piece than there are separators. */
  lemma {:induction false} SplitOnCount(s: string, sep: char)
    ensures |SplitOn(s, sep)| == CountChar(s, sep) + 1
    decreases |s|
  {
    var k := IndexOf(s, sep);
    CountCharSkip(s, sep, k);
    if k < |s| {
      assert s[k..][1..] == s[k + 1..];
      assert CountChar(s[k..], sep) == 1 + CountChar(s[k + 1..], sep);
      assert SplitOn(s, sep) == [s[..k]] + SplitOn(s[k + 1..], sep);
      SplitOnCount(s[k + 1..], sep);
    } else {
      assert s[k..] == [];
      assert SplitOn(s, sep) == [s];
    }
  }

  /** `sep.join(parts)`. */
  function JoinOn(parts: seq<string>, sep: char): string
    requires parts != []
  {
    if |parts| == 1 then parts[0] else parts[0] + [sep] + JoinOn(parts[1..], sep)
  }

  /** Splitting on a separator and joining back with it gives the text. */
  lemma {:induction false} JoinSplitOn(s: string, sep: char)
    ensures JoinOn(SplitOn(s, sep), sep) == s
    decreases |s|
  {
    var k := IndexOf(s, sep);
    if k < |s| {
      var rest := s[k + 1..];
      JoinSplitOn(rest, sep);
      JoinOnCons(s[..k], SplitOn(rest, sep), sep);
      assert s == s[..k] + [sep] + rest;
    }
  }

  lemma JoinOnCons(p: string, ps: seq<string>, sep: char)
    requires ps != []
    ensures JoinOn([p] + ps, sep) == p + [sep] + JoinOn(ps, sep)
  {
    assert ([p] + ps)[1..] == ps;
  }

  /** No piece of a split contains the separator. */
  lemma {:induction false} SplitOnPieces(s: string, sep: char)
    ensures forall p :: p in SplitOn(s, sep) ==> sep !in p
    decreases |s|
  {
    var k := IndexOf(s, sep);
    if k < |s| {
      SplitOnPieces(s[k + 1..], sep);
    }
  }

  /** A text with exactly one separator splits into what comes before it and
      what comes after it. */
  lemma SplitOnOnce(s: string, sep: char)
    requires CountChar(s, sep) == 1
    ensures IndexOf(s, sep) < |s|
    ensures SplitOn(s, sep) == [s[..IndexOf(s, sep)], s[IndexOf(s, sep) + 1..]]
  {
    var k := IndexOf(s, sep);
    CountCharSkip(s, sep, k);
    assert k < |s|;
    SplitOnCount(s, sep);
    var rest := s[k + 1..];
    assert s[k..][1..] == rest;
    assert CountChar(rest, sep) == 0;
    assert IndexOf(rest, sep) == |rest|;
    assert SplitOn(rest, sep) == [rest];
  }

  function StripLeft(s: string): (r: string)
    ensures |r| <= |s| && r == s[|s| - |r|..]
    ensures r != [] ==> !IsSpace(r[0])
    ensures forall j :: 0 <= j < |s| - |r| ==> IsSpace(s[j])
  {
    if s != [] && IsSpace(s[0]) then StripLeft(s[1..]) else s
  }

  function StripRight(s: string): (r: string)
    ensures |r| <= |s| && r == s[..|r|]
    ensures r != [] ==> !IsSpace(r[|r| - 1])
    ensures forall j :: |r| <= j < |s| ==> IsSpace(s[j])
  {
    if s != [] && IsSpace(s[|s| - 1]) then StripRight(s[..|s| - 1]) else s
  }

  /** `s.strip()`: the slice of `s` without leading and trailing whitespace. */
  function Strip(s: string): (r: string)
    ensures r != [] ==> !IsSpace(r[0]) && !IsSpace(r[|r| - 1])
    ensures r == [] <==> forall j :: 0 <= j < |s| ==> IsSpace(s[j])
  {
    StripRight(StripLeft(s))
  }

  /** `s.split()`: the maximal runs of non-whitespace characters, in order. */
  function Tokens(s: string): (r: seq<string>)
    ensures forall t :: t in r ==> t != [] && forall j :: 0 <= j < |t| ==> !IsSpace(t[j])
    ensures s != [] && !IsSpace(s[0]) ==> r != []
    decreases |s|
  {
    if s == [] then []
    else if IsSpace(s[0]) then Tokens(s[1..])
    else
      var k := FindFrom(s, 0, IsSpace);
      [s[..k]] + Tokens(s[k..])
  }

  /** `s.splitlines()`: lines without their terminators, where "\r\n" ends a
      single line and a terminator at the very end opens no further line. */
  function SplitLines(s: string): (r: seq<string>)
    ensures forall l :: l in r ==> forall j :: 0 <= j < |l| ==> !IsLineBreak(l[j])
    decreases |s|
  {
    if s == [] then []
    else
      var k := FindFrom(s, 0, IsLineBreak);
      if k == |s| then [s]
      else
        var next := if s[k] == '\r' && k + 1 < |s| && s[k + 1] == '\n' then k + 2 else k + 1;
        [s[..k]] + SplitLines(s[next..])
  }

  /** A word followed by whitespace or by the end is `split()`'s next token. */
  lemma TokensWord(w: string, rest: string)
    requires w != [] && forall j :: 0 <= j < |w| ==> !IsSpace(w[j])
    requires rest == [] || IsSpace(rest[0])
    ensures Tokens(w + rest) == [w] + Tokens(rest)
  {
    var s := w + rest;
    assert s[0] == w[0];
    var k := FindFrom(s, 0, IsSpace);
    assert k == |w| by {
      if rest != [] {
        assert s[|w|] == rest[0];
      }
    }
    assert s[..k] == w && s[k..] == rest;
  }

  /** A single word is its own only token. */
  lemma TokensOneWord(w: string)
    requires w != [] && forall j :: 0 <= j < |w| ==> !IsSpace(w[j])
    ensures Tokens(w) == [w]
  {
    assert w + [] == w;
    TokensWord(w, []);
  }

  /** `split()` skips leading whitespace. */
  lemma TokensSpace(c: char, rest: string)
    requires IsSpace(c)
    ensures Tokens([c] + rest) == Tokens(rest)
  {
    assert ([c] + rest)[1..] == rest;
  }

  /** A line ended by a line feed is `splitlines()`'s next line. */
  lemma SplitLinesLine(l: string, rest: string)
    requires forall j :: 0 <= j < |l| ==> !IsLineBreak(l[j])
    ensures SplitLines(l + "\n" + rest) == [l] + SplitLines(rest)
  {
    var s := l + "\n" + rest;
    var k := FindFrom(s, 0, IsLineBreak);
    assert s[|l|] == '\n';
    assert k == |l|;
    assert s[..k] == l && s[k + 1..] == rest;
  }

  /** Text without a line break is one line. */
  lemma SplitLinesLast(l: string)
    requires l != [] && forall j :: 0 <= j < |l| ==> !IsLineBreak(l[j])
    ensures SplitLines(l) == [l]
  {
  }

  /** A non-empty run of non-whitespace characters. */
  predicate IsWord(w: string) {
    w != [] && forall j :: 0 <= j < |w| ==> !IsSpace(w[j])
  }

  /** `" ".join(ws)`. */
  function JoinWords(ws: seq<string>): string {
    if ws == [] then []
    else if |ws| == 1 then ws[0]
    else ws[0] + " " + JoinWords(ws[1..])
  }

  /** `split()` takes words joined by single spaces back apart. */
  lemma {:induction false} SplitJoinWords(ws: seq<string>)
    requires forall w :: w in ws ==> IsWord(w)
    ensures Tokens(JoinWords(ws)) == ws
  {
    if ws != [] {
      assert ws[0] in ws;
    }
    if |ws| == 1 {
      TokensOneWord(ws[0]);
    } else if ws != [] {
      var rest := JoinWords(ws[1..]);
      assert JoinWords(ws) == ws[0] + ([' '] + rest);
      TokensWord(ws[0], [' '] + rest);
      TokensSpace(' ', rest);
      SplitJoinWords(ws[1..]);
    }
  }

  /** `"\n".join(ls)`. */
  function JoinLines(ls: seq<string>): string {
    if ls == [] then []
    else if |ls| == 1 then ls[0]
    else ls[0] + "\n" + JoinLines(ls[1..])
  }

  /** `splitlines()` takes non-empty lines joined by line feeds back apart. */
  lemma {:induction false} SplitJoinLines(ls: seq<string>)
    requires forall l :: l in ls ==> l != [] && forall j :: 0 <= j < |l| ==> !IsLineBreak(l[j])
    ensures SplitLines(JoinLines(ls)) == ls
  {
    if ls != [] {
      assert ls[0] in ls;
    }
    if |ls| == 1 {
      SplitLinesLast(ls[0]);
    } else if ls != [] {
      SplitLinesLine(ls[0], JoinLines(ls[1..]));
      SplitJoinLines(ls[1..]);
    }
  }

  /** A final line feed after the last line opens no further line. */
  lemma {:induction false} SplitJoinLinesTerminated(ls: seq<string>)
    requires ls != []
    requires forall l :: l in ls ==> forall j :: 0 <= j < |l| ==> !IsLineBreak(l[j])
    ensures SplitLines(JoinLines(ls) + "\n") == ls
  {
    assert ls[0] in ls;
    if |ls| == 1 {
      assert JoinLines(ls) + "\n" == ls[0] + "\n" + [];
      SplitLinesLine(ls[0], []);
    } else {
      var rest := JoinLines(ls[1..]) + "\n";
      assert JoinLines(ls) + "\n" == ls[0] + "\n" + rest;
      SplitLinesLine(ls[0], rest);
      SplitJoinLinesTerminated(ls[1..]);
    }
  }

  /** A string with no whitespace at either end is its own `strip()`. */
  lemma StripUnpadded(s: string)
    requires s != [] && !IsSpace(s[0]) && !IsSpace(s[|s| - 1])
    ensures Strip(s) == s
  {
  }
}
