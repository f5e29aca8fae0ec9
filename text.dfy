/** The pieces of Rust's standard library that the daemon and its client use on
    text: `u8` and `bool` parsing and display, `str::split_whitespace`,
    `str::trim` and `str::split(';')`. */
module Text {
  import opened Wrappers

  /** Rust's `u8`. */
  newtype u8 = x: int | 0 <= x < 256

  /** Unicode White_Space, the set Rust's `char::is_whitespace` tests. */
  predicate IsWhitespace(c: char) {
    || c == ' '
    || ('\t' <= c <= '\r')
    || c == '\U{85}' || c == '\U{A0}' || c == '\U{1680}'
    || ('\U{2000}' <= c <= '\U{200A}')
    || c == '\U{2028}' || c == '\U{2029}' || c == '\U{202F}' || c == '\U{205F}' || c == '\U{3000}'
  }

  predicate IsDigit(c: char) {
    '0' <= c <= '9'
  }

  predicate AllDigits(s: string) {
    forall i :: 0 <= i < |s| ==> IsDigit(s[i])
  }

  function DigitChar(d: nat): (c: char)
    requires d < 10
    ensures IsDigit(c) && DigitValue(c) == d
  {
    (('0' as int) + d) as char
  }

  function DigitValue(c: char): nat
    requires IsDigit(c)
  {
    (c as int) - ('0' as int)
  }

  /** The value of a string of decimal digits, most significant first. */
  function DecimalValue(ds: string): nat
    requires AllDigits(ds)
  {
    if ds == [] then 0 else DecimalValue(ds[..|ds| - 1]) * 10 + DigitValue(ds[|ds| - 1])
  }

  /** Decimal rendering of a natural number, without leading zeros. */
  function NatToString(n: nat): (s: string)
    ensures s != [] && AllDigits(s)
    ensures |s| > 1 ==> s[0] != '0'
  {
    if n < 10 then [DigitChar(n)] else NatToString(n / 10) + [DigitChar(n % 10)]
  }

  lemma {:induction false} DecimalValueOfNatToString(n: nat)
    ensures DecimalValue(NatToString(n)) == n
  {
    if n >= 10 {
      var s := NatToString(n);
      assert s[..|s| - 1] == NatToString(n / 10);
      DecimalValueOfNatToString(n / 10);
    }
  }

  /** `str::parse::<u8>`: an optional '+', then one or more decimal digits
      whose value fits in a byte; anything else (a '-', an empty string, an
      overflow) is an error. */
  function ParseU8(s: string): Option<u8> {
    var digits := if |s| > 1 && s[0] == '+' then s[1..] else s;
    if digits != [] && AllDigits(digits) && DecimalValue(digits) < 256 then
      Some(DecimalValue(digits) as u8)
    else
      None
  }

  /** `u8`'s `Display` (`format!("{}", r)`, `r.to_string()`). */
  function U8ToString(r: u8): (s: string)
    ensures s != []
  {
    NatToString(r as nat)
  }

  /** A displayed `u8` is one to three digits and parses back to itself. */
  lemma U8ToStringParses(r: u8)
    ensures AllDigits(U8ToString(r)) && |U8ToString(r)| <= 3
    ensures ParseU8(U8ToString(r)) == Some(r)
  {
    DecimalValueOfNatToString(r as nat);
    var s := NatToString(r as nat);
    if r >= 10 {
      assert NatToString(r as nat / 10) == s[..|s| - 1];
      if r >= 100 {
        var t := NatToString(r as nat / 10);
        assert t[..|t| - 1] == NatToString(r as nat / 100);
      }
    }
  }

  /** `str::parse::<bool>`: exactly "true" or "false". */
  function ParseBool(s: string): Option<bool> {
    if s == "true" then Some(true) else if s == "false" then Some(false) else None
  }

  /** `bool`'s `Display`. */
  function BoolToString(b: bool): (s: string)
    ensures ParseBool(s) == Some(b)
  {
    if b then "true" else "false"
  }

  /** A displayed `bool` is not a number. */
  lemma BoolToStringIsNotU8(b: bool)
    ensures ParseU8(BoolToString(b)).None?
  {
    assert !IsDigit(BoolToString(b)[0]);
  }

  /** A token `split_whitespace` can produce: non-empty, without whitespace. */
  predicate IsWord(w: string) {
    w != [] && forall i :: 0 <= i < |w| ==> !IsWhitespace(w[i])
  }

  /** A displayed `u8` is one token and is not a `bool`. */
  lemma U8ToStringIsWord(r: u8)
    ensures IsWord(U8ToString(r))
    ensures ParseBool(U8ToString(r)).None?
  {
    U8ToStringParses(r);
    var s := U8ToString(r);
    assert forall i :: 0 <= i < |s| ==> IsDigit(s[i]);
    assert IsDigit(s[0]);
  }

  /** A displayed `bool` is one token. */
  lemma BoolToStringIsWord(b: bool)
    ensures IsWord(BoolToString(b))
  {
  }

  /** Length of the run of non-whitespace characters that starts `s`. */
  function WordLength(s: string): (n: nat)
    ensures n <= |s|
    ensures forall i :: 0 <= i < n ==> !IsWhitespace(s[i])
    ensures n < |s| ==> IsWhitespace(s[n])
  {
    if s == [] || IsWhitespace(s[0]) then 0 else 1 + WordLength(s[1..])
  }

  /** `str::split_whitespace`: the maximal runs of non-whitespace characters,
      in order. */
  function Tokenize(s: string): (words: seq<string>)
    ensures forall i :: 0 <= i < |words| ==> IsWord(words[i])
    decreases |s|
  {
    if s == [] then []
    else if IsWhitespace(s[0]) then Tokenize(s[1..])
    else
      var n := WordLength(s);
      [s[..n]] + Tokenize(s[n..])
  }

  /** Words separated by single spaces. */
  function JoinWords(ws: seq<string>): string {
    if ws == [] then ""
    else if |ws| == 1 then ws[0]
    else ws[0] + " " + JoinWords(ws[1..])
  }

  lemma {:induction false} WordLengthOfWord(w: string, rest: string)
    requires IsWord(w)
    requires rest != [] && IsWhitespace(rest[0])
    ensures WordLength(w + rest) == |w|
  {
    if |w| > 1 {
      assert (w + rest)[1..] == w[1..] + rest;
      WordLengthOfWord(w[1..], rest);
    }
  }

  /** Splitting a space-joined, newline-terminated line gives back its words. */
  lemma {:induction false} TokenizeJoinWords(ws: seq<string>)
    requires forall i :: 0 <= i < |ws| ==> IsWord(ws[i])
    ensures Tokenize(JoinWords(ws) + "\n") == ws
  {
    if ws == [] {
      assert Tokenize("\n") == Tokenize("");
    } else {
      var w := ws[0];
      var rest := if |ws| == 1 then "\n" else " " + JoinWords(ws[1..]) + "\n";
      var line := JoinWords(ws) + "\n";
      assert line == w + rest;
      WordLengthOfWord(w, rest);
      assert line[..|w|] == w;
      assert line[|w|..] == rest;
      if |ws| == 1 {
        assert Tokenize(rest) == Tokenize("");
      } else {
        assert rest[1..] == JoinWords(ws[1..]) + "\n";
        TokenizeJoinWords(ws[1..]);
        assert ws == [w] + ws[1..];
      }
    }
  }

  /** `str::trim_start`. */
  function TrimStart(s: string): (r: string)
    ensures r == [] || !IsWhitespace(r[0])
  {
    if s != [] && IsWhitespace(s[0]) then TrimStart(s[1..]) else s
  }

  /** `str::trim_end`. */
  function TrimEnd(s: string): (r: string)
    ensures r == [] || !IsWhitespace(r[|r| - 1])
  {
    if s != [] && IsWhitespace(s[|s| - 1]) then TrimEnd(s[..|s| - 1]) else s
  }

  /** `str::trim`. */
  function Trim(s: string): string {
    TrimEnd(TrimStart(s))
  }

  lemma SemicolonIsNotWhitespace()
    ensures !IsWhitespace(';')
  {
  }

  /** `trim` leaves alone a text that neither starts nor ends with
      whitespace. */
  lemma TrimUnchanged(s: string)
    requires s != [] ==> !IsWhitespace(s[0]) && !IsWhitespace(s[|s| - 1])
    ensures Trim(s) == s
  {
  }

  /** `str::split(sep)`: the pieces between occurrences of `sep`, including the
      empty ones (so "" splits into [""] and "a;" into ["a", ""]). */
  function SplitOn(s: string, sep: char): (parts: seq<string>)
    ensures |parts| == 1 + multiset(s)[sep]
    ensures forall i :: 0 <= i < |parts| ==> sep !in parts[i]
  {
    if s == [] then [""]
    else
      var tail := SplitOn(s[1..], sep);
      assert s == [s[0]] + s[1..];
      if s[0] == sep then [""] + tail
      else [[s[0]] + tail[0]] + tail[1..]
  }

  lemma {:induction false} SplitOnPiece(x: string, sep: char, rest: string)
    requires sep !in x
    ensures SplitOn(x + [sep] + rest, sep) == [x] + SplitOn(rest, sep)
  {
    if x != [] {
      assert (x + [sep] + rest)[1..] == x[1..] + [sep] + rest;
      SplitOnPiece(x[1..], sep, rest);
      assert [x[0]] + x[1..] == x;
    } else {
      assert ([sep] + rest)[1..] == rest;
    }
  }
}
