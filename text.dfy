/**
 * The text handling the camera file format relies on: substring search
 * (std::string::find), the part of sscanf the format strings use (literal
 * text, whitespace directives, %d and %lf conversions), and decimal
 * formatting of integers as an output stream writes them.
 */
module Text {
  import opened Wrappers

  /** The characters isspace accepts in the C locale. */
  predicate IsSpace(c: char) {
    c == ' ' || c == '\t' || c == '\n' || c == '\r' || c == '\U{000B}' || c == '\U{000C}'
  }

  predicate IsDigit(c: char) { '0' <= c <= '9' }

  /** A token ends here: the rest of the line is empty or starts with whitespace. */
  predicate Delimited(rest: string) { rest == [] || IsSpace(rest[0]) }

  /** `pattern` occurs somewhere in `s`. */
  predicate Contains(s: string, pattern: string)
    decreases |s|
  {
    pattern <= s || (|s| > 0 && Contains(s[1..], pattern))
  }

  /** A string shorter than the pattern cannot contain it. */
  lemma {:induction false} ContainsNeedsRoom(s: string, pattern: string)
    requires Contains(s, pattern)
    ensures |pattern| <= |s|
  {
    if !(pattern <= s) {
      ContainsNeedsRoom(s[1..], pattern);
    }
  }

  /** Drops leading whitespace. */
  function SkipSpace(s: string): (r: string)
    ensures |r| <= |s| && r == s[|s| - |r|..]
    ensures Delimited(r) ==> r == []
    ensures (s == [] || !IsSpace(s[0])) ==> r == s
  {
    if |s| > 0 && IsSpace(s[0]) then SkipSpace(s[1..]) else s
  }

  /**
   * Matches the literal part of a scanf format against the input: a
   * whitespace character of the format skips any amount of whitespace
   * (none included), any other character must be matched exactly.
   * Returns the unread input, or None on a mismatch.
   */
  function MatchLiteral(format: string, s: string): (r: Option<string>)
    ensures r.Some? ==> |r.value| <= |s|
    decreases |format|
  {
    if format == [] then Some(s)
    else if IsSpace(format[0]) then MatchLiteral(format[1..], SkipSpace(s))
    else if |s| > 0 && s[0] == format[0] then MatchLiteral(format[1..], s[1..])
    else None
  }

  /**
   * Up to `n` whitespace-separated conversions, as scanf runs " %d %d ...":
   * each skips leading whitespace and stops the scan at the end of input or
   * at the first text it cannot convert. The result is the converted prefix,
   * whose length is scanf's return count.
   */
  function ScanNumbers<T>(s: string, n: nat, convert: string -> Option<(T, string)>): (r: seq<T>)
    ensures |r| <= n
    decreases n
  {
    var t := SkipSpace(s);
    if n == 0 || t == [] then []
    else match convert(t)
      case None => []
      case Some((v, rest)) => [v] + ScanNumbers(rest, n - 1, convert)
  }

  /** sscanf(line, "<name> = %x %x ...") with `n` conversions: the converted prefix. */
  function ScanField<T>(line: string, name: string, n: nat, convert: string -> Option<(T, string)>): (r: seq<T>)
    ensures |r| <= n
  {
    match MatchLiteral(name + " =", line)
    case None => []
    case Some(rest) => ScanNumbers(rest, n, convert)
  }

  /** " v1 v2 ... vn", each value formatted by `format`. */
  function Join<T>(xs: seq<T>, format: T -> string): string {
    if xs == [] then [] else " " + format(xs[0]) + Join(xs[1..], format)
  }

  /** The line `<name> = v1 v2 ... vn` that the writer emits for one field. */
  function FieldLine<T>(name: string, xs: seq<T>, format: T -> string): string {
    name + " =" + Join(xs, format)
  }

  // ---------------------------------------------------------------------------
  // Integers: %d on input, operator<< on output.

  function DigitValue(c: char): int { c as int - '0' as int }

  function DigitChar(d: nat): (c: char)
    requires d < 10
    ensures IsDigit(c) && DigitValue(c) == d
  {
    ('0' as int + d) as char
  }

  /** How many decimal digits `s` starts with. */
  function DigitRun(s: string): (n: nat)
    ensures n <= |s|
  {
    if |s| > 0 && IsDigit(s[0]) then 1 + DigitRun(s[1..]) else 0
  }

  /** The value of a string of decimal digits, most significant first. */
  function DigitsValue(ds: string): int {
    if ds == [] then 0 else DigitsValue(ds[..|ds| - 1]) * 10 + DigitValue(ds[|ds| - 1])
  }

  /** strtol in base 10 on input that starts with a non-space: optional sign, then the longest run of digits. */
  function ScanInt(s: string): Option<(int, string)> {
    if |s| > 0 && (s[0] == '-' || s[0] == '+') then
      var n := DigitRun(s[1..]);
      if n == 0 then None
      else
        var v := DigitsValue(s[1..][..n]);
        Some((if s[0] == '-' then -v else v, s[1..][n..]))
    else
      var n := DigitRun(s);
      if n == 0 then None else Some((DigitsValue(s[..n]), s[n..]))
  }

  /** The decimal digits of a natural number, without leading zeros. */
  function Digits(n: nat): string {
    if n < 10 then [DigitChar(n)] else Digits(n / 10) + [DigitChar(n % 10)]
  }

  /** An integer as an output stream writes it: a minus sign for negatives, then its digits. */
  function FormatInt(i: int): string {
    if i < 0 then "-" + Digits(-i) else Digits(i)
  }

  predicate AllDigits(s: string) { forall k :: 0 <= k < |s| ==> IsDigit(s[k]) }

  lemma {:induction false} DigitsCorrect(n: nat)
    ensures |Digits(n)| > 0 && AllDigits(Digits(n))
    ensures DigitsValue(Digits(n)) == n
  {
    if n >= 10 {
      DigitsCorrect(n / 10);
      var ds := Digits(n);
      assert ds[..|ds| - 1] == Digits(n / 10);
    }
  }

  /** The digit run of `ds + rest` is exactly `ds` when `rest` does not go on with a digit. */
  lemma {:induction false} DigitRunStops(ds: string, rest: string)
    requires AllDigits(ds)
    requires rest == [] || !IsDigit(rest[0])
    ensures DigitRun(ds + rest) == |ds|
  {
    if ds != [] {
      assert (ds + rest)[1..] == ds[1..] + rest;
      DigitRunStops(ds[1..], rest);
    }
  }

  /** %d reads back exactly the integer operator<< wrote, and leaves the rest of the line. */
  lemma IntRoundTrip(i: int, rest: string)
    requires Delimited(rest)
    ensures ScanInt(FormatInt(i) + rest) == Some((i, rest))
  {
    if i < 0 {
      NegativeRoundTrip(-i, rest);
    } else {
      NaturalRoundTrip(i, rest);
    }
  }

  lemma NaturalRoundTrip(n: nat, rest: string)
    requires Delimited(rest)
    ensures ScanInt(Digits(n) + rest) == Some((n, rest))
  {
    var ds := Digits(n);
    DigitsCorrect(n);
    DigitRunStops(ds, rest);
    var s := ds + rest;
    assert s[0] == ds[0];
    assert s[..|ds|] == ds;
    assert s[|ds|..] == rest;
  }

  lemma NegativeRoundTrip(n: nat, rest: string)
    requires n > 0 && Delimited(rest)
    ensures ScanInt("-" + Digits(n) + rest) == Some((-(n as int), rest))
  {
    var ds := Digits(n);
    DigitsCorrect(n);
    DigitRunStops(ds, rest);
    var s := "-" + Digits(n) + rest;
    assert s[1..] == ds + rest;
    assert s[1..][..|ds|] == ds;
    assert s[1..][|ds|..] == rest;
  }

  /** What FormatInt writes is non-empty and starts with a non-space. */
  lemma FormatIntToken(i: int)
    ensures FormatInt(i) != [] && !IsSpace(FormatInt(i)[0])
  {
    DigitsCorrect(if i < 0 then -i else i);
  }

  /** A lone integer as operator<< writes it scans back with one %d. */
  lemma ScanOneInt(i: int)
    ensures ScanNumbers(FormatInt(i), 1, ScanInt) == [i]
  {
    FormatIntToken(i);
    IntRoundTrip(i, []);
    assert FormatInt(i) + [] == FormatInt(i);
  }

  // ---------------------------------------------------------------------------
  // Reading back what was written.

  /**
   * The converter reads back what the formatter writes for `x`: the
   * formatted token is non-empty, does not start with whitespace, and
   * converting it followed by a delimited rest yields `x` and that rest.
   */
  ghost predicate RoundTripsAt<T>(convert: string -> Option<(T, string)>, format: T -> string, x: T) {
    && format(x) != [] && !IsSpace(format(x)[0])
    && (forall rest :: Delimited(rest) ==> convert(format(x) + rest) == Some((x, rest)))
  }

  /** The converter reads back every value of `xs` as the formatter writes it. */
  ghost predicate RoundTripsOn<T>(convert: string -> Option<(T, string)>, format: T -> string, xs: seq<T>) {
    forall x | x in xs :: RoundTripsAt(convert, format, x)
  }

  /** The converter reads back every value of its type as the formatter writes it. */
  ghost predicate RoundTrips<T(!new)>(convert: string -> Option<(T, string)>, format: T -> string) {
    forall x :: RoundTripsAt(convert, format, x)
  }

  lemma IntTextRoundTrips()
    ensures RoundTrips(ScanInt, FormatInt)
  {
    forall x ensures RoundTripsAt(ScanInt, FormatInt, x) {
      FormatIntToken(x);
      forall rest | Delimited(rest) ensures ScanInt(FormatInt(x) + rest) == Some((x, rest)) {
        IntRoundTrip(x, rest);
      }
    }
  }

  /** A character that may appear in a field name. */
  predicate NameChar(c: char) {
    'a' <= c <= 'z' || 'A' <= c <= 'Z' || c == '_'
  }

  /** A field name: letters and underscores only, so no whitespace. */
  predicate Word(s: string) {
    forall i | 0 <= i < |s| :: NameChar(s[i])
  }

  /** A literal without whitespace matches itself. */
  lemma {:induction false} MatchLiteralSelf(word: string, more: string, s: string)
    requires Word(word)
    ensures MatchLiteral(word + more, word + s) == MatchLiteral(more, s)
  {
    if word == [] {
      assert word + more == more && word + s == s;
    } else {
      assert NameChar(word[0]);
      assert Word(word[1..]) by {
        forall i | 0 <= i < |word| - 1 ensures NameChar(word[1..][i]) {
          assert word[1..][i] == word[i + 1];
        }
      }
      assert (word + more)[0] == word[0] && (word + s)[0] == word[0];
      assert (word + more)[1..] == word[1..] + more;
      assert (word + s)[1..] == word[1..] + s;
      MatchLiteralSelf(word[1..], more, s);
    }
  }

  /** A single space before a token is skipped and the token is not. */
  lemma SkipOneSpace(token: string, tail: string)
    requires token != [] && !IsSpace(token[0])
    ensures SkipSpace(" " + (token + tail)) == token + tail
  {
    assert (" " + (token + tail))[1..] == token + tail;
    assert (token + tail)[0] == token[0];
  }

  /** What Join writes is empty or starts with its separating space. */
  lemma JoinDelimited<T>(xs: seq<T>, format: T -> string)
    ensures Delimited(Join(xs, format))
  {
    if xs != [] {
      assert Join(xs, format)[0] == ' ';
    }
  }

  /** Values whose text the converter reads back scan back from what Join writes for them. */
  lemma {:induction false} ScanNumbersJoin<T>(xs: seq<T>, convert: string -> Option<(T, string)>, format: T -> string)
    requires RoundTripsOn(convert, format, xs)
    ensures ScanNumbers(Join(xs, format), |xs|, convert) == xs
  {
    if xs != [] {
      assert RoundTripsAt(convert, format, xs[0]);
      assert RoundTripsOn(convert, format, xs[1..]) by {
        forall x | x in xs[1..] ensures x in xs {
          var i :| 0 <= i < |xs[1..]| && xs[1..][i] == x;
          assert xs[i + 1] == x;
        }
      }
      var tail := Join(xs[1..], format);
      var token := format(xs[0]);
      assert Join(xs, format) == " " + (token + tail);
      SkipOneSpace(token, tail);
      JoinDelimited(xs[1..], format);
      assert convert(token + tail) == Some((xs[0], tail));
      ScanNumbersJoin(xs[1..], convert, format);
    }
  }

  /** The " =" after a field name matches itself and leaves the values. */
  lemma EqualsMatches(values: string)
    ensures MatchLiteral(" =", " =" + values) == Some(values)
  {
    assert SkipSpace(" =" + values) == "=" + values by { assert (" =" + values)[1..] == "=" + values; }
    assert ("=" + values)[1..] == values;
  }

  /** The field name and its " =" match themselves and leave the values. */
  lemma NameMatches(name: string, values: string)
    requires Word(name)
    ensures MatchLiteral(name + " =", name + " =" + values) == Some(values)
  {
    assert name + " =" + values == name + (" =" + values);
    MatchLiteralSelf(name, " =", " =" + values);
    EqualsMatches(values);
  }

  /** Scanning a written field line with its own name and count yields the written values. */
  lemma FieldLineRoundTrip<T>(name: string, xs: seq<T>, convert: string -> Option<(T, string)>, format: T -> string)
    requires RoundTripsOn(convert, format, xs)
    requires Word(name)
    ensures ScanField(FieldLine(name, xs, format), name, |xs|, convert) == xs
  {
    NameMatches(name, Join(xs, format));
    ScanNumbersJoin(xs, convert, format);
  }
}
