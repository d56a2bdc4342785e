/** The string operations the engine takes from its standard library: substring search,
    splitting, replacing, and decimal numbers. */
module Text {
  import opened Values

  /** Index of the first occurrence of a non-empty pattern. */
  function Find(text: string, pattern: string): (r: Option<nat>)
    requires pattern != ""
    ensures r.Some? ==> r.value + |pattern| <= |text|
  {
    if pattern <= text then Some(0)
    else if text == "" then None
    else
      match Find(text[1..], pattern)
      case None => None
      case Some(i) => Some(i + 1)
  }

  /** The pattern occurs where Find says, and nowhere before. */
  lemma {:induction false} FindIsFirst(text: string, pattern: string, i: nat)
    requires pattern != "" && i <= |text|
    ensures Find(text, pattern) == Some(i) ==> pattern <= text[i..]
    ensures pattern <= text[i..] ==> Find(text, pattern).Some? && Find(text, pattern).value <= i
  {
    if i == 0 {
      assert text[0..] == text;
    } else if !(pattern <= text) {
      assert text[i..] == text[1..][i - 1..];
      FindIsFirst(text[1..], pattern, i - 1);
    }
  }

  /** A single character is found where it first stands. */
  lemma {:induction false} FindChar(prefix: string, c: char, rest: string)
    requires c !in prefix
    ensures Find(prefix + [c] + rest, [c]) == Some(|prefix|)
  {
    var text := prefix + [c] + rest;
    if prefix == "" {
      assert [c] <= text;
    } else {
      assert text[0] == prefix[0] && prefix[0] in prefix;
      assert text[1..] == prefix[1..] + [c] + rest;
      FindChar(prefix[1..], c, rest);
    }
  }

  /** What was not found before a text is found where the text begins with it. The pattern is one
      that no part of itself can start. */
  lemma {:induction false} FindAfter(before: string, pattern: string, rest: string)
    requires |pattern| == 2 && pattern[0] != pattern[1] && Find(before, pattern).None?
    ensures Find(before + pattern + rest, pattern) == Some(|before|)
  {
    var text := before + pattern + rest;
    if before == "" {
      assert text == pattern + rest;
    } else {
      assert text[1..] == before[1..] + pattern + rest;
      assert text[0] == before[0] && text[1] == if |before| > 1 then before[1] else pattern[0];
      assert |before| > 1 && pattern <= text ==> pattern <= before;
      FindAfter(before[1..], pattern, rest);
    }
  }

  /** Non-overlapping replacement from left to right. */
  function Replace(text: string, pattern: string, insert: string): string
    requires pattern != ""
  {
    if text == "" then ""
    else if pattern <= text then insert + Replace(text[|pattern|..], pattern, insert)
    else [text[0]] + Replace(text[1..], pattern, insert)
  }

  /** The pieces between separators; n separators give n + 1 pieces. */
  function Split(text: string, separator: char): (r: seq<string>)
    ensures r != []
    ensures forall i :: 0 <= i < |r| ==> separator !in r[i]
  {
    if text == "" then [""]
    else if text[0] == separator then [""] + Split(text[1..], separator)
    else
      var rest := Split(text[1..], separator);
      [[text[0]] + rest[0]] + rest[1..]
  }

  function Join(parts: seq<string>, separator: string): string
    requires parts != []
  {
    if |parts| == 1 then parts[0] else parts[0] + separator + Join(parts[1..], separator)
  }

  lemma {:induction false} SplitSingle(text: string, separator: char)
    requires separator !in text
    ensures Split(text, separator) == [text]
  {
    if text != "" {
      assert text[0] in text;
      SplitSingle(text[1..], separator);
      assert [text[0]] + text[1..] == text;
    }
  }

  lemma {:induction false} SplitAfterPiece(piece: string, rest: string, separator: char)
    requires separator !in piece
    ensures Split(piece + [separator] + rest, separator) == [piece] + Split(rest, separator)
  {
    if piece == "" {
      assert piece + [separator] + rest == [separator] + rest;
    } else {
      var text := piece + [separator] + rest;
      assert text[0] == piece[0] && piece[0] in piece;
      assert text[1..] == piece[1..] + [separator] + rest;
      SplitAfterPiece(piece[1..], rest, separator);
      assert [piece[0]] + piece[1..] == piece;
    }
  }

  predicate IsDigit(c: char) { '0' <= c <= '9' }

  function Digit(n: nat): char
    requires n < 10
  {
    '0' + n as char
  }

  function DigitValue(c: char): nat
    requires IsDigit(c)
  {
    (c - '0') as nat
  }

  /** The decimal printing of a natural number. */
  function Decimal(n: nat): (r: string)
    ensures r != "" && forall c :: c in r ==> IsDigit(c)
  {
    if n < 10 then [Digit(n)] else Decimal(n / 10) + [Digit(n % 10)]
  }

  function DigitsValue(text: string): nat
    requires forall c :: c in text ==> IsDigit(c)
  {
    if text == "" then 0
    else 10 * DigitsValue(text[..|text| - 1]) + DigitValue(text[|text| - 1])
  }

  lemma {:induction false} DecimalValue(n: nat)
    ensures DigitsValue(Decimal(n)) == n
  {
    var text := Decimal(n);
    if n >= 10 {
      DecimalValue(n / 10);
      assert text[..|text| - 1] == Decimal(n / 10);
    } else {
      assert text[..0] == "";
    }
  }
}
