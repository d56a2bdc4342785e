/** Searching the command history: the search text is escaped and wrapped in `%` for a LIKE
    pattern whose escape character is the backslash. */
module LikeSearch {
  import opened Text

  /** Three replacements, one after the other. */
  function EscapeLike(text: string): string
  {
    Replace(Replace(Replace(text, "\\", "\\\\"), "%", "\\%"), "_", "\\_")
  }

  predicate IsSpecial(c: char) { c == '\\' || c == '%' || c == '_' }

  function EscapeChar(c: char): string
  {
    if IsSpecial(c) then ['\\', c] else [c]
  }

  function EscapeEach(text: string): string
  {
    if text == "" then "" else EscapeChar(text[0]) + EscapeEach(text[1..])
  }

  /** LIKE ignores the case of ASCII letters. */
  function Fold(c: char): char
  {
    if 'A' <= c <= 'Z' then c + 32 as char else c
  }

  /** The LIKE operator of SQLite with ESCAPE '\'. */
  predicate Like(pattern: string, text: string)
    decreases |pattern| + |text|
  {
    if pattern == "" then text == ""
    else if pattern[0] == '%' then Like(pattern[1..], text) || (text != "" && Like(pattern, text[1..]))
    else if pattern[0] == '_' then text != "" && Like(pattern[1..], text[1..])
    else if pattern[0] == '\\' then
      |pattern| >= 2 && text != "" && Fold(pattern[1]) == Fold(text[0]) && Like(pattern[2..], text[1..])
    else text != "" && Fold(pattern[0]) == Fold(text[0]) && Like(pattern[1..], text[1..])
  }

  /** Equal up to ASCII case, as far as the needle goes. */
  predicate StartsWith(text: string, needle: string)
  {
    |needle| <= |text| && forall k :: 0 <= k < |needle| ==> Fold(text[k]) == Fold(needle[k])
  }

  predicate Contains(text: string, needle: string)
  {
    exists i :: 0 <= i <= |text| && StartsWith(text[i..], needle)
  }

  /** One replacement of a character works character by character. */
  function ReplaceChar(text: string, c: char, insert: string): string
  {
    if text == "" then "" else (if text[0] == c then insert else [text[0]]) + ReplaceChar(text[1..], c, insert)
  }

  lemma {:induction false} ReplaceIsPerChar(text: string, c: char, insert: string)
    ensures Replace(text, [c], insert) == ReplaceChar(text, c, insert)
  {
    if text != "" {
      assert [c] <= text <==> text[0] == c;
      ReplaceIsPerChar(text[1..], c, insert);
    }
  }

  lemma {:induction false} ReplaceConcat(a: string, b: string, c: char, insert: string)
    ensures ReplaceChar(a + b, c, insert) == ReplaceChar(a, c, insert) + ReplaceChar(b, c, insert)
  {
    if a == "" {
      assert a + b == b;
    } else {
      assert (a + b)[1..] == a[1..] + b;
      ReplaceConcat(a[1..], b, c, insert);
    }
  }

  function ThreeReplaces(text: string): string
  {
    ReplaceChar(ReplaceChar(ReplaceChar(text, '\\', "\\\\"), '%', "\\%"), '_', "\\_")
  }

  lemma ThreeReplacesOfChar(c: char)
    ensures ThreeReplaces([c]) == EscapeChar(c)
  {
    ReplaceOne(c, '\\', "\\\\");
    var first := ReplaceChar([c], '\\', "\\\\");
    if c == '\\' {
      ReplaceTwo('\\', '\\', '%', "\\%");
      ReplaceTwo('\\', '\\', '_', "\\_");
    } else {
      ReplaceOne(c, '%', "\\%");
      ReplaceOne(c, '_', "\\_");
      if c == '%' {
        ReplaceTwo('\\', '%', '_', "\\_");
      }
    }
  }

  lemma ReplaceOne(c: char, what: char, insert: string)
    ensures ReplaceChar([c], what, insert) == if c == what then insert else [c]
  {
  }

  lemma ReplaceTwo(a: char, b: char, what: char, insert: string)
    requires a != what && b != what
    ensures ReplaceChar([a, b], what, insert) == [a, b]
  {
    assert [a, b][1..] == [b];
    ReplaceOne(b, what, insert);
  }

  /** The three replacements in this order escape every special character exactly once. */
  lemma ReplacesEscapeEach(text: string)
    ensures EscapeLike(text) == EscapeEach(text)
  {
    ReplaceIsPerChar(text, '\\', "\\\\");
    ReplaceIsPerChar(ReplaceChar(text, '\\', "\\\\"), '%', "\\%");
    ReplaceIsPerChar(ReplaceChar(ReplaceChar(text, '\\', "\\\\"), '%', "\\%"), '_', "\\_");
    ThreeIsEach(text);
  }

  lemma {:induction false} ThreeIsEach(text: string)
    ensures ThreeReplaces(text) == EscapeEach(text)
  {
    if text != "" {
      var head, tail := [text[0]], text[1..];
      assert text == head + tail;
      ReplaceConcat(head, tail, '\\', "\\\\");
      ReplaceConcat(ReplaceChar(head, '\\', "\\\\"), ReplaceChar(tail, '\\', "\\\\"), '%', "\\%");
      ReplaceConcat(ReplaceChar(ReplaceChar(head, '\\', "\\\\"), '%', "\\%"),
                    ReplaceChar(ReplaceChar(tail, '\\', "\\\\"), '%', "\\%"), '_', "\\_");
      ThreeReplacesOfChar(text[0]);
      ThreeIsEach(tail);
    }
  }

  lemma {:induction false} PercentMatchesAll(text: string)
    ensures Like("%", text)
    decreases |text|
  {
    if text != "" {
      PercentMatchesAll(text[1..]);
    } else {
      assert "%"[1..] == "";
    }
  }

  /** An escaped text before a final `%` matches exactly the texts that start with it. */
  lemma {:induction false} EscapedMatchesPrefix(needle: string, text: string)
    ensures Like(EscapeEach(needle) + "%", text) <==> StartsWith(text, needle)
    decreases |needle|
  {
    var pattern := EscapeEach(needle) + "%";
    if needle == "" {
      assert pattern == "%";
      PercentMatchesAll(text);
    } else if text != "" {
      var rest := EscapeEach(needle[1..]) + "%";
      assert pattern == EscapeChar(needle[0]) + rest;
      EscapedMatchesPrefix(needle[1..], text[1..]);
      StepMatches(needle, text);
      if IsSpecial(needle[0]) {
        assert pattern[0] == '\\' && pattern[1] == needle[0] && pattern[2..] == rest;
      } else {
        assert pattern[0] == needle[0] && pattern[1..] == rest;
      }
    } else {
      assert pattern == EscapeChar(needle[0]) + (EscapeEach(needle[1..]) + "%");
      assert pattern[0] != '%';
    }
  }

  lemma StepMatches(needle: string, text: string)
    requires needle != "" && text != ""
    ensures StartsWith(text, needle) <==> Fold(text[0]) == Fold(needle[0]) && StartsWith(text[1..], needle[1..])
  {
  }

  /** A search finds exactly the commands that contain the search text literally, up to ASCII
      case, whatever backslashes, percents and underscores it holds. */
  lemma SearchIsContains(search: string, command: string)
    ensures Like("%" + EscapeLike(search) + "%", command) <==> Contains(command, search)
  {
    ReplacesEscapeEach(search);
    SearchFrom(search, command);
  }

  lemma {:induction false} SearchFrom(needle: string, text: string)
    ensures Like("%" + EscapeEach(needle) + "%", text) <==> Contains(text, needle)
    decreases |text|
  {
    var pattern := "%" + EscapeEach(needle) + "%";
    assert pattern[1..] == EscapeEach(needle) + "%";
    EscapedMatchesPrefix(needle, text);
    if text != "" {
      SearchFrom(needle, text[1..]);
      ContainsStep(text, needle);
    } else {
      assert text[0..] == text;
    }
  }

  lemma ContainsStep(text: string, needle: string)
    requires text != ""
    ensures Contains(text, needle) <==> StartsWith(text, needle) || Contains(text[1..], needle)
  {
    assert text[0..] == text;
    forall i | 0 < i <= |text|
      ensures text[i..] == text[1..][i - 1..]
    {
    }
    if Contains(text, needle) && !StartsWith(text, needle) {
      var i :| 0 <= i <= |text| && StartsWith(text[i..], needle);
      assert StartsWith(text[1..][i - 1..], needle);
    }
    if Contains(text[1..], needle) {
      var i :| 0 <= i <= |text[1..]| && StartsWith(text[1..][i..], needle);
      assert StartsWith(text[i + 1..], needle);
    }
  }
}
