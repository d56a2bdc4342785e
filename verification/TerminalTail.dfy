/** The stored terminal output keeps its last characters within a byte limit. Text is UTF-8
    (section 3 of RFC 3629), and output arrives in pieces. */
module TerminalTail {
  import opened Values
  import opened Errors

  type Byte = x: nat | x < 256

  /** Unicode scalar values. */
  type Scalar = x: nat | x < 0x11_0000 && !(0xD800 <= x < 0xE000)

  function EncodeScalar(c: Scalar): (r: seq<Byte>)
    ensures 1 <= |r| <= 4 && !IsContinuation(r[0])
    ensures forall i :: 0 < i < |r| ==> IsContinuation(r[i])
  {
    var low: Byte := 0x80 + c % 64;
    if c < 0x80 then [c]
    else if c < 0x800 then [0xC0 + c / 64, low]
    else if c < 0x1_0000 then [0xE0 + c / 4096, 0x80 + c / 64 % 64, low]
    else [0xF0 + c / 262144, 0x80 + c / 4096 % 64, 0x80 + c / 64 % 64, low]
  }

  predicate IsContinuation(b: Byte) { 0x80 <= b < 0xC0 }

  function Utf8(text: seq<Scalar>): (r: seq<Byte>)
    ensures |text| <= |r| <= 4 * |text|
    ensures r != [] ==> !IsContinuation(r[0])
  {
    if text == [] then [] else EncodeScalar(text[0]) + Utf8(text[1..])
  }

  /** An index between two characters. */
  predicate IsBoundary(value: seq<Byte>, i: nat)
    requires i <= |value|
  {
    i == 0 || i == |value| || !IsContinuation(value[i])
  }

  function NextBoundary(value: seq<Byte>, start: nat): (r: nat)
    requires start <= |value|
    ensures start <= r <= |value| && IsBoundary(value, r)
    decreases |value| - start
  {
    if IsBoundary(value, start) then start else NextBoundary(value, start + 1)
  }

  function Tail(value: seq<Byte>, max: nat): seq<Byte>
  {
    if |value| <= max then value else value[NextBoundary(value, |value| - max)..]
  }

  method RetainTail(value: seq<Byte>, max: nat) returns (tail: seq<Byte>)
    ensures tail == Tail(value, max)
  {
    if |value| <= max {
      return value;
    }
    var start := |value| - max;
    while !IsBoundary(value, start)
      invariant start <= |value| && NextBoundary(value, start) == NextBoundary(value, |value| - max)
      decreases |value| - start
    {
      start := start + 1;
    }
    return value[start..];
  }

  /** The longest end of a text that fits. */
  function Kept(text: seq<Scalar>, max: nat): (r: seq<Scalar>)
    ensures |Utf8(r)| <= max
  {
    if |Utf8(text)| <= max then text else Kept(text[1..], max)
  }

  /** The bytes of one character. */
  predicate IsCharacter(c: seq<Byte>)
  {
    c != [] && forall i :: 0 < i < |c| ==> IsContinuation(c[i])
  }

  /** Where the next boundary lies: at the end of the first character or beyond. */
  lemma {:induction false} NextBoundaryMeans(c: seq<Byte>, rest: seq<Byte>, i: nat)
    requires IsCharacter(c) && 0 < i <= |c + rest|
    requires rest != [] ==> !IsContinuation(rest[0])
    ensures NextBoundary(c + rest, i) == if i <= |c| then |c| else |c| + NextBoundary(rest, i - |c|)
    decreases |c + rest| - i
  {
    var value := c + rest;
    if i < |c| {
      assert value[i] == c[i];
      NextBoundaryMeans(c, rest, i + 1);
    } else if i > |c| && !IsBoundary(value, i) {
      assert value[i] == rest[i - |c|];
      NextBoundaryMeans(c, rest, i + 1);
    }
  }

  lemma CutAt(c: seq<Byte>, rest: seq<Byte>, max: nat, i: nat)
    requires |c + rest| > max && i <= |rest|
    requires NextBoundary(c + rest, |c + rest| - max) == |c| + i
    ensures Tail(c + rest, max) == rest[i..]
  {
  }

  /** A text that is too long loses its first character. */
  lemma TailDropsCharacter(c: seq<Byte>, rest: seq<Byte>, max: nat)
    requires IsCharacter(c) && (rest != [] ==> !IsContinuation(rest[0]))
    requires |c + rest| > max
    ensures Tail(c + rest, max) == Tail(rest, max)
  {
    NextBoundaryMeans(c, rest, |c + rest| - max);
    if |rest| <= max {
      CutAt(c, rest, max, 0);
      assert rest[0..] == rest;
    } else {
      CutAt(c, rest, max, NextBoundary(rest, |rest| - max));
    }
  }

  /** Truncating the bytes keeps the longest end of the text that fits: never a broken
      character, and never a character less than fits. */
  lemma {:induction false} TailIsLongest(text: seq<Scalar>, max: nat)
    ensures Tail(Utf8(text), max) == Utf8(Kept(text, max))
    decreases |text|
  {
    if |Utf8(text)| > max {
      TailDropsCharacter(EncodeScalar(text[0]), Utf8(text[1..]), max);
      TailIsLongest(text[1..], max);
    }
  }

  /** The kept text is an end of the text, one more character would not fit, and truncation
      gives up at most three bytes of the limit. */
  lemma {:induction false} KeptIsEnd(text: seq<Scalar>, max: nat) returns (k: nat)
    ensures k <= |text| && Kept(text, max) == text[k..]
    ensures k == 0 <==> |Utf8(text)| <= max
    ensures k > 0 ==> |Utf8(text[k - 1..])| > max && |Utf8(text[k..])| + 3 >= max
    decreases |text|
  {
    if |Utf8(text)| <= max {
      return 0;
    }
    k := KeptIsEnd(text[1..], max);
    if k == 0 {
      assert text[0..] == text;
    } else {
      assert text[1..][k - 1..] == text[k..];
    }
    k := k + 1;
    assert text[1..][k - 1..] == text[k..];
  }

  lemma {:induction false} Utf8Concat(a: seq<Scalar>, b: seq<Scalar>)
    ensures Utf8(a + b) == Utf8(a) + Utf8(b)
    decreases |a|
  {
    if a == [] {
      assert a + b == b;
    } else {
      assert (a + b)[1..] == a[1..] + b;
      Utf8Concat(a[1..], b);
    }
  }

  lemma {:induction false} KeptInSteps(a: seq<Scalar>, b: seq<Scalar>, max: nat)
    ensures Kept(Kept(a, max) + b, max) == Kept(a + b, max)
    decreases |a|
  {
    if |Utf8(a)| > max {
      assert |Utf8(a + b)| > max by {
        Utf8Concat(a, b);
      }
      assert (a + b)[1..] == a[1..] + b;
      KeptInSteps(a[1..], b, max);
    }
  }

  // ---------- the stored history ----------

  const MAX_BYTES := 262144

  /** One session's stored output; no session has no content. */
  class TerminalHistory {
    var content: Option<seq<Byte>>

    constructor (content: Option<seq<Byte>>)
      ensures this.content == content
    {
      this.content := content;
    }

    /** The output comes redacted; redaction may leave nothing. */
    method AppendOutput(redacted: seq<Byte>) returns (r: Result<(), AppError>)
      modifies this
      ensures r == if redacted == [] || old(content).Some? then Ok(()) else Err(NotFound)
      ensures content == if redacted == [] || old(content).None? then old(content)
                         else Some(Tail(old(content).value + redacted, MAX_BYTES))
    {
      if redacted == [] {
        return Ok(());
      }
      if content.None? {
        return Err(NotFound);
      }
      var tail := RetainTail(content.value + redacted, MAX_BYTES);
      content := Some(tail);
      return Ok(());
    }
  }

  function Flatten(pieces: seq<seq<Scalar>>): seq<Scalar>
  {
    if pieces == [] then [] else Flatten(pieces[..|pieces| - 1]) + pieces[|pieces| - 1]
  }

  /** The content after appending one piece after the other to an empty history. */
  function Streamed(pieces: seq<seq<Scalar>>): seq<Byte>
  {
    if pieces == [] then []
    else
      var before, piece := Streamed(pieces[..|pieces| - 1]), Utf8(pieces[|pieces| - 1]);
      if piece == [] then before else Tail(before + piece, MAX_BYTES)
  }

  /** Truncating after every piece gives what truncating all output once would give. */
  lemma {:induction false} StreamingIsTruncatingOnce(pieces: seq<seq<Scalar>>)
    ensures Streamed(pieces) == Tail(Utf8(Flatten(pieces)), MAX_BYTES) == Utf8(Kept(Flatten(pieces), MAX_BYTES))
    decreases |pieces|
  {
    TailIsLongest(Flatten(pieces), MAX_BYTES);
    if pieces != [] {
      var all, piece := Flatten(pieces[..|pieces| - 1]), pieces[|pieces| - 1];
      StreamingIsTruncatingOnce(pieces[..|pieces| - 1]);
      if Utf8(piece) == [] {
        assert all + piece == all;
      } else {
        Utf8Concat(Kept(all, MAX_BYTES), piece);
        TailIsLongest(Kept(all, MAX_BYTES) + piece, MAX_BYTES);
        KeptInSteps(all, piece, MAX_BYTES);
      }
    }
  }
}
