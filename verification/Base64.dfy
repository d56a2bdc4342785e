/** The hand-written base64 of host keys: no padding is written, and padding is ignored. Shifts,
    masks and disjunctions of disjoint bits are written as arithmetic. */
module Base64 {
  import opened Values

  type Byte = x: nat | x < 256

  /** The standard alphabet, by its ranges. */
  function Letter(v: nat): char
    requires v < 64
  {
    if v < 26 then 'A' + v as char
    else if v < 52 then 'a' + (v - 26) as char
    else if v < 62 then '0' + (v - 52) as char
    else if v == 62 then '+'
    else '/'
  }

  /** The position of a letter in the alphabet. */
  function Position(c: char): (r: Option<nat>)
    ensures r.Some? ==> r.value < 64 && Letter(r.value) == c
  {
    if 'A' <= c <= 'Z' then Some((c - 'A') as nat)
    else if 'a' <= c <= 'z' then Some(26 + (c - 'a') as nat)
    else if '0' <= c <= '9' then Some(52 + (c - '0') as nat)
    else if c == '+' then Some(62)
    else if c == '/' then Some(63)
    else None
  }

  lemma LetterPosition(v: nat)
    requires v < 64
    ensures Position(Letter(v)) == Some(v) && Letter(v) != '='
  {
  }

  const UPPER := "ABCDEFGHIJKLMNOPQRSTUVWXYZ"
  const LOWER := "abcdefghijklmnopqrstuvwxyz"
  const DIGITS := "0123456789+/"

  /** The letters are those of the standard alphabet, in its order (Table 1 of RFC 4648). */
  lemma LettersAreTheAlphabet(v: nat)
    requires v < 64
    ensures |UPPER + LOWER + DIGITS| == 64 && Letter(v) == (UPPER + LOWER + DIGITS)[v]
  {
  }

  // ---------- digit sequences ----------

  /** The number written by `start` followed by the digits, most significant first. */
  function Horner(start: nat, digits: seq<nat>, base: nat): nat
    decreases |digits|
  {
    if digits == [] then start else Horner(start * base + digits[0], digits[1..], base)
  }

  predicate AreDigits(digits: seq<nat>, base: nat)
  {
    forall i :: 0 <= i < |digits| ==> digits[i] < base
  }

  /** Equally long digit sequences that write the same number are the same. */
  lemma {:induction false} HornerIsInjective(x: nat, a: seq<nat>, y: nat, b: seq<nat>, base: nat)
    requires |a| == |b| && AreDigits(a, base) && AreDigits(b, base)
    requires Horner(x, a, base) == Horner(y, b, base)
    ensures x == y && a == b
    decreases |a|
  {
    if a != [] {
      HornerIsInjective(x * base + a[0], a[1..], y * base + b[0], b[1..], base);
      EqualParts(x, a[0], y, b[0], base);
      assert a == [a[0]] + a[1..] && b == [b[0]] + b[1..];
    }
  }

  lemma EqualParts(x: nat, u: nat, y: nat, v: nat, base: nat)
    requires u < base && v < base && x * base + u == y * base + v
    ensures x == y && u == v
  {
    var gap := y - x;
    assert gap * base == u - v;
  }

  /** The values of the letters of a text. */
  function Sextets(text: string): (r: seq<nat>)
    requires AreLetters(text)
    ensures |r| == |text| && AreDigits(r, 64)
  {
    if text == "" then [] else [Position(text[0]).value] + Sextets(text[1..])
  }

  predicate AreLetters(text: string)
  {
    forall c :: c in text ==> Position(c).Some?
  }

  // ---------- decoding ----------

  /** The output, the bits that are not yet output, and how many they are. */
  datatype Decoder = Decoder(output: seq<Byte>, accum: nat, bits: nat)

  const FRESH := Decoder([], 0, 0)

  function TwoTo(n: nat): (r: nat)
    ensures r > 0
  {
    if n == 0 then 1 else 2 * TwoTo(n - 1)
  }

  function Feed(d: Decoder, v: nat): Decoder
  {
    var accum := d.accum * 64 + v;
    var bits := d.bits + 6;
    if bits >= 8
    then Decoder(d.output + [accum / TwoTo(bits - 8) % 256], accum % TwoTo(bits - 8), bits - 8)
    else Decoder(d.output, accum, bits)
  }

  function Scan(d: Decoder, text: string): Option<Decoder>
    decreases |text|
  {
    if text == "" then Some(d)
    else if Position(text[0]).None? then None
    else Scan(Feed(d, Position(text[0]).value), text[1..])
  }

  function TrimPadding(text: string): (r: string)
    ensures r <= text && (r != "" ==> r[|r| - 1] != '=')
  {
    if text != "" && text[|text| - 1] == '=' then TrimPadding(text[..|text| - 1]) else text
  }

  function Decode(text: string): Option<seq<Byte>>
  {
    match Scan(FRESH, TrimPadding(text))
    case None => None
    case Some(d) => Some(d.output)
  }

  /** The accumulator never holds a whole output byte between letters. */
  predicate Settled(d: Decoder)
  {
    (d.bits == 0 || d.bits == 2 || d.bits == 4 || d.bits == 6) && d.accum < TwoTo(d.bits)
  }

  /** The number read so far. */
  function Total(d: Decoder): nat { Horner(0, d.output, 256) * TwoTo(d.bits) + d.accum }

  lemma SmallPowers()
    ensures TwoTo(0) == 1 && TwoTo(2) == 4 && TwoTo(4) == 16 && TwoTo(6) == 64
  {
  }

  lemma {:induction false} HornerOfAppend(start: nat, digits: seq<nat>, last: nat, base: nat)
    ensures Horner(start, digits + [last], base) == Horner(start, digits, base) * base + last
    decreases |digits|
  {
    if digits == [] {
      assert digits + [last] == [last];
    } else {
      assert (digits + [last])[1..] == digits[1..] + [last];
      HornerOfAppend(start * base + digits[0], digits[1..], last, base);
    }
  }

  lemma FullByte(n: nat, a: nat, v: nat, high: nat, low: nat)
    requires low == 1 || low == 4 || low == 16
    requires high == 4 * low && a < high && v < 64
    ensures var accum := a * 64 + v;
            && accum / low < 256 && accum < 4096
            && (n * 256 + accum / low) * low + accum % low == (n * high + a) * 64 + v
  {
  }

  lemma FeedFirst(d: Decoder, v: nat)
    requires Settled(d) && d.bits == 0 && v < 64
    ensures Feed(d, v) == Decoder(d.output, v, 6)
    ensures Total(Feed(d, v)) == Total(d) * 64 + v
  {
    SmallPowers();
    var n := Horner(0, d.output, 256);
    assert Total(d) == n * 1 && Total(Feed(d, v)) == n * 64 + v;
  }

  lemma FeedNext(d: Decoder, v: nat, low: nat)
    requires Settled(d) && d.bits > 0 && v < 64 && low == TwoTo(d.bits - 2)
    ensures d.accum * 64 + v < 4096 && (d.accum * 64 + v) / low < 256
    ensures Feed(d, v) == Decoder(d.output + [(d.accum * 64 + v) / low], (d.accum * 64 + v) % low, d.bits - 2)
    ensures Total(Feed(d, v)) == Total(d) * 64 + v
  {
    SmallPowers();
    var accum := d.accum * 64 + v;
    FullByte(Horner(0, d.output, 256), d.accum, v, TwoTo(d.bits), low);
    HornerOfAppend(0, d.output, accum / low, 256);
  }

  /** One letter: twelve bits always suffice, nothing is lost, and no output byte is cut. */
  lemma FeedKeepsTotal(d: Decoder, v: nat)
    requires Settled(d) && v < 64
    ensures d.accum * 64 + v < 4096
    ensures Settled(Feed(d, v)) && Total(Feed(d, v)) == Total(d) * 64 + v
  {
    SmallPowers();
    if d.bits == 0 {
      FeedFirst(d, v);
    } else {
      FeedNext(d, v, TwoTo(d.bits - 2));
    }
  }

  /** What decoding computes: letters only, eight bits a byte, and the same number. */
  lemma {:induction false} ScanMeans(d: Decoder, text: string)
    requires Settled(d)
    ensures Scan(d, text).Some? <==> AreLetters(text)
    ensures Scan(d, text).Some? ==>
              && Settled(Scan(d, text).value)
              && Total(Scan(d, text).value) == Horner(Total(d), Sextets(text), 64)
    decreases |text|
  {
    if text != "" {
      assert text[0] in text;
      assert AreLetters(text) <==> Position(text[0]).Some? && AreLetters(text[1..]);
      if Position(text[0]).Some? {
        FeedKeepsTotal(d, Position(text[0]).value);
        ScanMeans(Feed(d, Position(text[0]).value), text[1..]);
      }
    }
  }

  /** Every letter adds six bits, and eight bits leave with every byte. */
  lemma {:induction false} ScanLength(d: Decoder, text: string)
    requires d.bits < 8
    ensures Scan(d, text).Some? ==>
              && Scan(d, text).value.bits < 8
              && 8 * |Scan(d, text).value.output| + Scan(d, text).value.bits == 8 * |d.output| + d.bits + 6 * |text|
    decreases |text|
  {
    if text != "" && Position(text[0]).Some? {
      ScanLength(Feed(d, Position(text[0]).value), text[1..]);
    }
  }

  /** The loop never needs more than twelve bits, so its machine words cannot overflow. */
  method Base64Decode(text: string) returns (r: Option<seq<Byte>>)
    ensures r == Decode(text)
  {
    var input := TrimPadding(text);
    var output: seq<Byte> := [];
    var accum: nat, bits: nat := 0, 0;
    SmallPowers();
    for i := 0 to |input|
      invariant Settled(Decoder(output, accum, bits))
      invariant Scan(Decoder(output, accum, bits), input[i..]) == Scan(FRESH, input)
    {
      assert input[i..][0] == input[i] && input[i..][1..] == input[i + 1..];
      var v := Position(input[i]);
      if v.None? {
        return None;
      }
      FeedKeepsTotal(Decoder(output, accum, bits), v.value);
      accum := accum * 64 + v.value;
      bits := bits + 6;
      assert accum < 4096;
      if bits >= 8 {
        bits := bits - 8;
        output := output + [accum / TwoTo(bits) % 256];
        accum := accum % TwoTo(bits);
      }
    }
    return Some(output);
  }

  // ---------- encoding ----------

  /** The chunk as a number of 24 bits; missing bytes are zero. */
  function Triple(chunk: seq<Byte>): nat
    requires 1 <= |chunk| <= 3
  {
    var b0: nat := chunk[0];
    var b1: nat := if |chunk| > 1 then chunk[1] else 0;
    var b2: nat := if |chunk| > 2 then chunk[2] else 0;
    b0 * 65536 + b1 * 256 + b2
  }

  /** Three bytes give four groups of six bits, two give three, one gives two. */
  function ChunkSextets(chunk: seq<Byte>): (r: seq<nat>)
    requires 1 <= |chunk| <= 3
    ensures |r| == |chunk| + 1 && AreDigits(r, 64)
  {
    var triple := Triple(chunk);
    [triple / 262144 % 64, triple / 4096 % 64]
    + (if |chunk| > 1 then [triple / 64 % 64] else [])
    + (if |chunk| > 2 then [triple % 64] else [])
  }

  function Spell(sextets: seq<nat>): string
    requires AreDigits(sextets, 64)
  {
    if sextets == [] then "" else [Letter(sextets[0])] + Spell(sextets[1..])
  }

  function EncodeChunk(chunk: seq<Byte>): string
    requires 1 <= |chunk| <= 3
  {
    Spell(ChunkSextets(chunk))
  }

  function Encode(input: seq<Byte>): string
    decreases |input|
  {
    if |input| > 3 then EncodeChunk(input[..3]) + Encode(input[3..])
    else if input == [] then ""
    else EncodeChunk(input)
  }

  method Base64EncodeNoPad(input: seq<Byte>) returns (out: string)
    ensures out == Encode(input)
  {
    out := "";
    var i := 0;
    while i < |input|
      invariant 0 <= i <= |input|
      invariant out + Encode(input[i..]) == Encode(input)
    {
      var end := if i + 3 < |input| then i + 3 else |input|;
      assert i + 3 < |input| ==> input[i..][..3] == input[i..end] && input[i..][3..] == input[end..];
      assert end == |input| ==> input[i..] == input[i..end] && input[end..] == [];
      out := out + EncodeChunk(input[i..end]);
      i := end;
    }
  }

  /** The bits a text has beyond those of its bytes. */
  function Spare(n: nat): nat
  {
    if n % 3 == 0 then 0 else if n % 3 == 1 then 4 else 2
  }

  lemma {:induction false} SpellMeans(sextets: seq<nat>)
    requires AreDigits(sextets, 64)
    ensures AreLetters(Spell(sextets)) && Sextets(Spell(sextets)) == sextets
    ensures '=' !in Spell(sextets)
  {
    if sextets != [] {
      LetterPosition(sextets[0]);
      SpellMeans(sextets[1..]);
      assert Spell(sextets)[1..] == Spell(sextets[1..]);
    }
  }

  lemma HornerOfTwo(start: nat, a: nat, b: nat, base: nat)
    ensures Horner(start, [a, b], base) == (start * base + a) * base + b
  {
    assert [a, b][1..] == [b];
    assert Horner(start * base + a, [b], base) == (start * base + a) * base + b;
  }

  /** The groups of six bits of a number of 24 bits. */
  lemma Groups(t: nat, s0: nat, s1: nat, s2: nat, s3: nat)
    requires t < 16777216
    requires s0 == t / 262144 % 64 && s1 == t / 4096 % 64 && s2 == t / 64 % 64 && s3 == t % 64
    ensures t / 64 == (s0 * 64 + s1) * 64 + s2 && t / 4096 == s0 * 64 + s1
    ensures t == ((s0 * 64 + s1) * 64 + s2) * 64 + s3
  {
    assert t / 4096 == t / 64 / 64 && t / 262144 == t / 4096 / 64;
  }

  lemma OneByte(start: nat, chunk: seq<Byte>)
    requires |chunk| == 1
    ensures Horner(start, ChunkSextets(chunk), 64) == Horner(start, chunk, 256) * 16
  {
    var s := ChunkSextets(chunk);
    var t := Triple(chunk);
    Groups(t, s[0], s[1], t / 64 % 64, t % 64);
    HornerOfTwo(start, s[0], s[1], 64);
    assert s == [s[0], s[1]];
    assert Horner(start, chunk, 256) == start * 256 + chunk[0];
  }

  lemma TwoBytes(start: nat, chunk: seq<Byte>)
    requires |chunk| == 2
    ensures Horner(start, ChunkSextets(chunk), 64) == Horner(start, chunk, 256) * 4
  {
    var s := ChunkSextets(chunk);
    var t := Triple(chunk);
    Groups(t, s[0], s[1], s[2], t % 64);
    HornerOfTwo(start, s[0], s[1], 64);
    HornerOfAppend(start, [s[0], s[1]], s[2], 64);
    assert s == [s[0], s[1]] + [s[2]] && chunk == [chunk[0], chunk[1]];
    HornerOfTwo(start, chunk[0], chunk[1], 256);
  }

  lemma ThreeBytes(start: nat, chunk: seq<Byte>)
    requires |chunk| == 3
    ensures Horner(start, ChunkSextets(chunk), 64) == Horner(start, chunk, 256)
  {
    var s := ChunkSextets(chunk);
    Groups(Triple(chunk), s[0], s[1], s[2], s[3]);
    HornerOfTwo(start, s[0], s[1], 64);
    HornerOfAppend(start, [s[0], s[1]], s[2], 64);
    HornerOfAppend(start, [s[0], s[1]] + [s[2]], s[3], 64);
    assert s == [s[0], s[1]] + [s[2]] + [s[3]] && chunk == [chunk[0], chunk[1]] + [chunk[2]];
    HornerOfTwo(start, chunk[0], chunk[1], 256);
    HornerOfAppend(start, [chunk[0], chunk[1]], chunk[2], 256);
  }

  lemma {:induction false} HornerOfConcat(start: nat, a: seq<nat>, b: seq<nat>, base: nat)
    ensures Horner(start, a + b, base) == Horner(Horner(start, a, base), b, base)
    decreases |a|
  {
    if a == [] {
      assert a + b == b;
    } else {
      assert (a + b)[1..] == a[1..] + b;
      HornerOfConcat(start * base + a[0], a[1..], b, base);
    }
  }

  /** The groups of six bits of the whole input. */
  function InputSextets(input: seq<Byte>): (r: seq<nat>)
    ensures AreDigits(r, 64)
    decreases |input|
  {
    if |input| > 3 then ChunkSextets(input[..3]) + InputSextets(input[3..])
    else if input == [] then []
    else ChunkSextets(input)
  }

  lemma {:induction false} SpellConcat(a: seq<nat>, b: seq<nat>)
    requires AreDigits(a, 64) && AreDigits(b, 64)
    ensures Spell(a + b) == Spell(a) + Spell(b)
    decreases |a|
  {
    if a == [] {
      assert a + b == b;
    } else {
      assert (a + b)[0] == a[0] && (a + b)[1..] == a[1..] + b;
      SpellConcat(a[1..], b);
    }
  }

  lemma {:induction false} EncodeSpells(input: seq<Byte>)
    ensures Encode(input) == Spell(InputSextets(input))
    decreases |input|
  {
    if |input| > 3 {
      SpellConcat(ChunkSextets(input[..3]), InputSextets(input[3..]));
      EncodeSpells(input[3..]);
    }
  }

  /** What encoding computes: the same number, filled up with zero bits. */
  lemma {:induction false} EncodeMeans(start: nat, input: seq<Byte>)
    ensures Horner(start, InputSextets(input), 64) == Horner(start, input, 256) * TwoTo(Spare(|input|))
    decreases |input|
  {
    SmallPowers();
    if |input| > 3 {
      var head, tail := input[..3], input[3..];
      assert Spare(|tail|) == Spare(|input|);
      ThreeBytes(start, head);
      EncodeMeans(Horner(start, head, 256), tail);
      HornerOfConcat(start, ChunkSextets(head), InputSextets(tail), 64);
      HornerOfConcat(start, head, tail, 256);
      assert input == head + tail;
    } else if |input| == 3 {
      ThreeBytes(start, input);
    } else if |input| == 2 {
      TwoBytes(start, input);
    } else if |input| == 1 {
      OneByte(start, input);
    }
  }

  lemma TrimKeeps(text: string)
    requires '=' !in text
    ensures TrimPadding(text) == text
  {
  }

  lemma EncodedText(input: seq<Byte>)
    ensures '=' !in Encode(input) && AreLetters(Encode(input))
    ensures Horner(0, Sextets(Encode(input)), 64) == Horner(0, input, 256) * TwoTo(Spare(|input|))
  {
    EncodeSpells(input);
    SpellMeans(InputSextets(input));
    EncodeMeans(0, input);
  }

  lemma EncodedLength(input: seq<Byte>)
    ensures 6 * |Encode(input)| == 8 * |input| + Spare(|input|)
    decreases |input|
  {
    EncodeSpells(input);
    SpellMeans(InputSextets(input));
    assert |Sextets(Encode(input))| == |Encode(input)|;
    GroupCount(input);
  }

  lemma {:induction false} GroupCount(input: seq<Byte>)
    ensures 6 * |InputSextets(input)| == 8 * |input| + Spare(|input|)
    decreases |input|
  {
    if |input| > 3 {
      GroupCount(input[3..]);
    }
  }

  lemma ScannedText(text: string)
    requires AreLetters(text)
    ensures Scan(FRESH, text).Some? && Settled(Scan(FRESH, text).value)
    ensures Total(Scan(FRESH, text).value) == Horner(0, Sextets(text), 64)
  {
    FreshIsZero();
    ScanMeans(FRESH, text);
  }

  lemma FreshIsZero()
    ensures Settled(FRESH) && Total(FRESH) == 0
  {
  }

  /** Decoding an encoding gives the bytes back, and no bits are left over but zeros. */
  lemma DecodeUndoesEncode(input: seq<Byte>)
    ensures Decode(Encode(input)) == Some(input)
    ensures Scan(FRESH, Encode(input)) == Some(Decoder(input, 0, Spare(|input|)))
  {
    EncodedText(input);
    ScannedText(Encode(input));
    ScanLength(FRESH, Encode(input));
    EncodedLength(input);
    TrimKeeps(Encode(input));
    SameBytes(Scan(FRESH, Encode(input)).value, input);
  }

  lemma SameBytes(d: Decoder, input: seq<Byte>)
    requires Settled(d) && 8 * |d.output| + d.bits == 8 * |input| + Spare(|input|)
    requires Total(d) == Horner(0, input, 256) * TwoTo(Spare(|input|))
    ensures d == Decoder(input, 0, Spare(|input|))
  {
    assert |d.output| == |input| && d.bits == Spare(|input|);
    EqualParts(Horner(0, d.output, 256), d.accum, Horner(0, input, 256), 0, TwoTo(d.bits));
    HornerIsInjective(0, d.output, 0, input, 256);
  }

  /** How long the output is. */
  lemma DecodedLength(text: string)
    requires Decode(text).Some?
    ensures |Decode(text).value| == 6 * |TrimPadding(text)| / 8
  {
    ScanLength(FRESH, TrimPadding(text));
  }

  /** Encoding the decoded bytes gives an unpadded text back exactly when no bits were dropped:
      its length is possible for whole bytes and the bits left over are zero. */
  lemma EncodeUndoesDecode(text: string)
    requires Decode(text).Some? && TrimPadding(text) == text
    ensures Encode(Decode(text).value) == text <==> |text| % 4 != 1 && Scan(FRESH, text).value.accum == 0
  {
    var d := Scan(FRESH, text).value;
    DecodeUndoesEncode(d.output);
    LeftOver(text);
    if |text| % 4 != 1 && d.accum == 0 {
      ReadLetters(text);
      SameLetters(text, d.output);
    }
  }

  /** Six bits are left over exactly when the length is one more than a multiple of four. */
  lemma LeftOver(text: string)
    requires Scan(FRESH, text).Some?
    ensures var d := Scan(FRESH, text).value;
            && (|text| % 4 != 1 <==> d.bits == Spare(|d.output|))
            && (d.bits == Spare(|d.output|) ==> |Encode(d.output)| == |text|)
  {
    var d := Scan(FRESH, text).value;
    ScanLength(FRESH, text);
    EncodedLength(d.output);
    LeftOverBits(|text|, |d.output|, d.bits);
  }

  lemma LeftOverBits(letters: nat, bytes: nat, bits: nat)
    requires 8 * bytes + bits == 6 * letters && bits < 8
    ensures letters % 4 != 1 <==> bits == Spare(bytes)
  {
    var quads, rest := letters / 4, letters % 4;
    var more := bytes - 3 * quads;
    assert 8 * more + bits == 6 * rest;
    assert 0 <= more <= 2 && bytes % 3 == more;
  }

  lemma ReadLetters(text: string)
    requires Scan(FRESH, text).Some? && |text| % 4 != 1 && Scan(FRESH, text).value.accum == 0
    ensures var bytes := Scan(FRESH, text).value.output;
            AreLetters(text) && Horner(0, Sextets(text), 64) == Horner(0, bytes, 256) * TwoTo(Spare(|bytes|))
  {
    FreshIsZero();
    ScanMeans(FRESH, text);
    LeftOver(text);
  }

  lemma SameLetters(text: string, bytes: seq<Byte>)
    requires AreLetters(text) && |Encode(bytes)| == |text|
    requires Horner(0, Sextets(text), 64) == Horner(0, bytes, 256) * TwoTo(Spare(|bytes|))
    ensures Encode(bytes) == text
  {
    var again := Encode(bytes);
    EncodedText(bytes);
    HornerIsInjective(0, Sextets(text), 0, Sextets(again), 64);
    SpellOfSextets(text);
    SpellOfSextets(again);
  }

  lemma {:induction false} SpellOfSextets(text: string)
    requires AreLetters(text)
    ensures Spell(Sextets(text)) == text
    decreases |text|
  {
    if text != "" {
      assert text[0] in text;
      SpellOfSextets(text[1..]);
      assert [text[0]] + text[1..] == text;
    }
  }
}
