/** Host keys and the known_hosts text: the printer, the parser, and what importing stores. The
    digest of a key is an uninterpreted function. */
module KnownHosts {
  import opened Values
  import opened Text
  import Base64

  datatype Endpoint = Endpoint(host: string, port: nat)

  /** A stored key. Keys recorded on a first connection may lack the key data. */
  datatype Record = Record(fingerprint: string, key: Option<Key>)

  datatype Key = Key(kind: string, data: string)

  type Table = map<Endpoint, Record>

  type Digest = seq<Base64.Byte> -> seq<Base64.Byte>

  // ---------- words ----------

  /** Unicode white space. */
  predicate IsSpace(c: char)
  {
    || '\t' <= c <= '\r' || c == ' ' || c == 0x85 as char || c == 0xA0 as char || c == 0x1680 as char
    || 0x2000 as char <= c <= 0x200A as char || c == 0x2028 as char || c == 0x2029 as char || c == 0x202F as char
    || c == 0x205F as char || c == 0x3000 as char
  }

  predicate IsWord(text: string)
  {
    text != "" && forall c :: c in text ==> !IsSpace(c)
  }

  function WordEnd(text: string): (n: nat)
    ensures n <= |text| && (forall i :: 0 <= i < n ==> !IsSpace(text[i])) && (n < |text| ==> IsSpace(text[n]))
  {
    if text == "" || IsSpace(text[0]) then 0 else 1 + WordEnd(text[1..])
  }

  /** The pieces between white space. */
  function Words(text: string): (r: seq<string>)
    ensures forall i :: 0 <= i < |r| ==> IsWord(r[i])
  {
    if text == "" then []
    else if IsSpace(text[0]) then Words(text[1..])
    else [text[..WordEnd(text)]] + Words(text[WordEnd(text)..])
  }

  lemma WordsAfterWord(word: string, rest: string)
    requires IsWord(word) && (rest != "" ==> IsSpace(rest[0]))
    ensures Words(word + rest) == [word] + Words(rest)
  {
    var text := word + rest;
    assert text[0] == word[0] && word[0] in word;
    WordEndIs(word, rest);
    assert text[..|word|] == word && text[|word|..] == rest;
  }

  lemma {:induction false} WordEndIs(word: string, rest: string)
    requires (forall c :: c in word ==> !IsSpace(c)) && (rest != "" ==> IsSpace(rest[0]))
    ensures WordEnd(word + rest) == |word|
  {
    if word == "" {
      assert word + rest == rest;
    } else {
      assert (word + rest)[0] == word[0] && word[0] in word;
      assert (word + rest)[1..] == word[1..] + rest;
      WordEndIs(word[1..], rest);
    }
  }

  // ---------- parsing ----------

  datatype Entry = Entry(endpoint: Endpoint, key: Key, fingerprint: string)

  /** The decimal number of a 16-bit port; one plus sign is accepted. */
  function ParsePort(text: string): Option<nat>
  {
    var digits := if text != "" && text[0] == '+' then text[1..] else text;
    if digits == "" || exists c :: c in digits && !IsDigit(c) then None
    else if DigitsValue(digits) < 65536 then Some(DigitsValue(digits))
    else None
  }

  predicate IsKeyKind(kind: string)
  {
    "ssh-" <= kind || "ecdsa-" <= kind || kind == "sk-ssh-ed25519@openssh.com" || kind == "sk-ecdsa-sha2-nistp256@openssh.com"
  }

  /** Host and port of a plain host or of `[host]:port`. Several hosts are refused. */
  function ParseHost(field: string): Option<Endpoint>
    requires field != ""
  {
    if field[0] == '[' then
      match Find(field, "]")
      case None => None
      case Some(end) =>
        var host, rest := field[1..end], field[end + 1..];
        if rest != "" && rest[0] == ':' then
          match ParsePort(rest[1..])
          case None => None
          case Some(port) => Some(Endpoint(host, port))
        else Some(Endpoint(host, 22))
    else if ',' in field then None
    else Some(Endpoint(field, 22))
  }

  function Fingerprint(digest: Digest, bytes: seq<Base64.Byte>): string
  {
    "SHA256:" + Base64.Encode(digest(bytes))
  }

  function ParseWords(digest: Digest, parts: seq<string>): Option<Entry>
    requires forall i :: 0 <= i < |parts| ==> IsWord(parts[i])
  {
    if |parts| < 3 then None
    else if !IsKeyKind(parts[1]) then None
    else
      assert IsWord(parts[0]);
      match ParseHost(parts[0])
      case None => None
      case Some(endpoint) =>
        if endpoint.host == "" then None
        else
          match Base64.Decode(parts[2])
          case None => None
          case Some(bytes) => Some(Entry(endpoint, Key(parts[1], parts[2]), Fingerprint(digest, bytes)))
  }

  /** What a line says: nothing (blank or a comment), nothing usable, or a key. */
  datatype Reading = Ignored | Unusable | Known(entry: Entry)

  function ReadLine(digest: Digest, line: string): Reading
  {
    var parts := Words(line);
    if parts == [] || parts[0][0] == '#' then Ignored
    else
      match ParseWords(digest, parts)
      case None => Unusable
      case Some(entry) => Known(entry)
  }

  // ---------- importing ----------

  datatype Import = Import(rows: Table, imported: nat, skipped: nat, errors: nat)

  /** One line. A known endpoint keeps its key, and a failed write is reported. */
  function Imported(before: Import, reading: Reading, broken: set<Endpoint>): Import
  {
    match reading
    case Ignored => before
    case Unusable => before.(skipped := before.skipped + 1)
    case Known(entry) =>
      if entry.endpoint in before.rows then before.(skipped := before.skipped + 1)
      else if entry.endpoint in broken then before.(errors := before.errors + 1)
      else
        before.(rows := before.rows[entry.endpoint := Record(entry.fingerprint, Some(entry.key))],
                imported := before.imported + 1)
  }

  function ImportLines(rows: Table, digest: Digest, lines: seq<string>, broken: set<Endpoint>): Import
  {
    if lines == [] then Import(rows, 0, 0, 0)
    else
      var n := |lines| - 1;
      Imported(ImportLines(rows, digest, lines[..n], broken), ReadLine(digest, lines[n]), broken)
  }

  // ---------- exporting ----------

  function HostField(e: Endpoint): string
  {
    if e.port == 22 then e.host else "[" + e.host + "]:" + Decimal(e.port)
  }

  function Line(e: Endpoint, record: Record): string
  {
    match record.key
    case Some(key) => HostField(e) + " " + key.kind + " " + key.data
    case None => "# " + HostField(e) + " " + record.fingerprint + " (fingerprint only, no key data)"
  }

  function Lines(rows: Table, order: seq<Endpoint>): (r: seq<string>)
    requires forall i :: 0 <= i < |order| ==> order[i] in rows
    ensures |r| == |order|
  {
    if order == [] then []
    else
      var n := |order| - 1;
      Lines(rows, order[..n]) + [Line(order[n], rows[order[n]])]
  }

  function Content(lines: seq<string>): string
  {
    if lines == [] then "" else Join(lines, "\n") + "\n"
  }

  function KeyedCount(rows: Table, order: seq<Endpoint>): nat
    requires forall i :: 0 <= i < |order| ==> order[i] in rows
  {
    if order == [] then 0
    else
      var n := |order| - 1;
      KeyedCount(rows, order[..n]) + if rows[order[n]].key.Some? then 1 else 0
  }

  /** The rows of one workspace. */
  class HostKeyStore {
    var rows: Table

    constructor (rows: Table)
      ensures this.rows == rows
    {
      this.rows := rows;
    }

    method ImportKnownHosts(digest: Digest, content: string, broken: set<Endpoint>)
      returns (imported: nat, skipped: nat, errors: nat)
      modifies this
      ensures Import(rows, imported, skipped, errors) == ImportLines(old(rows), digest, Split(content, '\n'), broken)
    {
      imported, skipped, errors := 0, 0, 0;
      var lines := Split(content, '\n');
      for i := 0 to |lines|
        invariant Import(rows, imported, skipped, errors) == ImportLines(old(rows), digest, lines[..i], broken)
      {
        assert lines[..i + 1][..i] == lines[..i];
        var reading := ReadLine(digest, lines[i]);
        match reading {
          case Ignored =>
          case Unusable => skipped := skipped + 1;
          case Known(entry) =>
            if entry.endpoint in rows {
              skipped := skipped + 1;
            } else if entry.endpoint in broken {
              errors := errors + 1;
            } else {
              rows := rows[entry.endpoint := Record(entry.fingerprint, Some(entry.key))];
              imported := imported + 1;
            }
        }
      }
      assert lines[..|lines|] == lines;
    }

    /** The rows come in the order in which the query lists them. */
    method ExportKnownHosts(order: seq<Endpoint>) returns (content: string, count: nat)
      requires forall i :: 0 <= i < |order| ==> order[i] in rows
      ensures content == Content(Lines(rows, order)) && count == KeyedCount(rows, order)
    {
      var lines: seq<string> := [];
      count := 0;
      for i := 0 to |order|
        invariant lines == Lines(rows, order[..i]) && count == KeyedCount(rows, order[..i])
      {
        assert order[..i + 1][..i] == order[..i];
        var e := order[i];
        if rows[e].key.Some? {
          count := count + 1;
        }
        lines := lines + [Line(e, rows[e])];
      }
      assert order[..|order|] == order;
      content := if lines == [] then "" else Join(lines, "\n") + "\n";
    }
  }

  // ---------- the printer and the parser ----------

  lemma PortIsReadBack(port: nat)
    requires port < 65536
    ensures ParsePort(Decimal(port)) == Some(port)
  {
    var text := Decimal(port);
    assert text[0] in text;
    DecimalValue(port);
  }

  /** The host can be told from the rest of its field. */
  predicate IsPlainHost(e: Endpoint)
  {
    && IsWord(e.host)
    && (if e.port == 22 then e.host[0] != '[' && e.host[0] != '#' && ',' !in e.host else ']' !in e.host)
  }

  lemma ClearHostIsReadBack(e: Endpoint)
    requires e.port != 22 && e.port < 65536 && ']' !in e.host
    ensures ParseHost(HostField(e)) == Some(e)
  {
    var field, port := HostField(e), ":" + Decimal(e.port);
    assert field == ("[" + e.host) + "]" + port;
    FindChar("[" + e.host, ']', port);
    assert field[1..|e.host| + 1] == e.host;
    assert field[|e.host| + 2..] == port && port[1..] == Decimal(e.port);
    PortIsReadBack(e.port);
  }

  /** The parser stops at the first bracket, inside the host. */
  lemma BracketCutsHost(e: Endpoint)
    requires e.port != 22 && ']' in e.host
    ensures ParseHost(HostField(e)).Some? ==> |ParseHost(HostField(e)).value.host| < |e.host|
  {
    var field := HostField(e);
    var i :| 0 <= i < |e.host| && e.host[i] == ']';
    assert field[i + 1] == ']';
    assert "]" <= field[i + 1..];
    FindIsFirst(field, "]", i + 1);
  }

  lemma PlainIsReadBack(e: Endpoint)
    requires e.port == 22 && e.host != ""
    ensures ParseHost(HostField(e)) == Some(e) <==> e.host[0] != '[' && ',' !in e.host
  {
  }

  /** A parsed host is one word. */
  lemma ParsedHostIsWord(field: string)
    requires IsWord(field) && ParseHost(field).Some? && ParseHost(field).value.host != ""
    ensures IsWord(ParseHost(field).value.host)
  {
  }

  lemma FieldIsWord(e: Endpoint)
    requires IsWord(e.host)
    ensures IsWord(HostField(e))
  {
    if e.port != 22 {
      forall c | c in Decimal(e.port)
        ensures !IsSpace(c)
      {
        assert IsDigit(c);
      }
    }
  }

  lemma WordThenMore(word: string, rest: string)
    requires IsWord(word)
    ensures Words(word + (" " + rest)) == [word] + Words(rest)
  {
    WordsAfterWord(word, " " + rest);
    assert (" " + rest)[1..] == rest;
  }

  lemma LineWords(field: string, key: Key)
    requires IsWord(field) && IsWord(key.kind) && IsWord(key.data)
    ensures Words(field + " " + key.kind + " " + key.data) == [field, key.kind, key.data]
  {
    WordsAfterWord(key.data, "");
    assert key.data + "" == key.data;
    assert Words(key.data) == [key.data] by {
      assert Words("") == [];
    }
    WordThenMore(key.kind, key.data);
    WordThenMore(field, key.kind + (" " + key.data));
    Regroup(field, " ", key.kind, " ", key.data);
  }

  lemma Regroup(a: string, b: string, c: string, d: string, e: string)
    ensures a + b + c + d + e == a + (b + (c + (d + e)))
  {
  }

  /** Everything a keyed row must be for its line to say the same. */
  predicate IsRestorable(digest: Digest, e: Endpoint, key: Key, fingerprint: string)
  {
    && IsPlainHost(e)
    && IsWord(key.kind) && IsKeyKind(key.kind)
    && IsWord(key.data) && Base64.Decode(key.data).Some?
    && fingerprint == Fingerprint(digest, Base64.Decode(key.data).value)
  }

  lemma RestorableIsReadBack(digest: Digest, e: Endpoint, key: Key, fingerprint: string)
    requires e.port < 65536 && IsWord(e.host) && IsWord(key.kind) && IsWord(key.data)
    ensures ReadLine(digest, Line(e, Record(fingerprint, Some(key)))) == Known(Entry(e, key, fingerprint)) <==>
            IsRestorable(digest, e, key, fingerprint)
  {
    FieldIsWord(e);
    LineWords(HostField(e), key);
    if e.port == 22 {
      PlainIsReadBack(e);
    } else if ']' in e.host {
      BracketCutsHost(e);
    } else {
      ClearHostIsReadBack(e);
    }
  }

  /** Printing a keyed row and reading the line gives the row back exactly when it is
      restorable. */
  lemma LineIsReadBack(digest: Digest, e: Endpoint, key: Key, fingerprint: string)
    requires e.port < 65536
    ensures ReadLine(digest, Line(e, Record(fingerprint, Some(key)))) == Known(Entry(e, key, fingerprint)) <==>
            IsRestorable(digest, e, key, fingerprint)
  {
    var line := Line(e, Record(fingerprint, Some(key)));
    if ReadLine(digest, line) == Known(Entry(e, key, fingerprint)) {
      var parts := Words(line);
      assert IsWord(parts[0]) && IsWord(parts[1]) && IsWord(parts[2]);
      ParsedHostIsWord(parts[0]);
    }
    if IsWord(e.host) && IsWord(key.kind) && IsWord(key.data) {
      RestorableIsReadBack(digest, e, key, fingerprint);
    }
  }

  /** Hosts without white space, comma, bracket or number sign are always told apart. */
  lemma OrdinaryHostsArePlain(e: Endpoint)
    requires IsWord(e.host) && ',' !in e.host && '[' !in e.host && ']' !in e.host && '#' !in e.host
    ensures IsPlainHost(e)
  {
  }

  lemma CommentsAreIgnored(digest: Digest, e: Endpoint, fingerprint: string)
    ensures ReadLine(digest, Line(e, Record(fingerprint, None))) == Ignored
  {
  }

  /** Words after the third change nothing. */
  lemma ExtraWordsAreIgnored(digest: Digest, parts: seq<string>)
    requires |parts| >= 3 && forall i :: 0 <= i < |parts| ==> IsWord(parts[i])
    ensures ParseWords(digest, parts) == ParseWords(digest, parts[..3])
  {
  }

  /** Fewer than three words are no entry. */
  lemma ShortLinesAreUnusable(digest: Digest, parts: seq<string>)
    requires |parts| < 3 && forall i :: 0 <= i < |parts| ==> IsWord(parts[i])
    ensures ParseWords(digest, parts).None?
  {
  }

  /** Every kind of key that ssh uses is read. */
  lemma KindsAreRead(kind: string)
    requires kind in {"ssh-rsa", "ssh-dss", "ssh-ed25519", "ecdsa-sha2-nistp256", "ecdsa-sha2-nistp384", "ecdsa-sha2-nistp521",
                      "sk-ssh-ed25519@openssh.com", "sk-ecdsa-sha2-nistp256@openssh.com"}
    ensures IsKeyKind(kind)
  {
  }

  /** A kind is read exactly when it is one of the two hardware kinds or begins like an ssh or
      ecdsa key. */
  lemma KindsReadExactly(kind: string)
    ensures IsKeyKind(kind) <==>
            || (|kind| >= 4 && kind[..4] == "ssh-")
            || (|kind| >= 6 && kind[..6] == "ecdsa-")
            || kind in {"sk-ssh-ed25519@openssh.com", "sk-ecdsa-sha2-nistp256@openssh.com"}
  {
  }

  /** Several hosts in one field are refused; so is a bracket that is not closed. */
  lemma HostListsAreRefused(field: string)
    requires field != ""
    ensures field[0] != '[' && ',' in field ==> ParseHost(field).None?
    ensures field[0] == '[' && ']' !in field ==> ParseHost(field).None?
  {
    if Find(field, "]").Some? {
      var end := Find(field, "]").value;
      FindIsFirst(field, "]", end);
      assert field[end] == field[end..end + 1][0];
    }
  }

  /** A bracketed host without a port means port 22. */
  lemma BracketsDefaultTo22(host: string)
    requires ']' !in host
    ensures ParseHost("[" + host + "]") == Some(Endpoint(host, 22))
  {
    var field := "[" + host + "]";
    assert field == ("[" + host) + [']'] + "";
    FindChar("[" + host, ']', "");
    assert field[1..|host| + 1] == host && field[|host| + 2..] == "";
  }

  /** Ports are decimal numbers of 16 bits. */
  lemma PortsAreSixteenBits(text: string)
    ensures ParsePort(text).Some? ==> ParsePort(text).value < 65536
    ensures text == "" || text == "+" ==> ParsePort(text).None?
    ensures (exists c :: c in text && !IsDigit(c) && c != '+') ==> ParsePort(text).None?
  {
    if c :| c in text && !IsDigit(c) && c != '+' {
      var digits := if text[0] == '+' then text[1..] else text;
      assert c in digits;
    }
  }

  // ---------- the text as lines ----------

  lemma ContentStep(lines: seq<string>)
    requires lines != []
    ensures Content(lines) == lines[0] + ['\n'] + Content(lines[1..])
  {
    if |lines| > 1 {
      var rest := Join(lines[1..], "\n");
      assert (lines[0] + "\n" + rest) + "\n" == lines[0] + "\n" + (rest + "\n");
    }
  }

  predicate NoBreaks(lines: seq<string>)
  {
    lines == [] || ('\n' !in lines[0] && NoBreaks(lines[1..]))
  }

  lemma {:induction false} NoBreaksMeans(lines: seq<string>)
    requires forall i :: 0 <= i < |lines| ==> '\n' !in lines[i]
    ensures NoBreaks(lines)
  {
    if lines != [] {
      NoBreaksMeans(lines[1..]);
    }
  }

  lemma {:induction false} ContentSplits(lines: seq<string>)
    requires NoBreaks(lines)
    ensures Split(Content(lines), '\n') == lines + [""]
    decreases |lines|
  {
    if lines != [] {
      ContentStep(lines);
      SplitAfterPiece(lines[0], Content(lines[1..]), '\n');
      ContentSplits(lines[1..]);
      PutBack(lines);
    }
  }

  lemma PutBack(lines: seq<string>)
    requires lines != []
    ensures [lines[0]] + (lines[1..] + [""]) == lines + [""]
  {
  }

  // ---------- what importing guarantees ----------

  function Heard(digest: Digest, lines: seq<string>): nat
  {
    if lines == [] then 0
    else
      var n := |lines| - 1;
      Heard(digest, lines[..n]) + if ReadLine(digest, lines[n]).Ignored? then 0 else 1
  }

  lemma LineIsCounted(before: Import, reading: Reading, broken: set<Endpoint>)
    ensures var r := Imported(before, reading, broken);
            r.imported + r.skipped + r.errors ==
            before.imported + before.skipped + before.errors + if reading.Ignored? then 0 else 1
  {
  }

  /** Every line that is neither blank nor a comment is counted once. */
  lemma {:induction false} EveryLineIsCounted(rows: Table, digest: Digest, lines: seq<string>, broken: set<Endpoint>)
    ensures var r := ImportLines(rows, digest, lines, broken);
            r.imported + r.skipped + r.errors == Heard(digest, lines)
  {
    if lines != [] {
      var n := |lines| - 1;
      EveryLineIsCounted(rows, digest, lines[..n], broken);
      LineIsCounted(ImportLines(rows, digest, lines[..n], broken), ReadLine(digest, lines[n]), broken);
    }
  }

  /** Importing never changes a known key. */
  lemma {:induction false} ImportingKeeps(rows: Table, digest: Digest, lines: seq<string>, broken: set<Endpoint>)
    ensures forall e :: e in rows ==>
              e in ImportLines(rows, digest, lines, broken).rows && ImportLines(rows, digest, lines, broken).rows[e] == rows[e]
  {
    if lines != [] {
      ImportingKeeps(rows, digest, lines[..|lines| - 1], broken);
    }
  }

  predicate Names(digest: Digest, line: string, e: Endpoint)
  {
    ReadLine(digest, line).Known? && ReadLine(digest, line).entry.endpoint == e
  }

  /** The entry of the first line that names a key for the endpoint. */
  function FirstEntry(digest: Digest, lines: seq<string>, e: Endpoint): Option<Entry>
  {
    if lines == [] then None
    else if Names(digest, lines[0], e) then Some(ReadLine(digest, lines[0]).entry)
    else FirstEntry(digest, lines[1..], e)
  }

  lemma {:induction false} FirstEntryIsFirst(digest: Digest, lines: seq<string>, e: Endpoint, i: nat)
    requires i <= |lines| && forall j :: 0 <= j < i ==> !Names(digest, lines[j], e)
    ensures i == |lines| ==> FirstEntry(digest, lines, e).None?
    ensures i < |lines| && Names(digest, lines[i], e) ==> FirstEntry(digest, lines, e) == Some(ReadLine(digest, lines[i]).entry)
  {
    if i > 0 {
      assert forall j :: 0 <= j < i - 1 ==> lines[1..][j] == lines[j + 1];
      FirstEntryIsFirst(digest, lines[1..], e, i - 1);
    }
  }

  lemma {:induction false} FirstEntryAppend(digest: Digest, lines: seq<string>, line: string, e: Endpoint)
    ensures FirstEntry(digest, lines + [line], e) ==
            if FirstEntry(digest, lines, e).Some? then FirstEntry(digest, lines, e)
            else if Names(digest, line, e) then Some(ReadLine(digest, line).entry)
            else None
  {
    if lines != [] {
      assert (lines + [line])[1..] == lines[1..] + [line];
      FirstEntryAppend(digest, lines[1..], line, e);
    } else {
      assert (lines + [line])[1..] == [];
    }
  }

  /** The row of an endpoint whose first line has this entry. */
  ghost predicate RowOf(later: Table, broken: set<Endpoint>, e: Endpoint, first: Option<Entry>)
  {
    && (e in later <==> first.Some? && e !in broken)
    && (e in later ==> later[e] == Record(first.value.fingerprint, Some(first.value.key)))
  }

  lemma LineMakesRow(before: Import, reading: Reading, broken: set<Endpoint>, e: Endpoint, first: Option<Entry>)
    requires RowOf(before.rows, broken, e, first)
    ensures RowOf(Imported(before, reading, broken).rows, broken, e,
                  if first.Some? then first else if reading.Known? && reading.entry.endpoint == e then Some(reading.entry) else None)
  {
  }

  /** An unknown endpoint gets a row exactly when some line names a key for it and its write does
      not fail, and then the row holds the key and the fingerprint of the first such line. */
  lemma {:induction false} FirstLineWins(rows: Table, digest: Digest, lines: seq<string>, broken: set<Endpoint>, e: Endpoint)
    requires e !in rows
    ensures RowOf(ImportLines(rows, digest, lines, broken).rows, broken, e, FirstEntry(digest, lines, e))
  {
    if lines != [] {
      var n := |lines| - 1;
      FirstLineWins(rows, digest, lines[..n], broken, e);
      assert lines[..n] + [lines[n]] == lines;
      FirstEntryAppend(digest, lines[..n], lines[n], e);
      LineMakesRow(ImportLines(rows, digest, lines[..n], broken), ReadLine(digest, lines[n]), broken, e, FirstEntry(digest, lines[..n], e));
    }
  }

  /** The counter of imported lines counts the new rows, and errors come from failed writes only. */
  lemma {:induction false} ImportedCountsNewRows(rows: Table, digest: Digest, lines: seq<string>, broken: set<Endpoint>)
    ensures var r := ImportLines(rows, digest, lines, broken);
            && |r.rows| == |rows| + r.imported
            && (broken <= rows.Keys ==> r.errors == 0)
  {
    if lines != [] {
      var n := |lines| - 1;
      ImportedCountsNewRows(rows, digest, lines[..n], broken);
      ImportingKeeps(rows, digest, lines[..n], broken);
    }
  }

  /** After an import every endpoint of a key line is known, or its write failed. */
  lemma {:induction false} ImportingKnows(rows: Table, digest: Digest, lines: seq<string>, broken: set<Endpoint>, i: nat)
    requires i < |lines| && ReadLine(digest, lines[i]).Known?
    ensures var e := ReadLine(digest, lines[i]).entry.endpoint;
            e in ImportLines(rows, digest, lines, broken).rows || e in broken
  {
    if i < |lines| - 1 {
      ImportingKnows(rows, digest, lines[..|lines| - 1], broken, i);
    }
  }

  lemma {:induction false} NothingNew(rows: Table, digest: Digest, lines: seq<string>, broken: set<Endpoint>)
    requires forall i :: 0 <= i < |lines| && ReadLine(digest, lines[i]).Known? ==>
               ReadLine(digest, lines[i]).entry.endpoint in rows || ReadLine(digest, lines[i]).entry.endpoint in broken
    ensures ImportLines(rows, digest, lines, broken).rows == rows && ImportLines(rows, digest, lines, broken).imported == 0
  {
    if lines != [] {
      NothingNew(rows, digest, lines[..|lines| - 1], broken);
    }
  }

  /** Importing the same text again adds nothing. */
  lemma ReimportAddsNothing(rows: Table, digest: Digest, lines: seq<string>, broken: set<Endpoint>)
    ensures var once := ImportLines(rows, digest, lines, broken).rows;
            && ImportLines(once, digest, lines, broken).rows == once
            && ImportLines(once, digest, lines, broken).imported == 0
  {
    var once := ImportLines(rows, digest, lines, broken).rows;
    forall i | 0 <= i < |lines| && ReadLine(digest, lines[i]).Known?
      ensures ReadLine(digest, lines[i]).entry.endpoint in once || ReadLine(digest, lines[i]).entry.endpoint in broken
    {
      ImportingKnows(rows, digest, lines, broken, i);
    }
    NothingNew(once, digest, lines, broken);
  }

  /** The keyed rows can be restored, and no other row breaks the lines. */
  predicate IsPortable(digest: Digest, rows: Table, e: Endpoint)
    requires e in rows
  {
    match rows[e].key
    case Some(key) => e.port < 65536 && IsRestorable(digest, e, key, rows[e].fingerprint)
    case None => '\n' !in Line(e, rows[e])
  }

  function KeyedRows(rows: Table, order: seq<Endpoint>): Table
  {
    map e | e in order && e in rows && rows[e].key.Some? :: rows[e]
  }

  lemma RowIsReadBack(digest: Digest, rows: Table, e: Endpoint)
    requires e in rows && IsPortable(digest, rows, e)
    ensures ReadLine(digest, Line(e, rows[e])) ==
            if rows[e].key.Some? then Known(Entry(e, rows[e].key.value, rows[e].fingerprint)) else Ignored
  {
    var record := rows[e];
    match record.key {
      case Some(key) =>
        assert record == Record(record.fingerprint, Some(key));
        LineIsReadBack(digest, e, key, record.fingerprint);
      case None =>
        assert record == Record(record.fingerprint, None);
        CommentsAreIgnored(digest, e, record.fingerprint);
    }
  }

  /** Importing the line of one more row. */
  lemma RowIsImported(rows: Table, order: seq<Endpoint>, e: Endpoint, reading: Reading)
    requires e in rows && e !in order && (forall i :: 0 <= i < |order| ==> order[i] in rows)
    requires reading == if rows[e].key.Some? then Known(Entry(e, rows[e].key.value, rows[e].fingerprint)) else Ignored
    ensures Imported(Import(KeyedRows(rows, order), KeyedCount(rows, order), 0, 0), reading, {})
            == Import(KeyedRows(rows, order + [e]), KeyedCount(rows, order + [e]), 0, 0)
  {
    assert (order + [e])[..|order|] == order;
    assert rows[e].key.Some? ==> rows[e] == Record(rows[e].fingerprint, Some(rows[e].key.value));
  }

  lemma ImportOneMore(digest: Digest, lines: seq<string>, line: string)
    ensures ImportLines(map[], digest, lines + [line], {}) ==
            Imported(ImportLines(map[], digest, lines, {}), ReadLine(digest, line), {})
  {
  }

  lemma RowJoins(digest: Digest, rows: Table, before: seq<Endpoint>, e: Endpoint)
    requires forall i :: 0 <= i < |before| ==> before[i] in rows
    requires e in rows && e !in before && IsPortable(digest, rows, e)
    requires ImportLines(map[], digest, Lines(rows, before), {}) == Import(KeyedRows(rows, before), KeyedCount(rows, before), 0, 0)
    ensures ImportLines(map[], digest, Lines(rows, before) + [Line(e, rows[e])], {}) ==
            Import(KeyedRows(rows, before + [e]), KeyedCount(rows, before + [e]), 0, 0)
  {
    RowIsReadBack(digest, rows, e);
    RowIsImported(rows, before, e, ReadLine(digest, Line(e, rows[e])));
    ImportOneMore(digest, Lines(rows, before), Line(e, rows[e]));
  }

  /** Stored endpoints, none twice. */
  ghost predicate IsListing(rows: Table, order: seq<Endpoint>)
  {
    && (forall i :: 0 <= i < |order| ==> order[i] in rows)
    && (forall i, j :: 0 <= i < j < |order| ==> order[i] != order[j])
  }

  lemma ListingFront(rows: Table, order: seq<Endpoint>)
    requires IsListing(rows, order) && order != []
    ensures var n := |order| - 1;
            IsListing(rows, order[..n]) && order[n] !in order[..n] && order[n] in rows && order == order[..n] + [order[n]]
  {
  }

  lemma {:induction false} LinesAreImported(digest: Digest, rows: Table, order: seq<Endpoint>)
    requires IsListing(rows, order)
    requires forall e {:trigger IsPortable(digest, rows, e)} :: e in rows ==> IsPortable(digest, rows, e)
    ensures ImportLines(map[], digest, Lines(rows, order), {}) == Import(KeyedRows(rows, order), KeyedCount(rows, order), 0, 0)
  {
    if order != [] {
      var n := |order| - 1;
      ListingFront(rows, order);
      LinesAreImported(digest, rows, order[..n]);
      assert IsPortable(digest, rows, order[n]);
      RowJoins(digest, rows, order[..n], order[n]);
    }
  }

  lemma LineHasNoBreak(digest: Digest, rows: Table, e: Endpoint)
    requires e in rows && IsPortable(digest, rows, e)
    ensures '\n' !in Line(e, rows[e])
  {
    if rows[e].key.Some? {
      FieldIsWord(e);
      assert IsSpace('\n');
    }
  }

  lemma {:induction false} LineAt(rows: Table, order: seq<Endpoint>, i: nat)
    requires (forall k :: 0 <= k < |order| ==> order[k] in rows) && i < |order|
    ensures Lines(rows, order)[i] == Line(order[i], rows[order[i]])
  {
    if i < |order| - 1 {
      LineAt(rows, order[..|order| - 1], i);
    }
  }

  /** Exporting and then importing into an empty store restores every keyed row: host, port,
      key and fingerprint. The rows without key data stay comments. */
  lemma ExportIsImportedBack(digest: Digest, rows: Table, order: seq<Endpoint>)
    requires IsListing(rows, order)
    requires forall e {:trigger IsPortable(digest, rows, e)} :: e in rows ==> IsPortable(digest, rows, e)
    ensures ImportLines(map[], digest, Split(Content(Lines(rows, order)), '\n'), {})
            == Import(KeyedRows(rows, order), KeyedCount(rows, order), 0, 0)
  {
    var lines := Lines(rows, order);
    forall i | 0 <= i < |lines|
      ensures '\n' !in lines[i]
    {
      LineAt(rows, order, i);
      assert IsPortable(digest, rows, order[i]);
      LineHasNoBreak(digest, rows, order[i]);
    }
    NoBreaksMeans(lines);
    ContentSplits(lines);
    LinesAreImported(digest, rows, order);
    assert (lines + [""])[..|lines|] == lines;
    assert ReadLine(digest, "") == Ignored;
  }
}
