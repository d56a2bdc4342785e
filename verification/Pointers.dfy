/** JSON Pointers (RFC 6901): splitting into reference tokens, decoding the tokens with two
    replacements, and walking a document. */
module Pointers {
  import opened Text
  import opened Values

  /** Decodes a reference token the way the engine does, by two whole-text replacements. */
  function DecodeToken(token: string): string
  {
    Replace(Replace(token, "~1", "/"), "~0", "~")
  }

  /** Section 4 of RFC 6901: one pass over the token. */
  function Unescape(token: string): string
  {
    if |token| >= 2 && token[0] == '~' && token[1] == '0' then "~" + Unescape(token[2..])
    else if |token| >= 2 && token[0] == '~' && token[1] == '1' then "/" + Unescape(token[2..])
    else if token == "" then ""
    else [token[0]] + Unescape(token[1..])
  }

  /** Section 3 of RFC 6901: the token that stands for a name. */
  function Escape(name: string): string
  {
    if name == "" then ""
    else (if name[0] == '~' then "~0" else if name[0] == '/' then "~1" else [name[0]]) + Escape(name[1..])
  }

  /** Every tilde is followed by 0 or 1. */
  predicate WellEscaped(text: string)
  {
    if text == "" then true
    else if text[0] == '~' then |text| >= 2 && (text[1] == '0' || text[1] == '1') && WellEscaped(text[2..])
    else WellEscaped(text[1..])
  }

  /** The scan of the reference checker over the characters of a path. */
  method ScanEscapes(path: string) returns (ok: bool)
    ensures ok == WellEscaped(path)
  {
    var i := 0;
    while i < |path|
      invariant 0 <= i <= |path|
      invariant WellEscaped(path) == WellEscaped(path[i..])
    {
      if path[i] == '~' {
        if i + 1 == |path| || (path[i + 1] != '0' && path[i + 1] != '1') {
          return false;
        }
        assert path[i..][2..] == path[i + 2..];
        i := i + 2;
      } else {
        assert path[i..][1..] == path[i + 1..];
        i := i + 1;
      }
    }
    return true;
  }

  /** On well-escaped tokens the two replacements agree with the single pass. */
  lemma {:induction false} DecodeIsUnescape(token: string)
    requires WellEscaped(token)
    ensures DecodeToken(token) == Unescape(token)
  {
    if token == "" {
    } else if token[0] == '~' {
      var rest := token[2..];
      DecodeIsUnescape(rest);
      if token[1] == '1' {
        assert "~1" <= token;
        var once := Replace(token, "~1", "/");
        assert once == "/" + Replace(rest, "~1", "/");
        assert once[1..] == Replace(rest, "~1", "/");
      } else {
        assert token[1..][1..] == rest;
        var once := Replace(token, "~1", "/");
        assert once == ['~'] + (['0'] + Replace(rest, "~1", "/"));
        assert once[2..] == Replace(rest, "~1", "/");
        assert "~0" <= once;
      }
    } else {
      DecodeIsUnescape(token[1..]);
      var once := Replace(token, "~1", "/");
      assert once == [token[0]] + Replace(token[1..], "~1", "/");
      assert once[1..] == Replace(token[1..], "~1", "/");
    }
  }

  lemma {:induction false} EscapeRoundTrip(name: string)
    ensures WellEscaped(Escape(name))
    ensures '/' !in Escape(name)
    ensures Unescape(Escape(name)) == name
  {
    if name != "" {
      EscapeRoundTrip(name[1..]);
      var token, rest := Escape(name), Escape(name[1..]);
      if name[0] == '~' || name[0] == '/' {
        assert token[2..] == rest;
      } else {
        assert token[1..] == rest;
      }
    }
  }

  /** The pieces of a well-escaped path are well escaped. */
  lemma {:induction false} SplitKeepsEscapes(path: string)
    requires WellEscaped(path)
    ensures forall i :: 0 <= i < |Split(path, '/')| ==> WellEscaped(Split(path, '/')[i])
  {
    if path == "" {
    } else if path[0] == '~' {
      SplitKeepsEscapes(path[2..]);
      assert path[1..][1..] == path[2..];
      var tail := Split(path[2..], '/');
      assert Split(path[1..], '/') == [[path[1]] + tail[0]] + tail[1..];
      assert Split(path, '/') == [[path[0]] + ([path[1]] + tail[0])] + tail[1..];
      var first := [path[0]] + ([path[1]] + tail[0]);
      assert first[2..] == tail[0];
      assert WellEscaped(first);
    } else {
      SplitKeepsEscapes(path[1..]);
      var tail := Split(path[1..], '/');
      if path[0] != '/' {
        assert ([path[0]] + tail[0])[1..] == tail[0];
      }
    }
  }

  function ParseIndex(token: string): Option<nat>
  {
    if token == "" || token[0] == '+' || (token[0] == '0' && |token| != 1) then None
    else if forall c :: c in token ==> IsDigit(c) then Some(DigitsValue(token))
    else None
  }

  function Child(value: Json, token: string): Option<Json>
  {
    match value
    case Obj(fields) => Get(fields, token)
    case Arr(items) =>
      (match ParseIndex(token)
       case Some(i) => if i < |items| then Some(items[i]) else None
       case None => None)
    case _ => None
  }

  function Walk(value: Json, tokens: seq<string>): Option<Json>
  {
    if tokens == [] then Some(value)
    else
      match Child(value, tokens[0])
      case Some(child) => Walk(child, tokens[1..])
      case None => None
  }

  function Tokens(path: string): (r: seq<string>)
    ensures r != []
  {
    var parts := Split(path, '/');
    seq(|parts|, i requires 0 <= i < |parts| => DecodeToken(parts[i]))
  }

  /** The value a pointer selects; a pointer other than the whole document starts with '/'. */
  function Select(document: Json, pointer: string): Option<Json>
  {
    if pointer == "" then Some(document)
    else if pointer[0] != '/' then None
    else Walk(document, Tokens(pointer)[1..])
  }

  lemma SelectTokens(document: Json, path: string)
    ensures Select(document, "/" + path) == Walk(document, Tokens(path))
  {
    var pointer := "/" + path;
    assert pointer[1..] == path;
    assert Split(pointer, '/') == [""] + Split(path, '/');
    assert Tokens(pointer)[1..] == Tokens(path);
  }

  lemma {:induction false} WalkAppend(value: Json, front: seq<string>, back: seq<string>)
    ensures Walk(value, front + back) ==
            (match Walk(value, front) case Some(v) => Walk(v, back) case None => None)
  {
    if front == [] {
      assert front + back == back;
    } else {
      assert (front + back)[1..] == front[1..] + back;
      match Child(value, front[0])
      case Some(child) => WalkAppend(child, front[1..], back);
      case None =>
    }
  }
}
