/** What an expression evaluates to, read off the expression: references select, texts are
    filled in, objects and arrays keep their shape. */
module Evaluation {
  import opened Errors
  import opened Expressions
  import opened Pointers
  import opened Text
  import opened Values

  // ---------- references ----------

  /** A reference object gives exactly what its pointer selects, and fails as missing when it
      selects nothing and as invalid when it is no pointer. */
  lemma ReferenceSelects(pointer: string, context: Json, render: Json -> string)
    ensures var r := Resolve(Obj([Field("$ref", Str(pointer))]), context, render);
            if pointer == "" || pointer[0] != '/' then r == Err(INVALID_REFERENCE)
            else if Select(context, pointer).Some? then r == Ok(Select(context, pointer).value)
            else r == Err(MISSING_REFERENCE)
  {
    assert Get([Field("$ref", Str(pointer))], "$ref") == Some(Str(pointer));
  }

  /** A reference beside other keys, or one that is no text, is invalid. */
  lemma MixedReferenceIsInvalid(fields: seq<Field>, context: Json, render: Json -> string)
    requires Get(fields, "$ref").Some? && (|fields| != 1 || !Get(fields, "$ref").value.Str?)
    ensures Resolve(Obj(fields), context, render) == Err(INVALID_REFERENCE)
  {
  }

  // ---------- what a pointer selects ----------

  /** A pointer of one escaped name selects the field of that name. */
  lemma FieldIsSelected(fields: seq<Field>, name: string)
    ensures Select(Obj(fields), "/" + Escape(name)) == Get(fields, name)
  {
    var path := Escape(name);
    EscapeRoundTrip(name);
    DecodeIsUnescape(path);
    SplitSingle(path, '/');
    SelectTokens(Obj(fields), path);
    assert Tokens(path) == [name];
    assert [name][1..] == [];
  }

  lemma {:induction false} DecimalIsCanonical(n: nat)
    ensures Decimal(n)[0] == '0' ==> n == 0
    ensures |Decimal(n)| == 1 <==> n < 10
  {
    if n >= 10 {
      DecimalIsCanonical(n / 10);
    }
  }

  /** An index is its decimal printing: no sign and no leading zeros. */
  lemma IndexIsDecimal(n: nat)
    ensures ParseIndex(Decimal(n)) == Some(n)
  {
    DecimalIsCanonical(n);
    DecimalValue(n);
    assert Decimal(n)[0] in Decimal(n);
  }

  /** A pointer of one index selects that item, and nothing beyond the end. */
  lemma ItemIsSelected(items: seq<Json>, i: nat)
    ensures Select(Arr(items), "/" + Decimal(i)) == if i < |items| then Some(items[i]) else None
  {
    var path := Decimal(i);
    assert '/' !in path && '~' !in path;
    SplitSingle(path, '/');
    NoEscapes(path);
    SelectTokens(Arr(items), path);
    DecodeIsUnescape(path);
    IndexIsDecimal(i);
    assert Tokens(path) == [path];
    assert [path][1..] == [];
  }

  lemma {:induction false} NoEscapes(path: string)
    requires '~' !in path
    ensures WellEscaped(path) && Unescape(path) == path
  {
    if path != "" {
      assert path[0] in path;
      NoEscapes(path[1..]);
      assert [path[0]] + path[1..] == path;
    }
  }

  // ---------- texts ----------

  /** A text without references is itself. */
  lemma PlainTextStays(text: string, context: Json, render: Json -> string)
    requires Find(text, "${").None?
    ensures ResolveText(text, context, render) == Ok(text)
  {
  }

  /** The first reference of a text is replaced by the selected text or the rendering of the
      selected value; what stands before it stays, and the rest is filled in the same way. */
  lemma TextIsFilledIn(before: string, pointer: string, after: string, context: Json, render: Json -> string)
    requires Find(before, "${").None? && '}' !in pointer
    ensures var r := ResolveText(before + "${" + (pointer + "}" + after), context, render);
            if pointer == "" || pointer[0] != '/' then r == Err(INVALID_REFERENCE)
            else if Select(context, pointer).None? then r == Err(MISSING_REFERENCE)
            else
              var value, rest := Select(context, pointer).value, ResolveText(after, context, render);
              r == if rest.Err? then rest else Ok(before + (if value.Str? then value.text else render(value)) + rest.value)
  {
    var tail := pointer + "}" + after;
    var text := before + "${" + tail;
    FindAfter(before, "${", tail);
    assert text[|before| + 2..] == tail && text[..|before|] == before;
    FindChar(pointer, '}', after);
    assert tail[..|pointer|] == pointer && tail[|pointer| + 1..] == after;
    assert NextReference(text) == Reference(before, pointer, after);
  }

  /** A reference that is not closed is invalid. */
  lemma UnclosedIsInvalid(before: string, rest: string, context: Json, render: Json -> string)
    requires Find(before, "${").None? && Find(rest, "}").None?
    ensures ResolveText(before + "${" + rest, context, render) == Err(INVALID_REFERENCE)
  {
    var text := before + "${" + rest;
    FindAfter(before, "${", rest);
    assert text[|before| + 2..] == rest;
    assert NextReference(text) == Unclosed;
  }

  // ---------- objects and arrays ----------

  /** Every value is resolved in its place. */
  ghost predicate ResolvedEach(values: seq<Json>, results: seq<Json>, context: Json, render: Json -> string)
  {
    |results| == |values| && forall i :: 0 <= i < |values| ==> Resolve(values[i], context, render) == Ok(results[i])
  }

  ghost predicate FirstError(values: seq<Json>, error: AppError, context: Json, render: Json -> string, i: nat)
  {
    && i < |values| && Resolve(values[i], context, render) == Err(error)
    && forall j :: 0 <= j < i ==> Resolve(values[j], context, render).Ok?
  }

  function ValuesOf(fields: seq<Field>): (r: seq<Json>)
    ensures |r| == |fields| && forall i :: 0 <= i < |r| ==> r[i] == fields[i].value
  {
    if fields == [] then [] else [fields[0].value] + ValuesOf(fields[1..])
  }

  lemma {:induction false} FieldsAreResolved(fields: seq<Field>, context: Json, render: Json -> string)
    ensures var r := ResolveFields(fields, context, render);
            && (r.Ok? ==>
                  && ResolvedEach(ValuesOf(fields), ValuesOf(r.value), context, render)
                  && forall i :: 0 <= i < |fields| ==> r.value[i].key == fields[i].key)
            && (r.Err? ==> exists i :: FirstError(ValuesOf(fields), r.error, context, render, i))
  {
    if fields != [] {
      FieldsAreResolved(fields[1..], context, render);
      var head := Resolve(fields[0].value, context, render);
      if head.Err? {
        assert FirstError(ValuesOf(fields), head.error, context, render, 0);
      } else {
        var tail := ResolveFields(fields[1..], context, render);
        if tail.Err? {
          var i :| FirstError(ValuesOf(fields[1..]), tail.error, context, render, i);
          FirstErrorShifts(ValuesOf(fields), tail.error, context, render, i);
        }
      }
    }
  }

  lemma FirstErrorShifts(values: seq<Json>, error: AppError, context: Json, render: Json -> string, i: nat)
    requires values != [] && Resolve(values[0], context, render).Ok? && FirstError(values[1..], error, context, render, i)
    ensures FirstError(values, error, context, render, i + 1)
  {
    forall j | 0 <= j < i + 1
      ensures Resolve(values[j], context, render).Ok?
    {
      assert j > 0 ==> values[j] == values[1..][j - 1];
    }
  }

  lemma {:induction false} ItemsAreResolved(items: seq<Json>, context: Json, render: Json -> string)
    ensures var r := ResolveItems(items, context, render);
            && (r.Ok? ==> ResolvedEach(items, r.value, context, render))
            && (r.Err? ==> exists i :: FirstError(items, r.error, context, render, i))
  {
    if items != [] {
      ItemsAreResolved(items[1..], context, render);
      var head := Resolve(items[0], context, render);
      if head.Err? {
        assert FirstError(items, head.error, context, render, 0);
      } else {
        var tail := ResolveItems(items[1..], context, render);
        if tail.Err? {
          var i :| FirstError(items[1..], tail.error, context, render, i);
          FirstErrorShifts(items, tail.error, context, render, i);
        }
      }
    }
  }

  /** An object without a reference keeps its keys in order and resolves each value, or fails
      with the error of the first value that fails. */
  lemma ObjectKeepsItsKeys(fields: seq<Field>, context: Json, render: Json -> string)
    requires Get(fields, "$ref").None?
    ensures var r := Resolve(Obj(fields), context, render);
            && (r.Ok? ==>
                  && r.value.Obj? && ResolvedEach(ValuesOf(fields), ValuesOf(r.value.fields), context, render)
                  && forall i :: 0 <= i < |fields| ==> r.value.fields[i].key == fields[i].key)
            && (r.Err? ==> exists i :: FirstError(ValuesOf(fields), r.error, context, render, i))
  {
    FieldsAreResolved(fields, context, render);
  }

  /** An array keeps its length and order, or fails with its first error. */
  lemma ArrayKeepsItsOrder(items: seq<Json>, context: Json, render: Json -> string)
    ensures var r := Resolve(Arr(items), context, render);
            && (r.Ok? ==> r.value.Arr? && ResolvedEach(items, r.value.items, context, render))
            && (r.Err? ==> exists i :: FirstError(items, r.error, context, render, i))
  {
    ItemsAreResolved(items, context, render);
  }

  // ---------- expressions without references ----------

  ghost predicate MentionsNothing(value: Json)
  {
    forall p :: !Mentions(value, p)
  }

  /** A well-formed expression that mentions nothing is its own value in every context. */
  lemma {:induction false} NothingMentionedStays(value: Json, context: Json, render: Json -> string)
    requires WellFormed(value) && MentionsNothing(value)
    ensures Resolve(value, context, render) == Ok(value)
    decreases value
  {
    match value
    case Obj(fields) =>
      if Get(fields, "$ref").Some? {
        assert Mentions(value, Get(fields, "$ref").value.text);
        assert false;
      }
      forall i | 0 <= i < |fields|
        ensures WellFormed(fields[i].value) && MentionsNothing(fields[i].value)
      {
        assert forall p :: Mentions(fields[i].value, p) ==> Mentions(value, p);
      }
      FieldsStay(fields, context, render);
    case Arr(items) =>
      forall i | 0 <= i < |items|
        ensures WellFormed(items[i]) && MentionsNothing(items[i])
      {
        assert forall p :: Mentions(items[i], p) ==> Mentions(value, p);
      }
      ItemsStay(items, context, render);
    case Str(text) =>
      if NextReference(text).Reference? {
        assert TextReferences(text)[0] == NextReference(text).pointer;
        assert Mentions(value, NextReference(text).pointer);
      }
    case _ =>
  }

  lemma {:induction false} FieldsStay(fields: seq<Field>, context: Json, render: Json -> string)
    requires forall i :: 0 <= i < |fields| ==> WellFormed(fields[i].value) && MentionsNothing(fields[i].value)
    ensures ResolveFields(fields, context, render) == Ok(fields)
    decreases fields
  {
    if fields != [] {
      NothingMentionedStays(fields[0].value, context, render);
      FieldsStay(fields[1..], context, render);
      assert [Field(fields[0].key, fields[0].value)] + fields[1..] == fields;
    }
  }

  lemma {:induction false} ItemsStay(items: seq<Json>, context: Json, render: Json -> string)
    requires forall i :: 0 <= i < |items| ==> WellFormed(items[i]) && MentionsNothing(items[i])
    ensures ResolveItems(items, context, render) == Ok(items)
    decreases items
  {
    if items != [] {
      NothingMentionedStays(items[0], context, render);
      ItemsStay(items[1..], context, render);
      assert [items[0]] + items[1..] == items;
    }
  }

  // ---------- what the checker accepts ----------

  /** A pointer passes exactly when it is rooted and well escaped and begins with the inputs, an
      allowed step, or the probe where one is allowed; otherwise the error says whether it is no
      pointer to any of them or one to something that is not available. */
  lemma PointerPassesExactly(pointer: string, safe: set<string>, probe: bool)
    ensures var rooted := pointer != "" && pointer[0] == '/' && WellEscaped(pointer[1..]);
            var tokens := if rooted then Tokens(pointer[1..]) else [""];
            var known := tokens[0] == "inputs" || tokens[0] == "steps" || tokens[0] == "probe";
            var available := || tokens[0] == "inputs"
                             || (tokens[0] == "steps" && |tokens| > 1 && tokens[1] in safe)
                             || (tokens[0] == "probe" && probe);
            CheckPointer(pointer, safe, probe) ==
              if !rooted || !known then Err(INVALID_REFERENCE)
              else if available then Ok(())
              else Err(UNSAFE_REFERENCE)
  {
    if pointer != "" {
      var parts := Split(pointer[1..], '/');
      assert Tokens(pointer[1..])[0] == DecodeToken(parts[0]);
      assert |parts| > 1 ==> Tokens(pointer[1..])[1] == DecodeToken(parts[1]);
    }
  }
}
