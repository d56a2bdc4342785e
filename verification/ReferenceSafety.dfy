/** What acceptance by the checker guarantees about evaluation. */
module ReferenceSafety {
  import opened Expressions
  import opened Pointers
  import opened Text
  import opened Values

  /** Every mentioned pointer is rooted. */
  ghost predicate Rooted(value: Json)
  {
    forall p :: Mentions(value, p) ==> p != "" && p[0] == '/'
  }

  ghost predicate AllSelected(value: Json, context: Json)
  {
    forall p :: Mentions(value, p) ==> Select(context, p).Some?
  }

  // ---------- evaluation depends on the mentioned pointers only ----------

  lemma ReferencesOfText(text: string)
    requires NextReference(text).Reference?
    ensures var next := NextReference(text);
            forall p :: p in TextReferences(text) <==> p == next.pointer || p in TextReferences(next.after)
  {
  }

  lemma {:induction false} ResolveTextMeans(text: string, context: Json, render: Json -> string)
    requires Terminated(text)
    requires forall p :: p in TextReferences(text) ==> p != "" && p[0] == '/'
    ensures ResolveText(text, context, render).Ok? <==>
            forall p :: p in TextReferences(text) ==> Select(context, p).Some?
    ensures ResolveText(text, context, render).Err? ==>
            ResolveText(text, context, render).error == MISSING_REFERENCE
    decreases |text|
  {
    if NextReference(text).Reference? {
      ReferencesOfText(text);
      var next := NextReference(text);
      ResolveTextMeans(next.after, context, render);
      assert next.pointer in TextReferences(text);
      assert Lookup(next.pointer, context).Ok? <==> Select(context, next.pointer).Some?;
    }
  }

  ghost predicate MentionedIn(values: seq<Json>, p: string)
  {
    exists i :: 0 <= i < |values| && Mentions(values[i], p)
  }

  /** What an object or array mentions is what its values mention. */
  ghost predicate Gathers(value: Json, values: seq<Json>)
  {
    && (forall i {:trigger WellFormed(values[i])} :: 0 <= i < |values| ==> WellFormed(values[i]))
    && (forall p {:trigger Mentions(value, p)} {:trigger MentionedIn(values, p)} :: Mentions(value, p) <==> MentionedIn(values, p))
  }

  lemma FieldsGather(value: Json)
    requires WellFormed(value) && value.Obj? && Get(value.fields, "$ref").None?
    ensures Gathers(value, FieldValues(value.fields))
  {
    var values := FieldValues(value.fields);
    forall p
      ensures Mentions(value, p) <==> MentionedIn(values, p)
    {
      assert forall i :: 0 <= i < |values| ==> values[i] == value.fields[i].value;
    }
  }

  lemma ItemsGather(value: Json)
    requires WellFormed(value) && value.Arr?
    ensures Gathers(value, value.items)
  {
  }

  lemma GatheredAreReady(value: Json, values: seq<Json>)
    requires Gathers(value, values) && Rooted(value)
    ensures AllReady(values)
  {
    forall i | 0 <= i < |values|
      ensures WellFormed(values[i]) && Rooted(values[i])
    {
      forall p | Mentions(values[i], p)
        ensures p != "" && p[0] == '/'
      {
        assert MentionedIn(values, p);
      }
    }
  }

  lemma GatheredAreSelected(value: Json, values: seq<Json>, context: Json)
    requires Gathers(value, values)
    ensures AllSelected(value, context) <==> EachSelected(values, context)
  {
    if AllSelected(value, context) {
      forall i, p | 0 <= i < |values| && Mentions(values[i], p)
        ensures Select(context, p).Some?
      {
        assert MentionedIn(values, p);
      }
    }
    if EachSelected(values, context) {
      forall p | Mentions(value, p)
        ensures Select(context, p).Some?
      {
        assert MentionedIn(values, p);
        var i :| 0 <= i < |values| && Mentions(values[i], p);
        assert AllSelected(values[i], context);
      }
    }
  }

  /** A well-formed rooted expression evaluates exactly when the context has everything it
      mentions, and the only error is a missing reference. */
  lemma {:induction false} ResolveMeans(value: Json, context: Json, render: Json -> string)
    requires WellFormed(value) && Rooted(value)
    ensures Resolve(value, context, render).Ok? <==> AllSelected(value, context)
    ensures Resolve(value, context, render).Err? ==> Resolve(value, context, render).error == MISSING_REFERENCE
    decreases value
  {
    match value
    case Obj(fields) =>
      if Get(fields, "$ref").Some? {
        assert Mentions(value, Get(fields, "$ref").value.text);
      } else {
        FieldsGather(value);
        GatheredAreReady(value, FieldValues(fields));
        GatheredAreSelected(value, FieldValues(fields), context);
        ResolveFieldsMean(fields, context, render);
      }
    case Arr(items) =>
      ItemsGather(value);
      GatheredAreReady(value, items);
      GatheredAreSelected(value, items, context);
      ResolveItemsMean(items, context, render);
    case Str(text) =>
      assert forall p :: p in TextReferences(text) <==> Mentions(value, p);
      ResolveTextMeans(text, context, render);
    case _ =>
  }

  /** The values of an object or array that resolves in this context. */
  ghost predicate AllReady(values: seq<Json>)
  {
    forall i {:trigger values[i]} :: 0 <= i < |values| ==> WellFormed(values[i]) && Rooted(values[i])
  }

  ghost predicate EachSelected(values: seq<Json>, context: Json)
  {
    forall i {:trigger values[i]} :: 0 <= i < |values| ==> AllSelected(values[i], context)
  }

  lemma EachSelectedStep(values: seq<Json>, context: Json)
    requires values != []
    ensures EachSelected(values, context) <==> AllSelected(values[0], context) && EachSelected(values[1..], context)
    ensures AllReady(values) ==> WellFormed(values[0]) && Rooted(values[0]) && AllReady(values[1..])
  {
    assert forall i :: 1 <= i < |values| ==> values[i] == values[1..][i - 1];
    assert forall i :: 0 <= i < |values| - 1 ==> values[1..][i] == values[i + 1];
  }

  function FieldValues(fields: seq<Field>): (r: seq<Json>)
    ensures |r| == |fields| && forall i :: 0 <= i < |r| ==> r[i] == fields[i].value
  {
    if fields == [] then [] else [fields[0].value] + FieldValues(fields[1..])
  }

  lemma {:induction false} ResolveFieldsMean(fields: seq<Field>, context: Json, render: Json -> string)
    requires AllReady(FieldValues(fields))
    ensures ResolveFields(fields, context, render).Ok? <==> EachSelected(FieldValues(fields), context)
    ensures ResolveFields(fields, context, render).Err? ==>
            ResolveFields(fields, context, render).error == MISSING_REFERENCE
    decreases fields
  {
    if fields != [] {
      assert FieldValues(fields)[1..] == FieldValues(fields[1..]);
      EachSelectedStep(FieldValues(fields), context);
      ResolveMeans(fields[0].value, context, render);
      ResolveFieldsMean(fields[1..], context, render);
    }
  }

  lemma {:induction false} ResolveItemsMean(items: seq<Json>, context: Json, render: Json -> string)
    requires AllReady(items)
    ensures ResolveItems(items, context, render).Ok? <==> EachSelected(items, context)
    ensures ResolveItems(items, context, render).Err? ==>
            ResolveItems(items, context, render).error == MISSING_REFERENCE
    decreases items
  {
    if items != [] {
      EachSelectedStep(items, context);
      ResolveMeans(items[0], context, render);
      ResolveItemsMean(items[1..], context, render);
    }
  }

  ghost predicate SelectAlike(value: Json, one: Json, two: Json)
  {
    forall p :: Mentions(value, p) ==> Select(one, p) == Select(two, p)
  }

  lemma {:induction false} TextDependsOnMentions(text: string, one: Json, two: Json, render: Json -> string)
    requires forall p :: p in TextReferences(text) ==> Select(one, p) == Select(two, p)
    ensures ResolveText(text, one, render) == ResolveText(text, two, render)
    decreases |text|
  {
    if NextReference(text).Reference? {
      ReferencesOfText(text);
      TextDependsOnMentions(NextReference(text).after, one, two, render);
    }
  }

  /** Contexts that agree on what an expression mentions give it the same result. */
  lemma {:induction false} DependsOnMentions(value: Json, one: Json, two: Json, render: Json -> string)
    requires SelectAlike(value, one, two)
    ensures Resolve(value, one, render) == Resolve(value, two, render)
    decreases value
  {
    match value
    case Obj(fields) =>
      if Get(fields, "$ref").Some? {
        var target := Get(fields, "$ref").value;
        assert target.Str? ==> Mentions(value, target.text);
      } else {
        assert forall i, p :: 0 <= i < |fields| && Mentions(fields[i].value, p) ==> Mentions(value, p);
        FieldsDependOnMentions(fields, one, two, render);
      }
    case Arr(items) =>
      assert forall i, p :: 0 <= i < |items| && Mentions(items[i], p) ==> Mentions(value, p);
      ItemsDependOnMentions(items, one, two, render);
    case Str(text) =>
      assert forall p :: p in TextReferences(text) <==> Mentions(value, p);
      TextDependsOnMentions(text, one, two, render);
    case _ =>
  }

  lemma {:induction false} FieldsDependOnMentions(fields: seq<Field>, one: Json, two: Json, render: Json -> string)
    requires forall i :: 0 <= i < |fields| ==> SelectAlike(fields[i].value, one, two)
    ensures ResolveFields(fields, one, render) == ResolveFields(fields, two, render)
    decreases fields
  {
    if fields != [] {
      DependsOnMentions(fields[0].value, one, two, render);
      FieldsDependOnMentions(fields[1..], one, two, render);
    }
  }

  lemma {:induction false} ItemsDependOnMentions(items: seq<Json>, one: Json, two: Json, render: Json -> string)
    requires forall i :: 0 <= i < |items| ==> SelectAlike(items[i], one, two)
    ensures ResolveItems(items, one, render) == ResolveItems(items, two, render)
    decreases items
  {
    if items != [] {
      DependsOnMentions(items[0], one, two, render);
      ItemsDependOnMentions(items[1..], one, two, render);
    }
  }

  // ---------- from the checker to the evaluator ----------

  /** The part of a pointer the checker vouches for. */
  function Root(pointer: string): seq<string>
    requires pointer != ""
  {
    var tokens := Tokens(pointer[1..]);
    if tokens[0] == "steps" && |tokens| > 1 then tokens[..2] else tokens[..1]
  }

  /** The context holds the inputs, the output of every safe step, and the probe if asked. */
  ghost predicate Offers(context: Json, safe: set<string>, probe: bool)
  {
    && Walk(context, ["inputs"]).Some?
    && (forall id :: id in safe ==> Walk(context, ["steps", id]).Some?)
    && (probe ==> Walk(context, ["probe"]).Some?)
  }

  /** The two contexts hold the same inputs, safe outputs, and probe. */
  ghost predicate Agree(one: Json, two: Json, safe: set<string>, probe: bool)
  {
    && Walk(one, ["inputs"]) == Walk(two, ["inputs"])
    && (forall id :: id in safe ==> Walk(one, ["steps", id]) == Walk(two, ["steps", id]))
    && (probe ==> Walk(one, ["probe"]) == Walk(two, ["probe"]))
  }

  lemma PassedPointer(pointer: string, safe: set<string>, probe: bool)
    requires CheckPointer(pointer, safe, probe).Ok?
    ensures pointer != "" && pointer[0] == '/'
    ensures var tokens := Tokens(pointer[1..]);
            && Root(pointer) == tokens[..|Root(pointer)|]
            && (|| Root(pointer) == ["inputs"]
                || (|Root(pointer)| == 2 && Root(pointer)[1] in safe && Root(pointer) == ["steps", Root(pointer)[1]])
                || (probe && Root(pointer) == ["probe"]))
    ensures forall context :: Select(context, pointer) ==
              (match Walk(context, Root(pointer))
               case Some(v) => Walk(v, Tokens(pointer[1..])[|Root(pointer)|..])
               case None => None)
  {
    var path := pointer[1..];
    assert pointer == "/" + path;
    var parts, tokens := Split(path, '/'), Tokens(path);
    assert tokens[0] == DecodeToken(parts[0]);
    var n := |Root(pointer)|;
    assert tokens == tokens[..n] + tokens[n..];
    forall context
      ensures Select(context, pointer) ==
              (match Walk(context, Root(pointer))
               case Some(v) => Walk(v, Tokens(pointer[1..])[|Root(pointer)|..])
               case None => None)
    {
      SelectTokens(context, path);
      WalkAppend(context, tokens[..n], tokens[n..]);
    }
  }

  /** Accepted expressions never fail as invalid: every vouched prefix is present, and a
      missing reference is a missing field below such a prefix. */
  lemma CheckedExpressionIsSafe(value: Json, context: Json, safe: set<string>, probe: bool, render: Json -> string)
    requires Check(value, safe, probe).Ok?
    requires Offers(context, safe, probe)
    ensures forall p :: Mentions(value, p) ==> p != "" && Walk(context, Root(p)).Some?
    ensures Resolve(value, context, render).Ok? <==> AllSelected(value, context)
    ensures Resolve(value, context, render).Err? ==> Resolve(value, context, render).error == MISSING_REFERENCE
  {
    CheckMeans(value, safe, probe);
    forall p | Mentions(value, p)
      ensures p != "" && p[0] == '/' && Walk(context, Root(p)).Some?
    {
      PassedPointer(p, safe, probe);
    }
    ResolveMeans(value, context, render);
  }

  /** An accepted expression sees nothing but the inputs, the safe outputs and the probe. */
  lemma CheckedExpressionIsConfined(value: Json, one: Json, two: Json, safe: set<string>, probe: bool, render: Json -> string)
    requires Check(value, safe, probe).Ok?
    requires Agree(one, two, safe, probe)
    ensures Resolve(value, one, render) == Resolve(value, two, render)
  {
    CheckMeans(value, safe, probe);
    forall p | Mentions(value, p)
      ensures Select(one, p) == Select(two, p)
    {
      PassedPointer(p, safe, probe);
    }
    DependsOnMentions(value, one, two, render);
  }

  /** Every step id can be referenced: escape it into a pointer, and the checker accepts the
      pointer exactly when the step is safe, and the evaluator finds that step's output. */
  lemma EveryStepIsReferencable(id: string, safe: set<string>, context: Json)
    ensures var pointer := "/steps/" + Escape(id);
            && CheckPointer(pointer, safe, false) == (if id in safe then Ok(()) else Err(UNSAFE_REFERENCE))
            && Select(context, pointer) == Walk(context, ["steps", id])
  {
    var token := Escape(id);
    var path := "steps/" + token;
    var pointer := "/steps/" + token;
    assert pointer == "/" + path && pointer[1..] == path;
    EscapeRoundTrip(id);
    WellEscapedAfterLetters(token);
    StepsPathParts(token);
    DecodeIsUnescape(token);
    DecodeSteps();
    assert Tokens(path) == ["steps", id];
    SelectTokens(context, path);
  }

  lemma StepsPathParts(token: string)
    requires '/' !in token
    ensures Split("steps/" + token, '/') == ["steps", token]
  {
    assert "steps/" + token == "steps" + ['/'] + token;
    SplitAfterPiece("steps", token, '/');
    SplitSingle(token, '/');
  }

  lemma WellEscapedAfterLetters(token: string)
    requires WellEscaped(token)
    ensures WellEscaped("steps/" + token)
  {
    var t := "steps/" + token;
    assert t[1..] == "teps/" + token;
    assert t[1..][1..] == "eps/" + token;
    assert t[1..][1..][1..] == "ps/" + token;
    assert t[1..][1..][1..][1..] == "s/" + token;
    assert t[1..][1..][1..][1..][1..] == "/" + token;
    assert t[1..][1..][1..][1..][1..][1..] == token;
    assert WellEscaped(t[1..][1..][1..][1..][1..]);
    assert WellEscaped(t[1..][1..][1..][1..]);
    assert WellEscaped(t[1..][1..][1..]);
    assert WellEscaped(t[1..][1..]);
  }

  lemma DecodeSteps()
    ensures DecodeToken("steps") == "steps"
  {
    var t := "steps";
    assert t[1..] == "teps" && t[1..][1..] == "eps" && t[1..][1..][1..] == "ps";
    assert WellEscaped("s") && WellEscaped("ps") && WellEscaped("eps") && WellEscaped("teps");
    assert WellEscaped(t);
    assert Unescape("s") == "s" && Unescape("ps") == "ps" && Unescape("eps") == "eps" && Unescape("teps") == "teps";
    DecodeIsUnescape(t);
  }
}
