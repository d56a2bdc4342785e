/** Flow expressions: the static reference checker and the evaluator. */
module Expressions {
  import opened Errors
  import opened Pointers
  import opened Text
  import opened Values

  const INVALID_REFERENCE: AppError := Validation("FLOW_INVALID_REFERENCE")
  const UNSAFE_REFERENCE: AppError := Validation("FLOW_UNSAFE_REFERENCE")
  const MISSING_REFERENCE: AppError := Validation("FLOW_MISSING_REFERENCE")

  // ---------- the static checker ----------

  /** Accepts a pointer whose root is available: inputs always, a step only when it is in
      the safe set, the probe only inside a probe predicate. */
  function CheckPointer(pointer: string, safe: set<string>, probe: bool): Result<(), AppError>
  {
    if pointer == "" || pointer[0] != '/' then Err(INVALID_REFERENCE)
    else
      var path := pointer[1..];
      if !WellEscaped(path) then Err(INVALID_REFERENCE)
      else
        var parts := Split(path, '/');
        var root := DecodeToken(parts[0]);
        if root != "inputs" && root != "steps" && root != "probe" then Err(INVALID_REFERENCE)
        else if (root == "steps" && !(|parts| > 1 && DecodeToken(parts[1]) in safe))
             || (root == "probe" && !probe) then Err(UNSAFE_REFERENCE)
        else Ok(())
  }

  /** What the next `${` of a text opens. */
  datatype Opening = Nothing | Unclosed | Reference(before: string, pointer: string, after: string)

  function NextReference(text: string): (r: Opening)
    ensures r.Reference? ==> |r.after| < |text|
  {
    match Find(text, "${")
    case None => Nothing
    case Some(start) =>
      var rest := text[start + 2..];
      match Find(rest, "}")
      case None => Unclosed
      case Some(end) => Reference(text[..start], rest[..end], rest[end + 1..])
  }

  function CheckText(text: string, safe: set<string>, probe: bool): Result<(), AppError>
    decreases |text|
  {
    match NextReference(text)
    case Nothing => Ok(())
    case Unclosed => Err(INVALID_REFERENCE)
    case Reference(_, pointer, after) =>
      var checked := CheckPointer(pointer, safe, probe);
      if checked.Err? then checked else CheckText(after, safe, probe)
  }

  /** The scanning loop of the checker. */
  method ScanText(text: string, safe: set<string>, probe: bool) returns (r: Result<(), AppError>)
    ensures r == CheckText(text, safe, probe)
  {
    var rest := text;
    var next := NextReference(rest);
    while !next.Nothing?
      invariant next == NextReference(rest)
      invariant CheckText(text, safe, probe) == CheckText(rest, safe, probe)
      decreases |rest|
    {
      if next.Unclosed? {
        return Err(INVALID_REFERENCE);
      }
      var checked := CheckPointer(next.pointer, safe, probe);
      if checked.Err? {
        return checked;
      }
      rest := next.after;
      next := NextReference(rest);
    }
    return Ok(());
  }

  function Check(value: Json, safe: set<string>, probe: bool): Result<(), AppError>
  {
    match value
    case Obj(fields) =>
      (match Get(fields, "$ref")
       case Some(target) =>
         if |fields| != 1 || !target.Str? then Err(INVALID_REFERENCE)
         else CheckPointer(target.text, safe, probe)
       case None => CheckFields(fields, safe, probe))
    case Arr(items) => CheckItems(items, safe, probe)
    case Str(text) => CheckText(text, safe, probe)
    case _ => Ok(())
  }

  function CheckFields(fields: seq<Field>, safe: set<string>, probe: bool): Result<(), AppError>
  {
    if fields == [] then Ok(())
    else
      var checked := Check(fields[0].value, safe, probe);
      if checked.Err? then checked else CheckFields(fields[1..], safe, probe)
  }

  function CheckItems(items: seq<Json>, safe: set<string>, probe: bool): Result<(), AppError>
  {
    if items == [] then Ok(())
    else
      var checked := Check(items[0], safe, probe);
      if checked.Err? then checked else CheckItems(items[1..], safe, probe)
  }

  // ---------- the evaluator ----------

  function Lookup(pointer: string, context: Json): Result<Json, AppError>
  {
    if pointer == "" || pointer[0] != '/' then Err(INVALID_REFERENCE)
    else
      match Select(context, pointer)
      case Some(value) => Ok(value)
      case None => Err(MISSING_REFERENCE)
  }

  /** The text a value has inside a string; `render` serializes a non-string. */
  function TextValue(value: Json, render: Json -> string): string
  {
    if value.Str? then value.text else render(value)
  }

  function ResolveText(text: string, context: Json, render: Json -> string): Result<string, AppError>
    decreases |text|
  {
    match NextReference(text)
    case Nothing => Ok(text)
    case Unclosed => Err(INVALID_REFERENCE)
    case Reference(before, pointer, after) =>
      match Lookup(pointer, context)
      case Err(error) => Err(error)
      case Ok(value) => Prefixed(before + TextValue(value, render), ResolveText(after, context, render))
  }

  function Prefixed(output: string, tail: Result<string, AppError>): Result<string, AppError>
  {
    if tail.Ok? then Ok(output + tail.value) else tail
  }

  lemma PrefixedNothing(tail: Result<string, AppError>)
    ensures Prefixed("", tail) == tail
  {
    if tail.Ok? {
      assert "" + tail.value == tail.value;
    }
  }

  lemma PrefixedTwice(first: string, second: string, tail: Result<string, AppError>)
    ensures Prefixed(first, Prefixed(second, tail)) == Prefixed(first + second, tail)
  {
    if tail.Ok? {
      assert first + (second + tail.value) == first + second + tail.value;
    }
  }

  /** The substitution loop of the evaluator. */
  method SubstituteText(text: string, context: Json, render: Json -> string)
    returns (r: Result<string, AppError>)
    ensures r == ResolveText(text, context, render)
  {
    ghost var whole := ResolveText(text, context, render);
    var rest, output := text, "";
    var next := NextReference(rest);
    PrefixedNothing(whole);
    while !next.Nothing?
      invariant next == NextReference(rest)
      invariant whole == Prefixed(output, ResolveText(rest, context, render))
      decreases |rest|
    {
      if next.Unclosed? {
        return Err(INVALID_REFERENCE);
      }
      var value := Lookup(next.pointer, context);
      if value.Err? {
        return Err(value.error);
      }
      PrefixedTwice(output, next.before + TextValue(value.value, render), ResolveText(next.after, context, render));
      output := output + (next.before + TextValue(value.value, render));
      rest := next.after;
      next := NextReference(rest);
    }
    return Ok(output + rest);
  }

  function Resolve(value: Json, context: Json, render: Json -> string): Result<Json, AppError>
    decreases value
  {
    match value
    case Obj(fields) =>
      (match Get(fields, "$ref")
       case Some(target) =>
         if |fields| != 1 || !target.Str? then Err(INVALID_REFERENCE)
         else Lookup(target.text, context)
       case None =>
         match ResolveFields(fields, context, render)
         case Ok(resolved) => Ok(Obj(resolved))
         case Err(error) => Err(error))
    case Arr(items) =>
      (match ResolveItems(items, context, render)
       case Ok(resolved) => Ok(Arr(resolved))
       case Err(error) => Err(error))
    case Str(text) =>
      (match ResolveText(text, context, render)
       case Ok(resolved) => Ok(Str(resolved))
       case Err(error) => Err(error))
    case _ => Ok(value)
  }

  function ResolveFields(fields: seq<Field>, context: Json, render: Json -> string): Result<seq<Field>, AppError>
    decreases fields
  {
    if fields == [] then Ok([])
    else
      match Resolve(fields[0].value, context, render)
      case Err(error) => Err(error)
      case Ok(head) =>
        match ResolveFields(fields[1..], context, render)
        case Err(error) => Err(error)
        case Ok(tail) => Ok([Field(fields[0].key, head)] + tail)
  }

  function ResolveItems(items: seq<Json>, context: Json, render: Json -> string): Result<seq<Json>, AppError>
    decreases items
  {
    if items == [] then Ok([])
    else
      match Resolve(items[0], context, render)
      case Err(error) => Err(error)
      case Ok(head) =>
        match ResolveItems(items[1..], context, render)
        case Err(error) => Err(error)
        case Ok(tail) => Ok([head] + tail)
  }

  // ---------- what an expression mentions ----------

  /** Every opened `${` of a text is closed. */
  predicate Terminated(text: string)
    decreases |text|
  {
    match NextReference(text)
    case Nothing => true
    case Unclosed => false
    case Reference(_, _, after) => Terminated(after)
  }

  function TextReferences(text: string): seq<string>
    decreases |text|
  {
    match NextReference(text)
    case Nothing => []
    case Unclosed => []
    case Reference(_, pointer, after) => [pointer] + TextReferences(after)
  }

  predicate WellFormed(value: Json)
  {
    match value
    case Obj(fields) =>
      (match Get(fields, "$ref")
       case Some(target) => |fields| == 1 && target.Str?
       case None => forall i :: 0 <= i < |fields| ==> WellFormed(fields[i].value))
    case Arr(items) => forall i :: 0 <= i < |items| ==> WellFormed(items[i])
    case Str(text) => Terminated(text)
    case _ => true
  }

  /** The pointer occurs in the expression, as a reference object or inside a text. */
  predicate Mentions(value: Json, pointer: string)
  {
    match value
    case Obj(fields) =>
      (match Get(fields, "$ref")
       case Some(target) => target.Str? && target.text == pointer
       case None => exists i :: 0 <= i < |fields| && Mentions(fields[i].value, pointer))
    case Arr(items) => exists i :: 0 <= i < |items| && Mentions(items[i], pointer)
    case Str(text) => pointer in TextReferences(text)
    case _ => false
  }

  ghost predicate AllPointersPass(value: Json, safe: set<string>, probe: bool)
  {
    forall p :: Mentions(value, p) ==> CheckPointer(p, safe, probe).Ok?
  }

  lemma {:induction false} CheckTextMeans(text: string, safe: set<string>, probe: bool)
    ensures CheckText(text, safe, probe).Ok? <==>
            Terminated(text) && forall p :: p in TextReferences(text) ==> CheckPointer(p, safe, probe).Ok?
    decreases |text|
  {
    if NextReference(text).Reference? {
      CheckTextMeans(NextReference(text).after, safe, probe);
      assert TextReferences(text)[0] == NextReference(text).pointer;
    }
  }

  /** The checker accepts exactly the well-formed expressions all of whose pointers pass. */
  lemma {:induction false} CheckMeans(value: Json, safe: set<string>, probe: bool)
    ensures Check(value, safe, probe).Ok? <==> WellFormed(value) && AllPointersPass(value, safe, probe)
    decreases value
  {
    match value
    case Obj(fields) =>
      if Get(fields, "$ref").Some? {
        var target := Get(fields, "$ref").value;
        assert target.Str? ==> Mentions(value, target.text);
      } else {
        CheckFieldsMean(fields, safe, probe);
        assert forall i, p :: 0 <= i < |fields| && Mentions(fields[i].value, p) ==> Mentions(value, p);
      }
    case Arr(items) =>
      CheckItemsMean(items, safe, probe);
      assert forall i, p :: 0 <= i < |items| && Mentions(items[i], p) ==> Mentions(value, p);
    case Str(text) =>
      CheckTextMeans(text, safe, probe);
      assert forall p :: p in TextReferences(text) <==> Mentions(value, p);
    case _ =>
  }

  lemma {:induction false} CheckFieldsMean(fields: seq<Field>, safe: set<string>, probe: bool)
    ensures CheckFields(fields, safe, probe).Ok? <==>
            forall i :: 0 <= i < |fields| ==> WellFormed(fields[i].value) && AllPointersPass(fields[i].value, safe, probe)
    decreases fields
  {
    if fields != [] {
      CheckMeans(fields[0].value, safe, probe);
      CheckFieldsMean(fields[1..], safe, probe);
      assert forall i :: 1 <= i < |fields| ==> fields[i] == fields[1..][i - 1];
    }
  }

  lemma {:induction false} CheckItemsMean(items: seq<Json>, safe: set<string>, probe: bool)
    ensures CheckItems(items, safe, probe).Ok? <==>
            forall i :: 0 <= i < |items| ==> WellFormed(items[i]) && AllPointersPass(items[i], safe, probe)
    decreases items
  {
    if items != [] {
      CheckMeans(items[0], safe, probe);
      CheckItemsMean(items[1..], safe, probe);
      assert forall i :: 1 <= i < |items| ==> items[i] == items[1..][i - 1];
    }
  }
}
