/** The declared inputs of a flow: what validation accepts, and how a run fills in defaults. */
module Inputs {
  import opened Values
  import opened Errors

  datatype Kind = StringInput | NumberInput | BooleanInput | JsonInput

  datatype Input = Input(name: string, kind: Kind, required: bool, secret: bool, default: Option<Json>)

  predicate MatchesType(kind: Kind, value: Json)
  {
    match kind
    case StringInput => value.Str?
    case NumberInput => value.Number?
    case BooleanInput => value.Bool?
    case JsonInput => true
  }

  /** Which values each kind of input takes. */
  lemma KindsTake(value: Json)
    ensures MatchesType(StringInput, value) <==> exists text :: value == Str(text)
    ensures MatchesType(NumberInput, value) <==> exists number :: value == Number(number)
    ensures MatchesType(BooleanInput, value) <==> value == Bool(true) || value == Bool(false)
    ensures MatchesType(JsonInput, value)
  {
  }

  // ---------- declarations ----------

  /** Which names are well formed, and which look like the name of a secret. */
  datatype Names = Names(wellFormed: string -> bool, sensitive: string -> bool)

  function CheckInput(names: Names, seen: set<string>, input: Input): Result<(), AppError>
  {
    if !names.wellFormed(input.name) || input.name in seen then Err(Invalid("FLOW_INVALID_INPUT_DEFINITION"))
    else if input.default.Some? && (input.secret || names.sensitive(input.name)) then
      Err(Invalid("FLOW_SECRET_DEFAULT_NOT_ALLOWED"))
    else if input.default.Some? && !MatchesType(input.kind, input.default.value) then Err(Invalid("FLOW_INPUT_TYPE_MISMATCH"))
    else Ok(())
  }

  function CheckInputs(names: Names, seen: set<string>, inputs: seq<Input>): Result<(), AppError>
    decreases |inputs|
  {
    if inputs == [] then Ok(())
    else if CheckInput(names, seen, inputs[0]).Err? then CheckInput(names, seen, inputs[0])
    else CheckInputs(names, seen + {inputs[0].name}, inputs[1..])
  }

  method ValidateInputs(names: Names, inputs: seq<Input>) returns (r: Result<(), AppError>)
    ensures r == CheckInputs(names, {}, inputs)
  {
    var seen: set<string> := {};
    for i := 0 to |inputs|
      invariant CheckInputs(names, seen, inputs[i..]) == CheckInputs(names, {}, inputs)
    {
      var input := inputs[i];
      assert inputs[i..][0] == input && inputs[i..][1..] == inputs[i + 1..];
      if !names.wellFormed(input.name) || input.name in seen {
        return Err(Invalid("FLOW_INVALID_INPUT_DEFINITION"));
      }
      seen := seen + {input.name};
      if input.default.Some? {
        if input.secret || names.sensitive(input.name) {
          return Err(Invalid("FLOW_SECRET_DEFAULT_NOT_ALLOWED"));
        }
        if !MatchesType(input.kind, input.default.value) {
          return Err(Invalid("FLOW_INPUT_TYPE_MISMATCH"));
        }
      }
    }
    return Ok(());
  }

  predicate UniqueNames(inputs: seq<Input>)
  {
    forall i, j :: 0 <= i < j < |inputs| ==> inputs[i].name != inputs[j].name
  }

  /** The default may be published and has the declared type. */
  predicate GoodDefault(names: Names, input: Input)
  {
    && names.wellFormed(input.name)
    && (input.default.Some? ==>
          !input.secret && !names.sensitive(input.name) && MatchesType(input.kind, input.default.value))
  }

  /** Validation accepts exactly unique, well-formed names whose defaults are not secret and
      have their declared type. */
  lemma {:induction false} CheckInputsMeans(names: Names, seen: set<string>, inputs: seq<Input>)
    ensures CheckInputs(names, seen, inputs).Ok? <==>
            && UniqueNames(inputs)
            && (forall i :: 0 <= i < |inputs| ==> inputs[i].name !in seen && GoodDefault(names, inputs[i]))
    decreases |inputs|
  {
    if inputs != [] {
      var rest, now := inputs[1..], seen + {inputs[0].name};
      CheckInputsMeans(names, now, rest);
      assert forall i :: 0 < i < |inputs| ==> inputs[i] == rest[i - 1];
      if UniqueNames(inputs) {
        assert forall i :: 0 <= i < |rest| ==> rest[i] == inputs[i + 1];
      }
      if UniqueNames(rest) && forall i :: 0 <= i < |rest| ==> rest[i].name !in now {
        forall i, j | 0 <= i < j < |inputs|
          ensures inputs[i].name != inputs[j].name
        {
          assert rest[j - 1].name !in now;
        }
      }
    }
  }

  // ---------- resolving ----------

  function ResolveInput(input: Input, given: seq<Field>): Result<seq<Field>, AppError>
  {
    var filled := if Get(given, input.name).None? && input.default.Some? then Put(given, input.name, input.default.value) else given;
    if Get(given, input.name).None? && input.default.None? && input.required then Err(Invalid("FLOW_REQUIRED_INPUT_MISSING"))
    else if Get(filled, input.name).Some? && !MatchesType(input.kind, Get(filled, input.name).value) then
      Err(Invalid("FLOW_INPUT_TYPE_MISMATCH"))
    else Ok(filled)
  }

  function ResolveEach(inputs: seq<Input>, given: seq<Field>): Result<seq<Field>, AppError>
  {
    if inputs == [] then Ok(given)
    else
      match ResolveInput(inputs[0], given)
      case Err(error) => Err(error)
      case Ok(filled) => ResolveEach(inputs[1..], filled)
  }

  function Resolved(inputs: seq<Input>, given: Json): Result<Json, AppError>
  {
    if !given.Obj? then Err(Invalid("FLOW_INPUTS_OBJECT_REQUIRED"))
    else
      match ResolveEach(inputs, given.fields)
      case Err(error) => Err(error)
      case Ok(fields) => Ok(Obj(fields))
  }

  method ResolveInputs(inputs: seq<Input>, given: Json) returns (r: Result<Json, AppError>)
    ensures r == Resolved(inputs, given)
  {
    if !given.Obj? {
      return Err(Invalid("FLOW_INPUTS_OBJECT_REQUIRED"));
    }
    var fields := given.fields;
    for i := 0 to |inputs|
      invariant ResolveEach(inputs[i..], fields) == ResolveEach(inputs, given.fields)
    {
      var input := inputs[i];
      assert inputs[i..][0] == input && inputs[i..][1..] == inputs[i + 1..];
      var before := fields;
      if Get(fields, input.name).None? {
        if input.default.Some? {
          fields := Put(fields, input.name, input.default.value);
        } else if input.required {
          return Err(Invalid("FLOW_REQUIRED_INPUT_MISSING"));
        }
      }
      var value := Get(fields, input.name);
      if value.Some? && !MatchesType(input.kind, value.value) {
        return Err(Invalid("FLOW_INPUT_TYPE_MISMATCH"));
      }
      assert ResolveInput(input, before) == Ok(fields);
    }
    return Ok(Obj(fields));
  }

  /** The given value, or else the default. */
  function Effective(input: Input, given: Option<Json>): Option<Json>
  {
    if given.Some? then given else input.default
  }

  predicate Acceptable(input: Input, given: Option<Json>)
  {
    match Effective(input, given)
    case None => !input.required
    case Some(value) => MatchesType(input.kind, value)
  }

  predicate AllAcceptable(inputs: seq<Input>, given: seq<Field>)
  {
    forall i {:trigger inputs[i]} :: 0 <= i < |inputs| ==> Acceptable(inputs[i], Get(given, inputs[i].name))
  }

  /** Every declared input has its effective value, and nothing else has changed. */
  ghost predicate IsFilled(inputs: seq<Input>, given: seq<Field>, filled: seq<Field>)
  {
    && (forall i {:trigger inputs[i]} :: 0 <= i < |inputs| ==>
          Get(filled, inputs[i].name) == Effective(inputs[i], Get(given, inputs[i].name)))
    && (forall key :: (forall i :: 0 <= i < |inputs| ==> inputs[i].name != key) ==> Get(filled, key) == Get(given, key))
  }

  lemma ResolveInputMeans(input: Input, given: seq<Field>)
    ensures ResolveInput(input, given).Ok? <==> Acceptable(input, Get(given, input.name))
    ensures ResolveInput(input, given).Ok? ==>
              forall key :: Get(ResolveInput(input, given).value, key) ==
                            if key == input.name then Effective(input, Get(given, input.name)) else Get(given, key)
  {
    if Get(given, input.name).None? && input.default.Some? {
      forall key
        ensures Get(Put(given, input.name, input.default.value), key) ==
                if key == input.name then input.default else Get(given, key)
      {
        GetPut(given, input.name, input.default.value, key);
      }
    }
  }

  /** Inputs resolve exactly when each declared one is acceptable, and then the result holds
      the given value or the default of each and leaves all other fields alone. */
  lemma {:induction false} ResolveEachMeans(inputs: seq<Input>, given: seq<Field>)
    requires UniqueNames(inputs)
    ensures ResolveEach(inputs, given).Ok? <==> AllAcceptable(inputs, given)
    ensures ResolveEach(inputs, given).Ok? ==> IsFilled(inputs, given, ResolveEach(inputs, given).value)
  {
    if inputs != [] {
      var first, rest := inputs[0], inputs[1..];
      ResolveInputMeans(first, given);
      assert forall i :: 0 < i < |inputs| ==> inputs[i] == rest[i - 1];
      if ResolveInput(first, given).Ok? {
        var filled := ResolveInput(first, given).value;
        ResolveEachMeans(rest, filled);
        forall i | 0 <= i < |rest|
          ensures rest[i] == inputs[i + 1] && Get(filled, rest[i].name) == Get(given, rest[i].name)
        {
        }
      }
    }
  }

  /** After resolving, a required or defaulted input is there and has its type. */
  lemma DeclaredInputIsPresent(inputs: seq<Input>, given: Json, i: nat)
    requires UniqueNames(inputs) && i < |inputs| && (inputs[i].required || inputs[i].default.Some?)
    requires Resolved(inputs, given).Ok?
    ensures var value := Get(Resolved(inputs, given).value.fields, inputs[i].name);
            value.Some? && MatchesType(inputs[i].kind, value.value)
  {
    ResolveEachMeans(inputs, given.fields);
    assert Acceptable(inputs[i], Get(given.fields, inputs[i].name));
  }
}
