/** Predicates over the run context, and the context itself. */
module Conditions {
  import opened Errors
  import opened Expressions
  import opened FlowModel
  import opened Pointers
  import opened ReferenceSafety
  import opened Validation
  import opened Values

  const EXPECTED_ARRAY: AppError := AppError.Validation("FLOW_EXPECTED_ARRAY")
  const EXPECTED_NUMBER: AppError := AppError.Validation("FLOW_EXPECTED_NUMBER")

  function Holds(p: Predicate, context: Json, render: Json -> string): Result<bool, AppError>
  {
    match Resolve(p.left, context, render)
    case Err(error) => Err(error)
    case Ok(left) =>
      match Resolve(p.right, context, render)
      case Err(error) => Err(error)
      case Ok(right) => Compare(p.op, left, right)
  }

  function Compare(op: Operator, left: Json, right: Json): Result<bool, AppError>
  {
    match op
    case Eq => Ok(left == right)
    case Ne => Ok(left != right)
    case In => if right.Arr? then Ok(left in right.items) else Err(EXPECTED_ARRAY)
    case _ =>
      if !left.Number? || !right.Number? then Err(EXPECTED_NUMBER)
      else
        var (a, b) := (left.number, right.number);
        Ok(match op
           case Gt => a > b
           case Ge => a >= b
           case Lt => a < b
           case _ => a <= b)
  }

  // ---------- what the operators mean ----------

  /** Both operands resolve, to these values. */
  predicate Operands(p: Predicate, context: Json, render: Json -> string, left: Json, right: Json)
  {
    Resolve(p.left, context, render) == Ok(left) && Resolve(p.right, context, render) == Ok(right)
  }

  /** An operand that does not resolve decides the predicate, the left one first. */
  lemma OperandErrorsComeFirst(p: Predicate, context: Json, render: Json -> string)
    ensures var left, right := Resolve(p.left, context, render), Resolve(p.right, context, render);
            && (left.Err? ==> Holds(p, context, render) == Err(left.error))
            && (left.Ok? && right.Err? ==> Holds(p, context, render) == Err(right.error))
  {
  }

  /** Equality and inequality compare the resolved values. */
  lemma EqualityMeans(p: Predicate, context: Json, render: Json -> string, left: Json, right: Json)
    requires Operands(p, context, render, left, right)
    ensures p.op.Eq? ==> Holds(p, context, render).Ok? && (Holds(p, context, render).value <==> left == right)
    ensures p.op.Ne? ==> Holds(p, context, render).Ok? && (Holds(p, context, render).value <==> left != right)
  {
  }

  /** The other comparisons are the orders of the numbers, and fail exactly when an operand is
      no number. */
  lemma OrdersMean(p: Predicate, context: Json, render: Json -> string, left: Json, right: Json)
    requires Operands(p, context, render, left, right)
    requires p.op.Gt? || p.op.Ge? || p.op.Lt? || p.op.Le?
    ensures var r := Holds(p, context, render);
            && (r.Ok? <==> left.Number? && right.Number?)
            && (r.Err? ==> r == Err(AppError.Validation("FLOW_EXPECTED_NUMBER")))
            && (r.Ok? && p.op.Gt? ==> (r.value <==> left.number > right.number))
            && (r.Ok? && p.op.Ge? ==> (r.value <==> left.number >= right.number))
            && (r.Ok? && p.op.Lt? ==> (r.value <==> left.number < right.number))
            && (r.Ok? && p.op.Le? ==> (r.value <==> left.number <= right.number))
  {
  }

  /** Membership looks for an index that has the value, and fails exactly for a non-array. */
  lemma MembershipMeans(p: Predicate, context: Json, render: Json -> string, left: Json, right: Json)
    requires Operands(p, context, render, left, right) && p.op.In?
    ensures var r := Holds(p, context, render);
            && (r.Ok? <==> right.Arr?)
            && (r.Err? ==> r == Err(AppError.Validation("FLOW_EXPECTED_ARRAY")))
            && (r.Ok? ==> (r.value <==> exists i :: 0 <= i < |right.items| && right.items[i] == left))
  {
  }

  /** The laws of one comparison and its opposite, and of the two directions of an order. */
  lemma OperatorsAgree(left: Json, right: Json, context: Json, render: Json -> string)
    ensures Holds(Predicate(left, Operator.Ne, right), context, render)
            == Negated(Holds(Predicate(left, Operator.Eq, right), context, render))
    ensures Holds(Predicate(left, Operator.Le, right), context, render)
            == Negated(Holds(Predicate(left, Operator.Gt, right), context, render))
    ensures Holds(Predicate(left, Operator.Ge, right), context, render)
            == Negated(Holds(Predicate(left, Operator.Lt, right), context, render))
  {
  }

  function Negated(r: Result<bool, AppError>): Result<bool, AppError>
  {
    match r
    case Ok(held) => Ok(!held)
    case Err(error) => Err(error)
  }

  /** The context a run starts a step with: the inputs and the outputs so far. */
  function Context(inputs: Json, outputs: seq<Field>): Json
  {
    Obj([Field("inputs", inputs), Field("steps", Obj(outputs))])
  }

  /** The same context with the probe's output. */
  function WithProbe(context: Json, output: Json): Json
  {
    match context
    case Obj(fields) => Obj(Put(fields, "probe", output))
    case _ => context
  }

  lemma OutputIsSelected(inputs: Json, outputs: seq<Field>, id: string)
    ensures Walk(Context(inputs, outputs), ["steps", id]) == Get(outputs, id)
  {
    var fields := Context(inputs, outputs).fields;
    assert fields[1..] == [Field("steps", Obj(outputs))];
    assert Get(fields[1..], "steps") == Some(Obj(outputs));
    assert "inputs"[0] != "steps"[0];
    assert Get(fields, "steps") == Some(Obj(outputs));
    var tokens := ["steps", id];
    assert tokens[1..] == [id] && [id][1..] == [];
    assert Child(Context(inputs, outputs), tokens[0]) == Some(Obj(outputs));
    assert Child(Obj(outputs), [id][0]) == Get(outputs, id);
    assert Walk(Obj(outputs), [id]) == Get(outputs, id);
  }

  lemma ContextOffers(inputs: Json, outputs: seq<Field>, safe: set<string>)
    requires forall id :: id in safe ==> Get(outputs, id).Some?
    ensures Offers(Context(inputs, outputs), safe, false)
  {
    var context := Context(inputs, outputs);
    assert Get(context.fields, "inputs") == Some(inputs);
    assert Walk(inputs, ["inputs"][1..]) == Some(inputs);
    forall id | id in safe
      ensures Walk(context, ["steps", id]).Some?
    {
      OutputIsSelected(inputs, outputs, id);
    }
  }

  lemma ProbeOffers(context: Json, output: Json, safe: set<string>)
    requires context.Obj? && Offers(context, safe, false)
    ensures Offers(WithProbe(context, output), safe, true)
  {
    var probed := WithProbe(context, output);
    GetPut(context.fields, "probe", output, "inputs");
    GetPut(context.fields, "probe", output, "steps");
    GetPut(context.fields, "probe", output, "probe");
    assert Child(probed, "inputs") == Child(context, "inputs");
    assert Walk(output, ["probe"][1..]) == Some(output);
    forall id | id in safe
      ensures Walk(probed, ["steps", id]).Some?
    {
      assert Walk(context, ["steps", id]).Some?;
      assert Child(probed, "steps") == Child(context, "steps");
    }
  }

  /** An accepted predicate fails only for a missing reference or an operand of the wrong type. */
  lemma CheckedPredicateIsSafe(p: Predicate, context: Json, safe: set<string>, probe: bool, render: Json -> string)
    requires Check(PredicateValue(p), safe, probe).Ok?
    requires Offers(context, safe, probe)
    ensures Holds(p, context, render).Err? ==>
              Holds(p, context, render).error in {MISSING_REFERENCE, EXPECTED_ARRAY, EXPECTED_NUMBER}
  {
    var fields := PredicateValue(p).fields;
    NoReferenceKey(p);
    assert fields[1..][1..] == [Field("right", p.right)];
    assert Check(p.left, safe, probe).Ok?;
    assert CheckFields(fields[1..], safe, probe).Ok?;
    assert CheckFields(fields[1..][1..], safe, probe).Ok?;
    assert Check(p.right, safe, probe).Ok?;
    CheckedExpressionIsSafe(p.left, context, safe, probe, render);
    CheckedExpressionIsSafe(p.right, context, safe, probe, render);
  }

  lemma NoReferenceKey(p: Predicate)
    ensures Get(PredicateValue(p).fields, "$ref").None?
  {
  }
}
