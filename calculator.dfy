/** The arithmetic tool: its handler and the schema offered for it. Numbers are
    exact reals, so `/` is true division and nothing rounds. */
module Calculator {
  import opened Json
  import opened Protocol

  /** A handler result: a number, or a descriptive error string. */
  datatype CalcResult = Number(value: real) | Error(message: string)

  /** The four operation names the handler implements. */
  const Operations: seq<string> := ["add", "subtract", "multiply", "divide"]

  const DivisionByZero: string := "Error: Division by zero"

  /** The error text for an operation the handler does not know, quoting it. */
  function UnknownOperation(operation: string): (m: string)
    ensures |m| == |UnknownPrefix| + |operation| + 1
    ensures m[..|UnknownPrefix|] == UnknownPrefix
    ensures m[|UnknownPrefix|..|m| - 1] == operation
    ensures m[|m| - 1] == '\''
  {
    UnknownPrefix + operation + "'"
  }

  const UnknownPrefix: string := "Error: Unknown operation '"

  /** `calculate(operation, x, y)`: total, and it fails only the two ways its
      error strings describe. */
  function Calculate(operation: string, x: real, y: real): (r: CalcResult)
    ensures r.Error? <==> operation !in Operations || (operation == "divide" && y == 0.0)
    ensures r.Error? && operation in Operations ==> r.message == DivisionByZero
    ensures operation !in Operations ==> r.message == UnknownOperation(operation)
    ensures operation == "divide" && r.Number? ==> r.value * y == x
  {
    if operation == "add" then Number(x + y)
    else if operation == "subtract" then Number(x - y)
    else if operation == "multiply" then Number(x * y)
    else if operation == "divide" then
      if y == 0.0 then Error(DivisionByZero) else Number(x / y)
    else Error(UnknownOperation(operation))
  }

  /** The three arithmetic operations give the exact sum, difference and product. */
  lemma CalculateArithmetic(x: real, y: real)
    ensures Calculate("add", x, y) == Number(x + y)
    ensures Calculate("subtract", x, y) == Number(x - y)
    ensures Calculate("multiply", x, y) == Number(x * y)
  {
  }

  /** Subtracting undoes adding, and dividing by a non-zero number undoes multiplying. */
  lemma CalculateInverses(x: real, y: real)
    ensures Calculate("subtract", Calculate("add", x, y).value, y) == Number(x)
    ensures y != 0.0 ==> Calculate("divide", Calculate("multiply", x, y).value, y) == Number(x)
  {
  }

  /** The schema offered to the completion service for `calculate`. */
  const CalculatorSchema: ToolSchema := ToolSchema(
    "calculate",
    "Perform a mathematical operation on two numbers",
    [ Param("operation", StringType, "The mathematical operation to perform",
            Some(["add", "subtract", "multiply", "divide"]), None),
      Param("x", NumberType, "The first number", None, None),
      Param("y", NumberType, "The second number", None, None) ],
    ["operation", "x", "y"])

  /** The schema's `operation` choices are exactly the operations the handler does
      not reject as unknown, every parameter is required, and the schema is well formed. */
  lemma CalculatorSchemaAgrees(operation: string, x: real, y: real)
    ensures WellFormed(CalculatorSchema)
    ensures ParamNamed(CalculatorSchema.params, "operation").Some?
    ensures ParamNamed(CalculatorSchema.params, "operation").value.choices == Some(Operations)
    ensures operation in Operations <==> Calculate(operation, x, y) != Error(UnknownOperation(operation))
    ensures forall p :: p in CalculatorSchema.params ==> p.name in CalculatorSchema.required
  {
    if operation !in Operations {
      assert Calculate(operation, x, y) == Error(UnknownOperation(operation));
    } else {
      var m := UnknownOperation(operation);
      assert m[7] == UnknownPrefix[7] == 'U' && DivisionByZero[7] == 'D';
    }
  }
}
