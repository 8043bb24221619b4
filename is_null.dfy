/** `IsNullExpression`: `(e is null)`, true when the operand is null or the
    integer 0, the encoding of a null reference as an integer. */
module IsNullProperties {
  import opened Values
  import opened Expressions
  import opened NodeProperties

  /** A value the null test accepts: the null reference, or an Integer
      (whatever its box) holding 0. */
  ghost predicate NullOrZero(v: Value) {
    v == Null || exists box: nat :: v == Integer(0, box)
  }

  /** The test is true exactly on null and on integer 0; any other value
      (another integer such as 5, a Boolean, an object) makes it false.
      An error of the operand is passed on unchanged. */
  lemma TrueExactlyOnNullOrZero(n: Node, values: map<string, Value>, classes: ClassPath)
    requires n.Valid() && n.kind.IsNull? && n.kind.expr != null
    ensures var operand := n.kind.expr.Evaluate(values, classes);
            && (operand.Err? ==> n.Evaluate(values, classes) == operand)
            && (operand.Ok? ==> n.Evaluate(values, classes) == Ok(Boolean(NullOrZero(operand.value))))
  {
    var operand := n.kind.expr.Evaluate(values, classes);
    if operand.Ok? && operand.value.Integer? && operand.value.i == 0 {
      assert operand.value == Integer(0, operand.value.box);
    }
  }

  /** Without an operand, evaluation throws. */
  lemma AbsentOperandFails(n: Node, values: map<string, Value>, classes: ClassPath)
    requires n.Valid() && n.kind == IsNull(null)
    ensures n.Evaluate(values, classes) == Err(NullPointer)
  {
  }

  /** The free variables the node collects are exactly its operand's. */
  lemma CollectsOperandVariables(n: Node)
    requires n.Valid() && n.kind.IsNull? && n.kind.expr != null
    ensures n.CollectTrace() == n.kind.expr.CollectTrace()
    ensures n.WellFormed() ==> Elements(n.CollectTrace().out) == n.kind.expr.FreeVars()
  {
    CollectFindsFreeVariables(n);
  }

  /** `print` writes `(e is null)`, `e` as its operand prints itself. */
  lemma PrintForm(n: Node)
    requires n.Valid() && n.kind.IsNull? && n.WellFormed()
    ensures n.PrintTrace() == Trace("(" + n.kind.expr.MalformedText() + " is null)", true)
  {
    PrintAgreesWithMalformed(n.kind.expr);
  }

  /** `printMalformedExpression` writes `(null is null)` for an absent
      operand, and otherwise the shape of `print`. */
  lemma MalformedForm(n: Node)
    requires n.Valid() && n.kind.IsNull?
    ensures n.kind.expr == null ==> n.MalformedText() == "(null is null)"
    ensures n.kind.expr != null ==> n.MalformedText() == "(" + n.kind.expr.MalformedText() + " is null)"
  {
  }
}
