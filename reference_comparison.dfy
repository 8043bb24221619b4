/** `ReferenceComparisonExpression`: `(l == r)` or `(l != r)` on references,
    as in the `if_acmpeq` / `if_acmpne` bytecode instructions. */
module ReferenceComparisonProperties {
  import opened Values
  import opened Expressions
  import opened NodeProperties

  /** A value with the identity of its Integer box forgotten. */
  function Unboxed(v: Value): Value {
    if v.Integer? then Integer(v.i, 0) else v
  }

  /** Two integers are the same reference when they hold the same number,
      whichever objects box them; any other two values are the same
      reference only when they are the very same value (both null, the same
      Boolean, the same object). */
  lemma {:induction false} ComparesUpToIntegerBoxing(n: Node, values: map<string, Value>, classes: ClassPath, lv: Value, rv: Value)
    requires n.Valid() && n.kind.ReferenceComparison?
    requires n.kind.left != null && n.kind.left.Evaluate(values, classes) == Ok(lv)
    requires n.kind.right != null && n.kind.right.Evaluate(values, classes) == Ok(rv)
    ensures n.Evaluate(values, classes) == Ok(Boolean(n.kind.isEqual == (Unboxed(lv) == Unboxed(rv))))
    ensures lv.Integer? && rv.Integer? ==> n.Evaluate(values, classes) == Ok(Boolean(n.kind.isEqual == (lv.i == rv.i)))
    ensures !(lv.Integer? && rv.Integer?) ==> n.Evaluate(values, classes) == Ok(Boolean(n.kind.isEqual == (lv == rv)))
  {
    if lv.Integer? && rv.Integer? {
      assert (Unboxed(lv) == Unboxed(rv)) == (lv.i == rv.i);
    } else {
      assert (Unboxed(lv) == Unboxed(rv)) == (lv == rv);
    }
  }

  /** On the same operands, `!=` gives exactly the negation of `==`, and the
      same error when there is one. */
  lemma NotEqualNegatesEqual(eq: Node, ne: Node, values: map<string, Value>, classes: ClassPath)
    requires eq.Valid() && ne.Valid()
    requires eq.kind.ReferenceComparison? && eq.kind.isEqual
    requires ne.kind == ReferenceComparison(eq.kind.left, eq.kind.right, false)
    ensures eq.Evaluate(values, classes).Ok? <==> ne.Evaluate(values, classes).Ok?
    ensures eq.Evaluate(values, classes).Err? ==> ne.Evaluate(values, classes) == eq.Evaluate(values, classes)
    ensures eq.Evaluate(values, classes).Ok? ==>
              ne.Evaluate(values, classes) == Ok(Boolean(!eq.Evaluate(values, classes).value.b))
  {
  }

  /** The node collects the left operand's variables, then the right's: its
      free variables are the union of theirs. */
  lemma CollectsBothOperands(n: Node)
    requires n.Valid() && n.kind.ReferenceComparison? && n.WellFormed()
    ensures n.CollectTrace().out == n.kind.left.CollectTrace().out + n.kind.right.CollectTrace().out
    ensures Elements(n.CollectTrace().out) == n.kind.left.FreeVars() + n.kind.right.FreeVars()
  {
    CollectFindsFreeVariables(n);
    CollectFindsFreeVariables(n.kind.left);
  }

  /** `print` writes `(l == r)`, or `(l != r)` for the not-equal variant. */
  lemma PrintForm(n: Node)
    requires n.Valid() && n.kind.ReferenceComparison? && n.WellFormed()
    ensures n.PrintTrace() ==
              Trace("(" + n.kind.left.MalformedText() + (if n.kind.isEqual then " == " else " != ")
                        + n.kind.right.MalformedText() + ")", true)
  {
    PrintAgreesWithMalformed(n.kind.left);
    PrintAgreesWithMalformed(n.kind.right);
  }

  /** `printMalformedExpression` writes "null" for an absent side instead
      of recursing into it. */
  lemma MalformedForm(n: Node)
    requires n.Valid() && n.kind.ReferenceComparison?
    ensures n.kind.left == null && n.kind.right == null ==>
              n.MalformedText() == if n.kind.isEqual then "(null == null)" else "(null != null)"
    ensures n.kind.left == null && n.kind.right != null ==>
              n.MalformedText() == "(null" + OperatorText(n.kind.isEqual) + n.kind.right.MalformedText() + ")"
    ensures n.kind.left != null && n.kind.right == null ==>
              n.MalformedText() == "(" + n.kind.left.MalformedText() + OperatorText(n.kind.isEqual) + "null)"
  {
  }

  /** Distinct comparison nodes with both children present are equal
      exactly when their flags are equal and their children are pairwise
      equal. */
  lemma EqualsComparesFlagAndChildren(a: Node, b: Node)
    requires a.Valid() && b.Valid() && a != b
    requires a.kind.ReferenceComparison? && b.kind.ReferenceComparison?
    requires a.kind.left != null && a.kind.right != null
    ensures a.Equals(b) == Ok(true) <==>
              && a.kind.isEqual == b.kind.isEqual
              && a.kind.left.Equals(b.kind.left) == Ok(true)
              && a.kind.right.Equals(b.kind.right) == Ok(true)
  {
  }

  /** `equals` is symmetric. */
  lemma {:induction false} EqualsIsSymmetric(a: Node, b: Node)
    requires a.Valid() && b.Valid()
    requires a.Equals(b) == Ok(true)
    ensures b.Equals(a) == Ok(true)
    decreases a.height
  {
    if a != b && a.kind.ReferenceComparison? {
      EqualsIsSymmetric(a.kind.left, b.kind.left);
      EqualsIsSymmetric(a.kind.right, b.kind.right);
    }
  }

  /** Equal nodes have equal hash codes (or both fail alike). */
  lemma {:induction false} EqualNodesHashEqually(a: Node, b: Node, h: Hashing)
    requires a.Valid() && b.Valid()
    requires a.Equals(b) == Ok(true)
    ensures a.Hash(h) == b.Hash(h)
    decreases a.height
  {
    if a != b && a.kind.ReferenceComparison? {
      EqualNodesHashEqually(a.kind.left, b.kind.left, h);
      EqualNodesHashEqually(a.kind.right, b.kind.right, h);
    }
  }
}
