/** `InstanceofExpression`: `(e instanceof T)`, a type test against a class
    named by a string and looked up on the class path when evaluated. */
module InstanceofProperties {
  import opened Values
  import opened Expressions
  import opened NodeProperties

  /** A null operand is an instance of nothing: the test is false whatever
      the type signature, even an absent one or one no class path can load,
      so no lookup takes place. */
  lemma NullIsNoInstance(n: Node, values: map<string, Value>, classes: ClassPath)
    requires n.Valid() && n.kind.Instanceof? && n.kind.expr != null
    requires n.kind.expr.Evaluate(values, classes) == Ok(Null)
    ensures n.Evaluate(values, classes) == Ok(Boolean(false))
  {
  }

  /** For a non-null operand and a type the class path loads, the test is
      whether the operand's runtime class is that type, derives from it, or
      the type is `java.lang.Object`. */
  lemma TestsResolvedType(n: Node, values: map<string, Value>, classes: ClassPath, v: Value, sig: string)
    requires n.Valid() && n.kind.Instanceof? && n.kind.expr != null
    requires n.kind.expr.Evaluate(values, classes) == Ok(v) && !v.Null?
    requires n.kind.typeSignature == Some(sig) && classes.Loadable(sig)
    ensures n.Evaluate(values, classes) ==
              Ok(Boolean(sig == ObjectClass || sig == RuntimeClass(v) || sig in classes.supertypes(RuntimeClass(v))))
  {
  }

  /** A test against `java.lang.Object` is a null test in reverse: it holds
      exactly for the non-null operands, whatever their runtime class and
      whatever the class path holds. */
  lemma EverythingIsAnObject(n: Node, values: map<string, Value>, classes: ClassPath, v: Value)
    requires n.Valid() && n.kind.Instanceof? && n.kind.expr != null
    requires n.kind.expr.Evaluate(values, classes) == Ok(v)
    requires n.kind.typeSignature == Some(ObjectClass)
    ensures n.Evaluate(values, classes) == Ok(Boolean(!v.Null?))
  {
  }

  /** For a non-null operand, a type the class path cannot load is an
      error raised by evaluation, not a false result; so is an absent type
      signature. */
  lemma UnresolvedTypeFails(n: Node, values: map<string, Value>, classes: ClassPath, v: Value)
    requires n.Valid() && n.kind.Instanceof? && n.kind.expr != null
    requires n.kind.expr.Evaluate(values, classes) == Ok(v) && !v.Null?
    ensures n.kind.typeSignature == None ==> n.Evaluate(values, classes) == Err(NullPointer)
    ensures n.kind.typeSignature.Some? && !classes.Loadable(n.kind.typeSignature.value) ==>
              n.Evaluate(values, classes) == Err(TypeNotFound(n.kind.typeSignature.value))
  {
  }

  /** The free variables the node collects are exactly its operand's. */
  lemma CollectsOperandVariables(n: Node)
    requires n.Valid() && n.kind.Instanceof? && n.kind.expr != null
    ensures n.CollectTrace() == n.kind.expr.CollectTrace()
    ensures n.WellFormed() ==> Elements(n.CollectTrace().out) == n.kind.expr.FreeVars()
  {
    CollectFindsFreeVariables(n);
  }

  /** `print` writes `(e instanceof T)`. */
  lemma PrintForm(n: Node)
    requires n.Valid() && n.kind.Instanceof? && n.WellFormed()
    ensures n.PrintTrace() ==
              Trace("(" + n.kind.expr.MalformedText() + " instanceof " + SignatureText(n.kind.typeSignature) + ")", true)
  {
    PrintAgreesWithMalformed(n.kind.expr);
  }

  /** `printMalformedExpression` never fails: an absent operand and an
      absent type signature each read "null". */
  lemma MalformedForm(n: Node)
    requires n.Valid() && n.kind.Instanceof?
    ensures n.kind.expr == null && n.kind.typeSignature == None ==> n.MalformedText() == "(null instanceof null)"
    ensures n.kind.expr == null && n.kind.typeSignature.Some? ==>
              n.MalformedText() == "(null instanceof " + n.kind.typeSignature.value + ")"
    ensures n.kind.expr != null && n.kind.typeSignature == None ==>
              n.MalformedText() == "(" + n.kind.expr.MalformedText() + " instanceof null)"
  {
  }
}
