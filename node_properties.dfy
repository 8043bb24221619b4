/** Properties every node of the family shares: what printing, collecting
    free variables and evaluating mean for a whole tree. */
module NodeProperties {
  import opened Values
  import opened Expressions

  /** The free variables of a sequence of children: the union of those of
      the present ones. */
  ghost function ChildrenFreeVars(children: seq<Node?>): set<string>
    requires forall c :: c in children && c != null ==> c.Valid()
  {
    if children == [] then {}
    else (if children[0] == null then {} else children[0].FreeVars()) + ChildrenFreeVars(children[1..])
  }

  /** A node introduces no variable and hides none: its free variables are
      exactly those of its children, whatever their number. */
  lemma FreeVarsAreUnionOfChildren(n: Node)
    requires n.Valid() && !n.kind.Variable?
    ensures n.FreeVars() == ChildrenFreeVars(n.GetChildren())
  {
    var cs := n.GetChildren();
    if |cs| == 2 {
      assert ChildrenFreeVars(cs[1..][1..]) == {};
      assert ChildrenFreeVars(cs) == ChildrenFreeVars([cs[0]]) + ChildrenFreeVars([cs[1]]);
    } else {
      assert ChildrenFreeVars(cs[1..]) == {};
    }
  }

  lemma ElementsOfConcat<T>(s: seq<T>, t: seq<T>)
    ensures Elements(s + t) == Elements(s) + Elements(t)
  {
    assert forall x :: x in s + t <==> x in s || x in t;
  }

  /** `collectFreeVariables` returns normally exactly on trees with no absent
      child, and then has added every free variable and nothing else; when
      it throws, everything it added so far is a free variable. */
  lemma {:induction false} CollectFindsFreeVariables(n: Node)
    requires n.Valid()
    ensures n.CollectTrace().completed <==> n.WellFormed()
    ensures Elements(n.CollectTrace().out) <= n.FreeVars()
    ensures n.CollectTrace().completed ==> Elements(n.CollectTrace().out) == n.FreeVars()
    decreases n.height
  {
    match n.kind
    case Variable(name) =>
      assert Elements([name]) == {name};
    case IsNull(e) =>
      if e != null { CollectFindsFreeVariables(e); }
    case Instanceof(e, _) =>
      if e != null { CollectFindsFreeVariables(e); }
    case ReferenceComparison(l, r, _) =>
      if l != null {
        CollectFindsFreeVariables(l);
        if r != null {
          CollectFindsFreeVariables(r);
          ElementsOfConcat(l.CollectTrace().out, r.CollectTrace().out);
        }
      }
  }

  /** What `print` and `printMalformedExpression` write for one child:
      equal when `print` completes, a prefix otherwise. */
  ghost predicate AgreesWith(t: Trace<char>, text: string) {
    (t.completed ==> t.out == text) && t.out <= text
  }

  lemma PrefixInside<T>(x: seq<T>, p: seq<T>, q: seq<T>, y: seq<T>)
    requires p <= q
    ensures x + p <= x + q + y
  {
    assert x + q + y == x + p + (q[|p|..] + y);
  }

  lemma UnaryAgrees(n: Node, e: Node?, rest: string)
    requires n.Valid() && (n.kind.IsNull? || n.kind.Instanceof?) && n.kind.expr == e
    requires n.MalformedText() == "(" + n.OperandText(e) + rest
    requires e != null ==> (e.PrintTrace().completed <==> e.WellFormed()) && AgreesWith(e.PrintTrace(), e.MalformedText())
    requires e != null && e.PrintTrace().completed ==> n.PrintTrace() == Trace("(" + e.PrintTrace().out + rest, true)
    ensures n.PrintTrace().completed <==> n.WellFormed()
    ensures AgreesWith(n.PrintTrace(), n.MalformedText())
  {
    if e == null {
      PrefixInside("(", [], "null", rest);
    } else {
      PrefixInside("(", e.PrintTrace().out, e.MalformedText(), rest);
    }
  }

  lemma BinaryAgrees(n: Node, l: Node?, r: Node?, op: string)
    requires n.Valid() && n.kind.ReferenceComparison? && n.kind.left == l && n.kind.right == r
    requires op == OperatorText(n.kind.isEqual)
    requires l != null ==> (l.PrintTrace().completed <==> l.WellFormed()) && AgreesWith(l.PrintTrace(), l.MalformedText())
    requires r != null ==> (r.PrintTrace().completed <==> r.WellFormed()) && AgreesWith(r.PrintTrace(), r.MalformedText())
    ensures n.PrintTrace().completed <==> n.WellFormed()
    ensures AgreesWith(n.PrintTrace(), n.MalformedText())
  {
    var rest := op + n.OperandText(r) + ")";
    Regroup3("(" + n.OperandText(l), op, n.OperandText(r), ")");
    assert n.MalformedText() == "(" + n.OperandText(l) + rest;
    if l == null {
      PrefixInside("(", [], "null", rest);
    } else if !l.PrintTrace().completed {
      PrefixInside("(", l.PrintTrace().out, l.MalformedText(), rest);
    } else {
      var head := "(" + l.MalformedText() + op;
      assert n.MalformedText() == head + n.OperandText(r) + ")";
      if r == null {
        PrefixInside(head, [], "null", ")");
      } else {
        PrefixInside(head, r.PrintTrace().out, r.MalformedText(), ")");
      }
    }
  }

  /** `print` and `printMalformedExpression` write the same text on every
      tree with no absent child, and only there does `print` return
      normally; on any other tree `print` has written a prefix of that text
      when it throws. */
  lemma {:induction false} PrintAgreesWithMalformed(n: Node)
    requires n.Valid()
    ensures n.PrintTrace().completed <==> n.WellFormed()
    ensures n.PrintTrace().completed ==> n.PrintTrace().out == n.MalformedText()
    ensures n.PrintTrace().out <= n.MalformedText()
    decreases n.height
  {
    match n.kind
    case Variable(_) =>
    case IsNull(e) =>
      if e != null { PrintAgreesWithMalformed(e); }
      UnaryAgrees(n, e, " is null)");
    case Instanceof(e, sig) =>
      if e != null { PrintAgreesWithMalformed(e); }
      var rest := " instanceof " + SignatureText(sig) + ")";
      Regroup3("(" + n.OperandText(e), " instanceof ", SignatureText(sig), ")");
      if e != null && e.PrintTrace().completed {
        Regroup3("(" + e.PrintTrace().out, " instanceof ", SignatureText(sig), ")");
      }
      UnaryAgrees(n, e, rest);
    case ReferenceComparison(l, r, isEqual) =>
      if l != null { PrintAgreesWithMalformed(l); }
      if r != null { PrintAgreesWithMalformed(r); }
      BinaryAgrees(n, l, r, OperatorText(isEqual));
  }

  /** A predicate node's text, well-formed or malformed, is fully
      parenthesised. */
  lemma MalformedTextIsParenthesised(n: Node)
    requires n.Valid() && !n.kind.Variable?
    ensures |n.MalformedText()| >= 2
    ensures n.MalformedText()[0] == '(' && n.MalformedText()[|n.MalformedText()| - 1] == ')'
  {
  }

  /** Evaluation looks at the valuation only through the tree's free
      variables: valuations that agree on them give the same outcome. */
  lemma {:induction false} EvaluateReadsOnlyFreeVars(n: Node, v1: map<string, Value>, v2: map<string, Value>, classes: ClassPath)
    requires n.Valid()
    requires forall x :: x in n.FreeVars() ==> (x in v1 <==> x in v2) && (x in v1 ==> v1[x] == v2[x])
    ensures n.Evaluate(v1, classes) == n.Evaluate(v2, classes)
    decreases n.height
  {
    match n.kind
    case Variable(_) =>
    case IsNull(e) =>
      if e != null { EvaluateReadsOnlyFreeVars(e, v1, v2, classes); }
    case Instanceof(e, _) =>
      if e != null { EvaluateReadsOnlyFreeVars(e, v1, v2, classes); }
    case ReferenceComparison(l, r, _) =>
      if l != null { EvaluateReadsOnlyFreeVars(l, v1, v2, classes); }
      if r != null { EvaluateReadsOnlyFreeVars(r, v1, v2, classes); }
  }

  /** The operator and the children together fix a node's fields: what
      `duplicate` promises about a new node determines it completely. */
  lemma OperatorAndChildrenDetermineKind(m: Node, n: Node)
    requires m.Valid() && n.Valid()
    requires SameOperator(n.kind, m.kind) && m.GetChildren() == n.GetChildren()
    ensures m.kind == n.kind
  {
  }
}
