/** The boolean predicate nodes of the constraint expression tree
    (`IsNullExpression`, `InstanceofExpression`, `ReferenceComparisonExpression`)
    and the variable leaf they are built over.

    Nodes are immutable objects: every field is a `const` fixed by a
    constructor, so reference identity (`==` on nodes) is Java's `==` and a
    rebuilt node is a fresh object.  One class stands for all node classes;
    `kind` says which one a node is and carries that class's fields. */
module Expressions {
  import opened Values

  /** Which node class a node belongs to, with that class's fields.  An
      absent (Java `null`) child is `null`; an absent type signature is `None`. */
  datatype Kind =
    | Variable(name: string)
    | IsNull(expr: Node?)
    | Instanceof(expr: Node?, typeSignature: Option<string>)
    | ReferenceComparison(left: Node?, right: Node?, isEqual: bool)

  /** The number of children `getChildren` returns and `duplicate` expects. */
  function Arity(k: Kind): nat {
    match k
    case Variable(_) => 0
    case IsNull(_) => 1
    case Instanceof(_, _) => 1
    case ReferenceComparison(_, _, _) => 2
  }

  /** Two kinds denote the same operator: same node class and same non-child
      parameters (variable name, type signature, `==`/`!=` flag). */
  predicate SameOperator(k: Kind, k': Kind) {
    match k
    case Variable(name) => k' == Variable(name)
    case IsNull(_) => k'.IsNull?
    case Instanceof(_, sig) => k'.Instanceof? && k'.typeSignature == sig
    case ReferenceComparison(_, _, isEqual) => k'.ReferenceComparison? && k'.isEqual == isEqual
  }

  /** The two hash functions `hashCode` relies on without defining them:
      `Object.hashCode` of a node that does not override it, and the hash
      of a variable, which depends on its name only. */
  datatype Hashing = Hashing(identity: Node -> Int32, name: string -> Int32)

  class Node {
    const kind: Kind
    /** Longest path to a leaf; children sit strictly lower, which is how a
        tree of objects built bottom-up is known to be finite. */
    const height: nat

    /** The invariant every constructed node keeps: each present child is a
        valid node of smaller height. */
    ghost predicate Valid()
      decreases height
    {
      match kind
      case Variable(_) => true
      case IsNull(e) => e != null ==> e.height < height && e.Valid()
      case Instanceof(e, _) => e != null ==> e.height < height && e.Valid()
      case ReferenceComparison(l, r, _) =>
        && (l != null ==> l.height < height && l.Valid())
        && (r != null ==> r.height < height && r.Valid())
    }

    /** No child anywhere in the tree is absent. */
    ghost predicate WellFormed()
      requires Valid()
      decreases height
    {
      match kind
      case Variable(_) => true
      case IsNull(e) => e != null && e.WellFormed()
      case Instanceof(e, _) => e != null && e.WellFormed()
      case ReferenceComparison(l, r, _) => l != null && r != null && l.WellFormed() && r.WellFormed()
    }

    /** Every type test in the tree names a type the class path can load. */
    ghost predicate TypesResolve(classes: ClassPath)
      requires Valid()
      decreases height
    {
      match kind
      case Variable(_) => true
      case IsNull(e) => e != null ==> e.TypesResolve(classes)
      case Instanceof(e, sig) =>
        && sig.Some? && classes.Loadable(sig.value)
        && (e != null ==> e.TypesResolve(classes))
      case ReferenceComparison(l, r, _) =>
        && (l != null ==> l.TypesResolve(classes))
        && (r != null ==> r.TypesResolve(classes))
    }

    static function HeightOf(n: Node?): nat {
      if n == null then 0 else n.height
    }

    /** A free variable, the leaf of the tree. */
    constructor Var(name: string)
      ensures kind == Variable(name) && Valid()
    {
      kind := Variable(name);
      height := 0;
    }

    constructor IsNullExpression(expr: Node?)
      requires expr != null ==> expr.Valid()
      ensures kind == IsNull(expr) && Valid()
    {
      kind := IsNull(expr);
      height := HeightOf(expr) + 1;
    }

    constructor InstanceofExpression(expr: Node?, typeSignature: Option<string>)
      requires expr != null ==> expr.Valid()
      ensures kind == Instanceof(expr, typeSignature) && Valid()
    {
      kind := Instanceof(expr, typeSignature);
      height := HeightOf(expr) + 1;
    }

    constructor ReferenceComparisonExpression(left: Node?, right: Node?, isEqual: bool)
      requires left != null ==> left.Valid()
      requires right != null ==> right.Valid()
      ensures kind == ReferenceComparison(left, right, isEqual) && Valid()
    {
      kind := ReferenceComparison(left, right, isEqual);
      height := (if HeightOf(left) < HeightOf(right) then HeightOf(right) else HeightOf(left)) + 1;
    }

    /** `evaluate`: the value of the tree under a valuation.  Predicate nodes
        yield booleans.  A failure is the exception Java would throw; it can
        only come from an absent child, an unbound free variable or a type
        test whose type cannot be loaded. */
    function Evaluate(values: map<string, Value>, classes: ClassPath): (result: Result<Value>)
      requires Valid()
      ensures !kind.Variable? && result.Ok? ==> result.value.Boolean?
      ensures WellFormed() && TypesResolve(classes) && FreeVars() <= values.Keys ==> result.Ok?
      ensures result.Err? ==> !result.error.ArityMismatch?
      ensures result.Err? && result.error.UnboundVariable? ==>
                result.error.name in FreeVars() && result.error.name !in values
      ensures result.Err? && result.error.TypeNotFound? ==>
                !classes.Loadable(result.error.typeSignature)
      decreases height
    {
      match kind
      case Variable(name) =>
        if name in values then Ok(values[name]) else Err(UnboundVariable(name))
      case IsNull(e) =>
        if e == null then Err(NullPointer)
        else
          var operand := e.Evaluate(values, classes);
          if operand.Err? then operand
          else
            var v := operand.value;
            Ok(Boolean(v.Null? || (v.Integer? && v.i == 0)))
      case Instanceof(e, sig) =>
        if e == null then Err(NullPointer)
        else
          var operand := e.Evaluate(values, classes);
          if operand.Err? then operand
          else if operand.value.Null? then Ok(Boolean(false))
          else if sig.None? then Err(NullPointer)
          else if !classes.Loadable(sig.value) then Err(TypeNotFound(sig.value))
          else Ok(Boolean(classes.IsInstance(sig.value, operand.value)))
      case ReferenceComparison(l, r, isEqual) =>
        if l == null then Err(NullPointer)
        else
          var lv := l.Evaluate(values, classes);
          if lv.Err? then lv
          else if r == null then Err(NullPointer)
          else
            var rv := r.Evaluate(values, classes);
            if rv.Err? then rv
            else
              var equal :=
                if lv.value.Integer? && rv.value.Integer? then lv.value.i == rv.value.i
                else lv.value == rv.value;
              Ok(Boolean(if isEqual then equal else !equal))
    }

    /** The names of the variables reachable through present children: the
        set `collectFreeVariables` is meant to gather. */
    ghost function FreeVars(): set<string>
      requires Valid()
      decreases height
    {
      match kind
      case Variable(name) => {name}
      case IsNull(e) => if e == null then {} else e.FreeVars()
      case Instanceof(e, _) => if e == null then {} else e.FreeVars()
      case ReferenceComparison(l, r, _) =>
        (if l == null then {} else l.FreeVars()) + (if r == null then {} else r.FreeVars())
    }

    /** What `collectFreeVariables` adds to the caller's collection, in order,
        and whether it returns normally (it throws on an absent child). */
    function CollectTrace(): Trace<string>
      requires Valid()
      decreases height
    {
      match kind
      case Variable(name) => Emit([name])
      case IsNull(e) => if e == null then Abort() else e.CollectTrace()
      case Instanceof(e, _) => if e == null then Abort() else e.CollectTrace()
      case ReferenceComparison(l, r, _) =>
        Then(if l == null then Abort() else l.CollectTrace(),
             if r == null then Abort() else r.CollectTrace())
    }

    /** `collectFreeVariables`: adds the variables of the tree to `vars`. */
    method CollectFreeVariables(vars: VariableCollection) returns (completed: bool)
      requires Valid()
      modifies vars
      ensures vars.items == old(vars.items) + CollectTrace().out
      ensures completed == CollectTrace().completed
      decreases height
    {
      match kind
      case Variable(name) =>
        vars.Add(name);
        completed := true;
      case IsNull(e) =>
        if e == null { return false; }
        completed := e.CollectFreeVariables(vars);
      case Instanceof(e, _) =>
        if e == null { return false; }
        completed := e.CollectFreeVariables(vars);
      case ReferenceComparison(l, r, _) =>
        if l == null { return false; }
        completed := l.CollectFreeVariables(vars);
        if !completed { return; }
        if r == null { return false; }
        completed := r.CollectFreeVariables(vars);
    }

    /** `getChildren`: the children in the order `duplicate` expects them. */
    function GetChildren(): (children: seq<Node?>)
      requires Valid()
      ensures |children| == Arity(kind)
      ensures forall c :: c in children && c != null ==> c.Valid() && c.height < height
    {
      match kind
      case Variable(_) => []
      case IsNull(e) => [e]
      case Instanceof(e, _) => [e]
      case ReferenceComparison(l, r, _) => [l, r]
    }

    /** `duplicate`: the same operator over `newChildren`.  The wrong number
        of children fails the arity assertion; children identical to the
        current ones give back this very node; anything else gives a new node
        that keeps the operator's non-child parameters. */
    method Duplicate(newChildren: seq<Node?>) returns (result: Result<Node>)
      requires Valid()
      requires forall c :: c in newChildren && c != null ==> c.Valid()
      ensures |newChildren| != Arity(kind) ==>
                result == Err(ArityMismatch(Arity(kind), |newChildren|))
      ensures newChildren == GetChildren() ==> result == Ok(this)
      ensures |newChildren| == Arity(kind) && newChildren != GetChildren() ==>
                && result.Ok? && fresh(result.value) && result.value.Valid()
                && SameOperator(kind, result.value.kind)
                && result.value.GetChildren() == newChildren
    {
      if |newChildren| != Arity(kind) {
        return Err(ArityMismatch(Arity(kind), |newChildren|));
      }
      if kind.Variable? || newChildren == GetChildren() {
        return Ok(this);
      }
      var n: Node;
      if kind.IsNull? {
        n := new Node.IsNullExpression(newChildren[0]);
      } else if kind.Instanceof? {
        n := new Node.InstanceofExpression(newChildren[0], kind.typeSignature);
      } else {
        n := new Node.ReferenceComparisonExpression(newChildren[0], newChildren[1], kind.isEqual);
      }
      result := Ok(n);
    }

    /** What `print` writes, and whether it returns normally: it recurses
        into children assuming they are present and throws on an absent one.
        An absent type signature is written as "null", as `Appendable.append`
        does with a null argument. */
    function PrintTrace(): Trace<char>
      requires Valid()
      decreases height
    {
      match kind
      case Variable(name) => Trace(name, true)
      case IsNull(e) =>
        if e == null then Trace("(", false)
        else
          var t := e.PrintTrace();
          if !t.completed then Trace("(" + t.out, false)
          else Trace("(" + t.out + " is null)", true)
      case Instanceof(e, sig) =>
        if e == null then Trace("(", false)
        else
          var t := e.PrintTrace();
          if !t.completed then Trace("(" + t.out, false)
          else Trace("(" + t.out + " instanceof " + SignatureText(sig) + ")", true)
      case ReferenceComparison(l, r, isEqual) =>
        if l == null then Trace("(", false)
        else
          var lt := l.PrintTrace();
          if !lt.completed then Trace("(" + lt.out, false)
          else if r == null then Trace("(" + lt.out + OperatorText(isEqual), false)
          else
            var rt := r.PrintTrace();
            if !rt.completed then Trace("(" + lt.out + OperatorText(isEqual) + rt.out, false)
            else Trace("(" + lt.out + OperatorText(isEqual) + rt.out + ")", true)
    }

    /** The text `printMalformedExpression` writes: the shape of `print`, with
        "null" in place of every absent child or type signature. */
    function MalformedText(): string
      requires Valid()
      decreases height
    {
      match kind
      case Variable(name) => name
      case IsNull(e) =>
        "(" + OperandText(e) + " is null)"
      case Instanceof(e, sig) =>
        "(" + OperandText(e) + " instanceof " + SignatureText(sig) + ")"
      case ReferenceComparison(l, r, isEqual) =>
        "(" + OperandText(l) + OperatorText(isEqual) + OperandText(r) + ")"
    }

    /** How `printMalformedExpression` writes a child of this node. */
    function OperandText(child: Node?): string
      requires child != null ==> child.Valid() && child.height < height
      decreases height, 0
    {
      if child == null then "null" else child.MalformedText()
    }

    /** `print`: appends the fully parenthesised text of the tree to `a`. */
    method Print(a: Sink) returns (completed: bool)
      requires Valid()
      modifies a
      ensures a.text == old(a.text) + PrintTrace().out
      ensures completed == PrintTrace().completed
      decreases height
    {
      ghost var before := a.text;
      match kind
      case Variable(name) =>
        a.Append(name);
        completed := true;
      case IsNull(e) =>
        a.Append("(");
        if e == null { return false; }
        completed := e.Print(a);
        if !completed {
          Regroup2(before, "(", e.PrintTrace().out);
          return;
        }
        a.Append(" is null)");
        Regroup3(before, "(", e.PrintTrace().out, " is null)");
      case Instanceof(e, sig) =>
        a.Append("(");
        if e == null { return false; }
        completed := e.Print(a);
        if !completed {
          Regroup2(before, "(", e.PrintTrace().out);
          return;
        }
        a.Append(" instanceof ");
        a.Append(SignatureText(sig));
        a.Append(")");
        Regroup5(before, "(", e.PrintTrace().out, " instanceof ", SignatureText(sig), ")");
      case ReferenceComparison(l, r, isEqual) =>
        a.Append("(");
        if l == null { return false; }
        completed := l.Print(a);
        if !completed {
          Regroup2(before, "(", l.PrintTrace().out);
          return;
        }
        a.Append(OperatorText(isEqual));
        if r == null {
          Regroup3(before, "(", l.PrintTrace().out, OperatorText(isEqual));
          return false;
        }
        completed := r.Print(a);
        if !completed {
          Regroup4(before, "(", l.PrintTrace().out, OperatorText(isEqual), r.PrintTrace().out);
          return;
        }
        a.Append(")");
        Regroup5(before, "(", l.PrintTrace().out, OperatorText(isEqual), r.PrintTrace().out, ")");
    }

    /** `printMalformedExpression`: appends the text of the tree to `a`,
        writing "null" for absent parts; it never fails. */
    method PrintMalformedExpression(a: Sink)
      requires Valid()
      modifies a
      ensures a.text == old(a.text) + MalformedText()
      decreases height, 1
    {
      ghost var before := a.text;
      match kind
      case Variable(name) =>
        a.Append(name);
      case IsNull(e) =>
        a.Append("(");
        PrintMalformedOperand(e, a);
        a.Append(" is null)");
        Regroup3(before, "(", OperandText(e), " is null)");
      case Instanceof(e, sig) =>
        a.Append("(");
        PrintMalformedOperand(e, a);
        a.Append(" instanceof ");
        a.Append(SignatureText(sig));
        a.Append(")");
        Regroup5(before, "(", OperandText(e), " instanceof ", SignatureText(sig), ")");
      case ReferenceComparison(l, r, isEqual) =>
        a.Append("(");
        PrintMalformedOperand(l, a);
        a.Append(OperatorText(isEqual));
        PrintMalformedOperand(r, a);
        a.Append(")");
        Regroup5(before, "(", OperandText(l), OperatorText(isEqual), OperandText(r), ")");
    }

    /** A child of this node as `printMalformedExpression` writes it: "null"
        when absent, otherwise through the child's own method. */
    method PrintMalformedOperand(child: Node?, a: Sink)
      requires child != null ==> child.Valid() && child.height < height
      modifies a
      ensures a.text == old(a.text) + OperandText(child)
      decreases height, 0
    {
      if child == null {
        a.Append("null");
      } else {
        child.PrintMalformedExpression(a);
      }
    }

    /** `equals`.  A reference comparison equals another one with the same
        flag whose children are pairwise equal (and throws on an absent child
        of its own); `IsNullExpression` and `InstanceofExpression` keep
        `Object.equals`, which is identity; variables are equal by name. */
    function Equals(other: Node?): (result: Result<bool>)
      requires Valid()
      requires other != null ==> other.Valid()
      ensures other == this ==> result == Ok(true)
      ensures other == null ==> result == Ok(false)
      ensures result == Ok(true) ==> other != null && SameOperator(kind, other.kind)
      decreases height
    {
      match kind
      case Variable(name) => Ok(other != null && other.kind == Variable(name))
      case IsNull(_) => Ok(other == this)
      case Instanceof(_, _) => Ok(other == this)
      case ReferenceComparison(l, r, isEqual) =>
        if other == this then Ok(true)
        else if other == null || !other.kind.ReferenceComparison? then Ok(false)
        else if isEqual != other.kind.isEqual then Ok(false)
        else if l == null then Err(NullPointer)
        else
          var sameLeft := l.Equals(other.kind.left);
          if sameLeft.Err? || !sameLeft.value then sameLeft
          else if r == null then Err(NullPointer)
          else r.Equals(other.kind.right)
    }

    /** `hashCode`: for a reference comparison, 7 folded with the children's
        hashes and the flag by `hash = 31 * hash + x` in 32-bit arithmetic. */
    function Hash(h: Hashing): Result<Int32>
      requires Valid()
      decreases height
    {
      match kind
      case Variable(name) => Ok(h.name(name))
      case IsNull(_) => Ok(h.identity(this))
      case Instanceof(_, _) => Ok(h.identity(this))
      case ReferenceComparison(l, r, isEqual) =>
        if l == null then Err(NullPointer)
        else
          var hl := l.Hash(h);
          if hl.Err? then hl
          else if r == null then Err(NullPointer)
          else
            var hr := r.Hash(h);
            if hr.Err? then hr
            else Ok(Wrap(31 * Wrap(31 * Wrap(31 * 7 + hl.value) + hr.value) + (if isEqual then 1 else 0)))
    }

    /** `hashCode`, computed by updating a running `hash` as the source does. */
    method HashCode(h: Hashing) returns (result: Result<Int32>)
      requires Valid()
      ensures result == Hash(h)
      decreases height
    {
      match kind
      case Variable(name) =>
        return Ok(h.name(name));
      case IsNull(_) =>
        return Ok(h.identity(this));
      case Instanceof(_, _) =>
        return Ok(h.identity(this));
      case ReferenceComparison(l, r, isEqual) =>
        var hash: Int32 := 7;
        if l == null { return Err(NullPointer); }
        var hl := l.HashCode(h);
        if hl.Err? { return hl; }
        hash := Wrap(31 * hash + hl.value);
        if r == null { return Err(NullPointer); }
        var hr := r.HashCode(h);
        if hr.Err? { return hr; }
        hash := Wrap(31 * hash + hr.value);
        hash := Wrap(31 * hash + (if isEqual then 1 else 0));
        result := Ok(hash);
    }
  }

  /** How a type signature is written; an absent one reads "null". */
  function SignatureText(sig: Option<string>): string {
    if sig.Some? then sig.value else "null"
  }

  function OperatorText(isEqual: bool): string {
    if isEqual then " == " else " != "
  }

  /** The `Appendable` that printing writes to, as the text written so far. */
  class Sink {
    var text: string

    constructor ()
      ensures text == ""
    {
      text := "";
    }

    method Append(s: string)
      modifies this
      ensures text == old(text) + s
    {
      text := text + s;
    }
  }

  /** The caller's collection that `collectFreeVariables` adds to, as the
      variable names added so far, in order. */
  class VariableCollection {
    var items: seq<string>

    constructor ()
      ensures items == []
    {
      items := [];
    }

    method Add(name: string)
      modifies this
      ensures items == old(items) + [name]
    {
      items := items + [name];
    }
  }
}
