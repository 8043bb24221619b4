# Reference, instance-of and null tests of a symbolic constraint expression tree

This project models three boolean predicate nodes of jconstraints' expression
tree, the trees symbolic execution builds to describe path conditions over
object references:

- `ReferenceComparisonExpression` is `(l == r)` or `(l != r)` on references. It models the
  `if_acmpeq` / `if_acmpne` bytecode instructions.
- `InstanceofExpression` is `(e instanceof T)`. The type `T` is named by a string and is looked up
  on the class path when the node is evaluated.
- `IsNullExpression` is `(e is null)`. Both null and the integer 0 count as null, because 0 is how
  an integer-encoded reference denotes null.

Each node supports `evaluate` against a valuation, `collectFreeVariables`,
`getChildren`, `duplicate` (rebuild over new children, sharing the node when
nothing changed), `print` and `printMalformedExpression` (print safely even
when parts are absent). `ReferenceComparisonExpression` also has
`equals` and `hashCode`.

How the model is laid out:

- `values.dfy` (module `Values`) defines the runtime values a node evaluates to.
  - `Null`.
  - `Integer(i, box)` is a boxed `java.lang.Integer`. `box` is the identity of the box object.
  - `Boolean(b)` is one of the two canonical instances that autoboxing yields.
  - `Ref(addr, cls)` is any other object, with its identity and runtime class.
  - The module also defines 32-bit `int` arithmetic (`Wrap`), the exceptions as an `Error`
    datatype, and the `ClassPath` that `Class.forName` and `Class.isInstance` consult.
- `expressions.dfy` (module `Expressions`) defines the nodes.
  - Every Java node is an object of the class `Node`. Its fields are `const`, so nodes are
    immutable and `==` on nodes is Java reference identity.
  - `kind` says which Java class a node belongs to and holds that class's fields. An absent
    (Java `null`) child is `null`, and an absent type signature is `None`.
  - `Var` is a minimal variable leaf.
  - Operations that build a value are functions: `Evaluate`, `GetChildren` and `Equals`.
  - `duplicate` allocates, so it is a method that states when the result is `this` and when it is
    `fresh`.
  - `print`, `printMalformedExpression` and `collectFreeVariables` are methods that append to a
    `Sink` or a `VariableCollection`. `hashCode` is a method that updates a running `hash`, as the
    source does. Each method is proved to equal a specification function: `PrintTrace`,
    `MalformedText`, `CollectTrace` and `Hash`.
  - A `Trace` records what an operation wrote and whether it returned normally. This models the
    output a Java method leaves behind when it throws halfway.
- `node_properties.dfy` holds the properties shared by the whole family: printing, free variables,
  evaluation and rebuilding.
- `is_null.dfy`, `instanceof.dfy` and `reference_comparison.dfy` hold the properties of each node
  class.

Three behaviours of the code worth stating:

- The type of an instance-of test is resolved by name at evaluation time, and an unknown name is
  an evaluation error (`TypeNotFound`). It is not a construction-time error.
- No evaluation raises an incompatible-operand error. Any pair of values can be compared, and any
  value can be tested for null.
- Evaluation writes debug output. That output is left out.

## Model

| member | source | states |
|---|---|---|
| `Values.Wrap` | src/main/java/gov/nasa/jpf/constraints/expressions/ReferenceComparisonExpression.java:134-137 | Java `int` arithmetic: the result is a 32-bit value congruent to the exact one mod 2^32, and the same when the exact one fits |
| `Expressions.Node.IsNullExpression` | src/main/java/gov/nasa/jpf/constraints/expressions/IsNullExpression.java:18-20 | the new node holds exactly the given operand, possibly absent, and is a valid tree |
| `Expressions.Node.InstanceofExpression` | src/main/java/gov/nasa/jpf/constraints/expressions/InstanceofExpression.java:19-22 | the new node holds exactly the given operand and type signature, either possibly absent |
| `Expressions.Node.ReferenceComparisonExpression` | src/main/java/gov/nasa/jpf/constraints/expressions/ReferenceComparisonExpression.java:23-27 | the new node holds exactly the given sides and `==`/`!=` flag |
| `Expressions.Node.Evaluate` | src/main/java/gov/nasa/jpf/constraints/expressions/ReferenceComparisonExpression.java:29-43 | every predicate node evaluates to a Boolean (the `BOOL` type of all three); evaluation succeeds on every tree with no absent child, no unbound free variable and only loadable types; an `UnboundVariable` error names a free variable missing from the valuation, a `TypeNotFound` error names a type the class path cannot load, and the arity error never comes from evaluation |
| `Expressions.Node.CollectFreeVariables` | src/main/java/gov/nasa/jpf/constraints/expressions/ReferenceComparisonExpression.java:45-49 | appends to the caller's collection exactly what `CollectTrace` lists (left side's variables, then the right's) and reports whether it returned normally |
| `Expressions.Node.GetChildren` | src/main/java/gov/nasa/jpf/constraints/expressions/ReferenceComparisonExpression.java:66-69 | returns as many children as the node's arity (2 for a comparison, 1 for the unary tests), each a valid subtree lower than the node |
| `Expressions.Node.Duplicate` | src/main/java/gov/nasa/jpf/constraints/expressions/ReferenceComparisonExpression.java:71-78 | the wrong number of children is an arity error; children identical to `GetChildren()` give back this very node; otherwise a fresh node of the same operator (same flag, same type signature) whose children are exactly the new ones; `IsNullExpression.java:51-58` and `InstanceofExpression.java:61-68` behave the same with arity 1 |
| `Expressions.Node.Print` | src/main/java/gov/nasa/jpf/constraints/expressions/ReferenceComparisonExpression.java:80-87 | appends to the sink exactly what `PrintTrace` says `print` writes, and reports whether it returned normally or threw on an absent child |
| `Expressions.Node.PrintMalformedExpression` | src/main/java/gov/nasa/jpf/constraints/expressions/ReferenceComparisonExpression.java:89-104 | always completes and appends exactly `MalformedText()`, with "null" for each absent part |
| `Expressions.Node.Equals` | src/main/java/gov/nasa/jpf/constraints/expressions/ReferenceComparisonExpression.java:118-130 | a node equals itself, never equals null, and equals only a node of the same operator |
| `Expressions.Node.HashCode` | src/main/java/gov/nasa/jpf/constraints/expressions/ReferenceComparisonExpression.java:132-139 | the running `hash = 31 * hash + x` computation yields the value `Hash` specifies (7 folded with both children's hashes and the flag in 32-bit arithmetic) |
| `NodeProperties.FreeVarsAreUnionOfChildren` | src/main/java/gov/nasa/jpf/constraints/expressions/InstanceofExpression.java:41-44 | the free variables of every predicate node are exactly the union of those of the children `getChildren` returns |
| `NodeProperties.CollectFindsFreeVariables` | src/main/java/gov/nasa/jpf/constraints/expressions/IsNullExpression.java:31-34 | `collectFreeVariables` returns normally exactly on trees with no absent child, and then has collected exactly the free variables; when it throws, all it collected are free variables |
| `NodeProperties.PrintAgreesWithMalformed` | src/main/java/gov/nasa/jpf/constraints/expressions/IsNullExpression.java:60-76 | `print` returns normally exactly on trees with no absent child and then writes the same text as `printMalformedExpression`; otherwise it throws having written a prefix of that text |
| `NodeProperties.MalformedTextIsParenthesised` | src/main/java/gov/nasa/jpf/constraints/expressions/InstanceofExpression.java:80-90 | the text of every predicate node is fully parenthesised: it starts with `(` and ends with `)` |
| `NodeProperties.EvaluateReadsOnlyFreeVars` | src/main/java/gov/nasa/jpf/constraints/expressions/InstanceofExpression.java:25-39 | two valuations that agree on the tree's free variables give the same evaluation outcome |
| `NodeProperties.OperatorAndChildrenDetermineKind` | src/main/java/gov/nasa/jpf/constraints/expressions/InstanceofExpression.java:61-68 | a node is determined by its operator and its children, so `duplicate`'s promise fixes the new node's fields completely |
| `IsNullProperties.TrueExactlyOnNullOrZero` | src/main/java/gov/nasa/jpf/constraints/expressions/IsNullExpression.java:23-29 | the test yields true iff the operand is null or an Integer holding 0 (any box); another integer such as 5, a Boolean or an object yields false; an operand error is passed on |
| `IsNullProperties.AbsentOperandFails` | src/main/java/gov/nasa/jpf/constraints/expressions/IsNullExpression.java:24 | evaluating a null test without an operand throws a null-pointer error |
| `IsNullProperties.CollectsOperandVariables` | src/main/java/gov/nasa/jpf/constraints/expressions/IsNullExpression.java:32-34 | the node collects exactly what its operand collects, so its free variables are the operand's |
| `IsNullProperties.PrintForm` | src/main/java/gov/nasa/jpf/constraints/expressions/IsNullExpression.java:61-65 | `print` writes `(e is null)` and completes |
| `IsNullProperties.MalformedForm` | src/main/java/gov/nasa/jpf/constraints/expressions/IsNullExpression.java:68-76 | `printMalformedExpression` writes `(null is null)` for an absent operand, otherwise `(e is null)` |
| `InstanceofProperties.NullIsNoInstance` | src/main/java/gov/nasa/jpf/constraints/expressions/InstanceofExpression.java:29-32 | a null operand gives false whatever the type signature, even an absent or unloadable one, so no lookup happens |
| `InstanceofProperties.TestsResolvedType` | src/main/java/gov/nasa/jpf/constraints/expressions/InstanceofExpression.java:33-35 | for a non-null operand and a loadable type, the result is whether the operand's runtime class is that type or derives from it; every non-null operand is an instance of `java.lang.Object` |
| `InstanceofProperties.EverythingIsAnObject` | src/main/java/gov/nasa/jpf/constraints/expressions/InstanceofExpression.java:29-35 | a test against `java.lang.Object` yields true exactly for a non-null operand, whatever its class |
| `InstanceofProperties.UnresolvedTypeFails` | src/main/java/gov/nasa/jpf/constraints/expressions/InstanceofExpression.java:33-38 | for a non-null operand, an unloadable type is a `TypeNotFound` error naming it, and an absent signature a null-pointer error; neither yields a boolean |
| `InstanceofProperties.CollectsOperandVariables` | src/main/java/gov/nasa/jpf/constraints/expressions/InstanceofExpression.java:42-44 | the node collects exactly what its operand collects, so its free variables are the operand's |
| `InstanceofProperties.PrintForm` | src/main/java/gov/nasa/jpf/constraints/expressions/InstanceofExpression.java:71-77 | `print` writes `(e instanceof T)` and completes |
| `InstanceofProperties.MalformedForm` | src/main/java/gov/nasa/jpf/constraints/expressions/InstanceofExpression.java:80-90 | `printMalformedExpression` writes "null" for an absent operand and for an absent type signature |
| `ReferenceComparisonProperties.ComparesUpToIntegerBoxing` | src/main/java/gov/nasa/jpf/constraints/expressions/ReferenceComparisonExpression.java:30-43 | two Integers are the same reference iff they hold the same number, whatever their boxes (42 and 42 equal, 42 and 43 not); any other pair only when identical (both null equal; an integer and null not); `!=` flips the answer |
| `ReferenceComparisonProperties.NotEqualNegatesEqual` | src/main/java/gov/nasa/jpf/constraints/expressions/ReferenceComparisonExpression.java:42 | on the same operands the `!=` node yields exactly the negation of the `==` node, and the same error when there is one |
| `ReferenceComparisonProperties.CollectsBothOperands` | src/main/java/gov/nasa/jpf/constraints/expressions/ReferenceComparisonExpression.java:46-49 | the node collects the left side's variables then the right side's; its free variables are the union of theirs |
| `ReferenceComparisonProperties.PrintForm` | src/main/java/gov/nasa/jpf/constraints/expressions/ReferenceComparisonExpression.java:81-87 | `print` writes `(l == r)`, or `(l != r)` for the not-equal variant, and completes |
| `ReferenceComparisonProperties.MalformedForm` | src/main/java/gov/nasa/jpf/constraints/expressions/ReferenceComparisonExpression.java:90-104 | `printMalformedExpression` writes "null" in place of an absent left or right side and the other side's own malformed text, e.g. `(null == null)` or `(null != r)` |
| `ReferenceComparisonProperties.EqualsComparesFlagAndChildren` | src/main/java/gov/nasa/jpf/constraints/expressions/ReferenceComparisonExpression.java:119-130 | two distinct comparison nodes, the receiver having both children, are equal iff their flags are equal and both pairs of children are equal |
| `ReferenceComparisonProperties.EqualsIsSymmetric` | src/main/java/gov/nasa/jpf/constraints/expressions/ReferenceComparisonExpression.java:119-130 | `equals` is symmetric over the whole family |
| `ReferenceComparisonProperties.EqualNodesHashEqually` | src/main/java/gov/nasa/jpf/constraints/expressions/ReferenceComparisonExpression.java:132-139 | equal nodes have equal hash codes |

## Left out

- `accept`: it is a one-line dispatch into the visitor interface. That interface is not part of this model.
- `getType` and `isHighLevel`: they return constants. The `BOOL` type is stated instead by `Evaluate`'s guarantee that predicate nodes yield Booleans.
- The debug output that `evaluate` writes to the console in `IsNullExpression` and `InstanceofExpression`: it has no effect on the result.
- `Class.forName` and `Class.isInstance`: they are JVM reflection. They are modelled by a `ClassPath` that lists the class names that can be loaded (`java.lang.Object` always can) and maps each runtime class to its supertypes.
- The `flags` argument of the printers: this code ignores it.
- The `IOException` of `Appendable`: the sink is a string that never fails.
- `getChildren` returns a fresh array on every call in the source. Here it returns a sequence value.
- `Variable`, `Valuation` and the base classes (`AbstractExpression`, `AbstractBoolExpression`, `identical`) are not part of this model. The leaf `Var` prints and collects its name. It evaluates to its binding, and an unbound name is an error. A `Var` equals any variable with the same name, and its hash depends on the name only.
- `Expressions.Node.Equals`: `IsNullExpression` and `InstanceofExpression` declare no `equals`. The model gives them `Object.equals`, which is identity, because their base class is not part of this model.
- `Expressions.Node.HashCode`: `IsNullExpression` and `InstanceofExpression` declare no `hashCode`. Their hash is a caller-supplied identity hash, so the model does not fix its value.
- `Expressions.Node.Duplicate`: it models the arity assertion as enabled, so a wrong arity is an `ArityMismatch` error. With assertions disabled, the source goes on to index the array, and that behaviour is not modelled.
- Boolean values: a `Boolean` is assumed to be one of the canonical autoboxed instances. A Boolean allocated separately would compare by identity, and the model does not represent it.
- Concurrency: nodes are immutable, and nothing here depends on threads.
