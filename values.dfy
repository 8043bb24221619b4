/** Runtime values the expression nodes evaluate to, the errors their
    operations raise, and the class path that type tests consult. */
module Values {

  /** Java's 32-bit `int`. */
  type Int32 = x: int | -0x8000_0000 <= x < 0x8000_0000

  /** Java `int` arithmetic: reduces an exact result to 32 bits, two's complement. */
  function Wrap(x: int): (r: Int32)
    ensures -0x8000_0000 <= x < 0x8000_0000 ==> r == x
    ensures (x - r) % 0x1_0000_0000 == 0
  {
    (x + 0x8000_0000) % 0x1_0000_0000 - 0x8000_0000
  }

  /** A Java object as an expression evaluates it.  An `Integer` is a boxed
      `java.lang.Integer`; `box` is the identity of the boxing object, so two
      Integers holding the same number may still be distinct references.
      A `Boolean` is one of the two canonical instances autoboxing yields.
      A `Ref` is any other object, `addr` its identity and `cls` the name of
      its runtime class.  Values are taken as a JVM produces them: a `Ref`
      never has class `java.lang.Integer` or `java.lang.Boolean` (those
      objects are the other two variants), and one `addr` always goes with
      one `cls`, so comparing two `Ref`s as values compares their identities. */
  datatype Value =
    | Null
    | Integer(i: Int32, box: nat)
    | Boolean(b: bool)
    | Ref(addr: nat, cls: string)

  /** The name of the runtime class of a non-null value. */
  function RuntimeClass(v: Value): string
    requires !v.Null?
  {
    match v
    case Integer(_, _) => "java.lang.Integer"
    case Boolean(_) => "java.lang.Boolean"
    case Ref(_, cls) => cls
  }

  /** The root of the class hierarchy, which every JVM can load. */
  const ObjectClass := "java.lang.Object"

  /** What reflection sees of the running program.  `loadable` holds the
      class names `Class.forName` finds besides `java.lang.Object`;
      `supertypes` maps a runtime class, loadable by name or not, to the
      classes and interfaces it extends or implements below `Object`. */
  datatype ClassPath = ClassPath(loadable: set<string>, supertypes: string -> set<string>)
  {
    /** `Class.forName(name)` finds a class. */
    predicate Loadable(name: string) {
      name == ObjectClass || name in loadable
    }

    /** `Class.forName(name).isInstance(v)` for a non-null `v`: its runtime
        class is the named class, derives from it, or the name is `Object`. */
    predicate IsInstance(name: string, v: Value)
      requires !v.Null?
    {
      name == ObjectClass || name == RuntimeClass(v) || name in supertypes(RuntimeClass(v))
    }
  }

  /** The exceptions the modelled operations throw. */
  datatype Error =
    | NullPointer                              // a method called on an absent child, or Class.forName(null)
    | UnboundVariable(name: string)            // the valuation has no value for a variable
    | TypeNotFound(typeSignature: string)      // Class.forName failed, rethrown as IllegalArgumentException
    | ArityMismatch(expected: nat, actual: nat) // the arity assertion of duplicate

  datatype Option<T> = None | Some(value: T)

  datatype Result<T> = Ok(value: T) | Err(error: Error)

  /** What an operation that writes step by step has written, and whether it
      ran to completion (`completed == false`: it threw after writing `out`). */
  datatype Trace<T> = Trace(out: seq<T>, completed: bool)

  /** A step that writes `s` and completes. */
  function Emit<T>(s: seq<T>): Trace<T> {
    Trace(s, true)
  }

  /** A step that throws before writing anything. */
  function Abort<T>(): Trace<T> {
    Trace([], false)
  }

  /** Runs `first`, then, only if it completed, `next`. */
  function Then<T>(first: Trace<T>, next: Trace<T>): Trace<T> {
    if first.completed then Trace(first.out + next.out, next.completed) else first
  }

  /** The set of elements of a sequence: what a set-like collection holds
      after the elements were added in order. */
  ghost function Elements<T>(s: seq<T>): set<T> {
    set x | x in s
  }

  /* Regrouping text appended piece by piece into one appended piece.  The
     solver proves these alone quickly, but not inside a larger proof. */

  lemma Regroup2<T>(s: seq<T>, a: seq<T>, b: seq<T>)
    ensures s + a + b == s + (a + b)
  {
  }

  lemma Regroup3<T>(s: seq<T>, a: seq<T>, b: seq<T>, c: seq<T>)
    ensures s + a + b + c == s + (a + b + c)
  {
  }

  lemma Regroup4<T>(s: seq<T>, a: seq<T>, b: seq<T>, c: seq<T>, d: seq<T>)
    ensures s + a + b + c + d == s + (a + b + c + d)
  {
  }

  lemma Regroup5<T>(s: seq<T>, a: seq<T>, b: seq<T>, c: seq<T>, d: seq<T>, e: seq<T>)
    ensures s + a + b + c + d + e == s + (a + b + c + d + e)
  {
  }
}
