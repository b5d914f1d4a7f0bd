/**
 * Propositional sentences (src/core/sentence.py): the recursive formula type,
 * its two equality tests, evaluation under an assignment and the set of
 * atomic names.
 *
 * `True_Sym` and `False_Sym` are Python subclasses of `Atomic` whose inherited
 * `name` is "TRUE" and "FALSE"; that inheritance is what makes the source's
 * equality asymmetric, so the model keeps it visible through `AtomicName`.
 */
module Sentences {
  import opened Wrappers

  datatype Operator = And | Or | Implies

  datatype Sentence =
    | Atomic(name: string)
    | TrueSym
    | FalseSym
    | Negation(inner: Sentence)
    | TwoSided(left: Sentence, right: Sentence, oper: Operator)
  {
    /** `isinstance(self, Atomic)`: the atomic class and its two subclasses. */
    predicate IsAtomicKind() {
      Atomic? || TrueSym? || FalseSym?
    }

    /** The `name` attribute shared by the atomic family. */
    function AtomicName(): string
      requires IsAtomicKind()
    {
      match this
      case Atomic(n) => n
      case TrueSym => "TRUE"
      case FalseSym => "FALSE"
    }
  }

  /** `a.__eq__(b)`: the method of `a`'s own class, as Negation and TwoSided call it on their parts. */
  function SameAs(a: Sentence, b: Sentence): bool
  {
    match a
    case Atomic(n) => b.IsAtomicKind() && n == b.AtomicName()
    case TrueSym => b.TrueSym?
    case FalseSym => b.FalseSym?
    case Negation(i) => b.Negation? && SameAs(i, b.inner)
    case TwoSided(l, r, op) => b.TwoSided? && op == b.oper && SameAs(l, b.left) && SameAs(r, b.right)
  }

  /**
   * The operator `a == b`. When `b`'s class is a proper subclass of `a`'s
   * (an `Atomic` against a `True_Sym` or `False_Sym`), Python tries the
   * reflected `b.__eq__(a)` first; every `__eq__` here returns a bool, so
   * that answer is final.
   */
  function PyEq(a: Sentence, b: Sentence): bool
  {
    if a.Atomic? && (b.TrueSym? || b.FalseSym?) then SameAs(b, a) else SameAs(a, b)
  }

  /** No `Atomic` is literally named "TRUE" or "FALSE" anywhere in `s`. */
  predicate Plain(s: Sentence)
  {
    match s
    case Atomic(n) => n != "TRUE" && n != "FALSE"
    case TrueSym => true
    case FalseSym => true
    case Negation(i) => Plain(i)
    case TwoSided(l, r, _) => Plain(l) && Plain(r)
  }

  lemma {:induction false} SameAsReflexive(a: Sentence)
    ensures SameAs(a, a) && PyEq(a, a)
  {
    match a
    case Atomic(_) =>
    case TrueSym =>
    case FalseSym =>
    case Negation(i) => SameAsReflexive(i);
    case TwoSided(l, r, _) => SameAsReflexive(l); SameAsReflexive(r);
  }

  /** On sentences without TRUE/FALSE-named atomics both equality tests are structural equality. */
  lemma {:induction false} SameAsIsStructural(a: Sentence, b: Sentence)
    requires Plain(a)
    ensures SameAs(a, b) <==> a == b
    ensures PyEq(a, b) <==> a == b
  {
    match a
    case Atomic(_) =>
    case TrueSym =>
    case FalseSym =>
    case Negation(i) =>
      if b.Negation? { SameAsIsStructural(i, b.inner); }
    case TwoSided(l, r, _) =>
      if b.TwoSided? { SameAsIsStructural(l, b.left); SameAsIsStructural(r, b.right); }
  }

  /**
   * Inside a compound, an `Atomic` named "TRUE" equals `True_Sym` but not the
   * other way round, while at the top level the two never compare equal.
   */
  lemma TrueNamedAtomicQuirk()
    ensures SameAs(Atomic("TRUE"), TrueSym) && !SameAs(TrueSym, Atomic("TRUE"))
    ensures !PyEq(Atomic("TRUE"), TrueSym) && !PyEq(TrueSym, Atomic("TRUE"))
    ensures PyEq(Negation(Atomic("TRUE")), Negation(TrueSym))
    ensures !PyEq(Negation(TrueSym), Negation(Atomic("TRUE")))
    ensures PyEq(TwoSided(Atomic("FALSE"), Atomic("B"), Or), TwoSided(FalseSym, Atomic("B"), Or))
  {
  }

  // ---------------------------------------------------------------- evaluation

  datatype EvalError = VariableNotAssigned(name: string)

  /**
   * `evaluate`: AND, OR and IMPLIES short-circuit as Python's `and`/`or` do,
   * so an unassigned variable in a right operand that is never reached does
   * not raise.
   */
  function Evaluate(s: Sentence, assignment: map<string, bool>): Result<bool, EvalError>
  {
    match s
    case Atomic(n) => if n in assignment then Ok(assignment[n]) else Err(VariableNotAssigned(n))
    case TrueSym => Ok(true)
    case FalseSym => Ok(false)
    case Negation(i) =>
      (match Evaluate(i, assignment)
       case Ok(v) => Ok(!v)
       case Err(e) => Err(e))
    case TwoSided(l, r, op) =>
      match Evaluate(l, assignment)
      case Err(e) => Err(e)
      case Ok(lv) =>
        match op
        case And => if !lv then Ok(false) else Evaluate(r, assignment)
        case Or => if lv then Ok(true) else Evaluate(r, assignment)
        case Implies => if !lv then Ok(true) else Evaluate(r, assignment)
  }

  /** The truth-table meaning of `s`, reading an absent variable as false. */
  ghost predicate Holds(s: Sentence, assignment: map<string, bool>)
  {
    match s
    case Atomic(n) => n in assignment && assignment[n]
    case TrueSym => true
    case FalseSym => false
    case Negation(i) => !Holds(i, assignment)
    case TwoSided(l, r, op) =>
      match op
      case And => Holds(l, assignment) && Holds(r, assignment)
      case Or => Holds(l, assignment) || Holds(r, assignment)
      case Implies => !Holds(l, assignment) || Holds(r, assignment)
  }

  /** `get_atomics`: the two constants inherit `Atomic.get_atomics` and report their names. */
  function GetAtomics(s: Sentence): set<string>
  {
    match s
    case Atomic(n) => {n}
    case TrueSym => {"TRUE"}
    case FalseSym => {"FALSE"}
    case Negation(i) => GetAtomics(i)
    case TwoSided(l, r, _) => GetAtomics(l) + GetAtomics(r)
  }

  /**
   * `evaluate` agrees with the truth tables whenever it returns; it returns
   * whenever every atomic name is assigned; and when it raises, it names an
   * atomic of `s` that the assignment lacks.
   */
  lemma {:induction false} EvaluateFollowsTruthTables(s: Sentence, assignment: map<string, bool>)
    ensures Evaluate(s, assignment).Ok? ==> Evaluate(s, assignment).value == Holds(s, assignment)
    ensures GetAtomics(s) <= assignment.Keys ==> Evaluate(s, assignment).Ok?
    ensures Evaluate(s, assignment).Err? ==>
              Evaluate(s, assignment).error.name in GetAtomics(s) &&
              Evaluate(s, assignment).error.name !in assignment
  {
    match s
    case Atomic(_) =>
    case TrueSym =>
    case FalseSym =>
    case Negation(i) => EvaluateFollowsTruthTables(i, assignment);
    case TwoSided(l, r, _) =>
      EvaluateFollowsTruthTables(l, assignment);
      EvaluateFollowsTruthTables(r, assignment);
  }

  /** The value of a sentence depends only on the variables `get_atomics` reports. */
  lemma {:induction false} AtomicsDetermineValue(s: Sentence, a1: map<string, bool>, a2: map<string, bool>)
    requires forall n :: n in GetAtomics(s) ==> (n in a1 <==> n in a2) && (n in a1 ==> a1[n] == a2[n])
    ensures Holds(s, a1) == Holds(s, a2)
    ensures Evaluate(s, a1) == Evaluate(s, a2)
  {
    match s
    case Atomic(_) =>
    case TrueSym =>
    case FalseSym =>
    case Negation(i) => AtomicsDetermineValue(i, a1, a2);
    case TwoSided(l, r, _) =>
      AtomicsDetermineValue(l, a1, a2);
      AtomicsDetermineValue(r, a1, a2);
  }
}
