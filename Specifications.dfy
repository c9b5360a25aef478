/**
 * The specification pattern of FluidFlow.Specification: boolean predicates
 * over a target, composed with And, Or and Not.
 *
 * Every `ISpecification<T>` object is a value of `Spec<T>`:
 *   - `Leaf(f)` is an `ExpressionSpecification<T>` wrapping `f`, or any
 *     subclass that overrides `IsSatisfiedBy` with its own test;
 *   - `AndSpec`, `OrSpec`, `NotSpec` are the composite classes;
 *   - `NullSpec` is a null reference stored where a specification was
 *     expected (the composite constructors do not reject one); dereferencing
 *     it throws `NullReferenceException`.
 */
module Specifications {
  import opened Errors

  datatype Spec<!T(!new)> =
    | NullSpec
    | Leaf(test: T -> bool)
    | AndSpec(left: Spec<T>, right: Spec<T>)
    | OrSpec(left: Spec<T>, right: Spec<T>)
    | NotSpec(spec: Spec<T>)
  {
    /**
     * `IsSatisfiedBy(target)`, with C#'s short-circuit `&&` and `||`:
     * a right operand is evaluated only when the left one did not decide
     * the answer, and a null operand that is reached throws.
     */
    function IsSatisfiedBy(target: T): Result<bool> {
      match this
      case NullSpec => Err(NullReference)
      case Leaf(f) => Ok(f(target))
      case AndSpec(l, r) =>
        var lv := l.IsSatisfiedBy(target);
        if lv != Ok(true) then lv else r.IsSatisfiedBy(target)
      case OrSpec(l, r) =>
        var lv := l.IsSatisfiedBy(target);
        if lv != Ok(false) then lv else r.IsSatisfiedBy(target)
      case NotSpec(s) =>
        var v := s.IsSatisfiedBy(target);
        if v.Ok? then Ok(!v.value) else v
    }

    /** No null reference anywhere in the tree. */
    predicate NullFree() {
      match this
      case NullSpec => false
      case Leaf(_) => true
      case AndSpec(l, r) => l.NullFree() && r.NullFree()
      case OrSpec(l, r) => l.NullFree() && r.NullFree()
      case NotSpec(s) => s.NullFree()
    }

    /**
     * The leaves (and null operands) `IsSatisfiedBy(target)` consults, in
     * the order it consults them.
     */
    function Consulted(target: T): seq<Visit<T>> {
      match this
      case NullSpec => [Visit([], this)]
      case Leaf(_) => [Visit([], this)]
      case AndSpec(l, r) =>
        Under(Left, l.Consulted(target))
        + (if l.IsSatisfiedBy(target) == Ok(true) then Under(Right, r.Consulted(target)) else [])
      case OrSpec(l, r) =>
        Under(Left, l.Consulted(target))
        + (if l.IsSatisfiedBy(target) == Ok(false) then Under(Right, r.Consulted(target)) else [])
      case NotSpec(s) => Under(Operand, s.Consulted(target))
    }

    /** `this.And(specification)` (Specification.cs): receiver on the left, argument on the right. */
    function And(specification: Spec<T>): (r: Spec<T>)
      requires !this.NullSpec?
      ensures forall t :: r.IsSatisfiedBy(t) == Ok(true) <==>
        IsSatisfiedBy(t) == Ok(true) && specification.IsSatisfiedBy(t) == Ok(true)
      ensures forall t :: r.IsSatisfiedBy(t) == Ok(false) <==>
        IsSatisfiedBy(t) == Ok(false) || (IsSatisfiedBy(t) == Ok(true) && specification.IsSatisfiedBy(t) == Ok(false))
    {
      AndSpec(this, specification)
    }

    /** `this.Or(specification)` (Specification.cs): receiver on the left, argument on the right. */
    function Or(specification: Spec<T>): (r: Spec<T>)
      requires !this.NullSpec?
      ensures forall t :: r.IsSatisfiedBy(t) == Ok(false) <==>
        IsSatisfiedBy(t) == Ok(false) && specification.IsSatisfiedBy(t) == Ok(false)
      ensures forall t :: r.IsSatisfiedBy(t) == Ok(true) <==>
        IsSatisfiedBy(t) == Ok(true) || (IsSatisfiedBy(t) == Ok(false) && specification.IsSatisfiedBy(t) == Ok(true))
    {
      OrSpec(this, specification)
    }

    /** `this.Not(specification)` (Specification.cs): negates the ARGUMENT; the receiver takes no part. */
    function Not(specification: Spec<T>): (r: Spec<T>)
      requires !this.NullSpec?
      ensures forall t :: specification.IsSatisfiedBy(t).Ok? ==>
        r.IsSatisfiedBy(t) == Ok(!specification.IsSatisfiedBy(t).value)
      ensures forall t :: specification.IsSatisfiedBy(t).Err? ==> r.IsSatisfiedBy(t) == specification.IsSatisfiedBy(t)
    {
      NotSpec(specification)
    }
  }

  /** One step of a path from a composite to an operand. */
  datatype Side = Left | Right | Operand

  type Path = seq<Side>

  /** A leaf or null operand reached by evaluation, and the path from the root to it. */
  datatype Visit<!T(!new)> = Visit(path: Path, node: Spec<T>)

  /** Prefixes every path with one step. */
  function Under<T(!new)>(side: Side, vs: seq<Visit<T>>): (r: seq<Visit<T>>)
    ensures |r| == |vs|
    ensures forall i :: 0 <= i < |vs| ==> r[i] == Visit([side] + vs[i].path, vs[i].node)
  {
    seq(|vs|, i requires 0 <= i < |vs| => Visit([side] + vs[i].path, vs[i].node))
  }

  /** Whether some consulted path starts with `side`. */
  predicate ConsultsSide<T(!new)>(c: seq<Visit<T>>, side: Side) {
    exists i :: 0 <= i < |c| && |c[i].path| > 0 && c[i].path[0] == side
  }

  /** `new ExpressionSpecification<T>(expression)`: a null expression is rejected. */
  function NewExpressionSpecification<T(!new)>(expression: Option<T -> bool>): (r: Result<Spec<T>>)
    ensures expression.None? <==> r == Err(ArgumentNull)
    ensures r.Ok? ==> r.value.NullFree()
    ensures r.Ok? ==> forall t :: r.value.IsSatisfiedBy(t) == Ok(expression.value(t))
  {
    if expression.None? then Err(ArgumentNull) else Ok(Leaf(expression.value))
  }

  /**
   * `new AndSpecification<T>(left, right)` as its unit tests expect it:
   * a null operand is rejected with `ArgumentNullException`.
   */
  function NewAndSpecification<T(!new)>(left: Spec<T>, right: Spec<T>): (r: Result<Spec<T>>)
    ensures r.Err? <==> left.NullSpec? || right.NullSpec?
    ensures r.Err? ==> r.error == ArgumentNull
    ensures r.Ok? && left.NullFree() && right.NullFree() ==> r.value.NullFree()
    ensures r.Ok? ==> forall t :: r.value.IsSatisfiedBy(t) == left.And(right).IsSatisfiedBy(t)
  {
    if left.NullSpec? || right.NullSpec? then Err(ArgumentNull) else Ok(AndSpec(left, right))
  }

  /** `new OrSpecification<T>(left, right)` rejecting a null operand. */
  function NewOrSpecification<T(!new)>(left: Spec<T>, right: Spec<T>): (r: Result<Spec<T>>)
    ensures r.Err? <==> left.NullSpec? || right.NullSpec?
    ensures r.Err? ==> r.error == ArgumentNull
    ensures r.Ok? && left.NullFree() && right.NullFree() ==> r.value.NullFree()
    ensures r.Ok? ==> forall t :: r.value.IsSatisfiedBy(t) == left.Or(right).IsSatisfiedBy(t)
  {
    if left.NullSpec? || right.NullSpec? then Err(ArgumentNull) else Ok(OrSpec(left, right))
  }

  /** `new NotSpecification<T>(spec)` rejecting a null operand. */
  function NewNotSpecification<T(!new)>(spec: Spec<T>): (r: Result<Spec<T>>)
    ensures r.Err? <==> spec.NullSpec?
    ensures r.Err? ==> r.error == ArgumentNull
    ensures r.Ok? && spec.NullFree() ==> r.value.NullFree()
    ensures r.Ok? ==> forall t :: spec.IsSatisfiedBy(t).Ok? ==> r.value.IsSatisfiedBy(t) == Ok(!spec.IsSatisfiedBy(t).value)
  {
    if spec.NullSpec? then Err(ArgumentNull) else Ok(NotSpec(spec))
  }

  // ---------------------------------------------------------------------
  // Evaluation
  // ---------------------------------------------------------------------

  /** A specification with no null operand never throws: it is a plain boolean predicate. */
  lemma {:induction false} NullFreeNeverThrows<T(!new)>(s: Spec<T>, t: T)
    requires s.NullFree()
    ensures s.IsSatisfiedBy(t).Ok?
  {
    match s
    case Leaf(_) =>
    case AndSpec(l, r) => NullFreeNeverThrows(l, t); NullFreeNeverThrows(r, t);
    case OrSpec(l, r) => NullFreeNeverThrows(l, t); NullFreeNeverThrows(r, t);
    case NotSpec(x) => NullFreeNeverThrows(x, t);
  }

  /** On null-free specifications the composites are exactly the boolean connectives. */
  lemma BooleanSemantics<T(!new)>(l: Spec<T>, r: Spec<T>, t: T)
    requires l.NullFree() && r.NullFree()
    ensures l.IsSatisfiedBy(t).Ok? && r.IsSatisfiedBy(t).Ok?
    ensures AndSpec(l, r).IsSatisfiedBy(t).value == (l.IsSatisfiedBy(t).value && r.IsSatisfiedBy(t).value)
    ensures OrSpec(l, r).IsSatisfiedBy(t).value == (l.IsSatisfiedBy(t).value || r.IsSatisfiedBy(t).value)
    ensures NotSpec(l).IsSatisfiedBy(t).value == !l.IsSatisfiedBy(t).value
  {
    NullFreeNeverThrows(l, t);
    NullFreeNeverThrows(r, t);
  }

  /** Negating twice gives back the original answer, or the same exception. */
  lemma DoubleNegation<T(!new)>(s: Spec<T>, t: T)
    ensures NotSpec(NotSpec(s)).IsSatisfiedBy(t) == s.IsSatisfiedBy(t)
  {
  }

  /** De Morgan's laws hold for the composites, exceptions included. */
  lemma DeMorgan<T(!new)>(l: Spec<T>, r: Spec<T>, t: T)
    ensures NotSpec(AndSpec(l, r)).IsSatisfiedBy(t) == OrSpec(NotSpec(l), NotSpec(r)).IsSatisfiedBy(t)
    ensures NotSpec(OrSpec(l, r)).IsSatisfiedBy(t) == AndSpec(NotSpec(l), NotSpec(r)).IsSatisfiedBy(t)
  {
  }

  /** The receiver of `Not` takes no part in the result. */
  lemma NotIgnoresReceiver<T(!new)>(a: Spec<T>, b: Spec<T>, s: Spec<T>)
    requires !a.NullSpec? && !b.NullSpec?
    ensures a.Not(s) == b.Not(s)
  {
  }

  // ---------------------------------------------------------------------
  // Which operands are consulted
  // ---------------------------------------------------------------------

  /** Every evaluation consults at least one leaf or null operand. */
  lemma {:induction false} ConsultedNonEmpty<T(!new)>(s: Spec<T>, t: T)
    ensures |s.Consulted(t)| > 0
  {
    match s
    case NullSpec =>
    case Leaf(_) =>
    case AndSpec(l, _) => ConsultedNonEmpty(l, t);
    case OrSpec(l, _) => ConsultedNonEmpty(l, t);
    case NotSpec(x) => ConsultedNonEmpty(x, t);
  }

  /**
   * A trace of consulted nodes that are all leaves or null operands, with a
   * null one only at the end, and there exactly when `err`.
   */
  predicate Stops<T(!new)>(c: seq<Visit<T>>, err: bool) {
    && |c| > 0
    && (forall i :: 0 <= i < |c| ==> c[i].node.Leaf? || c[i].node.NullSpec?)
    && (forall i :: 0 <= i < |c| - 1 ==> !c[i].node.NullSpec?)
    && (err <==> c[|c| - 1].node.NullSpec?)
  }

  /** The evaluation of `s` on `t` consults leaves and null operands only, and throws exactly when its last one is null. */
  predicate LeafTrace<T(!new)>(s: Spec<T>, t: T) {
    Stops(s.Consulted(t), s.IsSatisfiedBy(t).Err?)
  }

  /**
   * Evaluation walks the consulted leaves and null operands, and a null
   * operand throws only when it is reached: one that short-circuiting skips
   * is harmless.
   */
  lemma {:induction false} ConsultedLeaves<T(!new)>(s: Spec<T>, t: T)
    ensures LeafTrace(s, t)
  {
    match s
    case NullSpec =>
    case Leaf(_) =>
    case AndSpec(l, r) =>
      ConsultedLeaves(l, t);
      ConsultedLeaves(r, t);
      BinaryLeaves(s, l, r, t, Ok(true));
    case OrSpec(l, r) =>
      ConsultedLeaves(l, t);
      ConsultedLeaves(r, t);
      BinaryLeaves(s, l, r, t, Ok(false));
    case NotSpec(x) =>
      ConsultedLeaves(x, t);
  }

  /** The inductive step of `ConsultedLeaves` for `And` (`go == Ok(true)`) and `Or` (`go == Ok(false)`). */
  lemma BinaryLeaves<T(!new)>(s: Spec<T>, l: Spec<T>, r: Spec<T>, t: T, go: Result<bool>)
    requires (s == AndSpec(l, r) && go == Ok(true)) || (s == OrSpec(l, r) && go == Ok(false))
    requires LeafTrace(l, t) && LeafTrace(r, t)
    ensures LeafTrace(s, t)
  {
    BinaryConsulted(s, l, r, t, go);
    var more := l.IsSatisfiedBy(t) == go;
    StopsConcat(l.Consulted(t), r.Consulted(t), more, l.IsSatisfiedBy(t).Err?, r.IsSatisfiedBy(t).Err?);
  }

  lemma StopsConcat<T(!new)>(cl: seq<Visit<T>>, cr: seq<Visit<T>>, more: bool, el: bool, er: bool)
    requires Stops(cl, el) && Stops(cr, er)
    requires more ==> !el
    ensures Stops(Under(Left, cl) + (if more then Under(Right, cr) else []), if more then er else el)
  {
    var c := Under(Left, cl) + (if more then Under(Right, cr) else []);
    if more {
      assert forall i :: |cl| <= i < |c| ==> c[i].node == cr[i - |cl|].node;
    }
  }

  lemma BinaryConsulted<T(!new)>(s: Spec<T>, l: Spec<T>, r: Spec<T>, t: T, go: Result<bool>)
    requires (s == AndSpec(l, r) && go == Ok(true)) || (s == OrSpec(l, r) && go == Ok(false))
    ensures s.Consulted(t) == Under(Left, l.Consulted(t)) + (if l.IsSatisfiedBy(t) == go then Under(Right, r.Consulted(t)) else [])
    ensures s.IsSatisfiedBy(t) == if l.IsSatisfiedBy(t) == go then r.IsSatisfiedBy(t) else l.IsSatisfiedBy(t)
  {
  }

  /** `And` consults its right operand exactly when its left one holds. */
  lemma AndShortCircuits<T(!new)>(l: Spec<T>, r: Spec<T>, t: T)
    ensures ConsultsSide(AndSpec(l, r).Consulted(t), Right) <==> l.IsSatisfiedBy(t) == Ok(true)
    ensures ConsultsSide(AndSpec(l, r).Consulted(t), Left)
  {
    BinaryShortCircuits(AndSpec(l, r), l, r, t, Ok(true));
  }

  /** `Or` consults its right operand exactly when its left one fails. */
  lemma OrShortCircuits<T(!new)>(l: Spec<T>, r: Spec<T>, t: T)
    ensures ConsultsSide(OrSpec(l, r).Consulted(t), Right) <==> l.IsSatisfiedBy(t) == Ok(false)
    ensures ConsultsSide(OrSpec(l, r).Consulted(t), Left)
  {
    BinaryShortCircuits(OrSpec(l, r), l, r, t, Ok(false));
  }

  lemma BinaryShortCircuits<T(!new)>(s: Spec<T>, l: Spec<T>, r: Spec<T>, t: T, go: Result<bool>)
    requires (s == AndSpec(l, r) && go == Ok(true)) || (s == OrSpec(l, r) && go == Ok(false))
    ensures ConsultsSide(s.Consulted(t), Right) <==> l.IsSatisfiedBy(t) == go
    ensures ConsultsSide(s.Consulted(t), Left)
  {
    ConsultedNonEmpty(l, t);
    ConsultedNonEmpty(r, t);
    var cl, cr := l.Consulted(t), r.Consulted(t);
    var c := s.Consulted(t);
    assert c == Under(Left, cl) + (if l.IsSatisfiedBy(t) == go then Under(Right, cr) else []);
    assert c[0].path == [Left] + cl[0].path;
    if l.IsSatisfiedBy(t) == go {
      assert c[|cl|].path == [Right] + cr[0].path;
    } else {
      assert c == Under(Left, cl);
    }
  }

  // ---------------------------------------------------------------------
  // The unit tests' specifications
  // ---------------------------------------------------------------------

  /** A mocked specification that answers `b` for every target. */
  function Const<T(!new)>(b: bool): Spec<T> {
    Leaf(_ => b)
  }

  /** The truth tables the And, Or and Not unit tests check with mocked operands. */
  lemma TruthTables<T(!new)>(t: T)
    ensures AndSpec(Const(true), Const(true)).IsSatisfiedBy(t) == Ok(true)
    ensures AndSpec(Const(true), Const(false)).IsSatisfiedBy(t) == Ok(false)
    ensures AndSpec(Const(false), Const(true)).IsSatisfiedBy(t) == Ok(false)
    ensures AndSpec(Const(false), Const(false)).IsSatisfiedBy(t) == Ok(false)
    ensures OrSpec(Const(true), Const(true)).IsSatisfiedBy(t) == Ok(true)
    ensures OrSpec(Const(true), Const(false)).IsSatisfiedBy(t) == Ok(true)
    ensures OrSpec(Const(false), Const(true)).IsSatisfiedBy(t) == Ok(true)
    ensures OrSpec(Const(false), Const(false)).IsSatisfiedBy(t) == Ok(false)
    ensures NotSpec(Const(false)).IsSatisfiedBy(t) == Ok(true)
    ensures NotSpec(Const(true)).IsSatisfiedBy(t) == Ok(false)
  {
  }

  /**
   * A composite built over a null operand is accepted at construction; it
   * throws only when evaluation reaches the null.
   */
  lemma NullOperandAccepted<T(!new)>(t: T)
    ensures AndSpec(Const(false), NullSpec).IsSatisfiedBy(t) == Ok(false)
    ensures AndSpec(Const(true), NullSpec).IsSatisfiedBy(t) == Err(NullReference)
    ensures OrSpec(Const(true), NullSpec).IsSatisfiedBy(t) == Ok(true)
    ensures NotSpec(NullSpec).IsSatisfiedBy(t) == Err(NullReference)
  {
  }

  /** The expression test: `o => o == 10` accepts 10 and rejects 9, 11 and 101. */
  lemma EqualsTenSpecification()
    ensures var s := NewExpressionSpecification(Some((o: int) => o == 10));
      && s.Ok?
      && s.value.IsSatisfiedBy(10) == Ok(true)
      && s.value.IsSatisfiedBy(9) == Ok(false)
      && s.value.IsSatisfiedBy(11) == Ok(false)
      && s.value.IsSatisfiedBy(101) == Ok(false)
    ensures NewExpressionSpecification<int>(None) == Err(ArgumentNull)
  {
  }

  datatype Gender = Male | Female

  datatype Person = Person(age: int, gender: Gender)

  function MaleSpec(): Spec<Person> { Leaf((p: Person) => p.gender == Male) }

  function OldEnoughToDrinkSpec(): Spec<Person> { Leaf((p: Person) => p.age >= 21) }

  function CollegeAgedSpec(): Spec<Person> { Leaf((p: Person) => p.age >= 18 && p.age <= 27) }

  /** `isMale.And(collegeAged)` selects exactly the men aged 18 to 27. */
  lemma CollegeAgedMen(p: Person)
    ensures MaleSpec().And(CollegeAgedSpec()).IsSatisfiedBy(p) == Ok(p.gender == Male && 18 <= p.age <= 27)
  {
  }

  /**
   * `isMale.Or(canDrink)` selects the men and everyone aged 21 or more, so a
   * woman of 25 is selected: the Or test's claim that no woman is selected
   * does not follow.
   */
  lemma MenOrDrinkers(p: Person)
    ensures MaleSpec().Or(OldEnoughToDrinkSpec()).IsSatisfiedBy(p) == Ok(p.gender == Male || p.age >= 21)
    ensures MaleSpec().Or(OldEnoughToDrinkSpec()).IsSatisfiedBy(Person(25, Female)) == Ok(true)
  {
  }

  /**
   * `canDrink.Not(isMale)` selects exactly the women, of any age: the
   * receiver `canDrink` is ignored, so a girl of 16 is selected too.
   */
  lemma NotMaleIgnoresDrinkingAge(p: Person)
    ensures OldEnoughToDrinkSpec().Not(MaleSpec()).IsSatisfiedBy(p) == Ok(p.gender == Female)
    ensures OldEnoughToDrinkSpec().Not(MaleSpec()).IsSatisfiedBy(Person(16, Female)) == Ok(true)
  {
  }
}
