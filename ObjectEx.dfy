/**
 * The runtime type test `obj is T` and the extension method `TryCast<T>`
 * (src/FluidFlow/Ex/ObjectEx.cs). A C# `object` is modelled as a possibly-null
 * box around a value whose runtime type is one of a few leaf types; `object`
 * itself is the top type, so every non-null box is an instance of it.
 */
module ObjectEx {

  datatype Value = IntValue(i: int) | BoolValue(b: bool) | StringValue(s: string)

  /** A C# object reference: null, or a boxed value. */
  datatype Obj = Null | Boxed(value: Value)

  /** The type arguments `T` the engine is instantiated with. */
  datatype Ty = ObjectType | IntType | BoolType | StringType

  function RuntimeType(v: Value): Ty {
    match v
    case IntValue(_) => IntType
    case BoolValue(_) => BoolType
    case StringValue(_) => StringType
  }

  /** C#'s `o is T`: false for null, true for `object`, otherwise the runtime type must be `T`. */
  predicate IsInstance(o: Obj, t: Ty) {
    o.Boxed? && (t == ObjectType || RuntimeType(o.value) == t)
  }

  /** `default(T)`: zero or false for the value types, null for the reference types. */
  function Default(t: Ty): Obj {
    match t
    case IntType => Boxed(IntValue(0))
    case BoolType => Boxed(BoolValue(false))
    case _ => Null
  }

  /**
   * `obj.TryCast<T>(out result)`: the returned flag, and the value written to
   * the out parameter.
   */
  function TryCast(o: Obj, t: Ty): (r: (bool, Obj))
    ensures r.0 <==> o != Null && (t == ObjectType || RuntimeType(o.value) == t)
    ensures r.0 ==> r.1 == o
    ensures !r.0 ==> r.1 == Default(t)
  {
    if IsInstance(o, t) then (true, o) else (false, Default(t))
  }

  /** A null object never casts, whatever `T` is. */
  lemma NullNeverCasts(t: Ty)
    ensures TryCast(Null, t) == (false, Default(t))
  {
  }

  /** A successful cast hands back the object itself, so casting its result again succeeds the same way. */
  lemma CastIsIdempotent(o: Obj, t: Ty)
    requires TryCast(o, t).0
    ensures TryCast(TryCast(o, t).1, t) == TryCast(o, t)
  {
  }
}
