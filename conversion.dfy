/**
 * The conversion of one textual token into a value of a target type, and the
 * three shapes a bound target can have: a scalar `T`, a `std::vector<T>` that
 * collects one element per token, and a `std::optional<T>` that becomes present.
 *
 * The compile-time trait probing of the C++ code is replaced by an explicit
 * capability tag on each element type; the conversion functions themselves
 * (`from_string<T>::convert`, construction `T{ s }` and value-initialisation
 * `T{}`) are left uninterpreted: they are fields of a `Conversions` record.
 */
module Conversion {
  import opened Wrappers

  /** A scalar element type, reduced to its name and the two capabilities the C++
    * code probes for: a dedicated `from_string<T>::convert`, and
    * construction/assignment from a `std::string`. */
  datatype ElemType = ElemType(name: string, hasFromString: bool, canConvert: bool)

  /** The static shape of a bound target type. */
  datatype Shape = ScalarShape | VectorShape | OptionalShape

  /** The C++ type of a bound target: `T`, `std::vector<T>` or `std::optional<T>`. */
  datatype TargetType = TargetType(shape: Shape, elem: ElemType)

  /** The content of a bound target variable. */
  datatype Target<E> = Scalar(value: E) | Vector(items: seq<E>) | Optional(present: Option<E>)

  /** The type-level conversions the program is compiled against. */
  datatype Conversions<E> = Conversions(
    fromString: (ElemType, string) -> E,   // from_string<T>::convert( s )
    construct: (ElemType, string) -> E,    // T{ s }
    zero: ElemType -> E)                   // T{}, also what `T target;` holds before a conversion

  /** The caller's variable a value is bound to; values hold it by reference. */
  class Variable<E> {
    var content: Target<E>

    constructor (init: Target<E>)
      ensures content == init
    {
      content := init;
    }
  }

  predicate Fits<E>(tt: TargetType, t: Target<E>) {
    match tt.shape
    case ScalarShape => t.Scalar?
    case VectorShape => t.Vector?
    case OptionalShape => t.Optional?
  }

  /** True when neither conversion applies: the assignment only warns. */
  predicate Unsupported(elem: ElemType) {
    !elem.hasFromString && !elem.canConvert
  }

  /** The text of the warning for an element type that cannot be converted. */
  function WarningText(arg: string): string {
    "Assignment is not implemented. ('" + arg + "')"
  }

  /** The warnings one assignment emits. */
  function Warnings(elem: ElemType, arg: string): (w: seq<string>)
    ensures |w| <= 1
    ensures w != [] <==> Unsupported(elem)
  {
    if Unsupported(elem) then [WarningText(arg)] else []
  }

  /** The scalar `assign` overloads, selected in priority order: a dedicated
    * `from_string` wins; otherwise construction from the string; otherwise
    * nothing is converted (None) and the variable keeps its value. */
  function Convert<E>(conv: Conversions<E>, elem: ElemType, arg: string): (r: Option<E>)
    ensures elem.hasFromString ==> r == Some(conv.fromString(elem, arg))
    ensures !elem.hasFromString && elem.canConvert ==> r == Some(conv.construct(elem, arg))
    ensures r.None? <==> Unsupported(elem)
  {
    if elem.hasFromString then Some(conv.fromString(elem, arg))
    else if elem.canConvert then Some(conv.construct(elem, arg))
    else None
  }

  /** A scalar variable after `assign( var, arg )`. */
  function AssignScalar<E>(conv: Conversions<E>, elem: ElemType, current: E, arg: string): (r: E)
    ensures Unsupported(elem) ==> r == current
    ensures !Unsupported(elem) ==> Some(r) == Convert(conv, elem, arg)
  {
    Convert(conv, elem, arg).GetOr(current)
  }

  /** The element the container overloads produce: `TVar target;` then
    * `assign( target, arg )`. For an unsupported element type it stays `T{}`. */
  function Element<E>(conv: Conversions<E>, elem: ElemType, arg: string): (r: E)
    ensures Unsupported(elem) ==> r == conv.zero(elem)
    ensures !Unsupported(elem) ==> Some(r) == Convert(conv, elem, arg)
  {
    AssignScalar(conv, elem, conv.zero(elem), arg)
  }

  /** The bound target after one `assign( mValue, arg )`: a vector gains one
    * element at its end, an optional becomes present, a scalar is overwritten
    * (or, when the element type cannot be converted, left as it was). */
  function Assign<E>(conv: Conversions<E>, elem: ElemType, t: Target<E>, arg: string): (r: Target<E>)
    ensures t.Vector? ==> r.Vector? && |r.items| == |t.items| + 1
                          && r.items[..|t.items|] == t.items
                          && r.items[|t.items|] == Element(conv, elem, arg)
    ensures t.Optional? ==> r.Optional? && r.present.Some?
                            && r.present.value == Element(conv, elem, arg)
    ensures t.Scalar? ==> r.Scalar? && (Unsupported(elem) ==> r == t)
                          && (!Unsupported(elem) ==> Some(r.value) == Convert(conv, elem, arg))
    ensures forall tt: TargetType :: Fits(tt, t) ==> Fits(tt, r)
  {
    match t
    case Vector(items) => Vector(items + [Element(conv, elem, arg)])
    case Optional(_) => Optional(Some(Element(conv, elem, arg)))
    case Scalar(v) => Scalar(AssignScalar(conv, elem, v, arg))
  }

  /** `TValue{}`: what `doReset` stores in the bound variable. */
  function Cleared<E>(conv: Conversions<E>, tt: TargetType): (r: Target<E>)
    ensures Fits(tt, r)
    ensures r.Vector? ==> r.items == []
    ensures r.Optional? ==> r.present.None?
    ensures r.Scalar? ==> r.value == conv.zero(tt.elem)
  {
    match tt.shape
    case ScalarShape => Scalar(conv.zero(tt.elem))
    case VectorShape => Vector([])
    case OptionalShape => Optional(None)
  }

  /** The target after one assignment per token, in order. */
  function AssignAll<E>(conv: Conversions<E>, elem: ElemType, t: Target<E>, args: seq<string>): Target<E>
    decreases |args|
  {
    if args == [] then t else AssignAll(conv, elem, Assign(conv, elem, t, args[0]), args[1..])
  }

  /** The elements the tokens convert to, in order. */
  function Elements<E>(conv: Conversions<E>, elem: ElemType, args: seq<string>): (r: seq<E>)
    ensures |r| == |args|
    ensures forall i :: 0 <= i < |args| ==> r[i] == Element(conv, elem, args[i])
  {
    if args == [] then [] else [Element(conv, elem, args[0])] + Elements(conv, elem, args[1..])
  }

  /** Tokens assigned one after another to a vector target are appended in order. */
  lemma {:induction false} AssignAllAppends<E>(conv: Conversions<E>, elem: ElemType, items: seq<E>, args: seq<string>)
    ensures AssignAll(conv, elem, Vector(items), args) == Vector(items + Elements(conv, elem, args))
    decreases |args|
  {
    if args != [] {
      var e := Element(conv, elem, args[0]);
      assert Assign(conv, elem, Vector(items), args[0]) == Vector(items + [e]);
      AssignAllAppends(conv, elem, items + [e], args[1..]);
      assert Elements(conv, elem, args) == [e] + Elements(conv, elem, args[1..]);
      assert items + [e] + Elements(conv, elem, args[1..]) == items + Elements(conv, elem, args);
    } else {
      assert items + Elements(conv, elem, args) == items;
    }
  }

  /** Tokens assigned one after another to a scalar target: the last one wins;
    * with an unsupported element type the variable never changes. */
  lemma {:induction false} AssignAllScalar<E>(conv: Conversions<E>, elem: ElemType, v: E, args: seq<string>)
    ensures Unsupported(elem) ==> AssignAll(conv, elem, Scalar(v), args) == Scalar(v)
    ensures !Unsupported(elem) && args != [] ==>
              AssignAll(conv, elem, Scalar(v), args) == Scalar(Element(conv, elem, args[|args| - 1]))
    decreases |args|
  {
    if args != [] {
      var s := Assign(conv, elem, Scalar(v), args[0]);
      AssignAllScalar(conv, elem, s.value, args[1..]);
      if !Unsupported(elem) && |args| == 1 {
        assert args[1..] == [];
      }
    }
  }

  /** Tokens assigned one after another to an optional target: it is present
    * and holds the element of the last token. */
  lemma {:induction false} AssignAllOptional<E>(conv: Conversions<E>, elem: ElemType, o: Option<E>, args: seq<string>)
    requires args != []
    ensures AssignAll(conv, elem, Optional(o), args) == Optional(Some(Element(conv, elem, args[|args| - 1])))
    decreases |args|
  {
    var next := Assign(conv, elem, Optional(o), args[0]);
    if |args| == 1 {
      assert args[1..] == [];
    } else {
      AssignAllOptional(conv, elem, next.present, args[1..]);
    }
  }
}
