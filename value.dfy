/**
 * The value layer of namespace `argumentum` (src/value.h): the same
 * conversion dispatch as in src/values.h, plus run-time type tags. Every
 * `ConvertedValue<TTarget>` reports the tag of its `TTarget`, `value_cast`
 * compares tags instead of using `dynamic_cast`, and a target id pairs the tag
 * with the identity of the bound variable.
 *
 * A reference to the polymorphic base `Value&` is a `ValueRef`: a reference to
 * either of the two concrete classes.
 */
module Argumentum {
  import opened Wrappers
  import opened Conversion
  import opened Actions

  /** `VoidValue`: a value without a target. */
  class VoidValue {
    constructor () {}
  }

  /** `ConvertedValue<TTarget>` bound to the variable `target` of type `targetType`. */
  class ConvertedValue<E> {
    const targetType: TargetType
    const conv: Conversions<E>
    const target: Variable<E>

    /** The constructor only binds the variable, which holds a `TTarget`;
      * its content is not touched. */
    constructor (tt: TargetType, conv: Conversions<E>, target: Variable<E>)
      requires Fits(tt, target.content)
      ensures Valid()
      ensures targetType == tt && this.conv == conv && this.target == target
    {
      targetType, this.conv, this.target := tt, conv, target;
    }

    /** The bound variable holds a value of the bound type `TTarget`. */
    ghost predicate Valid()
      reads target
    {
      Fits(targetType, target.content)
    }

    /** `valueTypeId()`: one tag per target type, distinct from every other
      * target type's tag and from the tag of `VoidValue`. */
    static function ValueTypeId(tt: TargetType): (id: TypeId)
      ensures id != VoidTypeId
      ensures forall other: TargetType :: ConvertedTypeId(other) == id ==> other == tt
    {
      ConvertedTypeId(tt)
    }

    /** `getValueTypeId()`: the tag of the object's own target type. */
    function GetValueTypeId(): (id: TypeId)
      ensures id == ValueTypeId(targetType)
    {
      ValueTypeId(targetType)
    }

    /** `getTargetId()`: the type tag together with the identity of the bound variable. */
    function GetTargetId(): (id: (TypeId, Variable<E>))
      ensures id.0 == GetValueTypeId() && id.1 == target
    {
      (GetValueTypeId(), target)
    }

    /** `doReset`: the bound variable holds `TTarget{}`. */
    method DoReset()
      modifies target
      ensures target.content == Cleared(conv, targetType) && Valid()
    {
      target.content := Cleared(conv, targetType);
    }

    /** `assign( mTarget, argument )`: the overload for the variable's shape,
      * with the scalar overloads in priority order; returns the warnings sent
      * to the notifier. */
    method Assign(argument: string) returns (warnings: seq<string>)
      requires Valid()
      modifies target
      ensures Valid()
      ensures target.content == Conversion.Assign(conv, targetType.elem, old(target.content), argument)
      ensures warnings == Warnings(targetType.elem, argument)
    {
      match target.content
      case Vector(items) =>
        var element := conv.zero(targetType.elem);
        warnings := Warnings(targetType.elem, argument);
        element := AssignScalar(conv, targetType.elem, element, argument);
        target.content := Vector(items + [element]);
      case Optional(_) =>
        var element := conv.zero(targetType.elem);
        warnings := Warnings(targetType.elem, argument);
        element := AssignScalar(conv, targetType.elem, element, argument);
        target.content := Optional(Some(element));
      case Scalar(v) =>
        warnings := Warnings(targetType.elem, argument);
        target.content := Scalar(AssignScalar(conv, targetType.elem, v, argument));
    }

    /** The action `getDefaultAction` builds, run on `value`: it assigns to
      * the target of `value` only when `value_cast` succeeds. */
    method RunDefaultAction(value: ValueRef<E>, argument: string) returns (warnings: seq<string>)
      requires value.ConvertedRef? ==> value.converted.Valid()
      modifies value.Targets()
      ensures value.ConvertedRef? ==> value.converted.Valid()
      ensures ValueCast(targetType, value) == null ==> warnings == [] && unchanged(value.Targets())
      ensures ValueCast(targetType, value) != null ==>
                && value.converted.target.content
                     == Conversion.Assign(value.converted.conv, targetType.elem, old(value.converted.target.content), argument)
                && warnings == Warnings(targetType.elem, argument)
    {
      var p := ValueCast(targetType, value);
      if p != null {
        warnings := p.Assign(argument);
      } else {
        warnings := [];
      }
    }
  }

  /** A `Value&`: a reference to one of the concrete value classes. */
  datatype ValueRef<E> = VoidRef(void: VoidValue) | ConvertedRef(converted: ConvertedValue<E>)
  {
    /** The virtual `getValueTypeId()`. */
    function TypeOf(): (id: TypeId)
      ensures VoidRef? <==> id == VoidTypeId
      ensures ConvertedRef? ==> id == converted.GetValueTypeId()
    {
      if VoidRef? then VoidTypeId else converted.GetValueTypeId()
    }

    /** The variable the referenced value is bound to, if any. */
    function Targets(): set<object> {
      if ConvertedRef? then {converted.target} else {}
    }
  }

  /** `ConvertedValue<TTarget>::value_cast`: null exactly when the tags
    * differ; otherwise the very object that was given. */
  function ValueCast<E>(tt: TargetType, value: ValueRef<E>): (p: ConvertedValue?<E>)
    ensures p == null <==> value.TypeOf() != ConvertedValue<E>.ValueTypeId(tt)
    ensures p != null ==> value == ConvertedRef(p) && p.targetType == tt
  {
    if value.TypeOf() != ConvertedValue<E>.ValueTypeId(tt) then null else value.converted
  }

  /** Two values have the same target id exactly when they have the same
    * target type and are bound to the same variable. */
  lemma TargetIdIdentifies<E>(a: ConvertedValue<E>, b: ConvertedValue<E>)
    ensures a.GetTargetId() == b.GetTargetId() <==> a.targetType == b.targetType && a.target == b.target
  {
  }
}
