/**
 * Assign-actions: the `std::function` objects that `setValue` runs on a value.
 *
 * An action is modelled by what it can observe and what it can change: it is
 * run on a `Subject` (the dynamic type of the value and the content of its
 * bound variable, if any) and an argument token, and yields an `Effect` (the
 * new content of the bound variable, if it replaces it, the warnings and
 * user-callback invocations it caused, and the message it returns).
 */
module Actions {
  import opened Wrappers
  import opened Conversion

  /** The dynamic type of a value: `VoidValue`, or `ConvertedValue<TTarget>`. */
  datatype TypeId = VoidTypeId | ConvertedTypeId(targetType: TargetType)

  /** What an action sees of the value it runs on. */
  datatype Subject<E> = VoidSubject | ConvertedSubject(targetType: TargetType, target: Target<E>)
  {
    function TypeOf(): (id: TypeId)
      ensures id == VoidTypeId <==> VoidSubject?
      ensures ConvertedSubject? ==> id == ConvertedTypeId(targetType)
    {
      if VoidSubject? then VoidTypeId else ConvertedTypeId(targetType)
    }

    /** The subject after an effect: only a converted value's variable can be
      * replaced, and only when the effect carries new content. */
    function After(e: Effect<E>): (s: Subject<E>)
      ensures s.TypeOf() == TypeOf()
      ensures VoidSubject? || e.target.None? ==> s == this
      ensures ConvertedSubject? && e.target.Some? ==> s.target == e.target.value
    {
      if ConvertedSubject? && e.target.Some? then ConvertedSubject(targetType, e.target.value) else this
    }
  }

  /** Observable side effects outside the bound variable: a warning sent to
    * the notifier, or a call of a user callback with an argument. */
  datatype Note = Warned(text: string) | Invoked(callback: nat, argument: string)

  /** The result of running an action. `target == None` leaves the bound
    * variable as it was. */
  datatype Effect<E> = Effect(target: Option<Target<E>>, notes: seq<Note>, message: Option<string>)

  /** An `AssignAction`; `NoAction` is the empty `std::function`. */
  datatype AssignAction<!E> = NoAction | Action(run: (Subject<E>, string) -> Effect<E>)

  /** An `AssignDefaultAction`; `NoDefaultAction` is the empty `std::function`. */
  datatype AssignDefaultAction<!E> = NoDefaultAction | DefaultAction(apply: Subject<E> -> Effect<E>)

  /** The effect of an action that changes nothing and says nothing. */
  function Inert<E>(): Effect<E> {
    Effect(None, [], None)
  }

  function WarningNotes(elem: ElemType, arg: string): (n: seq<Note>)
    ensures |n| == |Warnings(elem, arg)|
    ensures forall i :: 0 <= i < |n| ==> n[i] == Warned(Warnings(elem, arg)[i])
  {
    var w := Warnings(elem, arg);
    seq(|w|, i requires 0 <= i < |w| => Warned(w[i]))
  }

  /** Running an action, where the empty action does nothing. */
  function Perform<E>(action: AssignAction<E>, s: Subject<E>, arg: string): Effect<E> {
    match action
    case NoAction => Inert()
    case Action(run) => run(s, arg)
  }

  /** True when the action, run on a value of target type `tt` whose variable
    * has that type's shape, leaves the variable with the same shape: what the
    * C++ type of an action for `ConvertedValue<TTarget>` guarantees. */
  ghost predicate KeepsShape<E(!new)>(action: AssignAction<E>, tt: TargetType) {
    action.Action? ==>
      forall t: Target<E>, arg: string {:trigger action.run(ConvertedSubject(tt, t), arg)} :: Fits(tt, t) ==>
        action.run(ConvertedSubject(tt, t), arg).target.None?
        || Fits(tt, action.run(ConvertedSubject(tt, t), arg).target.value)
  }

  /** The same guarantee for an assign-default action. */
  ghost predicate DefaultKeepsShape<E(!new)>(action: AssignDefaultAction<E>, tt: TargetType) {
    action.DefaultAction? ==>
      forall t: Target<E> {:trigger action.apply(ConvertedSubject(tt, t))} :: Fits(tt, t) ==>
        action.apply(ConvertedSubject(tt, t)).target.None?
        || Fits(tt, action.apply(ConvertedSubject(tt, t)).target.value)
  }

  /** The action `ConvertedValue<TTarget>::getDefaultAction` builds: it casts
    * the value it is given to `ConvertedValue<TTarget>` and, only when the cast
    * succeeds, assigns the converted token to that value's own target. */
  function ConvertingAction<E(!new)>(conv: Conversions<E>, tt: TargetType): (a: AssignAction<E>)
    ensures a.Action?
    ensures forall s: Subject<E>, arg: string :: s.TypeOf() != ConvertedTypeId(tt) ==>
              a.run(s, arg) == Inert()
    ensures forall s: Subject<E>, arg: string :: s.TypeOf() == ConvertedTypeId(tt) ==>
              a.run(s, arg) == Effect(Some(Assign(conv, tt.elem, s.target, arg)), WarningNotes(tt.elem, arg), None)
    ensures KeepsShape(a, tt)
  {
    Action((s: Subject<E>, arg: string) =>
      if s.TypeOf() == ConvertedTypeId(tt)
      then Effect(Some(Assign(conv, tt.elem, s.target, arg)), WarningNotes(tt.elem, arg), None)
      else Inert())
  }
}
