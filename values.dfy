/**
 * The value layer of namespace `argparse` (src/values.h): a `Value` counts the
 * assignments made to it, overall and within the option that is currently
 * active, keeps a sticky error flag, and runs assign-actions on itself.
 *
 * `VoidValue` and `ConvertedValue<TValue>` are the two kinds of value; the
 * model keeps one class and records the kind in a constant field. A converted
 * value holds its target variable by reference, so two values may share one.
 */
module Values {
  import opened Conversion
  import opened Actions

  /** `VoidValue`, or `ConvertedValue<TValue>` bound to a variable of type `targetType`. */
  datatype Kind<E> = VoidKind | ConvertedKind(targetType: TargetType, conv: Conversions<E>, variable: Variable<E>)

  class Value<E(!new)> {
    var assignCount: int
    var optionAssignCount: int
    var hasErrors: bool
    const kind: Kind<E>
    /** Warnings and user-callback calls caused by the actions run on this value. */
    ghost var notes: seq<Note>

    /** A `VoidValue`: an option that takes no argument. */
    constructor Void()
      ensures Valid()
      ensures kind.VoidKind?
      ensures assignCount == 0 && optionAssignCount == 0 && !hasErrors && notes == []
    {
      kind := VoidKind;
      assignCount, optionAssignCount, hasErrors := 0, 0, false;
      notes := [];
    }

    /** A `ConvertedValue<TValue>` bound to `variable`, which holds a `TValue`;
      * the variable is not touched. */
    constructor Converted(tt: TargetType, conv: Conversions<E>, variable: Variable<E>)
      requires Fits(tt, variable.content)
      ensures Valid()
      ensures kind.ConvertedKind? && kind.targetType == tt && kind.variable == variable
      ensures kind.conv == conv
      ensures assignCount == 0 && optionAssignCount == 0 && !hasErrors && notes == []
    {
      kind := ConvertedKind(tt, conv, variable);
      assignCount, optionAssignCount, hasErrors := 0, 0, false;
      notes := [];
    }

    /** The objects outside this one that the value writes: its bound variable. */
    function Bound(): set<object> {
      if kind.ConvertedKind? then {kind.variable} else {}
    }

    /** The bound variable holds a value of the bound type `TValue`. */
    ghost predicate Valid()
      reads Bound()
    {
      kind.ConvertedKind? ==> Fits(kind.targetType, kind.variable.content)
    }

    /** What an action run on this value sees. */
    function Subject(): (s: Subject<E>)
      reads Bound()
      ensures s.VoidSubject? <==> kind.VoidKind?
      ensures kind.ConvertedKind? ==> s.targetType == kind.targetType && s.target == kind.variable.content
    {
      if kind.VoidKind? then VoidSubject else ConvertedSubject(kind.targetType, kind.variable.content)
    }

    /** `getDefaultAction`: empty for a `VoidValue`; for a `ConvertedValue`
      * the action that converts the token into the bound variable. */
    function GetDefaultAction(): (a: AssignAction<E>)
      ensures kind.VoidKind? ==> a.NoAction?
      ensures kind.ConvertedKind? ==> a == ConvertingAction(kind.conv, kind.targetType)
    {
      if kind.VoidKind? then NoAction else ConvertingAction(kind.conv, kind.targetType)
    }

    /** The action `setValue` runs: the one given, or the default one when
      * none is given. */
    function Chosen(action: AssignAction<E>): AssignAction<E> {
      if action.NoAction? then GetDefaultAction() else action
    }

    /** `setValue`: both counters go up by exactly one before the action runs,
      * whatever the action then does to the bound variable. */
    method SetValue(arg: string, action: AssignAction<E>)
      requires Valid()
      requires kind.ConvertedKind? ==> KeepsShape(action, kind.targetType)
      modifies this, Bound()
      ensures Valid()
      ensures assignCount == old(assignCount) + 1
      ensures optionAssignCount == old(optionAssignCount) + 1
      ensures hasErrors == old(hasErrors)
      ensures Subject() == old(Subject()).After(Perform(Chosen(action), old(Subject()), arg))
      ensures notes == old(notes) + Perform(Chosen(action), old(Subject()), arg).notes
      ensures kind.VoidKind? && action.NoAction? ==> notes == old(notes)
    {
      assignCount := assignCount + 1;
      optionAssignCount := optionAssignCount + 1;
      var a := action;
      if a.NoAction? {
        a := GetDefaultAction();
      }
      if a.Action? {
        var e := a.run(Subject(), arg);
        if kind.ConvertedKind? && e.target.Some? {
          kind.variable.content := e.target.value;
        }
        notes := notes + e.notes;
      }
    }

    /** `setDefault`: an empty action changes nothing; otherwise only the
      * total count goes up, and the action runs. */
    method SetDefault(action: AssignDefaultAction<E>)
      requires Valid()
      requires kind.ConvertedKind? ==> DefaultKeepsShape(action, kind.targetType)
      modifies this, Bound()
      ensures Valid()
      ensures optionAssignCount == old(optionAssignCount) && hasErrors == old(hasErrors)
      ensures action.NoDefaultAction? ==>
                assignCount == old(assignCount) && Subject() == old(Subject()) && notes == old(notes)
      ensures action.DefaultAction? ==>
                && assignCount == old(assignCount) + 1
                && Subject() == old(Subject()).After(action.apply(old(Subject())))
                && notes == old(notes) + action.apply(old(Subject())).notes
    {
      if action.DefaultAction? {
        assignCount := assignCount + 1;
        var e := action.apply(Subject());
        if kind.ConvertedKind? && e.target.Some? {
          kind.variable.content := e.target.value;
        }
        notes := notes + e.notes;
      }
    }

    /** `markBadArgument`: counts as an assignment of the current option and
      * sets the error flag, but leaves the total count alone. */
    method MarkBadArgument()
      modifies this
      ensures optionAssignCount == old(optionAssignCount) + 1
      ensures hasErrors
      ensures assignCount == old(assignCount) && notes == old(notes)
    {
      optionAssignCount := optionAssignCount + 1;
      hasErrors := true;
    }

    /** `getAssignCount`: assignments through all options sharing this value. */
    function GetAssignCount(): (n: int)
      reads this
      ensures n == assignCount
    {
      assignCount
    }

    /** `getOptionAssignCount`: assignments through the current option. */
    function GetOptionAssignCount(): (n: int)
      reads this
      ensures n == optionAssignCount
    {
      optionAssignCount
    }

    /** `onOptionStarted`: a new option activation starts counting from zero. */
    method OnOptionStarted()
      modifies this
      ensures optionAssignCount == 0
      ensures assignCount == old(assignCount) && hasErrors == old(hasErrors) && notes == old(notes)
    {
      optionAssignCount := 0;
    }

    /** The state `reset` leaves: no assignments, no errors, and the bound
      * variable holding `TValue{}`. */
    ghost predicate IsCleared()
      reads this, Bound()
    {
      && assignCount == 0 && optionAssignCount == 0 && !hasErrors
      && (kind.ConvertedKind? ==> kind.variable.content == Cleared(kind.conv, kind.targetType))
    }

    /** `reset` (with `doReset`); resetting a value that is already reset
      * changes nothing, so a second call has no effect. */
    method Reset()
      modifies this, Bound()
      ensures IsCleared() && Valid()
      ensures notes == old(notes)
      ensures old(IsCleared()) ==> Subject() == old(Subject())
    {
      assignCount, optionAssignCount, hasErrors := 0, 0, false;
      if kind.ConvertedKind? {
        kind.variable.content := Cleared(kind.conv, kind.targetType);
      }
    }
  }

  /** `markBadArgument` on a fresh value: the per-option count exceeds the
    * total count, so "per-option count <= total count" is not an invariant. */
  method BadArgumentFirst<E(!new)>() returns (v: Value<E>)
    ensures v.optionAssignCount > v.assignCount && v.hasErrors
  {
    v := new Value.Void();
    v.MarkBadArgument();
  }
}
