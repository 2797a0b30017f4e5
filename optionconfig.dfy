/**
 * Option configuration (src/optionconfig_impl.h): installing assign-actions
 * on a declared option, and the guard that allows only one of nargs, minargs
 * and maxargs.
 */
module OptionConfigs {
  import opened Wrappers
  import opened Actions
  import Parsing

  /** `OptionConfig`: a handle on one declared option. */
  class OptionConfig<E> {
    const option: Parsing.Option<E>
    /** Set once one of nargs, minargs or maxargs has been configured. */
    var countWasSet: bool

    constructor Wrap(option: Parsing.Option<E>)
      ensures this.option == option && !countWasSet
    {
      this.option := option;
      countWasSet := false;
    }

    /** The constructor: a null option is refused with `invalid_argument`. */
    static method Create(pOption: Parsing.Option?<E>) returns (r: Result<OptionConfig<E>, string>)
      ensures r.Failure? <==> pOption == null
      ensures r.Failure? ==> r.error == "OptionConfig requires an option."
      ensures r.Success? ==> fresh(r.value) && r.value.option == pOption && !r.value.countWasSet
    {
      if pOption == null {
        return Failure("OptionConfig requires an option.");
      }
      var config := new OptionConfig.Wrap(pOption);
      return Success(config);
    }

    /** `action`: installs the action on the option and returns the same config. */
    method Action(action: AssignAction<E>) returns (self: OptionConfig<E>)
      modifies option
      ensures option.action == action
      ensures self == this
    {
      option.action := action;
      return this;
    }

    /** `markCountWasSet`: the flag is set, whatever it was before. */
    method MarkCountWasSet()
      modifies this
      ensures countWasSet
    {
      countWasSet := true;
    }

    /** `ensureCountWasNotSet`: fails exactly when a count was already set. */
    method EnsureCountWasNotSet() returns (r: Outcome<string>)
      ensures r.Pass? <==> !countWasSet
      ensures r.Fail? ==> r.error == "Only one of nargs, minargs and maxargs can be used."
    {
      if countWasSet {
        return Fail("Only one of nargs, minargs and maxargs can be used.");
      }
      return Pass;
    }
  }

  /** An `assign_action_env_t`: a user callback that takes the argument token
    * (and the environment); `NoEnvAction` is the empty `std::function`. The
    * callback's own effect is observed only as the record of its calls. */
  datatype EnvAction = NoEnvAction | EnvAction(callback: nat)

  /** The wrapper installed for a void option: it calls the user callback with
    * the argument only when the value it runs on is a `VoidValue`, never
    * touches a bound variable, and always returns the empty optional. */
  function WrapVoidAction<E(!new)>(callback: nat): (a: AssignAction<E>)
    ensures a.Action?
    ensures forall s: Subject<E>, arg: string :: s.TypeOf() == VoidTypeId ==>
              a.run(s, arg) == Effect(None, [Invoked(callback, arg)], None)
    ensures forall s: Subject<E>, arg: string :: s.TypeOf() != VoidTypeId ==>
              a.run(s, arg) == Inert()
  {
    Action((s: Subject<E>, arg: string) =>
      if s.TypeOf() == VoidTypeId then Effect(None, [Invoked(callback, arg)], None) else Inert())
  }

  /** `VoidOptionConfig`: the configuration of an option without arguments. */
  class VoidOptionConfig<E(!new)> {
    const wrapped: OptionConfig<E>

    constructor (wrapped: OptionConfig<E>)
      ensures this.wrapped == wrapped
    {
      this.wrapped := wrapped;
    }

    /** `action`: an empty callback clears the option's action; any other is
      * installed wrapped. Returns the same config. */
    method Action(action: EnvAction) returns (self: VoidOptionConfig<E>)
      modifies wrapped.option
      ensures action.NoEnvAction? ==> wrapped.option.action.NoAction?
      ensures action.EnvAction? ==> wrapped.option.action == WrapVoidAction(action.callback)
      ensures self == this
    {
      if action.EnvAction? {
        wrapped.option.action := WrapVoidAction(action.callback);
      } else {
        wrapped.option.action := NoAction;
      }
      return this;
    }
  }
}
