# argparse value layer — a Dafny model

This project models the core of a C++ command-line argument library: the
layer that assigns typed values from textual tokens, and the small pieces of
state around it.

- **Values** (`src/values.h`, namespace `argparse`). A `Value` counts its
  assignments overall (`mAssignCount`) and within the active option
  (`mOptionAssignCount`), and keeps a sticky error flag (`mHasErrors`).
  `setValue` runs an assign-action on it. `VoidValue` has no target.
  `ConvertedValue<TValue>` is bound by reference to a caller's variable and
  converts tokens into it.
- **Conversion.** Converting one token follows three cases in priority order:
  a dedicated `from_string<T>::convert`; otherwise construction from the
  string; otherwise a warning. A `std::vector<T>` target gets one converted
  element appended. A `std::optional<T>` target becomes present with the
  converted element.
- **Typed values** (`src/value.h`, namespace `argumentum`). This is the same
  dispatch plus run-time type tags: `valueTypeId`, `getValueTypeId`,
  `value_cast`, and `getTargetId`, which pairs the tag with the bound
  variable's identity.
- **Schema lookup** (`src/parser.h`). `findOption` and `findCommand` are
  first-match searches. A new `Parser` starts with no end-of-options marker
  seen, position 0 and no active option.
- **Option configuration** (`src/optionconfig_impl.h`). This covers installing
  actions on an option, the wrapper for void options, and the "only one of
  nargs/minargs/maxargs" guard.

Modules and files:

- `wrappers.dfy` (`Wrappers`): `Option`, `Result` and `Outcome`.
- `conversion.dfy` (`Conversion`): element types with their capability tag;
  target shapes; the bound `Variable` class; the conversion functions; and
  lemmas about assigning several tokens in a row.
- `actions.dfy` (`Actions`): assign-actions. An action is a function from what
  it sees of a value (a `Subject`: its dynamic type and its target's content)
  and a token to an `Effect`. The effect holds the new target content, the
  warnings and user-callback calls, and the returned message.
- `values.dfy` (`Values`): the `Value` class of `src/values.h`.
- `value.dfy` (`Argumentum`): `VoidValue`, `ConvertedValue` and `value_cast`
  of `src/value.h`.
- `parser.dfy` (`Parsing`): `Option`, `Command`, `ParserDefinition` and
  `Parser`.
- `optionconfig.dfy` (`OptionConfigs`): `OptionConfig` and `VoidOptionConfig`.

Two behaviours of the source are worth stating plainly:

- `markBadArgument` (src/values.h:60-65) raises only the per-option count, so
  that a flag value is not applied after a failed attempt. Per-option count ≤
  total count is therefore not an invariant of a value
  (`Values.BadArgumentFirst`).
- The vector and optional overloads (src/values.h:178-192) declare
  `TVar target;`, try the conversion, and then append or install that element.
  When the element type is unsupported they still append or install `T{}`
  (`Conversion.Assign`, `Conversion.Element`). Only a scalar target is left
  untouched.

A converted value's bound variable always holds a value of the bound type: a
vector for a vector target, and so on (`Valid()` on both value classes). The
constructors demand it, `reset`, `doReset` and the default action keep it, and
`setValue`/`setDefault` take only actions that keep it, as the C++ types of
the actions guarantee.

## Model

| member | source | states |
|---|---|---|
| `Conversion.Convert` | src/values.h:194-212 | `from_string` is used whenever the element type has it, whether or not it can also be built from a string. Construction from the string is used only without `from_string`. Nothing is converted exactly when neither applies. |
| `Conversion.Warnings` | src/values.h:207-212 | One assignment emits at most one warning, and emits it exactly when the element type supports neither conversion. |
| `Conversion.AssignScalar` | src/values.h:194-212 | A scalar variable keeps its value when the element type is unsupported; otherwise it holds the converted token. |
| `Conversion.Element` | src/values.h:181-182 | The element built for a container is the converted token, or `T{}` when the element type is unsupported. |
| `Conversion.Assign` | src/values.h:178-192 | A vector gains exactly one element at its end and keeps its earlier elements in order. An optional becomes present with the converted element. A scalar is overwritten, or left as it was when unsupported. The target's shape never changes. |
| `Conversion.Cleared` | src/values.h:173-176 | `TValue{}` has the target's shape: an empty vector, an absent optional, or a value-initialised scalar. |
| `Conversion.Elements` | src/values.h:178-184 | One element per token, with element i converted from token i. |
| `Conversion.AssignAllAppends` | src/values.h:178-184 | Assigning the tokens one after another to a vector appends their elements in token order, after the old contents. |
| `Conversion.AssignAllScalar` | src/values.h:194-212 | Over a sequence of assignments to a scalar, the last token wins. With an unsupported element type the variable never changes. |
| `Conversion.AssignAllOptional` | src/values.h:186-192 | After one or more assignments, an optional is present and holds the last token's element. |
| `Actions.ConvertingAction` | src/values.h:164-171 | The default action of `ConvertedValue<TValue>` changes nothing and warns nothing on a value of any other type. On a value of its own type it replaces that value's target with the assigned content and reports the conversion warnings. It keeps the variable's shape. |
| `Values.Value.Void` | src/values.h:102-109 | A `VoidValue` starts with zero counts, no error and no target. |
| `Values.Value.Converted` | src/values.h:159-161 | A `ConvertedValue` is bound to the given variable, which holds a value of the bound type, with zero counts and no error. The variable is not touched. |
| `Values.Value.GetDefaultAction` | src/values.h:102-109 | A `VoidValue`'s default action is empty. A `ConvertedValue`'s default action is the converting action for its target type, `Actions.ConvertingAction`, which models src/values.h:164-171. |
| `Values.Value.SetValue` | src/values.h:42-50 | Both counts rise by exactly one and the error flag is kept. The given action runs, or the default one when none is given. The new target and notes are exactly that action's effect. On a `VoidValue` with no action only the counts change. The variable keeps the bound type's shape. |
| `Values.Value.SetDefault` | src/values.h:52-58 | An empty action changes nothing. Otherwise only the total count rises by one, the per-option count and error flag are kept, and the action's effect is applied. |
| `Values.Value.MarkBadArgument` | src/values.h:60-65 | The per-option count rises by one and the error flag is set. The total count is unchanged. |
| `Values.Value.GetAssignCount` | src/values.h:70-73 | Returns the total count. |
| `Values.Value.GetOptionAssignCount` | src/values.h:78-81 | Returns the per-option count. |
| `Values.Value.OnOptionStarted` | src/values.h:83-86 | The per-option count becomes 0. The total count, error flag and target are unchanged. |
| `Values.Value.Reset` | src/values.h:88-94 | Both counts are 0, the error flag is clear and the bound variable holds `TValue{}`. Resetting a value that is already reset changes nothing, so reset is idempotent. |
| `Values.BadArgumentFirst` | src/values.h:60-65 | After `markBadArgument` on a new value, the per-option count exceeds the total count. |
| `Argumentum.ConvertedValue.constructor` | src/value.h:124-126 | Binds the value to the given variable, which holds a value of the given target type. |
| `Argumentum.ConvertedValue.ValueTypeId` | src/value.h:138-142 | Each target type has its own tag. No two target types share a tag, and no tag equals `VoidValue`'s. |
| `Argumentum.ConvertedValue.GetValueTypeId` | src/value.h:128-131 | Equals the static tag of the object's target type, so all values of one type report one tag. |
| `Argumentum.ConvertedValue.GetTargetId` | src/value.h:133-136 | The target id is the type tag paired with the identity of the bound variable. |
| `Argumentum.TargetIdIdentifies` | src/value.h:133-136 | Two values have equal target ids exactly when they have the same target type and the same bound variable. |
| `Argumentum.ValueRef.TypeOf` | src/value.h:58-60 | The virtual `getValueTypeId` is `VoidValue`'s tag exactly for a `VoidValue`, and the target type's tag otherwise. |
| `Argumentum.ValueCast` | src/value.h:144-150 | Returns null exactly when the value's tag differs from the target type's tag. Otherwise it returns the very object it was given. |
| `Argumentum.ConvertedValue.RunDefaultAction` | src/value.h:153-160 | When `value_cast` fails the default action changes nothing and warns nothing. Otherwise it assigns the token to the cast value's own target. |
| `Argumentum.ConvertedValue.DoReset` | src/value.h:162-165 | The bound variable holds `TTarget{}`, which has the target type's shape. |
| `Argumentum.ConvertedValue.Assign` | src/value.h:167-201 | The bound variable's new content is the one-token assignment (append, install or overwrite, in the three-case priority). The warnings are those of an unsupported element type. |
| `Parsing.ParserDefinition.FindOption` | src/parser.h:27-34 | Returns null exactly when no option in `mOptions` has the name. Otherwise it returns the first such option in declaration order. Positional slots are not searched, and nothing is modified. |
| `Parsing.ParserDefinition.FindCommand` | src/parser.h:36-43 | Returns null exactly when no command has the name. Otherwise it returns the first such command in declaration order. Nothing is modified. |
| `Parsing.Parser.constructor` | src/parser.h:59-62 | A new parser ignores no options, is at position 0 and has no active option. |
| `OptionConfigs.OptionConfig.Create` | src/optionconfig_impl.h:12-18 | A null option fails with the `invalid_argument` message. Any other option yields a new config wrapping it, with the count flag clear. |
| `OptionConfigs.OptionConfig.Action` | src/optionconfig_impl.h:20-24 | Installs the action on the wrapped option and returns the same config. Nothing else changes. |
| `OptionConfigs.OptionConfig.MarkCountWasSet` | src/optionconfig_impl.h:31-34 | The flag is set whatever it was before, so marking twice equals marking once. |
| `OptionConfigs.OptionConfig.EnsureCountWasNotSet` | src/optionconfig_impl.h:36-40 | Succeeds exactly while the flag is clear, and fails with the "only one of nargs, minargs and maxargs" message once it is set. |
| `OptionConfigs.WrapVoidAction` | src/optionconfig_impl.h:48-56 | The wrapper calls the user callback with the token exactly when it runs on a `VoidValue`. It never touches a bound variable and always returns the empty optional. |
| `OptionConfigs.VoidOptionConfig.constructor` | src/optionconfig_impl.h:42-44 | Wraps the given configuration. |
| `OptionConfigs.VoidOptionConfig.Action` | src/optionconfig_impl.h:46-62 | An empty callback clears the option's action. Any other callback installs its wrapper. Returns the same config. |

## Left out

- `Parser::parse` and its helpers (`startOption`, `haveActiveOption`, `closeOption`, `addFreeArgument`, `addError`, `setValue`, `parseCommandArguments`) are only declared in src/parser.h. Their bodies are not part of this model, so only the parser's fields and their initial values are modelled.
- The `Parser` constructor's body is not part of this model. Its initial state comes from the member initialisers. The result builder `mResult`, `ParserConfig`, `mConfig` and `getConfig` are not part of this model.
- `Environment` is not modelled. Actions and user callbacks are run without it.
- An action in the model acts on the bound variable and reports notes. An action that calls back into the value's own methods, such as `markBadArgument`, or acts on another object, is not modelled.
- `from_string<T>::convert`, construction `T{ s }` and `T{}` (convert.h) are uninterpreted functions in a `Conversions` record.
- The trait probes `has_from_string` and `can_convert` are replaced by two capability flags on each element type. In particular the first disjunct of `can_convert` (`std::is_constructible<std::string, TVal>`) tests the opposite direction, and the model does not reproduce that.
- `Notifier::warn` output is kept as a ghost record of notes on a `Values.Value`, and as the returned warnings of `Argumentum.ConvertedValue.Assign`.
- `TVar target;` leaves a fundamental type uninitialised. The model uses `T{}` for it.
- The counters are unbounded integers. Overflow of the C++ `int` is not modelled.
- The `Value` base of src/value.h has only declarations (`setValue`, `setDefault`, `markBadArgument`, `getAssignCount`, `onOptionStarted`, `reset`, `getValueId`, `doReset`). Their bodies are not part of this model; the `src/values.h` versions are modelled in `Values`.
- `VoidValue::getValueTypeId` and `VoidValue::value_cast` are only declared in src/value.h. The model gives `VoidValue` its own tag, different from every converted type's tag.
- The void-option wrapper returns `std::optional<std::string>`, while the `AssignAction` of both value layers shown returns nothing (src/values.h:25-26, src/value.h:30-31). It also calls `VoidValue::value_cast`, which only src/value.h declares, although src/optionconfig_impl.h is in namespace `argparse`. The model's `Effect` carries the returned message, and `Values.Value.SetValue` ignores it.
- The user callback of a void option is kept only as an identity; a call to it is a recorded note.
- `OptionConfig::getOption` is the `option` field. The initial value of `mCountWasSet` is declared in optionconfig.h, which is not part of this model, and is taken to be false.
- `Option::hasName` and `Command::hasName` are uninterpreted predicates. `Option::setAction` is modelled as assigning the option's stored action.
- Shared ownership (`std::shared_ptr`), `dynamic_cast` and addresses used as ids are modelled as object references and type tags.
- Container elements are modelled as flat element types. A container of containers (for example `std::vector<std::optional<T>>`) is not modelled: its element assignment at src/values.h:182 and :190 would go back into the container overloads, so `Conversion.Element` does not describe it.
- The `Conversions` record is carried by each value. The model does not force two values of the same C++ type to carry the same conversions, as the compiled program does.
- `VoidOptionConfig`'s constructor moves the wrapped configuration (src/optionconfig_impl.h:42-44). The model keeps a reference to it, so later use of the moved-from configuration is not modelled.
- Values.Value.SetValue: conversions and actions are modelled as never failing, so a `from_string<T>::convert`, a `T{ s }` or a user action that throws is not modelled. In the source, a throwing conversion leaves the target unchanged and a vector gets no element. A throwing user action leaves whatever it wrote before the throw. In both cases `setValue`'s counter increments stay (src/values.h:42-50 catch nothing).
- OptionConfigs.OptionConfig.Create: models a build without assertions. The `assert( pOption )` at src/optionconfig_impl.h:15, which aborts a debug build on a null option before the `invalid_argument` throw, is not modelled.
