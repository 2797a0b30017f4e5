/**
 * The schema registry and the state of the parser (src/parser.h).
 *
 * `Option` and `Command` are declared elsewhere; the model keeps of them only
 * what the lookups and the option configuration use: the name-matching
 * predicate `hasName`, left uninterpreted, and the assign-action an option
 * stores.
 */
module Parsing {
  import Actions

  /** A declared option. */
  class Option<E> {
    const hasName: string -> bool
    var action: Actions.AssignAction<E>

    constructor (hasName: string -> bool)
      ensures this.hasName == hasName && action.NoAction?
    {
      this.hasName := hasName;
      action := Actions.NoAction;
    }
  }

  /** A declared subcommand. */
  class Command {
    const hasName: string -> bool

    constructor (hasName: string -> bool)
      ensures this.hasName == hasName
    {
      this.hasName := hasName;
    }
  }

  /** `ParserDefinition`: the declared commands, options and positional slots
    * (the parser configuration is not part of this model). */
  class ParserDefinition<E> {
    var commands: seq<Command>
    var options: seq<Option<E>>
    var positional: seq<Option<E>>

    constructor ()
      ensures commands == [] && options == [] && positional == []
    {
      commands, options, positional := [], [], [];
    }

    /** `findOption`: the first option in declaration order that has the
      * name, or null when none has it. Positional slots are not searched. */
    method FindOption(optionName: string) returns (o: Option?<E>)
      ensures o == null <==> forall i :: 0 <= i < |options| ==> !options[i].hasName(optionName)
      ensures o != null ==> exists k :: 0 <= k < |options| && options[k] == o && o.hasName(optionName)
                                      && forall j :: 0 <= j < k ==> !options[j].hasName(optionName)
    {
      for i := 0 to |options|
        invariant forall j :: 0 <= j < i ==> !options[j].hasName(optionName)
      {
        if options[i].hasName(optionName) {
          return options[i];
        }
      }
      return null;
    }

    /** `findCommand`: the first command in declaration order that has the
      * name, or null when none has it. */
    method FindCommand(commandName: string) returns (c: Command?)
      ensures c == null <==> forall i :: 0 <= i < |commands| ==> !commands[i].hasName(commandName)
      ensures c != null ==> exists k :: 0 <= k < |commands| && commands[k] == c && c.hasName(commandName)
                                      && forall j :: 0 <= j < k ==> !commands[j].hasName(commandName)
    {
      for i := 0 to |commands|
        invariant forall j :: 0 <= j < i ==> !commands[j].hasName(commandName)
      {
        if commands[i].hasName(commandName) {
          return commands[i];
        }
      }
      return null;
    }
  }

  /** `Parser`: the state of one scan over the tokens (the result builder it
    * reports to is not part of this model). */
  class Parser<E> {
    const parserDef: ParserDefinition<E>
    var ignoreOptions: bool
    var position: int
    /** The option that receives the following argument tokens, if any. */
    var activeOption: Option?<E>

    /** A new parser has seen no end-of-options marker, consumed no
      * positional slot and has no active option. */
    constructor (parserDef: ParserDefinition<E>)
      ensures this.parserDef == parserDef
      ensures !ignoreOptions && position == 0 && activeOption == null
    {
      this.parserDef := parserDef;
      ignoreOptions, position, activeOption := false, 0, null;
    }
  }
}
