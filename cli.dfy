/** The primary-command dispatcher of the `arjuna` command line
    (`ArjunaCLI.execute`): it takes the `command` entry out of the parsed
    argument map, refuses an empty command, turns the command name into one
    of five command values, announces it and hands the rest of the map to
    exactly one command handler. Printing and `sys.exit` are modelled as the
    returned `Outcome`. */
module Cli {
  import Ascii
  import opened Optional

  /** The command values (`CommandEnum`). */
  datatype CommandEnum = CreateProject | RunProject | RunSession | RunGroup | RunNames

  /** The five command-handler objects the dispatcher owns. */
  datatype Handler = CreateProjectHandler | RunProjectHandler | RunSessionHandler | RunGroupHandler | RunNamesHandler

  /** A value of the parsed argument map (what the argument parser puts
      there: `None`, strings, flags, numbers, lists of strings). */
  datatype ArgValue = NoneArg | StrArg(s: string) | BoolArg(b: bool) | IntArg(i: int) | ListArg(items: seq<string>)

  type ArgMap = map<string, ArgValue>

  /** The key the argument parser stores the primary command under. */
  const CommandKey := "command"

  const FatalMessage := "!!!Fatal Error!!! You did not provide any command."

  /** What one call of `execute` does. */
  datatype Outcome =
      /** `arg_dict['command']` raised a KeyError: the map has no command entry. */
    | MissingCommandKey
      /** The error message and the help text were printed and the process exited. */
    | FatalExit(status: int, message: string)
      /** A non-empty command that is not a string: `.upper()` raised an AttributeError. */
    | CommandNotText
      /** `CommandEnum[...]` raised a KeyError for the normalised name. */
    | UnknownCommand(normalised: string)
      /** `announcement` was printed and `handler.execute(args)` was called. */
    | Dispatched(announcement: string, handler: Handler, args: ArgMap)

  /** Python truthiness of an argument value (`not command`). */
  predicate Truthy(v: ArgValue)
  {
    match v
    case NoneArg => false
    case StrArg(s) => s != ""
    case BoolArg(b) => b
    case IntArg(i) => i != 0
    case ListArg(items) => items != []
  }

  /** The member name of each command value. */
  function EnumName(c: CommandEnum): string
  {
    match c
    case CreateProject => "CREATE_PROJECT"
    case RunProject => "RUN_PROJECT"
    case RunSession => "RUN_SESSION"
    case RunGroup => "RUN_GROUP"
    case RunNames => "RUN_NAMES"
  }

  /** The name a user types on the command line for each command. */
  function CliName(c: CommandEnum): string
  {
    match c
    case CreateProject => "create-project"
    case RunProject => "run-project"
    case RunSession => "run-session"
    case RunGroup => "run-group"
    case RunNames => "run-names"
  }

  /** One character of `command.upper().replace("-", "_")`: upper-casing
      changes only letters, so it and the replacement act on each character
      independently. */
  function NormaliseChar(c: char): char
  {
    if c == '-' then '_' else Ascii.UpperChar(c)
  }

  /** `command.upper().replace("-", "_")`. */
  function Normalise(name: string): (r: string)
    ensures |r| == |name|
  {
    if name == [] then [] else [NormaliseChar(name[0])] + Normalise(name[1..])
  }

  /** Normalisation keeps the length and maps each character on its own. */
  lemma {:induction false} NormaliseAt(name: string)
    ensures |Normalise(name)| == |name|
    ensures forall i :: 0 <= i < |name| ==> Normalise(name)[i] == NormaliseChar(name[i])
  {
    if name != [] {
      NormaliseAt(name[1..]);
    }
  }

  /** `str.replace("-", "_")` on its own. */
  function ReplaceHyphens(s: string): string
  {
    if s == [] then [] else [if s[0] == '-' then '_' else s[0]] + ReplaceHyphens(s[1..])
  }

  /** The character-wise normalisation is upper-casing followed by the
      replacement, as the dispatcher writes it. */
  lemma {:induction false} NormaliseIsUpperThenReplace(name: string)
    ensures Normalise(name) == ReplaceHyphens(Ascii.Upper(name))
  {
    if name != [] {
      NormaliseIsUpperThenReplace(name[1..]);
      assert Ascii.Upper(name) == [Ascii.UpperChar(name[0])] + Ascii.Upper(name[1..]);
      assert Ascii.Upper(name)[1..] == Ascii.Upper(name[1..]);
    }
  }

  /** `CommandEnum[name]`: the command whose member name is `name`, if any. */
  function CommandNamed(name: string): (r: Option<CommandEnum>)
    ensures r.Some? ==> EnumName(r.value) == name
    ensures r.None? ==> forall c :: EnumName(c) != name
  {
    if name == "CREATE_PROJECT" then Some(CreateProject)
    else if name == "RUN_PROJECT" then Some(RunProject)
    else if name == "RUN_SESSION" then Some(RunSession)
    else if name == "RUN_GROUP" then Some(RunGroup)
    else if name == "RUN_NAMES" then Some(RunNames)
    else None
  }

  /** The command a command-line name selects, after normalisation. */
  function ParseCommand(name: string): (r: Option<CommandEnum>)
    ensures r.Some? ==> Normalise(name) == EnumName(r.value)
    ensures r.None? ==> forall c :: Normalise(name) != EnumName(c)
  {
    CommandNamed(Normalise(name))
  }

  /** `desc_cases`: the description printed for each command. */
  function DescCases(): map<CommandEnum, string>
  {
    map[CreateProject := "Creating new project",
        RunProject := "Running the project",
        RunSession := "Running the selected session",
        RunGroup := "Running the selected group",
        RunNames := "Running the selected names"]
  }

  /** `execute_cases`: the handler object whose `execute` runs each command. */
  function ExecuteCases(): map<CommandEnum, Handler>
  {
    map[CreateProject := CreateProjectHandler,
        RunProject := RunProjectHandler,
        RunSession := RunSessionHandler,
        RunGroup := RunGroupHandler,
        RunNames := RunNamesHandler]
  }

  /** The line printed before dispatch. */
  function Announcement(c: CommandEnum): string
    requires c in DescCases()
  {
    DescCases()[c] + "..."
  }

  /** What `execute` does with the argument map `args` it starts from. */
  function ExecuteOutcome(args: ArgMap): (o: Outcome)
    ensures o.MissingCommandKey? <==> CommandKey !in args
    ensures o.FatalExit? <==> CommandKey in args && !Truthy(args[CommandKey])
    ensures o.FatalExit? ==> o.status == 1
    ensures o.CommandNotText? <==> CommandKey in args && Truthy(args[CommandKey]) && !args[CommandKey].StrArg?
    ensures o.UnknownCommand? ==>
      CommandKey in args && args[CommandKey].StrArg? && ParseCommand(args[CommandKey].s).None?
    ensures o.Dispatched? ==> o.args.Keys == args.Keys - {CommandKey}
  {
    if CommandKey !in args then MissingCommandKey
    else
      var command := args[CommandKey];
      var rest := args - {CommandKey};
      if !Truthy(command) then FatalExit(1, FatalMessage)
      else if !command.StrArg? then CommandNotText
      else
        match ParseCommand(command.s)
        case None => UnknownCommand(Normalise(command.s))
        case Some(c) => Dispatched(Announcement(c), ExecuteCases()[c], rest)
  }

  /** The command-line front end; `argDict` is the parsed argument map that
      `init` stores before calling `execute`. */
  class ArjunaCLI {
    var argDict: ArgMap

    constructor (parsed: ArgMap)
      ensures argDict == parsed
    {
      argDict := parsed;
    }

    /** Takes the command out of `argDict` and dispatches it. */
    method Execute() returns (o: Outcome)
      modifies this
      ensures o == ExecuteOutcome(old(argDict))
      ensures argDict == old(argDict) - {CommandKey}
    {
      if CommandKey !in argDict {
        return MissingCommandKey;
      }
      var command := argDict[CommandKey];
      argDict := argDict - {CommandKey};

      if !Truthy(command) {
        return FatalExit(1, FatalMessage);
      }
      if !command.StrArg? {
        return CommandNotText;
      }
      var commandEnum := ParseCommand(command.s);
      if commandEnum.None? {
        return UnknownCommand(Normalise(command.s));
      }
      var c := commandEnum.value;
      o := Dispatched(DescCases()[c] + "...", ExecuteCases()[c], argDict);
    }
  }

  // ---------------------------------------------------------------------
  // Properties of the dispatcher

  /** Normalisation ignores case. */
  lemma NormaliseIgnoresCase(name: string)
    ensures Normalise(Ascii.Upper(name)) == Normalise(name)
  {
    NormaliseAt(name);
    NormaliseAt(Ascii.Upper(name));
  }

  /** A name selects a command exactly when its normalised form is that
      command's member name. */
  lemma ParseCommandIff(name: string, c: CommandEnum)
    ensures ParseCommand(name) == Some(c) <==> Normalise(name) == EnumName(c)
  {
  }

  /** A character-by-character check that `t` is the normalised form of
      `s` from position `i` on; it evaluates cheaply on string literals. */
  predicate NormalisesFrom(s: string, t: string, i: nat)
    requires |s| == |t| && i <= |s|
    decreases |s| - i
  {
    i == |s| || (NormaliseChar(s[i]) == t[i] && NormalisesFrom(s, t, i + 1))
  }

  lemma {:induction false} NormalisesFromAt(s: string, t: string, i: nat)
    requires |s| == |t| && i <= |s| && NormalisesFrom(s, t, i)
    ensures forall j :: i <= j < |s| ==> NormaliseChar(s[j]) == t[j]
    decreases |s| - i
  {
    if i < |s| {
      NormalisesFromAt(s, t, i + 1);
    }
  }

  lemma NormalisesTo(s: string, t: string)
    requires |s| == |t| && NormalisesFrom(s, t, 0)
    ensures Normalise(s) == t
  {
    NormalisesFromAt(s, t, 0);
    NormaliseAt(s);
  }

  /** The command-line spelling of each command normalises to its member name. */
  lemma NormaliseCliName(c: CommandEnum)
    ensures Normalise(CliName(c)) == EnumName(c)
  {
    match c
    case CreateProject => NormalisesTo("create-project", "CREATE_PROJECT");
    case RunProject => NormalisesTo("run-project", "RUN_PROJECT");
    case RunSession => NormalisesTo("run-session", "RUN_SESSION");
    case RunGroup => NormalisesTo("run-group", "RUN_GROUP");
    case RunNames => NormalisesTo("run-names", "RUN_NAMES");
  }

  lemma CommandNamedEnumName(c: CommandEnum)
    ensures CommandNamed(EnumName(c)) == Some(c)
  {
  }

  /** Every command's command-line spelling selects that command. */
  lemma ParseCliName(c: CommandEnum)
    ensures ParseCommand(CliName(c)) == Some(c)
  {
    NormaliseCliName(c);
    CommandNamedEnumName(c);
  }

  /** The description table and the handler table cover the same five
      commands, each command has its own handler and its own description. */
  lemma TablesAgree()
    ensures DescCases().Keys == ExecuteCases().Keys
    ensures forall c :: c in ExecuteCases() && c in DescCases()
    ensures forall c1, c2 :: ExecuteCases()[c1] == ExecuteCases()[c2] ==> c1 == c2
    ensures forall c1, c2 :: DescCases()[c1] == DescCases()[c2] ==> c1 == c2
  {
    forall c ensures c in ExecuteCases() && c in DescCases() {
      match c
      case CreateProject =>
      case RunProject =>
      case RunSession =>
      case RunGroup =>
      case RunNames =>
    }
  }

  /** An empty or `None` command exits with status 1 and calls no handler. */
  lemma EmptyCommandExits(args: ArgMap)
    requires CommandKey in args && !Truthy(args[CommandKey])
    ensures ExecuteOutcome(args) == FatalExit(1, FatalMessage)
    ensures !ExecuteOutcome(args).Dispatched?
  {
  }

  /** A handler is called exactly when the command is a non-empty string naming
      one of the five commands; it is the handler of that command, the
      announcement is that command's description, and it receives the map
      without the command entry and with every other entry unchanged. */
  lemma DispatchIff(args: ArgMap)
    ensures var o := ExecuteOutcome(args);
      o.Dispatched? <==>
        CommandKey in args && args[CommandKey].StrArg? && args[CommandKey].s != ""
        && ParseCommand(args[CommandKey].s).Some?
    ensures var o := ExecuteOutcome(args);
      o.Dispatched? ==>
        var c := ParseCommand(args[CommandKey].s).value;
        && o.handler == ExecuteCases()[c]
        && o.announcement == DescCases()[c] + "..."
        && CommandKey !in o.args
        && forall k :: k in args && k != CommandKey ==> k in o.args && o.args[k] == args[k]
  {
  }

  /** Typing `create-project` (or any other command's spelling) runs that
      command's handler, with the rest of the map. */
  lemma DispatchCliName(args: ArgMap, c: CommandEnum)
    requires CommandKey in args && args[CommandKey] == StrArg(CliName(c))
    ensures ExecuteOutcome(args) == Dispatched(Announcement(c), ExecuteCases()[c], args - {CommandKey})
  {
    ParseCliName(c);
  }
}
