# Arjuna core: data generators, command dispatch, event properties

This project models three pieces of the Arjuna test-automation framework in
Dafny and proves properties about them.

- **Data generators** (`arjuna/tpi/data/generator.py`). These are in
  `generator.dfy` (module `Generator`) and `random_data.dfy` (module
  `RandomData`).
  - A `generator` calls a callable with stored arguments and passes the result
    through a post-processor. The post-processor is `_same` by default, a method
    name of the data, a `processor` object or a plain function.
  - A `composite` evaluates a list of callables, generators and static values in
    order. It hands the list to a composer, either `_same`, a `composer` object
    or a function.
  - `Random.ustr`, `Random.name`, `Random.fixed_length_number` and `Random.int`
    take the values their random source would draw as parameters.
- **The command-line dispatcher** (`ArjunaCLI.execute` in
  `testmile-arjuna/arjuna/lib/interface/cli.py`). This is in `cli.dfy`
  (module `Cli`). It is a class whose argument map loses its `command` entry
  when the command executes. The command is checked for emptiness and its
  spelling normalised to a `CommandEnum` member. Then it is announced with its
  description and handed, with the rest of the map, to that command's handler.
  The result is an `Outcome` value that records the message, the exit status or
  the handler that would be called.
- **Event properties** (`EventProperties.java` in AC-Unitee). This is in
  `event_properties.dfy` (module `Event`). It is a class over an enum-keyed
  map that starts with six defaults. It has type lookups by enum and by
  case-insensitive name, and setters that overwrite one key.
- Upper-casing, which the dispatcher and the event table share, is in
  `ascii.dfy` (module `Ascii`).

## Model

| member | source | states |
|---|---|---|
| Ascii.Upper | testmile-arjuna/arjuna/lib/interface/cli.py:87 | upper-casing keeps the length and maps each character to its upper-case form, a-z to A-Z and every other character unchanged |
| Ascii.UpperIdempotent | testmile-arjuna/arjuna/lib/interface/cli.py:87 | upper-casing an upper-cased name changes nothing |
| Cli.Normalise | testmile-arjuna/arjuna/lib/interface/cli.py:87 | normalisation keeps the length of the name; `Cli.NormaliseIsUpperThenReplace` proves it is `upper()` followed by replacing `-` with `_` |
| Cli.CommandNamed | testmile-arjuna/arjuna/lib/interface/cli.py:87 | `CommandEnum[...]` finds the member whose name is exactly the given text, and finds none when no member has that name |
| Cli.ParseCommand | testmile-arjuna/arjuna/lib/interface/cli.py:87 | the command a spelling selects has the normalised spelling as its member name; when none is selected, no member has that name |
| Cli.NormaliseIsUpperThenReplace | testmile-arjuna/arjuna/lib/interface/cli.py:87 | the one-pass normalisation equals `upper()` followed by replacing every `-` with `_` |
| Cli.NormaliseIgnoresCase | testmile-arjuna/arjuna/lib/interface/cli.py:85-87 | the command a user types selects the same member whatever its letter case |
| Cli.ParseCommandIff | testmile-arjuna/arjuna/lib/interface/cli.py:85-87 | a spelling selects a command if and only if its normalised form is that command's member name |
| Cli.ParseCliName | testmile-arjuna/arjuna/lib/interface/cli.py:85-87 | each command's command-line spelling (`create-project`, `run-project`, ...) selects exactly that command |
| Cli.TablesAgree | testmile-arjuna/arjuna/lib/interface/cli.py:77-99 | the description table and the handler table cover the same five commands, no two commands share a handler, and no two share a description |
| Cli.ExecuteOutcome | testmile-arjuna/arjuna/lib/interface/cli.py:66-103 | the outcome of `execute`: a KeyError exactly when the map has no `command` entry; exit status 1 exactly when the command is falsy; an AttributeError exactly when a truthy command is not a string; a KeyError for an unknown name only when the name selects no command; on dispatch the handler gets every key except `command` |
| Cli.EmptyCommandExits | testmile-arjuna/arjuna/lib/interface/cli.py:70-74 | an empty or `None` command ends with the fatal message and exit status 1, and no handler is called |
| Cli.DispatchIff | testmile-arjuna/arjuna/lib/interface/cli.py:66-103 | a handler is called if and only if the command is a non-empty string that names a command. In that case the handler is that command's handler, the announcement is its description followed by `...`, and the handler gets every other entry of the map, unchanged, without `command` |
| Cli.DispatchCliName | testmile-arjuna/arjuna/lib/interface/cli.py:85-103 | typing a command's spelling dispatches to that command's handler with the map minus `command` |
| Cli.ArjunaCLI.Execute | testmile-arjuna/arjuna/lib/interface/cli.py:66-103 | executing removes the `command` entry from the stored map and produces the outcome described by `DispatchIff` and `EmptyCommandExits`, or a KeyError when there is no entry |
| Event.AttributeNamed | AC-Unitee/src/com/autocognite/pvt/unitee/reporter/lib/event/EventProperties.java:52 | `valueOf` returns the constant with exactly that name, and fails when no constant has it |
| Event.AttributeType | AC-Unitee/src/com/autocognite/pvt/unitee/reporter/lib/event/EventProperties.java:26-43 | an attribute is BOOLEAN if and only if it is SUCCESS; every other attribute is STRING |
| Event.Key | AC-Unitee/src/com/autocognite/pvt/unitee/reporter/lib/event/EventProperties.java:50-53 | a name selects an attribute if and only if its upper-case form is that attribute's name |
| Event.KeyType | AC-Unitee/src/com/autocognite/pvt/unitee/reporter/lib/event/EventProperties.java:45-48 | the type by name is the type of the attribute `key` selects, and fails exactly when `key` fails |
| Event.ValueEnumType | AC-Unitee/src/com/autocognite/pvt/unitee/reporter/lib/event/EventProperties.java:55-58 | no name has an enum value class |
| Event.EventProperties.constructor | AC-Unitee/src/com/autocognite/pvt/unitee/reporter/lib/event/EventProperties.java:15-24 | a new table holds exactly the six defaults, and every value fits its attribute's type |
| Event.EventProperties.SetText | AC-Unitee/src/com/autocognite/pvt/unitee/reporter/lib/event/EventProperties.java:60-62 | TEXT is overwritten with the string value, every other attribute is unchanged, and the table stays well-typed |
| Event.EventProperties.SetComponent | AC-Unitee/src/com/autocognite/pvt/unitee/reporter/lib/event/EventProperties.java:64-66 | COMPONENT is overwritten with the string value, every other attribute is unchanged, and the table stays well-typed |
| Event.Defaults | AC-Unitee/src/com/autocognite/pvt/unitee/reporter/lib/event/EventProperties.java:15-22 | the six defaults; `Event.DefaultsFit` proves they cover every attribute with a value of the right type |
| Event.DefaultsFit | AC-Unitee/src/com/autocognite/pvt/unitee/reporter/lib/event/EventProperties.java:15-24 | the defaults cover all six attributes with values of the right type. TEXT and COMPONENT are not set, SUCCESS is true, and REMARKS, EXC_MSG and EXC_TRACE are not applicable |
| Event.KeyIgnoresCase | AC-Unitee/src/com/autocognite/pvt/unitee/reporter/lib/event/EventProperties.java:50-53 | name lookup gives the same answer for a name and its upper-case form |
| Event.KeyOfName | AC-Unitee/src/com/autocognite/pvt/unitee/reporter/lib/event/EventProperties.java:50-53 | each attribute's own name selects that attribute |
| Event.KeyTypeBoolean | AC-Unitee/src/com/autocognite/pvt/unitee/reporter/lib/event/EventProperties.java:45-48 | the type by name is BOOLEAN exactly for the spellings of SUCCESS, in any case |
| Generator.CallMethod | arjuna/tpi/data/generator.py:61 | `getattr(data, name)(...)` raises AttributeError exactly when the data has no such attribute and TypeError exactly when the attribute cannot be called. Otherwise it succeeds with the method's result on the given arguments |
| Generator.ProcessAsWritten | arjuna/tpi/data/generator.py:53-63 | `processor.process` as written: over a function it always raises a NameError, so only a method name the data has can succeed |
| Generator.ProcessAsWrittenRaises | arjuna/tpi/data/generator.py:60-63 | as written, a `processor` over a function always raises NameError `data_iterator`; over a method name it behaves as intended |
| Generator.Process | arjuna/tpi/data/generator.py:53-63 | `processor.process` as intended (see Findings; line 63 as written is `Generator.ProcessAsWritten`). It fails exactly when the callable is a method name the data lacks or cannot call. A method name gives `getattr(data, name)(*args, **kwargs)`, and a function gives `f(data, *args, **kwargs)` |
| Generator.ProcessCallsFunction | arjuna/tpi/data/generator.py:63 | as intended, a `processor` over a function calls it with the data first and the stored arguments after. A generator with such a processor gives the same result as one with a plain function that binds those arguments |
| Generator.Generate | arjuna/tpi/data/generator.py:113-125 | `generator.generate` with the intended `processor.process` (see Findings). It fails exactly when the processor, directly or through a `processor` object, names a method the generated data lacks or cannot call. A method name gives that method's result with no arguments, a `processor` object gives its processing of the data, and a plain function `f` gives `f(data)` |
| Generator.GenerateAsWritten | arjuna/tpi/data/generator.py:113-125 | `generator.generate` exactly as written: a `processor` object over a function raises NameError `data_iterator`, and every other processor gives the same result as `Generator.Generate` |
| Generator.GenerateWithDefaultProcessor | arjuna/tpi/data/generator.py:107-125 | with the default `_same`, a generator returns exactly what its callable returns on the stored arguments |
| Generator.NamedMethodIsBareProcessor | arjuna/tpi/data/generator.py:119-123 | a method-name processor is the same as a `processor` object with that name and no arguments: both call the named zero-argument method of the data |
| Generator.GenerateComposite | arjuna/tpi/data/generator.py:144-162 | the loop builds the list of item values in order and hands it to the composer, stopping at the first generator that fails |
| Generator.EvalAll | arjuna/tpi/data/generator.py:150-157 | a successful evaluation of the items has one value per item |
| Generator.CompositeResult | arjuna/tpi/data/generator.py:144-162 | `composite.generate` succeeds exactly when every item does |
| Generator.EvalAllPrefixFails | arjuna/tpi/data/generator.py:150-157 | if evaluating a prefix of the items fails, evaluating all of them fails with the same error |
| Generator.EvalAllOk | arjuna/tpi/data/generator.py:150-157 | a successful evaluation yields one value per item, in order. Static items appear unchanged and callables appear as their results |
| Generator.EvalAllSucceeds | arjuna/tpi/data/generator.py:150-157 | evaluating the items succeeds if and only if every item succeeds |
| Generator.EvalAllFailsFirst | arjuna/tpi/data/generator.py:150-157 | a failed evaluation reports the error of the first failing item, and every item before it succeeds |
| Generator.EvalAllSnoc | arjuna/tpi/data/generator.py:151-157 | evaluating one more item appends that item's value to the list |
| Generator.Compose | arjuna/tpi/data/generator.py:82-89 | `composer.compose`; `Generator.ComposerObjectCall` proves it calls the callable with the list first and the stored arguments after |
| Generator.Same | arjuna/tpi/data/generator.py:91-92 | `_same` returns its argument; `Generator.GenerateWithDefaultProcessor` and `Generator.ComposerAppliedOnce` prove that as the default it leaves the data unchanged |
| Generator.ComposerAppliedOnce | arjuna/tpi/data/generator.py:159-162 | the composer is applied once, to the whole list. With `_same` the result is the list itself, and a failure of the items is passed through under any composer |
| Generator.ComposerObjectCall | arjuna/tpi/data/generator.py:82-89 | a `composer` object calls its callable with the list first and its stored arguments after |
| Generator.CompositeExample | arjuna/tpi/data/generator.py:144-162 | `composite(1, lambda: 2, generator(lambda: 3))` generates `[1, 2, 3]` |
| RandomData.Ustr | arjuna/tpi/data/generator.py:180-181 | the unique string ends with the UUID text. A non-empty prefix comes first, followed by `-`; a missing or empty prefix adds nothing |
| RandomData.SplitUstrRecovers | arjuna/tpi/data/generator.py:180-181 | the prefix and the UUID text can be recovered from the unique string, and an empty prefix is the same as none |
| RandomData.Name | arjuna/tpi/data/generator.py:220 | the full name is the first name, one space and the last name, in that order |
| RandomData.SplitNameRecovers | arjuna/tpi/data/generator.py:220 | the full name is the first name, one space and the last name; it splits back into both when the first name has no space |
| RandomData.FixedLengthNumber | arjuna/tpi/data/generator.py:339-358 | the number has exactly max(length, 1) digits (`10^(n-1) <= r < 10^n`), and its digits are the drawn digits in order, the first non-zero |
| RandomData.DecimalValueBounds | arjuna/tpi/data/generator.py:358 | `int()` of an n-digit string without a leading zero lies in `[10^(n-1), 10^n)` |
| RandomData.DigitsOfDecimal | arjuna/tpi/data/generator.py:358 | `int()` of a digit string without a leading zero has exactly those digits |
| RandomData.Int | arjuna/tpi/data/generator.py:360-372 | a number is drawn if and only if `begin <= end`, and then it lies in the inclusive range; an empty range raises |
| RandomData.IntCoversRange | arjuna/tpi/data/generator.py:372 | every number of the inclusive range is drawn by exactly one choice of the random source |

## Left out

- Randomness is not modelled. The digits `random.randint` draws, the offset it picks, the text of `uuid.uuid4()` and the names the fake-data provider returns are all parameters.
- The Random methods backed by the fake-data library (first and last names, phone numbers, e-mail addresses, sentences and the like) are not modelled. They only forward to that library.
- RandomData.Int: the default `begin=0` is not modelled; the caller always passes `begin`.
- Python values are opaque atoms or lists (`Value`). Callables are total functions, so exceptions raised inside a user's callable or composer are not modelled. Only the AttributeError of a missing attribute, the TypeError of an attribute that cannot be called, and the NameError of the processor are.
- Python's `hasattr(x, '__call__')` test is replaced by the kind of each composite item: callable, generator or static value. A nested `composite` object is not callable and not a `generator`, so it is a static value and is added unchanged.
- Generator.Generate: composites evaluate their generators with the intended `processor.process`. `Generator.GenerateAsWritten` is the program as written; they differ only for a `processor` object over a function (see Findings).
- Keyword arguments are a map from names to values. Their order is not modelled.
- Cli.ArjunaCLI.Execute: printing, the help text and `sys.exit` become the `Outcome` value. The handler call is recorded in the outcome rather than run, because the command objects' `execute` methods are not part of this model. `EnumSwitch` is modelled as a plain table lookup.
- The argument parser set-up (`ArjunaCLI.__init__`, the sub-parsers and `convert_to_dict`) and `init` with its `time.sleep` are not modelled. The class is built from the already-converted argument map.
- Cli.ArjunaCLI.Execute: an absent `command` entry is a KeyError outcome. The argument parser always stores the entry, and a command the user leaves out arrives as `None` and takes the exit-1 path.
- Ascii.Upper: upper-casing covers the ASCII letters only. Python's `str.upper` and Java's `String.toUpperCase` also map non-ASCII letters (for example `ß` to `SS`), and those are not modelled.
- Event.AttributeType: the model assumes `EventAttribute` has exactly the six constants the constructor and the switch name; the enum is not part of this model. Under that assumption the `return null` after the switch is unreachable, so it is not modelled.
- The `EnumKeyValueContainer` base class is a map whose `add` overwrites. Its sentinels "not set" and "not applicable" are two distinct constants. The container is assumed to start empty.
- Event.Key: `valueOf` throwing IllegalArgumentException is modelled as `None`, and `valueType(String)` passes that failure on.
- The OAuth helpers, the JSON results reader, the fixture result deserialiser, the HOCON reader and the integer value wrapper are not part of this model.

## Findings

| source | as written | input that shows it | evidently intended | confidence | as-written member | corrected member |
|---|---|---|---|---|---|---|
| arjuna/tpi/data/generator.py:63 | `processor.process` calls its function with `data_iterator`, a name that is not defined anywhere in the module | `generator(f, processor=processor(g))` for any function `g`: `generate()` raises NameError instead of returning `g(f())` | call the function with `data` first, then the stored arguments | high (not executed) | Generator.GenerateAsWrittenRaises | Generator.ProcessCallsFunction |
