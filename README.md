# contrib workflow runner in Dafny

contrib runs project workflows described in a `contrib.json` configuration.
That file is a tree of named commands. Each command has a list of steps:
shell commands (`exec`), prompts, confirmations, pages to open (`open`) and
URLs to fetch (`get`). A step can also `include` the steps of another command.
This project models the core of that runner and proves what it does:

- **Configuration normaliser** (`config.dfy`, lib/config.js).
  - `normalize` expands top-level shorthands, normalises `steps` lists and sets the `isCommand_` / `isMultiCommand_` markers bottom-up.
  - It walks an object the way lodash's `_.forEach` does: an object whose `length` is a valid array length is walked by index, `0` to `length - 1`, and its own keys are not seen.
  - `normalizeSteps` turns string and array shorthands into step objects.
  - The `is*CommandConfig` predicates are modelled as given.
- **Command resolver and step flattener** (`command.dfy`, lib/command.js).
  - `build` walks the command-name tokens down the configuration. It stops at `help`, at an array, or at a node with `steps`.
  - `compileSteps` / `normalizeStep` turn the configured steps into one flat list, numbered 1, 2, …. Every `include` is spliced in place.
- **Sequencer** (`command_run.dfy`, lib/command.js).
  - `getStepSubset` is `Array.prototype.slice` on the one-based `--begin` / `--end` / `--step` options.
  - `execute`, `doSteps`, `doNextStep` and `confirmStep` run the subset one step at a time against abstract collaborators.
- **Help lines** (`help.dfy`, lib/help.js, with the option table of lib/options.js in `options.dfy`). Covers the option flags and the column-aligned command and option lines.
- **Legacy pipeline** (`legacy.dfy`, lib/contrib.js).
  - The older `doSteps` / `doStep` / `doPrompt` chain. Its step filter compares step numbers as strings.
  - The `<cmd>` suffix rule of `createCommand`.

`values.dfy` models the JavaScript values the source works on:

- The value kinds: undefined, null, booleans, integers, strings, arrays and objects with ordered keys.
- The entries lodash's `_.forEach` / `_.each` / `_.any` visit in an object: its own keys, or the indices below its `length` when that is a valid array length.
- Truthiness and `String(v)` / `Number(v)`.
- `split` / `join`, `slice`, and the relational `<` on strings.
- The error kinds of lib/errors.js, plus TypeError, RangeError and the engine's stack overflow.

The imperative parts of the source are methods with loops or classes with
fields:

| Source | Model |
|---|---|
| `build`, `compileSteps` and its `addSteps` closure (`Commands.Compilation`) | methods |
| `normalize`, `normalizeSteps` | methods |
| `getCommandLines`, `getOptionLines` | methods |
| the command object during a run | `CommandRun.Invocation` |
| the legacy module state `promptValues` and its log | `Legacy.Runner` |

Each such method is proved equal to a pure specification function, and the
lemmas state the properties of those functions. The callback chains of both
sequencers are loops.

The run lemmas take the per-step behaviour as an abstract handler. They
therefore hold for any collaborators. The collaborators themselves are
function parameters:

- shell, prompt, open and request (`Responder`, `Oracle`);
- Handlebars and `_.template` (`render`).

## Model

| member | source | states |
|---|---|---|
| Values.RelativeIndex | lib/command.js:221 | a negative slice index counts from the end; every index is clamped to the list |
| Values.Slice | lib/command.js:221 | `slice(begin, end)` is the run between the two resolved indices, and empty when begin is not before end |
| Values.Split | lib/command.js:69-71 | splitting a name string on a space gives at least one part, and no part contains the separator |
| Values.JoinSplit | lib/command.js:69-71 | joining the split parts with the separator gives the string back, so `full` spells the typed command |
| Values.IntToStringNumber | lib/command.js:255 | the step number printed in the failure report reads back as that number, so `--begin <num>` resumes at it |
| Values.NumeralOrderIsNotNumeric | lib/contrib.js:95 | as strings, `'10' < '2'` holds and `'2' < '10'` does not |
| Values.SetKeys | lib/contrib.js:106 | setting `step.num` keeps the existing key order, and a new key goes last |
| Values.LookupSetSame | lib/command.js:169 | after `step.num = n`, reading `num` gives `n` |
| Values.LookupSetOther | lib/command.js:169 | setting `num` leaves every other key as it was |
| Config.NormalizeStepItemReads | lib/config.js:102-125 | a string `s` becomes `{exec: s}`; an array `a` has `exec: a[0]`, and `desc` / `id` appear exactly when `a[1]` / `a[2]` are truthy; anything else is kept |
| Config.NormalizeSteps | lib/config.js:94-129 | a non-array throws the TypeError of the missing `ConfigError`; an array keeps its length and order and maps each step |
| Config.NormalizeStepsIdempotent | lib/config.js:94-129 | normalising a normalised step list changes nothing |
| Config.Normalize | lib/config.js:39-92 | the forEach loop builds the object of the key-by-key specification, or throws its first error |
| Config.PrefixErrorSticks | lib/config.js:43-89 | once one entry throws, the whole normalize call ends with that error |
| Config.PrefixLookup | lib/config.js:43-89 | every non-marker key `_.forEach` visits holds the value computed for its own entry |
| Config.PrefixLookupAbsent | lib/config.js:40-91 | a key that `_.forEach` does not visit and that is not a marker is absent from the output |
| Config.PrefixCommandMarker | lib/config.js:68-72 | `isCommand_` is set exactly when a visited `steps` key was met below the top level |
| Config.PrefixMultiMarker | lib/config.js:76-84 | `isMultiCommand_` is set exactly when some visited, recursed child came back with a marker |
| Config.NormalizeTopLevel | lib/config.js:43-65 | at the top level, for each visited entry: `project` / `meta` pass through verbatim; a string becomes `{steps: [{exec}]}`; an array becomes `{steps: normalizeSteps(val)}` |
| Config.NormalizeNestedMarker | lib/config.js:43-73 | below the top level, `isCommand_` is truthy exactly when the object has a `steps` key and no valid array `length` |
| Config.NormalizeNestedSteps | lib/config.js:67-70 | below the top level, a successful visited `steps` is an array and comes back normalised |
| Config.NormalizeNestedNoSteps | lib/config.js:43-74 | below the top level, an object without `steps`, or walked by index, gets no `steps` and no `isCommand_` |
| Config.NormalizeNestedPassThrough | lib/config.js:87-88 | below the top level, visited strings, arrays and other non-objects pass through unchanged |
| Config.NormalizeNestedMulti | lib/config.js:43-84 | an object is a multi-command exactly when some visited plain-object child came back with `isCommand_` or `isMultiCommand_` |
| Config.NormalizeArrayLikeDrops | lib/config.js:43 | an object with a valid array `length` loses every key that is not an index, `steps` and `length` included |
| Config.NormalizeArrayLikeIndices | lib/config.js:43-88 | such an object keeps index `i` below `length` with the value computed for `obj[i]`, undefined when absent |
| Config.CountedCommandExample | lib/config.js:43-89 | `{cmd: {length: 1, steps: ["echo a"]}}` normalises `cmd` to `{0: undefined}`, with no `isCommand_` and no root `isMultiCommand_` |
| Config.IsSingleCommandConfig | lib/config.js:148-150 | a plain object with truthy `steps` |
| Config.IsMultiCommandConfig | lib/config.js:135-141 | a plain object of which some entry `_.any` visits is a single-command config |
| Config.IsCommandConfig | lib/config.js:131-133 | either of the two |
| Config.CountedGroupIsNotMulti | lib/config.js:135-141 | `{length: 1, a: {steps: ["echo a"]}}` is not a multi-command config: `_.any` visits only index 0 |
| Config.NormalizedCommandIsSingle | lib/config.js:148-150 | on a normalised nested object, the `isCommand_` marker agrees with isSingleCommandConfig |
| Config.TopLevelShorthandIsUnmarked | lib/config.js:135-141 | `{a: 'echo'}` is a multi-command config by the predicate, yet normalize leaves its root unmarked |
| Commands.TranslatedOptionsReads | lib/command.js:74-76 | every option is read into its long name from `options[name]`, or from `options[short]` when that is falsy |
| Commands.TranslatedOptionsKeys | lib/command.js:74-76 | the translated options hold the long names of OPTIONS and nothing else |
| Commands.HelpOption | lib/command.js:74-76 | help mode is on exactly when `--help` or `-h` was given |
| Commands.Walk | lib/command.js:79-118 | a successful walk ends at an object or an array |
| Commands.WalkThroughGroups | lib/command.js:79-118 | walking through groups (objects without truthy `steps`) only extends the matched names |
| Commands.WalkHelp | lib/command.js:82-85 | a `help` token ends the walk in help mode at the group reached so far, with the later tokens left over |
| Commands.WalkStopsAtCommand | lib/command.js:87-117 | the walk stops at the first child that is an array or has truthy `steps`; the remaining tokens are left over |
| Commands.WalkMissing | lib/command.js:92-94 | a missing or falsy child fails with the User error naming the full command |
| Commands.WalkNotObject | lib/command.js:97-99 | a present child that is not an object fails with the Config error |
| Commands.NormalizeStep | lib/command.js:181-195 | a string becomes `{exec}`, an array `{exec, desc, id}` from its first three items, anything else is returned as it is |
| Commands.StepItems | lib/command.js:134-157 | the items the loop reads from `steps`: an array's items, a string's characters, an object's indices below its numeric `length`; a zero `length` is the Config error, undefined and null throw |
| Commands.NormalizeStepReads | lib/command.js:181-195 | a string `s` gives `{exec: s}`; an array `a` gives `{exec: a[0], desc: a[1], id: a[2]}` in that key order; anything else is returned unchanged |
| Commands.NormalizeStepIdempotent | lib/command.js:181-195 | normalising a normalised step changes nothing |
| Commands.Build | lib/command.js:53-141 | the option loop, the name loop and the step checks return the command or error of the specification |
| Commands.BuildHelpMode | lib/command.js:82-123 | in help mode the command is returned as resolved so far, with no step read, checked or compiled |
| Commands.BuildStopsAtCommand | lib/command.js:87-138 | without help, the command is named by the matched names, `full` joins them with spaces, `args` are the leftover tokens, `data` starts empty, and the steps are the compiled configured steps |
| Commands.BuildEmptySteps | lib/command.js:134-136 | an empty step list fails with the Config error naming the command |
| Commands.BuildGroupTerminal | lib/command.js:115-134 | tokens that end at a group reach `steps.length` on undefined: a TypeError |
| Commands.BuildMissing | lib/command.js:92-94 | a missing command fails with the User error before anything else is looked at |
| Commands.CompileSteps | lib/command.js:148-179 | the flat, numbered step list of the specification, or the first error met |
| Commands.Compilation.AddSteps | lib/command.js:153-174 | the list grows by each configured item's steps, numbered on from the current count |
| Commands.Compilation.AddStep | lib/command.js:157-172 | one item pushes itself with the next number, or the steps its include builds to |
| Commands.Compilation.AddIncluded | lib/command.js:160-167 | an include is rendered, built from the root configuration, and its steps are fed through addSteps again |
| Commands.NumberedFromAppend | lib/command.js:169 | numbering a concatenation numbers the second part on from where the first stopped |
| Commands.NumberedFromNums | lib/command.js:169 | step `k` gets `num = base + k + 1`, and numbering leaves `include` alone |
| Commands.CompiledNumbers | lib/command.js:148-179 | compiled steps are numbered 1..N in order |
| Commands.BuildIncludeFree | lib/command.js:156-172 | no step of a built command has a truthy `include` |
| Commands.CompiledIncludeFree | lib/command.js:148-179 | no compiled step has a truthy `include` |
| Commands.ItemsIncludeFree | lib/command.js:156-172 | the steps the items contribute have no truthy `include` |
| Commands.ContributionIncludeFree | lib/command.js:157-172 | the steps one item contributes have no truthy `include` |
| Commands.IncludedIncludeFree | lib/command.js:160-167 | the steps an include contributes have no truthy `include` |
| Commands.ItemsPassThrough | lib/command.js:167 | the compiled steps of an included command, fed back to addSteps, come out unchanged |
| Commands.IncludeSplices | lib/command.js:160-167 | an include item is replaced by exactly the steps of the command its rendered name builds to from the root |
| Commands.BarExample | test/command_test.js:128-146 | `bar` builds to its single step, numbered 1 |
| Commands.IncludeExample | test/command_test.js:128-146 | `foo` compiles to `echo hello` then the included `echo world`, numbered 1 and 2 |
| Commands.StepItemsArrayLike | lib/command.js:134-156 | a step object whose `length` is not the number 0 is iterated as `steps[0]`, …, `steps[k - 1]`, where `k` is `length` converted to a number by `i < length` |
| Commands.ArrayLikeExample | lib/command.js:134-172 | `{length: "2", 0: "echo a", 1: "echo b"}` as a command's steps compiles to `echo a` and `echo b`, numbered 1 and 2 |
| Commands.ArrayLikeItems | lib/command.js:156-157 | a `length` of "2" is read as the two entries `steps[0]` and `steps[1]` |
| Commands.ArrayLikeCompiled | lib/command.js:156-171 | two string entries compile to two exec steps numbered 1 and 2 |
| CommandRun.GetStepSubset | lib/command.js:204-224 | `steps.slice(begin, end)` with begin and end taken from the one-based `--begin` / `--end`, both overridden by `--step` |
| CommandRun.SubsetIsRun | lib/command.js:204-224 | whatever the options, the subset is one contiguous run of the steps, in order |
| CommandRun.SubsetWithStepIsEmpty | lib/command.js:217-221 | `--step` sets begin and end to the same index, so the subset is always empty |
| CommandRun.SubsetDefault | lib/command.js:205-221 | with no range option set (falsy values count as unset), every step is selected |
| CommandRun.SubsetRange | lib/command.js:208-221 | on steps numbered 1..N, `--begin b --end e` selects exactly the steps with b ≤ num < e, in order |
| CommandRun.SubsetBeginZeroString | lib/command.js:208-211 | `--begin "0"` is truthy and becomes index -1, so only the last step is selected |
| CommandRun.PrepareOnlyDescribes | lib/command.js:285-291 | preparing a step writes only `desc`, never over a truthy one: first a string `prompt`, then a string `confirm` |
| CommandRun.DispatchPriority | lib/command.js:304-317 | the collaborator is exec, then confirm, then prompt, then open, then get; a confirm is asked as a `confirm` prompt with its message |
| CommandRun.Answer | lib/command.js:304-317 | a step with no action is answered with "No action defined for this step"; otherwise its collaborator answers |
| CommandRun.NoActionFails | lib/command.js:315-317 | a step without an action always fails, whatever the collaborators would say |
| CommandRun.StoreReads | lib/command.js:259-261 | a step with a truthy id stores its result under that id; every other key stays |
| CommandRun.RunFromHandled | lib/command.js:251-269 | one stepComplete: an error ends the run with a report naming the step's `num`; a success stores and goes on, or ends with `IT'S OVER!` after the last step |
| CommandRun.RunFromCalls | lib/command.js:248-270 | steps are dispatched in subset order, each on the data of that moment; every stored step passed |
| CommandRun.RunFromEnds | lib/command.js:264-268 | the run completes exactly when every step passes, and then has dispatched them all |
| CommandRun.RunFromStops | lib/command.js:251-257 | a failure is reported for the last dispatched step with its `num`; an exception comes from the next step |
| CommandRun.RunCompletes | lib/command.js:248-270 | the final success callback comes exactly when every step passed: each step dispatched once, in order, with every result stored under its id |
| CommandRun.RunFails | lib/command.js:254-257 | a failing step is the last one dispatched, every earlier one passed, its `num` is reported, and its result is not stored |
| CommandRun.RunCrashes | lib/command.js:277-300 | an exception (empty subset, or a title template over a non-string description) ends the run before the step that raised it |
| CommandRun.PassedStepStores | lib/command.js:259-261 | a passing step's result is visible to every later step under its id; other keys are unchanged |
| CommandRun.ConfirmStep | lib/command.js:337-345 | asks only when told to; the answer fails exactly when asked and declined, with "Process aborted" |
| CommandRun.Invocation.Execute | lib/command.js:226-241 | selects the subset first, then runs it; the outcome, data and dispatches are those of the run specification |
| CommandRun.Invocation.DoNextStep | lib/command.js:272-317 | advances the index (from -1 on the first call), prepares the step in place, compiles its title and dispatches it |
| CommandRun.Invocation.DoSteps | lib/command.js:248-270 | the callback chain as a loop: its outcome, data and dispatched steps are those of the run, and the subset holds the prepared steps |
| Help.ArrayJoinBlanksIsSpaces | lib/help.js:76 | `new Array(n).join(' ')` is `n - 1` spaces |
| Help.Longest | lib/help.js:54-55 | the running `Math.max` is the length of the longest label, 0 for none |
| Help.LongestNext | lib/help.js:90 | one label further, the maximum grows to that label's length if it is longer |
| Help.LineColumns | lib/help.js:76-77 | a line is the label, spaces up to column `longest + 5`, then the description |
| Help.LayoutColumns | lib/help.js:75-78 | in every line the descriptions start at column `longest + 5` |
| Help.CommandRowsNext | lib/help.js:62-73 | one entry further, the rows grow by that entry's row exactly when it is listed |
| Help.CollectCommands | lib/help.js:54-73 | the `_.each` loop collects the rows of the listed entries in order; `longestCmd` is NaN exactly when a listed entry keeps a numeric name |
| Help.PadCommands | lib/help.js:75-78 | the second loop pads each row against the longest name |
| Help.GetCommandLines | lib/help.js:50-81 | the lines laid out from the rows of the entries `_.each` visits, or the RangeError of `new Array(NaN)` when a listed entry is named by an index |
| Help.CommandLinesKeyed | lib/help.js:62-80 | a configuration without a valid array `length` lists its own keys and cannot throw |
| Help.EmptyCountedRootListsNothing | lib/help.js:62-80 | `{length: 0, a: {steps: [...]}}` lists no command |
| Help.CountedRootThrows | lib/help.js:55-76 | `{length: 1, 0: {steps: [...]}}` throws the RangeError, because name `0` has no `length` |
| Help.CommandRowsOrder | lib/help.js:62-73 | the list keeps the order of the entries it is given and shows exactly those that are not `project`, are command configs and are not private |
| Help.MultiCommandSuffix | lib/help.js:68-71 | a listed name gets ` [command]` exactly when its config is a multi-command |
| Help.GetOptionFlags | lib/help.js:105-119 | `-<short>, ` when the option has a short letter, then `--<name>`, then ` [<arg>]` when it takes an argument |
| Help.ParseShortFlags | lib/help.js:108-110 | the `-<short>, ` prefix reads back as the short letter |
| Help.ParseLongArg | lib/help.js:112-116 | `--<name> [<arg>]` reads back as the name and the argument |
| Help.ParseLongPlain | lib/help.js:112 | `--<name>` reads back as the name with no argument |
| Help.OptionFlagsParse | lib/help.js:105-119 | the flags column determines its option: short letter, name and argument read back |
| Help.StepFlags | lib/options.js:8 | the `step` option's flags are `-s, --step [step]` |
| Help.OptionRows | lib/help.js:88-95 | one row per option, in table order |
| Help.OptionRowsNext | lib/help.js:88-95 | one option further, the rows grow by that option's flags and description |
| Help.GetOptionLines | lib/help.js:83-103 | the two loops return the laid-out lines of the option rows |
| Help.OptionLinesFollowTable | lib/help.js:88-102 | one line per OPTIONS entry, in order, each starting with its flags and with its description at column 23 |
| Help.OptionFlagsWidest | lib/options.js:4-12 | the widest flags, `-b, --begin [step]`, are 18 characters |
| Legacy.CommandName | lib/contrib.js:58-61 | the key, followed by ` <cmd>` when the config has no truthy `steps` |
| Legacy.CommandNameSuffix | lib/contrib.js:58-61 | the registered name gets ` <cmd>` exactly when the config has no truthy `steps` |
| Legacy.SelectNumbersByPosition | lib/contrib.js:89-107 | selected steps are numbered by their configuration position, not their place in the selection; order is kept and every kept step is selected |
| Legacy.SelectPrefixNext | lib/contrib.js:89-108 | the forEach, one step further, pushes the step's record exactly when it is kept |
| Legacy.RecordNum | lib/contrib.js:106 | a record's `num` is its one-based position as a string |
| Legacy.RejectedStays | lib/contrib.js:89-108 | once setting `num` throws, the selection is that error |
| Legacy.RejectedStaysAfter | lib/contrib.js:89-108 | every longer prefix of the forEach keeps the error |
| Legacy.StepSelectsOne | lib/contrib.js:93 | `--step` given a step's number keeps that step and no other |
| Legacy.StepWithoutValueKeepsNothing | lib/contrib.js:93 | `--step` given without a value is `true`, no step's number, so nothing is kept |
| Legacy.BeginTwoDropsTen | lib/contrib.js:95 | `--begin 2` keeps step 2 but drops step 10, because the comparison is on strings |
| Legacy.SingleDigitBegin | lib/contrib.js:95 | among the first nine steps, `--begin b` keeps exactly the steps numbered b and up |
| Legacy.ExecStep | lib/contrib.js:142-169 | an exec step logs its title, `$ cmd` and a blank line; it runs `cmd` unless dry-run; a declined walk confirmation logs "Step aborted" and stops |
| Legacy.TextPromptStores | lib/contrib.js:178-184 | a text prompt answered without error stores `result.text` under its id, leaves other values, and goes on |
| Legacy.SilentSteps | lib/contrib.js:159-186 | a step with no exec and no string or text prompt logs its title and never calls back |
| Legacy.StepEffect | lib/contrib.js:137-173 | what one step does: its log lines, the command it runs, the prompt values it leaves and whether it goes on, fails or stays silent |
| Legacy.PromptEffect | lib/contrib.js:175-186 | a string prompt asks a confirmation and fails when it errs, else goes on; a text prompt logs an error and stops, or stores `result.text` under its id and goes on; any other prompt never calls back |
| Legacy.StepEffectFrame | lib/contrib.js:137-173 | only an exec step outside dry-run runs a command; only a text prompt changes the prompt values; only a string prompt fails |
| Legacy.RunFromHandled | lib/contrib.js:115-132 | one hand-over: an error logs it and `FAILED ON STEP #num`; success goes to the next step or ends with `IT'S OVER!` |
| Legacy.RunFromEnds | lib/contrib.js:114-134 | steps run strictly in order and the run ends at the first that does not call back cleanly |
| Legacy.RunFromJournal | lib/contrib.js:114-134 | the log is what the steps up to the last one did, then the closing lines |
| Legacy.DryRunBefore | lib/contrib.js:165-167 | under dry-run, no step runs a command |
| Legacy.DryRunExecutesNothing | lib/contrib.js:165-167 | a dry run runs no command at all |
| Legacy.EmptySelection | lib/contrib.js:110-112 | an empty selection logs "There are no steps in the selected range" and runs nothing |
| Legacy.RunEnds | lib/contrib.js:114-134 | the run is over, with `IT'S OVER!` last, exactly when every step called back cleanly; a failure logs `FAILED ON STEP #num` for that step |
| Legacy.Runner.DoPrompt | lib/contrib.js:175-186 | updates the prompt values and log as the prompt specification says, and hands over the same way |
| Legacy.Runner.DoStep | lib/contrib.js:137-173 | updates the log, the executed commands and the prompt values as the step specification says |
| Legacy.Runner.SelectSteps | lib/contrib.js:86-108 | the forEach loop returns the specification's selection or its error |
| Legacy.Runner.DoSteps | lib/contrib.js:85-135 | selection then the nextStep chain as a loop: the final state and outcome are those of the run specification |

## Left out

- Terminal output is a value, not I/O. In the legacy model the log of lib/log.js becomes a journal of entries, without the `.underline` styling. In lib/command.js, only the failure line is modelled, as part of the outcome. The `EXECUTING` / `DRY RUN` header, the command description and the step titles are not recorded.
- The collaborators are function parameters and are assumed to call back exactly once: Exec, prompt, open and request (lib/command.js:304-317), and shelljs and prompts in the legacy model. Their own behaviour is not modelled.
- The dispatch calls of lib/command.js do not match the modules as written, and the model follows the tests' stubs (test/command_test.js:43) instead:
  - `Exec.do` (lib/command.js:305) is undefined: lib/exec.js:14 exports the function `exec(contrib, step, callback)` itself, so as written every exec step throws a TypeError.
  - `open(step, callback)` (lib/command.js:312) fills the `(contrib, step, callback)` parameters of lib/open.js:20 with the wrong arguments.
  - `request.get(step, callback)` (lib/command.js:314) passes a step where lib/request.js:73 expects a URL string.
  - The model lets the abstract responder answer every dispatched step, exec steps included.
- Handlebars (lib/command.js:162, 294-300) and lodash `_.template` (lib/contrib.js:161) are uninterpreted, total render functions. Of the template errors, only one is modelled: a truthy non-string description makes the title template throw.
- CommandRun.RunCrashes: Handlebars parse errors (such as an unclosed `{{`) and missing-helper errors in a string description (lib/command.js:299) are not modelled, so those crashes are absent from the run's outcomes. The same holds for such errors in an include template (lib/command.js:162).
- Include cycles are not detected by the source. A `fuel` bound stands for the depth at which the engine's stack overflows, and running out of it is the `Overflow` error. No "circular include" error exists.
- The merge into `this.data` at lib/command.js:113 targets the module object, not the command. The model keeps `command.data` empty after build, as the source does, and does not model the module object.
- The `_.assign(_.cloneDeep(commandConfig), command)` merge at lib/command.js:127 copies onto the command every key of the command's configuration node that the command literal of lib/command.js:54-61 lacks. The model does not copy them. Two of those keys are read during a run:
  - A configuration key `currentStep` with any value other than undefined skips the reset of `currentStepIndex` to -1 at lib/command.js:277-279.
  - Without a `currentStepIndex` key, `++command.currentStepIndex` at lib/command.js:281 is then NaN, the step read is undefined, and `step.prompt` at lib/command.js:285 throws a TypeError.
  - With a numeric `currentStepIndex` key as well, the run starts after that index instead of at the first selected step.
  - CommandRun.Invocation.Execute requires `currentStep` to be unset, so the model captures neither case. It runs every selected step from the first.
  - `desc`, the one other copied key read later, only feeds the log line, which is not modelled.
- Commands.BuildHelpMode: the help-mode command gets empty `steps` and `args`. In the source it has no `args` property. It also has no `steps` property, except when the walk stopped at an array-valued command before `--help` / `-h` was seen: then lib/command.js:106 has already set `command.steps` to that raw, uncompiled array, which the help return at lib/command.js:121-123 keeps. The model does not carry that array.
- `step.command = command` at lib/command.js:170 is not stored: it is a back-reference, and no modelled code reads it.
- Step objects are values. When the same configured object is included twice, the source renumbers that one shared object. The model numbers two separate copies and does not capture the aliasing. Likewise, the legacy `step.num` write is not reflected back into the caller's configuration.
- Object keys keep insertion order. Integer-like keys, which JavaScript enumerates first, are treated as ordinary keys.
- Config.Normalize / Config.IsMultiCommandConfig / Help.GetCommandLines: an object is walked by index when its `length` is an integer from 0 to 2^53 - 1, the array-like test of lodash 3 and 4. lodash 2 walks by index whenever `length` is any number, so a negative `length` visits nothing there, where the model visits the object's own keys. The lodash version the package installs is not part of this model.
- An index handed to a callback is a number, not a string. The model names it by its decimal numeral. No numeral equals `project`, `meta` or `steps`, so the comparisons at lib/config.js:46 and 68 and lib/help.js:63 come out the same. The `.length` of a numeric name is the one place the difference shows, and the model raises that RangeError.
- `Number(v)` covers the empty string, an optional sign and decimal digits. Whitespace, fractions, exponents, hex and Infinity are read as NaN, and numbers are integers. A step object's `length` such as `"1.5"` therefore yields no steps in the model, where the loop of lib/command.js:156 runs indices 0 and 1.
- Config.NormalizeSteps: the thrown error is the TypeError of calling the missing `config.ConfigError`, whose exact engine wording is not reproduced.
- Legacy.Runner.SelectSteps: the TypeError for setting `num` on a number, boolean, undefined or null is one fixed message, not the engine's per-type wording. Likewise, steps that are not an array always give "steps.forEach is not a function". When `config[args].steps` is undefined (lib/contrib.js:75), the engine's wording is instead "Cannot read property 'forEach' of undefined".
- Commands.Walk / WalkMissing / BuildMissing: configuration objects are modelled as records of their own keys. In the source, `commandConfig[currentName]` (lib/command.js:92-102) also reads properties inherited from `Object.prototype`. A token such as `constructor`, `toString` or `valueOf` therefore finds a truthy function there, and the source throws the Config error "is not defined as a command" where the model gives the User error "does not exist". The token `__proto__` walks into `Object.prototype` itself.
- Strings are sequences of Unicode scalar values. JavaScript's `.length`, the padding arithmetic of lib/help.js:54-55 and 76 and the relational `<` of lib/contrib.js:95-97 work on UTF-16 code units. A name or step value containing a character outside the Basic Multilingual Plane is one character in the model but two code units in the source, so padding and string comparison can differ for such text.
- Help.GetOptionLines: the source reads the module constant OPTIONS, while the method takes the table as a parameter. OptionLinesFollowTable states the result for OPTIONS itself.
- `help.show` / `help.showCommand`, with the template file read and rendering at lib/help.js:27-48, are output only.
- `config.init`, `confirmCreate`, `get` and `example` (lib/config.js:20-37, 152-187) do file and network I/O.
- Commander setup and the `createCommand` action callback (lib/contrib.js:25-56, 63-80) are argument-parsing glue. Only the name-suffix rule is modelled.
- `doNextStep`'s commented-out dry-run and interactive code (lib/command.js:319-334) is not live code.
