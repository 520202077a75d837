# gather and caparg: plugin collection and sub-command dispatch

This project models the core of `gather`, a Python plugin registry, and of
`caparg`, the older package it grew from. Modules register functions or
classes with a `Collector` by decorating them. `collect()` scans every
plugin module and builds a registry of what was registered with that
collector. A small command layer turns a collection into argparse
sub-commands and dispatches to the chosen one. Of its two entry points,
`run_maybe_dry` wraps the process runner so that a command's `run` is a
dry run unless `--no-dry-run` is given, while `run` hands the runner to
the command unchanged.

The model has six modules:

- `Results` (results.dfy): the `Option` and `Result` types used for error
  paths.
- `Venusian` (venusian.dfy): the error classes a scan can meet (ImportError,
  its subclasses, and classes outside that hierarchy), and `Flatten`, which
  joins the per-module scans into one sequence.
- `Dicts` (dicts.dfy): an insertion-ordered dictionary. caparg's `run`
  prints command names in dict order.
- `GatherApi` (gather_api.dfy): `Collector.register` and `collect`, the
  registry as a map from names to sets of values, `unique`, and `Wrapper`
  with `glue`.
  - `collect` is a method: a `Scanner` object whose registry the callbacks
    update, and a loop over the modules.
  - It is proved equal to `Collected`, a fold over the scan events.
  - Lemmas relate `Collected` to `Expected`, an order-free reference
    definition.
- `CapargApi` (caparg_api.dfy): the same collector with a last-write-wins
  dict registry, and the `run` dispatch rule with its listing loop.
- `GatherCommands` (gather_commands.dfy):
  - `add_argument` and the command registration decorator;
  - `set_parser` as a method building the sub-command table;
  - the dry-run gate over a `Launcher` that records every process run;
  - the argv rewrite of `run_maybe_dry`;
  - both runners.

How the inputs are modelled:

- A scan of a module is a sequence of events. Each event is either a
  registration callback called with the name the object was found under, or
  an import failure passed to `onerror`.
- A collector's identity, which the callback compares with `is`, is its
  `id` field.
- argparse is not modelled. A parser is the table of sub-commands it was
  given. Parsing is a function parameter from the argument list to a
  namespace.
- The environment and the runner are parameters.

Where the design description and the code differ, the model follows the
code:

- The code has no pluggable collision strategy. gather always accumulates
  every registration of a name into a set, and caparg always overwrites
  with the last one.
- During a scan, the code ignores ImportError and all of its subclasses,
  not only "module not found".

## Model

| member | source | states |
|---|---|---|
| GatherApi.Register | src/gather/api.py:70-92 | a registration records its collector, the optional name override and the transform |
| GatherApi.DefaultTransformCollectsObject | src/gather/api.py:70-111 | with the default identity transform, an object decorated once is collected as itself, the only value under its effective name |
| GatherApi.Attach | src/gather/api.py:113-118 | the decorator hands back the decorated object unchanged and appends its registration after any earlier ones |
| GatherApi.Found | src/gather/api.py:94-102 | finding a decorated object fires each of its registrations, in order, with the name found and the object |
| GatherApi.Scanner.constructor | src/gather/api.py:137-138 | a scan starts with this collector as tag and an empty registry |
| GatherApi.Scanner.Callback | src/gather/api.py:103-111 | a callback of another collector leaves the registry alone; otherwise transform(obj) is added to the set under the override name, or the found name when there is none |
| GatherApi.Scanner.Scan | src/gather/api.py:127-142 | scanning one module applies its events in order, skips ImportError-class failures and stops at any other error |
| GatherApi.Collector.Collect | src/gather/api.py:120-143 | collect scans every module in turn into one fresh registry and returns exactly the fold Collected over all the events |
| GatherApi.CollectedIsExpected | src/gather/api.py:137-143 | a successful collect equals the order-free reference registry: each name used by this collector's registrations maps to the set of all values registered under it, and no other key exists |
| GatherApi.CollectedMembership | src/gather/api.py:103-111 | v is in the collected set under k if and only if some registration of this collector stores v under k; no collected set is empty |
| GatherApi.ScanFailure | src/gather/api.py:127-135 | a scan fails if and only if it meets an error outside the ImportError class, and it then fails with the first such error |
| GatherApi.CollectFailure | src/gather/api.py:127-143 | collect raises exactly when some module's scan meets a non-ImportError error, whatever the collector, and raises the first one |
| GatherApi.OtherCollectorIgnored | src/gather/api.py:103-105 | a registration owned by another collector changes nothing in this collector's result, wherever it occurs |
| GatherApi.ImportErrorIgnored | src/gather/api.py:127-135 | an ImportError-class failure anywhere in the scan leaves the result as if it had not occurred |
| GatherApi.CallbacksCommute | src/gather/api.py:111 | swapping two adjacent registrations gives the same result, because values accumulate in sets |
| GatherApi.StackedRegistrations | src/gather/api.py:94-118 | one object decorated for two collectors is collected by each one under its own name with its own transform, and by neither under the other's |
| GatherApi.Unique | src/gather/api.py:146-163 | unique succeeds if and only if every set has exactly one element; it then keeps the same keys and maps each to that element; otherwise ValueError names a key whose set size is not 1 |
| GatherApi.GlueWraps | src/gather/api.py:176-194 | glue(extra)(o) is a wrapper whose original is o and whose extra is extra |
| CapargApi.Register | src/caparg/api.py:48-62 | a registration records its collector and the optional name override |
| CapargApi.Attach | src/caparg/api.py:72-75 | the decorator hands back the function unchanged and appends its registration |
| CapargApi.Found | src/caparg/api.py:63-71 | finding a decorated function fires each of its registrations, in order, with the name found and the function |
| CapargApi.Scanner.constructor | src/caparg/api.py:82-86 | a scan starts with this collector as tag and an empty dict |
| CapargApi.Scanner.Callback | src/caparg/api.py:63-71 | a callback of another collector leaves the dict alone; otherwise the function is assigned to the override name, or the found name when there is none |
| CapargApi.Scanner.Scan | src/caparg/api.py:83-88 | scanning one module applies its events in order, skips ImportError-class failures and stops at any other error |
| CapargApi.Collector.Collect | src/caparg/api.py:77-89 | collect scans every module in turn into one fresh dict and returns exactly the fold Collected over all the events |
| CapargApi.ScanLastWins | src/caparg/api.py:71 | a successful scan keeps the dict well formed; each name holds the object of the last registration of this collector for it, or its earlier value when there is none |
| CapargApi.CollectedLastWins | src/caparg/api.py:77-89 | a successful collect has a key exactly for each name some registration of this collector uses, holding the object of the last such registration |
| CapargApi.OtherCollectorIgnored | src/caparg/api.py:64-66 | a registration owned by another collector changes nothing in this collector's result |
| CapargApi.Arguments | src/caparg/api.py:101-102 | an empty argument list becomes ['help']; any other list is kept |
| CapargApi.Run | src/caparg/api.py:91-112 | version prints "Version " and the version; help, --help or an unknown name prints the header, one tab-indented line per command name in dict order, and the footer; otherwise the named command is called with the whole argument list |
| CapargApi.EmptyMeansHelp | src/caparg/api.py:101-102 | run with no arguments decides as run with ['help'], and lists the commands |
| CapargApi.VersionShadowsCommands | src/caparg/api.py:103-105 | version and --version print the version even when a command has that name |
| CapargApi.InvokeOnlyRegistered | src/caparg/api.py:106-112 | a command is called if and only if the first argument is a registered name other than version, --version, help and --help; the called command is the one that name selects |
| GatherCommands.AddArgument | src/gather/commands.py:25-32 | the spec keeps the positional arguments in order and holds exactly the keyword pairs of the call |
| GatherCommands.KeywordDict | src/gather/commands.py:88 | the dict rebuilt from a pair set maps each keyword of a pair to that pair's value and holds no other entry |
| GatherCommands.KeywordRoundTrip | src/gather/commands.py:32 | rebuilding the dict from add_argument's pairs gives back the keyword arguments it was called with |
| GatherCommands.TransformWraps | src/gather/commands.py:35-37 | the command transform turns a function into a wrapper of it with the specs, in order, as extra |
| GatherCommands.CommandRegister | src/gather/commands.py:53-55 | the command decorator registers with the given collector and name, through the transform of its specs |
| GatherCommands.SingleCommandCollected | src/gather/commands.py:40-57 | a function registered once as a command is collected as exactly one wrapper of it with its specs, under its effective name |
| GatherCommands.CallOfAddArgument | src/gather/commands.py:87-88 | the argument set_parser adds for a spec is the add_argument call that made the spec |
| GatherCommands.Calls | src/gather/commands.py:87-88 | one added argument per spec, in spec order |
| GatherCommands.SetParser | src/gather/commands.py:60-89 | set_parser succeeds if and only if every name has one command; it uses the given parser or a default one, and makes one sub-command per collected name, named after it, with that name and the command's function as defaults and its specs as arguments; otherwise it fails as unique does |
| GatherCommands.Launcher.constructor | src/gather/commands.py:124 | a stand-in process runner starts with an empty trace |
| GatherCommands.Launcher.Call | src/gather/commands.py:102 | calling the runner appends exactly that invocation to its trace |
| GatherCommands.SafeRunKwargs | src/gather/commands.py:98-99 | the runner gets text, check and capture_output as True unless the caller passes that keyword, and every keyword the caller passes as given |
| GatherCommands.Noted | src/gather/commands.py:103-106 | a CalledProcessError is re-raised as the same error with two notes added, "STDERR: " and "STDOUT: " with the captured streams; a completed run is returned as it is |
| GatherCommands.Invoke | src/gather/commands.py:97-111 | the wrapped runner calls the original runner once with the merged keywords and returns its noted result; the dry runner calls nothing and returns None |
| GatherCommands.DryByDefault | src/gather/commands.py:93 | a namespace without no_dry_run, or with a falsy value for it, keeps the gate closed |
| GatherCommands.Args.constructor | src/gather/commands.py:151 | the namespace starts as parsed, without runner attributes |
| GatherCommands.MakeSafeRun | src/gather/commands.py:92-116 | safe_run always wraps the original runner; run is safe_run when no_dry_run is truthy and the dry runner otherwise, an absent no_dry_run counting as false; orig_run is kept |
| GatherCommands.Tail | src/gather/commands.py:151 | argv[1:] drops the first element, and is empty for an empty list |
| GatherCommands.Basename | src/gather/commands.py:147 | the result is the longest end of the string that holds no slash |
| GatherCommands.RemovePrefix | src/gather/commands.py:149 | a leading prefix is removed when present, and the string is kept otherwise |
| GatherCommands.RewriteArgv | src/gather/commands.py:144-149 | the in-place insert and index assignments on argv produce exactly the rewritten list, or the IndexError of an empty list |
| GatherCommands.RewrittenArgvShape | src/gather/commands.py:144-149 | in sub-command mode, prefix (or base-command when it is absent or empty) is inserted first; the old first argument loses everything up to its last slash and, only when a prefix is given, a leading prefix-; the rest is kept and an empty list raises IndexError; outside sub-command mode the list is unchanged |
| GatherCommands.RunMaybeDry | src/gather/commands.py:119-161 | run_maybe_dry parses the tail of the rewritten list; with no command chosen it prints help and exits with 1; otherwise it calls the chosen command once, with a fresh namespace carrying the environment, orig_run set to the given runner, and the gated run and safe_run |
| GatherCommands.Run | src/gather/commands.py:164-184 | run parses argv[1:] and calls the chosen command with that namespace, the environment and the runner unchanged; a namespace without a command raises AttributeError |
| GatherCommands.RunDispatchesRegistered | src/gather/commands.py:178-184 | with a parser set_parser built from a collection, the command run calls is the one function collected under the chosen sub-command's name |

## Left out

- Discovering entry points and importing plugin modules (`_get_modules`) is foreign I/O. `collect` is given the scan of each module as a sequence of events. An exception raised while importing an entry-point module is not passed to `onerror` in the code; it propagates, and the model does not represent it.
- venusian's attach and scan machinery, including the `depth` frame lookup, is a foreign library. Only its effect is modelled: the attached callbacks are called with the scanner, the name found and the object.
- `_ignore_deprecation` changes global warning filters and has no effect on the result.
- argparse is not modelled: how options are parsed, help text, and the exit on `--help` or on bad options. Parsing is an abstract function. `FromSubParser` states the one property used of it: the chosen sub-command's defaults are applied.
- Real process execution and the log lines written by `safe_run` and the dry runner are not modelled. The runner is a `Launcher` that records invocations and answers with a given function.
- Exceptions raised by a transform, a command or the runner, other than `CalledProcessError`, are not modelled.
- GatherApi.Collector.Collect: dict insertion order of gather's registry is not modelled, because the registry is a Dafny map. Order only affects the order of sub-commands in help output.
- GatherApi.Unique: the code raises for the first bad key in dict order; the model names some key whose set is not a singleton.
- GatherCommands.SetParser: the code calls `add_subparsers` on the given parser before `unique` can fail, mutating that parser; the model returns a new parser value and leaves the failed case without one. Sub-command order is not kept.
- GatherCommands.MakeSafeRun: requires `orig_run` to be set. Reading it unset raises AttributeError, but its only caller sets it first.
- GatherCommands.AddArgument: keyword values are hashable scalars (strings, booleans, integers, `None`). Callables such as `type=int` and lists such as `choices=[...]` are not represented, and neither is the `TypeError` that `frozenset(kwargs.items())` raises for a value that cannot be hashed.
- GatherCommands.Args: the source writes `orig_run`, `env`, `run` and `safe_run` onto the parsed namespace itself, so an option whose destination has one of those names is overwritten; the model keeps the parsed values apart from these four fields and does not show that overwrite.
- GatherCommands.Argument: `_Argument` is only built by `add_argument`, so its keyword pairs always have distinct keywords. The `Kwargs` type states this.
- GatherCommands.Noted: a stream captured as bytes, with `text=False`, is rendered in Python as a bytes literal. The model has only text streams.
- The text of Python's error messages (`ValueError`, `IndexError`, `AttributeError`) is not modelled, only which error is raised.
- `src/gather/entry.py`, the example plugins, the package metadata in `src/gather/__init__.py` and the build configuration are not part of this model.
