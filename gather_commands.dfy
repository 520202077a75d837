/** The command layer of `gather` (src/gather/commands.py): argument specs
    attached to registered commands, the sub-command table `set_parser`
    builds from a collection, the dry-run gate put on the process runner,
    and the two entry points that parse arguments and dispatch.

    argparse is not modelled: a parser is the table of sub-commands it was
    given, and parsing is a function from the argument list to a namespace.
    The process runner is a `Launcher` that records every invocation. */
module GatherCommands {
  import opened Results
  import opened Venusian
  import opened GatherApi

  // ---------------------------------------------------------------------
  // Argument specs

  /** The hashable scalar values an argument spec or a namespace holds in
      this model: strings, booleans, integers and `None`. */
  datatype Value = Str(s: string) | Bool(b: bool) | Int(i: int) | NoneValue

  /** Python truthiness of a value. */
  predicate Truthy(v: Value)
  {
    match v
    case Str(s) => s != ""
    case Bool(b) => b
    case Int(i) => i != 0
    case NoneValue => false
  }

  /** No keyword occurs in two pairs, as in the items of a dict. */
  ghost predicate Functional(pairs: set<(string, Value)>)
  {
    forall p, q | p in pairs && q in pairs :: p.0 == q.0 ==> p.1 == q.1
  }

  /** `frozenset(kwargs.items())`: keyword arguments as a set of pairs. */
  type Kwargs = pairs: set<(string, Value)> | Functional(pairs) witness {}

  /** `_Argument`: the positional arguments of an `add_argument` call, in
      order, and its keyword arguments. */
  datatype Argument = Argument(args: seq<Value>, kwargs: Kwargs)

  /** `add_argument(*args, **kwargs)`. */
  function AddArgument(args: seq<Value>, kwargs: map<string, Value>): (a: Argument)
    ensures a.args == args
    ensures forall p :: p in a.kwargs <==> p.0 in kwargs && kwargs[p.0] == p.1
  {
    Argument(args, set k | k in kwargs :: (k, kwargs[k]))
  }

  /** `dict(pairs)` for pairs with distinct keywords. */
  function KeywordDict(pairs: Kwargs): (d: map<string, Value>)
    ensures forall p :: p in pairs ==> p.0 in d && d[p.0] == p.1
    ensures forall k :: k in d ==> (k, d[k]) in pairs
  {
    map p | p in pairs :: p.0 := p.1
  }

  /** The dict `set_parser` rebuilds from a spec is the one given to
      `add_argument`. */
  lemma KeywordRoundTrip(args: seq<Value>, kwargs: map<string, Value>)
    ensures KeywordDict(AddArgument(args, kwargs).kwargs) == kwargs
  {
  }

  // ---------------------------------------------------------------------
  // Registering commands

  /** What a collected command is: the function glued to its specs. */
  type Command<F> = Wrapper<F, seq<Argument>>

  /** `_transform(*args)`. */
  function Transform<F>(specs: seq<Argument>): F -> Command<F>
  {
    Glue(specs)
  }

  /** A command registered through `Transform(specs)` is collected as the
      function itself with the specs, in declaration order, as extra. */
  lemma TransformWraps<F>(specs: seq<Argument>, f: F)
    ensures Transform(specs)(f) == Wrapper(f, specs)
  {
  }

  /** `make_command_register(collector)(*specs, name=name)`: the
      registration the returned decorator attaches. */
  function CommandRegister<F>(c: Collector, specs: seq<Argument>, name: Option<Name>): (p: Pending<F, Command<F>>)
    ensures p.owner == c && p.name == name
    ensures p.transform == Transform(specs)
  {
    Register(c, name, Transform(specs))
  }

  /** A function decorated once with a command registration and found under
      `innerName` in the only module is collected as the one command under
      its effective name. */
  lemma SingleCommandCollected<F>(c: Collector, specs: seq<Argument>, name: Option<Name>, innerName: Name, f: F)
    ensures var p := CommandRegister(c, specs, name);
            var modules := [Found(innerName, Attach(p, Decorated(f, [])))];
            Collected(c, modules) == Success(map[EffectiveName(p, innerName) := {Wrapper(f, specs)}])
  {
    var p := CommandRegister(c, specs, name);
    var events := Found(innerName, Attach(p, Decorated(f, [])));
    var modules := [events];
    assert events == [Fire(p, innerName, f)];
    assert modules[1..] == [];
    assert Flatten(modules) == events;
    assert events[1..] == [];
    var empty: Registry<Command<F>> := map[];
    var k := EffectiveName(p, innerName);
    TransformWraps(specs, f);
    assert p.transform(f) == Wrapper(f, specs);
    assert Lookup(empty, k) + {p.transform(f)} == {Wrapper(f, specs)};
    assert AfterCallback(c, empty, p, innerName, f) == map[k := {Wrapper(f, specs)}];
    assert ScanFrom(c, empty, events) == ScanFrom(c, AfterCallback(c, empty, p, innerName, f), events[1..]);
  }

  // ---------------------------------------------------------------------
  // set_parser

  /** `subparser.add_argument(*args, **kwargs)`, as recorded by the
      sub-command. */
  datatype ArgumentCall = ArgumentCall(args: seq<Value>, kwargs: map<string, Value>)

  /** The call `set_parser` makes for one spec. */
  function Call(spec: Argument): ArgumentCall
  {
    ArgumentCall(spec.args, KeywordDict(spec.kwargs))
  }

  /** The call made for a spec is the `add_argument` call that built it. */
  lemma CallOfAddArgument(args: seq<Value>, kwargs: map<string, Value>)
    ensures Call(AddArgument(args, kwargs)) == ArgumentCall(args, kwargs)
  {
  }

  /** The calls made for a command's specs, in order. */
  function Calls(specs: seq<Argument>): (calls: seq<ArgumentCall>)
    ensures |calls| == |specs|
    ensures forall i :: 0 <= i < |specs| ==> calls[i] == Call(specs[i])
  {
    seq(|specs|, i requires 0 <= i < |specs| => Call(specs[i]))
  }

  /** A sub-command: its name, the defaults `__gather_name__` and
      `__gather_command__`, and the arguments added to it. */
  datatype SubParser<F> = SubParser(name: Name, gatherName: Name, gatherCommand: F, calls: seq<ArgumentCall>)

  /** The top-level parser: `description` stands for whatever the caller
      configured, `None` for a default `ArgumentParser()`. */
  datatype ParserBase = ParserBase(description: Option<string>)

  /** A parser with the sub-commands `set_parser` added. */
  datatype Parser<F> = Parser(base: ParserBase, subcommands: map<Name, SubParser<F>>)

  /** The only element of a one-element set. */
  ghost function Sole<V>(s: set<V>): V
    requires |s| == 1
  {
    var v :| v in s; v
  }

  /** The sub-commands are exactly the collected names, each configured
      from the only command collected under it. */
  ghost predicate BuiltFrom<F>(collected: map<Name, set<Command<F>>>, subcommands: map<Name, SubParser<F>>)
  {
    && subcommands.Keys == collected.Keys
    && forall name :: name in subcommands ==>
         && |collected[name]| == 1
         && subcommands[name].name == name
         && subcommands[name].gatherName == name
         && subcommands[name].gatherCommand == Sole(collected[name]).original
         && subcommands[name].calls == Calls(Sole(collected[name]).extra)
  }

  /** `set_parser(collected=collected, parser=parser)`. It fails as
      `unique` does when some name has other than one command. */
  method SetParser<F(==)>(collected: map<Name, set<Command<F>>>, parser: Option<ParserBase>)
    returns (r: Result<Parser<F>, UniqueError<Name>>)
    ensures r.Success? <==> AllSingletons(collected)
    ensures r.Success? ==> r.value.base == (if parser.None? then ParserBase(None) else parser.value)
    ensures r.Success? ==> BuiltFrom(collected, r.value.subcommands)
    ensures r.Failure? ==> r.error.key in collected && r.error.size == |collected[r.error.key]| && r.error.size != 1
  {
    var base := if parser.None? then ParserBase(None) else parser.value;
    var commands := Unique(collected);
    if commands.Failure? {
      return Failure(commands.error);
    }
    var unique := commands.value;
    var subcommands: map<Name, SubParser<F>> := map[];
    var todo := unique.Keys;
    while todo != {}
      invariant todo <= unique.Keys
      invariant subcommands.Keys == unique.Keys - todo
      invariant forall name :: name in subcommands ==>
        subcommands[name] == SubParser(name, name, unique[name].original, Calls(unique[name].extra))
      decreases todo
    {
      var name :| name in todo;
      var details := unique[name];
      var calls := [];
      var i := 0;
      while i < |details.extra|
        invariant 0 <= i <= |details.extra|
        invariant calls == Calls(details.extra[..i])
      {
        assert details.extra[..i + 1] == details.extra[..i] + [details.extra[i]];
        calls := calls + [Call(details.extra[i])];
        i := i + 1;
      }
      assert details.extra[..i] == details.extra;
      subcommands := subcommands[name := SubParser(name, name, details.original, calls)];
      todo := todo - {name};
    }
    forall name | name in subcommands
      ensures |collected[name]| == 1 && Sole(collected[name]) == unique[name]
    {
      assert collected[name] == {unique[name]};
    }
    return Success(Parser(base, subcommands));
  }

  // ---------------------------------------------------------------------
  // The process runner and the dry-run gate

  type Env = map<string, string>

  /** One call of the process runner. */
  datatype Invocation = Invocation(cmdargs: seq<string>, kwargs: map<string, Value>)

  /** What a process run gives back: a completed process, or the
      `CalledProcessError` it raises, with the notes added to it. */
  datatype Completion =
    | Completed(returncode: int, stdout: Option<string>, stderr: Option<string>)
    | CalledProcessError(returncode: int, stdout: Option<string>, stderr: Option<string>, notes: seq<string>)

  /** `subprocess.run` or a stand-in: every call is appended to `trace`;
      `respond` says how the process ends. */
  class Launcher {
    var trace: seq<Invocation>
    const respond: Invocation -> Completion

    constructor (respond: Invocation -> Completion)
      ensures trace == [] && this.respond == respond
    {
      trace := [];
      this.respond := respond;
    }

    method Call(cmdargs: seq<string>, kwargs: map<string, Value>) returns (c: Completion)
      modifies this
      ensures trace == old(trace) + [Invocation(cmdargs, kwargs)]
      ensures c == respond(Invocation(cmdargs, kwargs))
    {
      trace := trace + [Invocation(cmdargs, kwargs)];
      c := respond(Invocation(cmdargs, kwargs));
    }
  }

  /** The keyword defaults `safe_run` passes to the runner. */
  const SafeDefaults: map<string, Value> :=
    map["text" := Bool(true), "check" := Bool(true), "capture_output" := Bool(true)]

  /** `real_kwargs`: the defaults updated with the caller's keywords. */
  function SafeRunKwargs(kwargs: map<string, Value>): (merged: map<string, Value>)
    ensures merged.Keys == kwargs.Keys + {"text", "check", "capture_output"}
    ensures forall k :: k in kwargs ==> merged[k] == kwargs[k]
    ensures forall k :: k in merged && k !in kwargs ==> merged[k] == Bool(true)
  {
    SafeDefaults + kwargs
  }

  /** An f-string rendering of an optional captured stream. */
  function Show(stream: Option<string>): string
  {
    if stream.None? then "None" else stream.value
  }

  /** The error `safe_run` re-raises: the same error with the captured
      streams added as notes; a completed process is returned as it is. */
  function Noted(c: Completion): (r: Completion)
    ensures c.Completed? ==> r == c
    ensures c.CalledProcessError? ==>
      && r.CalledProcessError?
      && r.returncode == c.returncode && r.stdout == c.stdout && r.stderr == c.stderr
      && |r.notes| == |c.notes| + 2 && r.notes[..|c.notes|] == c.notes
      && r.notes[|c.notes|] == "STDERR: " + Show(c.stderr)
      && r.notes[|c.notes| + 1] == "STDOUT: " + Show(c.stdout)
  {
    match c
    case Completed(_, _, _) => c
    case CalledProcessError(code, out, err, notes) =>
      CalledProcessError(code, out, err, notes + ["STDERR: " + Show(err), "STDOUT: " + Show(out)])
  }

  /** The two runners `_make_safe_run` builds over the original one. */
  datatype Gate = Wrapped(orig: Launcher) | WrappedDry(orig: Launcher)

  /** Calling `run` or `safe_run` with `cmdargs` and `kwargs`: the wrapped
      runner calls the original once with the completed keywords; the dry
      one calls nothing and returns `None`. */
  method Invoke(gate: Gate, cmdargs: seq<string>, kwargs: map<string, Value>) returns (r: Option<Completion>)
    modifies gate.orig
    ensures gate.Wrapped? ==>
      && gate.orig.trace == old(gate.orig.trace) + [Invocation(cmdargs, SafeRunKwargs(kwargs))]
      && r == Some(Noted(gate.orig.respond(Invocation(cmdargs, SafeRunKwargs(kwargs)))))
    ensures gate.WrappedDry? ==> gate.orig.trace == old(gate.orig.trace) && r.None?
  {
    if gate.WrappedDry? {
      return None;
    }
    var realKwargs := SafeDefaults;
    realKwargs := realKwargs + kwargs;
    var c := gate.orig.Call(cmdargs, realKwargs);
    if c.CalledProcessError? {
      c := c.(notes := c.notes + ["STDERR: " + Show(c.stderr), "STDOUT: " + Show(c.stdout)]);
    }
    return Some(c);
  }

  // ---------------------------------------------------------------------
  // Namespaces and run_maybe_dry

  /** What parsing gives: the option values, and the defaults of the
      chosen sub-command, absent when none was chosen. */
  datatype Namespace<F> = Namespace(values: map<string, Value>, gatherName: Option<Name>, gatherCommand: Option<F>)

  /** `getattr(args, "no_dry_run", False)`, as the gate reads it. */
  predicate NoDryRun<F>(ns: Namespace<F>)
  {
    "no_dry_run" in ns.values && Truthy(ns.values["no_dry_run"])
  }

  /** Without a `no_dry_run` value the gate is closed. */
  lemma DryByDefault<F>(ns: Namespace<F>)
    requires "no_dry_run" !in ns.values || ns.values["no_dry_run"] in {Bool(false), NoneValue, Int(0), Str("")}
    ensures !NoDryRun(ns)
  {
  }

  /** The namespace object the command receives; `run_maybe_dry` adds the
      runner attributes and the environment to it. */
  class Args<F> {
    const parsed: Namespace<F>
    var origRun: Option<Launcher>
    var env: Option<Env>
    var run: Option<Gate>
    var safeRun: Option<Gate>

    constructor (parsed: Namespace<F>)
      ensures this.parsed == parsed
      ensures origRun.None? && env.None? && run.None? && safeRun.None?
    {
      this.parsed := parsed;
      origRun := None;
      env := None;
      run := None;
      safeRun := None;
    }
  }

  /** `_make_safe_run(args)`: `safe_run` always runs; `run` runs only when
      `no_dry_run` is set and is the dry runner otherwise; `orig_run` is
      kept. */
  method MakeSafeRun<F>(args: Args<F>)
    requires args.origRun.Some?
    modifies args
    ensures args.origRun == old(args.origRun) && args.env == old(args.env)
    ensures args.safeRun == Some(Wrapped(args.origRun.value))
    ensures NoDryRun(args.parsed) ==> args.run == args.safeRun
    ensures !NoDryRun(args.parsed) ==> args.run == Some(WrappedDry(args.origRun.value))
  {
    var noDryRun := "no_dry_run" in args.parsed.values && Truthy(args.parsed.values["no_dry_run"]);
    var origRun := args.origRun.value;
    var unsafeRun := if noDryRun then Wrapped(origRun) else WrappedDry(origRun);
    args.run := Some(unsafeRun);
    args.safeRun := Some(Wrapped(origRun));
    args.origRun := Some(origRun);
  }

  /** `argv[1:]`. */
  function Tail(argv: seq<string>): (rest: seq<string>)
    ensures |argv| >= 1 ==> rest == argv[1..]
    ensures |argv| == 0 ==> rest == []
  {
    if |argv| >= 1 then argv[1..] else []
  }

  /** `prefix or "base-command"`: an absent or empty prefix is falsy. */
  function ProgramName(prefix: Option<string>): string
  {
    if prefix.Some? && prefix.value != "" then prefix.value else "base-command"
  }

  /** `s` ends with `b`. */
  predicate EndsWith(s: string, b: string)
  {
    |b| <= |s| && s[|s| - |b|..] == b
  }

  /** `s.rsplit("/", 1)[-1]`: the longest end of `s` without a slash. */
  function Basename(s: string): (b: string)
    ensures EndsWith(s, b)
    ensures '/' !in b
    ensures |b| < |s| ==> s[|s| - |b| - 1] == '/'
    decreases |s|
  {
    if s == [] || s[|s| - 1] == '/' then []
    else Basename(s[..|s| - 1]) + [s[|s| - 1]]
  }

  /** `s.removeprefix(p)`. */
  function RemovePrefix(s: string, p: string): (r: string)
    ensures p <= s ==> p + r == s
    ensures !(p <= s) ==> r == s
  {
    if p <= s then s[|p|..] else s
  }

  /** Rewriting `argv` fails only by indexing past its end. */
  datatype ArgvError = IndexError

  /** The argument list `run_maybe_dry` parses the tail of. */
  function RewrittenArgv(argv: seq<string>, isSubcommand: bool, prefix: Option<string>): Result<seq<string>, ArgvError>
  {
    if !isSubcommand then Success(argv)
    else if |argv| == 0 then Failure(IndexError)
    else
      var base := Basename(argv[0]);
      Success([ProgramName(prefix), if prefix.Some? then RemovePrefix(base, prefix.value + "-") else base] + argv[1..])
  }

  /** In sub-command mode the program name is inserted in front, the old
      first argument loses everything up to its last slash and, when a
      prefix is given, a leading `prefix-`; the rest is kept. Otherwise the
      list is used as it is. */
  lemma RewrittenArgvShape(argv: seq<string>, isSubcommand: bool, prefix: Option<string>)
    ensures !isSubcommand ==> RewrittenArgv(argv, isSubcommand, prefix) == Success(argv)
    ensures isSubcommand ==> (RewrittenArgv(argv, isSubcommand, prefix).Failure? <==> argv == [])
    ensures isSubcommand && argv != [] ==>
      var r := RewrittenArgv(argv, isSubcommand, prefix).value;
      && |r| == |argv| + 1
      && r[0] == ProgramName(prefix)
      && '/' !in r[1]
      && EndsWith(argv[0], r[1])
      && (prefix.None? ==> r[1] == Basename(argv[0]))
      && (prefix.Some? ==> RemovePrefix(Basename(argv[0]), prefix.value + "-") == r[1])
      && r[2..] == argv[1..]
  {
    if isSubcommand && argv != [] {
      var b := Basename(argv[0]);
      if prefix.Some? {
        var r1 := RemovePrefix(b, prefix.value + "-");
        if prefix.value + "-" <= b {
          assert b[|prefix.value + "-"|..] == r1;
          assert forall i :: 0 <= i < |r1| ==> r1[i] == b[i + |prefix.value + "-"|];
        }
        assert EndsWith(b, r1);
      }
    }
  }

  /** The in-place edits `run_maybe_dry` makes to its copy of `argv`. */
  method RewriteArgv(argv: seq<string>, isSubcommand: bool, prefix: Option<string>)
    returns (r: Result<seq<string>, ArgvError>)
    ensures r == RewrittenArgv(argv, isSubcommand, prefix)
  {
    var av := argv;
    if isSubcommand {
      av := [ProgramName(prefix)] + av;
      if |av| < 2 {
        return Failure(IndexError);
      }
      av := av[1 := Basename(av[1])];
      if prefix.Some? {
        av := av[1 := RemovePrefix(av[1], prefix.value + "-")];
      }
      assert av == [av[0], av[1]] + argv[1..];
    }
    return Success(av);
  }

  /** How `run_maybe_dry` ends: the command called with the prepared
      namespace, help printed and `SystemExit(1)`, or the `IndexError` of
      rewriting an empty list. */
  datatype MaybeDryOutcome<F> = Dispatched(command: F, args: Args<F>) | HelpExit(code: int) | ArgvIndexError

  /** `run_maybe_dry(parser=..., argv=argv, env=env, sp_run=spRun,
      is_subcommand=isSubcommand, prefix=prefix)`, with the parser's
      `parse_args` as `parse`. */
  method RunMaybeDry<F>(parse: seq<string> -> Namespace<F>, argv: seq<string>, env: Env, spRun: Launcher,
                        isSubcommand: bool, prefix: Option<string>)
    returns (o: MaybeDryOutcome<F>)
    ensures o.ArgvIndexError? <==> RewrittenArgv(argv, isSubcommand, prefix).Failure?
    ensures RewrittenArgv(argv, isSubcommand, prefix).Success? ==>
      var ns := parse(Tail(RewrittenArgv(argv, isSubcommand, prefix).value));
      && (o.HelpExit? <==> ns.gatherCommand.None?)
      && (o.HelpExit? ==> o.code == 1)
      && (o.Dispatched? ==>
            && fresh(o.args)
            && o.command == ns.gatherCommand.value
            && o.args.parsed == ns
            && o.args.origRun == Some(spRun)
            && o.args.env == Some(env)
            && o.args.safeRun == Some(Wrapped(spRun))
            && o.args.run == Some(if NoDryRun(ns) then Wrapped(spRun) else WrappedDry(spRun)))
  {
    var rewritten := RewriteArgv(argv, isSubcommand, prefix);
    if rewritten.Failure? {
      return ArgvIndexError;
    }
    var args := new Args(parse(Tail(rewritten.value)));
    args.origRun := Some(spRun);
    args.env := Some(env);
    MakeSafeRun(args);
    if args.parsed.gatherCommand.None? {
      return HelpExit(1);
    }
    return Dispatched(args.parsed.gatherCommand.value, args);
  }

  // ---------------------------------------------------------------------
  // run

  /** How `run` ends: the command called with the namespace, the
      environment and the runner, or the `AttributeError` of a namespace
      without a command. */
  datatype RunOutcome<F> = Called(command: F, args: Namespace<F>, env: Env, run: Launcher) | AttributeError

  /** `run(parser=..., argv=argv, env=env, sp_run=spRun)`. */
  function Run<F>(parse: seq<string> -> Namespace<F>, argv: seq<string>, env: Env, spRun: Launcher): (o: RunOutcome<F>)
    ensures o.AttributeError? <==> parse(Tail(argv)).gatherCommand.None?
    ensures o.Called? ==> o.args == parse(Tail(argv)) && o.command == o.args.gatherCommand.value
    ensures o.Called? ==> o.env == env && o.run == spRun
  {
    var args := parse(Tail(argv));
    if args.gatherCommand.None? then AttributeError else Called(args.gatherCommand.value, args, env, spRun)
  }

  /** Parsing picks one of the parser's sub-commands and applies its
      defaults, or none at all. */
  ghost predicate FromSubParser<F>(ns: Namespace<F>, subcommands: map<Name, SubParser<F>>)
  {
    ns.gatherCommand.Some? ==>
      && ns.gatherName.Some?
      && ns.gatherName.value in subcommands
      && subcommands[ns.gatherName.value].gatherCommand == ns.gatherCommand.value
  }

  /** With a parser `set_parser` built from `collected`, `run` calls the
      one function collected under the chosen sub-command's name. */
  lemma RunDispatchesRegistered<F>(collected: map<Name, set<Command<F>>>, subcommands: map<Name, SubParser<F>>,
                                   parse: seq<string> -> Namespace<F>, argv: seq<string>, env: Env, spRun: Launcher)
    requires BuiltFrom(collected, subcommands)
    requires FromSubParser(parse(Tail(argv)), subcommands)
    requires Run(parse, argv, env, spRun).Called?
    ensures var o := Run(parse, argv, env, spRun);
            var name := o.args.gatherName.value;
            && name in collected
            && exists extra :: collected[name] == {Wrapper(o.command, extra)}
  {
    var o := Run(parse, argv, env, spRun);
    var name := o.args.gatherName.value;
    var w := Sole(collected[name]);
    SingletonIs(collected[name], w);
    assert collected[name] == {Wrapper(o.command, w.extra)};
  }
}
