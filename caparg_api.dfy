/** The older `caparg` package (src/caparg/api.py): a collector whose
    registry keeps one object per name, the last one a scan registered
    under it, and the `run` rule that dispatches on the first argument.

    As for `gather`, discovery and import of the entry-point modules are
    not modelled: `Collect` is given the scan of each module as events. */
module CapargApi {
  import opened Results
  import opened Venusian
  import opened Dicts

  type Name = string

  /** Each name maps to one object; keys keep dict insertion order. */
  type Registry<O> = Dict<Name, O>

  /** What `register(name)` attaches: the owning collector and the optional
      name override. caparg has no transform. */
  datatype Pending = Pending(owner: Collector, name: Option<Name>)

  /** A function together with the registrations attached to it, innermost
      decorator first. */
  datatype Decorated<O> = Decorated(obj: O, callbacks: seq<Pending>)

  /** One step of a module scan: a registration callback called with the
      name the object was found under, or an import failure passed to
      `onerror`. */
  datatype ScanEvent<O> =
    | Fire(pending: Pending, innerName: Name, obj: O)
    | OnError(error: ErrorClass)

  /** A caparg `Collector()`. It has no attributes; `id` stands for the
      identity of the collector object, which a scan compares its tag with. */
  datatype Collector = Collector(id: nat)
  {
    /** `collect()`: a fresh dict filled by scanning every module in turn
        with this collector as the tag. */
    method Collect<O>(modules: seq<seq<ScanEvent<O>>>) returns (r: Result<Registry<O>, ErrorClass>)
      ensures r == Collected(this, modules)
    {
      var scanner := new Scanner<O>(this);
      assert modules[0..] == modules;
      var m := 0;
      while m < |modules|
        invariant 0 <= m <= |modules|
        invariant Collected(this, modules) == ScanFrom(this, scanner.registry, Flatten(modules[m..]))
      {
        assert modules[m..][1..] == modules[m + 1..];
        ScanAppend(this, scanner.registry, modules[m], Flatten(modules[m + 1..]));
        var err := scanner.Scan(modules[m]);
        if err.Some? {
          return Failure(err.value);
        }
        m := m + 1;
      }
      r := Success(scanner.registry);
    }
  }

  /** `register(name)`: the record its decorator attaches. */
  function Register(c: Collector, name: Option<Name>): (p: Pending)
    ensures p.owner == c && p.name == name
  {
    Pending(c, name)
  }

  /** The decorator `register(...)` returns (`ret`): the function comes back
      as it was, with the registration attached after any earlier ones. */
  function Attach<O>(p: Pending, d: Decorated<O>): (r: Decorated<O>)
    ensures r.obj == d.obj
    ensures |r.callbacks| == |d.callbacks| + 1 && r.callbacks[..|d.callbacks|] == d.callbacks
    ensures r.callbacks[|d.callbacks|] == p
  {
    Decorated(d.obj, d.callbacks + [p])
  }

  /** The events a scan fires on finding `d` under `innerName`. */
  function Found<O>(innerName: Name, d: Decorated<O>): (events: seq<ScanEvent<O>>)
    ensures |events| == |d.callbacks|
    ensures forall i :: 0 <= i < |events| ==> events[i] == Fire(d.callbacks[i], innerName, d.obj)
  {
    seq(|d.callbacks|, i requires 0 <= i < |d.callbacks| => Fire(d.callbacks[i], innerName, d.obj))
  }

  /** The key a registration is stored under: the override if given, else
      the name the object was found under. */
  function EffectiveName(p: Pending, innerName: Name): Name
  {
    if p.name.None? then innerName else p.name.value
  }

  /** The registry after a callback fires during a scan tagged `tag`: a
      plain dict assignment, so a later registration replaces an earlier one. */
  function AfterCallback<O>(tag: Collector, registry: Registry<O>, p: Pending, innerName: Name, obj: O): Registry<O>
  {
    if p.owner.id != tag.id then registry else registry.Put(EffectiveName(p, innerName), obj)
  }

  /** Scanning `events` from `registry`: callbacks update it, an import
      error of the ImportError class is ignored, any other error is raised
      and ends the pass. */
  function ScanFrom<O>(tag: Collector, registry: Registry<O>, events: seq<ScanEvent<O>>): Result<Registry<O>, ErrorClass>
    decreases |events|
  {
    if events == [] then Success(registry)
    else match events[0]
      case Fire(p, n, o) => ScanFrom(tag, AfterCallback(tag, registry, p, n, o), events[1..])
      case OnError(e) => if IsImportError(e) then ScanFrom(tag, registry, events[1..]) else Failure(e)
  }

  /** A scan continued with `rest` after a first part ended in `res`. */
  function ThenScan<O>(tag: Collector, res: Result<Registry<O>, ErrorClass>, rest: seq<ScanEvent<O>>): Result<Registry<O>, ErrorClass>
  {
    match res
    case Success(registry) => ScanFrom(tag, registry, rest)
    case Failure(e) => Failure(e)
  }

  /** What `collect()` returns for the given module scans. */
  function Collected<O>(c: Collector, modules: seq<seq<ScanEvent<O>>>): Result<Registry<O>, ErrorClass>
  {
    ScanFrom(c, Empty(), Flatten(modules))
  }

  /** The venusian scanner `collect` creates: the tag it compares
      registrations against and the dict the callbacks assign into. */
  class Scanner<O> {
    const tag: Collector
    var registry: Registry<O>

    constructor (tag: Collector)
      ensures this.tag == tag && registry == Empty()
    {
      this.tag := tag;
      registry := Empty();
    }

    /** The callback `register` attaches: ignore another collector's
        registration, else assign the object to its name. */
    method Callback(p: Pending, innerName: Name, obj: O)
      modifies this
      ensures registry == AfterCallback(tag, old(registry), p, innerName, obj)
    {
      if p.owner.id != tag.id {
        return;
      }
      var effectiveName := if p.name.None? then innerName else p.name.value;
      registry := registry.Put(effectiveName, obj);
    }

    /** `scan(module, onerror=ignore_import_error)` over one module's events. */
    method Scan(events: seq<ScanEvent<O>>) returns (err: Option<ErrorClass>)
      modifies this
      ensures ScanFrom(tag, old(registry), events) == if err.None? then Success(registry) else Failure(err.value)
    {
      assert events[0..] == events;
      var i := 0;
      while i < |events|
        invariant 0 <= i <= |events|
        invariant ScanFrom(tag, old(registry), events) == ScanFrom(tag, registry, events[i..])
      {
        assert events[i..][1..] == events[i + 1..];
        match events[i] {
          case Fire(p, n, o) =>
            Callback(p, n, o);
          case OnError(e) =>
            if !IsImportError(e) {
              return Some(e);
            }
        }
        i := i + 1;
      }
      return None;
    }
  }

  lemma {:induction false} ScanAppend<O>(tag: Collector, registry: Registry<O>, a: seq<ScanEvent<O>>, b: seq<ScanEvent<O>>)
    ensures ScanFrom(tag, registry, a + b) == ThenScan(tag, ScanFrom(tag, registry, a), b)
    decreases |a|
  {
    if a == [] {
      assert a + b == b;
    } else {
      assert (a + b)[0] == a[0];
      assert (a + b)[1..] == a[1..] + b;
      match a[0]
      case Fire(p, n, o) =>
        ScanAppend(tag, AfterCallback(tag, registry, p, n, o), a[1..], b);
      case OnError(e) =>
        if IsImportError(e) {
          ScanAppend(tag, registry, a[1..], b);
        }
    }
  }

  // ---------------------------------------------------------------------
  // What a collection pass computes

  /** `e` is a registration owned by `tag` stored under `k`. */
  ghost predicate RegistersName<O>(tag: Collector, e: ScanEvent<O>, k: Name)
  {
    e.Fire? && e.pending.owner.id == tag.id && EffectiveName(e.pending, e.innerName) == k
  }

  /** `events[i]` is the last registration of `tag` under `k` in `events`. */
  ghost predicate LastRegistration<O>(tag: Collector, events: seq<ScanEvent<O>>, k: Name, i: int)
  {
    0 <= i < |events| && RegistersName(tag, events[i], k)
    && forall j :: i < j < |events| ==> !RegistersName(tag, events[j], k)
  }

  /** What a successful scan from `registry` leaves under `k`: the object
      of the last registration for `k` if there is one, else what
      `registry` held. */
  ghost predicate Holds<O>(tag: Collector, registry: Registry<O>, events: seq<ScanEvent<O>>, r: Registry<O>, k: Name)
  {
    && (k in r.entries <==> k in registry.entries || exists i :: 0 <= i < |events| && RegistersName(tag, events[i], k))
    && (k in r.entries ==>
          (exists i :: LastRegistration(tag, events, k, i) && r.entries[k] == events[i].obj)
          || ((forall i :: 0 <= i < |events| ==> !RegistersName(tag, events[i], k))
              && k in registry.entries && r.entries[k] == registry.entries[k]))
  }

  /** A successful scan keeps the dict well formed and, for every name,
      leaves the object of the last registration of `tag` under it. */
  lemma {:induction false} ScanLastWins<O>(tag: Collector, registry: Registry<O>, events: seq<ScanEvent<O>>, k: Name)
    requires registry.Valid()
    requires ScanFrom(tag, registry, events).Success?
    ensures ScanFrom(tag, registry, events).value.Valid()
    ensures Holds(tag, registry, events, ScanFrom(tag, registry, events).value, k)
    decreases |events|
  {
    if events != [] {
      var e, rest := events[0], events[1..];
      var next := if e.Fire? then AfterCallback(tag, registry, e.pending, e.innerName, e.obj) else registry;
      assert ScanFrom(tag, registry, events) == ScanFrom(tag, next, rest);
      ScanLastWins(tag, next, rest, k);
      var r := ScanFrom(tag, registry, events).value;
      forall j | 0 <= j < |rest| ensures RegistersName(tag, rest[j], k) == RegistersName(tag, events[j + 1], k) {
        assert rest[j] == events[j + 1];
      }
      if exists j :: 0 <= j < |rest| && RegistersName(tag, rest[j], k) {
        var j :| LastRegistration(tag, rest, k, j) && r.entries[k] == rest[j].obj;
        assert LastRegistration(tag, events, k, j + 1);
      } else if RegistersName(tag, e, k) {
        assert LastRegistration(tag, events, k, 0);
        assert next.entries[k] == e.obj;
      } else {
        assert k in next.entries <==> k in registry.entries;
        assert k in next.entries ==> next.entries[k] == registry.entries[k];
        forall i | 0 <= i < |events| ensures !RegistersName(tag, events[i], k) {
          if i > 0 { assert events[i] == rest[i - 1]; }
        }
      }
    }
  }

  /** A successful `collect()` returns a well-formed dict holding, for each
      name some registration of this collector uses, the object of the
      last such registration the scan met, and no other name. */
  lemma CollectedLastWins<O>(c: Collector, modules: seq<seq<ScanEvent<O>>>, k: Name)
    requires Collected(c, modules).Success?
    ensures var r := Collected(c, modules).value;
            var events := Flatten(modules);
            && r.Valid()
            && (k in r.entries <==> exists i :: 0 <= i < |events| && RegistersName(c, events[i], k))
            && (k in r.entries ==> exists i :: LastRegistration(c, events, k, i) && r.entries[k] == events[i].obj)
  {
    var empty: Registry<O> := Empty();
    var events := Flatten(modules);
    ScanLastWins(c, empty, events, k);
    var r := ScanFrom(c, empty, events).value;
    assert Holds(c, empty, events, r, k);
    assert k !in empty.entries;
    assert Collected(c, modules).value == r;
  }

  /** A registration owned by another collector changes nothing in this
      collector's pass, wherever it occurs. */
  lemma OtherCollectorIgnored<O>(tag: Collector, registry: Registry<O>, a: seq<ScanEvent<O>>,
                                 p: Pending, n: Name, o: O, b: seq<ScanEvent<O>>)
    requires p.owner.id != tag.id
    ensures ScanFrom(tag, registry, a + [Fire(p, n, o)] + b) == ScanFrom(tag, registry, a + b)
  {
    assert a + [Fire(p, n, o)] + b == a + ([Fire(p, n, o)] + b);
    ScanAppend(tag, registry, a, [Fire(p, n, o)] + b);
    ScanAppend(tag, registry, a, b);
    assert ([Fire(p, n, o)] + b)[1..] == b;
  }

  // ---------------------------------------------------------------------
  // run

  /** What `run` decides from its first argument. */
  datatype Decision = ShowVersion | ListCommands | Invoke(name: Name)

  /** `run`'s argument list after an empty one is replaced by `['help']`. */
  function Arguments(argv: seq<string>): (args: seq<string>)
    ensures |args| >= 1
    ensures |argv| >= 1 ==> args == argv
    ensures |argv| < 1 ==> args == ["help"]
  {
    if |argv| < 1 then argv + ["help"] else argv
  }

  /** The branch `run` takes, over the names of the commands it is given. */
  function Decide(argv: seq<string>, names: set<Name>): Decision
  {
    var args := Arguments(argv);
    if args[0] in {"version", "--version"} then ShowVersion
    else if args[0] in {"help", "--help"} || args[0] !in names then ListCommands
    else Invoke(args[0])
  }

  /** What `run` does: the lines it writes to `output`, or the command it
      calls with its argument list. */
  datatype RunOutcome<C> = Printed(lines: seq<string>) | Called(command: C, argv: seq<string>)

  const Header := "Available subcommands:"
  const Footer := "Run subcommand with '--help' for more information"

  /** The lines `run` writes for `help`: a header, one tab-indented line
      per command name in dict order, and a footer. */
  function Listing(keys: seq<Name>): seq<string>
  {
    [Header] + seq(|keys|, i requires 0 <= i < |keys| => "\t" + keys[i]) + [Footer]
  }

  /** `run(argv, commands, version, output)`. */
  method Run<C>(argv: seq<string>, commands: Dict<Name, C>, version: string) returns (o: RunOutcome<C>)
    ensures match Decide(argv, commands.entries.Keys)
      case ShowVersion => o == Printed(["Version " + version])
      case ListCommands => o == Printed(Listing(commands.keys))
      case Invoke(name) => o == Called(commands.entries[name], Arguments(argv))
  {
    var args := argv;
    if |args| < 1 {
      args := args + ["help"];
    }
    if args[0] == "version" || args[0] == "--version" {
      return Printed(["Version " + version]);
    }
    if args[0] == "help" || args[0] == "--help" || args[0] !in commands.entries {
      var lines := [Header];
      var i := 0;
      while i < |commands.keys|
        invariant 0 <= i <= |commands.keys|
        invariant lines == [Header] + seq(i, j requires 0 <= j < i => "\t" + commands.keys[j])
      {
        lines := lines + ["\t" + commands.keys[i]];
        i := i + 1;
      }
      lines := lines + [Footer];
      return Printed(lines);
    }
    o := Called(commands.entries[args[0]], args);
  }

  /** `run` with no arguments behaves as `run` with `['help']`. */
  lemma EmptyMeansHelp(names: set<Name>)
    ensures Decide([], names) == Decide(["help"], names) == ListCommands
  {
  }

  /** `version` and `--version` always print the version, even when a
      command of that name is registered. */
  lemma VersionShadowsCommands(argv: seq<string>, names: set<Name>)
    requires |argv| >= 1 && argv[0] in {"version", "--version"}
    ensures Decide(argv, names) == ShowVersion
  {
  }

  /** A command is called only when the first argument names it and is not
      one of the reserved words; it is called with the full argument list. */
  lemma InvokeOnlyRegistered(argv: seq<string>, names: set<Name>)
    ensures Decide(argv, names).Invoke? <==>
      |argv| >= 1 && argv[0] in names && argv[0] !in {"version", "--version", "help", "--help"}
    ensures Decide(argv, names).Invoke? ==> Decide(argv, names).name == argv[0]
  {
  }
}
