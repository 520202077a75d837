/** The collection engine of `gather` (src/gather/api.py): collectors,
    the registrations their `register` decorator attaches, the scan that
    fires those registrations into a fresh set-valued registry, `unique`
    and `Wrapper`.

    Discovery and import of the entry-point modules are not modelled: a
    collection pass is given the scan of each module as the sequence of
    events venusian produces for it, a registration callback firing or an
    import error handed to the `onerror` hook. */
module GatherApi {
  import opened Results
  import opened Venusian

  type Name = string

  /** Each name maps to the set of values registered under it. */
  type Registry<V> = map<Name, set<V>>

  /** What `register(name, transform)` attaches to the decorated object:
      the collector that owns it, the optional name override and the
      transform applied to the object when the registration fires. */
  datatype Pending<!O, V> = Pending(owner: Collector, name: Option<Name>, transform: O -> V)

  /** A function or class together with the registrations attached to it,
      innermost decorator first. */
  datatype Decorated<!O, V> = Decorated(obj: O, callbacks: seq<Pending<O, V>>)

  /** One step of a module scan: a registration callback called with the
      name the object was found under, or an import failure passed to
      `onerror`. */
  datatype ScanEvent<!O, V> =
    | Fire(pending: Pending<O, V>, innerName: Name, obj: O)
    | OnError(error: ErrorClass)

  /** A frozen `Collector(name, depth)`. `id` stands for the identity of
      the collector object, which is what a scan compares its tag with. */
  datatype Collector = Collector(id: nat, name: Option<string>, depth: int)
  {
    /** `collect()`: a fresh registry filled by scanning every module in
        turn with this collector as the tag. */
    method Collect<O, V(==)>(modules: seq<seq<ScanEvent<O, V>>>) returns (r: Result<Registry<V>, ErrorClass>)
      ensures r == Collected(this, modules)
    {
      var scanner := new Scanner<O, V>(this);
      assert modules[0..] == modules;
      var m := 0;
      while m < |modules|
        invariant 0 <= m <= |modules|
        invariant Collected(this, modules) == ScanFrom(this, scanner.registry, Flatten(modules[m..]))
      {
        assert modules[m..][1..] == modules[m + 1..];
        ScanAppend(this, scanner.registry, modules[m], Flatten(modules[m + 1..]));
        var err := scanner.Scan(modules[m]);
        if err.Some? {
          return Failure(err.value);
        }
        m := m + 1;
      }
      r := Success(scanner.registry);
    }
  }

  /** `register(name, transform)`: the record its decorator attaches. */
  function Register<O, V>(c: Collector, name: Option<Name>, transform: O -> V): (p: Pending<O, V>)
    ensures p.owner == c && p.name == name && p.transform == transform
  {
    Pending(c, name, transform)
  }

  /** The identity, `register`'s default transform. */
  function Identity<O>(o: O): O
  {
    o
  }

  /** The decorator `register(...)` returns (`attach`): the object comes
      back as it was, with the registration attached after any earlier
      ones. */
  function Attach<O, V>(p: Pending<O, V>, d: Decorated<O, V>): (r: Decorated<O, V>)
    ensures r.obj == d.obj
    ensures |r.callbacks| == |d.callbacks| + 1 && r.callbacks[..|d.callbacks|] == d.callbacks
    ensures r.callbacks[|d.callbacks|] == p
  {
    Decorated(d.obj, d.callbacks + [p])
  }

  /** The events a scan fires on finding `d` under `innerName`: each
      attached callback in turn, with the object itself. */
  function Found<O, V>(innerName: Name, d: Decorated<O, V>): (events: seq<ScanEvent<O, V>>)
    ensures |events| == |d.callbacks|
    ensures forall i :: 0 <= i < |events| ==> events[i] == Fire(d.callbacks[i], innerName, d.obj)
  {
    seq(|d.callbacks|, i requires 0 <= i < |d.callbacks| => Fire(d.callbacks[i], innerName, d.obj))
  }

  /** The key a registration is stored under: the override if given, else
      the name the object was found under. */
  function EffectiveName<O, V>(p: Pending<O, V>, innerName: Name): Name
  {
    if p.name.None? then innerName else p.name.value
  }

  /** A defaultdict(set) lookup: a missing key reads as the empty set. */
  function Lookup<V>(registry: Registry<V>, k: Name): set<V>
  {
    if k in registry then registry[k] else {}
  }

  /** The registry after a callback fires during a scan tagged `tag`. */
  function AfterCallback<O, V(==)>(tag: Collector, registry: Registry<V>, p: Pending<O, V>, innerName: Name, obj: O): Registry<V>
  {
    if p.owner.id != tag.id then registry
    else
      var k := EffectiveName(p, innerName);
      registry[k := Lookup(registry, k) + {p.transform(obj)}]
  }

  /** Scanning `events` from `registry`: callbacks update it, an import
      error of the ImportError class is ignored, any other error is
      raised and ends the pass. */
  function ScanFrom<O, V(==)>(tag: Collector, registry: Registry<V>, events: seq<ScanEvent<O, V>>): Result<Registry<V>, ErrorClass>
    decreases |events|
  {
    if events == [] then Success(registry)
    else match events[0]
      case Fire(p, n, o) => ScanFrom(tag, AfterCallback(tag, registry, p, n, o), events[1..])
      case OnError(e) => if IsImportError(e) then ScanFrom(tag, registry, events[1..]) else Failure(e)
  }

  /** A scan continued with `rest` after a first part ended in `res`. */
  function ThenScan<O, V(==)>(tag: Collector, res: Result<Registry<V>, ErrorClass>, rest: seq<ScanEvent<O, V>>): Result<Registry<V>, ErrorClass>
  {
    match res
    case Success(registry) => ScanFrom(tag, registry, rest)
    case Failure(e) => Failure(e)
  }

  /** What `collect()` returns for the given module scans. */
  function Collected<O, V(==)>(c: Collector, modules: seq<seq<ScanEvent<O, V>>>): Result<Registry<V>, ErrorClass>
  {
    ScanFrom(c, map[], Flatten(modules))
  }

  /** The venusian scanner `collect` creates: the tag it compares
      registrations against and the registry the callbacks update. */
  class Scanner<O, V(==)> {
    const tag: Collector
    var registry: Registry<V>

    constructor (tag: Collector)
      ensures this.tag == tag && registry == map[]
    {
      this.tag := tag;
      registry := map[];
    }

    /** The callback `register` attaches: ignore another collector's
        registration, else add the transformed object under its name. */
    method Callback(p: Pending<O, V>, innerName: Name, obj: O)
      modifies this
      ensures registry == AfterCallback(tag, old(registry), p, innerName, obj)
    {
      if p.owner.id != tag.id {
        return;
      }
      var effectiveName := if p.name.None? then innerName else p.name.value;
      var value := p.transform(obj);
      registry := registry[effectiveName := Lookup(registry, effectiveName) + {value}];
    }

    /** `scan(module, onerror=ignore_import_error)` over one module's events. */
    method Scan(events: seq<ScanEvent<O, V>>) returns (err: Option<ErrorClass>)
      modifies this
      ensures ScanFrom(tag, old(registry), events) == if err.None? then Success(registry) else Failure(err.value)
    {
      assert events[0..] == events;
      var i := 0;
      while i < |events|
        invariant 0 <= i <= |events|
        invariant ScanFrom(tag, old(registry), events) == ScanFrom(tag, registry, events[i..])
      {
        assert events[i..][1..] == events[i + 1..];
        match events[i] {
          case Fire(p, n, o) =>
            Callback(p, n, o);
          case OnError(e) =>
            if !IsImportError(e) {
              return Some(e);
            }
        }
        i := i + 1;
      }
      return None;
    }
  }

  // ---------------------------------------------------------------------
  // What a collection pass computes

  /** `e` is a registration owned by `tag` that stores `v` under `k`. */
  ghost predicate Registers<O, V>(tag: Collector, e: ScanEvent<O, V>, k: Name, v: V)
  {
    e.Fire? && e.pending.owner.id == tag.id && EffectiveName(e.pending, e.innerName) == k
    && e.pending.transform(e.obj) == v
  }

  /** `e` is a registration owned by `tag` stored under `k`. */
  ghost predicate RegistersName<O, V>(tag: Collector, e: ScanEvent<O, V>, k: Name)
  {
    e.Fire? && e.pending.owner.id == tag.id && EffectiveName(e.pending, e.innerName) == k
  }

  /** `e` is an error `onerror` re-raises. */
  predicate Fatal<O, V>(e: ScanEvent<O, V>)
  {
    e.OnError? && !IsImportError(e.error)
  }

  /** The names `tag`'s registrations in `events` are stored under. */
  ghost function NamesRegistered<O, V>(tag: Collector, events: seq<ScanEvent<O, V>>): set<Name>
  {
    set i | 0 <= i < |events| && events[i].Fire? && events[i].pending.owner.id == tag.id
      :: EffectiveName(events[i].pending, events[i].innerName)
  }

  /** The values `tag`'s registrations in `events` store under `k`. */
  ghost function ValuesRegistered<O, V>(tag: Collector, events: seq<ScanEvent<O, V>>, k: Name): set<V>
  {
    set i | 0 <= i < |events| && RegistersName(tag, events[i], k) :: events[i].pending.transform(events[i].obj)
  }

  /** The registry a pass over `events` should produce, defined without
      reference to the order of the scan: every name one of `tag`'s
      registrations uses, mapped to all the values registered under it. */
  ghost function Expected<O, V>(tag: Collector, events: seq<ScanEvent<O, V>>): Registry<V>
  {
    map k | k in NamesRegistered(tag, events) :: ValuesRegistered(tag, events, k)
  }

  /** `registry` with the registrations of `events` added to it. */
  ghost function Merged<O, V>(tag: Collector, registry: Registry<V>, events: seq<ScanEvent<O, V>>): Registry<V>
  {
    map k | k in registry.Keys + NamesRegistered(tag, events) :: Lookup(registry, k) + ValuesRegistered(tag, events, k)
  }

  lemma {:induction false} ScanAppend<O, V>(tag: Collector, registry: Registry<V>, a: seq<ScanEvent<O, V>>, b: seq<ScanEvent<O, V>>)
    ensures ScanFrom(tag, registry, a + b) == ThenScan(tag, ScanFrom(tag, registry, a), b)
    decreases |a|
  {
    if a == [] {
      assert a + b == b;
    } else {
      assert (a + b)[0] == a[0];
      assert (a + b)[1..] == a[1..] + b;
      match a[0]
      case Fire(p, n, o) =>
        ScanAppend(tag, AfterCallback(tag, registry, p, n, o), a[1..], b);
      case OnError(e) =>
        if IsImportError(e) {
          ScanAppend(tag, registry, a[1..], b);
        }
    }
  }

  /** How the names registered in `events` split between its first event
      and the rest. */
  lemma NamesCons<O, V>(tag: Collector, events: seq<ScanEvent<O, V>>)
    requires events != []
    ensures NamesRegistered(tag, events) == NamesRegistered(tag, [events[0]]) + NamesRegistered(tag, events[1..])
  {
    var head, rest := [events[0]], events[1..];
    forall x | x in NamesRegistered(tag, events)
      ensures x in NamesRegistered(tag, head) + NamesRegistered(tag, rest)
    {
      var i :| 0 <= i < |events| && events[i].Fire? && events[i].pending.owner.id == tag.id
        && EffectiveName(events[i].pending, events[i].innerName) == x;
      if i == 0 { assert head[0] == events[0]; } else { assert rest[i - 1] == events[i]; }
    }
    forall x | x in NamesRegistered(tag, head) + NamesRegistered(tag, rest)
      ensures x in NamesRegistered(tag, events)
    {
      if x in NamesRegistered(tag, head) {
        assert head[0] == events[0];
      } else {
        var i :| 0 <= i < |rest| && rest[i].Fire? && rest[i].pending.owner.id == tag.id
          && EffectiveName(rest[i].pending, rest[i].innerName) == x;
        assert events[i + 1] == rest[i];
      }
    }
  }

  /** How the values registered under `k` in `events` split between its
      first event and the rest. */
  lemma ValuesCons<O, V>(tag: Collector, events: seq<ScanEvent<O, V>>, k: Name)
    requires events != []
    ensures ValuesRegistered(tag, events, k)
         == ValuesRegistered(tag, [events[0]], k) + ValuesRegistered(tag, events[1..], k)
  {
    var head, rest := [events[0]], events[1..];
    forall v | v in ValuesRegistered(tag, events, k)
      ensures v in ValuesRegistered(tag, head, k) + ValuesRegistered(tag, rest, k)
    {
      var i :| 0 <= i < |events| && RegistersName(tag, events[i], k)
        && events[i].pending.transform(events[i].obj) == v;
      if i == 0 { assert head[0] == events[0]; } else { assert rest[i - 1] == events[i]; }
    }
    forall v | v in ValuesRegistered(tag, head, k) + ValuesRegistered(tag, rest, k)
      ensures v in ValuesRegistered(tag, events, k)
    {
      if v in ValuesRegistered(tag, head, k) {
        assert head[0] == events[0];
      } else {
        var i :| 0 <= i < |rest| && RegistersName(tag, rest[i], k)
          && rest[i].pending.transform(rest[i].obj) == v;
        assert events[i + 1] == rest[i];
      }
    }
  }

  /** The registry after one event of a scan that goes on. */
  ghost function Step<O, V>(tag: Collector, registry: Registry<V>, e: ScanEvent<O, V>): Registry<V>
  {
    if e.Fire? then AfterCallback(tag, registry, e.pending, e.innerName, e.obj) else registry
  }

  /** One event adds its name, if it registers one, to the keys. */
  lemma StepKeys<O, V>(tag: Collector, registry: Registry<V>, e: ScanEvent<O, V>)
    ensures Step(tag, registry, e).Keys == registry.Keys + NamesRegistered(tag, [e])
  {
    assert [e][0] == e;
    assert NamesRegistered(tag, [e])
        == if e.Fire? && e.pending.owner.id == tag.id then {EffectiveName(e.pending, e.innerName)} else {};
  }

  /** One event adds its value, if it registers one under `k`, to the set
      under `k`. */
  lemma StepLookup<O, V>(tag: Collector, registry: Registry<V>, e: ScanEvent<O, V>, k: Name)
    ensures Lookup(Step(tag, registry, e), k) == Lookup(registry, k) + ValuesRegistered(tag, [e], k)
  {
    assert [e][0] == e;
    assert ValuesRegistered(tag, [e], k) == if RegistersName(tag, e, k) then {e.pending.transform(e.obj)} else {};
  }

  lemma MergedStepKeys<O, V>(tag: Collector, registry: Registry<V>, events: seq<ScanEvent<O, V>>)
    requires events != []
    ensures Merged(tag, Step(tag, registry, events[0]), events[1..]).Keys == Merged(tag, registry, events).Keys
  {
    NamesCons(tag, events);
    StepKeys(tag, registry, events[0]);
  }

  lemma MergedStepAt<O, V>(tag: Collector, registry: Registry<V>, events: seq<ScanEvent<O, V>>, k: Name)
    requires events != []
    requires k in Merged(tag, registry, events)
    requires k in Merged(tag, Step(tag, registry, events[0]), events[1..])
    ensures Merged(tag, Step(tag, registry, events[0]), events[1..])[k] == Merged(tag, registry, events)[k]
  {
    ValuesCons(tag, events, k);
    StepLookup(tag, registry, events[0], k);
  }

  lemma MergedStep<O, V>(tag: Collector, registry: Registry<V>, events: seq<ScanEvent<O, V>>)
    requires events != []
    ensures Merged(tag, Step(tag, registry, events[0]), events[1..]) == Merged(tag, registry, events)
  {
    var lhs := Merged(tag, Step(tag, registry, events[0]), events[1..]);
    var rhs := Merged(tag, registry, events);
    MergedStepKeys(tag, registry, events);
    forall k | k in lhs ensures lhs[k] == rhs[k] {
      MergedStepAt(tag, registry, events, k);
    }
  }

  /** A successful scan adds exactly the registrations of `tag` in
      `events` to the registry it starts from. */
  lemma {:induction false} ScanMerges<O, V>(tag: Collector, registry: Registry<V>, events: seq<ScanEvent<O, V>>)
    requires ScanFrom(tag, registry, events).Success?
    ensures ScanFrom(tag, registry, events).value == Merged(tag, registry, events)
    decreases |events|
  {
    if events == [] {
      assert NamesRegistered(tag, events) == {};
      var merged := Merged(tag, registry, events);
      assert merged.Keys == registry.Keys;
      forall k | k in merged ensures merged[k] == registry[k] {
        assert ValuesRegistered(tag, events, k) == {};
      }
    } else {
      assert ScanFrom(tag, registry, events) == ScanFrom(tag, Step(tag, registry, events[0]), events[1..]);
      ScanMerges(tag, Step(tag, registry, events[0]), events[1..]);
      MergedStep(tag, registry, events);
    }
  }

  /** A successful `collect()` returns exactly the reference registry:
      one key per name some registration of this collector uses, holding
      all the values registered under that name, and no other key. */
  lemma CollectedIsExpected<O, V>(c: Collector, modules: seq<seq<ScanEvent<O, V>>>)
    requires Collected(c, modules).Success?
    ensures Collected(c, modules).value == Expected(c, Flatten(modules))
  {
    var events := Flatten(modules);
    ScanMerges(c, map[], events);
    var merged, expected := Merged(c, map[], events), Expected(c, events);
    assert merged.Keys == expected.Keys;
    var empty: Registry<V> := map[];
    forall k | k in merged ensures merged[k] == expected[k] {
      assert Lookup(empty, k) == {};
    }
  }

  /** Membership in a collected registry, both ways: `v` is stored under
      `k` exactly when some registration of the collector stores it there,
      and every key holds at least one value. */
  lemma CollectedMembership<O, V>(c: Collector, modules: seq<seq<ScanEvent<O, V>>>, k: Name, v: V)
    requires Collected(c, modules).Success?
    ensures var r := Collected(c, modules).value;
            var events := Flatten(modules);
            && (k in r && v in r[k] <==> exists i :: 0 <= i < |events| && Registers(c, events[i], k, v))
            && (k in r ==> r[k] != {})
  {
    var events := Flatten(modules);
    CollectedIsExpected(c, modules);
    if k in NamesRegistered(c, events) {
      var i :| 0 <= i < |events| && events[i].Fire? && events[i].pending.owner.id == c.id
        && EffectiveName(events[i].pending, events[i].innerName) == k;
      assert events[i].pending.transform(events[i].obj) in ValuesRegistered(c, events, k);
    }
    if exists i :: 0 <= i < |events| && Registers(c, events[i], k, v) {
      var i :| 0 <= i < |events| && Registers(c, events[i], k, v);
      assert k in NamesRegistered(c, events);
    }
  }

  /** A scan fails exactly when some event is an error of a class other
      than ImportError, and then with the first such error. */
  lemma {:induction false} ScanFailure<O, V>(tag: Collector, registry: Registry<V>, events: seq<ScanEvent<O, V>>)
    ensures ScanFrom(tag, registry, events).Failure? <==> exists i :: 0 <= i < |events| && Fatal(events[i])
    ensures ScanFrom(tag, registry, events).Failure? ==>
      exists i :: 0 <= i < |events| && Fatal(events[i]) && events[i].error == ScanFrom(tag, registry, events).error
        && forall j :: 0 <= j < i ==> !Fatal(events[j])
    decreases |events|
  {
    if events != [] {
      var rest := events[1..];
      var next := if events[0].Fire? then AfterCallback(tag, registry, events[0].pending, events[0].innerName, events[0].obj) else registry;
      ScanFailure(tag, next, rest);
      if Fatal(events[0]) {
      } else {
        assert ScanFrom(tag, registry, events) == ScanFrom(tag, next, rest);
        forall i | 0 <= i < |events| && Fatal(events[i]) ensures exists j :: 0 <= j < |rest| && Fatal(rest[j]) {
          assert rest[i - 1] == events[i];
        }
        if ScanFrom(tag, next, rest).Failure? {
          var j :| 0 <= j < |rest| && Fatal(rest[j]) && rest[j].error == ScanFrom(tag, next, rest).error
            && forall m :: 0 <= m < j ==> !Fatal(rest[m]);
          assert events[j + 1] == rest[j];
          forall m | 0 <= m < j + 1 ensures !Fatal(events[m]) {
            if m > 0 { assert events[m] == rest[m - 1]; }
          }
        }
      }
    }
  }

  /** Whether `collect()` fails does not depend on the collector: it fails
      exactly when some module's scan meets an error that is not an
      ImportError, and then with the first one. */
  lemma CollectFailure<O, V>(c: Collector, modules: seq<seq<ScanEvent<O, V>>>)
    ensures var events := Flatten(modules);
      && (Collected(c, modules).Failure? <==> exists i :: 0 <= i < |events| && Fatal(events[i]))
      && (Collected(c, modules).Failure? ==>
            exists i :: 0 <= i < |events| && Fatal(events[i]) && events[i].error == Collected(c, modules).error
              && forall j :: 0 <= j < i ==> !Fatal(events[j]))
  {
    ScanFailure(c, map[], Flatten(modules));
  }

  /** `register()` with no transform: the object found is collected as
      itself, not a copy or a wrapper of it. */
  lemma DefaultTransformCollectsObject<O>(c: Collector, name: Option<Name>, obj: O, innerName: Name)
    ensures var p := Register(c, name, Identity);
            var modules := [Found(innerName, Attach(p, Decorated(obj, [])))];
            Collected(c, modules) == Success(map[EffectiveName(p, innerName) := {obj}])
  {
    var p := Register(c, name, Identity);
    var events := Found(innerName, Attach(p, Decorated(obj, [])));
    var modules := [events];
    assert events == [Fire(p, innerName, obj)];
    assert modules[1..] == [];
    assert Flatten(modules) == events;
    assert events[1..] == [];
    var empty: Registry<O> := map[];
    var k := EffectiveName(p, innerName);
    assert p.transform(obj) == obj;
    assert Lookup(empty, k) + {p.transform(obj)} == {obj};
    assert AfterCallback(c, empty, p, innerName, obj) == map[k := {obj}];
    assert ScanFrom(c, empty, events) == ScanFrom(c, AfterCallback(c, empty, p, innerName, obj), events[1..]);
  }

  /** A registration owned by another collector changes nothing in this
      collector's pass, wherever it occurs. */
  lemma OtherCollectorIgnored<O, V>(tag: Collector, registry: Registry<V>, a: seq<ScanEvent<O, V>>,
                                        p: Pending<O, V>, n: Name, o: O, b: seq<ScanEvent<O, V>>)
    requires p.owner.id != tag.id
    ensures ScanFrom(tag, registry, a + [Fire(p, n, o)] + b) == ScanFrom(tag, registry, a + b)
  {
    assert a + [Fire(p, n, o)] + b == a + ([Fire(p, n, o)] + b);
    ScanAppend(tag, registry, a, [Fire(p, n, o)] + b);
    ScanAppend(tag, registry, a, b);
    assert ([Fire(p, n, o)] + b)[1..] == b;
  }

  /** An ImportError-class failure while scanning is skipped: the pass goes
      on as if it had not happened. */
  lemma ImportErrorIgnored<O, V>(tag: Collector, registry: Registry<V>, a: seq<ScanEvent<O, V>>,
                                     e: ErrorClass, b: seq<ScanEvent<O, V>>)
    requires IsImportError(e)
    ensures ScanFrom(tag, registry, a + [OnError(e)] + b) == ScanFrom(tag, registry, a + b)
  {
    assert a + [OnError(e)] + b == a + ([OnError(e)] + b);
    ScanAppend(tag, registry, a, [OnError(e)] + b);
    ScanAppend(tag, registry, a, b);
    assert ([OnError(e)] + b)[1..] == b;
  }

  lemma AfterCallbacksCommute<O, V>(tag: Collector, r: Registry<V>, p1: Pending<O, V>, n1: Name, o1: O,
                                    p2: Pending<O, V>, n2: Name, o2: O)
    ensures AfterCallback(tag, AfterCallback(tag, r, p1, n1, o1), p2, n2, o2)
         == AfterCallback(tag, AfterCallback(tag, r, p2, n2, o2), p1, n1, o1)
  {
    if p1.owner.id == tag.id && p2.owner.id == tag.id {
      var k1, k2 := EffectiveName(p1, n1), EffectiveName(p2, n2);
      var v1, v2 := p1.transform(o1), p2.transform(o2);
      if k1 == k2 {
        assert Lookup(r, k1) + {v1} + {v2} == Lookup(r, k1) + {v2} + {v1};
      } else {
        var r12 := r[k1 := Lookup(r, k1) + {v1}][k2 := Lookup(r, k2) + {v2}];
        var r21 := r[k2 := Lookup(r, k2) + {v2}][k1 := Lookup(r, k1) + {v1}];
        assert r12 == r21;
      }
    }
  }

  /** Two callbacks fired one after the other can be swapped: the values
      accumulate in sets, so the order of registrations does not matter. */
  lemma CallbacksCommute<O, V>(tag: Collector, registry: Registry<V>, a: seq<ScanEvent<O, V>>,
                               e1: ScanEvent<O, V>, e2: ScanEvent<O, V>, b: seq<ScanEvent<O, V>>)
    requires e1.Fire? && e2.Fire?
    ensures ScanFrom(tag, registry, a + [e1, e2] + b) == ScanFrom(tag, registry, a + [e2, e1] + b)
  {
    assert a + [e1, e2] + b == a + ([e1, e2] + b);
    assert a + [e2, e1] + b == a + ([e2, e1] + b);
    ScanAppend(tag, registry, a, [e1, e2] + b);
    ScanAppend(tag, registry, a, [e2, e1] + b);
    match ScanFrom(tag, registry, a)
    case Failure(_) =>
    case Success(r) =>
      var r1 := AfterCallback(tag, r, e1.pending, e1.innerName, e1.obj);
      var r2 := AfterCallback(tag, r, e2.pending, e2.innerName, e2.obj);
      assert ([e1, e2] + b)[0] == e1 && ([e1, e2] + b)[1..] == [e2] + b;
      assert ([e2] + b)[0] == e2 && ([e2] + b)[1..] == b;
      assert ([e2, e1] + b)[0] == e2 && ([e2, e1] + b)[1..] == [e1] + b;
      assert ([e1] + b)[0] == e1 && ([e1] + b)[1..] == b;
      assert ScanFrom(tag, r, [e1, e2] + b) == ScanFrom(tag, AfterCallback(tag, r1, e2.pending, e2.innerName, e2.obj), b);
      assert ScanFrom(tag, r, [e2, e1] + b) == ScanFrom(tag, AfterCallback(tag, r2, e1.pending, e1.innerName, e1.obj), b);
      AfterCallbacksCommute(tag, r, e1.pending, e1.innerName, e1.obj, e2.pending, e2.innerName, e2.obj);
  }

  /** The same object decorated for two collectors (stacked `register`
      decorators): each collector's pass over the module sees only its own
      registration, under its own name, with its own transform. */
  lemma StackedRegistrations<O, V>(c1: Collector, n1: Option<Name>, t1: O -> V,
                                   c2: Collector, n2: Option<Name>, t2: O -> V,
                                   obj: O, innerName: Name)
    requires c1.id != c2.id
    ensures var d := Attach(Register(c1, n1, t1), Attach(Register(c2, n2, t2), Decorated(obj, [])));
      && d.obj == obj
      && Collected(c1, [Found(innerName, d)]) == Success(map[EffectiveName(Register(c1, n1, t1), innerName) := {t1(obj)}])
      && Collected(c2, [Found(innerName, d)]) == Success(map[EffectiveName(Register(c2, n2, t2), innerName) := {t2(obj)}])
  {
    var p1, p2 := Register(c1, n1, t1), Register(c2, n2, t2);
    var d := Attach(p1, Attach(p2, Decorated(obj, [])));
    var events := Found(innerName, d);
    assert d.callbacks == [p2, p1];
    assert events == [Fire(p2, innerName, obj), Fire(p1, innerName, obj)];
    var modules: seq<seq<ScanEvent<O, V>>> := [events];
    assert modules[1..] == [];
    assert Flatten(modules) == events;
    assert events[1..] == [Fire(p1, innerName, obj)];
    assert events[1..][1..] == [];
    var empty: Registry<V> := map[];
    var k1, k2 := EffectiveName(p1, innerName), EffectiveName(p2, innerName);
    assert Lookup(empty, k1) == {} && Lookup(empty, k2) == {};
    assert {} + {t1(obj)} == {t1(obj)} && {} + {t2(obj)} == {t2(obj)};
    assert AfterCallback(c1, empty, p1, innerName, obj) == empty[k1 := {t1(obj)}];
    assert AfterCallback(c2, empty, p2, innerName, obj) == empty[k2 := {t2(obj)}];
    assert ScanFrom(c1, empty, events) == ScanFrom(c1, empty, events[1..]);
    assert ScanFrom(c1, empty, events[1..]) == ScanFrom(c1, empty[k1 := {t1(obj)}], events[1..][1..]);
    assert ScanFrom(c2, empty, events) == ScanFrom(c2, empty[k2 := {t2(obj)}], events[1..]);
    assert ScanFrom(c2, empty[k2 := {t2(obj)}], events[1..]) == ScanFrom(c2, empty[k2 := {t2(obj)}], events[1..][1..]);
  }

  // ---------------------------------------------------------------------
  // unique

  /** The error `[value] = value_set` raises: the set under `key` did not
      have exactly one element. */
  datatype UniqueError<K> = ValueError(key: K, size: nat)

  /** Every value set has exactly one element. */
  ghost predicate AllSingletons<K, V>(mapping: map<K, set<V>>)
  {
    forall k :: k in mapping ==> |mapping[k]| == 1
  }

  lemma SingletonIs<V>(s: set<V>, v: V)
    requires |s| == 1 && v in s
    ensures s == {v}
  {
    assert |s - {v}| == 0;
  }

  /** `unique(mapping)`: the same keys, each mapped to the sole element of
      its set; a ValueError naming a key whose set is not a singleton. */
  method Unique<K(==), V(==)>(mapping: map<K, set<V>>) returns (r: Result<map<K, V>, UniqueError<K>>)
    ensures r.Success? <==> AllSingletons(mapping)
    ensures r.Success? ==> r.value.Keys == mapping.Keys && forall k :: k in mapping ==> mapping[k] == {r.value[k]}
    ensures r.Failure? ==> r.error.key in mapping && r.error.size == |mapping[r.error.key]| && r.error.size != 1
  {
    var ret: map<K, V> := map[];
    var todo := mapping.Keys;
    while todo != {}
      invariant todo <= mapping.Keys
      invariant ret.Keys == mapping.Keys - todo
      invariant forall k :: k in ret ==> mapping[k] == {ret[k]}
      decreases |todo|
    {
      var key :| key in todo;
      var valueSet := mapping[key];
      if |valueSet| != 1 {
        return Failure(ValueError(key, |valueSet|));
      }
      var value :| value in valueSet;
      SingletonIs(valueSet, value);
      ret := ret[key := value];
      todo := todo - {key};
    }
    return Success(ret);
  }

  // ---------------------------------------------------------------------
  // Wrapper

  /** A frozen `Wrapper(original, extra)`. */
  datatype Wrapper<O, E> = Wrapper(original: O, extra: E)

  /** `Wrapper.glue(extra)`: a transform that pairs the object it is given
      with `extra`. */
  function Glue<O, E>(extra: E): O -> Wrapper<O, E>
  {
    o => Wrapper(o, extra)
  }

  /** The wrapper `glue(extra)` makes of `o` has `o` as its original and
      `extra` as its extra data. */
  lemma GlueWraps<O, E>(extra: E, o: O)
    ensures Glue(extra)(o).original == o && Glue(extra)(o).extra == extra
  {
  }
}
