/** What the descriptor-resolution pass of `addDevice` computes: for every collected
    operation, in order, the descriptor named after its parameter is looked up in the
    working list (the descriptors fetched from the metadata service, extended as the pass
    goes), created on demand when the parameter is one some command uses, and added to the
    registry unless a descriptor of that name is already there. Descriptor equality is
    taken to be equality of names. */
module Descriptors {
  import opened Domain

  function Names(ds: seq<ValueDescriptor>): set<string>
  {
    set i | 0 <= i < |ds| :: ds[i].name
  }

  /** No two descriptors share a name: the registry's invariant. */
  predicate DistinctNames(ds: seq<ValueDescriptor>)
  {
    forall i, j :: 0 <= i < j < |ds| ==> ds[i].name != ds[j].name
  }

  /** The descriptors named `n`, in order (the filter `descriptorExists` streams through). */
  function WithName(ds: seq<ValueDescriptor>, n: string): (r: seq<ValueDescriptor>)
    ensures forall d :: d in r ==> d.name == n && d in ds
    ensures r == [] <==> n !in Names(ds)
    decreases |ds|
  {
    if ds == [] then []
    else
      NamesCons(ds);
      (if ds[0].name == n then [ds[0]] else []) + WithName(ds[1..], n)
  }

  /** The first descriptor named `n`, if any. */
  function FirstNamed(ds: seq<ValueDescriptor>, n: string): (r: Option<ValueDescriptor>)
    ensures r.Some? <==> n in Names(ds)
    ensures r.Some? ==> r.value.name == n && r.value in ds
    decreases |ds|
  {
    if ds == [] then None
    else
      NamesCons(ds);
      if ds[0].name == n then Some(ds[0]) else FirstNamed(ds[1..], n)
  }

  lemma NamesCons(ds: seq<ValueDescriptor>)
    requires ds != []
    ensures Names(ds) == {ds[0].name} + Names(ds[1..])
  {
    forall n | n in Names(ds) ensures n in {ds[0].name} + Names(ds[1..]) {
      var i :| 0 <= i < |ds| && ds[i].name == n;
      if i > 0 { assert ds[1..][i - 1] == ds[i]; }
    }
    forall n | n in Names(ds[1..]) ensures n in Names(ds) {
      var i :| 0 <= i < |ds[1..]| && ds[1..][i].name == n;
      assert ds[i + 1] == ds[1..][i];
    }
  }

  lemma NamesAppend(ds: seq<ValueDescriptor>, d: ValueDescriptor)
    ensures Names(ds + [d]) == Names(ds) + {d.name}
  {
    forall n | n in Names(ds + [d]) ensures n in Names(ds) + {d.name} {
      var i :| 0 <= i < |ds + [d]| && (ds + [d])[i].name == n;
      if i < |ds| { assert (ds + [d])[i] == ds[i]; }
    }
    forall n | n in Names(ds) ensures n in Names(ds + [d]) {
      var i :| 0 <= i < |ds| && ds[i].name == n;
      assert (ds + [d])[i] == ds[i];
    }
    assert (ds + [d])[|ds|] == d;
  }

  /** Appending to a list does not change the first descriptor of a name it already has. */
  lemma {:induction false} FirstNamedAppend(ds: seq<ValueDescriptor>, more: seq<ValueDescriptor>, n: string)
    requires n in Names(ds)
    ensures FirstNamed(ds + more, n) == FirstNamed(ds, n)
    decreases |ds|
  {
    NamesCons(ds);
    assert (ds + more)[0] == ds[0];
    if ds[0].name != n {
      assert (ds + more)[1..] == ds[1..] + more;
      FirstNamedAppend(ds[1..], more, n);
    }
  }

  /** Appending a descriptor of a new name makes it the first of that name. */
  lemma {:induction false} FirstNamedAppendNew(ds: seq<ValueDescriptor>, d: ValueDescriptor)
    requires d.name !in Names(ds)
    ensures FirstNamed(ds + [d], d.name) == Some(d)
    decreases |ds|
  {
    if ds != [] {
      NamesCons(ds);
      assert (ds + [d])[0] == ds[0];
      assert (ds + [d])[1..] == ds[1..] + [d];
      FirstNamedAppendNew(ds[1..], d);
    }
  }

  /** The registry's contains-by-name test: `d` itself is appended unless a descriptor of
      its name is already registered, in which case the registry is left as it is. */
  function AddAbsent(registry: seq<ValueDescriptor>, d: ValueDescriptor): (r: seq<ValueDescriptor>)
    ensures DistinctNames(registry) ==> DistinctNames(r)
    ensures registry <= r
    ensures Names(r) == Names(registry) + {d.name}
    ensures d.name !in Names(registry) ==> r == registry + [d]
    ensures d.name in Names(registry) ==> r == registry
  {
    NamesAppend(registry, d);
    if d.name in Names(registry) then registry else registry + [d]
  }

  /** The first device resource named `n`, if any. */
  function FindObject(objs: seq<DeviceObject>, n: string): (r: Option<DeviceObject>)
    ensures r.Some? <==> exists i :: 0 <= i < |objs| && objs[i].name == n
    ensures r.Some? ==> r.value.name == n && r.value in objs
    decreases |objs|
  {
    if objs == [] then None
    else if objs[0].name == n then Some(objs[0])
    else
      var r := FindObject(objs[1..], n);
      assert forall i :: 1 <= i < |objs| ==> objs[1..][i - 1] == objs[i];
      r
  }

  /** A new descriptor named `name`, typed after the first character of the device
      resource's type tag, carrying whatever identifier the metadata service's `add`
      returned for it, and none when that call failed (`register` answers `None`). */
  function CreateDescriptor(name: string, deviceObject: DeviceObject,
                            register: ValueDescriptor -> Option<string>): (d: ValueDescriptor)
    requires |deviceObject.value.valueType| > 0
    ensures d.name == name
    ensures d.valueType == deviceObject.value.valueType[0]
    ensures d.id == register(d.(id := None))
  {
    var unregistered := ValueDescriptor(name, deviceObject.value.valueType[0], None);
    unregistered.(id := register(unregistered))
  }

  /** A descriptor can be built for the operation's object: the lookup by object name
      finds a device resource, and its type tag has a first character. */
  predicate Creatable(objs: seq<DeviceObject>, objectName: string)
  {
    FindObject(objs, objectName).Some? && |FindObject(objs, objectName).value.value.valueType| > 0
  }

  /** Operation `i` is where a descriptor for its parameter gets created: the parameter is
      not among the fetched names `known`, some command uses it, and no earlier operation
      has the same parameter. */
  predicate FirstNeed(ops: seq<ResourceOperation>, known: set<string>, used: seq<string>, i: int)
    requires 0 <= i < |ops|
  {
    && ops[i].parameter !in known
    && ops[i].parameter in used
    && forall j :: 0 <= j < i ==> ops[j].parameter != ops[i].parameter
  }

  /** Every creation the pass performs finds its device resource. */
  predicate Resolvable(ops: seq<ResourceOperation>, known: set<string>, used: seq<string>, objs: seq<DeviceObject>)
  {
    forall i :: 0 <= i < |ops| && FirstNeed(ops, known, used, i) ==> Creatable(objs, ops[i].objectName)
  }

  /** The parameters the pass resolves: those fetched or used by some command. */
  function ResolvedNames(ops: seq<ResourceOperation>, known: set<string>, used: seq<string>): set<string>
  {
    set i | 0 <= i < |ops| && (ops[i].parameter in known || ops[i].parameter in used) :: ops[i].parameter
  }

  lemma ResolvedNamesInit(ops: seq<ResourceOperation>, known: set<string>, used: seq<string>)
    requires ops != []
    ensures ResolvedNames(ops, known, used) ==
      ResolvedNames(Init(ops), known, used) +
      (if Last(ops).parameter in known || Last(ops).parameter in used then {Last(ops).parameter} else {})
  {
    var init := Init(ops);
    forall n | n in ResolvedNames(ops, known, used)
      ensures n in ResolvedNames(init, known, used) +
        (if Last(ops).parameter in known || Last(ops).parameter in used then {Last(ops).parameter} else {})
    {
      var i :| 0 <= i < |ops| && (ops[i].parameter in known || ops[i].parameter in used) && ops[i].parameter == n;
      if i < |ops| - 1 { assert init[i] == ops[i]; }
    }
    forall n | n in ResolvedNames(init, known, used) ensures n in ResolvedNames(ops, known, used) {
      var i :| 0 <= i < |init| && (init[i].parameter in known || init[i].parameter in used) && init[i].parameter == n;
      assert init[i] == ops[i];
    }
  }

  lemma ResolvablePrefix(ops: seq<ResourceOperation>, known: set<string>, used: seq<string>,
                         objs: seq<DeviceObject>, k: int)
    requires 0 <= k <= |ops| && Resolvable(ops, known, used, objs)
    ensures Resolvable(ops[..k], known, used, objs)
  {
    forall i | 0 <= i < k && FirstNeed(ops[..k], known, used, i)
      ensures Creatable(objs, ops[..k][i].objectName)
    {
      assert forall j :: 0 <= j <= i ==> ops[..k][j] == ops[j];
      assert FirstNeed(ops, known, used, i);
    }
  }

  /** When operation `i` finds no descriptor and its parameter is used, it is the first
      operation needing that parameter, so the creation it performs is defined. */
  lemma CreationPossible(ops: seq<ResourceOperation>, known: set<string>, used: seq<string>,
                         objs: seq<DeviceObject>, i: int)
    requires 0 <= i < |ops| && Resolvable(ops, known, used, objs)
    requires ops[i].parameter !in known + ResolvedNames(ops[..i], known, used)
    requires ops[i].parameter in used
    ensures FirstNeed(ops, known, used, i)
    ensures Creatable(objs, ops[i].objectName)
  {
    assert forall j :: 0 <= j < i ==> ops[..i][j] == ops[j];
  }

  /** The working list and the registry as the pass leaves them. */
  datatype Resolution = Resolution(working: seq<ValueDescriptor>, registry: seq<ValueDescriptor>)

  /** One operation's resolution: reuse the first descriptor of the parameter's name in
      the working list; failing that, skip the operation when no command uses the
      parameter, and otherwise create the descriptor. A resolved descriptor is appended to
      the working list and added to the registry unless its name is there. */
  function ResolveStep(op: ResourceOperation, prev: Resolution, used: seq<string>,
                       objs: seq<DeviceObject>, register: ValueDescriptor -> Option<string>): (r: Resolution)
    requires op.parameter !in Names(prev.working) && op.parameter in used ==> Creatable(objs, op.objectName)
    ensures Names(r.working) == Names(prev.working) +
      (if op.parameter in Names(prev.working) || op.parameter in used then {op.parameter} else {})
  {
    match FirstNamed(prev.working, op.parameter)
    case Some(d) =>
      NamesAppend(prev.working, d);
      Resolution(prev.working + [d], AddAbsent(prev.registry, d))
    case None =>
      if op.parameter !in used then prev
      else
        var d := CreateDescriptor(op.parameter, FindObject(objs, op.objectName).value, register);
        NamesAppend(prev.working, d);
        Resolution(prev.working + [d], AddAbsent(prev.registry, d))
  }

  /** The pass over `ops` from state `st`. The working list ends up naming exactly the
      fetched names and the resolved parameters. */
  function ResolveAll(ops: seq<ResourceOperation>, st: Resolution, used: seq<string>,
                      objs: seq<DeviceObject>, register: ValueDescriptor -> Option<string>): (r: Resolution)
    requires Resolvable(ops, Names(st.working), used, objs)
    ensures Names(r.working) == Names(st.working) + ResolvedNames(ops, Names(st.working), used)
    decreases |ops|
  {
    if ops == [] then st
    else
      var known := Names(st.working);
      ResolvablePrefix(ops, known, used, objs, |ops| - 1);
      ResolvedNamesInit(ops, known, used);
      var prev := ResolveAll(Init(ops), st, used, objs, register);
      var op := Last(ops);
      if op.parameter !in Names(prev.working) && op.parameter in used then
        CreationPossible(ops, known, used, objs, |ops| - 1);
        ResolveStep(op, prev, used, objs, register)
      else
        ResolveStep(op, prev, used, objs, register)
  }

  /** The working list and the registry only grow at the end. */
  lemma {:induction false} ResolveOnlyAppends(ops: seq<ResourceOperation>, st: Resolution, used: seq<string>,
                                              objs: seq<DeviceObject>, register: ValueDescriptor -> Option<string>)
    requires Resolvable(ops, Names(st.working), used, objs)
    ensures st.working <= ResolveAll(ops, st, used, objs, register).working
    ensures st.registry <= ResolveAll(ops, st, used, objs, register).registry
    decreases |ops|
  {
    if ops != [] {
      ResolvablePrefix(ops, Names(st.working), used, objs, |ops| - 1);
      ResolveOnlyAppends(Init(ops), st, used, objs, register);
    }
  }

  /** The registry never gains a second descriptor of a name. */
  lemma {:induction false} ResolveKeepsNamesDistinct(ops: seq<ResourceOperation>, st: Resolution, used: seq<string>,
                                                     objs: seq<DeviceObject>, register: ValueDescriptor -> Option<string>)
    requires Resolvable(ops, Names(st.working), used, objs)
    requires DistinctNames(st.registry)
    ensures DistinctNames(ResolveAll(ops, st, used, objs, register).registry)
    decreases |ops|
  {
    if ops != [] {
      ResolvablePrefix(ops, Names(st.working), used, objs, |ops| - 1);
      ResolveKeepsNamesDistinct(Init(ops), st, used, objs, register);
    }
  }

  /** The registry gains exactly the names of the resolved parameters. */
  lemma {:induction false} ResolveRegistryNames(ops: seq<ResourceOperation>, st: Resolution, used: seq<string>,
                                                objs: seq<DeviceObject>, register: ValueDescriptor -> Option<string>)
    requires Resolvable(ops, Names(st.working), used, objs)
    ensures Names(ResolveAll(ops, st, used, objs, register).registry) ==
      Names(st.registry) + ResolvedNames(ops, Names(st.working), used)
    decreases |ops|
  {
    if ops != [] {
      ResolvablePrefix(ops, Names(st.working), used, objs, |ops| - 1);
      ResolvedNamesInit(ops, Names(st.working), used);
      ResolveRegistryNames(Init(ops), st, used, objs, register);
    }
  }

  /** A parameter that is neither fetched nor used by a command gets no descriptor: none
      is created for it and the registry does not gain its name. */
  lemma UnusedParameterSkipped(ops: seq<ResourceOperation>, st: Resolution, used: seq<string>,
                               objs: seq<DeviceObject>, register: ValueDescriptor -> Option<string>, p: string)
    requires Resolvable(ops, Names(st.working), used, objs)
    requires p !in Names(st.working) && p !in used && p !in Names(st.registry)
    ensures p !in Names(ResolveAll(ops, st, used, objs, register).working)
    ensures p !in Names(ResolveAll(ops, st, used, objs, register).registry)
  {
    ResolveRegistryNames(ops, st, used, objs, register);
  }

  /** Every descriptor the pass appends to the working list is the first of its name
      there: a later operation reuses the descriptor an earlier one found or created. */
  lemma {:induction false} ResolvedDescriptorsReused(ops: seq<ResourceOperation>, st: Resolution, used: seq<string>,
                                                     objs: seq<DeviceObject>, register: ValueDescriptor -> Option<string>)
    requires Resolvable(ops, Names(st.working), used, objs)
    ensures var w := ResolveAll(ops, st, used, objs, register).working;
      forall i :: |st.working| <= i < |w| ==> FirstNamed(w, w[i].name) == Some(w[i])
    decreases |ops|
  {
    if ops != [] {
      ResolvablePrefix(ops, Names(st.working), used, objs, |ops| - 1);
      ResolveOnlyAppends(Init(ops), st, used, objs, register);
      ResolveOnlyAppends(ops, st, used, objs, register);
      ResolvedDescriptorsReused(Init(ops), st, used, objs, register);
      var prev := ResolveAll(Init(ops), st, used, objs, register).working;
      var w := ResolveAll(ops, st, used, objs, register).working;
      if w != prev {
        var d := Last(w);
        assert w == prev + [d];
        forall i | |st.working| <= i < |w| ensures FirstNamed(w, w[i].name) == Some(w[i]) {
          if i < |prev| {
            assert w[i] == prev[i];
            FirstNamedAppend(prev, [d], prev[i].name);
          } else if d.name in Names(prev) {
            FirstNamedAppend(prev, [d], d.name);
          } else {
            FirstNamedAppendNew(prev, d);
          }
        }
      }
    }
  }

  /** A descriptor resolved for a fetched name is the fetched one. */
  lemma FetchedDescriptorsKept(ops: seq<ResourceOperation>, st: Resolution, used: seq<string>,
                               objs: seq<DeviceObject>, register: ValueDescriptor -> Option<string>, p: string)
    requires Resolvable(ops, Names(st.working), used, objs)
    requires p in Names(st.working)
    ensures FirstNamed(ResolveAll(ops, st, used, objs, register).working, p) == FirstNamed(st.working, p)
  {
    ResolveOnlyAppends(ops, st, used, objs, register);
    var w := ResolveAll(ops, st, used, objs, register).working;
    assert w == st.working + w[|st.working|..];
    FirstNamedAppend(st.working, w[|st.working|..], p);
  }

  /** Every name the registry gained during the pass is registered with the descriptor
      the working list resolves it to. */
  ghost predicate RegistryAgrees(r: Resolution, base: set<string>)
  {
    forall p :: p in Names(r.registry) && p !in base ==>
      p in Names(r.working) && FirstNamed(r.registry, p) == FirstNamed(r.working, p)
  }

  /** One operation's resolution keeps the registry in agreement with the working list. */
  lemma ResolveStepAgrees(op: ResourceOperation, prev: Resolution, used: seq<string>,
                          objs: seq<DeviceObject>, register: ValueDescriptor -> Option<string>, base: set<string>)
    requires op.parameter !in Names(prev.working) && op.parameter in used ==> Creatable(objs, op.objectName)
    requires RegistryAgrees(prev, base)
    ensures RegistryAgrees(ResolveStep(op, prev, used, objs, register), base)
  {
    var r := ResolveStep(op, prev, used, objs, register);
    if r != prev {
      var d := r.working[|r.working| - 1];
      assert r.working == prev.working + [d];
      assert r.registry == AddAbsent(prev.registry, d);
      assert d.name == op.parameter;
      NamesAppend(prev.working, d);
      forall p | p in Names(r.registry) && p !in base
        ensures p in Names(r.working) && FirstNamed(r.registry, p) == FirstNamed(r.working, p)
      {
        if p != d.name {
          assert p in Names(prev.registry);
          FirstNamedAppend(prev.working, [d], p);
          if r.registry != prev.registry {
            FirstNamedAppend(prev.registry, [d], p);
          }
        } else if d.name in Names(prev.registry) {
          FirstNamedAppend(prev.working, [d], p);
        } else if d.name in Names(prev.working) {
          FirstNamedAppendNew(prev.registry, d);
          FirstNamedAppend(prev.working, [d], p);
        } else {
          FirstNamedAppendNew(prev.registry, d);
          FirstNamedAppendNew(prev.working, d);
        }
      }
    }
  }

  lemma {:induction false} ResolveAllAgrees(ops: seq<ResourceOperation>, st: Resolution, used: seq<string>,
                                            objs: seq<DeviceObject>, register: ValueDescriptor -> Option<string>)
    requires Resolvable(ops, Names(st.working), used, objs)
    ensures RegistryAgrees(ResolveAll(ops, st, used, objs, register), Names(st.registry))
    decreases |ops|
  {
    if ops != [] {
      var known := Names(st.working);
      ResolvablePrefix(ops, known, used, objs, |ops| - 1);
      ResolveAllAgrees(Init(ops), st, used, objs, register);
      var prev := ResolveAll(Init(ops), st, used, objs, register);
      var op := Last(ops);
      if op.parameter !in Names(prev.working) && op.parameter in used {
        ResolvedNamesInit(ops, known, used);
        CreationPossible(ops, known, used, objs, |ops| - 1);
      }
      ResolveStepAgrees(op, prev, used, objs, register, Names(st.registry));
    }
  }

  /** A name the registry did not hold before the pass but holds after it is registered
      with the very descriptor the pass resolved for it. */
  lemma RegistryHoldsResolved(ops: seq<ResourceOperation>, st: Resolution, used: seq<string>,
                              objs: seq<DeviceObject>, register: ValueDescriptor -> Option<string>, p: string)
    requires Resolvable(ops, Names(st.working), used, objs)
    requires p !in Names(st.registry) && p in Names(ResolveAll(ops, st, used, objs, register).registry)
    ensures FirstNamed(ResolveAll(ops, st, used, objs, register).registry, p) ==
      FirstNamed(ResolveAll(ops, st, used, objs, register).working, p)
  {
    ResolveAllAgrees(ops, st, used, objs, register);
  }

  /** The last operation appends at most one descriptor to the working list. */
  lemma ResolveLastStep(ops: seq<ResourceOperation>, st: Resolution, used: seq<string>,
                        objs: seq<DeviceObject>, register: ValueDescriptor -> Option<string>)
    requires Resolvable(ops, Names(st.working), used, objs)
    requires ops != []
    ensures Resolvable(Init(ops), Names(st.working), used, objs)
    ensures var prev := ResolveAll(Init(ops), st, used, objs, register).working;
      var w := ResolveAll(ops, st, used, objs, register).working;
      w == prev || (w != [] && w == prev + [w[|w| - 1]])
  {
    ResolvablePrefix(ops, Names(st.working), used, objs, |ops| - 1);
  }

  /** The last operation, when it is the first to need its parameter, creates the
      descriptor the working list then holds for that name. */
  lemma CreatedAtLast(ops: seq<ResourceOperation>, st: Resolution, used: seq<string>,
                      objs: seq<DeviceObject>, register: ValueDescriptor -> Option<string>)
    requires Resolvable(ops, Names(st.working), used, objs)
    requires ops != [] && FirstNeed(ops, Names(st.working), used, |ops| - 1)
    ensures FirstNamed(ResolveAll(ops, st, used, objs, register).working, Last(ops).parameter) ==
      Some(CreateDescriptor(Last(ops).parameter, FindObject(objs, Last(ops).objectName).value, register))
  {
    var known := Names(st.working);
    ResolvablePrefix(ops, known, used, objs, |ops| - 1);
    var prev := ResolveAll(Init(ops), st, used, objs, register).working;
    var w := ResolveAll(ops, st, used, objs, register).working;
    assert Last(ops).parameter !in ResolvedNames(Init(ops), known, used);
    FirstNamedAppendNew(prev, w[|w| - 1]);
  }

  /** The descriptor for a parameter that was not fetched is created from the first
      operation using it: named after the parameter, typed after that operation's device
      resource, carrying the identifier registration returned (none if it failed). */
  lemma {:induction false} CreatedFromFirstNeed(ops: seq<ResourceOperation>, st: Resolution, used: seq<string>,
                                                objs: seq<DeviceObject>, register: ValueDescriptor -> Option<string>, k: int)
    requires Resolvable(ops, Names(st.working), used, objs)
    requires 0 <= k < |ops| && FirstNeed(ops, Names(st.working), used, k)
    ensures FirstNamed(ResolveAll(ops, st, used, objs, register).working, ops[k].parameter) ==
      Some(CreateDescriptor(ops[k].parameter, FindObject(objs, ops[k].objectName).value, register))
    decreases |ops|
  {
    if k == |ops| - 1 {
      CreatedAtLast(ops, st, used, objs, register);
    } else {
      var known := Names(st.working);
      ResolveLastStep(ops, st, used, objs, register);
      var prev := ResolveAll(Init(ops), st, used, objs, register).working;
      var w := ResolveAll(ops, st, used, objs, register).working;
      var p := ops[k].parameter;
      assert forall j :: 0 <= j <= k ==> Init(ops)[j] == ops[j];
      assert FirstNeed(Init(ops), known, used, k);
      CreatedFromFirstNeed(Init(ops), st, used, objs, register, k);
      if w != prev {
        FirstNamedAppend(prev, [w[|w| - 1]], p);
      }
    }
  }

  /** A fetched descriptor that some operation uses, and whose name was not registered,
      is registered as fetched. */
  lemma FetchedDescriptorRegistered(ops: seq<ResourceOperation>, st: Resolution, used: seq<string>,
                                    objs: seq<DeviceObject>, register: ValueDescriptor -> Option<string>, k: int)
    requires Resolvable(ops, Names(st.working), used, objs)
    requires 0 <= k < |ops| && ops[k].parameter in Names(st.working) && ops[k].parameter !in Names(st.registry)
    ensures FirstNamed(ResolveAll(ops, st, used, objs, register).registry, ops[k].parameter) ==
      FirstNamed(st.working, ops[k].parameter)
  {
    ResolveRegistryNames(ops, st, used, objs, register);
    assert ops[k].parameter in ResolvedNames(ops, Names(st.working), used);
    RegistryHoldsResolved(ops, st, used, objs, register, ops[k].parameter);
    FetchedDescriptorsKept(ops, st, used, objs, register, ops[k].parameter);
  }

  /** A descriptor created for an unfetched, unregistered, used parameter is registered:
      the registry holds the created descriptor, carrying no identifier when
      registration with the metadata service failed. */
  lemma CreatedDescriptorRegistered(ops: seq<ResourceOperation>, st: Resolution, used: seq<string>,
                                    objs: seq<DeviceObject>, register: ValueDescriptor -> Option<string>, k: int)
    requires Resolvable(ops, Names(st.working), used, objs)
    requires 0 <= k < |ops| && FirstNeed(ops, Names(st.working), used, k)
    requires ops[k].parameter !in Names(st.registry)
    ensures var d := CreateDescriptor(ops[k].parameter, FindObject(objs, ops[k].objectName).value, register);
      && FirstNamed(ResolveAll(ops, st, used, objs, register).registry, ops[k].parameter) == Some(d)
      && (register(d.(id := None)).None? ==> d.id.None?)
  {
    ResolveRegistryNames(ops, st, used, objs, register);
    assert ops[k].parameter in ResolvedNames(ops, Names(st.working), used);
    RegistryHoldsResolved(ops, st, used, objs, register, ops[k].parameter);
    CreatedFromFirstNeed(ops, st, used, objs, register, k);
  }
}
