/** The profile cache: per device, the operation map and the object map derived from the
    device's profile, plus the registry of value descriptors shared by all devices.

    The metadata service is given to each call as data: `profileForName` answers the
    profile lookup by name, `remoteDescriptors` is the answer of the descriptor listing
    (`None` when the call failed), and `register` answers the registration of a new
    descriptor with its identifier (`None` when the call failed). */
module ProfileStore {
  import opened Domain
  import opened Text
  import opened Commands
  import opened Descriptors

  // ---------------------------------------------------------------------------
  // What a device's profile contributes

  function ResourcesOf(profile: Option<DeviceProfile>): seq<ProfileResource>
  {
    if profile.Some? && profile.value.resources.Some? then profile.value.resources.value else []
  }

  function DeviceResourcesOf(profile: Option<DeviceProfile>): seq<DeviceObject>
  {
    if profile.Some? && profile.value.deviceResources.Some? then profile.value.deviceResources.value else []
  }

  /** The value-descriptor names the commands reference, command by command. */
  function AssociatedDescriptors(cs: seq<Command>): (r: seq<string>)
    ensures forall p :: p in r <==> exists i :: 0 <= i < |cs| && p in cs[i].associatedValueDescriptors
    decreases |cs|
  {
    if cs == [] then []
    else
      var r := AssociatedDescriptors(Init(cs)) + Last(cs).associatedValueDescriptors;
      assert forall i :: 0 <= i < |cs| - 1 ==> Init(cs)[i] == cs[i];
      r
  }

  /** The "used" parameter names: those some command of the profile references. */
  function UsedDescriptors(profile: Option<DeviceProfile>): seq<string>
  {
    if profile.Some? && profile.value.commands.Some? then AssociatedDescriptors(profile.value.commands.value) else []
  }

  /** The device's operation map: pass 1 over the explicit resources, then pass 2. */
  function DeviceOperationsOf(profile: Option<DeviceProfile>): DeviceOperations
  {
    Materialized(Declared(map[], ResourcesOf(profile)), DeviceResourcesOf(profile))
  }

  /** The operations collected by passes 1 and 2, in order. */
  function CollectedOps(profile: Option<DeviceProfile>): seq<ResourceOperation>
  {
    DeclaredOps(ResourcesOf(profile)) + MaterializedOps(Declared(map[], ResourcesOf(profile)), DeviceResourcesOf(profile))
  }

  function DeviceObjectsOf(profile: Option<DeviceProfile>): map<string, ServiceObject>
  {
    ObjectsOf(map[], DeviceResourcesOf(profile))
  }

  /** The profile after completion: one that lacks its device resources is replaced by
      the full profile fetched by name (which may be absent). */
  function Completed(profile: Option<DeviceProfile>, profileForName: string -> Option<DeviceProfile>): Option<DeviceProfile>
  {
    if profile.Some? && profile.value.deviceResources.None? then profileForName(profile.value.name) else profile
  }

  /** The working descriptor list: the fetched list, empty when the listing failed. */
  function Fetched(remoteDescriptors: Option<seq<ValueDescriptor>>): seq<ValueDescriptor>
  {
    if remoteDescriptors.Some? then remoteDescriptors.value else []
  }

  /** `addDevice` runs to completion: a device with a profile reference ends up with a
      profile that lists its device resources, and every descriptor it has to create
      finds the device resource its operation names. */
  predicate CanAdd(profile: Option<DeviceProfile>, profileForName: string -> Option<DeviceProfile>,
                   remoteDescriptors: Option<seq<ValueDescriptor>>)
  {
    profile.None? ||
    var completed := Completed(profile, profileForName);
    && completed.Some?
    && completed.value.deviceResources.Some?
    && Resolvable(CollectedOps(completed), Names(Fetched(remoteDescriptors)),
                  UsedDescriptors(completed), DeviceResourcesOf(completed))
  }

  // ---------------------------------------------------------------------------
  // Properties of the derivation

  /** Every device resource of the profile has a handle under its exact name, and there
      are no other handles. */
  lemma ObjectsCoverProfile(profile: Option<DeviceProfile>)
    ensures DeviceObjectsOf(profile).Keys == ObjectNames(DeviceResourcesOf(profile))
    ensures forall i :: 0 <= i < |DeviceResourcesOf(profile)| ==> DeviceResourcesOf(profile)[i].name in DeviceObjectsOf(profile)
  {
    ObjectsKeysAre(map[], DeviceResourcesOf(profile));
  }

  /** The operation map has an entry under every explicit resource's and every device
      resource's lower-cased name, and no other. */
  lemma OperationKeys(profile: Option<DeviceProfile>)
    ensures DeviceOperationsOf(profile).Keys == DeclaredKeys(ResourcesOf(profile)) + ObjectKeys(DeviceResourcesOf(profile))
  {
    DeclaredKeysAre(map[], ResourcesOf(profile));
    MaterializedKeysAre(Declared(map[], ResourcesOf(profile)), DeviceResourcesOf(profile));
  }

  /** An explicit resource is authoritative: its entry holds exactly its declared get and
      set lists, whatever the device resources' flags say (when two resources share a
      lower-cased name, the later declaration is the one kept). */
  lemma ExplicitResourcesAuthoritative(profile: Option<DeviceProfile>, i: int)
    requires 0 <= i < |ResourcesOf(profile)|
    requires forall j :: i < j < |ResourcesOf(profile)| ==>
      Lower(ResourcesOf(profile)[j].name) != Lower(ResourcesOf(profile)[i].name)
    ensures Lower(ResourcesOf(profile)[i].name) in DeviceOperationsOf(profile)
    ensures DeviceOperationsOf(profile)[Lower(ResourcesOf(profile)[i].name)].Keys == {GET, SET}
    ensures DeviceOperationsOf(profile)[Lower(ResourcesOf(profile)[i].name)][GET] == ResourcesOf(profile)[i].getOps
    ensures DeviceOperationsOf(profile)[Lower(ResourcesOf(profile)[i].name)][SET] == ResourcesOf(profile)[i].setOps
  {
    var rs := ResourcesOf(profile);
    LastDeclarationWins(map[], rs, i);
    CoveredKeysKept(Declared(map[], rs), DeviceResourcesOf(profile), Lower(rs[i].name));
  }

  /** No operation is synthesised for a device resource whose lower-cased name an explicit
      resource declares; each synthesised operation targets a device resource of the
      profile and uses its name as parameter. */
  lemma ExplicitResourcesSuppressSynthesis(profile: Option<DeviceProfile>)
    ensures forall op :: op in MaterializedOps(Declared(map[], ResourcesOf(profile)), DeviceResourcesOf(profile)) ==>
      && Lower(op.objectName) !in DeclaredKeys(ResourcesOf(profile))
      && op.parameter == op.objectName
      && op.objectName in ObjectNames(DeviceResourcesOf(profile))
  {
    var rs := ResourcesOf(profile);
    var objs := DeviceResourcesOf(profile);
    DeclaredKeysAre(map[], rs);
    SynthesizedOnlyUncovered(Declared(map[], rs), objs);
    forall op | op in MaterializedOps(Declared(map[], rs), objs) ensures op.objectName in ObjectNames(objs) {
      var i :| 0 <= i < |objs| && objs[i].name == op.objectName;
    }
  }

  /** A device resource that no explicit resource and no earlier device resource covers
      gets an entry synthesised from its read/write flag: `get` exactly when the flag
      contains `r` or `R`, `set` exactly when it contains `w` or `W`, each a single
      operation on the resource; with neither, the entry is present and empty. */
  lemma FlagsSynthesizeOperations(profile: Option<DeviceProfile>, i: int)
    requires 0 <= i < |DeviceResourcesOf(profile)|
    requires Uncovered(Declared(map[], ResourcesOf(profile)), DeviceResourcesOf(profile), i)
    ensures Lower(DeviceResourcesOf(profile)[i].name) in DeviceOperationsOf(profile)
    ensures var o := DeviceResourcesOf(profile)[i];
      var entry := DeviceOperationsOf(profile)[Lower(o.name)];
      && (GET in entry <==> 'r' in o.value.readWrite || 'R' in o.value.readWrite)
      && (SET in entry <==> 'w' in o.value.readWrite || 'W' in o.value.readWrite)
      && (GET in entry ==> entry[GET] == Some([ResourceOperation(GET, o.name, o.name)]))
      && (SET in entry ==> entry[SET] == Some([ResourceOperation(SET, o.name, o.name)]))
      && entry.Keys <= {GET, SET}
  {
    UncoveredSynthesized(Declared(map[], ResourcesOf(profile)), DeviceResourcesOf(profile), i);
  }

  /** Every operation stored in the device's operation map is among the collected
      operations that the descriptor pass resolves. */
  lemma StoredOperationsCollected(profile: Option<DeviceProfile>)
    ensures OpsWithin(DeviceOperationsOf(profile), CollectedOps(profile))
  {
    var rs := ResourcesOf(profile);
    DeclaredWithin(map[], rs, []);
    assert [] + DeclaredOps(rs) == DeclaredOps(rs);
    MaterializedWithin(Declared(map[], rs), DeviceResourcesOf(profile), DeclaredOps(rs));
  }

  /** A profile with one readable device resource `Temp`, no explicit resources, and one
      command that uses the parameter `Temp`. */
  const TempResource := DeviceObject("Temp", PropertyValue("Float", "R"))
  const TempProfile := Some(DeviceProfile("TempSensor", Some([TempResource]), None, Some([Command("read", ["Temp"])])))
  const TempGet := ResourceOperation(GET, "Temp", "Temp")

  /** Passes 1 and 2 for that profile store one handle under `Temp` and one synthesised
      `get` under `temp`, and collect that one operation. */
  lemma SingleReadableResourceDerived()
    ensures DeviceObjectsOf(TempProfile) == map["Temp" := CreateServiceObject(TempResource)]
    ensures DeviceOperationsOf(TempProfile) == map["temp" := map[GET := Some([TempGet])]]
    ensures CollectedOps(TempProfile) == [TempGet]
  {
    assert ResourcesOf(TempProfile) == [] && DeviceResourcesOf(TempProfile) == [TempResource];
    assert Declared(map[], []) == map[] && DeclaredOps([]) == [];
    assert Init([TempResource]) == [];
    assert Lower("Temp") == "temp" && Lower("R") == "r";
    assert Uncovered(map[], [TempResource], 0);
    assert Synthesize(TempResource) == map[GET := Some([TempGet])];
    assert SynthesizedOps(TempResource) == [TempGet];
    assert MaterializedOps(map[], [TempResource]) == [] + [TempGet];
    assert Materialized(map[], [TempResource]) == map[][Lower("Temp") := Synthesize(TempResource)];
    assert ObjectsOf(map[], [TempResource]) == map[]["Temp" := CreateServiceObject(TempResource)];
  }

  /** Adding a device with that profile, with an empty fetched list and an empty registry,
      runs to completion and registers exactly one descriptor: the one created for `Temp`
      from the device resource. */
  lemma SingleReadableResourceRegistered(register: ValueDescriptor -> Option<string>)
    ensures CanAdd(TempProfile, _ => None, Some([]))
    ensures ResolveAll(CollectedOps(TempProfile), Resolution([], []), UsedDescriptors(TempProfile),
                       DeviceResourcesOf(TempProfile), register).registry
            == [CreateDescriptor("Temp", TempResource, register)]
  {
    SingleReadableResourceDerived();
    assert UsedDescriptors(TempProfile) == ["Temp"];
    assert DeviceResourcesOf(TempProfile) == [TempResource];
    assert FindObject([TempResource], "Temp") == Some(TempResource);
    assert Creatable([TempResource], "Temp");
    assert Names([]) == {};
    assert Init([TempGet]) == [];
  }

  // ---------------------------------------------------------------------------
  // The cache

  class ProfileStoreImpl {
    var valueDescriptors: seq<ValueDescriptor>
    var commands: map<string, DeviceOperations>
    var objects: map<string, map<string, ServiceObject>>

    /** The registry never holds two descriptors of the same name. */
    ghost predicate Valid()
      reads this
    {
      DistinctNames(valueDescriptors)
    }

    constructor ()
      ensures Valid()
      ensures valueDescriptors == [] && commands == map[] && objects == map[]
    {
      valueDescriptors := [];
      commands := map[];
      objects := map[];
    }

    /** Some registered descriptor is named `name`. */
    function DescriptorExists(name: string): (b: bool)
      reads this
      ensures b <==> exists i :: 0 <= i < |valueDescriptors| && valueDescriptors[i].name == name
    {
      WithName(valueDescriptors, name) != []
    }

    method AddDevice(device: Device, profileForName: string -> Option<DeviceProfile>,
                     remoteDescriptors: Option<seq<ValueDescriptor>>,
                     register: ValueDescriptor -> Option<string>)
      requires Valid()
      requires CanAdd(device.profile, profileForName, remoteDescriptors)
      modifies this`objects, this`commands, this`valueDescriptors, device`profile
      ensures Valid()
      ensures device.profile == Completed(old(device.profile), profileForName)
      ensures old(valueDescriptors) <= valueDescriptors
      ensures old(device.profile).None? ==>
        objects == old(objects) && commands == old(commands) && valueDescriptors == old(valueDescriptors)
      ensures old(device.profile).Some? ==>
        && objects == old(objects)[device.name := DeviceObjectsOf(device.profile)]
        && commands == old(commands)[device.name := DeviceOperationsOf(device.profile)]
        && valueDescriptors ==
           ResolveAll(CollectedOps(device.profile), Resolution(Fetched(remoteDescriptors), old(valueDescriptors)),
                      UsedDescriptors(device.profile), DeviceResourcesOf(device.profile), register).registry
    {
      var complete := CompleteProfile(device, profileForName);
      if complete {
        ghost var profile := device.profile;
        assert profile.Some? && profile.value.deviceResources.Some?;
        var descriptors := Fetched(remoteDescriptors);
        var usedDescriptors := RetrieveUsedDescriptors(device);
        var deviceObjects, deviceOperations, ops := DerivePasses(device);
        objects := objects[device.name := deviceObjects];
        commands := commands[device.name := deviceOperations];
        var working := CollectValueDescriptors(device, ops, descriptors, usedDescriptors, register);
      }
    }

    /** Passes 1 and 2 of `addDevice` from empty accumulators: the device's operation map,
        its service objects and the collected operations. */
    method DerivePasses(device: Device)
      returns (deviceObjects: map<string, ServiceObject>, deviceOperations: DeviceOperations,
               ops: seq<ResourceOperation>)
      requires device.profile.Some? && device.profile.value.deviceResources.Some?
      ensures deviceObjects == DeviceObjectsOf(device.profile)
      ensures deviceOperations == DeviceOperationsOf(device.profile)
      ensures ops == CollectedOps(device.profile)
    {
      deviceOperations, ops := RetrieveOperations(device, map[], []);
      deviceObjects, deviceOperations, ops := BuildDeviceObjectsMap(device, map[], deviceOperations, ops);
    }

    method UpdateDevice(device: Device, profileForName: string -> Option<DeviceProfile>,
                        remoteDescriptors: Option<seq<ValueDescriptor>>,
                        register: ValueDescriptor -> Option<string>)
      requires Valid()
      requires CanAdd(device.profile, profileForName, remoteDescriptors)
      modifies this`objects, this`commands, this`valueDescriptors, device`profile
      ensures Valid()
      ensures device.profile == Completed(old(device.profile), profileForName)
      ensures old(valueDescriptors) <= valueDescriptors
      ensures old(device.profile).None? ==>
        && objects == old(objects) - {device.name}
        && commands == old(commands) - {device.name}
        && valueDescriptors == old(valueDescriptors)
      ensures old(device.profile).Some? ==>
        && objects == old(objects)[device.name := DeviceObjectsOf(device.profile)]
        && commands == old(commands)[device.name := DeviceOperationsOf(device.profile)]
        && valueDescriptors ==
           ResolveAll(CollectedOps(device.profile), Resolution(Fetched(remoteDescriptors), old(valueDescriptors)),
                      UsedDescriptors(device.profile), DeviceResourcesOf(device.profile), register).registry
    {
      ghost var objects0, commands0 := objects, commands;
      RemoveDevice(device);
      AddDevice(device, profileForName, remoteDescriptors, register);
      RemoveThenPut(objects0, device.name, DeviceObjectsOf(device.profile));
      RemoveThenPut(commands0, device.name, DeviceOperationsOf(device.profile));
    }

    method RemoveDevice(device: Device)
      requires Valid()
      modifies this`objects, this`commands
      ensures Valid()
      ensures objects == old(objects) - {device.name}
      ensures commands == old(commands) - {device.name}
      ensures valueDescriptors == old(valueDescriptors)
    {
      objects := objects - {device.name};
      commands := commands - {device.name};
    }

    /** Reports whether the device has a profile reference; one that lacks its device
        resources is replaced by the profile fetched by name. */
    method CompleteProfile(device: Device, profileForName: string -> Option<DeviceProfile>) returns (complete: bool)
      modifies device`profile
      ensures complete <==> old(device.profile).Some?
      ensures device.profile == Completed(old(device.profile), profileForName)
    {
      if device.profile.Some? {
        if device.profile.value.deviceResources.None? {
          var profile := profileForName(device.profile.value.name);
          device.profile := profile;
        }
        return true;
      }
      return false;
    }

    method RetrieveUsedDescriptors(device: Device) returns (usedDescriptors: seq<string>)
      ensures usedDescriptors == UsedDescriptors(device.profile)
      ensures forall p :: p in usedDescriptors <==>
        device.profile.Some? && device.profile.value.commands.Some? &&
        exists i :: 0 <= i < |device.profile.value.commands.value| &&
          p in device.profile.value.commands.value[i].associatedValueDescriptors
    {
      usedDescriptors := [];
      if device.profile.Some? && device.profile.value.commands.Some? {
        var cs := device.profile.value.commands.value;
        for i := 0 to |cs|
          invariant usedDescriptors == AssociatedDescriptors(cs[..i])
        {
          assert Init(cs[..i + 1]) == cs[..i];
          usedDescriptors := usedDescriptors + cs[i].associatedValueDescriptors;
        }
        assert cs[..|cs|] == cs;
      }
    }

    /** Pass 1: registers each explicit resource's operation map under its lower-cased
        name and appends its get and set lists to the operations. */
    method RetrieveOperations(device: Device, deviceOperations: DeviceOperations, ops: seq<ResourceOperation>)
      returns (deviceOperations': DeviceOperations, ops': seq<ResourceOperation>)
      ensures deviceOperations' == Declared(deviceOperations, ResourcesOf(device.profile))
      ensures ops' == ops + DeclaredOps(ResourcesOf(device.profile))
    {
      deviceOperations', ops' := deviceOperations, ops;
      if device.profile.Some? && device.profile.value.resources.Some? {
        var resources := device.profile.value.resources.value;
        for i := 0 to |resources|
          invariant deviceOperations' == Declared(deviceOperations, resources[..i])
          invariant ops' == ops + DeclaredOps(resources[..i])
        {
          assert Init(resources[..i + 1]) == resources[..i];
          var resource := resources[i];
          var operations: OperationMap := map[GET := resource.getOps, SET := resource.setOps];
          deviceOperations' := deviceOperations'[Lower(resource.name) := operations];
          AppendAssociative(ops, DeclaredOps(resources[..i]), OrEmpty(resource.getOps));
          AppendAssociative(ops, DeclaredOps(resources[..i]) + OrEmpty(resource.getOps), OrEmpty(resource.setOps));
          if resource.getOps.Some? {
            ops' := ops' + resource.getOps.value;
          }
          if resource.setOps.Some? {
            ops' := ops' + resource.setOps.value;
          }
        }
        assert resources[..|resources|] == resources;
      }
    }

    /** Pass 2: builds each device resource's handle, and synthesises operations from the
        read/write flag for a device resource whose lower-cased name has no entry yet. */
    method BuildDeviceObjectsMap(device: Device, deviceObjects: map<string, ServiceObject>,
                                 deviceOperations: DeviceOperations, ops: seq<ResourceOperation>)
      returns (deviceObjects': map<string, ServiceObject>, deviceOperations': DeviceOperations,
               ops': seq<ResourceOperation>)
      requires device.profile.Some? && device.profile.value.deviceResources.Some?
      ensures deviceObjects' == ObjectsOf(deviceObjects, DeviceResourcesOf(device.profile))
      ensures deviceOperations' == Materialized(deviceOperations, DeviceResourcesOf(device.profile))
      ensures ops' == ops + MaterializedOps(deviceOperations, DeviceResourcesOf(device.profile))
    {
      var objs := device.profile.value.deviceResources.value;
      deviceObjects', deviceOperations', ops' := deviceObjects, deviceOperations, ops;
      for i := 0 to |objs|
        invariant deviceObjects' == ObjectsOf(deviceObjects, objs[..i])
        invariant deviceOperations' == Materialized(deviceOperations, objs[..i])
        invariant ops' == ops + MaterializedOps(deviceOperations, objs[..i])
      {
        MaterializedStep(deviceOperations, deviceObjects, objs, i);
        var deviceObject := objs[i];
        var newServiceObject := CreateServiceObject(deviceObject);
        deviceObjects' := deviceObjects'[deviceObject.name := newServiceObject];
        if Lower(deviceObject.name) !in deviceOperations' {
          var operations, synthesized := SynthesizeOperations(deviceObject);
          AppendAssociative(ops, MaterializedOps(deviceOperations, objs[..i]), synthesized);
          ops' := ops' + synthesized;
          deviceOperations' := deviceOperations'[Lower(deviceObject.name) := operations];
        }
      }
      assert objs[..|objs|] == objs;
    }

    /** The body of pass 2 for a device resource without an entry: a `get` operation if
        the lower-cased flag contains `r`, then a `set` operation if it contains `w`; the
        operations also come back as a list, in that order, for the accumulator. */
    method SynthesizeOperations(deviceObject: DeviceObject)
      returns (operations: OperationMap, synthesized: seq<ResourceOperation>)
      ensures operations == Synthesize(deviceObject)
      ensures synthesized == SynthesizedOps(deviceObject)
    {
      var readWrite := deviceObject.value.readWrite;
      operations, synthesized := map[], [];
      if 'r' in Lower(readWrite) {
        var resource := ResourceOperation(GET, deviceObject.name, deviceObject.name);
        operations := operations[GET := Some([resource])];
        synthesized := synthesized + [resource];
      }
      if 'w' in Lower(readWrite) {
        var resource := ResourceOperation(SET, deviceObject.name, deviceObject.name);
        operations := operations[SET := Some([resource])];
        synthesized := synthesized + [resource];
      }
    }

    /** Pass 3: resolves a descriptor for each collected operation, creating one for a
        used parameter that has none, and registers each resolved descriptor unless one
        of its name is registered. Returns the extended working list. */
    method CollectValueDescriptors(device: Device, ops: seq<ResourceOperation>, descriptors: seq<ValueDescriptor>,
                                   usedDescriptors: seq<string>, register: ValueDescriptor -> Option<string>)
      returns (descriptors': seq<ValueDescriptor>)
      requires Valid()
      requires Resolvable(ops, Names(descriptors), usedDescriptors, DeviceResourcesOf(device.profile))
      modifies this`valueDescriptors
      ensures Valid()
      ensures old(valueDescriptors) <= valueDescriptors
      ensures Resolution(descriptors', valueDescriptors) ==
        ResolveAll(ops, Resolution(descriptors, old(valueDescriptors)), usedDescriptors,
                   DeviceResourcesOf(device.profile), register)
    {
      var objs := DeviceResourcesOf(device.profile);
      ghost var known := Names(descriptors);
      ghost var start := Resolution(descriptors, valueDescriptors);
      descriptors' := descriptors;
      for i := 0 to |ops|
        invariant Resolvable(ops[..i], known, usedDescriptors, objs)
        invariant Resolution(descriptors', valueDescriptors) == ResolveAll(ops[..i], start, usedDescriptors, objs, register)
      {
        ResolvablePrefix(ops, known, usedDescriptors, objs, i + 1);
        assert Init(ops[..i + 1]) == ops[..i] && Last(ops[..i + 1]) == ops[i];
        var op := ops[i];
        var descriptor := FirstNamed(descriptors', op.parameter);
        if descriptor.None? {
          if op.parameter !in usedDescriptors {
            continue;
          }
          CreationPossible(ops, known, usedDescriptors, objs, i);
          var deviceObject := FindObject(objs, op.objectName);
          descriptor := Some(CreateDescriptor(op.parameter, deviceObject.value, register));
        }
        if descriptor.value.name !in Names(valueDescriptors) {
          valueDescriptors := valueDescriptors + [descriptor.value];
        }
        descriptors' := descriptors' + [descriptor.value];
      }
      assert ops[..|ops|] == ops;
      ResolveKeepsNamesDistinct(ops, start, usedDescriptors, objs, register);
      ResolveOnlyAppends(ops, start, usedDescriptors, objs, register);
    }
  }
}
