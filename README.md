# ProfileStoreImpl: the device profile cache

This project models the profile cache of the device service. The cache is
`ProfileStoreImpl`. When a device is added, the cache:

- completes the device's profile, fetching it by name when its device-resource list is
  missing;
- derives three things from that profile:
  - a per-device operation map: lower-cased resource name to `"get"`/`"set"` to a list of
    resource operations;
  - a per-device map from each device resource's name to a service object;
  - the value descriptors that the operations' parameters refer to. These are kept in one
    global registry that never holds two descriptors of the same name.

`updateDevice` is a removal followed by an addition. `removeDevice` drops the device's two
map entries. It leaves the descriptor registry alone.

The source file modelled is
`src/main/java/org/edgexfoundry/device/store/impl/ProfileStoreImpl.java`.

## Structure

**`Domain.dfy`.** The entities the cache reads:

- Values are datatypes: profile, profile resource, device resource (`DeviceObject`),
  property value, command, resource operation, value descriptor, service object.
- A Java `null` list is an `Option` that is `None`.
- `Device` is a class, because `completeProfile` replaces its profile reference.

**`Text.dfy`.** Lower-casing, as ASCII case folding.

**`Commands.dfy`.** What passes 1 and 2 of `addDevice` compute, as functions of the
profile, each folding over its list from the last element:

- `Declared` and `DeclaredOps`: `retreiveOperations` copying the explicit profile resources.
- `Materialized`, `MaterializedOps` and `ObjectsOf`: `buildDeviceObjectsMap`.

Below them come lemmas:

- precedence: an explicit declaration wins over synthesis, and the last of two same-named
  declarations wins;
- synthesis from the read/write flag;
- the key sets of the maps;
- every stored operation is among the collected ones.

**`Descriptors.dfy`.** Pass 3, `collectValueDescriptors`, as the function `ResolveAll` over
a `Resolution`, which pairs the working list with the registry. Its lemmas:

- both lists only grow at the end;
- the registry stays free of duplicate names and gains exactly the resolved parameter names;
- an unused, unfetched parameter is skipped;
- a descriptor created once is reused by later operations;
- a fetched descriptor is kept as fetched;
- a created descriptor is built from the first operation that needed it.

**`ProfileStore.dfy`.** The class `ProfileStoreImpl`:

- Its fields are `valueDescriptors`, `commands` and `objects`. Its invariant is that the
  registry's names are distinct.
- Java methods that update state or loop are Dafny methods whose loops carry invariants
  tying the accumulators to the functions above:
  - `addDevice`, `updateDevice` and `removeDevice`;
  - `completeProfile` and `retrieveUsedDescriptors`;
  - the three passes.
- The Java methods that only compute a value are functions:
  - `descriptorExists` is `DescriptorExists`, over the registry;
  - `createDescriptor` is `Descriptors.CreateDescriptor`;
  - `retrieveAllValueDescriptors` is `Fetched`, applied to the listing's outcome.
- The lifecycle methods state the whole new state in terms of the old one: replace the
  device's entries, leave other devices' entries alone, and extend the registry as pass 3
  determines.

The remote collaborators are parameters:

- `deviceProfileForName` is `profileForName: string -> Option<DeviceProfile>`.
- The result of `valueDescriptors()` is `remoteDescriptors: Option<seq<ValueDescriptor>>`.
  `None` means the call threw, and the working list then starts empty.
- `add` is `register: ValueDescriptor -> Option<string>`. `None` means the call threw, and
  the identifier then stays unset.

The service-object factory is the constructor of `ServiceObject` applied to the device
resource.

`completeProfile` returns `true` whenever the device had a profile reference, even when the
fetch by name yields `null` (lines 170-180). `addDevice` then dereferences that profile
(line 231), so the precondition `CanAdd` excludes that case. `CompleteProfile` returns what
the code returns.

## Model

| member | source | states |
|---|---|---|
| ProfileStore.ProfileStoreImpl.constructor | src/main/java/org/edgexfoundry/device/store/impl/ProfileStoreImpl.java:69-77 | a fresh cache has an empty registry and empty command and object maps, and satisfies the registry invariant |
| ProfileStore.ProfileStoreImpl.DescriptorExists | src/main/java/org/edgexfoundry/device/store/impl/ProfileStoreImpl.java:94-98 | true exactly when some registered descriptor has the given name |
| ProfileStore.ProfileStoreImpl.AddDevice | src/main/java/org/edgexfoundry/device/store/impl/ProfileStoreImpl.java:100-121 | the profile is completed. With no profile, all three caches are unchanged. Otherwise the device's entries in `objects` and `commands` are replaced by its derived object and operation maps, other devices' entries are untouched, and the registry is extended by pass 3 over the collected operations. The registry only grows and keeps distinct names |
| ProfileStore.ProfileStoreImpl.DerivePasses | src/main/java/org/edgexfoundry/device/store/impl/ProfileStoreImpl.java:106-111 | passes 1 and 2 from empty accumulators yield the profile's object map, operation map and collected operations |
| ProfileStore.ProfileStoreImpl.UpdateDevice | src/main/java/org/edgexfoundry/device/store/impl/ProfileStoreImpl.java:123-127 | remove then add: with a profile, the same new state as an addition (no trace of the previous entries); without one, the device's entries are gone and the registry is unchanged |
| ProfileStore.ProfileStoreImpl.RemoveDevice | src/main/java/org/edgexfoundry/device/store/impl/ProfileStoreImpl.java:129-133 | the device name is removed from `objects` and `commands` (a no-op for an absent name), other entries and the registry are untouched |
| ProfileStore.ProfileStoreImpl.CompleteProfile | src/main/java/org/edgexfoundry/device/store/impl/ProfileStoreImpl.java:170-180 | returns true exactly when the device had a profile; a profile without device resources is replaced by the one fetched by its name, any other is kept |
| ProfileStore.ProfileStoreImpl.RetrieveUsedDescriptors | src/main/java/org/edgexfoundry/device/store/impl/ProfileStoreImpl.java:160-168 | the command-referenced names in command order; a name is in the result exactly when some command of the profile references it |
| ProfileStore.AssociatedDescriptors | src/main/java/org/edgexfoundry/device/store/impl/ProfileStoreImpl.java:163-165 | a name is in the concatenation exactly when some command's associated descriptors contain it |
| ProfileStore.ProfileStoreImpl.RetrieveOperations | src/main/java/org/edgexfoundry/device/store/impl/ProfileStoreImpl.java:182-199 | the loop leaves the operation map as `Declared` over the explicit resources and appends each resource's get list then set list, absent lists skipped |
| ProfileStore.ProfileStoreImpl.BuildDeviceObjectsMap | src/main/java/org/edgexfoundry/device/store/impl/ProfileStoreImpl.java:226-264 | the loop leaves the object map, operation map and appended operations as `ObjectsOf`, `Materialized` and `MaterializedOps` over the device resources |
| ProfileStore.ProfileStoreImpl.SynthesizeOperations | src/main/java/org/edgexfoundry/device/store/impl/ProfileStoreImpl.java:241-259 | the operation map and operations built from a read/write flag coincide with `Synthesize` and `SynthesizedOps` |
| ProfileStore.ProfileStoreImpl.CollectValueDescriptors | src/main/java/org/edgexfoundry/device/store/impl/ProfileStoreImpl.java:201-223 | the loop leaves the working list and registry as `ResolveAll` over the operations; the registry only grows and keeps distinct names |
| Commands.Synthesize | src/main/java/org/edgexfoundry/device/store/impl/ProfileStoreImpl.java:241-261 | `get` is present exactly when the flag contains `r` or `R`, `set` exactly when it contains `w` or `W`; each holds one operation on the resource with its name as parameter; no other keys |
| Commands.SynthesizedOpsStored | src/main/java/org/edgexfoundry/device/store/impl/ProfileStoreImpl.java:245-258 | the operations appended for a device resource are exactly those its synthesised map stores: the `get` list, then the `set` list |
| Text.Lower | src/main/java/org/edgexfoundry/device/store/impl/ProfileStoreImpl.java:190 | same length; no upper-case letter remains; every other character is unchanged; each upper-case letter becomes its lower-case counterpart |
| Text.LowerIdempotent | src/main/java/org/edgexfoundry/device/store/impl/ProfileStoreImpl.java:240 | lower-casing an already lower-cased name changes nothing |
| Text.LowerContains | src/main/java/org/edgexfoundry/device/store/impl/ProfileStoreImpl.java:245 | a lower-case letter occurs in the lower-cased string exactly when it or its upper-case form occurs in the original |
| Commands.DeclaredKeysAre | src/main/java/org/edgexfoundry/device/store/impl/ProfileStoreImpl.java:186-190 | pass 1 adds exactly the lower-cased names of the explicit resources as keys |
| Commands.LastDeclarationWins | src/main/java/org/edgexfoundry/device/store/impl/ProfileStoreImpl.java:186-190 | the entry under a resource's lower-cased name has keys `get` and `set` mapped to exactly its declared lists, unless a later resource has the same lower-cased name |
| Commands.UndeclaredKeysKept | src/main/java/org/edgexfoundry/device/store/impl/ProfileStoreImpl.java:186-190 | entries under names no explicit resource declares are left as they were |
| Commands.MaterializedStep | src/main/java/org/edgexfoundry/device/store/impl/ProfileStoreImpl.java:231-262 | one loop iteration of pass 2: the membership test on the growing map is the uncovered test, and the three accumulators advance as the functions do |
| Commands.MaterializedKeysAre | src/main/java/org/edgexfoundry/device/store/impl/ProfileStoreImpl.java:240-261 | pass 2 adds exactly the lower-cased device-resource names as keys, even for resources with no flags |
| Commands.CoveredKeysKept | src/main/java/org/edgexfoundry/device/store/impl/ProfileStoreImpl.java:240 | an entry present before pass 2 is not overwritten by it |
| Commands.UncoveredSynthesized | src/main/java/org/edgexfoundry/device/store/impl/ProfileStoreImpl.java:240-261 | an uncovered device resource's entry is exactly the map synthesised from its flag |
| Commands.SynthesizedOnlyUncovered | src/main/java/org/edgexfoundry/device/store/impl/ProfileStoreImpl.java:240-258 | every synthesised operation targets some device resource, uses its name as parameter, and that name's lower-cased form was not declared in pass 1 |
| Commands.ObjectsKeysAre | src/main/java/org/edgexfoundry/device/store/impl/ProfileStoreImpl.java:231-236 | the object map's keys are exactly the device-resource names, case-sensitive |
| Commands.ObjectsCoverResources | src/main/java/org/edgexfoundry/device/store/impl/ProfileStoreImpl.java:231-236 | each device resource (last of its name) has its handle under its exact name |
| Commands.DeclaredWithin | src/main/java/org/edgexfoundry/device/store/impl/ProfileStoreImpl.java:188-196 | every operation stored by pass 1 is among the appended operations |
| Commands.MaterializedWithin | src/main/java/org/edgexfoundry/device/store/impl/ProfileStoreImpl.java:243-261 | every operation stored by pass 2 is among the appended operations |
| ProfileStore.ObjectsCoverProfile | src/main/java/org/edgexfoundry/device/store/impl/ProfileStoreImpl.java:231-236 | after addition, every device-resource name of the profile is a key of the device's object map, and there are no other keys |
| ProfileStore.OperationKeys | src/main/java/org/edgexfoundry/device/store/impl/ProfileStoreImpl.java:186-261 | the device's operation-map keys are exactly the lower-cased explicit resource names and device-resource names |
| ProfileStore.ExplicitResourcesAuthoritative | src/main/java/org/edgexfoundry/device/store/impl/ProfileStoreImpl.java:186-240 | an explicit resource's entry maps `get` and `set` to exactly its declared lists after both passes, whatever the device resources' flags |
| ProfileStore.ExplicitResourcesSuppressSynthesis | src/main/java/org/edgexfoundry/device/store/impl/ProfileStoreImpl.java:240-258 | no operation is synthesised for a device resource whose lower-cased name is explicitly declared |
| ProfileStore.FlagsSynthesizeOperations | src/main/java/org/edgexfoundry/device/store/impl/ProfileStoreImpl.java:240-261 | an uncovered device resource's entry is present, with one `get` exactly when the flag has `r`/`R` and one `set` exactly when it has `w`/`W`, and is empty with neither |
| ProfileStore.StoredOperationsCollected | src/main/java/org/edgexfoundry/device/store/impl/ProfileStoreImpl.java:186-258 | every operation stored in the device's operation map appears in the collected operations |
| ProfileStore.SingleReadableResourceDerived | src/main/java/org/edgexfoundry/device/store/impl/ProfileStoreImpl.java:106-114 | for a profile with one resource `Temp` flagged `R` and no explicit resources: handle under `Temp`, one `get` on `Temp` with parameter `Temp` under `temp`, and that operation collected |
| ProfileStore.SingleReadableResourceRegistered | src/main/java/org/edgexfoundry/device/store/impl/ProfileStoreImpl.java:116-117 | for that profile with a command using `Temp`, an empty fetched list and an empty registry: the addition runs to completion and registers exactly the descriptor created for `Temp` from the resource |
| Descriptors.WithName | src/main/java/org/edgexfoundry/device/store/impl/ProfileStoreImpl.java:96-97 | the filter keeps only descriptors of the name, and is empty exactly when none has it |
| Descriptors.FirstNamed | src/main/java/org/edgexfoundry/device/store/impl/ProfileStoreImpl.java:205-206 | a descriptor is found exactly when one has the name, and it is one of the list with that name |
| Descriptors.FindObject | src/main/java/org/edgexfoundry/device/store/impl/ProfileStoreImpl.java:213-214 | a device resource is found exactly when one has the name, and it is one of the list with that name |
| Descriptors.AddAbsent | src/main/java/org/edgexfoundry/device/store/impl/ProfileStoreImpl.java:219-220 | the descriptor itself is appended when its name is not registered, and the registry is unchanged when it is; so the prefix is kept, the name is added, and names stay distinct |
| Descriptors.CreateDescriptor | src/main/java/org/edgexfoundry/device/store/impl/ProfileStoreImpl.java:135-148 | named after the parameter, typed by the first character of the resource's type tag, carrying the identifier registration returned, none when it failed |
| Descriptors.ResolveStep | src/main/java/org/edgexfoundry/device/store/impl/ProfileStoreImpl.java:204-222 | the working list gains the parameter's name exactly when it was found or some command uses it |
| Descriptors.ResolveAll | src/main/java/org/edgexfoundry/device/store/impl/ProfileStoreImpl.java:204-222 | the working list ends naming exactly the fetched names plus the parameters that were fetched or are used |
| Descriptors.ResolvablePrefix | src/main/java/org/edgexfoundry/device/store/impl/ProfileStoreImpl.java:213-216 | if every creation in a list of operations finds its device resource, the same holds for every prefix |
| Descriptors.CreationPossible | src/main/java/org/edgexfoundry/device/store/impl/ProfileStoreImpl.java:208-216 | an operation whose used parameter is not yet named is the first to need it, so its device resource is found |
| Descriptors.ResolveOnlyAppends | src/main/java/org/edgexfoundry/device/store/impl/ProfileStoreImpl.java:219-221 | the working list and the registry only grow at the end |
| Descriptors.ResolveKeepsNamesDistinct | src/main/java/org/edgexfoundry/device/store/impl/ProfileStoreImpl.java:219-220 | a registry with distinct names keeps distinct names |
| Descriptors.ResolveRegistryNames | src/main/java/org/edgexfoundry/device/store/impl/ProfileStoreImpl.java:204-220 | the registry gains exactly the names of the parameters that were fetched or are used |
| Descriptors.UnusedParameterSkipped | src/main/java/org/edgexfoundry/device/store/impl/ProfileStoreImpl.java:208-211 | a parameter neither fetched nor used by any command gets no descriptor in either list |
| Descriptors.ResolvedDescriptorsReused | src/main/java/org/edgexfoundry/device/store/impl/ProfileStoreImpl.java:205-221 | every descriptor appended to the working list is the first of its name there, so a later operation reuses the one found or created earlier |
| Descriptors.FetchedDescriptorsKept | src/main/java/org/edgexfoundry/device/store/impl/ProfileStoreImpl.java:205-206 | a fetched parameter resolves to the first fetched descriptor of its name |
| Descriptors.ResolveLastStep | src/main/java/org/edgexfoundry/device/store/impl/ProfileStoreImpl.java:219-221 | one operation appends at most one descriptor to the working list |
| Descriptors.CreatedAtLast | src/main/java/org/edgexfoundry/device/store/impl/ProfileStoreImpl.java:208-221 | the last operation, first to need its unfetched used parameter, leaves the descriptor created from its device resource as the first of that name |
| Descriptors.CreatedFromFirstNeed | src/main/java/org/edgexfoundry/device/store/impl/ProfileStoreImpl.java:208-216 | an unfetched used parameter resolves to the descriptor created from the first operation needing it, built from that operation's device resource |
| Descriptors.ResolveStepAgrees | src/main/java/org/edgexfoundry/device/store/impl/ProfileStoreImpl.java:219-221 | one operation keeps every newly registered name registered with the descriptor the working list resolves it to |
| Descriptors.ResolveAllAgrees | src/main/java/org/edgexfoundry/device/store/impl/ProfileStoreImpl.java:204-222 | over the whole pass, every newly registered name is registered with the descriptor the working list resolves it to |
| Descriptors.RegistryHoldsResolved | src/main/java/org/edgexfoundry/device/store/impl/ProfileStoreImpl.java:219-221 | a name the registry gains during the pass is registered with the descriptor the pass resolved for it |
| Descriptors.FetchedDescriptorRegistered | src/main/java/org/edgexfoundry/device/store/impl/ProfileStoreImpl.java:205-220 | a fetched descriptor that an operation uses, with an unregistered name, is registered as fetched |
| Descriptors.CreatedDescriptorRegistered | src/main/java/org/edgexfoundry/device/store/impl/ProfileStoreImpl.java:208-220 | a descriptor created for an unfetched, used, unregistered parameter is registered as created, with no identifier when registration failed |

## Left out

- `WatcherStore.java` is an interface of signatures. It is not part of this model.
- The remote clients (`ValueDescriptorClient` and `DeviceProfileClient`) are the parameters
  described above, not network calls. Which exception a call throws, and what it logs, is not
  modelled.
- `AddDevice` and `UpdateDevice` do not model an exception from `deviceProfileForName`.
  The call at line 174 sits outside any `try`, so in Java its exception escapes
  `addDevice`. In `updateDevice` it escapes after `removeDevice` has already dropped the
  device's entries. The total parameter `profileForName` always answers, so the model
  cannot express this abortion or the partial state it leaves.
- The service-object factory is abstract. Its result records the device resource it was
  built from.
- Logging, the Spring wiring and concurrency are not modelled. The class uses unsynchronised
  maps, and only sequential calls are modelled.
- `CreateDescriptor` keeps only the descriptor's name, type and identifier:
  - minimum, maximum, default values, units, display format and description are not
    modelled;
  - `IoTType.valueOf` is the first character of the type tag itself, without the
    enumeration's check that the letter names a constant (a letter naming none would throw).
- `ValueDescriptor.equals` is taken to compare names. So `valueDescriptors.contains`
  becomes a test of the name against the registry's names.
- `toLowerCase` is ASCII case folding, not Java's locale-dependent conversion.
- `findAny` on the descriptor and device-resource streams is modelled as the first match in
  list order (`FirstNamed`, `FindObject`).
- Null-pointer paths are not modelled as exceptions. The precondition `CanAdd` excludes
  them:
  - a fetched profile that is `null`;
  - a fetched profile that still lacks device resources;
  - a descriptor to be created whose operation names no device resource, or whose resource
    has an empty type tag.

  A device resource's property block and the `readWrite` string are always present in the
  model.
- The Java `descriptors.add` extends the caller's list in place. `CollectValueDescriptors`
  returns the extended list instead, and `AddDevice` discards it, as the Java does.
- `SynthesizeOperations` and `DerivePasses` are code blocks of `buildDeviceObjectsMap` and
  `addDevice` given their own methods. Their behaviour is unchanged.
- The two-argument `ResourceOperation` constructor is taken to set the parameter to the
  object name.
- The getters `getCommands`, `getObjects` and `getValueDescriptors` are not modelled as
  methods. They are the fields themselves.
