/** The domain objects the profile cache reads: device profiles, their device resources
    (DeviceObject), their explicit profile resources, commands, and the value descriptors
    it registers. A Java `null` list is an `Option` that is `None`. */
module Domain {

  datatype Option<+T> = None | Some(value: T)

  /** One `get` or `set` action against a device resource, parameterised by the name of a
      value descriptor. */
  datatype ResourceOperation = ResourceOperation(operation: string, objectName: string, parameter: string)

  /** A profile-declared grouping of operations; either list may be absent. */
  datatype ProfileResource = ProfileResource(
    name: string,
    getOps: Option<seq<ResourceOperation>>,
    setOps: Option<seq<ResourceOperation>>)

  /** The part of a device resource's property block that the cache reads: the textual
      type tag and the read/write flag string. */
  datatype PropertyValue = PropertyValue(valueType: string, readWrite: string)

  /** A device resource definition; its name is compared case-sensitively. */
  datatype DeviceObject = DeviceObject(name: string, value: PropertyValue)

  /** A profile command, reduced to the value-descriptor names it references. */
  datatype Command = Command(name: string, associatedValueDescriptors: seq<string>)

  /** A device profile; `deviceResources` is absent when only the profile's name is known. */
  datatype DeviceProfile = DeviceProfile(
    name: string,
    deviceResources: Option<seq<DeviceObject>>,
    resources: Option<seq<ProfileResource>>,
    commands: Option<seq<Command>>)

  /** A value descriptor: its name, the first character of the type tag it was built from
      (standing for the IoTType enumeration constant), and the identifier the metadata
      service assigned, absent until registration succeeds. */
  datatype ValueDescriptor = ValueDescriptor(name: string, valueType: char, id: Option<string>)

  /** The runtime handle the service-object factory builds from one device resource;
      it records the definition it was built from and is otherwise opaque. */
  datatype ServiceObject = ServiceObject(definition: DeviceObject)

  function CreateServiceObject(deviceObject: DeviceObject): ServiceObject
  {
    ServiceObject(deviceObject)
  }

  /** Operation kind ("get"/"set") to the list of operations of that kind. */
  type OperationMap = map<string, Option<seq<ResourceOperation>>>

  /** Lower-cased resource name to its operation map. */
  type DeviceOperations = map<string, OperationMap>

  const GET := "get"
  const SET := "set"

  /** A device: its name is fixed, its profile reference is replaced when the cache
      completes it. */
  class Device {
    const name: string
    var profile: Option<DeviceProfile>

    constructor (name: string, profile: Option<DeviceProfile>)
      ensures this.name == name && this.profile == profile
    {
      this.name := name;
      this.profile := profile;
    }
  }

  function Init<T>(s: seq<T>): seq<T>
    requires s != []
  {
    s[..|s| - 1]
  }

  function Last<T>(s: seq<T>): T
    requires s != []
  {
    s[|s| - 1]
  }

  lemma AppendAssociative<T>(a: seq<T>, b: seq<T>, c: seq<T>)
    ensures (a + b) + c == a + (b + c)
  {
  }

  /** Replacing an entry after removing it is the same as replacing it. */
  lemma RemoveThenPut<K, V>(m: map<K, V>, k: K, v: V)
    ensures (m - {k})[k := v] == m[k := v]
  {
  }

  /** The operations of a possibly absent list, in order. */
  function OrEmpty(ops: Option<seq<ResourceOperation>>): seq<ResourceOperation>
  {
    if ops.Some? then ops.value else []
  }
}
