/** What the first two passes of `addDevice` compute, as functions of the profile: the
    per-resource operation map (explicit profile resources first, then operations
    synthesised from each device resource's read/write flag) and the accumulated list of
    operations, together with the device's object map. Each function folds over its list
    from the last element, so that a loop over a prefix is described by the same function
    applied to that prefix. */
module Commands {
  import opened Domain
  import opened Text

  // ---------------------------------------------------------------------------
  // Pass 1: explicit profile resources

  /** The operation map registered for one explicit resource: both kinds, each mapped to
      the declared list as it is, absent lists included. */
  function DeclaredOperationMap(resource: ProfileResource): OperationMap
  {
    map[GET := resource.getOps, SET := resource.setOps]
  }

  /** The operation map after registering the resources `rs`, in order, over `m`. */
  function Declared(m: DeviceOperations, rs: seq<ProfileResource>): DeviceOperations
    decreases |rs|
  {
    if rs == [] then m
    else Declared(m, Init(rs))[Lower(Last(rs).name) := DeclaredOperationMap(Last(rs))]
  }

  /** The operations pass 1 appends: per resource, its get list then its set list. */
  function DeclaredOps(rs: seq<ProfileResource>): seq<ResourceOperation>
    decreases |rs|
  {
    if rs == [] then []
    else DeclaredOps(Init(rs)) + OrEmpty(Last(rs).getOps) + OrEmpty(Last(rs).setOps)
  }

  /** The lower-cased names of the resources `rs`. */
  function DeclaredKeys(rs: seq<ProfileResource>): set<string>
  {
    set i | 0 <= i < |rs| :: Lower(rs[i].name)
  }

  lemma {:induction false} DeclaredKeysAre(m: DeviceOperations, rs: seq<ProfileResource>)
    ensures Declared(m, rs).Keys == m.Keys + DeclaredKeys(rs)
    decreases |rs|
  {
    if rs != [] {
      DeclaredKeysAre(m, Init(rs));
      assert DeclaredKeys(rs) == DeclaredKeys(Init(rs)) + {Lower(Last(rs).name)} by {
        forall k | k in DeclaredKeys(rs) ensures k in DeclaredKeys(Init(rs)) + {Lower(Last(rs).name)} {
          var i :| 0 <= i < |rs| && Lower(rs[i].name) == k;
          if i < |rs| - 1 { assert Init(rs)[i] == rs[i]; }
        }
        forall k | k in DeclaredKeys(Init(rs)) ensures k in DeclaredKeys(rs) {
          var i :| 0 <= i < |Init(rs)| && Lower(Init(rs)[i].name) == k;
          assert Init(rs)[i] == rs[i];
        }
      }
    }
  }

  /** Precedence of explicit declarations: the entry under a resource's lower-cased name
      maps `get` to exactly its get list and `set` to exactly its set list, when no later
      resource has the same lower-cased name (a later one replaces it). */
  lemma {:induction false} LastDeclarationWins(m: DeviceOperations, rs: seq<ProfileResource>, i: int)
    requires 0 <= i < |rs|
    requires forall j :: i < j < |rs| ==> Lower(rs[j].name) != Lower(rs[i].name)
    ensures Lower(rs[i].name) in Declared(m, rs)
    ensures Declared(m, rs)[Lower(rs[i].name)].Keys == {GET, SET}
    ensures Declared(m, rs)[Lower(rs[i].name)][GET] == rs[i].getOps
    ensures Declared(m, rs)[Lower(rs[i].name)][SET] == rs[i].setOps
    decreases |rs|
  {
    if i < |rs| - 1 {
      assert Init(rs)[i] == rs[i];
      LastDeclarationWins(m, Init(rs), i);
    }
  }

  /** Entries under names no resource declares are left as they were. */
  lemma {:induction false} UndeclaredKeysKept(m: DeviceOperations, rs: seq<ProfileResource>, k: string)
    requires k in m && k !in DeclaredKeys(rs)
    ensures k in Declared(m, rs) && Declared(m, rs)[k] == m[k]
    decreases |rs|
  {
    if rs != [] {
      assert k != Lower(rs[|rs| - 1].name);
      UndeclaredKeysKept(m, Init(rs), k);
    }
  }

  // ---------------------------------------------------------------------------
  // Pass 2: device objects and operations synthesised from read/write flags

  /** The operation map synthesised from a device resource's read/write flag: a `get`
      operation when the flag contains `r` or `R`, a `set` operation when it contains `w`
      or `W`, each targeting the resource and using its name as parameter. */
  function Synthesize(deviceObject: DeviceObject): (r: OperationMap)
    ensures GET in r <==> 'r' in deviceObject.value.readWrite || 'R' in deviceObject.value.readWrite
    ensures SET in r <==> 'w' in deviceObject.value.readWrite || 'W' in deviceObject.value.readWrite
    ensures GET in r ==> r[GET] == Some([ResourceOperation(GET, deviceObject.name, deviceObject.name)])
    ensures SET in r ==> r[SET] == Some([ResourceOperation(SET, deviceObject.name, deviceObject.name)])
    ensures r.Keys <= {GET, SET}
  {
    var readWrite := deviceObject.value.readWrite;
    LowerContains(readWrite, 'R', 'r');
    LowerContains(readWrite, 'W', 'w');
    var withGet: OperationMap :=
      if 'r' in Lower(readWrite)
      then map[GET := Some([ResourceOperation(GET, deviceObject.name, deviceObject.name)])]
      else map[];
    if 'w' in Lower(readWrite)
    then withGet[SET := Some([ResourceOperation(SET, deviceObject.name, deviceObject.name)])]
    else withGet
  }

  /** The operations synthesised for one device resource, get before set. */
  function SynthesizedOps(deviceObject: DeviceObject): seq<ResourceOperation>
  {
    var readWrite := deviceObject.value.readWrite;
    (if 'r' in Lower(readWrite) then [ResourceOperation(GET, deviceObject.name, deviceObject.name)] else [])
    + (if 'w' in Lower(readWrite) then [ResourceOperation(SET, deviceObject.name, deviceObject.name)] else [])
  }

  /** The operations synthesised for a device resource are those its synthesised map
      stores: the `get` list, then the `set` list, an absent kind contributing none. */
  lemma SynthesizedOpsStored(deviceObject: DeviceObject)
    ensures var entry := Synthesize(deviceObject);
      SynthesizedOps(deviceObject) ==
        (if GET in entry then OrEmpty(entry[GET]) else []) + (if SET in entry then OrEmpty(entry[SET]) else [])
  {
    var readWrite := deviceObject.value.readWrite;
    LowerContains(readWrite, 'R', 'r');
    LowerContains(readWrite, 'W', 'w');
  }

  /** Device resource `i` finds no entry under its lower-cased name when pass 2 reaches
      it: pass 1 declared none and no earlier device resource inserted one. */
  predicate Uncovered(m: DeviceOperations, objs: seq<DeviceObject>, i: int)
    requires 0 <= i < |objs|
  {
    && Lower(objs[i].name) !in m
    && forall j :: 0 <= j < i ==> Lower(objs[j].name) != Lower(objs[i].name)
  }

  /** The operation map after pass 2 over `objs`, starting from the pass-1 map `m`. */
  function Materialized(m: DeviceOperations, objs: seq<DeviceObject>): DeviceOperations
    decreases |objs|
  {
    if objs == [] then m
    else if Uncovered(m, objs, |objs| - 1)
    then Materialized(m, Init(objs))[Lower(Last(objs).name) := Synthesize(Last(objs))]
    else Materialized(m, Init(objs))
  }

  /** The operations pass 2 appends: those synthesised for each uncovered device resource,
      in profile order. */
  function MaterializedOps(m: DeviceOperations, objs: seq<DeviceObject>): seq<ResourceOperation>
    decreases |objs|
  {
    if objs == [] then []
    else MaterializedOps(m, Init(objs))
         + (if Uncovered(m, objs, |objs| - 1) then SynthesizedOps(Last(objs)) else [])
  }

  /** The object map after pass 2: each device resource's handle under its exact name. */
  function ObjectsOf(d: map<string, ServiceObject>, objs: seq<DeviceObject>): map<string, ServiceObject>
    decreases |objs|
  {
    if objs == [] then d
    else ObjectsOf(d, Init(objs))[Last(objs).name := CreateServiceObject(Last(objs))]
  }

  function ObjectKeys(objs: seq<DeviceObject>): set<string>
  {
    set i | 0 <= i < |objs| :: Lower(objs[i].name)
  }

  function ObjectNames(objs: seq<DeviceObject>): set<string>
  {
    set i | 0 <= i < |objs| :: objs[i].name
  }

  lemma UncoveredInit(m: DeviceOperations, objs: seq<DeviceObject>, i: int)
    requires 0 <= i < |objs| - 1
    ensures Uncovered(m, objs, i) <==> Uncovered(m, Init(objs), i)
  {
    assert forall j :: 0 <= j <= i ==> Init(objs)[j] == objs[j];
  }

  /** One step of pass 2, as the loop over `objs` takes it at index `i`. */
  lemma MaterializedStep(m: DeviceOperations, d: map<string, ServiceObject>, objs: seq<DeviceObject>, i: int)
    requires 0 <= i < |objs|
    ensures Lower(objs[i].name) !in Materialized(m, objs[..i]) <==> Uncovered(m, objs, i)
    ensures Materialized(m, objs[..i + 1]) ==
      if Uncovered(m, objs, i) then Materialized(m, objs[..i])[Lower(objs[i].name) := Synthesize(objs[i])]
      else Materialized(m, objs[..i])
    ensures MaterializedOps(m, objs[..i + 1]) ==
      MaterializedOps(m, objs[..i]) + (if Uncovered(m, objs, i) then SynthesizedOps(objs[i]) else [])
    ensures ObjectsOf(d, objs[..i + 1]) == ObjectsOf(d, objs[..i])[objs[i].name := CreateServiceObject(objs[i])]
  {
    var prefix := objs[..i + 1];
    assert Init(prefix) == objs[..i] && Last(prefix) == objs[i];
    assert forall j :: 0 <= j <= i ==> prefix[j] == objs[j];
    assert Uncovered(m, prefix, i) <==> Uncovered(m, objs, i);
    MaterializedKeysAre(m, objs[..i]);
    if Lower(objs[i].name) in Materialized(m, objs[..i]) && Lower(objs[i].name) !in m {
      var j :| 0 <= j < i && Lower(objs[..i][j].name) == Lower(objs[i].name);
      assert objs[..i][j] == objs[j];
    }
    if !Uncovered(m, objs, i) && Lower(objs[i].name) !in m {
      var j :| 0 <= j < i && Lower(objs[j].name) == Lower(objs[i].name);
      assert objs[..i][j] == objs[j];
      assert Lower(objs[i].name) in ObjectKeys(objs[..i]);
    }
  }

  lemma {:induction false} MaterializedKeysAre(m: DeviceOperations, objs: seq<DeviceObject>)
    ensures Materialized(m, objs).Keys == m.Keys + ObjectKeys(objs)
    decreases |objs|
  {
    if objs != [] {
      MaterializedKeysAre(m, Init(objs));
      assert ObjectKeys(objs) == ObjectKeys(Init(objs)) + {Lower(Last(objs).name)} by {
        forall k | k in ObjectKeys(objs) ensures k in ObjectKeys(Init(objs)) + {Lower(Last(objs).name)} {
          var i :| 0 <= i < |objs| && Lower(objs[i].name) == k;
          if i < |objs| - 1 { assert Init(objs)[i] == objs[i]; }
        }
        forall k | k in ObjectKeys(Init(objs)) ensures k in ObjectKeys(objs) {
          var i :| 0 <= i < |Init(objs)| && Lower(Init(objs)[i].name) == k;
          assert Init(objs)[i] == objs[i];
        }
      }
      if !Uncovered(m, objs, |objs| - 1) {
        var k := Lower(Last(objs).name);
        if k !in m {
          var j :| 0 <= j < |objs| - 1 && Lower(objs[j].name) == k;
          assert Init(objs)[j] == objs[j];
          assert k in ObjectKeys(Init(objs));
        }
      }
    }
  }

  /** Precedence: an entry present before pass 2, in particular one declared by an
      explicit resource, is neither overwritten nor extended. */
  lemma {:induction false} CoveredKeysKept(m: DeviceOperations, objs: seq<DeviceObject>, k: string)
    requires k in m
    ensures k in Materialized(m, objs) && Materialized(m, objs)[k] == m[k]
    decreases |objs|
  {
    if objs != [] {
      CoveredKeysKept(m, Init(objs), k);
    }
  }

  /** An uncovered device resource's entry is exactly the map synthesised from its flag
      (possibly empty, but present). */
  lemma {:induction false} UncoveredSynthesized(m: DeviceOperations, objs: seq<DeviceObject>, i: int)
    requires 0 <= i < |objs| && Uncovered(m, objs, i)
    ensures Lower(objs[i].name) in Materialized(m, objs)
    ensures Materialized(m, objs)[Lower(objs[i].name)] == Synthesize(objs[i])
    decreases |objs|
  {
    if i < |objs| - 1 {
      UncoveredInit(m, objs, i);
      assert Init(objs)[i] == objs[i];
      UncoveredSynthesized(m, Init(objs), i);
    }
  }

  /** Every synthesised operation targets, and is parameterised by, a device resource
      whose lower-cased name pass 1 did not declare. */
  lemma {:induction false} SynthesizedOnlyUncovered(m: DeviceOperations, objs: seq<DeviceObject>)
    ensures forall op :: op in MaterializedOps(m, objs) ==>
      op.parameter == op.objectName && Lower(op.objectName) !in m &&
      (exists i :: 0 <= i < |objs| && objs[i].name == op.objectName)
    decreases |objs|
  {
    if objs != [] {
      SynthesizedOnlyUncovered(m, Init(objs));
      forall op | op in MaterializedOps(m, Init(objs))
        ensures exists i :: 0 <= i < |objs| && objs[i].name == op.objectName
      {
        var i :| 0 <= i < |Init(objs)| && Init(objs)[i].name == op.objectName;
        assert objs[i] == Init(objs)[i];
      }
    }
  }

  lemma {:induction false} ObjectsKeysAre(d: map<string, ServiceObject>, objs: seq<DeviceObject>)
    ensures ObjectsOf(d, objs).Keys == d.Keys + ObjectNames(objs)
    decreases |objs|
  {
    if objs != [] {
      ObjectsKeysAre(d, Init(objs));
      assert ObjectNames(objs) == ObjectNames(Init(objs)) + {Last(objs).name} by {
        forall k | k in ObjectNames(objs) ensures k in ObjectNames(Init(objs)) + {Last(objs).name} {
          var i :| 0 <= i < |objs| && objs[i].name == k;
          if i < |objs| - 1 { assert Init(objs)[i] == objs[i]; }
        }
        forall k | k in ObjectNames(Init(objs)) ensures k in ObjectNames(objs) {
          var i :| 0 <= i < |Init(objs)| && Init(objs)[i].name == k;
          assert Init(objs)[i] == objs[i];
        }
      }
    }
  }

  /** Every device resource has a handle under its exact (case-sensitive) name, built from
      the last device resource of that name. */
  lemma {:induction false} ObjectsCoverResources(d: map<string, ServiceObject>, objs: seq<DeviceObject>, i: int)
    requires 0 <= i < |objs|
    requires forall j :: i < j < |objs| ==> objs[j].name != objs[i].name
    ensures objs[i].name in ObjectsOf(d, objs)
    ensures ObjectsOf(d, objs)[objs[i].name] == CreateServiceObject(objs[i])
    decreases |objs|
  {
    if i < |objs| - 1 {
      assert Init(objs)[i] == objs[i];
      ObjectsCoverResources(d, Init(objs), i);
    }
  }

  // ---------------------------------------------------------------------------
  // Every stored operation is collected

  /** Every operation stored in the operation map `c` occurs in `ops`. */
  predicate OpsWithin(c: DeviceOperations, ops: seq<ResourceOperation>)
  {
    forall k, kind, op :: k in c && kind in c[k] && c[k][kind].Some? && op in c[k][kind].value ==> op in ops
  }

  lemma OpsWithinExtend(c: DeviceOperations, ops: seq<ResourceOperation>, more: seq<ResourceOperation>)
    requires OpsWithin(c, ops)
    ensures OpsWithin(c, ops + more)
  {
  }

  lemma OpsWithinPut(c: DeviceOperations, ops: seq<ResourceOperation>, k: string, v: OperationMap)
    requires OpsWithin(c, ops)
    requires forall kind, op :: kind in v && v[kind].Some? && op in v[kind].value ==> op in ops
    ensures OpsWithin(c[k := v], ops)
  {
  }

  lemma SynthesizedWithin(deviceObject: DeviceObject, prior: seq<ResourceOperation>)
    ensures var entry := Synthesize(deviceObject);
      forall kind, op :: kind in entry && entry[kind].Some? && op in entry[kind].value ==>
        op in prior + SynthesizedOps(deviceObject)
  {
    SynthesizedOpsStored(deviceObject);
  }

  lemma {:induction false} DeclaredWithin(m: DeviceOperations, rs: seq<ProfileResource>, ops: seq<ResourceOperation>)
    requires OpsWithin(m, ops)
    ensures OpsWithin(Declared(m, rs), ops + DeclaredOps(rs))
    decreases |rs|
  {
    if rs != [] {
      DeclaredWithin(m, Init(rs), ops);
      var r := Last(rs);
      var prior := ops + DeclaredOps(Init(rs));
      var added := OrEmpty(r.getOps) + OrEmpty(r.setOps);
      AppendAssociative(ops, DeclaredOps(Init(rs)), OrEmpty(r.getOps));
      AppendAssociative(ops, DeclaredOps(Init(rs)) + OrEmpty(r.getOps), OrEmpty(r.setOps));
      AppendAssociative(prior, OrEmpty(r.getOps), OrEmpty(r.setOps));
      assert ops + DeclaredOps(rs) == prior + added;
      OpsWithinExtend(Declared(m, Init(rs)), prior, added);
      OpsWithinPut(Declared(m, Init(rs)), prior + added, Lower(r.name), DeclaredOperationMap(r));
    }
  }

  lemma {:induction false} MaterializedWithin(m: DeviceOperations, objs: seq<DeviceObject>, ops: seq<ResourceOperation>)
    requires OpsWithin(m, ops)
    ensures OpsWithin(Materialized(m, objs), ops + MaterializedOps(m, objs))
    decreases |objs|
  {
    if objs != [] {
      MaterializedWithin(m, Init(objs), ops);
      var prior := ops + MaterializedOps(m, Init(objs));
      var extra := if Uncovered(m, objs, |objs| - 1) then SynthesizedOps(Last(objs)) else [];
      AppendAssociative(ops, MaterializedOps(m, Init(objs)), extra);
      OpsWithinExtend(Materialized(m, Init(objs)), prior, extra);
      if Uncovered(m, objs, |objs| - 1) {
        SynthesizedWithin(Last(objs), prior);
        OpsWithinPut(Materialized(m, Init(objs)), prior + extra, Lower(Last(objs).name), Synthesize(Last(objs)));
      }
    }
  }
}
