/**
 buildNativeSpec as a whole.
 */
module NativeBuild {
  import opened GoStrings
  import opened Environment
  import opened DriverConfig
  import opened NativeSpec
  import opened UserNamespace
  import opened Sorting

  datatype CreateOptions = CreateOptions(
    complete: bool, privileged: bool, hostDevices: bool, volumesFrom: bool,
    deviceRequests: seq<DeviceRequest>, env: seq<string>, securityOpt: seq<string>,
    networkMode: string, endpoints: map<string, seq<string>>,
    ports: seq<PortEntry>, binds: seq<string>, mounts: seq<Mount>, tmpfs: map<string, string>)

  datatype Spec = Spec(
    env: map<string, string>, devices: seq<string>, noNewPrivileges: bool,
    netMode: string, networks: map<string, seq<string>>, ports: seq<PortMapping>, userNs: UserNs,
    mounts: seq<NativeMount>, volumes: seq<NativeVolume>)

  const NO_NEW_PRIVILEGES := "no-new-privileges:true"

  /** Everything asked for can be expressed; otherwise the request is refused as a whole. */
  predicate Expressible(o: CreateOptions, usernsMode: string, uid: seq<IdMapping>, gid: seq<IdMapping>) {
    && o.complete && !o.privileged && !o.hostDevices && !o.volumesFrom
    && (forall i :: 0 <= i < |o.deviceRequests| ==> DeviceOk(o.deviceRequests[i]))
    && (forall i :: 0 <= i < |o.securityOpt| ==> o.securityOpt[i] == "no-new-privileges:true")
    && PortsOk(o.ports)
    && ModeOk(usernsMode) && MapsOk(Cut(usernsMode, ':').before, uid, gid)
    && BindsOk(o.binds) && MountsOk(o.mounts)
  }

  /** The mounts of the request in the order of the spec. */
  function Items(o: CreateOptions, targets: seq<string>): seq<Item>
    requires BindsOk(o.binds) && MountsOk(o.mounts) && forall t :: t in targets ==> t in o.tmpfs
  {
    BindItems(o.binds) + MountItems(o.mounts) + TmpfsItems(targets, o.tmpfs)
  }

  /** The keys of a map as a walk over it gives them: each once, in any order. */
  method WalkKeys(m: map<string, string>) returns (order: seq<string>)
    ensures forall k :: k in order <==> k in m
    ensures |order| == |m|
  {
    order := [];
    var todo := m.Keys;
    while todo != {}
      invariant todo <= m.Keys && (forall k :: k in order <==> k in m && k !in todo)
      invariant |order| + |todo| == |m|
      decreases |todo|
    {
      var k :| k in todo;
      order := order + [k];
      todo := todo - {k};
    }
  }

  method ReadSecurityOptions(opts: seq<string>) returns (ok: bool, noNewPrivileges: bool)
    ensures ok <==> forall i :: 0 <= i < |opts| ==> opts[i] == NO_NEW_PRIVILEGES
    ensures ok ==> noNewPrivileges == (opts != [])
  {
    noNewPrivileges := false;
    for i := 0 to |opts|
      invariant forall j :: 0 <= j < i ==> opts[j] == NO_NEW_PRIVILEGES
      invariant noNewPrivileges == (i > 0)
    {
      if opts[i] == NO_NEW_PRIVILEGES {
        noNewPrivileges := true;
      } else {
        return false, noNewPrivileges;
      }
    }
    ok := true;
  }

  /** The mount loops, one after the other. */
  method BuildMounts(o: CreateOptions) returns (ok: bool, mounts: seq<NativeMount>, volumes: seq<NativeVolume>, ghost targets: seq<string>)
    ensures ok <==> BindsOk(o.binds) && MountsOk(o.mounts)
    ensures (forall t :: t in targets <==> t in o.tmpfs) && |targets| == |o.tmpfs| && Sorted(targets, Before)
    ensures ok ==> Holds(mounts, volumes, Items(o, targets))
  {
    var order := WalkKeys(o.tmpfs);
    var sorted := SortTargets(order);
    SameMembers(sorted, order);
    targets := sorted;
    ok, mounts, volumes := AddBinds(o.binds);
    if !ok {
      return;
    }
    ok, mounts, volumes := AddMounts(o.mounts, mounts, volumes, BindItems(o.binds));
    if !ok {
      return;
    }
    mounts := AddTmpfs(sorted, o.tmpfs, mounts, volumes, BindItems(o.binds) + MountItems(o.mounts));
  }

  method BuildNativeSpec(o: CreateOptions, usernsMode: string, uid: seq<IdMapping>, gid: seq<IdMapping>)
    returns (r: Option<Spec>, ghost targets: seq<string>)
    ensures r.Some? <==> Expressible(o, usernsMode, uid, gid)
    ensures r.Some? ==>
              && (forall t :: t in targets <==> t in o.tmpfs) && |targets| == |o.tmpfs| && Sorted(targets, Before)
              && Holds(r.value.mounts, r.value.volumes, Items(o, targets))
    ensures r.Some? ==>
              && r.value.env == NativeMap(o.env) && r.value.devices == AllDevices(o.deviceRequests)
              && PublishesAll(r.value.ports, o.ports) && r.value.noNewPrivileges == (o.securityOpt != [])
              && r.value.networks == o.endpoints
              && r.value.netMode == (if o.endpoints == map[] then o.networkMode else "bridge")
              && CarriesMode(r.value.userNs, usernsMode, uid, gid)
  {
    targets := [];
    if !o.complete || usernsMode == "" || o.privileged || o.hostDevices || o.volumesFrom {
      return None, [];
    }
    var ok, devices := TranslateDevices(o.deviceRequests);
    if !ok {
      return None, [];
    }
    var env := NativeEnv(o.env);
    var noNewPrivileges;
    ok, noNewPrivileges := ReadSecurityOptions(o.securityOpt);
    if !ok {
      return None, [];
    }
    var netMode := if o.endpoints != map[] then "bridge" else o.networkMode;
    var ports;
    ok, ports := TranslatePorts(o.ports);
    if !ok {
      return None, [];
    }
    var userNs := BuildUserNs(usernsMode, uid, gid);
    if userNs.None? {
      return None, [];
    }
    var mounts, volumes;
    ok, mounts, volumes, targets := BuildMounts(o);
    if !ok {
      return None, [];
    }
    r := Some(Spec(env, devices, noNewPrivileges, netMode, o.endpoints, ports, userNs.value, mounts, volumes));
  }

  /**
   Conservation: an accepted request has as many mounts and volumes as it asked for, and
   every bind, engine mount and tmpfs target has its destination among them.
   */
  lemma NothingRequestedIsLost(o: CreateOptions, mounts: seq<NativeMount>, volumes: seq<NativeVolume>, targets: seq<string>)
    requires BindsOk(o.binds) && MountsOk(o.mounts)
    requires (forall t :: t in targets <==> t in o.tmpfs) && |targets| == |o.tmpfs|
    requires Holds(mounts, volumes, Items(o, targets))
    ensures |mounts| + |volumes| == |o.binds| + |o.mounts| + |o.tmpfs|
    ensures forall i :: 0 <= i < |o.binds| ==> Arrived(BindItem(o.binds[i]).value, mounts, volumes)
    ensures forall i :: 0 <= i < |o.mounts| ==> Arrived(MountItem(o.mounts[i]), mounts, volumes)
    ensures forall t :: t in o.tmpfs ==> Arrived(M(NativeMount("tmpfs", "tmpfs", t, Split(o.tmpfs[t], ','))), mounts, volumes)
  {
    var items := Items(o, targets);
    EveryItemArrives(items);
    var a, b, c := BindItems(o.binds), MountItems(o.mounts), TmpfsItems(targets, o.tmpfs);
    assert items == a + b + c;
    forall x | x in a || x in b || x in c
      ensures Arrived(x, mounts, volumes)
    {
      assert x in a + b + c;
    }
    forall i | 0 <= i < |o.binds|
      ensures Arrived(BindItem(o.binds[i]).value, mounts, volumes)
    {
      assert a[i] in a;
    }
    forall i | 0 <= i < |o.mounts|
      ensures Arrived(MountItem(o.mounts[i]), mounts, volumes)
    {
      assert b[i] in b;
    }
    forall t | t in o.tmpfs
      ensures Arrived(M(NativeMount("tmpfs", "tmpfs", t, Split(o.tmpfs[t], ','))), mounts, volumes)
    {
      var k :| 0 <= k < |targets| && targets[k] == t;
      assert c[k] in c;
    }
  }

  predicate Arrived(i: Item, mounts: seq<NativeMount>, volumes: seq<NativeVolume>) {
    if i.M? then i.mount in mounts else i.volume in volumes
  }
}
