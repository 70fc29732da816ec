/**
 The driver's Create and Delete as the code runs them: an engine client whose calls
 change the engine, the flags, and the deferred cleanup. A ghost monitor follows the
 calls, so everything proved about runs holds of these methods.
 */
module Driver {
  import opened GoStrings
  import opened Names
  import opened Engine
  import opened Sandbox
  import opened Provision
  import opened Runs
  import opened Isolation
  import opened Frame
  import opened Success
  import opened SandboxValues
  import opened Rollback
  import opened Cancellation
  import opened Deletion
  import opened Solo
  import opened Assembly

  /** A check that failed. */
  predicate Denial(ev: Event) {
    ev.call.Check? && !ev.ok
  }

  predicate Denied(trace: seq<Event>) {
    trace != [] && (Denied(trace[..|trace| - 1]) || Denial(trace[|trace| - 1]))
  }

  lemma DeniedSnoc(trace: seq<Event>, ev: Event)
    ensures Denied(trace + [ev]) == (Denied(trace) || Denial(ev))
  {
    assert (trace + [ev])[..|trace|] == trace;
  }

  /** The engine client. Every call may fail for reasons of the engine's own. */
  class Client {
    var containers: map<Id, Container>
    var networks: map<string, Network>
    var volumes: set<string>
    var issued: set<Id>

    ghost const cfg: Config
    ghost var start: Place
    ghost var trace: seq<Event>
    ghost var denied: bool
    ghost var place: Option<Place>

    ghost function Now(): State
      reads this
    {
      State(containers, networks, volumes, issued)
    }

    ghost predicate Valid()
      reads this
    {
      && place == Ran(cfg, start, trace) && denied == Denied(trace)
      && (place.Some? ==> place.value.st == Now())
    }

    /** The monitor stands at this thread. */
    ghost predicate At(t: Thread)
      reads this
    {
      Valid() && place == Some(Place(Now(), t))
    }

    /** The same Create or Delete is watched, and no check has failed since. */
    twostate predicate Same()
      reads this
    {
      start == old(start) && denied == old(denied)
    }

    /** The same Create is watched, and no check has failed since if this holds. */
    twostate predicate SameIf(granted: bool)
      reads this
    {
      start == old(start) && (denied ==> old(denied) || !granted)
    }

    /** Exactly this call was made, with this outcome, and the monitor moved on. */
    twostate predicate Did(ev: Event)
      reads this
    {
      && Valid() && start == old(start) && trace == old(trace) + [ev] && denied == (old(denied) || Denial(ev))
      && Possible(old(Now()), ev) && Now() == Effect(old(Now()), ev)
      && place == Stepped(cfg, old(place), ev)
    }

    constructor (ghost cfg: Config)
      ensures Valid() && this.cfg == cfg && Now() == State(map[], map[], {}, {}) && place.Some? && place.value.t == Idle
    {
      containers, networks, volumes, issued := map[], map[], {}, {};
      this.cfg := cfg;
      trace, denied := [], false;
      start := Place(State(map[], map[], {}, {}), Idle);
      place := Some(Place(State(map[], map[], {}, {}), Idle));
    }

    /** Begin to watch one Create or Delete. */
    ghost method Watch(t: Thread)
      modifies this`start, this`trace, this`denied, this`place
      ensures At(t) && start == Place(Now(), t) && trace == [] && !denied
    {
      start, trace, denied, place := Place(Now(), t), [], false, Some(Place(Now(), t));
    }

    ghost method Note(before: State, ev: Event)
      requires place == Ran(cfg, start, trace) && denied == Denied(trace) && (place.Some? ==> place.value.st == before)
      requires Possible(before, ev) && Now() == Effect(before, ev)
      modifies this`trace, this`denied, this`place
      ensures Valid() && start == old(start) && trace == old(trace) + [ev] && denied == (old(denied) || Denial(ev))
      ensures place == Stepped(cfg, old(place), ev)
    {
      RanSnoc(cfg, start, trace, ev);
      DeniedSnoc(trace, ev);
      trace, denied, place := trace + [ev], denied || Denial(ev), Stepped(cfg, place, ev);
    }

    /** The outcome of a check that does not concern the engine. */
    ghost method Checked(ok: bool)
      requires Valid()
      modifies this`trace, this`denied, this`place
      ensures Did(Event(Check, ok))
    {
      Note(Now(), Event(Check, ok));
    }

    /** ContainerList filtered by the sandbox and name labels; None is a failed call. */
    method ContainerList(n: string) returns (found: Option<bool>)
      requires Valid()
      modifies this`trace, this`denied, this`place
      ensures Did(Event(List(n, found.Some? && found.value), found.Some?))
      ensures found.Some? ==> found.value == HasManaged(Now(), n)
    {
      found := None;
      if * {
        found := Some(exists id :: id in containers && Managed(containers[id], n));
      }
      Note(Now(), Event(List(n, found.Some? && found.value), found.Some?));
    }

    method NetworkInspect(net: string) returns (got: Option<Network>)
      requires Valid()
      modifies this`trace, this`denied, this`place
      ensures Did(Event(InspectNet(net, Seen(got)), got.Some?))
    {
      var answered: bool := *;
      got := if answered && net in networks then Some(networks[net]) else None;
      Note(Now(), Event(InspectNet(net, Seen(got)), got.Some?));
    }

    /** The native verify callback on the network as it is stored. */
    method NetworkVerify(net: string) returns (ok: bool)
      requires Valid()
      modifies this`trace, this`denied, this`place
      ensures Did(Event(VerifyNet(net), ok))
    {
      var answered: bool := *;
      ok := false;
      if answered && net in networks && NativeNetwork.Parsed(Native(networks[net])) {
        ok := NativeNetwork.Verify(Some(Native(networks[net])), true);
      }
      Note(Now(), Event(VerifyNet(net), ok));
    }

    method NetworkCreate(net: string, spec: Network) returns (ok: bool)
      requires Valid()
      modifies this`networks, this`trace, this`denied, this`place
      ensures Did(Event(CreateNet(net, spec), ok))
    {
      ghost var before := Now();
      ok := *;
      ok := ok && net !in networks;
      if ok {
        networks := networks[net := spec];
      }
      Note(before, Event(CreateNet(net, spec), ok));
    }

    method NetworkRemove(net: string) returns (ok: bool)
      requires Valid()
      modifies this`networks, this`trace, this`denied, this`place
      ensures Did(Event(RemoveNet(net), ok))
    {
      ghost var before := Now();
      ok := *;
      ok := ok && net in networks && !exists id :: id in containers && net in containers[id].networks;
      if ok {
        networks := networks - {net};
      }
      Note(before, Event(RemoveNet(net), ok));
    }

    method VolumeInspect(v: string) returns (ok: bool)
      requires Valid()
      modifies this`trace, this`denied, this`place
      ensures Did(Event(InspectVol(v), ok))
    {
      ok := *;
      ok := ok && v in volumes;
      Note(Now(), Event(InspectVol(v), ok));
    }

    method VolumeCreate(v: string) returns (ok: bool)
      requires Valid()
      modifies this`volumes, this`trace, this`denied, this`place
      ensures Did(Event(CreateVol(v), ok))
    {
      ghost var before := Now();
      ok := *;
      if ok {
        volumes := volumes + {v};
      }
      Note(before, Event(CreateVol(v), ok));
    }

    method VolumeRemove(v: string) returns (ok: bool)
      requires Valid()
      modifies this`volumes, this`trace, this`denied, this`place
      ensures Did(Event(RemoveVol(v), ok))
    {
      ghost var before := Now();
      ok := *;
      ok := ok && !exists id :: id in containers && v in containers[id].volumes;
      if ok {
        volumes := volumes - {v};
      }
      Note(before, Event(RemoveVol(v), ok));
    }

    method ContainerCreate(c: Container) returns (id: Id, ok: bool)
      requires Valid()
      modifies this`containers, this`issued, this`trace, this`denied, this`place
      ensures Did(Event(CreateCtr(id, c), ok))
      ensures ok ==> id in containers && containers[id] == c
    {
      ghost var before := Now();
      id, ok := *, *;
      ok := ok && id !in issued && c.networks <= networks.Keys && c.volumes <= volumes
        && !exists j :: j in containers && containers[j].name == c.name;
      if ok {
        containers, issued := containers[id := c], issued + {id};
      }
      Note(before, Event(CreateCtr(id, c), ok));
    }

    method NetworkConnect(id: Id, net: string) returns (ok: bool)
      requires Valid()
      modifies this`containers, this`trace, this`denied, this`place
      ensures Did(Event(Connect(id, net), ok))
    {
      ghost var before := Now();
      ok := *;
      ok := ok && id in containers && net in networks;
      if ok {
        containers := containers[id := containers[id].(networks := containers[id].networks + {net})];
      }
      Note(before, Event(Connect(id, net), ok));
    }

    method ContainerStart(id: Id) returns (ok: bool)
      requires Valid()
      modifies this`trace, this`denied, this`place
      ensures Did(Event(Start(id), ok))
    {
      ok := *;
      ok := ok && id in containers;
      Note(Now(), Event(Start(id), ok));
    }

    /** Wait for the sidecar's CA file and for its port. */
    method WaitReady(id: Id) returns (ok: bool)
      requires Valid()
      modifies this`trace, this`denied, this`place
      ensures Did(Event(Await(id), ok))
    {
      ok := *;
      ok := ok && id in containers;
      Note(Now(), Event(Await(id), ok));
    }

    method ContainerRemove(id: Id) returns (ok: bool)
      requires Valid()
      modifies this`containers, this`trace, this`denied, this`place
      ensures Did(Event(RemoveId(id), ok))
    {
      ghost var before := Now();
      ok := *;
      ok := ok && id in containers;
      if ok {
        containers := containers - {id};
      }
      Note(before, Event(RemoveId(id), ok));
    }

    method ContainerRemoveNamed(name: string) returns (ok: bool)
      requires Valid()
      modifies this`containers, this`trace, this`denied, this`place
      ensures Did(Event(RemoveName(name), ok))
    {
      ghost var before := Now();
      ok := *;
      ok := ok && exists j :: j in containers && containers[j].name == name;
      if ok {
        containers := WithoutName(containers, name);
      }
      Note(before, Event(RemoveName(name), ok));
    }

    method ContainerInspect(id: Id) returns (got: Option<Container>)
      requires Valid()
      modifies this`trace, this`denied, this`place
      ensures Did(Event(InspectCtr(id, SeenCtr(got)), got.Some?))
    {
      var answered: bool := *;
      got := if answered && id in containers then Some(containers[id]) else None;
      Note(Now(), Event(InspectCtr(id, SeenCtr(got)), got.Some?));
    }
  }

  function Seen(got: Option<Network>): Network {
    if got.Some? then got.value else DockerNetwork(false)
  }

  function SeenCtr(got: Option<Container>): Container {
    if got.Some? then got.value else Container("", Foreign, map[], [], [], {}, {})
  }

  // ----- the pieces of Create -----

  /** A network that has to isolate, made by the callback, can be verified. */
  predicate Verifiable(cfg: Config, internal: bool) {
    internal && cfg.nativeCreate ==> cfg.nativeVerify
  }

  method EnsureNetwork(c: Client, cfg: Config, net: string, internal: bool, ghost t: Thread) returns (created: bool, err: bool)
    requires cfg == c.cfg && t.Creating? && c.At(t)
    requires t.pc == NetInspect && net == Net(cfg, t.plan.name) && internal == t.plan.proxied && !t.netMade
    modifies c
    ensures c.SameIf(Verifiable(cfg, internal))
    ensures err ==> c.At(t.(pc := Failed))
    ensures !err ==> c.At(AfterNetwork(t.(netMade := created))) && Verifiable(cfg, internal)
  {
    created, err := false, true;
    if internal && cfg.nativeCreate && !cfg.nativeVerify {
      c.Checked(false);
      assert c.At(t.(pc := Failed));
      return;
    }
    var inspected := c.NetworkInspect(net);
    NetworkNext(cfg, t, inspected);
    if inspected.Some? {
      err := ReuseNetwork(c, cfg, net, internal, inspected.value, t);
      return;
    }
    created, err := MakeNetwork(c, cfg, net, internal, t);
  }

  /** Where a network that was found leads. */
  function AfterFound(cfg: Config, internal: bool, got: Network, t: Thread): Thread
    requires t.Creating?
  {
    if RefusesReuse(cfg, internal, got) then t.(pc := Failed)
    else if internal && cfg.nativeVerify then t.(pc := NetReuse)
    else AfterNetwork(t)
  }

  lemma NetworkNext(cfg: Config, t: Thread, got: Option<Network>)
    requires t.Creating? && t.pc == NetInspect && Verifiable(cfg, t.plan.proxied)
    ensures Next(cfg, t, Event(InspectNet(Net(cfg, t.plan.name), Seen(got)), got.Some?)) ==
            Some(if got.Some? then AfterFound(cfg, t.plan.proxied, got.value, t) else t.(pc := NetMake))
  {
  }

  /** A network that is there is taken only if it isolates, where it has to. */
  method ReuseNetwork(c: Client, cfg: Config, net: string, internal: bool, got: Network, ghost t: Thread) returns (err: bool)
    requires cfg == c.cfg && t.Creating? && c.At(AfterFound(cfg, internal, got, t))
    requires net == Net(cfg, t.plan.name) && internal == t.plan.proxied
    modifies c
    ensures c.Same()
    ensures c.At(if err then t.(pc := Failed) else AfterNetwork(t))
  {
    if internal && !got.internal {
      return true;
    }
    if internal && !cfg.nativeVerify && (got.gatewayV4 != "isolated" || got.gatewayV6 != "isolated") {
      return true;
    }
    if internal && cfg.nativeVerify {
      assert c.At(t.(pc := NetReuse));
      var ok := c.NetworkVerify(net);
      assert AfterNetwork(t.(pc := NetReuse)) == AfterNetwork(t);
      return !ok;
    }
    return false;
  }

  method MakeNetwork(c: Client, cfg: Config, net: string, internal: bool, ghost t: Thread) returns (created: bool, err: bool)
    requires cfg == c.cfg && t.Creating? && c.At(t.(pc := NetMake))
    requires net == Net(cfg, t.plan.name) && internal == t.plan.proxied && !t.netMade
    modifies c
    ensures c.Same()
    ensures err ==> c.At(t.(pc := Failed))
    ensures !err ==> created && c.At(AfterNetwork(t.(netMade := true)))
  {
    if cfg.nativeCreate {
      created, err := NativeNetworkCreate(c, cfg, net, internal, t);
      return;
    }
    var ok := c.NetworkCreate(net, DockerNetwork(internal));
    assert c.At(if ok then AfterNetwork(t.(netMade := true)) else t.(pc := Failed));
    return ok, !ok;
  }

  /** Create through the native callback, and take the network back when it does not verify. */
  method NativeNetworkCreate(c: Client, cfg: Config, net: string, internal: bool, ghost t: Thread) returns (created: bool, err: bool)
    requires cfg == c.cfg && t.Creating? && c.At(t.(pc := NetMake)) && cfg.nativeCreate
    requires net == Net(cfg, t.plan.name) && internal == t.plan.proxied && !t.netMade
    modifies c
    ensures c.Same()
    ensures err ==> c.At(t.(pc := Failed))
    ensures !err ==> created && c.At(AfterNetwork(t.(netMade := true)))
  {
    created, err := false, true;
    var made: Network := *;
    var ok := c.NetworkCreate(net, made);
    if !ok {
      assert c.At(t.(pc := Failed));
      return;
    }
    if internal && cfg.nativeVerify {
      assert c.At(t.(pc := NetCheck));
      ok := VerifyOrRemove(c, cfg, net, t);
      return ok, !ok;
    }
    assert c.At(AfterNetwork(t.(netMade := true)));
    return true, false;
  }

  method VerifyOrRemove(c: Client, cfg: Config, net: string, ghost t: Thread) returns (ok: bool)
    requires cfg == c.cfg && t.Creating? && c.At(t.(pc := NetCheck)) && net == Net(cfg, t.plan.name)
    modifies c
    ensures c.Same()
    ensures c.At(if ok then AfterNetwork(t.(netMade := true)) else t.(pc := Failed))
  {
    ok := c.NetworkVerify(net);
    if !ok {
      assert c.At(t.(pc := NetUndo));
      var _ := c.NetworkRemove(net);
    }
  }

  predicate VolumeStep(t: Thread, v: string)
    requires t.Creating?
  {
    || (t.pc == CaInspect && v == CaVolume(t.plan.name))
    || (t.pc == SshInspect && v == SshVolume(t.plan.name))
    || (t.pc == DataInspect && v == DataVolume(t.plan.name))
  }

  /** Where Create goes on once a volume is there. */
  function AfterVolume(t: Thread, created: bool): Thread
    requires t.Creating?
  {
    if t.pc == CaInspect then AfterCa(t.(volsMade := t.volsMade + if created then {CaVolume(t.plan.name)} else {}))
    else if t.pc == SshInspect then
      t.(pc := ProxyCheck, volsMade := t.volsMade + if created then {SshVolume(t.plan.name)} else {})
    else t.(pc := LastCheck)
  }

  function Making(t: Thread): Thread
    requires t.Creating?
  {
    t.(pc := if t.pc == CaInspect then CaMake else if t.pc == SshInspect then SshMake else DataMake)
  }

  lemma VolumeSeen(cfg: Config, t: Thread, v: string)
    requires t.Creating? && VolumeStep(t, v)
    ensures Next(cfg, t, Event(InspectVol(v), true)) == Some(AfterVolume(t, false))
    ensures Next(cfg, t, Event(InspectVol(v), false)) == Some(Making(t))
  {
    assert t.volsMade + {} == t.volsMade;
    assert AfterVolume(t, false).volsMade == t.volsMade;
  }

  lemma VolumeNext(cfg: Config, t: Thread, v: string)
    requires t.Creating? && VolumeStep(t, v)
    ensures Next(cfg, Making(t), Event(CreateVol(v), true)) == Some(AfterVolume(t, true))
    ensures Next(cfg, Making(t), Event(CreateVol(v), false)) == Some(Roll(t))
  {
  }

  lemma SidecarNext(cfg: Config, t: Thread, id: Id)
    requires t.Creating? && t.pc == ProxyCheck && !t.proxyMade
    ensures var u := t.(proxyId := id);
            && Next(cfg, t, Event(Check, true)) == Some(t.(pc := ProxyMake))
            && Next(cfg, t, Event(Check, false)) == Some(Roll(t))
            && Next(cfg, t.(pc := ProxyMake), Event(CreateCtr(id, t.plan.sidecar), false)) == Some(Roll(t))
            && Next(cfg, t.(pc := ProxyMake), Event(CreateCtr(id, t.plan.sidecar), true)) == Some(u.(pc := ProxyBridge))
            && (forall ok :: Next(cfg, u.(pc := ProxyBridge), Event(Connect(id, "bridge"), ok)) == Some(u.(pc := if ok then ProxyStart else ProxyUndo)))
            && (forall ok :: Next(cfg, u.(pc := ProxyStart), Event(Start(id), ok)) == Some(u.(pc := if ok then ProxyReady else ProxyUndo)))
            && Next(cfg, u.(pc := ProxyReady), Event(Await(id), true)) == Some(AfterProxy(u.(proxyMade := true)))
            && Next(cfg, u.(pc := ProxyReady), Event(Await(id), false)) == Some(u.(pc := ProxyUndo))
  {
  }

  lemma RollNext(cfg: Config, t: Thread, ok: bool)
    requires t.Creating?
    ensures t.proxyMade ==>
              Next(cfg, Roll(t), Event(RemoveName(ProxyName(t.plan.name)), ok)) == Some(Roll(t.(proxyMade := false)))
    ensures !t.proxyMade ==> forall v :: v in t.volsMade ==>
              Next(cfg, Roll(t), Event(RemoveVol(v), ok)) == Some(Roll(t.(volsMade := t.volsMade - {v})))
    ensures !t.proxyMade && t.volsMade == {} && t.netMade ==>
              Next(cfg, Roll(t), Event(RemoveNet(Net(cfg, t.plan.name)), ok)) == Some(t.(pc := Failed, netMade := false))
  {
  }

  method EnsureVolume(c: Client, v: string, ghost t: Thread) returns (created: bool, err: bool)
    requires t.Creating? && c.At(t) && VolumeStep(t, v)
    modifies c
    ensures c.Same()
    ensures err ==> c.At(Roll(t))
    ensures !err ==> c.At(AfterVolume(t, created))
  {
    VolumeSeen(c.cfg, t, v);
    var ok := c.VolumeInspect(v);
    if ok {
      return false, false;
    }
    assert c.At(Making(t));
    VolumeNext(c.cfg, t, v);
    ok := c.VolumeCreate(v);
    return ok, !ok;
  }

  /** The checks at the head of createProxySidecar. */
  predicate ProxyFilesOk(req: Request) {
    req.policyPath != "" && req.host.proxyFilesOk
  }

  /** createProxySidecar; on any failure after its creation the sidecar is removed again. */
  method CreateProxySidecar(c: Client, req: Request, sidecar: Container, ghost t: Thread) returns (ghost id: Id, err: bool)
    requires t.Creating? && c.At(t) && t.pc == ProxyCheck && sidecar == t.plan.sidecar && !t.proxyMade
    modifies c
    ensures c.SameIf(ProxyFilesOk(req))
    ensures err ==> c.At(Roll(t.(proxyId := id)))
    ensures !err ==> c.At(AfterProxy(t.(proxyId := id, proxyMade := true))) && ProxyFilesOk(req)
  {
    err, id := true, t.proxyId;
    var filesOk := ProxyFilesOk(req);
    SidecarNext(c.cfg, t, id);
    c.Checked(filesOk);
    if !filesOk {
      assert c.At(Roll(t));
      return;
    }
    assert c.At(t.(pc := ProxyMake));
    var newId, ok := c.ContainerCreate(sidecar);
    SidecarNext(c.cfg, t, newId);
    if !ok {
      assert c.At(Roll(t));
      return;
    }
    id := newId;
    ghost var u := t.(proxyId := id);
    assert c.At(u.(pc := ProxyBridge));
    err := StartSidecar(c, newId, u);
  }

  /** Connect, start and wait for a sidecar that exists, or remove it again. */
  method StartSidecar(c: Client, id: Id, ghost u: Thread) returns (err: bool)
    requires u.Creating? && u.proxyId == id && !u.proxyMade && c.At(u.(pc := ProxyBridge))
    modifies c
    ensures c.Same()
    ensures c.At(if err then Roll(u) else AfterProxy(u.(proxyMade := true)))
  {
    SidecarNext(c.cfg, u.(pc := ProxyCheck), id);
    var ok := c.NetworkConnect(id, "bridge");
    if ok {
      assert c.At(u.(pc := ProxyStart));
      ok := c.ContainerStart(id);
      if ok {
        assert c.At(u.(pc := ProxyReady));
        ok := c.WaitReady(id);
        if ok {
          return false;
        }
      }
    }
    assert c.At(u.(pc := ProxyUndo));
    UndoSidecar(c, id, u);
    err := true;
  }

  method UndoSidecar(c: Client, id: Id, ghost u: Thread)
    requires u.Creating? && u.proxyId == id && c.At(u.(pc := ProxyUndo))
    modifies c
    ensures c.Same() && c.At(Roll(u))
  {
    var _ := c.ContainerRemove(id);
    assert Roll(u.(pc := ProxyUndo)) == Roll(u);
    assert c.At(Roll(u));
  }

  /** The deferred function: what it finds flagged it removes, ignoring errors. */
  method Cleanup(c: Client, cfg: Config, n: string, networkCreated: bool, proxyCreated: bool, createdVolumes: set<string>, ghost t: Thread)
    requires cfg == c.cfg && t.Creating? && c.At(Roll(t)) && n == t.plan.name
    requires networkCreated == t.netMade && proxyCreated == t.proxyMade && createdVolumes == t.volsMade
    modifies c
    ensures c.Same()
    ensures c.At(t.(pc := Failed, netMade := false, proxyMade := false, volsMade := {}))
  {
    ghost var u := t;
    if proxyCreated {
      var ok := c.ContainerRemoveNamed(ProxyName(n));
      RollNext(cfg, u, ok);
      u := u.(proxyMade := false);
    }
    var left := createdVolumes;
    while left != {}
      invariant u == t.(proxyMade := false, volsMade := left)
      invariant c.cfg == cfg && c.Same() && c.At(Roll(u))
      decreases |left|
    {
      var v :| v in left;
      var ok := c.VolumeRemove(v);
      RollNext(cfg, u, ok);
      left := left - {v};
      u := u.(volsMade := left);
    }
    if networkCreated {
      var ok := c.NetworkRemove(Net(cfg, n));
      RollNext(cfg, u, ok);
    }
  }

  // ----- Create -----

  /** The checks before the list call. */
  predicate FirstChecksOk(req: Request) {
    req.host.gpuOk && req.host.configOk && req.name != ""
  }

  /** The checks between the list call and ensureNetwork. */
  predicate PreflightOk(req: Request) {
    && req.proxyPort <= 65535 && req.displayPort <= 65535
    && (forall p :: p in req.ports ==> 1 <= p.0 <= 65535 && 1 <= p.1 <= 65535)
    && req.host.workspaceOk
    && (WithSupervisor(req) ==> TrimSpace(req.initBin) != "" && req.policyPath != "" && req.host.supervisorOk)
    && (req.enableSsh ==> WithProxy(req) && TrimSpace(req.sshBin) != "" && req.host.sshBinOk)
    && req.host.imageOk
    && (WithProxy(req) ==> req.host.proxyImageOk)
  }

  /** The checks after the data volume: the init binary, and the image for a display. */
  predicate LastChecksOk(req: Request) {
    (WithInit(req) ==> req.host.initBinOk) && (req.display ==> req.host.imageHasGui)
  }

  /** A request that passes every check besides those of the engine's answers, with each check as the code makes it. */
  predicate Admissible(cfg: Config, req: Request) {
    && req.name != "" && req.host.gpuOk && req.host.configOk
    && req.proxyPort <= 65535 && req.displayPort <= 65535
    && (forall p :: p in req.ports ==> 1 <= p.0 <= 65535 && 1 <= p.1 <= 65535)
    && req.host.workspaceOk && req.host.imageOk
    && (TrimSpace(req.supervisorBin) != "" ==> TrimSpace(req.initBin) != "" && req.policyPath != "" && req.host.supervisorOk)
    && (req.enableSsh ==> TrimSpace(req.proxyBin) != "" && TrimSpace(req.sshBin) != "" && req.host.sshBinOk)
    && (TrimSpace(req.proxyBin) != "" ==>
          req.host.proxyImageOk && req.policyPath != "" && req.host.proxyFilesOk && (cfg.nativeCreate ==> cfg.nativeVerify))
    && (!req.noHarden && TrimSpace(req.initBin) != "" ==> req.host.initBinOk)
    && (req.display ==> req.host.imageHasGui)
  }

  lemma AdmissibleMeans(cfg: Config, req: Request)
    ensures Admissible(cfg, req) <==>
            && FirstChecksOk(req) && PreflightOk(req) && Verifiable(cfg, WithProxy(req))
            && (WithProxy(req) ==> ProxyFilesOk(req)) && LastChecksOk(req)
  {
  }

  /** Up to and including ensureNetwork. */
  method Prepare(c: Client, cfg: Config, req: Request, ghost t: Thread) returns (networkCreated: bool, err: bool)
    requires cfg == c.cfg && t.Creating? && t.pc == Begin && c.At(t) && t.plan.name == req.name && t.plan.proxied == WithProxy(req)
    requires !t.netMade
    modifies c
    ensures c.SameIf(FirstChecksOk(req) && PreflightOk(req) && Verifiable(cfg, WithProxy(req)))
    ensures err ==> c.At(t.(pc := Failed))
    ensures !err ==> c.At(AfterNetwork(t.(netMade := networkCreated)))
                     && FirstChecksOk(req) && PreflightOk(req) && Verifiable(cfg, WithProxy(req))
  {
    networkCreated := false;
    err := CheckFirst(c, req, t);
    if !err {
      networkCreated, err := EnsureNetwork(c, cfg, Net(cfg, req.name), WithProxy(req), t.(pc := NetInspect));
      assert !err ==> AfterNetwork(t.(pc := NetInspect, netMade := networkCreated)) == AfterNetwork(t.(netMade := networkCreated));
    }
  }

  lemma FirstNext(cfg: Config, t: Thread, ok: bool, found: bool)
    requires t.Creating?
    ensures Next(cfg, t.(pc := Begin), Event(Check, ok)) == Some(t.(pc := if ok then Listing else Failed))
    ensures Next(cfg, t.(pc := Listing), Event(List(t.plan.name, found), ok)) == Some(t.(pc := if ok && !found then Preflight else Failed))
    ensures Next(cfg, t.(pc := Preflight), Event(Check, ok)) == Some(t.(pc := if ok then NetInspect else Failed))
  {
  }

  /** Everything that is checked before the first thing is made. */
  method CheckFirst(c: Client, req: Request, ghost t: Thread) returns (err: bool)
    requires t.Creating? && t.pc == Begin && c.At(t) && t.plan.name == req.name
    modifies c
    ensures c.SameIf(FirstChecksOk(req) && PreflightOk(req))
    ensures if err then c.At(t.(pc := Failed)) else c.At(t.(pc := NetInspect)) && FirstChecksOk(req) && PreflightOk(req)
  {
    err := true;
    var ok := FirstChecksOk(req);
    assert t == t.(pc := Begin);
    FirstNext(c.cfg, t, ok, false);
    c.Checked(ok);
    if !ok {
      return;
    }
    var existing := c.ContainerList(req.name);
    FirstNext(c.cfg, t, existing.Some?, existing.Some? && existing.value);
    if existing.None? || existing.value {
      return;
    }
    err := CheckHost(c, req, t);
  }

  method CheckHost(c: Client, req: Request, ghost t: Thread) returns (err: bool)
    requires t.Creating? && c.At(t.(pc := Preflight))
    modifies c
    ensures c.SameIf(PreflightOk(req))
    ensures if err then c.At(t.(pc := Failed)) else c.At(t.(pc := NetInspect)) && PreflightOk(req)
  {
    var ok := PreflightOk(req);
    FirstNext(c.cfg, t, ok, false);
    c.Checked(ok);
    err := !ok;
  }

  /** The volumes of a proxied sandbox. */
  method MakeProxyVolumes(c: Client, req: Request, ghost t: Thread) returns (createdVolumes: set<string>, err: bool, ghost u: Thread)
    requires t.Creating? && t.pc == CaInspect && c.At(t)
    requires t.plan.name == req.name && t.plan.ssh == req.enableSsh && !t.proxyMade && t.volsMade == {}
    modifies c
    ensures c.Same() && u.Creating? && u.plan == t.plan && u.before == t.before && u.netMade == t.netMade
    ensures !u.proxyMade && u.volsMade == createdVolumes
    ensures if err then c.At(Roll(u)) else u.pc == ProxyCheck && c.At(u)
  {
    u, createdVolumes := t, {};
    var created;
    created, err := EnsureVolume(c, CaVolume(req.name), u);
    if err {
      return;
    }
    if created {
      createdVolumes := createdVolumes + {CaVolume(req.name)};
    }
    u := AfterVolume(u, created);
    if req.enableSsh {
      created, err := EnsureVolume(c, SshVolume(req.name), u);
      if err {
        return;
      }
      if created {
        createdVolumes := createdVolumes + {SshVolume(req.name)};
      }
      u := AfterVolume(u, created);
    }
  }

  /** The volumes and the sidecar of a proxied sandbox. */
  method MakeProxy(c: Client, req: Request, sidecar: Container, ghost t: Thread)
    returns (proxyCreated: bool, createdVolumes: set<string>, err: bool, ghost u: Thread)
    requires t.Creating? && t.pc == CaInspect && c.At(t)
    requires t.plan.name == req.name && t.plan.ssh == req.enableSsh && t.plan.sidecar == sidecar
    requires !t.proxyMade && t.volsMade == {}
    modifies c
    ensures c.SameIf(ProxyFilesOk(req)) && (!err ==> ProxyFilesOk(req))
    ensures u.Creating? && u.plan == t.plan && u.before == t.before && u.netMade == t.netMade
    ensures u.proxyMade == proxyCreated && u.volsMade == createdVolumes && (!err ==> proxyCreated)
    ensures c.At(if err then Roll(u) else AfterProxy(u))
  {
    proxyCreated := false;
    createdVolumes, err, u := MakeProxyVolumes(c, req, t);
    if err {
      return;
    }
    ghost var id;
    id, err := CreateProxySidecar(c, req, sidecar, u);
    u := u.(proxyId := id);
    if err {
      return;
    }
    proxyCreated := true;
    u := u.(proxyMade := true);
  }

  lemma MainNext(cfg: Config, t: Thread, id: Id)
    requires t.Creating?
    ensures Next(cfg, t.(pc := LastCheck), Event(Check, true)) == Some(t.(pc := MainMake))
    ensures Next(cfg, t.(pc := LastCheck), Event(Check, false)) == Some(Roll(t))
    ensures Next(cfg, t.(pc := MainMake), Event(CreateCtr(id, t.plan.main), true)) == Some(t.(pc := Made))
    ensures Next(cfg, t.(pc := MainMake), Event(CreateCtr(id, t.plan.main), false)) == Some(Roll(t))
  {
  }

  /** From the data volume to the sandbox container. */
  method MakeSandbox(c: Client, req: Request, main: Container, ghost t: Thread) returns (id: Id, err: bool)
    requires t.Creating? && c.At(AfterProxy(t))
    requires t.plan.name == req.name && t.plan.persist == req.persist && t.plan.main == main
    modifies c
    ensures c.SameIf(LastChecksOk(req))
    ensures err ==> c.At(Roll(t))
    ensures !err ==> c.At(t.(pc := Made)) && id in c.containers && c.containers[id] == main && LastChecksOk(req)
  {
    id := 0;
    if req.persist {
      var _, failed := EnsureVolume(c, DataVolume(req.name), t.(pc := DataInspect));
      if failed {
        return 0, true;
      }
    }
    assert c.At(t.(pc := LastCheck));
    id, err := MakeMain(c, req, main, t);
  }

  method MakeMain(c: Client, req: Request, main: Container, ghost t: Thread) returns (id: Id, err: bool)
    requires t.Creating? && c.At(t.(pc := LastCheck)) && t.plan.main == main
    modifies c
    ensures c.SameIf(LastChecksOk(req))
    ensures err ==> c.At(Roll(t))
    ensures !err ==> c.At(t.(pc := Made)) && id in c.containers && c.containers[id] == main && LastChecksOk(req)
  {
    var ok := LastChecksOk(req);
    MainNext(c.cfg, t, 0);
    c.Checked(ok);
    if !ok {
      return 0, true;
    }
    id, ok := c.ContainerCreate(main);
    MainNext(c.cfg, t, id);
    err := !ok;
  }

  /** Create step by step; the monitor ends where the deferred function has run. */
  method CreateSteps(c: Client, cfg: Config, rawName: string, req0: Request) returns (r: Option<Id>)
    requires cfg == c.cfg && c.Valid()
    modifies c
    ensures c.Valid() && c.place.Some?
    ensures var req := req0.(name := Sanitized(rawName));
            && c.start == Place(old(c.Now()), StartCreate(cfg, req, old(c.Now())))
            && (r.Some? ==> r.value in c.containers && c.containers[r.value] == SandboxContainer(cfg, req))
    ensures c.place.value.t.Creating? && c.place.value.t.pc == if r.Some? then Made else Failed
    ensures r.Some? ==> Admissible(cfg, req0.(name := Sanitized(rawName)))
    ensures Denied(c.trace) ==> !Admissible(cfg, req0.(name := Sanitized(rawName)))
  {
    var name := SanitizeName(rawName);
    var req := req0.(name := name);
    AdmissibleMeans(cfg, req);
    ghost var t := StartCreate(cfg, req, c.Now());
    c.Watch(t);
    var networkCreated, err := Prepare(c, cfg, req, t);
    if err {
      return None;
    }
    r := CreateOnNetwork(c, cfg, req, networkCreated, t.(netMade := networkCreated));
  }

  /** From a network that is there to the sandbox container, or to the end of the cleanup. */
  method CreateOnNetwork(c: Client, cfg: Config, req: Request, networkCreated: bool, ghost t0: Thread) returns (r: Option<Id>)
    requires cfg == c.cfg && t0.Creating? && c.At(AfterNetwork(t0)) && t0.plan == PlanOf(cfg, req)
    requires t0.netMade == networkCreated && !t0.proxyMade && t0.volsMade == {}
    modifies c
    ensures c.SameIf((WithProxy(req) ==> ProxyFilesOk(req)) && LastChecksOk(req)) && c.Valid() && c.place.Some?
    ensures c.place.value.t.Creating? && c.place.value.t.pc == if r.Some? then Made else Failed
    ensures r.Some? ==> r.value in c.containers && c.containers[r.value] == SandboxContainer(cfg, req)
    ensures r.Some? ==> (WithProxy(req) ==> ProxyFilesOk(req)) && LastChecksOk(req)
  {
    ghost var t := t0;
    var proxyCreated, createdVolumes, err := false, {}, false;
    if WithProxy(req) {
      t := t.(pc := CaInspect);
      proxyCreated, createdVolumes, err, t := MakeProxy(c, req, ProxyContainer(cfg, req), t);
    }
    var id := 0;
    if !err {
      var main := BuildContainer(cfg, req);
      id, err := MakeSandbox(c, req, main, t);
    }
    if err {
      Cleanup(c, cfg, req.name, networkCreated, proxyCreated, createdVolumes, t);
      return None;
    }
    r := Some(id);
  }

  /** The engine is what it was, but for a data volume that may have been added. */
  ghost predicate Undone(st: State, st': State, n: string, persist: bool) {
    && st'.containers == st.containers && st'.networks == st.networks
    && st.volumes <= st'.volumes <= st.volumes + if persist then {DataVolume(n)} else {}
  }

  /**
   Create of any request. On success the container is the one the request asks for. Whatever
   fails, nothing outside of the sandbox's names changes and every proxied sandbox stays
   isolated. A failed Create whose removals were answered honestly, and that took no volume
   for its own that was there, has put back the whole engine, the data volume excepted. With
   a healthy engine and a context cancelled at any moment it has done so if and only if the
   cancellation did not find it at an exposed moment.
   */
  method Create(c: Client, cfg: Config, rawName: string, req0: Request) returns (r: Option<Id>)
    requires cfg == c.cfg && c.Valid()
    modifies c
    ensures var req := req0.(name := Sanitized(rawName));
            && (r.Some? ==> r.value in c.containers && c.containers[r.value] == SandboxContainer(cfg, req))
            && c.start == Place(old(c.Now()), StartCreate(cfg, req, old(c.Now())))
            && c.place == Ran(cfg, c.start, c.trace)
    ensures Promised(cfg, req0.(name := Sanitized(rawName)), old(c.Now()), c.Now(), c.trace, r)
  {
    ghost var before := c.Now();
    r := CreateSteps(c, cfg, rawName, req0);
    ghost var req := req0.(name := Sanitized(rawName));
    CreateKeepsPromise(cfg, req, before, c.trace, c.place.value, r);
  }

  /** A call of the engine failed, or its answer stands in the way; a check that the driver makes by itself does not count. */
  ghost predicate EngineRefused(cfg: Config, proxied: bool, trace: seq<Event>) {
    exists ev :: ev in trace && !ev.call.Check? && Cause(cfg, proxied, ev)
  }

  lemma CauseIsEngines(cfg: Config, proxied: bool, trace: seq<Event>)
    ensures HadCause(cfg, proxied, trace) && !Denied(trace) ==> EngineRefused(cfg, proxied, trace)
  {
    if HadCause(cfg, proxied, trace) {
      var ev :| ev in trace && Cause(cfg, proxied, ev);
      if Denial(ev) {
        DenialCounts(trace, ev);
      }
    }
  }

  lemma {:induction false} DenialCounts(trace: seq<Event>, ev: Event)
    requires ev in trace && Denial(ev)
    ensures Denied(trace)
  {
    if ev != trace[|trace| - 1] {
      assert trace == trace[..|trace| - 1] + [trace[|trace| - 1]];
      DenialCounts(trace[..|trace| - 1], ev);
    }
  }

  /** What Create promises, by the calls it made and its result. */
  ghost predicate Promised(cfg: Config, req: Request, st: State, st': State, trace: seq<Event>, r: Option<Id>) {
    && (HasManaged(st, req.name) ==> r.None? && st' == st)
    && (r.Some? ==> Admissible(cfg, req))
    && (WellFormed(st) ==> InOrderPromised(cfg, req, st, st', trace, r))
    && (WellFormed(st) && r.None? && Admissible(cfg, req) ==> EngineRefused(cfg, TrimSpace(req.proxyBin) != "", trace))
  }

  lemma CreateKeepsPromise(cfg: Config, req: Request, st: State, trace: seq<Event>, q: Place, r: Option<Id>)
    requires Ran(cfg, Place(st, StartCreate(cfg, req, st)), trace) == Some(q) && q.t.Creating?
    requires q.t.pc == if r.Some? then Made else Failed
    requires r.Some? ==> r.value in q.st.containers && q.st.containers[r.value] == SandboxContainer(cfg, req)
    requires if r.Some? then Admissible(cfg, req) else Denied(trace) ==> !Admissible(cfg, req)
    ensures Promised(cfg, req, st, q.st, trace, r)
  {
    if HasManaged(st, req.name) {
      AloneIsStopped(cfg, Place(st, StartCreate(cfg, req, st)), trace);
    }
    if WellFormed(st) {
      CreateKeepsOrder(cfg, req, st, trace, q, r);
      CauseIsEngines(cfg, TrimSpace(req.proxyBin) != "", trace);
    }
  }

  /** The part of the promise that needs an engine in order. */
  ghost predicate InOrderPromised(cfg: Config, req: Request, st: State, st': State, trace: seq<Event>, r: Option<Id>) {
    var start := Place(st, StartCreate(cfg, req, st));
    && WellFormed(st') && SameOutside(ReachOf(cfg, {req.name}), st, st')
    && (SandboxesIsolated(cfg, st) ==> SandboxesIsolated(cfg, st'))
    && if r.Some? then Succeeds(cfg, req, st, st', trace, r.value)
       else
         && HadCause(cfg, TrimSpace(req.proxyBin) != "", trace)
         && (FairRun(cfg, req.name, start, trace) ==> Undone(st, st', req.name, req.persist))
         && (forall k: nat :: ContextRun(cfg, start, trace, k) ==>
               (Undone(st, st', req.name, req.persist) <==> !ExposedAfter(cfg, start, trace, k)))
  }

  lemma CreateKeepsOrder(cfg: Config, req: Request, st: State, trace: seq<Event>, q: Place, r: Option<Id>)
    requires WellFormed(st) && Ran(cfg, Place(st, StartCreate(cfg, req, st)), trace) == Some(q) && q.t.Creating?
    requires q.t.pc == if r.Some? then Made else Failed
    requires r.Some? ==> r.value in q.st.containers && q.st.containers[r.value] == SandboxContainer(cfg, req)
    ensures InOrderPromised(cfg, req, st, q.st, trace, r)
  {
    CreateAnyway(cfg, req, st, trace, q);
    if SandboxesIsolated(cfg, st) {
      CreateIsolates(cfg, req, st, trace, q);
    }
    if r.Some? {
      CreateSucceeds(cfg, req, st, trace, q, r.value);
    } else {
      CreateEnds(cfg, req, st, trace, q);
      CreateFails(cfg, req, st, trace, q);
    }
  }

  /**
   The engine has exactly what it had and the requested container, with a proxy a sidecar on
   both networks that was made, connected, started and found ready in this order, the network
   and the volumes of the request.
   */
  ghost predicate Succeeds(cfg: Config, req: Request, st: State, st': State, trace: seq<Event>, id: Id) {
    exists side: Id :: CompleteWith(cfg, req, Whole(st), Whole(st'), trace, id, side)
  }

  lemma CreateEnds(cfg: Config, req: Request, st: State, trace: seq<Event>, q: Place)
    requires WellFormed(st) && Ran(cfg, Place(st, StartCreate(cfg, req, st)), trace) == Some(q) && q.t.Creating?
    ensures q.t.pc == Failed ==> HadCause(cfg, TrimSpace(req.proxyBin) != "", trace)
  {
    CreateBuilds(cfg, req, st, trace, q);
    PlanSays(cfg, req);
  }

  lemma CreateBuilds(cfg: Config, req: Request, st: State, trace: seq<Event>, q: Place)
    requires WellFormed(st) && Ran(cfg, Place(st, StartCreate(cfg, req, st)), trace) == Some(q)
    ensures Building(cfg, req.name, StartCreate(cfg, req, st), q, trace)
  {
    var t := StartCreate(cfg, req, st);
    BeginAlone(cfg, st, req);
    BeginsBuilt(cfg, req, st);
    BeginsBuilding(cfg, req.name, Place(st, t));
    AloneBuilds(cfg, req.name, Place(st, t), trace);
  }

  lemma BeginsBuilding(cfg: Config, n: string, p: Place)
    requires p.t.Creating? && WellFormed(p.st) && Wired(n, p.st, p.t) && OnPath(p.t.pc)
    requires Built(cfg, n, ViewOf(cfg, n, p.st), p.t) && Passed(p.t, [])
    ensures BuildingBy(cfg, n, p, [])
  {
    assert Ran(cfg, p, []) == Some(p) && Building(cfg, n, p.t, p, []);
  }

  lemma CreateSucceeds(cfg: Config, req: Request, st: State, trace: seq<Event>, q: Place, id: Id)
    requires WellFormed(st) && Ran(cfg, Place(st, StartCreate(cfg, req, st)), trace) == Some(q) && q.t.Creating? && q.t.pc == Made
    requires id in q.st.containers && q.st.containers[id] == SandboxContainer(cfg, req)
    ensures Succeeds(cfg, req, st, q.st, trace, id)
  {
    var n := req.name;
    CreateBuilds(cfg, req, st, trace, q);
    var main := MadeIsComplete(cfg, req, ViewOf(cfg, n, q.st), q.t, trace);
    CreateAnyway(cfg, req, st, trace, q);
    CompleteWhole(cfg, req, st, q.st, trace, main, id, q.t.proxyId);
  }

  lemma CompleteWhole(cfg: Config, req: Request, st: State, st': State, trace: seq<Event>, main: Id, id: Id, side: Id)
    requires WellFormed(st') && SameOutside(ReachOf(cfg, {req.name}), st, st')
    requires CompleteWith(cfg, req, ViewOf(cfg, req.name, st), ViewOf(cfg, req.name, st'), trace, main, side)
    requires id in st'.containers && st'.containers[id] == SandboxContainer(cfg, req)
    ensures CompleteWith(cfg, req, Whole(st), Whole(st'), trace, id, side)
  {
    var n := req.name;
    assert SandboxContainer(cfg, req).name == CtrName(n) && ProxyContainer(cfg, req).name in Ctrs(n);
    MadeWhole(cfg, n, st, st', trace, main, id, side, SandboxContainer(cfg, req), TrimSpace(req.proxyBin) != "",
              ProxyContainer(cfg, req), ProxyContainer(cfg, req).(networks := {Net(cfg, n), "bridge"}),
              Asked(n, TrimSpace(req.proxyBin) != "", req.enableSsh, req.persist));
  }

  lemma MadeWhole(cfg: Config, n: string, st: State, st': State, trace: seq<Event>, main: Id, id: Id, side: Id, mainCtr: Container,
                  proxied: bool, asked: Container, ready: Container, vols: set<string>)
    requires WellFormed(st') && SameOutside(ReachOf(cfg, {n}), st, st')
    requires GrownBy(ViewOf(cfg, n, st), ViewOf(cfg, n, st'), trace, main, mainCtr, proxied, side, asked, ready, !cfg.nativeCreate, Net(cfg, n), vols)
    requires mainCtr.name == CtrName(n) && ready.name in Ctrs(n) && vols <= Vols(n)
    requires id in st'.containers && st'.containers[id] == mainCtr
    ensures GrownBy(Whole(st), Whole(st'), trace, id, mainCtr, proxied, side, asked, ready, !cfg.nativeCreate, Net(cfg, n), vols)
  {
    MainIsThere(n, st', ViewOf(cfg, n, st).containers, main, id, mainCtr, proxied, side, ready);
    WholeGrows(cfg, n, st, st', trace, id, mainCtr, proxied, side, asked, ready, !cfg.nativeCreate, vols);
  }

  lemma MainIsThere(n: string, st: State, before: map<Id, Container>, main: Id, id: Id, mainCtr: Container,
                    proxied: bool, side: Id, ready: Container)
    requires WellFormed(st) && CtrsOf(n, st.containers) == before + Both(main, mainCtr, proxied, side, ready)
    requires id in st.containers && st.containers[id] == mainCtr
    ensures main == id
  {
    assert main in CtrsOf(n, st.containers) && CtrsOf(n, st.containers)[main] == mainCtr;
    assert st.containers[main].name == st.containers[id].name;
  }

  /**
   After a successful Create another one of the same name is refused: always with a proxy,
   and without one exactly when the caller's labels leave the sandbox's own two alone.
   */
  lemma RetryIsRefused(cfg: Config, req: Request, st: State, st': State, trace: seq<Event>, main: Id, side: Id)
    requires CompleteWith(cfg, req, Whole(st), Whole(st'), trace, main, side)
    ensures WithProxy(req) ==> HasManaged(st', req.name)
    ensures !WithProxy(req) && !HasManaged(st, req.name) ==>
              (HasManaged(st', req.name) <==>
               var user := Written(UserLabels(req.labels));
               && ("cauteum.sandbox" in user ==> user["cauteum.sandbox"] == "1")
               && ("cauteum.name" in user ==> user["cauteum.name"] == req.name))
  {
    ManagedExactly(cfg, req);
    ManagedGrows(st.containers, st'.containers, main, SandboxContainer(cfg, req), WithProxy(req), side,
                 ProxyContainer(cfg, req).(networks := {Net(cfg, req.name), "bridge"}), req.name);
  }

  lemma ManagedGrows(cs: map<Id, Container>, cs': map<Id, Container>, main: Id, made: Container,
                     proxied: bool, side: Id, ready: Container, n: string)
    requires cs' == cs + Both(main, made, proxied, side, ready) && main !in cs
    requires proxied ==> side != main && Managed(ready, n)
    ensures proxied ==> exists id :: id in cs' && Managed(cs'[id], n)
    ensures !proxied ==> ((exists id :: id in cs' && Managed(cs'[id], n)) <==> Managed(made, n) || exists id :: id in cs && Managed(cs[id], n))
  {
    assert cs'[main] == made && (proxied ==> side in cs' && cs'[side] == ready);
    assert !proxied ==> forall id :: id in cs ==> cs'[id] == cs[id];
  }

  /** Every use of Create keeps to its names, whatever the request says. */
  lemma CreateAnyway(cfg: Config, req: Request, st: State, trace: seq<Event>, q: Place)
    requires WellFormed(st) && Ran(cfg, Place(st, StartCreate(cfg, req, st)), trace) == Some(q)
    ensures WellFormed(q.st) && SameOutside(ReachOf(cfg, {req.name}), st, q.st)
  {
    BeginAlone(cfg, st, req);
    CreateStaysOutside(cfg, req.name, Place(st, StartCreate(cfg, req, st)), trace);
  }

  /** Every use of Create keeps proxied sandboxes isolated, whatever the request says. */
  lemma CreateIsolates(cfg: Config, req: Request, st: State, trace: seq<Event>, q: Place)
    requires WellFormed(st) && SandboxesIsolated(cfg, st) && Ran(cfg, Place(st, StartCreate(cfg, req, st)), trace) == Some(q)
    ensures SandboxesIsolated(cfg, q.st)
  {
    BeginIsIsolated(cfg, st, req);
    AloneStaysIsolated(cfg, req.name, Place(st, StartCreate(cfg, req, st)), trace);
  }

  /** What a Create of any request starts from. */
  lemma BeginAlone(cfg: Config, st: State, req: Request)
    ensures var n, t := req.name, StartCreate(cfg, req, st);
            && t.Creating? && Wired(n, st, t) && Follows(cfg, n, st, t) && Vacant(n, st, t)
            && t.before == ViewOf(cfg, n, st) && t.plan.persist == req.persist
  {
    BeginFollows(cfg, req.name, st, req);
    assert PlanOf(cfg, req).main.name == CtrName(req.name) && PlanOf(cfg, req).sidecar.name == ProxyName(req.name);
  }

  /** What is left by a Create that fails, by the calls it made. */
  lemma CreateFails(cfg: Config, req: Request, st: State, trace: seq<Event>, q: Place)
    requires WellFormed(st) && Ran(cfg, Place(st, StartCreate(cfg, req, st)), trace) == Some(q)
    requires q.t.Creating? && q.t.pc == Failed
    ensures FairRun(cfg, req.name, Place(st, StartCreate(cfg, req, st)), trace) ==> Undone(st, q.st, req.name, req.persist)
    ensures forall k: nat :: ContextRun(cfg, Place(st, StartCreate(cfg, req, st)), trace, k) ==>
              (Undone(st, q.st, req.name, req.persist) <==> !ExposedAfter(cfg, Place(st, StartCreate(cfg, req, st)), trace, k))
  {
    var p := Place(st, StartCreate(cfg, req, st));
    if FairRun(cfg, req.name, p, trace) {
      CreateOutcome(cfg, req, st, trace, q);
    }
    forall k: nat | ContextRun(cfg, p, trace, k)
      ensures Undone(st, q.st, req.name, req.persist) <==> !ExposedAfter(cfg, p, trace, k)
    {
      CancelledOutcome(cfg, req, st, trace, q, k);
    }
  }

  /**
   A failed Create of any request, its removals answered honestly and no volume taken for its
   own that was there, leaves the whole engine as it was, the data volume excepted.
   */
  lemma CreateOutcome(cfg: Config, req: Request, st: State, trace: seq<Event>, q: Place)
    requires WellFormed(st) && Ran(cfg, Place(st, StartCreate(cfg, req, st)), trace) == Some(q)
    requires FairRun(cfg, req.name, Place(st, StartCreate(cfg, req, st)), trace) && q.t.Creating? && q.t.pc == Failed
    ensures Undone(st, q.st, req.name, req.persist)
  {
    BeginAlone(cfg, st, req);
    RestoredFrom(cfg, req.name, st, StartCreate(cfg, req, st), trace, q);
    CreateAnyway(cfg, req, st, trace, q);
    RestoredIsUndone(cfg, req.name, st, q.st, req.persist);
  }

  lemma RestoredFrom(cfg: Config, n: string, st: State, t: Thread, trace: seq<Event>, q: Place)
    requires WellFormed(st) && t.Creating? && Wired(n, st, t) && Follows(cfg, n, st, t)
    requires Ran(cfg, Place(st, t), trace) == Some(q) && FairRun(cfg, n, Place(st, t), trace) && q.t.Creating? && q.t.pc == Failed
    ensures Restored(cfg, n, q.st, t.before, t.plan.persist)
  {
    RanKeepsPlan(cfg, Place(st, t), trace);
    AloneHolds(cfg, n, Place(st, t), trace);
    FailedIsRestored(cfg, n, q.st, q.t);
  }

  lemma RestoredIsUndone(cfg: Config, n: string, st: State, st': State, persist: bool)
    requires SameOutside(ReachOf(cfg, {n}), st, st')
    ensures Restored(cfg, n, st', ViewOf(cfg, n, st), persist) <==> Undone(st, st', n, persist)
  {
    WholeEngine(cfg, n, st, st');
    if Restored(cfg, n, st', ViewOf(cfg, n, st), persist) {
      assert st.volumes * Vols(n) <= st'.volumes * Vols(n);
    }
  }

  /** With a context cancelled after k calls: everything is put back exactly if Create was not exposed then. */
  lemma CancelledOutcome(cfg: Config, req: Request, st: State, trace: seq<Event>, q: Place, k: nat)
    requires WellFormed(st) && Ran(cfg, Place(st, StartCreate(cfg, req, st)), trace) == Some(q)
    requires ContextRun(cfg, Place(st, StartCreate(cfg, req, st)), trace, k) && q.t.Creating? && q.t.pc == Failed
    ensures Undone(st, q.st, req.name, req.persist) <==> !ExposedAfter(cfg, Place(st, StartCreate(cfg, req, st)), trace, k)
  {
    BeginAlone(cfg, st, req);
    CreateAnyway(cfg, req, st, trace, q);
    RestoredIsUndone(cfg, req.name, st, q.st, req.persist);
    CancelledFrom(cfg, req.name, st, StartCreate(cfg, req, st), trace, q, k);
  }

  lemma CancelledFrom(cfg: Config, n: string, st: State, t: Thread, trace: seq<Event>, q: Place, k: nat)
    requires WellFormed(st) && t.Creating? && Wired(n, st, t) && Follows(cfg, n, st, t) && Vacant(n, st, t)
    requires Ran(cfg, Place(st, t), trace) == Some(q) && ContextRun(cfg, Place(st, t), trace, k) && q.t.Creating? && q.t.pc == Failed
    ensures Restored(cfg, n, q.st, t.before, t.plan.persist) <==> !ExposedAfter(cfg, Place(st, t), trace, k)
  {
    RanKeepsPlan(cfg, Place(st, t), trace);
    if ExposedAfter(cfg, Place(st, t), trace, k) {
      ExposedContextLeaks(cfg, n, Place(st, t), trace, k);
      LeaksIsNotRestored(cfg, n, q.st, q.t);
    } else {
      ContextIsFair(cfg, n, Place(st, t), trace, k);
      RestoredFrom(cfg, n, st, t, trace, q);
    }
  }

  // ----- Delete -----

  lemma DeleteNext(cfg: Config, t: Thread, ok: bool)
    requires t.Deleting?
    ensures t.dpc == DropMain ==> Next(cfg, t, Event(RemoveId(t.id), ok)) == Some(AfterMain(t))
    ensures Label(t.labels, L_NAME) != "" ==>
              Next(cfg, AfterMain(t), Event(RemoveName(ProxyName(Label(t.labels, L_NAME))), ok)) == Some(AfterDropProxy(t))
    ensures Label(t.labels, L_NETWORK) != "" ==>
              Next(cfg, AfterDropProxy(t), Event(RemoveNet(Label(t.labels, L_NETWORK)), ok)) == Some(AfterDropNetwork(t))
    ensures Label(t.labels, L_VOLUME) != "" ==>
              Next(cfg, AfterDropNetwork(t), Event(RemoveVol(Label(t.labels, L_VOLUME)), ok)) == Some(AfterDropData(t))
    ensures Label(t.labels, L_CA) != "" ==>
              Next(cfg, AfterDropData(t), Event(RemoveVol(Label(t.labels, L_CA)), ok)) == Some(AfterDropCa(t))
    ensures Label(t.labels, L_SSH_VOLUME) != "" ==>
              Next(cfg, AfterDropCa(t), Event(RemoveVol(Label(t.labels, L_SSH_VOLUME)), ok)) == Some(t.(dpc := Deleted))
  {
  }

  function CallsOf(evs: seq<Event>): seq<Call> {
    if evs == [] then [] else [evs[0].call] + CallsOf(evs[1..])
  }

  lemma {:induction false} CallsConcat(a: seq<Event>, b: seq<Event>)
    ensures CallsOf(a + b) == CallsOf(a) + CallsOf(b)
  {
    if a == [] {
      assert a + b == b;
    } else {
      CallsConcat(a[1..], b);
      assert (a + b)[1..] == a[1..] + b;
    }
  }

  lemma Joined(before: seq<Event>, a: seq<Event>, b: seq<Event>, c: seq<Event>)
    ensures before + a + b + c == before + (a + b + c)
    ensures CallsOf(a + b + c) == CallsOf(a) + CallsOf(b) + CallsOf(c)
  {
    CallsConcat(a, b);
    CallsConcat(a + b, c);
  }

  lemma CallsSingle(ev: Event)
    ensures CallsOf([ev]) == [ev.call]
  {
    assert [ev][1..] == [];
  }

  /** One removal for each label that is not empty, after that of the container. */
  function Removals(id: Id, labels: map<string, string>): seq<Call> {
    var name, net := Label(labels, "cauteum.name"), Label(labels, "cauteum.network");
    [RemoveId(id)]
    + (if name != "" then [RemoveName("cauteum-proxy-" + name)] else [])
    + (if net != "" then [RemoveNet(net)] else [])
    + VolumeRemovals(labels)
  }

  function VolumeRemovals(labels: map<string, string>): seq<Call> {
    var data, ca, ssh := Label(labels, "cauteum.volume"), Label(labels, "cauteum.ca_volume"), Label(labels, "cauteum.ssh_volume");
    (if data != "" then [RemoveVol(data)] else []) + (if ca != "" then [RemoveVol(ca)] else []) + (if ssh != "" then [RemoveVol(ssh)] else [])
  }

  /** The inspect decides; when it succeeds every removal is attempted, in order and whatever the others give. */
  ghost predicate DeleteCalls(st: State, id: Id, trace: seq<Event>, ok: bool) {
    && trace != [] && trace[0].call.InspectCtr? && trace[0].call.seenId == id && (ok <==> trace[0].ok)
    && CallsOf(trace[1..]) == if ok then Removals(id, LabelsAt(st, id)) else []
  }

  lemma InspectNext(cfg: Config, t: Thread, got: Container, ok: bool)
    requires t.Deleting? && t.dpc == FindMain
    ensures Next(cfg, t, Event(InspectCtr(t.id, got), ok)) ==
            Some(if ok then t.(labels := got.labels, dpc := DropMain) else t.(dpc := Deleted))
  {
  }

  lemma InspectThenMore(st: State, id: Id, trace: seq<Event>, got: Container, ok: bool, more: seq<Event>)
    requires trace == [Event(InspectCtr(id, got), ok)] + more
    requires if ok then id in st.containers && st.containers[id] == got && CallsOf(more) == Removals(id, got.labels) else more == []
    ensures DeleteCalls(st, id, trace, ok)
  {
    assert trace[1..] == more;
  }

  method InspectFirst(c: Client, id: Id, ghost t: Thread) returns (info: Option<Container>)
    requires t.Deleting? && t.dpc == FindMain && t.id == id && c.At(t)
    modifies c
    ensures c.Same() && c.Now() == old(c.Now()) && c.trace == old(c.trace) + [Event(InspectCtr(id, SeenCtr(info)), info.Some?)]
    ensures info.Some? ==> id in c.containers && c.containers[id] == info.value
    ensures c.At(if info.Some? then t.(labels := info.value.labels, dpc := DropMain) else t.(dpc := Deleted))
  {
    info := c.ContainerInspect(id);
    InspectNext(c.cfg, t, SeenCtr(info), info.Some?);
  }

  method DeleteSteps(c: Client, id: Id, ghost n: string) returns (ok: bool)
    requires c.Valid()
    modifies c
    ensures DeleteCalls(old(c.Now()), id, c.trace, ok) && (!ok ==> c.Now() == old(c.Now()))
    ensures c.Valid() && c.place.Some?
    ensures c.start == Place(old(c.Now()), StartDelete(c.cfg, n, id, old(c.Now())))
    ensures c.place.value.t.Deleting? && c.place.value.t.dpc == Deleted
  {
    ghost var before, t := c.Now(), StartDelete(c.cfg, n, id, c.Now());
    c.Watch(t);
    var info := InspectFirst(c, id, t);
    if info.None? {
      InspectThenMore(before, id, c.trace, SeenCtr(info), false, []);
      return false;
    }
    var labels := info.value.labels;
    ghost var more := DropAll(c, id, labels, t.(labels := labels, dpc := DropMain));
    InspectThenMore(before, id, c.trace, info.value, true, more);
    ok := true;
  }

  /** Everything that the labels name, each removal's error ignored. */
  method DropAll(c: Client, id: Id, labels: map<string, string>, ghost t: Thread) returns (ghost more: seq<Event>)
    requires t.Deleting? && t.dpc == DropMain && t.id == id && t.labels == labels && c.At(t)
    modifies c
    ensures c.trace == old(c.trace) + more && CallsOf(more) == Removals(id, labels)
    ensures c.Same() && c.At(t.(dpc := Deleted))
  {
    ghost var first := DropContainers(c, id, Label(labels, L_NAME), t);
    ghost var second := DropNetwork(c, Label(labels, L_NETWORK), t);
    ghost var third := DropVolumes(c, Label(labels, L_VOLUME), Label(labels, L_CA), Label(labels, L_SSH_VOLUME), t);
    more := first + second + third;
    Joined(old(c.trace), first, second, third);
  }

  method DropContainers(c: Client, id: Id, name: string, ghost t: Thread) returns (ghost more: seq<Event>)
    requires t.Deleting? && t.dpc == DropMain && t.id == id && name == Label(t.labels, L_NAME) && c.At(t)
    modifies c
    ensures c.trace == old(c.trace) + more
    ensures CallsOf(more) == [RemoveId(id)] + if name != "" then [RemoveName("cauteum-proxy-" + name)] else []
    ensures c.Same() && c.At(AfterDropProxy(t))
  {
    DeleteNext(c.cfg, t, true);
    DeleteNext(c.cfg, t, false);
    var ok := c.ContainerRemove(id);
    more := [Event(RemoveId(id), ok)];
    CallsSingle(Event(RemoveId(id), ok));
    assert c.At(AfterMain(t));
    if name != "" {
      ok := c.ContainerRemoveNamed(ProxyName(name));
      CallsSingle(Event(RemoveName(ProxyName(name)), ok));
      CallsConcat(more, [Event(RemoveName(ProxyName(name)), ok)]);
      more := more + [Event(RemoveName(ProxyName(name)), ok)];
    }
    assert c.At(AfterDropProxy(t));
  }

  method DropNetwork(c: Client, net: string, ghost t: Thread) returns (ghost more: seq<Event>)
    requires t.Deleting? && net == Label(t.labels, L_NETWORK) && c.At(AfterDropProxy(t))
    modifies c
    ensures c.trace == old(c.trace) + more && CallsOf(more) == if net != "" then [RemoveNet(net)] else []
    ensures c.Same() && c.At(AfterDropNetwork(t))
  {
    DeleteNext(c.cfg, t, true);
    DeleteNext(c.cfg, t, false);
    more := [];
    if net != "" {
      var ok := c.NetworkRemove(net);
      more := [Event(RemoveNet(net), ok)];
      CallsSingle(Event(RemoveNet(net), ok));
    }
  }

  /** The container to delete is sandbox n's main one, as Create labelled it, and no other uses n's things. */
  ghost predicate Deletable(cfg: Config, n: string, st: State, id: Id) {
    && WellFormed(st) && LabelsStayHome(cfg, {n}, st) && OnlyOwnUse(cfg, n, st) && n != ""
    && Target(cfg, n, ViewOf(cfg, n, st), id)
  }

  /** The engine without sandbox n, whose volumes are gone as far as the labels name them. */
  ghost predicate WithoutSandbox(cfg: Config, n: string, labels: map<string, string>, st: State, st': State) {
    && st'.containers == (map id | id in st.containers && st.containers[id].name !in Ctrs(n) :: st.containers[id])
    && st'.networks == st.networks - {Net(cfg, n)}
    && st'.volumes == st.volumes - Dropped(7, labels)
  }

  /**
   Delete of any container. It reports whether the inspect succeeded; if not, nothing else is
   called. Whatever fails, only that container and what its labels name
   can change, and every proxied sandbox stays isolated. If the container is a sandbox's
   main one as Create labelled it and the calls are answered honestly, the engine is what
   it was without that sandbox.
   */
  method Delete(c: Client, id: Id, ghost n: string) returns (ok: bool)
    requires c.Valid()
    modifies c
    ensures c.start == Place(old(c.Now()), StartDelete(c.cfg, n, id, old(c.Now())))
    ensures c.place == Ran(c.cfg, c.start, c.trace)
    ensures DeleteCalls(old(c.Now()), id, c.trace, ok) && (!ok ==> c.Now() == old(c.Now()))
    ensures WellFormed(old(c.Now())) ==>
              && WellFormed(c.Now()) && SameOutside(DeleteReach(id, LabelsAt(old(c.Now()), id)), old(c.Now()), c.Now())
              && (SandboxesIsolated(c.cfg, old(c.Now())) ==> SandboxesIsolated(c.cfg, c.Now()))
    ensures Deletable(c.cfg, n, old(c.Now()), id) && HonestRun(c.cfg, c.start, c.trace) ==>
              WithoutSandbox(c.cfg, n, LabelsAt(old(c.Now()), id), old(c.Now()), c.Now())
  {
    ghost var before := c.Now();
    ok := DeleteSteps(c, id, n);
    if WellFormed(before) {
      DeleteStaysInReach(c.cfg, id, LabelsAt(before, id), c.start, c.trace);
      if SandboxesIsolated(c.cfg, before) {
        AloneStaysIsolated(c.cfg, n, c.start, c.trace);
      }
    }
    if Deletable(c.cfg, n, before, id) && HonestRun(c.cfg, c.start, c.trace) {
      DeleteOutcome(c.cfg, n, before, id, c.trace, c.place.value);
    }
  }

  lemma DeleteOutcome(cfg: Config, n: string, st: State, id: Id, trace: seq<Event>, q: Place)
    requires Deletable(cfg, n, st, id)
    requires Ran(cfg, Place(st, StartDelete(cfg, n, id, st)), trace) == Some(q)
    requires HonestRun(cfg, Place(st, StartDelete(cfg, n, id, st)), trace)
    requires q.t.Deleting? && q.t.dpc == Deleted
    ensures WithoutSandbox(cfg, n, LabelsAt(st, id), st, q.st)
  {
    assert id in CtrsOf(n, st.containers);
    DeleteView(cfg, n, st, id, st.containers[id], trace, q);
    OwnLabelsDropOwn(cfg, n, st.containers[id].labels);
    GoneIsWithout(cfg, n, st.containers[id].labels, st, q.st);
  }

  lemma DeleteView(cfg: Config, n: string, st: State, id: Id, c: Container, trace: seq<Event>, q: Place)
    requires Deletable(cfg, n, st, id) && id in st.containers && st.containers[id] == c && c.name == CtrName(n)
    requires Ran(cfg, Place(st, StartDelete(cfg, n, id, st)), trace) == Some(q)
    requires HonestRun(cfg, Place(st, StartDelete(cfg, n, id, st)), trace)
    requires q.t.Deleting? && q.t.dpc == Deleted
    ensures SameOutside(ReachOf(cfg, {n}), st, q.st)
    ensures ViewOf(cfg, n, q.st) == View(map[], map[], st.volumes * Vols(n) - Dropped(7, c.labels))
  {
    var p := Place(st, StartDelete(cfg, n, id, st));
    assert Alone(n, p).threads.Keys == {n};
    assert Inv(cfg, Alone(n, p));
    assert |Net(cfg, n)| > 0;
    StartsProgress(cfg, n, st, id, c);
    AloneDeletes(cfg, n, p, trace);
  }

  lemma GoneIsWithout(cfg: Config, n: string, labels: map<string, string>, st: State, st': State)
    requires SameOutside(ReachOf(cfg, {n}), st, st') && Dropped(7, labels) <= Vols(n)
    requires ViewOf(cfg, n, st') == View(map[], map[], st.volumes * Vols(n) - Dropped(7, labels))
    ensures WithoutSandbox(cfg, n, labels, st, st')
  {
    WholeEngine(cfg, n, st, st');
    assert st'.volumes * Vols(n) == st.volumes * Vols(n) - Dropped(7, labels);
  }

  lemma OwnLabelsDropOwn(cfg: Config, n: string, labels: map<string, string>)
    requires OwnLabels(cfg, n, labels)
    ensures Dropped(7, labels) <= Vols(n)
  {
  }

  /** With or without a volume to remove, Delete goes on there. */
  ghost predicate Drops(cfg: Config, t: Thread, vol: string, next: Thread) {
    if vol == "" then next == t else forall ok :: Next(cfg, t, Event(RemoveVol(vol), ok)) == Some(next)
  }

  lemma DropsInTurn(cfg: Config, t: Thread)
    requires t.Deleting?
    ensures Drops(cfg, AfterDropNetwork(t), Label(t.labels, L_VOLUME), AfterDropData(t))
    ensures Drops(cfg, AfterDropData(t), Label(t.labels, L_CA), AfterDropCa(t))
    ensures Drops(cfg, AfterDropCa(t), Label(t.labels, L_SSH_VOLUME), t.(dpc := Deleted))
  {
    DeleteNext(cfg, t, true);
    DeleteNext(cfg, t, false);
  }

  method DropVolumes(c: Client, volName: string, caVol: string, sshVol: string, ghost t: Thread) returns (ghost more: seq<Event>)
    requires t.Deleting? && c.At(AfterDropNetwork(t))
    requires volName == Label(t.labels, L_VOLUME) && caVol == Label(t.labels, L_CA) && sshVol == Label(t.labels, L_SSH_VOLUME)
    modifies c
    ensures c.trace == old(c.trace) + more && CallsOf(more) == VolumeRemovals(t.labels)
    ensures c.Same() && c.At(t.(dpc := Deleted))
  {
    DropsInTurn(c.cfg, t);
    ghost var first := DropVolume(c, volName, AfterDropNetwork(t), AfterDropData(t));
    ghost var second := DropVolume(c, caVol, AfterDropData(t), AfterDropCa(t));
    ghost var third := DropVolume(c, sshVol, AfterDropCa(t), t.(dpc := Deleted));
    more := first + second + third;
    Joined(old(c.trace), first, second, third);
  }

  /** Remove the volume if the label named one. */
  method DropVolume(c: Client, vol: string, ghost t: Thread, ghost next: Thread) returns (ghost more: seq<Event>)
    requires c.At(t)
    requires Drops(c.cfg, t, vol, next)
    modifies c
    ensures c.trace == old(c.trace) + more && CallsOf(more) == if vol != "" then [RemoveVol(vol)] else []
    ensures c.Same() && c.At(next)
  {
    more := [];
    if vol != "" {
      var ok := c.VolumeRemove(vol);
      more := [Event(RemoveVol(vol), ok)];
      CallsSingle(Event(RemoveVol(vol), ok));
    }
  }
}
