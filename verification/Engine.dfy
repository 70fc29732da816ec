/**
 The container engine: its state, the calls the driver makes with their outcomes,
 and the two effects the engine refuses: a taken container name, and removing a
 network or volume that a container uses.
 */
module Engine {
  import opened NativeNetwork

  type Id = nat

  /** Which request made a container; the engine itself does not see this. */
  datatype Origin = Foreign | Proxy(name: string) | Sandbox(name: string, proxied: bool)

  datatype Container = Container(
    name: string,
    origin: Origin,
    labels: map<string, string>,
    env: seq<string>,
    binds: seq<string>,
    networks: set<string>,
    volumes: set<string>)

  datatype Network = Network(internal: bool, gatewayV4: string, gatewayV6: string, subnets: seq<Subnet>, routes: seq<Route>)

  /** The same network as the Libpod API shows it. */
  function Native(net: Network): Details {
    Details(net.internal, net.subnets, net.routes)
  }

  /** issued holds every container ID ever handed out: IDs are never used again. */
  datatype State = State(
    containers: map<Id, Container>,
    networks: map<string, Network>,
    volumes: set<string>,
    issued: set<Id>)

  /** The host cannot be reached through the gateway of this network. */
  ghost predicate HostGatewayIsolated(net: Network) {
    && net.internal
    && ((net.gatewayV4 == "isolated" && net.gatewayV6 == "isolated") || GatewaysBlackholed(Native(net)))
  }

  predicate NetworkInUse(st: State, net: string) {
    exists id :: id in st.containers && net in st.containers[id].networks
  }

  predicate VolumeInUse(st: State, v: string) {
    exists id :: id in st.containers && v in st.containers[id].volumes
  }

  predicate NameTaken(st: State, name: string) {
    exists id :: id in st.containers && st.containers[id].name == name
  }

  predicate Managed(c: Container, n: string) {
    && "cauteum.sandbox" in c.labels && c.labels["cauteum.sandbox"] == "1"
    && "cauteum.name" in c.labels && c.labels["cauteum.name"] == n
  }

  predicate HasManaged(st: State, n: string) {
    exists id :: id in st.containers && Managed(st.containers[id], n)
  }

  /** A call to the engine. Check stands for a check that does not touch the engine. */
  datatype Call =
    | Check
    | List(sandbox: string, found: bool)
    | InspectNet(seenNet: string, got: Network)
    | VerifyNet(checkedNet: string)
    | CreateNet(newNet: string, spec: Network)
    | RemoveNet(oldNet: string)
    | InspectVol(seenVol: string)
    | CreateVol(newVol: string)
    | RemoveVol(oldVol: string)
    | CreateCtr(newId: Id, ctr: Container)
    | Connect(joining: Id, joined: string)
    | Start(started: Id)
    | Await(awaited: Id)
    | RemoveId(oldId: Id)
    | RemoveName(oldName: string)
    | InspectCtr(seenId: Id, seenCtr: Container)

  /** A call with what it gave, and whether it succeeded. */
  datatype Event = Event(call: Call, ok: bool)

  /** The successes the engine can give. Any call may fail. */
  ghost predicate Grants(st: State, call: Call) {
    match call
    case Check => true
    case List(n, found) => found == HasManaged(st, n)
    case InspectNet(net, got) => net in st.networks && st.networks[net] == got
    case VerifyNet(net) => net in st.networks && GatewaysBlackholed(Native(st.networks[net]))
    case CreateNet(net, _) => net !in st.networks
    case RemoveNet(net) => net in st.networks && !NetworkInUse(st, net)
    case InspectVol(v) => v in st.volumes
    case CreateVol(_) => true
    case RemoveVol(v) => !VolumeInUse(st, v)
    case CreateCtr(id, c) =>
      && id !in st.issued && !NameTaken(st, c.name)
      && c.networks <= st.networks.Keys && c.volumes <= st.volumes
    case Connect(id, net) => id in st.containers && net in st.networks
    case Start(id) => id in st.containers
    case Await(id) => id in st.containers
    case RemoveId(id) => id in st.containers
    case RemoveName(name) => NameTaken(st, name)
    case InspectCtr(id, c) => id in st.containers && st.containers[id] == c
  }

  ghost predicate Possible(st: State, ev: Event) {
    ev.ok ==> Grants(st, ev.call)
  }

  /**
   Removing, and inspecting a container in order to remove it, fail only for cause: the
   thing is absent, or in use. All other calls may fail at any time.
   */
  ghost predicate Honest(st: State, ev: Event) {
    ev.ok ||
    match ev.call
    case RemoveNet(net) => net !in st.networks || NetworkInUse(st, net)
    case RemoveVol(v) => VolumeInUse(st, v)
    case RemoveId(id) => id !in st.containers
    case RemoveName(name) => !NameTaken(st, name)
    case InspectCtr(id, _) => id !in st.containers
    case _ => true
  }

  function WithoutName(cs: map<Id, Container>, name: string): map<Id, Container> {
    map id | id in cs && cs[id].name != name :: cs[id]
  }

  /** The effect of a call that succeeded; creating a volume that exists keeps it. */
  function Done(st: State, call: Call): State {
    match call
    case CreateNet(net, spec) => st.(networks := st.networks[net := spec])
    case RemoveNet(net) => st.(networks := st.networks - {net})
    case CreateVol(v) => st.(volumes := st.volumes + {v})
    case RemoveVol(v) => st.(volumes := st.volumes - {v})
    case CreateCtr(id, c) => st.(containers := st.containers[id := c], issued := st.issued + {id})
    case Connect(id, net) =>
      if id in st.containers
      then st.(containers := st.containers[id := st.containers[id].(networks := st.containers[id].networks + {net})])
      else st
    case RemoveId(id) => st.(containers := st.containers - {id})
    case RemoveName(name) => st.(containers := WithoutName(st.containers, name))
    case _ => st
  }

  /** A failed call changes nothing. */
  function Effect(st: State, ev: Event): State {
    if ev.ok then Done(st, ev.call) else st
  }

  /** Names are unique and everything a container uses exists. */
  ghost predicate WellFormed(st: State) {
    && st.containers.Keys <= st.issued
    && (forall i, j :: i in st.containers && j in st.containers && st.containers[i].name == st.containers[j].name ==> i == j)
    && (forall id :: id in st.containers ==>
          st.containers[id].networks <= st.networks.Keys && st.containers[id].volumes <= st.volumes)
  }

  lemma EffectKeepsWellFormed(st: State, ev: Event)
    requires WellFormed(st) && Possible(st, ev)
    ensures WellFormed(Effect(st, ev))
  {
    if ev.ok {
      match ev.call
      case RemoveNet(net) =>
        forall id | id in st.containers ensures net !in st.containers[id].networks {}
      case RemoveVol(v) =>
        forall id | id in st.containers ensures v !in st.containers[id].volumes {}
      case _ =>
    }
  }
}
