/**
 Create and Delete as the order of engine calls they make. A thread is where one call
 of Create or Delete stands; Next says which outcome of which call takes it where.
 */
module Provision {
  import opened GoStrings
  import opened Names
  import opened Engine
  import opened Sandbox

  /** What the engine holds under the names of one sandbox. */
  datatype View = View(containers: map<Id, Container>, networks: map<string, Network>, volumes: set<string>)

  function CtrsOf(n: string, cs: map<Id, Container>): map<Id, Container> {
    map id | id in cs && cs[id].name in Ctrs(n) :: cs[id]
  }

  function NetsOf(cfg: Config, n: string, nets: map<string, Network>): map<string, Network> {
    map net | net in nets && net == Net(cfg, n) :: nets[net]
  }

  function ViewOf(cfg: Config, n: string, st: State): View {
    View(CtrsOf(n, st.containers), NetsOf(cfg, n, st.networks), st.volumes * Vols(n))
  }

  /** What Create settles before its first call: the containers, and which steps it takes. */
  datatype Plan = Plan(name: string, proxied: bool, ssh: bool, persist: bool, main: Container, sidecar: Container)

  function PlanOf(cfg: Config, req: Request): Plan {
    Plan(req.name, WithProxy(req), req.enableSsh, req.persist, SandboxContainer(cfg, req), ProxyContainer(cfg, req))
  }

  datatype Pc =
    | Begin | Listing | Preflight
    | NetInspect | NetReuse | NetMake | NetCheck | NetUndo
    | CaInspect | CaMake | SshInspect | SshMake
    | ProxyCheck | ProxyMake | ProxyBridge | ProxyStart | ProxyReady | ProxyUndo
    | DataInspect | DataMake | LastCheck | MainMake
    | RollProxy | RollVolume | RollNetwork
    | Made | Failed

  datatype DeletePc = FindMain | DropMain | DropProxy | DropNetwork | DropData | DropCa | DropSsh | Deleted

  datatype Thread =
    | Idle
    | Creating(plan: Plan, before: View, pc: Pc, netMade: bool, proxyMade: bool, volsMade: set<string>, proxyId: Id)
    | Deleting(id: Id, before: View, dpc: DeletePc, labels: map<string, string>)

  function StartCreate(cfg: Config, req: Request, st: State): Thread {
    Creating(PlanOf(cfg, req), ViewOf(cfg, req.name, st), Begin, false, false, {}, 0)
  }

  function StartDelete(cfg: Config, n: string, id: Id, st: State): Thread {
    Deleting(id, ViewOf(cfg, n, st), FindMain, map[])
  }

  predicate Resting(t: Thread) {
    t.Idle? || (t.Creating? && (t.pc == Made || t.pc == Failed)) || (t.Deleting? && t.dpc == Deleted)
  }

  // ----- the joints of Create, where the next call depends on the request -----

  function AfterNetwork(t: Thread): Thread
    requires t.Creating?
  {
    if t.plan.proxied then t.(pc := CaInspect) else AfterProxy(t)
  }

  function AfterCa(t: Thread): Thread
    requires t.Creating?
  {
    if t.plan.ssh then t.(pc := SshInspect) else t.(pc := ProxyCheck)
  }

  function AfterProxy(t: Thread): Thread
    requires t.Creating?
  {
    if t.plan.persist then t.(pc := DataInspect) else t.(pc := LastCheck)
  }

  /** The deferred cleanup: proxy, then volumes, then network, each only if made here. */
  function Roll(t: Thread): Thread
    requires t.Creating?
  {
    if t.proxyMade then t.(pc := RollProxy)
    else if t.volsMade != {} then t.(pc := RollVolume)
    else if t.netMade then t.(pc := RollNetwork)
    else t.(pc := Failed)
  }

  predicate RefusesReuse(cfg: Config, internal: bool, got: Network) {
    internal && (!got.internal || (!cfg.nativeVerify && (got.gatewayV4 != "isolated" || got.gatewayV6 != "isolated")))
  }

  function Next(cfg: Config, t: Thread, ev: Event): Option<Thread> {
    match t
    case Idle => None
    case Creating(_, _, _, _, _, _, _) => NextCreate(cfg, t, ev)
    case Deleting(_, _, _, _) => NextDelete(t, ev)
  }

  predicate NetworkPhase(pc: Pc) {
    || pc.Begin? || pc.Listing? || pc.Preflight? || pc.NetInspect? || pc.NetReuse? || pc.NetMake?
    || pc.NetCheck? || pc.NetUndo?
  }

  predicate ProxyPhase(pc: Pc) {
    || pc.ProxyMake? || pc.ProxyBridge? || pc.ProxyStart? || pc.ProxyReady? || pc.ProxyUndo?
  }

  predicate RollPhase(pc: Pc) {
    || pc.RollProxy? || pc.RollVolume? || pc.RollNetwork? || pc.Made? || pc.Failed?
  }

  function NextCreate(cfg: Config, t: Thread, ev: Event): Option<Thread>
    requires t.Creating?
  {
    if NetworkPhase(t.pc) then NextNetwork(cfg, t, ev)
    else if ProxyPhase(t.pc) then NextProxy(t, ev)
    else if RollPhase(t.pc) then NextRoll(cfg, t, ev)
    else NextVolume(t, ev)
  }

  /** The checks before anything is made, and ensureNetwork. */
  function NextNetwork(cfg: Config, t: Thread, ev: Event): Option<Thread>
    requires t.Creating?
  {
    var net, internal := Net(cfg, t.plan.name), t.plan.proxied;
    match t.pc
    case Begin =>
      if ev.call.Check? then Some(t.(pc := if ev.ok then Listing else Failed)) else None
    case Listing =>
      if ev.call.List? && ev.call.sandbox == t.plan.name then
        Some(t.(pc := if ev.ok && !ev.call.found then Preflight else Failed))
      else None
    case Preflight =>
      if ev.call.Check? then Some(t.(pc := if ev.ok then NetInspect else Failed)) else None
    case NetInspect =>
      if internal && cfg.nativeCreate && !cfg.nativeVerify then
        if ev == Event(Check, false) then Some(t.(pc := Failed)) else None
      else if ev.call.InspectNet? && ev.call.seenNet == net then
        if !ev.ok then Some(t.(pc := NetMake))
        else if RefusesReuse(cfg, internal, ev.call.got) then Some(t.(pc := Failed))
        else if internal && cfg.nativeVerify then Some(t.(pc := NetReuse))
        else Some(AfterNetwork(t))
      else None
    case NetReuse =>
      if ev.call == VerifyNet(net) then Some(if ev.ok then AfterNetwork(t) else t.(pc := Failed)) else None
    case NetMake =>
      if ev.call.CreateNet? && ev.call.newNet == net && (cfg.nativeCreate || ev.call.spec == DockerNetwork(internal)) then
        if !ev.ok then Some(t.(pc := Failed))
        else if cfg.nativeCreate && internal && cfg.nativeVerify then Some(t.(pc := NetCheck))
        else Some(AfterNetwork(t.(netMade := true)))
      else None
    case NetCheck =>
      if ev.call == VerifyNet(net) then
        Some(if ev.ok then AfterNetwork(t.(netMade := true)) else t.(pc := NetUndo))
      else None
    case NetUndo =>
      if ev.call == RemoveNet(net) then Some(t.(pc := Failed)) else None
    case _ => None
  }

  /** createProxySidecar from its first engine call. */
  function NextProxy(t: Thread, ev: Event): Option<Thread>
    requires t.Creating?
  {
    match t.pc
    case ProxyMake =>
      if ev.call.CreateCtr? && ev.call.ctr == t.plan.sidecar then
        Some(if ev.ok then t.(pc := ProxyBridge, proxyId := ev.call.newId) else Roll(t))
      else None
    case ProxyBridge =>
      if ev.call == Connect(t.proxyId, "bridge") then Some(t.(pc := if ev.ok then ProxyStart else ProxyUndo)) else None
    case ProxyStart =>
      if ev.call == Start(t.proxyId) then Some(t.(pc := if ev.ok then ProxyReady else ProxyUndo)) else None
    case ProxyReady =>
      if ev.call == Await(t.proxyId) then
        Some(if ev.ok then AfterProxy(t.(proxyMade := true)) else t.(pc := ProxyUndo))
      else None
    case ProxyUndo =>
      if ev.call == RemoveId(t.proxyId) then Some(Roll(t)) else None
    case _ => None
  }

  /** The volumes, the checks between them, and the sandbox container. */
  function NextVolume(t: Thread, ev: Event): Option<Thread>
    requires t.Creating?
  {
    var n := t.plan.name;
    match t.pc
    case CaInspect =>
      if ev.call == InspectVol(CaVolume(n)) then Some(if ev.ok then AfterCa(t) else t.(pc := CaMake)) else None
    case CaMake =>
      if ev.call == CreateVol(CaVolume(n)) then
        Some(if ev.ok then AfterCa(t.(volsMade := t.volsMade + {CaVolume(n)})) else Roll(t))
      else None
    case SshInspect =>
      if ev.call == InspectVol(SshVolume(n)) then Some(t.(pc := if ev.ok then ProxyCheck else SshMake)) else None
    case SshMake =>
      if ev.call == CreateVol(SshVolume(n)) then
        Some(if ev.ok then t.(volsMade := t.volsMade + {SshVolume(n)}, pc := ProxyCheck) else Roll(t))
      else None
    case ProxyCheck =>
      if ev.call.Check? then Some(if ev.ok then t.(pc := ProxyMake) else Roll(t)) else None
    case DataInspect =>
      if ev.call == InspectVol(DataVolume(n)) then Some(t.(pc := if ev.ok then LastCheck else DataMake)) else None
    case DataMake =>
      if ev.call == CreateVol(DataVolume(n)) then Some(if ev.ok then t.(pc := LastCheck) else Roll(t)) else None
    case LastCheck =>
      if ev.call.Check? then Some(if ev.ok then t.(pc := MainMake) else Roll(t)) else None
    case MainMake =>
      if ev.call.CreateCtr? && ev.call.ctr == t.plan.main then Some(if ev.ok then t.(pc := Made) else Roll(t)) else None
    case _ => None
  }

  /** The deferred cleanup. */
  function NextRoll(cfg: Config, t: Thread, ev: Event): Option<Thread>
    requires t.Creating?
  {
    match t.pc
    case RollProxy =>
      if ev.call == RemoveName(ProxyName(t.plan.name)) then Some(Roll(t.(proxyMade := false))) else None
    case RollVolume =>
      if ev.call.RemoveVol? && ev.call.oldVol in t.volsMade then
        Some(Roll(t.(volsMade := t.volsMade - {ev.call.oldVol})))
      else None
    case RollNetwork =>
      if ev.call == RemoveNet(Net(cfg, t.plan.name)) then Some(t.(netMade := false, pc := Failed)) else None
    case _ => None
  }

  // ----- Delete: every step follows a label that is not empty -----

  function AfterMain(t: Thread): Thread
    requires t.Deleting?
  {
    if Label(t.labels, L_NAME) != "" then t.(dpc := DropProxy) else AfterDropProxy(t)
  }

  function AfterDropProxy(t: Thread): Thread
    requires t.Deleting?
  {
    if Label(t.labels, L_NETWORK) != "" then t.(dpc := DropNetwork) else AfterDropNetwork(t)
  }

  function AfterDropNetwork(t: Thread): Thread
    requires t.Deleting?
  {
    if Label(t.labels, L_VOLUME) != "" then t.(dpc := DropData) else AfterDropData(t)
  }

  function AfterDropData(t: Thread): Thread
    requires t.Deleting?
  {
    if Label(t.labels, L_CA) != "" then t.(dpc := DropCa) else AfterDropCa(t)
  }

  function AfterDropCa(t: Thread): Thread
    requires t.Deleting?
  {
    if Label(t.labels, L_SSH_VOLUME) != "" then t.(dpc := DropSsh) else t.(dpc := Deleted)
  }

  /** Delete takes any container ID and follows the labels it finds there. */
  function NextDelete(t: Thread, ev: Event): Option<Thread>
    requires t.Deleting?
  {
    match t.dpc
    case FindMain =>
      if ev.call.InspectCtr? && ev.call.seenId == t.id then
        Some(if ev.ok then t.(labels := ev.call.seenCtr.labels, dpc := DropMain) else t.(dpc := Deleted))
      else None
    case DropMain =>
      if ev.call == RemoveId(t.id) then Some(AfterMain(t)) else None
    case DropProxy =>
      if ev.call == RemoveName(ProxyName(Label(t.labels, L_NAME))) then Some(AfterDropProxy(t)) else None
    case DropNetwork =>
      if ev.call == RemoveNet(Label(t.labels, L_NETWORK)) then Some(AfterDropNetwork(t)) else None
    case DropData =>
      if ev.call == RemoveVol(Label(t.labels, L_VOLUME)) then Some(AfterDropData(t)) else None
    case DropCa =>
      if ev.call == RemoveVol(Label(t.labels, L_CA)) then Some(AfterDropCa(t)) else None
    case DropSsh =>
      if ev.call == RemoveVol(Label(t.labels, L_SSH_VOLUME)) then Some(t.(dpc := Deleted)) else None
    case Deleted => None
  }
}
