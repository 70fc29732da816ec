/**
 A sandbox created with a proxy is on exactly one network, and that network is internal
 with its host gateway isolated. Proved for every request, every label, every container ID
 handed to Delete and every set of sandbox names.
 */
module Isolation {
  import opened Names
  import opened Engine
  import opened Sandbox
  import opened Provision
  import opened Runs

  ghost predicate SandboxesIsolated(cfg: Config, st: State) {
    forall id :: id in st.containers && st.containers[id].origin.Sandbox? && st.containers[id].origin.proxied ==>
      var net := Net(cfg, st.containers[id].origin.name);
      st.containers[id].networks == {net} && net in st.networks && HostGatewayIsolated(st.networks[net])
  }

  // ----- what a thread knows -----

  /** The calls between a checked network and the sandbox container. */
  predicate NetworkChecked(pc: Pc) {
    || pc.CaInspect? || pc.CaMake? || pc.SshInspect? || pc.SshMake? || pc.ProxyCheck? || pc.ProxyMake?
    || pc.ProxyBridge? || pc.ProxyStart? || pc.ProxyReady? || pc.ProxyUndo? || pc.DataInspect?
    || pc.DataMake? || pc.LastCheck? || pc.MainMake?
  }

  ghost predicate IsolatedIfThere(cfg: Config, n: string, st: State) {
    Net(cfg, n) in st.networks ==> HostGatewayIsolated(st.networks[Net(cfg, n)])
  }

  ghost predicate PlanOrigins(cfg: Config, n: string, plan: Plan) {
    && plan.name == n && plan.main.networks == {Net(cfg, n)}
    && plan.main.origin == Origin.Sandbox(n, plan.proxied) && plan.sidecar.origin.Proxy?
  }

  /** The network may be removed meanwhile, but while it is there it is the one that was checked. */
  ghost predicate ThreadIsolated(cfg: Config, n: string, st: State, t: Thread) {
    t.Creating? ==>
      && PlanOrigins(cfg, n, t.plan)
      && (NetworkChecked(t.pc) && t.plan.proxied ==> IsolatedIfThere(cfg, n, st))
      && (t.pc == NetMake && t.plan.proxied && cfg.nativeCreate ==> cfg.nativeVerify)
      && (ProxyKnown(t.pc) ==> t.proxyId in st.issued)
      && (ProxyKnown(t.pc) && t.proxyId in st.containers ==> st.containers[t.proxyId].origin.Proxy?)
  }

  ghost predicate AllIsolated(cfg: Config, s: Sys) {
    && WellFormed(s.st) && SandboxesIsolated(cfg, s.st)
    && forall n :: n in s.threads ==> ThreadIsolated(cfg, n, s.st, s.threads[n])
  }

  // ----- one call -----

  /** What a call of sandbox n can do to networks and attachments. */
  ghost predicate Attaching(cfg: Config, n: string, st: State, ev: Event) {
    match ev.call
    case CreateNet(net, _) => net == Net(cfg, n)
    case CreateCtr(_, c) =>
      c.origin.Proxy? ||
      (c.origin.Sandbox? && c.origin.name == n && c.networks == {Net(cfg, n)} && (c.origin.proxied ==> IsolatedIfThere(cfg, n, st)))
    case Connect(id, _) => id in st.containers ==> st.containers[id].origin.Proxy?
    case _ => true
  }

  lemma StepAttaches(cfg: Config, n: string, st: State, t: Thread, ev: Event)
    requires ThreadIsolated(cfg, n, st, t) && Next(cfg, t, ev).Some?
    ensures Attaching(cfg, n, st, ev)
  {
  }

  lemma AttachingKeepsIsolation(cfg: Config, n: string, st: State, ev: Event)
    requires WellFormed(st) && SandboxesIsolated(cfg, st) && Possible(st, ev) && Attaching(cfg, n, st, ev)
    ensures SandboxesIsolated(cfg, Effect(st, ev))
  {
    if ev.ok && ev.call.RemoveNet? {
      forall id | id in st.containers ensures ev.call.oldNet !in st.containers[id].networks {}
    }
  }

  lemma OthersStayIsolated(cfg: Config, n: string, m: string, st: State, ev: Event, t: Thread)
    requires n != m && WellFormed(st) && Possible(st, ev) && Attaching(cfg, n, st, ev) && ThreadIsolated(cfg, m, st, t)
    ensures ThreadIsolated(cfg, m, Effect(st, ev), t)
  {
    if Net(cfg, m) == Net(cfg, n) { SamePrefix(cfg.netPrefix + "-", m, n); }
    var st' := Effect(st, ev);
    assert st.issued <= st'.issued;
    assert forall id :: id in st.issued && id in st'.containers ==>
        id in st.containers && st'.containers[id].origin == st.containers[id].origin;
  }

  // ----- own steps -----

  /** Wherever the network phase hands over, a proxied sandbox has an isolated network. */
  lemma NetworkHandedOver(cfg: Config, n: string, st: State, ev: Event, t: Thread)
    requires t.Creating? && NetworkPhase(t.pc) && Possible(st, ev) && t.plan.proxied && t.plan.name == n
    requires t.pc == NetMake && cfg.nativeCreate ==> cfg.nativeVerify
    requires NextNetwork(cfg, t, ev).Some? && NetworkChecked(NextNetwork(cfg, t, ev).value.pc)
    ensures Net(cfg, n) in Effect(st, ev).networks && HostGatewayIsolated(Effect(st, ev).networks[Net(cfg, n)])
  {
  }

  lemma NetworkPhaseVerifies(cfg: Config, t: Thread, ev: Event)
    requires t.Creating? && NetworkPhase(t.pc) && NextNetwork(cfg, t, ev).Some?
    ensures var t' := NextNetwork(cfg, t, ev).value;
            t'.Creating? && !ProxyKnown(t'.pc) && (t'.pc == NetMake && t.plan.proxied && cfg.nativeCreate ==> cfg.nativeVerify)
  {
  }

  lemma OwnNetworkIsolated(cfg: Config, n: string, st: State, ev: Event, t: Thread)
    requires t.Creating? && NetworkPhase(t.pc) && WellFormed(st) && Possible(st, ev)
    requires ThreadIsolated(cfg, n, st, t) && NextNetwork(cfg, t, ev).Some?
    ensures ThreadIsolated(cfg, n, Effect(st, ev), NextNetwork(cfg, t, ev).value)
  {
    NetworkKeepsPlan(cfg, t, ev);
    NetworkPhaseVerifies(cfg, t, ev);
    if NetworkChecked(NextNetwork(cfg, t, ev).value.pc) && t.plan.proxied {
      NetworkHandedOver(cfg, n, st, ev, t);
    }
  }

  lemma OwnProxyIsolated(cfg: Config, n: string, st: State, ev: Event, t: Thread)
    requires t.Creating? && ProxyPhase(t.pc) && WellFormed(st) && Possible(st, ev)
    requires ThreadIsolated(cfg, n, st, t) && NextProxy(t, ev).Some?
    ensures ThreadIsolated(cfg, n, Effect(st, ev), NextProxy(t, ev).value)
  {
    ProxyKeepsPlan(t, ev);
    ProxyPhaseShape(t, ev);
    assert Effect(st, ev).networks == st.networks;
  }

  lemma VolumeCallsOnly(t: Thread, ev: Event)
    requires t.Creating? && !NetworkPhase(t.pc) && !ProxyPhase(t.pc) && !RollPhase(t.pc) && NextVolume(t, ev).Some?
    ensures !ev.call.CreateNet? && !ev.call.RemoveNet? && NetworkChecked(t.pc)
    ensures var t' := NextVolume(t, ev).value; t'.Creating? && !ProxyKnown(t'.pc) && t'.pc != NetMake
  {
  }

  lemma OwnVolumeIsolated(cfg: Config, n: string, st: State, ev: Event, t: Thread)
    requires t.Creating? && !NetworkPhase(t.pc) && !ProxyPhase(t.pc) && !RollPhase(t.pc) && WellFormed(st) && Possible(st, ev)
    requires ThreadIsolated(cfg, n, st, t) && NextVolume(t, ev).Some?
    ensures ThreadIsolated(cfg, n, Effect(st, ev), NextVolume(t, ev).value)
  {
    VolumeKeepsPlan(t, ev);
    VolumeCallsOnly(t, ev);
    assert Effect(st, ev).networks == st.networks;
  }

  lemma OwnRollIsolated(cfg: Config, n: string, st: State, ev: Event, t: Thread)
    requires t.Creating? && RollPhase(t.pc) && NextRoll(cfg, t, ev).Some? && ThreadIsolated(cfg, n, st, t)
    ensures ThreadIsolated(cfg, n, Effect(st, ev), NextRoll(cfg, t, ev).value)
  {
    RollKeepsPlan(cfg, t, ev);
  }

  lemma OwnStaysIsolated(cfg: Config, n: string, st: State, ev: Event, t: Thread)
    requires WellFormed(st) && Possible(st, ev) && ThreadIsolated(cfg, n, st, t) && Next(cfg, t, ev).Some?
    ensures ThreadIsolated(cfg, n, Effect(st, ev), Next(cfg, t, ev).value)
  {
    if t.Deleting? {
      DeleteStaysDelete(t, ev);
    } else if NetworkPhase(t.pc) {
      OwnNetworkIsolated(cfg, n, st, ev, t);
    } else if ProxyPhase(t.pc) {
      OwnProxyIsolated(cfg, n, st, ev, t);
    } else if RollPhase(t.pc) {
      OwnRollIsolated(cfg, n, st, ev, t);
    } else {
      OwnVolumeIsolated(cfg, n, st, ev, t);
    }
  }

  lemma DeleteStaysDelete(t: Thread, ev: Event)
    requires t.Deleting? && NextDelete(t, ev).Some?
    ensures NextDelete(t, ev).value.Deleting?
  {
  }

  // ----- every run -----

  lemma BeginIsIsolated(cfg: Config, st: State, req: Request)
    ensures ThreadIsolated(cfg, req.name, st, StartCreate(cfg, req, st))
  {
    var plan := PlanOf(cfg, req);
    assert PlanOrigins(cfg, req.name, plan);
  }

  lemma StepStaysIsolated(cfg: Config, s: Sys, act: Act)
    requires AllIsolated(cfg, s) && CanStep(cfg, s, act)
    ensures AllIsolated(cfg, After(cfg, s, act))
  {
    if act.BeginCreate? {
      BeginIsIsolated(cfg, s.st, act.req);
    } else if act.Call? {
      CallStaysIsolated(cfg, s, act.who, act.ev);
    }
  }

  lemma CallStaysIsolated(cfg: Config, s: Sys, n: string, ev: Event)
    requires AllIsolated(cfg, s) && CanStep(cfg, s, Call(n, ev))
    ensures AllIsolated(cfg, After(cfg, s, Call(n, ev)))
  {
    EffectKeepsWellFormed(s.st, ev);
    StepAttaches(cfg, n, s.st, s.threads[n], ev);
    AttachingKeepsIsolation(cfg, n, s.st, ev);
    OwnStaysIsolated(cfg, n, s.st, ev, s.threads[n]);
    forall m | m in s.threads && m != n
      ensures ThreadIsolated(cfg, m, Effect(s.st, ev), s.threads[m])
    {
      OthersStayIsolated(cfg, n, m, s.st, ev, s.threads[m]);
    }
  }

  /** Any calls of any sandboxes in any order, whatever the requests and labels say. */
  ghost predicate IsFreeRun(cfg: Config, s: Sys, acts: seq<Act>)
    decreases |acts|
  {
    acts == [] || (CanStep(cfg, s, acts[0]) && IsFreeRun(cfg, After(cfg, s, acts[0]), acts[1..]))
  }

  ghost function FreeEnd(cfg: Config, s: Sys, acts: seq<Act>): Sys
    requires IsFreeRun(cfg, s, acts)
    decreases |acts|
  {
    if acts == [] then s else FreeEnd(cfg, After(cfg, s, acts[0]), acts[1..])
  }

  /**
   In every state of every run each sandbox created with a proxy is on exactly one network,
   internal and with its host gateway isolated.
   */
  lemma {:induction false} RunsStayIsolated(cfg: Config, s: Sys, acts: seq<Act>)
    requires AllIsolated(cfg, s) && IsFreeRun(cfg, s, acts)
    ensures AllIsolated(cfg, FreeEnd(cfg, s, acts))
    decreases |acts|
  {
    if acts != [] {
      StepStaysIsolated(cfg, s, acts[0]);
      RunsStayIsolated(cfg, After(cfg, s, acts[0]), acts[1..]);
    }
  }

  /** From an engine without containers every reachable state is isolated, for all names. */
  lemma ReachableIsIsolated(cfg: Config, names: set<string>, networks: map<string, Network>, volumes: set<string>,
                            issued: set<Id>, acts: seq<Act>)
    requires IsFreeRun(cfg, NoContainers(names, networks, volumes, issued), acts)
    ensures SandboxesIsolated(cfg, FreeEnd(cfg, NoContainers(names, networks, volumes, issued), acts).st)
  {
    RunsStayIsolated(cfg, NoContainers(names, networks, volumes, issued), acts);
  }

  /** The runs of callers that keep to their sandbox are among them. */
  lemma {:induction false} RunsAreFree(cfg: Config, s: Sys, acts: seq<Act>)
    requires IsRun(cfg, s, acts)
    ensures IsFreeRun(cfg, s, acts) && FreeEnd(cfg, s, acts) == End(cfg, s, acts)
    decreases |acts|
  {
    if acts != [] {
      RunsAreFree(cfg, After(cfg, s, acts[0]), acts[1..]);
    }
  }
}
