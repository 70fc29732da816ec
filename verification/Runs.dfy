/**
 Runs: any interleaving of the engine calls of Create and Delete on different
 sandboxes. What each step may touch, and the invariants of every reachable state.
 */
module Runs {
  import opened Names
  import opened Engine
  import opened Sandbox
  import opened Provision

  datatype Sys = Sys(st: State, threads: map<string, Thread>)

  datatype Act = BeginCreate(who: string, req: Request) | BeginDelete(who: string, id: Id) | Call(who: string, ev: Event)

  ghost predicate AllApart(names: set<string>) {
    forall m, n :: m in names && n in names && m != n ==> Apart(m, n)
  }

  /** Labels under which Delete stays inside sandbox n. */
  predicate OwnLabels(cfg: Config, n: string, labels: map<string, string>) {
    && Label(labels, L_NAME) in {"", n}
    && Label(labels, L_NETWORK) in {"", Net(cfg, n)}
    && Label(labels, L_VOLUME) in {"", DataVolume(n)}
    && Label(labels, L_CA) in {"", CaVolume(n)}
    && Label(labels, L_SSH_VOLUME) in {"", SshVolume(n)}
  }

  /** The caller's part: labels that leave Delete's steering labels alone. */
  predicate GoodRequest(cfg: Config, n: string, req: Request) {
    req.name == n && HarmlessLabels(cfg, req)
  }

  /** What can happen next: any request for the sandbox's name, any container ID to delete. */
  ghost predicate CanStep(cfg: Config, s: Sys, act: Act) {
    && act.who in s.threads
    && match act
       case BeginCreate(n, req) => Resting(s.threads[n]) && req.name == n
       case BeginDelete(n, _) => Resting(s.threads[n])
       case Call(n, ev) => Next(cfg, s.threads[n], ev).Some? && Possible(s.st, ev)
  }

  /** A container that sandbox n looks at in order to delete it is its own. */
  predicate AtHome(n: string, ev: Event) {
    ev.ok && ev.call.InspectCtr? ==> ev.call.seenCtr.name in Ctrs(n)
  }

  /** What a caller does who keeps to its sandbox. */
  ghost predicate Enabled(cfg: Config, s: Sys, act: Act) {
    && CanStep(cfg, s, act)
    && (act.BeginCreate? ==> GoodRequest(cfg, act.who, act.req))
    && (act.Call? ==> AtHome(act.who, act.ev))
  }

  function After(cfg: Config, s: Sys, act: Act): Sys
    requires act.who in s.threads
    requires act.Call? ==> Next(cfg, s.threads[act.who], act.ev).Some?
  {
    match act
    case BeginCreate(n, req) => Sys(s.st, s.threads[n := StartCreate(cfg, req, s.st)])
    case BeginDelete(n, id) => Sys(s.st, s.threads[n := StartDelete(cfg, n, id, s.st)])
    case Call(n, ev) => Sys(Effect(s.st, ev), s.threads[n := Next(cfg, s.threads[n], ev).value])
  }

  ghost predicate IsRun(cfg: Config, s: Sys, acts: seq<Act>)
    decreases |acts|
  {
    acts == [] || (Enabled(cfg, s, acts[0]) && IsRun(cfg, After(cfg, s, acts[0]), acts[1..]))
  }

  ghost function End(cfg: Config, s: Sys, acts: seq<Act>): Sys
    requires IsRun(cfg, s, acts)
    decreases |acts|
  {
    if acts == [] then s else End(cfg, After(cfg, s, acts[0]), acts[1..])
  }

  // ----- what holds in every reachable state -----

  ghost predicate LabelsStayHome(cfg: Config, names: set<string>, st: State) {
    forall id, n :: id in st.containers && n in names && st.containers[id].name in Ctrs(n) ==>
      OwnLabels(cfg, n, st.containers[id].labels)
  }

  /** A container that sandbox n may have. */
  predicate OwnContainer(cfg: Config, n: string, c: Container) {
    c.networks == {Net(cfg, n)} && OwnLabels(cfg, n, c.labels)
  }

  ghost predicate GoodPlan(cfg: Config, n: string, plan: Plan) {
    OwnContainer(cfg, n, plan.main) && OwnContainer(cfg, n, plan.sidecar)
  }

  predicate ProxyKnown(pc: Pc) {
    || pc.ProxyBridge? || pc.ProxyStart? || pc.ProxyReady? || pc.ProxyUndo?
  }

  /** The names in a Create: of its containers, of the volumes it made, and of its sidecar once that exists. */
  ghost predicate Wired(n: string, st: State, t: Thread)
    requires t.Creating?
  {
    && t.plan.name == n && t.plan.main.name == CtrName(n) && t.plan.sidecar.name == ProxyName(n)
    && t.volsMade <= {CaVolume(n), SshVolume(n)}
    && (ProxyKnown(t.pc) ==> t.proxyId in st.issued)
    && (ProxyKnown(t.pc) && t.proxyId in st.containers ==> st.containers[t.proxyId].name == ProxyName(n))
  }

  ghost predicate ThreadInv(cfg: Config, st: State, n: string, t: Thread) {
    match t
    case Idle => true
    case Creating(plan, _, _, _, _, _, _) => GoodPlan(cfg, n, plan) && Wired(n, st, t)
    case Deleting(id, _, dpc, labels) =>
      && (dpc != FindMain && dpc != Deleted ==> OwnLabels(cfg, n, labels))
      && (dpc == DropProxy ==> Label(labels, L_NAME) != "")
      && (dpc == DropNetwork ==> Label(labels, L_NETWORK) != "")
      && (dpc == DropData ==> Label(labels, L_VOLUME) != "")
      && (dpc == DropCa ==> Label(labels, L_CA) != "")
      && (dpc == DropSsh ==> Label(labels, L_SSH_VOLUME) != "")
      && (dpc == DropMain ==> id in st.issued && (id in st.containers ==> st.containers[id].name in Ctrs(n)))
  }

  ghost predicate Inv(cfg: Config, s: Sys) {
    && AllApart(s.threads.Keys)
    && WellFormed(s.st)
    && LabelsStayHome(cfg, s.threads.Keys, s.st)
    && forall n :: n in s.threads ==> ThreadInv(cfg, s.st, n, s.threads[n])
  }

  // ----- what a step may touch -----

  /** The event concerns only what belongs to sandbox n. */
  ghost predicate Touching(cfg: Config, n: string, st: State, ev: Event) {
    match ev.call
    case CreateNet(net, _) => net == Net(cfg, n)
    case RemoveNet(net) => net == Net(cfg, n)
    case CreateVol(v) => v in Vols(n)
    case RemoveVol(v) => v in Vols(n)
    case CreateCtr(_, c) => c.name in Ctrs(n) && OwnContainer(cfg, n, c)
    case Connect(id, net) => net == "bridge" && (id in st.containers ==> st.containers[id].name in Ctrs(n))
    case RemoveId(id) => id in st.containers ==> st.containers[id].name in Ctrs(n)
    case RemoveName(name) => name in Ctrs(n)
    case _ => true
  }

  lemma GoodLabels(cfg: Config, req: Request)
    requires HarmlessLabels(cfg, req)
    ensures OwnLabels(cfg, req.name, SandboxLabels(cfg, req))
  {
    LabelsSteerDelete(cfg, req);
    var m := SandboxLabels(cfg, req);
    assert SteersToOwn(cfg, req, m);
    assert Label(m, L_NAME) == Expected(cfg, req, L_NAME);
    assert Label(m, L_NETWORK) == Expected(cfg, req, L_NETWORK);
    assert Label(m, L_VOLUME) == Expected(cfg, req, L_VOLUME);
    assert Label(m, L_CA) == Expected(cfg, req, L_CA);
    assert Label(m, L_SSH_VOLUME) == Expected(cfg, req, L_SSH_VOLUME);
    LabelsDiffer();
  }

  lemma ProxyLabels(cfg: Config, req: Request)
    ensures OwnLabels(cfg, req.name, ProxyContainer(cfg, req).labels)
  {
    LabelsDiffer();
    AsideNames("", "");
    assert [("cauteum.policy_path", "")][0].0 !in STEERING;
    assert L_ROLE[8] == 'r' && |L_ROLE| == 12 && L_NAME[8] == 'n';
    assert |L_NETWORK| == 15 && |L_CA| == 17 && |L_VOLUME| == 14 && |L_SSH_VOLUME| == 18;
  }

  /** A good request settles a good plan. */
  lemma PlanIsGood(cfg: Config, n: string, req: Request)
    requires GoodRequest(cfg, n, req)
    ensures GoodPlan(cfg, n, PlanOf(cfg, req))
  {
    GoodLabels(cfg, req);
    ProxyLabels(cfg, req);
  }

  /** Create and Delete only ever touch their own sandbox. */
  lemma StepTouchesOwn(cfg: Config, n: string, st: State, t: Thread, ev: Event)
    requires ThreadInv(cfg, st, n, t) && Next(cfg, t, ev).Some?
    ensures Touching(cfg, n, st, ev)
  {
  }

  lemma ContainersOfOthers(cfg: Config, n: string, m: string, st: State, ev: Event)
    requires WellFormed(st) && Possible(st, ev) && Touching(cfg, n, st, ev) && Ctrs(n) !! Ctrs(m)
    ensures CtrsOf(m, Effect(st, ev).containers) == CtrsOf(m, st.containers)
  {
    if ev.ok {
      match ev.call
      case CreateCtr(id, c) =>
      case Connect(id, net) =>
      case RemoveId(id) =>
      case RemoveName(name) =>
      case _ => assert Effect(st, ev).containers == st.containers;
    }
  }

  /** An event that touches sandbox n leaves every other sandbox's view as it was. */
  lemma TouchingLeavesOthers(cfg: Config, n: string, m: string, st: State, ev: Event)
    requires Apart(n, m) && WellFormed(st) && Possible(st, ev) && Touching(cfg, n, st, ev)
    ensures ViewOf(cfg, m, Effect(st, ev)) == ViewOf(cfg, m, st)
  {
    ApartNames(cfg.netPrefix, n, m);
    ContainersOfOthers(cfg, n, m, st, ev);
    var st' := Effect(st, ev);
    assert NetsOf(cfg, m, st'.networks) == NetsOf(cfg, m, st.networks);
    assert st'.volumes * Vols(m) == st.volumes * Vols(m);
  }

  // ----- preservation -----

  lemma LabelsStay(cfg: Config, names: set<string>, n: string, st: State, ev: Event)
    requires n in names && AllApart(names) && LabelsStayHome(cfg, names, st) && Touching(cfg, n, st, ev)
    ensures LabelsStayHome(cfg, names, Effect(st, ev))
  {
    if ev.call.CreateCtr? {
      forall m | m in names && ev.call.ctr.name in Ctrs(m)
        ensures m == n
      {
        if m != n {
          ApartNames(cfg.netPrefix, m, n);
        }
      }
    }
  }

  lemma OtherThreadsStay(cfg: Config, n: string, m: string, st: State, ev: Event, t: Thread)
    requires Apart(n, m) && WellFormed(st) && Possible(st, ev) && Touching(cfg, n, st, ev)
    requires ThreadInv(cfg, st, m, t)
    ensures ThreadInv(cfg, Effect(st, ev), m, t)
  {
    ApartNames(cfg.netPrefix, n, m);
    var st' := Effect(st, ev);
    assert st.issued <= st'.issued;
    assert forall id :: id in st.issued && id in st'.containers ==>
        id in st.containers && st'.containers[id].name == st.containers[id].name;
  }

  /** A step keeps the plan and what was there before. */
  ghost predicate SamePlan(t: Thread, t': Thread)
    requires t.Creating?
  {
    t'.Creating? && t'.plan == t.plan && t'.before == t.before
  }

  lemma NetworkKeepsPlan(cfg: Config, t: Thread, ev: Event)
    requires t.Creating? && NextNetwork(cfg, t, ev).Some?
    ensures SamePlan(t, NextNetwork(cfg, t, ev).value)
  {
  }

  lemma ProxyKeepsPlan(t: Thread, ev: Event)
    requires t.Creating? && NextProxy(t, ev).Some?
    ensures SamePlan(t, NextProxy(t, ev).value)
  {
  }

  lemma VolumeKeepsPlan(t: Thread, ev: Event)
    requires t.Creating? && NextVolume(t, ev).Some?
    ensures SamePlan(t, NextVolume(t, ev).value)
  {
  }

  lemma RollKeepsPlan(cfg: Config, t: Thread, ev: Event)
    requires t.Creating? && NextRoll(cfg, t, ev).Some?
    ensures SamePlan(t, NextRoll(cfg, t, ev).value)
  {
  }

  lemma NextKeepsPlan(cfg: Config, t: Thread, ev: Event)
    requires t.Creating? && NextCreate(cfg, t, ev).Some?
    ensures SamePlan(t, NextCreate(cfg, t, ev).value)
  {
    if NetworkPhase(t.pc) {
      NetworkKeepsPlan(cfg, t, ev);
    } else if ProxyPhase(t.pc) {
      ProxyKeepsPlan(t, ev);
    } else if RollPhase(t.pc) {
      RollKeepsPlan(cfg, t, ev);
    } else {
      VolumeKeepsPlan(t, ev);
    }
  }

  lemma NetworkPhaseShape(cfg: Config, t: Thread, ev: Event)
    requires t.Creating? && NetworkPhase(t.pc) && NextNetwork(cfg, t, ev).Some?
    ensures var t' := NextNetwork(cfg, t, ev).value;
            t'.Creating? && t'.volsMade == t.volsMade && !ProxyKnown(t'.pc)
  {
  }

  lemma OwnNetworkPhase(cfg: Config, n: string, st: State, ev: Event, t: Thread)
    requires t.Creating? && NetworkPhase(t.pc) && Wired(n, st, t) && NextNetwork(cfg, t, ev).Some?
    ensures NextNetwork(cfg, t, ev).value.Creating? && Wired(n, Effect(st, ev), NextNetwork(cfg, t, ev).value)
  {
    NetworkKeepsPlan(cfg, t, ev);
    NetworkPhaseShape(cfg, t, ev);
  }

  lemma OwnProxyPhase(n: string, st: State, ev: Event, t: Thread)
    requires t.Creating? && ProxyPhase(t.pc) && WellFormed(st) && Possible(st, ev) && Wired(n, st, t) && NextProxy(t, ev).Some?
    ensures NextProxy(t, ev).value.Creating? && Wired(n, Effect(st, ev), NextProxy(t, ev).value)
  {
    ProxyKeepsPlan(t, ev);
    ProxyPhaseShape(t, ev);
  }

  lemma ProxyPhaseShape(t: Thread, ev: Event)
    requires t.Creating? && ProxyPhase(t.pc) && NextProxy(t, ev).Some?
    ensures !ev.call.CreateNet? && !ev.call.RemoveNet?
    ensures var t' := NextProxy(t, ev).value;
            && t'.Creating? && t'.pc != NetMake && t'.volsMade == t.volsMade
            && (ProxyKnown(t'.pc) ==>
                  if t.pc == ProxyMake then
                    ev.ok && ev.call.CreateCtr? && ev.call.ctr == t.plan.sidecar && t'.proxyId == ev.call.newId
                  else
                    t'.proxyId == t.proxyId && ProxyKnown(t.pc) && !ev.call.CreateCtr?)
  {
  }

  lemma OwnRollPhase(cfg: Config, n: string, st: State, ev: Event, t: Thread)
    requires t.Creating? && RollPhase(t.pc) && Wired(n, st, t) && NextRoll(cfg, t, ev).Some?
    ensures NextRoll(cfg, t, ev).value.Creating? && Wired(n, Effect(st, ev), NextRoll(cfg, t, ev).value)
  {
    RollKeepsPlan(cfg, t, ev);
  }

  lemma OwnVolumePhase(n: string, st: State, ev: Event, t: Thread)
    requires t.Creating? && !NetworkPhase(t.pc) && !ProxyPhase(t.pc) && !RollPhase(t.pc)
    requires Wired(n, st, t) && NextVolume(t, ev).Some?
    ensures NextVolume(t, ev).value.Creating? && Wired(n, Effect(st, ev), NextVolume(t, ev).value)
  {
    VolumeKeepsPlan(t, ev);
    VolumePhaseShape(n, t, ev);
  }

  lemma VolumePhaseShape(n: string, t: Thread, ev: Event)
    requires t.Creating? && !NetworkPhase(t.pc) && !ProxyPhase(t.pc) && !RollPhase(t.pc)
    requires t.plan.name == n && t.volsMade <= {CaVolume(n), SshVolume(n)} && NextVolume(t, ev).Some?
    ensures var t' := NextVolume(t, ev).value;
            t'.Creating? && t'.volsMade <= {CaVolume(n), SshVolume(n)} && !ProxyKnown(t'.pc)
  {
  }

  /** A Create keeps to its names whatever was asked for. */
  lemma OwnCreateStays(cfg: Config, n: string, st: State, ev: Event, t: Thread)
    requires t.Creating? && WellFormed(st) && Possible(st, ev) && Wired(n, st, t) && NextCreate(cfg, t, ev).Some?
    ensures SamePlan(t, NextCreate(cfg, t, ev).value) && Wired(n, Effect(st, ev), NextCreate(cfg, t, ev).value)
  {
    NextKeepsPlan(cfg, t, ev);
    if NetworkPhase(t.pc) {
      OwnNetworkPhase(cfg, n, st, ev, t);
    } else if ProxyPhase(t.pc) {
      OwnProxyPhase(n, st, ev, t);
    } else if RollPhase(t.pc) {
      OwnRollPhase(cfg, n, st, ev, t);
    } else {
      OwnVolumePhase(n, st, ev, t);
    }
  }

  lemma OwnDeleteStays(cfg: Config, names: set<string>, n: string, st: State, ev: Event, t: Thread)
    requires n in names && t.Deleting? && WellFormed(st) && Possible(st, ev) && AtHome(n, ev) && LabelsStayHome(cfg, names, st)
    requires ThreadInv(cfg, st, n, t) && NextDelete(t, ev).Some?
    ensures ThreadInv(cfg, Effect(st, ev), n, NextDelete(t, ev).value)
  {
  }

  lemma BeginGood(cfg: Config, st: State, n: string, req: Request)
    requires GoodRequest(cfg, n, req)
    ensures ThreadInv(cfg, st, n, StartCreate(cfg, req, st))
  {
    PlanIsGood(cfg, n, req);
    FreshThread(cfg, st, n, PlanOf(cfg, req), ViewOf(cfg, req.name, st));
  }

  lemma FreshThread(cfg: Config, st: State, n: string, plan: Plan, before: View)
    requires GoodPlan(cfg, n, plan)
    requires plan.name == n && plan.main.name == CtrName(n) && plan.sidecar.name == ProxyName(n)
    ensures ThreadInv(cfg, st, n, Creating(plan, before, Begin, false, false, {}, 0))
  {
  }

  lemma CallStep(cfg: Config, s: Sys, n: string, ev: Event)
    requires Inv(cfg, s) && Enabled(cfg, s, Call(n, ev))
    ensures Inv(cfg, After(cfg, s, Call(n, ev)))
  {
    var s' := After(cfg, s, Call(n, ev));
    var names := s.threads.Keys;
    assert s'.threads.Keys == names;
    StepTouchesOwn(cfg, n, s.st, s.threads[n], ev);
    EffectKeepsWellFormed(s.st, ev);
    LabelsStay(cfg, names, n, s.st, ev);
    if s.threads[n].Creating? {
      OwnCreateStays(cfg, n, s.st, ev, s.threads[n]);
    } else {
      OwnDeleteStays(cfg, names, n, s.st, ev, s.threads[n]);
    }
    forall m | m in names && m != n
      ensures ThreadInv(cfg, s'.st, m, s'.threads[m])
    {
      OtherThreadsStay(cfg, n, m, s.st, ev, s.threads[m]);
    }
  }

  lemma InvStep(cfg: Config, s: Sys, act: Act)
    requires Inv(cfg, s) && Enabled(cfg, s, act)
    ensures Inv(cfg, After(cfg, s, act))
  {
    var s' := After(cfg, s, act);
    var names := s.threads.Keys;
    assert s'.threads.Keys == names;
    if act.BeginCreate? {
      BeginGood(cfg, s.st, act.who, act.req);
    }
    if act.Call? {
      CallStep(cfg, s, act.who, act.ev);
    }
  }

  function AllIdle(names: set<string>): map<string, Thread> {
    map n | n in names :: Idle
  }

  /** An engine with any networks and volumes but no container, and every thread idle. */
  function NoContainers(names: set<string>, networks: map<string, Network>, volumes: set<string>, issued: set<Id>): Sys {
    Sys(State(map[], networks, volumes, issued), AllIdle(names))
  }

  /** The invariant holds before the first sandbox. */
  lemma StartIsGood(cfg: Config, names: set<string>, networks: map<string, Network>, volumes: set<string>, issued: set<Id>)
    requires AllApart(names)
    ensures Inv(cfg, NoContainers(names, networks, volumes, issued))
  {
    assert AllIdle(names).Keys == names;
  }

  /** In every state of every run the invariant holds. */
  lemma {:induction false} RunsKeepInv(cfg: Config, s: Sys, acts: seq<Act>)
    requires Inv(cfg, s) && IsRun(cfg, s, acts)
    ensures Inv(cfg, End(cfg, s, acts))
    ensures End(cfg, s, acts).threads.Keys == s.threads.Keys
    decreases |acts|
  {
    if acts != [] {
      InvStep(cfg, s, acts[0]);
      assert After(cfg, s, acts[0]).threads.Keys == s.threads.Keys;
      RunsKeepInv(cfg, After(cfg, s, acts[0]), acts[1..]);
    }
  }

  /** In every reachable state no step of a sandbox touches another one, whatever that one is doing. */
  lemma StepLeavesOthers(cfg: Config, s: Sys, act: Act, m: string)
    requires Inv(cfg, s) && Enabled(cfg, s, act) && m in s.threads && act.who != m
    ensures ViewOf(cfg, m, After(cfg, s, act).st) == ViewOf(cfg, m, s.st)
    ensures m in After(cfg, s, act).threads && After(cfg, s, act).threads[m] == s.threads[m]
  {
    if act.Call? {
      StepTouchesOwn(cfg, act.who, s.st, s.threads[act.who], act.ev);
      TouchingLeavesOthers(cfg, act.who, m, s.st, act.ev);
    }
  }

  /**
   Non-interference: whatever the others do, in any interleaving, a sandbox that takes
   no step keeps its container, proxy, network and volumes exactly as they were.
   */
  lemma {:induction false} RunsDoNotInterfere(cfg: Config, s: Sys, acts: seq<Act>, m: string)
    requires Inv(cfg, s) && IsRun(cfg, s, acts) && m in s.threads
    requires forall a :: a in acts ==> a.who != m
    ensures ViewOf(cfg, m, End(cfg, s, acts).st) == ViewOf(cfg, m, s.st)
    ensures m in End(cfg, s, acts).threads && End(cfg, s, acts).threads[m] == s.threads[m]
    decreases |acts|
  {
    if acts != [] {
      var act := acts[0];
      assert act.who != m;
      InvStep(cfg, s, act);
      StepLeavesOthers(cfg, s, act, m);
      RunsDoNotInterfere(cfg, After(cfg, s, act), acts[1..], m);
    }
  }

  /** In these steps sandbox n begins nothing new. */
  predicate OnlyCalls(n: string, acts: seq<Act>) {
    forall i :: 0 <= i < |acts| && acts[i].who == n ==> acts[i].Call?
  }

  // ----- mounts of another sandbox's volumes -----

  /** The step gives no other sandbox a container that uses a volume of n. */
  predicate KeepsOff(n: string, act: Act) {
    act.Call? && act.who != n && act.ev.ok && act.ev.call.CreateCtr? ==> act.ev.call.ctr.volumes !! Vols(n)
  }

  predicate AllKeepOff(n: string, acts: seq<Act>) {
    acts == [] || (KeepsOff(n, acts[0]) && AllKeepOff(n, acts[1..]))
  }

  /** A request of another sandbox whose driver_config mounts no volume of n. */
  predicate MountsAvoid(n: string, act: Act) {
    act.BeginCreate? && act.who != n ==> act.req.driverVolumes !! Vols(n)
  }

  ghost predicate PlansAvoid(n: string, s: Sys) {
    forall m :: m in s.threads && m != n && s.threads[m].Creating? ==>
      s.threads[m].plan.main.volumes !! Vols(n) && s.threads[m].plan.sidecar.volumes !! Vols(n)
  }

  lemma PlanCallsAvoid(cfg: Config, t: Thread, ev: Event, n: string)
    requires t.Creating? && NextCreate(cfg, t, ev).Some? && ev.call.CreateCtr?
    ensures ev.call.ctr == t.plan.main || ev.call.ctr == t.plan.sidecar
  {
  }

  lemma StepAvoids(cfg: Config, s: Sys, act: Act, n: string)
    requires AllApart(s.threads.Keys) && n in s.threads && Enabled(cfg, s, act) && PlansAvoid(n, s) && MountsAvoid(n, act)
    ensures KeepsOff(n, act) && PlansAvoid(n, After(cfg, s, act))
  {
    if act.who != n {
      ApartNames(cfg.netPrefix, act.who, n);
      if act.Call? {
        CallAvoids(cfg, s.threads[act.who], act.ev, n);
      } else if act.BeginCreate? {
        PlanAvoids(cfg, act.req, n);
      }
    }
  }

  lemma CallAvoids(cfg: Config, t: Thread, ev: Event, n: string)
    requires Next(cfg, t, ev).Some?
    requires t.Creating? ==> t.plan.main.volumes !! Vols(n) && t.plan.sidecar.volumes !! Vols(n)
    ensures ev.call.CreateCtr? ==> ev.call.ctr.volumes !! Vols(n)
    ensures Next(cfg, t, ev).value.Creating? ==> t.Creating? && Next(cfg, t, ev).value.plan == t.plan
  {
    if t.Creating? {
      NextKeepsPlan(cfg, t, ev);
      if ev.call.CreateCtr? {
        PlanCallsAvoid(cfg, t, ev, n);
      }
    }
  }

  lemma PlanAvoids(cfg: Config, req: Request, n: string)
    requires req.driverVolumes !! Vols(n) && Vols(req.name) !! Vols(n)
    ensures PlanOf(cfg, req).main.volumes !! Vols(n) && PlanOf(cfg, req).sidecar.volumes !! Vols(n)
  {
  }

  /** It is enough that no request of another sandbox mounts a volume of n. */
  lemma {:induction false} RequestsKeepOff(cfg: Config, s: Sys, acts: seq<Act>, n: string)
    requires Inv(cfg, s) && IsRun(cfg, s, acts) && n in s.threads && PlansAvoid(n, s)
    requires forall i :: 0 <= i < |acts| ==> MountsAvoid(n, acts[i])
    ensures AllKeepOff(n, acts)
    decreases |acts|
  {
    if acts != [] {
      InvStep(cfg, s, acts[0]);
      StepAvoids(cfg, s, acts[0], n);
      RequestsKeepOff(cfg, After(cfg, s, acts[0]), acts[1..], n);
    }
  }
}
