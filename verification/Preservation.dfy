/**
 What Create never takes away, even when removals fail and contexts are cancelled.
 */
module Preservation {
  import opened Names
  import opened Engine
  import opened Sandbox
  import opened Provision
  import opened Runs
  import opened Rollback

  /** Everything of the view is there unchanged. */
  ghost predicate Present(before: View, st: State) {
    && (forall id :: id in before.containers ==> id in st.containers && st.containers[id] == before.containers[id])
    && (forall net :: net in before.networks ==> net in st.networks && st.networks[net] == before.networks[net])
    && before.volumes <= st.volumes
  }

  /** Nothing of the view is marked for removal. */
  ghost predicate Unmarked(cfg: Config, n: string, st: State, t: Thread)
    requires t.Creating?
  {
    && t.volsMade !! t.before.volumes
    && (NetNew(t) ==> Net(cfg, n) !in t.before.networks)
    && (ProxyLive(t) ==> t.proxyId !in t.before.containers && NoProxyIn(n, t.before))
  }

  ghost predicate NoProxyIn(n: string, before: View) {
    forall id :: id in before.containers ==> before.containers[id].name != ProxyName(n)
  }

  /** Everything that was there is there still, and nothing of it is marked for removal. */
  ghost predicate Keeps(cfg: Config, n: string, st: State, t: Thread)
    requires t.Creating?
  {
    Flags(t) && Present(t.before, st) && Unmarked(cfg, n, st, t)
  }

  /** The call does not remove or change anything of the view. */
  ghost predicate Spares(before: View, ev: Event) {
    match ev.call
    case RemoveNet(net) => net !in before.networks
    case RemoveVol(v) => v !in before.volumes
    case RemoveId(id) => id !in before.containers
    case RemoveName(name) => forall id :: id in before.containers ==> before.containers[id].name != name
    case Connect(id, _) => id !in before.containers
    case _ => true
  }

  lemma SparedIsPresent(before: View, st: State, ev: Event)
    requires WellFormed(st) && Possible(st, ev) && Present(before, st) && (ev.ok ==> Spares(before, ev))
    ensures Present(before, Effect(st, ev))
  {
  }

  lemma KeepNetwork(cfg: Config, n: string, st: State, t: Thread, ev: Event)
    requires WellFormed(st) && t.Creating? && NetworkPhase(t.pc) && t.plan.name == n && Keeps(cfg, n, st, t)
    requires Possible(st, ev) && NextNetwork(cfg, t, ev).Some?
    ensures NextNetwork(cfg, t, ev).value.Creating? && Keeps(cfg, n, Effect(st, ev), NextNetwork(cfg, t, ev).value)
  {
    FlagsNetwork(cfg, t, ev);
    NetworkKeepsPlan(cfg, t, ev);
    NetworkMoves(cfg, t, ev);
    SparedIsPresent(t.before, st, ev);
  }

  lemma KeepVolume(cfg: Config, n: string, st: State, t: Thread, ev: Event)
    requires WellFormed(st) && t.Creating? && VolumePhase(t.pc) && t.plan.name == n && Keeps(cfg, n, st, t)
    requires Possible(st, ev) && NotTaken(n, st, ev) && NextVolume(t, ev).Some?
    ensures NextVolume(t, ev).value.Creating? && Keeps(cfg, n, Effect(st, ev), NextVolume(t, ev).value)
  {
    FlagsVolume(t, ev);
    VolumeKeepsPlan(t, ev);
    VolumeMoves(n, t, ev);
    VolumeCallsSpare(t, ev);
    SparedIsPresent(t.before, st, ev);
    var t' := NextVolume(t, ev).value;
    if ev.ok && ev.call.CreateVol? {
      VolumeKinds(n, n);
    }
    assert Unmarked(cfg, n, Effect(st, ev), t');
  }

  lemma VolumeCallsSpare(t: Thread, ev: Event)
    requires t.Creating? && VolumePhase(t.pc) && NextVolume(t, ev).Some?
    ensures Spares(t.before, ev)
  {
  }

  lemma KeepProxy(cfg: Config, n: string, st: State, t: Thread, ev: Event)
    requires WellFormed(st) && t.Creating? && ProxyPhase(t.pc) && t.plan.name == n && Keeps(cfg, n, st, t)
    requires t.plan.sidecar.name == ProxyName(n)
    requires Possible(st, ev) && NextProxy(t, ev).Some?
    ensures NextProxy(t, ev).value.Creating? && Keeps(cfg, n, Effect(st, ev), NextProxy(t, ev).value)
  {
    FlagsProxy(t, ev);
    ProxyKeepsPlan(t, ev);
    ProxyMoves(t, ev);
    SparedIsPresent(t.before, st, ev);
    if t.pc == ProxyMake && ev.ok {
      NewSidecar(n, st, t.before, ev);
    }
  }

  /** A sidecar that could be made was not there under its name or ID. */
  lemma NewSidecar(n: string, st: State, before: View, ev: Event)
    requires WellFormed(st) && Possible(st, ev) && Present(before, st)
    requires ev.ok && ev.call.CreateCtr? && ev.call.ctr.name == ProxyName(n)
    ensures ev.call.newId !in before.containers && NoProxyIn(n, before)
  {
    forall id | id in before.containers
      ensures before.containers[id].name != ProxyName(n)
    {
      assert id in st.containers;
    }
  }

  lemma KeepRoll(cfg: Config, n: string, st: State, t: Thread, ev: Event)
    requires WellFormed(st) && t.Creating? && RollPhase(t.pc) && t.plan.name == n && Keeps(cfg, n, st, t)
    requires Possible(st, ev) && NextRoll(cfg, t, ev).Some?
    ensures NextRoll(cfg, t, ev).value.Creating? && Keeps(cfg, n, Effect(st, ev), NextRoll(cfg, t, ev).value)
  {
    FlagsRoll(cfg, t, ev);
    RollKeepsPlan(cfg, t, ev);
    RollMoves(cfg, t, ev);
    assert Spares(t.before, ev);
    SparedIsPresent(t.before, st, ev);
  }

  lemma OwnStepKeeps(cfg: Config, n: string, st: State, t: Thread, ev: Event)
    requires WellFormed(st) && t.Creating? && ThreadInv(cfg, st, n, t) && Keeps(cfg, n, st, t)
    requires Possible(st, ev) && NotTaken(n, st, ev) && NextCreate(cfg, t, ev).Some?
    ensures NextCreate(cfg, t, ev).value.Creating? && Keeps(cfg, n, Effect(st, ev), NextCreate(cfg, t, ev).value)
  {
    if NetworkPhase(t.pc) {
      KeepNetwork(cfg, n, st, t, ev);
    } else if ProxyPhase(t.pc) {
      KeepProxy(cfg, n, st, t, ev);
    } else if RollPhase(t.pc) {
      KeepRoll(cfg, n, st, t, ev);
    } else {
      KeepVolume(cfg, n, st, t, ev);
    }
  }

  lemma OtherStepKeeps(cfg: Config, n: string, m: string, st: State, t: Thread, ev: Event)
    requires Apart(m, n)
    requires WellFormed(st) && Possible(st, ev) && Touching(cfg, m, st, ev)
    requires t.Creating? && Keeps(cfg, n, st, t) && FromView(cfg, n, t.before)
    ensures Keeps(cfg, n, Effect(st, ev), t)
  {
    ApartNames(cfg.netPrefix, m, n);
    OthersSpare(cfg, n, m, st, t.before, ev);
    SparedIsPresent(t.before, st, ev);
  }

  lemma OthersSpare(cfg: Config, n: string, m: string, st: State, before: View, ev: Event)
    requires Ctrs(m) !! Ctrs(n) && Vols(m) !! Vols(n) && Net(cfg, m) != Net(cfg, n)
    requires Touching(cfg, m, st, ev) && Present(before, st) && FromView(cfg, n, before)
    ensures Spares(before, ev)
  {
  }

  /** A view holds only things named after its sandbox. */
  ghost predicate FromView(cfg: Config, n: string, v: View) {
    && (forall id :: id in v.containers ==> v.containers[id].name in Ctrs(n))
    && (forall net :: net in v.networks ==> net == Net(cfg, n))
    && v.volumes <= Vols(n)
  }

  ghost predicate StillKeeps(cfg: Config, n: string, st: State, t: Thread) {
    t.Creating? ==> Keeps(cfg, n, st, t) && FromView(cfg, n, t.before)
  }

  /** Sandbox n takes no volume for its own that was there. */
  ghost predicate TakesNothing(cfg: Config, n: string, s: Sys, acts: seq<Act>)
    requires IsRun(cfg, s, acts)
    decreases |acts|
  {
    acts != [] ==>
      && (acts[0].Call? && acts[0].who == n ==> NotTaken(n, s.st, acts[0].ev))
      && TakesNothing(cfg, n, After(cfg, s, acts[0]), acts[1..])
  }

  lemma StepKeeps(cfg: Config, s: Sys, act: Act, n: string)
    requires Inv(cfg, s) && n in s.threads && Enabled(cfg, s, act) && StillKeeps(cfg, n, s.st, s.threads[n])
    requires act.Call? && act.who == n ==> NotTaken(n, s.st, act.ev)
    ensures var s' := After(cfg, s, act); n in s'.threads && StillKeeps(cfg, n, s'.st, s'.threads[n])
  {
    if act.Call? && act.who == n && s.threads[n].Creating? {
      OwnStepKeeps(cfg, n, s.st, s.threads[n], act.ev);
      NextKeepsPlan(cfg, s.threads[n], act.ev);
    } else if act.Call? && act.who != n && s.threads[n].Creating? {
      StepTouchesOwn(cfg, act.who, s.st, s.threads[act.who], act.ev);
      OtherStepKeeps(cfg, n, act.who, s.st, s.threads[n], act.ev);
    } else if act.BeginCreate? && act.who == n {
      BeginKeeps(cfg, n, s.st, act.req);
    }
  }

  lemma BeginKeeps(cfg: Config, n: string, st: State, req: Request)
    requires req.name == n
    ensures StillKeeps(cfg, n, st, StartCreate(cfg, req, st))
  {
    FreshKeeps(cfg, n, st, PlanOf(cfg, req));
  }

  lemma FreshKeeps(cfg: Config, n: string, st: State, plan: Plan)
    ensures StillKeeps(cfg, n, st, Creating(plan, ViewOf(cfg, n, st), Begin, false, false, {}, 0))
  {
  }

  /**
   Create removes nothing that it found. In every run, whatever fails: containers,
   networks and volumes of n that were there when Create began are there unchanged, as
   long as it takes no volume for its own that was there.
   */
  lemma {:induction false} CreateKeepsWhatItFound(cfg: Config, s: Sys, acts: seq<Act>, n: string)
    requires Inv(cfg, s) && IsRun(cfg, s, acts) && TakesNothing(cfg, n, s, acts)
    requires n in s.threads && StillKeeps(cfg, n, s.st, s.threads[n])
    ensures var s' := End(cfg, s, acts); n in s'.threads && StillKeeps(cfg, n, s'.st, s'.threads[n])
    decreases |acts|
  {
    if acts != [] {
      InvStep(cfg, s, acts[0]);
      StepKeeps(cfg, s, acts[0], n);
      CreateKeepsWhatItFound(cfg, After(cfg, s, acts[0]), acts[1..], n);
    }
  }
}
