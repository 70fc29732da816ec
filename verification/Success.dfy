/**
 What a successful Create leaves: exactly the requested container, with a proxy the sidecar
 connected to the bridge and found ready, the network and the volumes of the request. Proved
 for every interleaving and every request.
 */
module Success {
  import opened GoStrings
  import opened Names
  import opened Engine
  import opened Sandbox
  import opened Provision
  import opened Runs
  import opened Frame

  // ----- events in order -----

  /** The wanted events happened, in this order and perhaps with others between them. */
  predicate InOrder(want: seq<Event>, evs: seq<Event>)
    decreases |evs|
  {
    want == [] ||
    (evs != [] &&
     var rest, last := evs[..|evs| - 1], evs[|evs| - 1];
     InOrder(want, rest) || (last == want[|want| - 1] && InOrder(want[..|want| - 1], rest)))
  }

  lemma InOrderLater(want: seq<Event>, evs: seq<Event>, ev: Event)
    requires InOrder(want, evs)
    ensures InOrder(want, evs + [ev])
  {
    assert (evs + [ev])[..|evs|] == evs;
  }

  lemma InOrderNext(want: seq<Event>, evs: seq<Event>, ev: Event)
    requires InOrder(want, evs)
    ensures InOrder(want + [ev], evs + [ev])
  {
    assert (evs + [ev])[..|evs|] == evs && (want + [ev])[..|want|] == want;
  }

  // ----- what is there at each step -----

  predicate Late(pc: Pc) {
    pc.DataInspect? || pc.DataMake? || pc.LastCheck? || pc.MainMake? || pc.Made?
  }

  /** On the way to success: nothing has failed so far. */
  predicate OnPath(pc: Pc) {
    !pc.NetUndo? && !pc.ProxyUndo? && !pc.RollProxy? && !pc.RollVolume? && !pc.RollNetwork? && !pc.Failed?
  }

  /** Between the network and the data volume, which only a sandbox with a proxy passes. */
  predicate ForProxy(pc: Pc) {
    || pc.CaInspect? || pc.CaMake? || pc.SshInspect? || pc.SshMake? || pc.ProxyCheck? || pc.ProxyMake?
    || pc.ProxyBridge? || pc.ProxyStart? || pc.ProxyReady?
  }

  predicate HasSidecar(t: Thread)
    requires t.Creating?
  {
    t.pc.ProxyBridge? || t.pc.ProxyStart? || t.pc.ProxyReady? || (Late(t.pc) && t.plan.proxied)
  }

  function Bridged(c: Container): Container {
    c.(networks := c.networks + {"bridge"})
  }

  function Sidecar(t: Thread): map<Id, Container>
    requires t.Creating?
  {
    if !HasSidecar(t) then map[]
    else map[t.proxyId := if t.pc.ProxyBridge? then t.plan.sidecar else Bridged(t.plan.sidecar)]
  }

  /** The volumes that are there for sure, made here or found. */
  function Volumes(n: string, t: Thread): set<string>
    requires t.Creating?
  {
    (if (ForProxy(t.pc) && !t.pc.CaInspect? && !t.pc.CaMake?) || (Late(t.pc) && t.plan.proxied) then {CaVolume(n)} else {})
    + (if t.plan.ssh && ((ForProxy(t.pc) && !t.pc.CaInspect? && !t.pc.CaMake? && !t.pc.SshInspect? && !t.pc.SshMake?) || (Late(t.pc) && t.plan.proxied))
       then {SshVolume(n)} else {})
    + (if t.plan.persist && (t.pc.LastCheck? || t.pc.MainMake? || t.pc.Made?) then {DataVolume(n)} else {})
  }

  ghost predicate ContainersBuilt(now: View, t: Thread)
    requires t.Creating?
  {
    && (HasSidecar(t) ==> t.proxyId !in t.before.containers)
    && if t.pc.Made? then
         exists id :: id !in t.before.containers && id !in Sidecar(t)
                      && now.containers == t.before.containers + Sidecar(t) + map[id := t.plan.main]
       else now.containers == t.before.containers + Sidecar(t)
  }

  ghost predicate NetworksBuilt(cfg: Config, n: string, now: View, t: Thread)
    requires t.Creating?
  {
    && (ForProxy(t.pc) || Late(t.pc) || t.pc.NetCheck? ==> Net(cfg, n) in now.networks)
    && (Net(cfg, n) in t.before.networks || !(ForProxy(t.pc) || Late(t.pc) || t.pc.NetCheck?) ==> now.networks == t.before.networks)
    && (!cfg.nativeCreate && Net(cfg, n) !in t.before.networks && Net(cfg, n) in now.networks ==>
          now.networks[Net(cfg, n)].internal == t.plan.proxied)
  }

  /** What of the sandbox is there, as long as nothing has failed. */
  ghost predicate Built(cfg: Config, n: string, now: View, t: Thread)
    requires t.Creating?
  {
    OnPath(t.pc) ==>
      && (ForProxy(t.pc) ==> t.plan.proxied)
      && (t.pc.SshInspect? || t.pc.SshMake? ==> t.plan.ssh) && (t.pc.DataInspect? || t.pc.DataMake? ==> t.plan.persist)
      && ContainersBuilt(now, t) && NetworksBuilt(cfg, n, now, t)
      && now.volumes == t.before.volumes + Volumes(n, t)
  }

  // ----- own steps -----

  /** Leaving the network phase. */
  lemma NetworkShape(cfg: Config, t: Thread, ev: Event)
    requires t.Creating? && NetworkPhase(t.pc) && NextNetwork(cfg, t, ev).Some?
    ensures var t' := NextNetwork(cfg, t, ev).value;
            && t'.Creating? && t'.proxyId == t.proxyId
            && (OnPath(t'.pc) ==>
                  && OnPath(t.pc) && !HasSidecar(t) && Volumes("", t) == {}
                  && (NetworkPhase(t'.pc) ||
                      (if t.plan.proxied then t'.pc == CaInspect else if t.plan.persist then t'.pc == DataInspect else t'.pc == LastCheck)))
  {
  }

  lemma NetworkCalls(cfg: Config, n: string, st: State, t: Thread, ev: Event)
    requires t.Creating? && t.plan.name == n && NetworkPhase(t.pc) && NextNetwork(cfg, t, ev).Some? && Possible(st, ev)
    requires NetworksBuilt(cfg, n, ViewOf(cfg, n, st), t) && OnPath(t.pc) && OnPath(NextNetwork(cfg, t, ev).value.pc)
    requires NextNetwork(cfg, t, ev).value.Creating? && NextNetwork(cfg, t, ev).value.before == t.before
    ensures NetworksBuilt(cfg, n, ViewOf(cfg, n, Effect(st, ev)), NextNetwork(cfg, t, ev).value)
    ensures Effect(st, ev).containers == st.containers && Effect(st, ev).volumes == st.volumes
  {
    assert forall s: State :: Net(cfg, n) in s.networks <==> Net(cfg, n) in ViewOf(cfg, n, s).networks;
    if ev.ok && ev.call.CreateNet? {
      assert ev.call.newNet == Net(cfg, n);
      assert Net(cfg, n) !in ViewOf(cfg, n, st).networks;
    } else {
      assert Effect(st, ev) == st;
    }
  }

  lemma BuildsNetwork(cfg: Config, n: string, st: State, t: Thread, ev: Event)
    requires t.Creating? && t.plan.name == n && NetworkPhase(t.pc) && NextNetwork(cfg, t, ev).Some? && Possible(st, ev)
    requires Built(cfg, n, ViewOf(cfg, n, st), t)
    ensures NextNetwork(cfg, t, ev).value.Creating? && Built(cfg, n, ViewOf(cfg, n, Effect(st, ev)), NextNetwork(cfg, t, ev).value)
  {
    NetworkKeepsPlan(cfg, t, ev);
    NetworkShape(cfg, t, ev);
    if OnPath(NextNetwork(cfg, t, ev).value.pc) {
      NetworkCalls(cfg, n, st, t, ev);
      NetworkPasses(cfg, n, ViewOf(cfg, n, st), ViewOf(cfg, n, Effect(st, ev)), t, NextNetwork(cfg, t, ev).value);
    }
  }

  lemma NetworkPasses(cfg: Config, n: string, now: View, now': View, t: Thread, t': Thread)
    requires t.Creating? && t'.Creating? && SamePlan(t, t') && OnPath(t.pc) && OnPath(t'.pc) && NetworkPhase(t.pc)
    requires NetworkPhase(t'.pc) ||
             (if t.plan.proxied then t'.pc == CaInspect else if t.plan.persist then t'.pc == DataInspect else t'.pc == LastCheck && !t.plan.persist)
    requires Built(cfg, n, now, t) && now'.containers == now.containers && now'.volumes == now.volumes && NetworksBuilt(cfg, n, now', t')
    ensures Built(cfg, n, now', t')
  {
    assert Sidecar(t) == map[] && Sidecar(t') == map[] && Volumes(n, t) == {} && Volumes(n, t') == {};
  }

  /** The view after a container of the sandbox was made. */
  lemma ViewGrows(n: string, cs: map<Id, Container>, was: map<Id, Container>, id: Id, c: Container)
    requires id !in cs && c.name in Ctrs(n) && CtrsOf(n, cs) == was
    ensures CtrsOf(n, cs[id := c]) == was + map[id := c] && id !in was
  {
    assert id !in CtrsOf(n, cs);
    assert CtrsOf(n, cs[id := c]) == CtrsOf(n, cs)[id := c];
  }

  lemma ViewChanges(n: string, cs: map<Id, Container>, was: map<Id, Container>, id: Id, c: Container, c': Container)
    requires id !in was && CtrsOf(n, cs) == was + map[id := c] && c'.name == c.name
    ensures id in cs && cs[id] == c && CtrsOf(n, cs[id := c']) == was + map[id := c']
  {
    assert id in CtrsOf(n, cs) && CtrsOf(n, cs)[id] == c;
    assert CtrsOf(n, cs[id := c']) == CtrsOf(n, cs)[id := c'];
  }

  lemma ProxyShape(t: Thread, ev: Event)
    requires t.Creating? && ProxyPhase(t.pc) && NextProxy(t, ev).Some?
    ensures var t' := NextProxy(t, ev).value;
            t'.Creating? && (OnPath(t'.pc) ==>
              && OnPath(t.pc) && ev.ok
              && (t.pc.ProxyMake? ==> ev.call.CreateCtr? && ev.call.ctr == t.plan.sidecar && t'.proxyId == ev.call.newId && t'.pc == ProxyBridge)
              && (t.pc.ProxyBridge? ==> ev.call == Connect(t.proxyId, "bridge") && t'.proxyId == t.proxyId && t'.pc == ProxyStart)
              && (t.pc.ProxyStart? ==> ev.call == Start(t.proxyId) && t'.proxyId == t.proxyId && t'.pc == ProxyReady)
              && (t.pc.ProxyReady? ==> ev.call == Await(t.proxyId) && t'.proxyId == t.proxyId
                                       && t'.pc == if t.plan.persist then DataInspect else LastCheck))
  {
  }

  lemma BuildsProxy(cfg: Config, n: string, st: State, t: Thread, ev: Event)
    requires t.Creating? && t.plan.sidecar.name == ProxyName(n) && ProxyPhase(t.pc) && NextProxy(t, ev).Some?
    requires WellFormed(st) && Possible(st, ev) && Built(cfg, n, ViewOf(cfg, n, st), t)
    ensures NextProxy(t, ev).value.Creating? && Built(cfg, n, ViewOf(cfg, n, Effect(st, ev)), NextProxy(t, ev).value)
  {
    ProxyKeepsPlan(t, ev);
    ProxyShape(t, ev);
    var t' := NextProxy(t, ev).value;
    if OnPath(t'.pc) {
      BuildsSidecar(cfg, n, st, t, t', ev);
    }
  }

  lemma BuildsSidecar(cfg: Config, n: string, st: State, t: Thread, t': Thread, ev: Event)
    requires t.Creating? && t'.Creating? && t.plan.sidecar.name == ProxyName(n) && SamePlan(t, t') && ev.ok
    requires Possible(st, ev) && Built(cfg, n, ViewOf(cfg, n, st), t)
    requires (t.pc.ProxyMake? && ev.call.CreateCtr? && ev.call.ctr == t.plan.sidecar && t'.proxyId == ev.call.newId && t'.pc == ProxyBridge && WellFormed(st))
             || (t.pc.ProxyBridge? && ev.call == Connect(t.proxyId, "bridge") && t'.proxyId == t.proxyId && t'.pc == ProxyStart)
             || (t.pc.ProxyStart? && ev.call == Start(t.proxyId) && t'.proxyId == t.proxyId && t'.pc == ProxyReady)
             || (t.pc.ProxyReady? && ev.call == Await(t.proxyId) && t'.proxyId == t.proxyId && t'.pc == if t.plan.persist then DataInspect else LastCheck)
    ensures Built(cfg, n, ViewOf(cfg, n, Effect(st, ev)), t')
  {
    if t.pc.ProxyMake? {
      SidecarIsMade(cfg, n, st, t, t', ev.call.newId);
    } else if t.pc.ProxyBridge? {
      SidecarIsBridged(cfg, n, st, t, t');
    } else {
      assert Effect(st, ev) == st;
      SidecarGoesOn(cfg, n, ViewOf(cfg, n, st), t, t');
    }
  }

  lemma SidecarGoesOn(cfg: Config, n: string, now: View, t: Thread, t': Thread)
    requires t.Creating? && t'.Creating? && SamePlan(t, t') && t'.proxyId == t.proxyId && Built(cfg, n, now, t)
    requires (t.pc.ProxyStart? && t'.pc.ProxyReady?) || (t.pc.ProxyReady? && t'.pc == if t.plan.persist then DataInspect else LastCheck)
    ensures Built(cfg, n, now, t')
  {
    assert Sidecar(t') == Sidecar(t) && Volumes(n, t') == Volumes(n, t);
  }

  lemma SidecarIsMade(cfg: Config, n: string, st: State, t: Thread, t': Thread, id: Id)
    requires t.Creating? && t'.Creating? && t.pc.ProxyMake? && SamePlan(t, t') && t'.pc.ProxyBridge? && t'.proxyId == id
    requires t.plan.sidecar.name == ProxyName(n) && id !in st.containers && Built(cfg, n, ViewOf(cfg, n, st), t)
    ensures Built(cfg, n, ViewOf(cfg, n, st.(containers := st.containers[id := t.plan.sidecar], issued := st.issued + {id})), t')
  {
    assert t.before.containers + map[] == t.before.containers;
    ViewGrows(n, st.containers, t.before.containers, id, t.plan.sidecar);
    assert Volumes(n, t') == Volumes(n, t);
  }

  lemma SidecarIsBridged(cfg: Config, n: string, st: State, t: Thread, t': Thread)
    requires t.Creating? && t'.Creating? && t.pc.ProxyBridge? && SamePlan(t, t') && t'.pc.ProxyStart? && t'.proxyId == t.proxyId
    requires Built(cfg, n, ViewOf(cfg, n, st), t)
    ensures t.proxyId in st.containers
    ensures Built(cfg, n, ViewOf(cfg, n, st.(containers := st.containers[t.proxyId := Bridged(st.containers[t.proxyId])])), t')
  {
    ViewChanges(n, st.containers, t.before.containers, t.proxyId, t.plan.sidecar, Bridged(t.plan.sidecar));
    assert Volumes(n, t') == Volumes(n, t);
  }

  lemma VolumeShape(n: string, t: Thread, ev: Event)
    requires t.Creating? && t.plan.name == n && NextVolume(t, ev).Some? && !NetworkPhase(t.pc) && !ProxyPhase(t.pc) && !RollPhase(t.pc)
    ensures var t' := NextVolume(t, ev).value;
            t'.Creating? && (OnPath(t'.pc) ==>
              && t'.proxyId == t.proxyId
              && (t.pc.CaInspect? ==> ev.call == InspectVol(CaVolume(n)) && t'.pc == if ev.ok then AfterCaPc(t) else CaMake)
              && (t.pc.CaMake? ==> ev == Event(CreateVol(CaVolume(n)), true) && t'.pc == AfterCaPc(t))
              && (t.pc.SshInspect? ==> ev.call == InspectVol(SshVolume(n)) && t'.pc == if ev.ok then ProxyCheck else SshMake)
              && (t.pc.SshMake? ==> ev == Event(CreateVol(SshVolume(n)), true) && t'.pc == ProxyCheck)
              && (t.pc.DataInspect? ==> ev.call == InspectVol(DataVolume(n)) && t'.pc == if ev.ok then LastCheck else DataMake)
              && (t.pc.DataMake? ==> ev == Event(CreateVol(DataVolume(n)), true) && t'.pc == LastCheck)
              && (t.pc.ProxyCheck? ==> ev == Event(Check, true) && t'.pc == ProxyMake)
              && (t.pc.LastCheck? ==> ev == Event(Check, true) && t'.pc == MainMake)
              && (t.pc.MainMake? ==> ev.ok && ev.call.CreateCtr? && ev.call.ctr == t.plan.main && t'.pc == Made))
  {
  }

  function AfterCaPc(t: Thread): Pc
    requires t.Creating?
  {
    if t.plan.ssh then SshInspect else ProxyCheck
  }

  /** Volumes of the sandbox, found or made. */
  lemma VolumesGrow(n: string, vols: set<string>, before: set<string>, had: set<string>, v: string)
    requires v in Vols(n) && vols * Vols(n) == before + had
    ensures (vols + {v}) * Vols(n) == before + (had + {v})
    ensures v in vols ==> vols * Vols(n) == before + (had + {v})
  {
    assert (vols + {v}) * Vols(n) == vols * Vols(n) + {v};
  }

  lemma BuildsVolume(cfg: Config, n: string, st: State, t: Thread, ev: Event)
    requires t.Creating? && t.plan.name == n && NextVolume(t, ev).Some? && !NetworkPhase(t.pc) && !ProxyPhase(t.pc) && !RollPhase(t.pc)
    requires t.plan.main.name == CtrName(n) && WellFormed(st) && Possible(st, ev) && Built(cfg, n, ViewOf(cfg, n, st), t)
    ensures NextVolume(t, ev).value.Creating? && Built(cfg, n, ViewOf(cfg, n, Effect(st, ev)), NextVolume(t, ev).value)
  {
    VolumeKeepsPlan(t, ev);
    VolumeShape(n, t, ev);
    var t' := NextVolume(t, ev).value;
    if OnPath(t'.pc) {
      if t'.pc.Made? {
        BuildsMain(cfg, n, st, t, t', ev);
      } else {
        BuildsVolumes(cfg, n, st, t, t', ev);
      }
    }
  }

  lemma BuildsMain(cfg: Config, n: string, st: State, t: Thread, t': Thread, ev: Event)
    requires t.Creating? && t.pc.MainMake? && WellFormed(st) && Possible(st, ev) && Built(cfg, n, ViewOf(cfg, n, st), t)
    requires ev.ok && ev.call.CreateCtr? && ev.call.ctr == t.plan.main && t.plan.main.name == CtrName(n)
    requires t'.Creating? && t'.pc.Made? && SamePlan(t, t') && t'.proxyId == t.proxyId
    ensures Built(cfg, n, ViewOf(cfg, n, Effect(st, ev)), t')
  {
    assert ev.call.newId !in st.containers;
    MainIsMade(cfg, n, st, t, t', ev.call.newId);
  }

  lemma MainIsMade(cfg: Config, n: string, st: State, t: Thread, t': Thread, id: Id)
    requires t.Creating? && t'.Creating? && t.pc.MainMake? && t'.pc.Made? && SamePlan(t, t') && t'.proxyId == t.proxyId
    requires t.plan.main.name == CtrName(n) && id !in st.containers && Built(cfg, n, ViewOf(cfg, n, st), t)
    ensures Built(cfg, n, ViewOf(cfg, n, st.(containers := st.containers[id := t.plan.main], issued := st.issued + {id})), t')
  {
    ViewGrows(n, st.containers, t.before.containers + Sidecar(t), id, t.plan.main);
    assert Sidecar(t') == Sidecar(t) && Volumes(n, t') == Volumes(n, t);
    assert id !in t.before.containers && id !in Sidecar(t);
  }

  lemma BuildsVolumes(cfg: Config, n: string, st: State, t: Thread, t': Thread, ev: Event)
    requires t.Creating? && t.plan.name == n && NextVolume(t, ev) == Some(t') && !NetworkPhase(t.pc) && !ProxyPhase(t.pc) && !RollPhase(t.pc)
    requires Possible(st, ev) && Built(cfg, n, ViewOf(cfg, n, st), t)
    requires t'.Creating? && SamePlan(t, t') && OnPath(t'.pc) && !t'.pc.Made?
    ensures Built(cfg, n, ViewOf(cfg, n, Effect(st, ev)), t')
  {
    VolumeShape(n, t, ev);
    var st', had := Effect(st, ev), Volumes(n, t);
    assert st'.containers == st.containers && st'.networks == st.networks;
    if ev.ok && (ev.call.InspectVol? || ev.call.CreateVol?) {
      var v := if ev.call.InspectVol? then ev.call.seenVol else ev.call.newVol;
      VolumesGrow(n, st.volumes, t.before.volumes, had, v);
      VolumeIsThere(n, t, t', ev, v);
    } else {
      assert st' == st;
      NothingNewYet(n, t, t', ev);
    }
    VolumePasses(cfg, n, ViewOf(cfg, n, st), ViewOf(cfg, n, st'), t, t');
  }

  lemma VolumeIsThere(n: string, t: Thread, t': Thread, ev: Event, v: string)
    requires t.Creating? && t.plan.name == n && NextVolume(t, ev) == Some(t') && !NetworkPhase(t.pc) && !ProxyPhase(t.pc) && !RollPhase(t.pc)
    requires t'.Creating? && SamePlan(t, t') && OnPath(t'.pc) && ev.ok
    requires (ev.call.InspectVol? && v == ev.call.seenVol) || (ev.call.CreateVol? && v == ev.call.newVol)
    requires (ForProxy(t.pc) ==> t.plan.proxied) && (t.pc.SshInspect? || t.pc.SshMake? ==> t.plan.ssh)
    requires t.pc.DataInspect? || t.pc.DataMake? ==> t.plan.persist
    ensures Volumes(n, t') == Volumes(n, t) + {v} && v in Vols(n)
  {
    VolumeShape(n, t, ev);
  }

  lemma NothingNewYet(n: string, t: Thread, t': Thread, ev: Event)
    requires t.Creating? && t.plan.name == n && NextVolume(t, ev) == Some(t') && !NetworkPhase(t.pc) && !ProxyPhase(t.pc) && !RollPhase(t.pc)
    requires t'.Creating? && SamePlan(t, t') && OnPath(t'.pc) && !t'.pc.Made? && !(ev.ok && (ev.call.InspectVol? || ev.call.CreateVol?))
    ensures Volumes(n, t') == Volumes(n, t)
  {
    VolumeShape(n, t, ev);
  }

  lemma VolumePasses(cfg: Config, n: string, now: View, now': View, t: Thread, t': Thread)
    requires t.Creating? && t'.Creating? && SamePlan(t, t') && t'.proxyId == t.proxyId && OnPath(t.pc) && OnPath(t'.pc)
    requires (ForProxy(t.pc) || Late(t.pc)) && !ProxyKnown(t.pc) && !t'.pc.Made? && !t.pc.Made?
    requires if ForProxy(t.pc) then ForProxy(t'.pc) && !ProxyKnown(t'.pc) else Late(t'.pc)
    requires (t'.pc.SshInspect? || t'.pc.SshMake? ==> t.plan.ssh) && (t'.pc.DataInspect? || t'.pc.DataMake? ==> t.plan.persist)
    requires Built(cfg, n, now, t) && now'.containers == now.containers && now'.networks == now.networks
    requires now'.volumes == t.before.volumes + Volumes(n, t')
    ensures Built(cfg, n, now', t')
  {
    assert Sidecar(t') == Sidecar(t);
  }

  /** Every step of a Create of any request builds what it should. */
  lemma OwnStepBuilds(cfg: Config, n: string, st: State, t: Thread, ev: Event)
    requires t.Creating? && Wired(n, st, t) && WellFormed(st) && Possible(st, ev) && NextCreate(cfg, t, ev).Some?
    requires Built(cfg, n, ViewOf(cfg, n, st), t)
    ensures NextCreate(cfg, t, ev).value.Creating? && Built(cfg, n, ViewOf(cfg, n, Effect(st, ev)), NextCreate(cfg, t, ev).value)
  {
    if NetworkPhase(t.pc) {
      BuildsNetwork(cfg, n, st, t, ev);
    } else if ProxyPhase(t.pc) {
      BuildsProxy(cfg, n, st, t, ev);
    } else if RollPhase(t.pc) {
      RollStaysOff(cfg, t, ev);
    } else {
      BuildsVolume(cfg, n, st, t, ev);
    }
  }

  lemma RollStaysOff(cfg: Config, t: Thread, ev: Event)
    requires t.Creating? && RollPhase(t.pc) && NextRoll(cfg, t, ev).Some?
    ensures NextRoll(cfg, t, ev).value.Creating? && !OnPath(NextRoll(cfg, t, ev).value.pc)
  {
  }

  // ----- the milestones of the sidecar -----

  /** What has happened to the sidecar by now. */
  function Milestones(t: Thread): seq<Event>
    requires t.Creating?
  {
    if !HasSidecar(t) then []
    else
      [Event(CreateCtr(t.proxyId, t.plan.sidecar), true)]
      + (if t.pc.ProxyBridge? then [] else [Event(Connect(t.proxyId, "bridge"), true)])
      + (if t.pc.ProxyBridge? || t.pc.ProxyStart? then [] else [Event(Start(t.proxyId), true)])
      + (if Late(t.pc) then [Event(Await(t.proxyId), true)] else [])
  }

  /** Create is on its way and its sidecar has passed its milestones. */
  ghost predicate Passed(t: Thread, evs: seq<Event>) {
    t.Creating? && (OnPath(t.pc) ==> (ForProxy(t.pc) ==> t.plan.proxied) && InOrder(Milestones(t), evs))
  }

  lemma NoSidecarYet(cfg: Config, t: Thread, ev: Event)
    requires t.Creating? && !ProxyPhase(t.pc) && NextCreate(cfg, t, ev).Some? && OnPath(t.pc) && (ForProxy(t.pc) ==> t.plan.proxied)
    ensures var t' := NextCreate(cfg, t, ev).value;
            t'.Creating? && (OnPath(t'.pc) ==> (ForProxy(t'.pc) ==> t'.plan.proxied) && Milestones(t') == Milestones(t))
  {
    NextKeepsPlan(cfg, t, ev);
    if NetworkPhase(t.pc) {
      NetworkShape(cfg, t, ev);
    } else if RollPhase(t.pc) {
      RollStaysOff(cfg, t, ev);
    } else {
      VolumeShape(t.plan.name, t, ev);
    }
  }

  lemma SidecarPasses(t: Thread, ev: Event)
    requires t.Creating? && ProxyPhase(t.pc) && NextProxy(t, ev).Some? && OnPath(t.pc) && t.plan.proxied
    ensures var t' := NextProxy(t, ev).value;
            t'.Creating? && (OnPath(t'.pc) ==> t'.plan.proxied && Milestones(t') == Milestones(t) + [ev])
  {
    ProxyKeepsPlan(t, ev);
    ProxyShape(t, ev);
  }

  lemma PassesStep(cfg: Config, t: Thread, ev: Event, evs: seq<Event>)
    requires Passed(t, evs) && NextCreate(cfg, t, ev).Some?
    ensures Passed(NextCreate(cfg, t, ev).value, evs + [ev])
  {
    NextKeepsPlan(cfg, t, ev);
    if !OnPath(t.pc) {
      OffStaysOff(cfg, t, ev);
    } else if ProxyPhase(t.pc) {
      SidecarPasses(t, ev);
      InOrderNext(Milestones(t), evs, ev);
    } else {
      NoSidecarYet(cfg, t, ev);
      InOrderLater(Milestones(t), evs, ev);
    }
  }

  lemma OffStaysOff(cfg: Config, t: Thread, ev: Event)
    requires t.Creating? && NextCreate(cfg, t, ev).Some? && NextCreate(cfg, t, ev).value.Creating? && !OnPath(t.pc)
    ensures !OnPath(NextCreate(cfg, t, ev).value.pc)
  {
  }

  // ----- every run -----

  /** The events of one sandbox in a run. */
  function EventsOf(n: string, acts: seq<Act>): seq<Event> {
    if acts == [] then []
    else Own(n, acts[0]) + EventsOf(n, acts[1..])
  }

  function Own(n: string, act: Act): seq<Event> {
    if act.Call? && act.who == n then [act.ev] else []
  }

  lemma StepBuilds(cfg: Config, s: Sys, act: Act, n: string)
    requires Inv(cfg, s) && Enabled(cfg, s, act) && (act.who == n ==> act.Call?)
    requires n in s.threads && s.threads[n].Creating? && Built(cfg, n, ViewOf(cfg, n, s.st), s.threads[n])
    ensures var s' := After(cfg, s, act);
            n in s'.threads && s'.threads[n].Creating? && Built(cfg, n, ViewOf(cfg, n, s'.st), s'.threads[n])
  {
    if act.who == n {
      OwnStepBuilds(cfg, n, s.st, s.threads[n], act.ev);
    } else {
      StepLeavesOthers(cfg, s, act, n);
    }
  }

  lemma {:induction false} RunsBuild(cfg: Config, s: Sys, acts: seq<Act>, n: string)
    requires Inv(cfg, s) && IsRun(cfg, s, acts) && OnlyCalls(n, acts)
    requires n in s.threads && s.threads[n].Creating? && Built(cfg, n, ViewOf(cfg, n, s.st), s.threads[n])
    ensures var s' := End(cfg, s, acts);
            n in s'.threads && s'.threads[n].Creating? && Built(cfg, n, ViewOf(cfg, n, s'.st), s'.threads[n])
    decreases |acts|
  {
    if acts != [] {
      InvStep(cfg, s, acts[0]);
      StepBuilds(cfg, s, acts[0], n);
      RunsBuild(cfg, After(cfg, s, acts[0]), acts[1..], n);
    }
  }

  lemma PassesOn(cfg: Config, s: Sys, act: Act, n: string, evs: seq<Event>)
    requires Enabled(cfg, s, act) && n in s.threads && Passed(s.threads[n], evs) && (act.who == n ==> act.Call?)
    ensures n in After(cfg, s, act).threads && Passed(After(cfg, s, act).threads[n], evs + Own(n, act))
  {
    if act.who == n {
      PassesStep(cfg, s.threads[n], act.ev, evs);
    } else {
      assert evs + [] == evs;
    }
  }

  lemma EventsGrow(a: seq<Event>, b: seq<Event>, c: seq<Event>)
    ensures a + b + c == a + (b + c)
  {
  }

  lemma {:induction false} RunsPass(cfg: Config, s: Sys, acts: seq<Act>, n: string, evs: seq<Event>)
    requires IsRun(cfg, s, acts) && OnlyCalls(n, acts) && n in s.threads && Passed(s.threads[n], evs)
    ensures n in End(cfg, s, acts).threads && Passed(End(cfg, s, acts).threads[n], evs + EventsOf(n, acts))
    decreases |acts|
  {
    if acts == [] {
      assert evs + [] == evs;
    } else {
      var more := evs + Own(n, acts[0]);
      PassesOn(cfg, s, acts[0], n, evs);
      RunsPass(cfg, After(cfg, s, acts[0]), acts[1..], n, more);
      EventsGrow(evs, Own(n, acts[0]), EventsOf(n, acts[1..]));
    }
  }

  // ----- what success means -----

  function Both(main: Id, mainCtr: Container, proxied: bool, side: Id, ready: Container): map<Id, Container> {
    (if proxied then map[side := ready] else map[]) + map[main := mainCtr]
  }

  /**
   A view that has grown by a main container, perhaps a sidecar that came up, the network
   and volumes. A network that was not there, where the driver itself says what it is, is
   internal with a sidecar and not internal without one.
   */
  ghost predicate GrownBy(before: View, now: View, evs: seq<Event>, main: Id, mainCtr: Container,
                          proxied: bool, side: Id, asked: Container, ready: Container, direct: bool, net: string, vols: set<string>) {
    && main !in before.containers
    && now.containers == before.containers + Both(main, mainCtr, proxied, side, ready)
    && (proxied ==>
          && side !in before.containers && side != main
          && InOrder([Event(CreateCtr(side, asked), true), Event(Connect(side, "bridge"), true),
                      Event(Start(side), true), Event(Await(side), true)], evs))
    && net in now.networks && now.networks - {net} == before.networks - {net}
    && (net in before.networks ==> now.networks == before.networks)
    && (direct && net !in before.networks ==> now.networks[net].internal == proxied)
    && now.volumes == before.volumes + vols
  }

  /** The volumes of the request. */
  function Asked(n: string, proxied: bool, ssh: bool, persist: bool): set<string> {
    (if proxied then {CaVolume(n)} else {}) + (if proxied && ssh then {SshVolume(n)} else {}) + (if persist then {DataVolume(n)} else {})
  }

  ghost predicate CompleteWith(cfg: Config, req: Request, before: View, now: View, evs: seq<Event>, main: Id, side: Id) {
    GrownBy(before, now, evs, main, SandboxContainer(cfg, req), TrimSpace(req.proxyBin) != "", side,
            ProxyContainer(cfg, req), ProxyContainer(cfg, req).(networks := {Net(cfg, req.name), "bridge"}),
            !cfg.nativeCreate, Net(cfg, req.name), Asked(req.name, TrimSpace(req.proxyBin) != "", req.enableSsh, req.persist))
  }

  ghost predicate Complete(cfg: Config, req: Request, before: View, now: View, evs: seq<Event>) {
    exists main: Id, side: Id :: CompleteWith(cfg, req, before, now, evs, main, side)
  }

  /** Without a proxy nothing new stands under the sidecar's name. */
  lemma NoProxyNoSidecar(cfg: Config, req: Request, before: View, now: View, evs: seq<Event>, id: Id)
    requires Complete(cfg, req, before, now, evs) && TrimSpace(req.proxyBin) == ""
    requires id in now.containers && now.containers[id].name == ProxyName(req.name)
    ensures id in before.containers && before.containers[id] == now.containers[id]
  {
    OwnNamesDiffer("", req.name);
  }

  lemma BeginsBuilt(cfg: Config, req: Request, st: State)
    ensures var t := StartCreate(cfg, req, st); t.Creating? && Built(cfg, req.name, ViewOf(cfg, req.name, st), t) && Passed(t, [])
  {
    FreshBuilt(cfg, req.name, st, PlanOf(cfg, req));
  }

  lemma FreshBuilt(cfg: Config, n: string, st: State, plan: Plan)
    ensures var t := Creating(plan, ViewOf(cfg, n, st), Begin, false, false, {}, 0);
            Built(cfg, n, ViewOf(cfg, n, st), t) && Passed(t, [])
  {
    var t := Creating(plan, ViewOf(cfg, n, st), Begin, false, false, {}, 0);
    assert t.before.containers + map[] == t.before.containers;
  }

  lemma MadeAsPlanned(cfg: Config, n: string, now: View, t: Thread, evs: seq<Event>) returns (main: Id)
    requires t.Creating? && Built(cfg, n, now, t) && Passed(t, evs) && t.pc.Made?
    requires now.networks.Keys <= {Net(cfg, n)} && t.before.networks.Keys <= {Net(cfg, n)}
    ensures GrownBy(t.before, now, evs, main, t.plan.main, t.plan.proxied, t.proxyId, t.plan.sidecar, Bridged(t.plan.sidecar),
                    !cfg.nativeCreate, Net(cfg, n), Asked(n, t.plan.proxied, t.plan.ssh, t.plan.persist))
  {
    main :| main !in t.before.containers && main !in Sidecar(t) && now.containers == t.before.containers + Sidecar(t) + map[main := t.plan.main];
    assert Sidecar(t) == if t.plan.proxied then map[t.proxyId := Bridged(t.plan.sidecar)] else map[];
    assert now.containers == t.before.containers + Both(main, t.plan.main, t.plan.proxied, t.proxyId, Bridged(t.plan.sidecar));
    assert Volumes(n, t) == Asked(n, t.plan.proxied, t.plan.ssh, t.plan.persist);
    assert now.networks - {Net(cfg, n)} == t.before.networks - {Net(cfg, n)};
    if t.plan.proxied {
      assert Milestones(t) == [Event(CreateCtr(t.proxyId, t.plan.sidecar), true), Event(Connect(t.proxyId, "bridge"), true),
                               Event(Start(t.proxyId), true), Event(Await(t.proxyId), true)];
    }
  }

  lemma MadeIsComplete(cfg: Config, req: Request, now: View, t: Thread, evs: seq<Event>) returns (main: Id)
    requires t.Creating? && Built(cfg, req.name, now, t) && Passed(t, evs) && t.pc.Made? && t.plan == PlanOf(cfg, req)
    requires now.networks.Keys <= {Net(cfg, req.name)} && t.before.networks.Keys <= {Net(cfg, req.name)}
    ensures CompleteWith(cfg, req, t.before, now, evs, main, t.proxyId)
  {
    main := MadeAsPlanned(cfg, req.name, now, t, evs);
    PlanSays(cfg, req);
  }

  lemma PlanSays(cfg: Config, req: Request)
    ensures var plan := PlanOf(cfg, req);
            && (plan.proxied <==> TrimSpace(req.proxyBin) != "") && plan.ssh == req.enableSsh && plan.persist == req.persist
            && plan.main == SandboxContainer(cfg, req) && plan.sidecar == ProxyContainer(cfg, req)
            && Bridged(plan.sidecar) == ProxyContainer(cfg, req).(networks := {Net(cfg, req.name), "bridge"})
  {
    assert {Net(cfg, req.name)} + {"bridge"} == {Net(cfg, req.name), "bridge"};
  }

  /**
   In every run, however the sandboxes' calls interleave: when Create of the request has
   succeeded, the sandbox has exactly what it had and the requested container, network and
   volumes, and with a proxy a sidecar that was made, connected, started and found ready.
   */
  lemma CreateIsComplete(cfg: Config, req: Request, s: Sys, acts: seq<Act>)
    requires Inv(cfg, s) && IsRun(cfg, s, acts) && OnlyCalls(req.name, acts)
    requires req.name in s.threads && s.threads[req.name] == StartCreate(cfg, req, s.st)
    ensures var n, s' := req.name, End(cfg, s, acts);
            && n in s'.threads && s'.threads[n].Creating?
            && (s'.threads[n].pc.Made? ==>
                  Complete(cfg, req, ViewOf(cfg, n, s.st), ViewOf(cfg, n, s'.st), EventsOf(n, acts)))
  {
    var n, s' := req.name, End(cfg, s, acts);
    BeginsBuilt(cfg, req, s.st);
    RunsBuild(cfg, s, acts, n);
    RunsPass(cfg, s, acts, n, []);
    assert [] + EventsOf(n, acts) == EventsOf(n, acts);
    PlanStays(cfg, s, acts, n);
    if s'.threads[n].pc.Made? {
      var main := MadeIsComplete(cfg, req, ViewOf(cfg, n, s'.st), s'.threads[n], EventsOf(n, acts));
    }
  }

  lemma {:induction false} PlanStays(cfg: Config, s: Sys, acts: seq<Act>, n: string)
    requires IsRun(cfg, s, acts) && OnlyCalls(n, acts) && n in s.threads && s.threads[n].Creating?
    ensures n in End(cfg, s, acts).threads && SamePlan(s.threads[n], End(cfg, s, acts).threads[n])
    decreases |acts|
  {
    if acts != [] {
      if acts[0].who == n {
        NextKeepsPlan(cfg, s.threads[n], acts[0].ev);
      }
      PlanStays(cfg, After(cfg, s, acts[0]), acts[1..], n);
    }
  }

  // ----- the whole engine -----

  function Whole(st: State): View {
    View(st.containers, st.networks, st.volumes)
  }

  /** Nothing changed outside of the sandbox's names, so the engine has grown by the same. */
  lemma WholeGrows(cfg: Config, n: string, st: State, st': State, evs: seq<Event>, main: Id, mainCtr: Container,
                   proxied: bool, side: Id, asked: Container, ready: Container, direct: bool, vols: set<string>)
    requires SameOutside(ReachOf(cfg, {n}), st, st')
    requires GrownBy(ViewOf(cfg, n, st), ViewOf(cfg, n, st'), evs, main, mainCtr, proxied, side, asked, ready, direct, Net(cfg, n), vols)
    requires mainCtr.name in Ctrs(n) && ready.name in Ctrs(n) && vols <= Vols(n)
    ensures GrownBy(Whole(st), Whole(st'), evs, main, mainCtr, proxied, side, asked, ready, direct, Net(cfg, n), vols)
  {
    OutsideOfOne(cfg, n, st, st');
    BothAreNew(n, ViewOf(cfg, n, st).containers, main, mainCtr, proxied, side, ready);
    ContainersGrow(n, st.containers, st'.containers, Both(main, mainCtr, proxied, side, ready));
    NetworksGrow(cfg, n, st, st');
    VolumesGrowBy(n, st.volumes, st'.volumes, vols);
    assert main in Both(main, mainCtr, proxied, side, ready) && (proxied ==> side in Both(main, mainCtr, proxied, side, ready));
  }

  lemma OutsideOfOne(cfg: Config, n: string, st: State, st': State)
    requires SameOutside(ReachOf(cfg, {n}), st, st')
    ensures ContainersOutside(Reach({}, Ctrs(n), {}, {}), st.containers, st'.containers)
    ensures st'.networks - {Net(cfg, n)} == st.networks - {Net(cfg, n)} && st'.volumes - Vols(n) == st.volumes - Vols(n)
  {
    ReachOfSingle(cfg, n);
  }

  lemma BothAreNew(n: string, was: map<Id, Container>, main: Id, mainCtr: Container, proxied: bool, side: Id, ready: Container)
    requires mainCtr.name in Ctrs(n) && ready.name in Ctrs(n) && main !in was && (proxied ==> side !in was)
    ensures forall id :: id in Both(main, mainCtr, proxied, side, ready) ==>
              Both(main, mainCtr, proxied, side, ready)[id].name in Ctrs(n) && id !in was
  {
  }

  lemma NetworksGrow(cfg: Config, n: string, st: State, st': State)
    requires st'.networks - {Net(cfg, n)} == st.networks - {Net(cfg, n)} && Net(cfg, n) in NetsOf(cfg, n, st'.networks)
    requires Net(cfg, n) in NetsOf(cfg, n, st.networks) ==> NetsOf(cfg, n, st'.networks) == NetsOf(cfg, n, st.networks)
    ensures Net(cfg, n) in st'.networks && (Net(cfg, n) in st.networks ==> st'.networks == st.networks)
    ensures NetsOf(cfg, n, st'.networks)[Net(cfg, n)] == st'.networks[Net(cfg, n)]
    ensures Net(cfg, n) in NetsOf(cfg, n, st.networks) <==> Net(cfg, n) in st.networks
  {
    SameNetworks(cfg, n, st.networks, st'.networks);
    assert Net(cfg, n) in NetsOf(cfg, n, st.networks) <==> Net(cfg, n) in st.networks;
  }

  lemma VolumesGrowBy(n: string, vols: set<string>, vols': set<string>, more: set<string>)
    requires vols' - Vols(n) == vols - Vols(n) && vols' * Vols(n) == vols * Vols(n) + more && more <= Vols(n)
    ensures vols' == vols + more
  {
    assert vols' == (vols' - Vols(n)) + (vols' * Vols(n));
    assert vols == (vols - Vols(n)) + (vols * Vols(n));
  }

  lemma ContainersGrow(n: string, cs: map<Id, Container>, cs': map<Id, Container>, added: map<Id, Container>)
    requires ContainersOutside(Reach({}, Ctrs(n), {}, {}), cs, cs') && CtrsOf(n, cs') == CtrsOf(n, cs) + added
    requires forall id :: id in added ==> added[id].name in Ctrs(n) && id !in CtrsOf(n, cs)
    ensures cs' == cs + added && forall id :: id in added ==> id !in cs
  {
    var r := Reach({}, Ctrs(n), {}, {});
    assert forall id :: id in cs ==> (Reached(r, id, cs[id]) <==> id in CtrsOf(n, cs));
    assert forall id :: id in cs' ==> (Reached(r, id, cs'[id]) <==> id in CtrsOf(n, cs'));
    forall id | id in added
      ensures id !in cs && id in cs' && cs'[id] == added[id]
    {
      assert id in CtrsOf(n, cs') && CtrsOf(n, cs')[id] == added[id];
    }
    forall id | id in cs && id !in added
      ensures id in cs' && cs'[id] == cs[id]
    {
      if id in CtrsOf(n, cs) {
        assert id in CtrsOf(n, cs') && CtrsOf(n, cs')[id] == CtrsOf(n, cs)[id];
      }
    }
    forall id | id in cs' && id !in added
      ensures id in cs
    {
      if id in CtrsOf(n, cs') {
        assert id in CtrsOf(n, cs);
      }
    }
  }

  // ----- the data volume outlives a failed Create -----

  /** Only the CA and the SSH volume are on the list of what the cleanup removes. */
  predicate SparesData(n: string, t: Thread) {
    t.Creating? && t.plan.name == n && t.volsMade <= {CaVolume(n), SshVolume(n)}
  }

  lemma DataStaysOn(cfg: Config, n: string, st: State, t: Thread, ev: Event)
    requires SparesData(n, t) && NextCreate(cfg, t, ev).Some?
    ensures SparesData(n, NextCreate(cfg, t, ev).value)
    ensures DataVolume(n) in st.volumes ==> DataVolume(n) in Effect(st, ev).volumes
  {
    NextKeepsPlan(cfg, t, ev);
    VolumeKinds(n, n);
  }

  /** A data volume that is there, found or made, stays: neither Create nor its cleanup removes it. */
  lemma {:induction false} CreateKeepsData(cfg: Config, s: Sys, acts: seq<Act>, n: string)
    requires Inv(cfg, s) && IsRun(cfg, s, acts) && OnlyCalls(n, acts) && n in s.threads && SparesData(n, s.threads[n])
    requires DataVolume(n) in s.st.volumes
    ensures DataVolume(n) in End(cfg, s, acts).st.volumes
    decreases |acts|
  {
    if acts != [] {
      var s' := After(cfg, s, acts[0]);
      InvStep(cfg, s, acts[0]);
      if acts[0].who == n {
        DataStaysOn(cfg, n, s.st, s.threads[n], acts[0].ev);
      } else {
        StepLeavesOthers(cfg, s, acts[0], n);
        assert DataVolume(n) in ViewOf(cfg, n, s'.st).volumes;
      }
      CreateKeepsData(cfg, s', acts[1..], n);
    }
  }

  /** Every Create begins so, and goes on so. */
  lemma {:induction false} CreateSparesData(cfg: Config, s: Sys, acts: seq<Act>, n: string)
    requires IsRun(cfg, s, acts) && OnlyCalls(n, acts) && n in s.threads && SparesData(n, s.threads[n])
    ensures n in End(cfg, s, acts).threads && SparesData(n, End(cfg, s, acts).threads[n])
    decreases |acts|
  {
    if acts != [] {
      if acts[0].who == n {
        DataStaysOn(cfg, n, s.st, s.threads[n], acts[0].ev);
      }
      CreateSparesData(cfg, After(cfg, s, acts[0]), acts[1..], n);
    }
  }

  // ----- why a Create fails -----

  /**
   What makes a Create fail: a check that failed, or a call to list, make, verify, connect,
   start or await something; a sandbox of the name that is there already; or an existing
   network that would not isolate a proxied sandbox. No failed inspect or removal does.
   */
  predicate Cause(cfg: Config, proxied: bool, ev: Event) {
    || (!ev.ok && (ev.call.Check? || ev.call.List? || ev.call.VerifyNet? || ev.call.CreateNet? || ev.call.CreateVol?
                   || ev.call.CreateCtr? || ev.call.Connect? || ev.call.Start? || ev.call.Await?))
    || (ev.ok && ev.call.List? && ev.call.found)
    || (ev.ok && ev.call.InspectNet? && proxied &&
        (!ev.call.got.internal || (!cfg.nativeVerify && !(ev.call.got.gatewayV4 == "isolated" && ev.call.got.gatewayV6 == "isolated"))))
  }

  lemma LeavesForCause(cfg: Config, t: Thread, ev: Event)
    requires t.Creating? && NextCreate(cfg, t, ev).Some? && OnPath(t.pc)
    requires NextCreate(cfg, t, ev).value.Creating? && !OnPath(NextCreate(cfg, t, ev).value.pc)
    ensures Cause(cfg, t.plan.proxied, ev)
  {
    if NetworkPhase(t.pc) {
      NetworkLeavesForCause(cfg, t, ev);
    }
  }

  lemma NetworkLeavesForCause(cfg: Config, t: Thread, ev: Event)
    requires t.Creating? && NetworkPhase(t.pc) && NextNetwork(cfg, t, ev).Some? && OnPath(t.pc)
    requires NextNetwork(cfg, t, ev).value.Creating? && !OnPath(NextNetwork(cfg, t, ev).value.pc)
    ensures Cause(cfg, t.plan.proxied, ev)
  {
  }

  /** The list call comes first and decides: a sandbox of the name that is there stops Create. */
  predicate NotListed(pc: Pc) {
    pc.Begin? || pc.Listing? || pc.Failed?
  }

  lemma ListedStops(cfg: Config, t: Thread, ev: Event, st: State)
    requires t.Creating? && NextCreate(cfg, t, ev).Some? && NotListed(t.pc) && Possible(st, ev) && HasManaged(st, t.plan.name)
    ensures NextCreate(cfg, t, ev).value.Creating? && NotListed(NextCreate(cfg, t, ev).value.pc) && Effect(st, ev) == st
  {
    NextKeepsPlan(cfg, t, ev);
  }
}
