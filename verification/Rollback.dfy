/**
 A Create that fails undoes everything it made. Proved for every interleaving with
 other sandboxes, as long as inspecting and removing fail only for cause.
 */
module Rollback {
  import opened Names
  import opened Engine
  import opened Sandbox
  import opened Provision
  import opened Runs
  import opened Frame

  /** The network exists because this Create made it. */
  predicate NetNew(t: Thread)
    requires t.Creating?
  {
    t.netMade || t.pc == NetCheck || t.pc == NetUndo
  }

  /** The sidecar exists because this Create made it. */
  predicate ProxyLive(t: Thread)
    requires t.Creating?
  {
    t.proxyMade || ProxyKnown(t.pc)
  }

  predicate BeforeProxy(pc: Pc) {
    pc.CaInspect? || pc.CaMake? || pc.SshInspect? || pc.SshMake? || pc.ProxyCheck?
  }

  /** Which flags can be set where. */
  ghost predicate Flags(t: Thread)
    requires t.Creating?
  {
    && (NetworkPhase(t.pc) || t.pc == Failed ==> !t.netMade && !t.proxyMade && t.volsMade == {})
    && (ProxyPhase(t.pc) || BeforeProxy(t.pc) || t.pc == RollVolume || t.pc == RollNetwork ==> !t.proxyMade)
    && (t.pc == DataInspect || t.pc == DataMake ==> t.plan.persist)
    && (t.pc == RollProxy ==> t.proxyMade)
    && (t.pc == RollNetwork ==> t.netMade && t.volsMade == {})
  }

  /** Volumes: what was there, what was made, and perhaps the data volume, which is kept. */
  ghost predicate VolumesTracked(n: string, before: View, now: set<string>, made: set<string>, persist: bool) {
    && made !! before.volumes && made <= {CaVolume(n), SshVolume(n)}
    && now * Vols(n) - {DataVolume(n)} == before.volumes - {DataVolume(n)} + made
    && (DataVolume(n) in before.volumes ==> DataVolume(n) in now)
    && (DataVolume(n) in now ==> DataVolume(n) in before.volumes || persist)
  }

  ghost predicate ContainersTracked(n: string, before: View, now: map<Id, Container>, live: bool, id: Id) {
    if live then
      && id in now && now[id].name == ProxyName(n)
      && CtrsOf(n, now) - {id} == before.containers
    else
      CtrsOf(n, now) == before.containers
  }

  ghost predicate NetworksTracked(cfg: Config, n: string, before: View, now: map<string, Network>, made: bool) {
    if made then before.networks == map[] && Net(cfg, n) in now
    else NetsOf(cfg, n, now) == before.networks
  }

  /** What this Create made is used by its sidecar alone. */
  ghost predicate Private(cfg: Config, n: string, st: State, t: Thread)
    requires t.Creating?
  {
    forall id :: id in st.containers && !(ProxyLive(t) && id == t.proxyId) ==>
      && (NetNew(t) ==> Net(cfg, n) !in st.containers[id].networks)
      && st.containers[id].volumes !! t.volsMade
  }

  ghost predicate Tracks(cfg: Config, n: string, st: State, t: Thread)
    requires t.Creating?
  {
    && Flags(t)
    && VolumesTracked(n, t.before, st.volumes, t.volsMade, t.plan.persist)
    && ContainersTracked(n, t.before, st.containers, ProxyLive(t), t.proxyId)
    && NetworksTracked(cfg, n, t.before, st.networks, NetNew(t))
    && Private(cfg, n, st, t)
  }

  /** Everything of sandbox n is as it was, except that the data volume may have been added. */
  ghost predicate Restored(cfg: Config, n: string, st: State, before: View, persist: bool) {
    var now := ViewOf(cfg, n, st);
    && now.containers == before.containers
    && now.networks == before.networks
    && before.volumes <= now.volumes <= before.volumes + if persist then {DataVolume(n)} else {}
  }

  lemma FailedIsRestored(cfg: Config, n: string, st: State, t: Thread)
    requires t.Creating? && t.pc == Failed && Tracks(cfg, n, st, t)
    requires t.before.volumes <= Vols(n)
    ensures Restored(cfg, n, st, t.before, t.plan.persist)
  {
  }

  /**
   A CA or SSH volume that Create makes, and would remove again, was not there before.
   A failed inspect alone breaks nothing: only a create that then succeeds can.
   */
  ghost predicate NotTaken(n: string, st: State, ev: Event) {
    ev.ok && ev.call.CreateVol? && ev.call.newVol != DataVolume(n) ==> ev.call.newVol !in st.volumes
  }

  // ----- own steps -----

  lemma FlagsStay(cfg: Config, t: Thread, ev: Event)
    requires t.Creating? && Flags(t) && NextCreate(cfg, t, ev).Some?
    ensures NextCreate(cfg, t, ev).value.Creating? && Flags(NextCreate(cfg, t, ev).value)
  {
    if NetworkPhase(t.pc) {
      FlagsNetwork(cfg, t, ev);
    } else if ProxyPhase(t.pc) {
      FlagsProxy(t, ev);
    } else if RollPhase(t.pc) {
      FlagsRoll(cfg, t, ev);
    } else {
      FlagsVolume(t, ev);
    }
  }

  lemma FlagsNetwork(cfg: Config, t: Thread, ev: Event)
    requires t.Creating? && Flags(t) && NetworkPhase(t.pc) && NextNetwork(cfg, t, ev).Some?
    ensures NextNetwork(cfg, t, ev).value.Creating? && Flags(NextNetwork(cfg, t, ev).value)
  {
  }

  lemma FlagsProxy(t: Thread, ev: Event)
    requires t.Creating? && Flags(t) && ProxyPhase(t.pc) && NextProxy(t, ev).Some?
    ensures NextProxy(t, ev).value.Creating? && Flags(NextProxy(t, ev).value)
  {
  }

  lemma FlagsRoll(cfg: Config, t: Thread, ev: Event)
    requires t.Creating? && Flags(t) && RollPhase(t.pc) && NextRoll(cfg, t, ev).Some?
    ensures NextRoll(cfg, t, ev).value.Creating? && Flags(NextRoll(cfg, t, ev).value)
  {
  }

  lemma FlagsVolume(t: Thread, ev: Event)
    requires t.Creating? && Flags(t) && VolumePhase(t.pc) && NextVolume(t, ev).Some?
    ensures NextVolume(t, ev).value.Creating? && Flags(NextVolume(t, ev).value)
  {
  }

  /** In the network phase only making and undoing the network changes what is there. */
  lemma NetworkMoves(cfg: Config, t: Thread, ev: Event)
    requires t.Creating? && NetworkPhase(t.pc) && Flags(t) && NextNetwork(cfg, t, ev).Some?
    ensures var t' := NextNetwork(cfg, t, ev).value;
            var net := Net(cfg, t.plan.name);
            && t'.Creating? && t'.volsMade == {} && !ProxyLive(t') && !ProxyLive(t) && t'.pc != CaMake && t'.pc != SshMake
            && if NetNew(t') && !NetNew(t) then ev.ok && ev.call.CreateNet? && ev.call.newNet == net
               else if NetNew(t) && !NetNew(t') then ev.call == RemoveNet(net)
               else ev.call.List? || ev.call.Check? || ev.call.InspectNet? || ev.call.VerifyNet? || !ev.ok
  {
  }

  lemma UndoNetworkGranted(cfg: Config, n: string, st: State, t: Thread, ev: Event)
    requires WellFormed(st) && t.Creating? && t.plan.name == n && Tracks(cfg, n, st, t) && NetworkPhase(t.pc)
    requires Honest(st, ev) && NextNetwork(cfg, t, ev).Some? && NextNetwork(cfg, t, ev).value.Creating?
    requires NetNew(t) && !NetNew(NextNetwork(cfg, t, ev).value)
    ensures ev.ok
  {
    NetworkMoves(cfg, t, ev);
    assert !NetworkInUse(st, Net(cfg, n));
  }

  lemma TrackNetwork(cfg: Config, n: string, st: State, t: Thread, ev: Event)
    requires WellFormed(st) && t.Creating? && NetworkPhase(t.pc) && t.plan.name == n && Tracks(cfg, n, st, t)
    requires Possible(st, ev) && Honest(st, ev) && NextNetwork(cfg, t, ev).Some?
    ensures Tracks(cfg, n, Effect(st, ev), NextNetwork(cfg, t, ev).value)
  {
    FlagsNetwork(cfg, t, ev);
    NetworkKeepsPlan(cfg, t, ev);
    NetworkMoves(cfg, t, ev);
    var t' := NextNetwork(cfg, t, ev).value;
    if NetNew(t') && !NetNew(t) {
      TrackNewNetwork(cfg, n, st, t, t', ev.call.spec);
    } else if NetNew(t) && !NetNew(t') {
      UndoNetworkGranted(cfg, n, st, t, ev);
      TrackOldNetwork(cfg, n, st, t, t');
    } else {
      assert Effect(st, ev) == st;
    }
  }

  lemma TrackNewNetwork(cfg: Config, n: string, st: State, t: Thread, t': Thread, spec: Network)
    requires WellFormed(st) && t.Creating? && t'.Creating? && Tracks(cfg, n, st, t) && Flags(t')
    requires Net(cfg, n) !in st.networks && !NetNew(t) && NetNew(t') && !ProxyLive(t) && !ProxyLive(t')
    requires SamePlan(t, t') && t'.volsMade == {} && t.volsMade == {} && t'.pc != CaMake && t'.pc != SshMake
    ensures Tracks(cfg, n, st.(networks := st.networks[Net(cfg, n) := spec]), t')
  {
    assert NetsOf(cfg, n, st.networks) == map[];
  }

  lemma TrackOldNetwork(cfg: Config, n: string, st: State, t: Thread, t': Thread)
    requires t.Creating? && t'.Creating? && Tracks(cfg, n, st, t) && Flags(t')
    requires NetNew(t) && !NetNew(t') && !ProxyLive(t) && !ProxyLive(t')
    requires SamePlan(t, t') && t'.volsMade == {} && t.volsMade == {} && t'.pc != CaMake && t'.pc != SshMake
    ensures Tracks(cfg, n, st.(networks := st.networks - {Net(cfg, n)}), t')
  {
    assert NetsOf(cfg, n, st.networks - {Net(cfg, n)}) == map[];
  }

  predicate VolumePhase(pc: Pc) {
    !NetworkPhase(pc) && !ProxyPhase(pc) && !RollPhase(pc)
  }

  lemma VolumeMoves(n: string, t: Thread, ev: Event)
    requires t.Creating? && VolumePhase(t.pc) && t.plan.name == n && Flags(t) && NextVolume(t, ev).Some?
    ensures var t' := NextVolume(t, ev).value;
            && t'.Creating? && NetNew(t') == NetNew(t) && ProxyLive(t') == ProxyLive(t) && t'.proxyId == t.proxyId
            && (t'.pc == CaMake ==> ev == Event(InspectVol(CaVolume(n)), false))
            && (t'.pc == SshMake ==> ev == Event(InspectVol(SshVolume(n)), false))
            && (t'.pc == Made || !ev.ok || ev.call.Check? || ev.call.InspectVol? || ev.call.CreateVol?)
            && (ev.ok && ev.call.CreateVol? ==>
                  && t'.pc != CaMake && t'.pc != SshMake
                  && t' == t.(pc := t'.pc, volsMade := t.volsMade + if ev.call.newVol == DataVolume(n) then {} else {ev.call.newVol})
                  && (t.pc == CaMake || t.pc == SshMake || t.pc == DataMake)
                  && ev.call.newVol == (if t.pc == CaMake then CaVolume(n) else if t.pc == SshMake then SshVolume(n) else DataVolume(n)))
            && (!(ev.ok && ev.call.CreateVol?) ==> t'.volsMade == t.volsMade)
  {
    VolumeKinds(n, n);
  }

  lemma TrackMadeVolume(cfg: Config, n: string, st: State, t: Thread, t': Thread, v: string)
    requires WellFormed(st) && t.Creating? && t'.Creating? && Tracks(cfg, n, st, t)
    requires v in {CaVolume(n), SshVolume(n)} && v !in st.volumes
    requires t' == t.(pc := t'.pc, volsMade := t.volsMade + {v}) && Flags(t') && ProxyLive(t') == ProxyLive(t) && NetNew(t') == NetNew(t)
    requires t'.pc != CaMake && t'.pc != SshMake
    ensures Tracks(cfg, n, st.(volumes := st.volumes + {v}), t')
  {
    VolumeKinds(n, n);
    var st' := st.(volumes := st.volumes + {v});
    assert v in Vols(n) && v != DataVolume(n);
    assert v !in t.before.volumes;
    assert st'.volumes * Vols(n) - {DataVolume(n)} == (st.volumes * Vols(n) - {DataVolume(n)}) + {v};
    assert VolumesTracked(n, t.before, st'.volumes, t'.volsMade, t.plan.persist);
  }

  lemma TrackVolume(cfg: Config, n: string, st: State, t: Thread, ev: Event)
    requires WellFormed(st) && t.Creating? && VolumePhase(t.pc) && t.plan.name == n && Tracks(cfg, n, st, t)
    requires Possible(st, ev) && NotTaken(n, st, ev) && NextVolume(t, ev).Some?
    ensures NextVolume(t, ev).value.Creating?
    ensures NextVolume(t, ev).value.pc == Made || Tracks(cfg, n, Effect(st, ev), NextVolume(t, ev).value)
  {
    FlagsStay(cfg, t, ev);
    VolumeKeepsPlan(t, ev);
    VolumeMoves(n, t, ev);
    var t' := NextVolume(t, ev).value;
    if t'.pc == Made {
    } else if ev.ok && ev.call.CreateVol? && t.pc != DataMake {
      VolumeKinds(n, n);
      TrackMadeVolume(cfg, n, st, t, t', ev.call.newVol);
    } else if ev.ok && ev.call.CreateVol? {
      var st' := Effect(st, ev);
      assert st'.volumes * Vols(n) - {DataVolume(n)} == st.volumes * Vols(n) - {DataVolume(n)};
      assert VolumesTracked(n, t.before, st'.volumes, t'.volsMade, t.plan.persist);
    } else {
      assert Effect(st, ev) == st;
    }
  }

  /** In the proxy phase only making, connecting and undoing the sidecar changes what is there. */
  lemma ProxyMoves(t: Thread, ev: Event)
    requires t.Creating? && ProxyPhase(t.pc) && Flags(t) && NextProxy(t, ev).Some?
    ensures var t' := NextProxy(t, ev).value;
            && t'.Creating? && NetNew(t') == NetNew(t) && t'.volsMade == t.volsMade && t'.pc != CaMake && t'.pc != SshMake
            && ProxyLive(t) == (t.pc != ProxyMake)
            && if t.pc == ProxyMake then
                 ev.call.CreateCtr? && ev.call.ctr == t.plan.sidecar && ProxyLive(t') == ev.ok && (ev.ok ==> t'.proxyId == ev.call.newId)
               else if t.pc == ProxyUndo then
                 ev.call == RemoveId(t.proxyId) && !ProxyLive(t')
               else
                 && ProxyLive(t') && t'.proxyId == t.proxyId
                 && (ev.call.Start? || ev.call.Await? || (t.pc == ProxyBridge && ev.call == Connect(t.proxyId, "bridge")))
  {
  }

  lemma SidecarAppears(n: string, before: View, now: map<Id, Container>, id: Id, c: Container)
    requires CtrsOf(n, now) == before.containers && id !in now && c.name == ProxyName(n)
    ensures ContainersTracked(n, before, now[id := c], true, id)
  {
    assert CtrsOf(n, now[id := c]) == CtrsOf(n, now)[id := c];
  }

  lemma SidecarChanges(n: string, before: View, now: map<Id, Container>, id: Id, c: Container)
    requires ContainersTracked(n, before, now, true, id) && c.name == ProxyName(n)
    ensures ContainersTracked(n, before, now[id := c], true, id)
  {
    assert CtrsOf(n, now[id := c]) - {id} == CtrsOf(n, now) - {id};
  }

  lemma SidecarGoes(n: string, before: View, now: map<Id, Container>, id: Id)
    requires ContainersTracked(n, before, now, true, id)
    ensures ContainersTracked(n, before, now - {id}, false, id)
  {
    assert CtrsOf(n, now - {id}) == CtrsOf(n, now) - {id};
  }

  lemma TrackProxy(cfg: Config, n: string, st: State, t: Thread, ev: Event)
    requires WellFormed(st) && t.Creating? && ProxyPhase(t.pc) && t.plan.name == n && Tracks(cfg, n, st, t)
    requires t.plan.sidecar.name == ProxyName(n)
    requires Possible(st, ev) && Honest(st, ev) && NextProxy(t, ev).Some?
    ensures Tracks(cfg, n, Effect(st, ev), NextProxy(t, ev).value)
  {
    FlagsStay(cfg, t, ev);
    ProxyKeepsPlan(t, ev);
    ProxyMoves(t, ev);
    var t', st' := NextProxy(t, ev).value, Effect(st, ev);
    assert st'.networks == st.networks && st'.volumes == st.volumes;
    if t.pc == ProxyMake && ev.ok {
      SidecarAppears(n, t.before, st.containers, ev.call.newId, ev.call.ctr);
    } else if t.pc == ProxyBridge && ev.ok {
      var c := st.containers[t.proxyId];
      SidecarChanges(n, t.before, st.containers, t.proxyId, c.(networks := c.networks + {"bridge"}));
    } else if t.pc == ProxyUndo {
      assert ev.ok;
      SidecarGoes(n, t.before, st.containers, t.proxyId);
    } else {
      assert st' == st;
    }
  }

  lemma RollMoves(cfg: Config, t: Thread, ev: Event)
    requires t.Creating? && RollPhase(t.pc) && Flags(t) && NextRoll(cfg, t, ev).Some?
    ensures var t' := NextRoll(cfg, t, ev).value;
            && t'.Creating? && !ProxyLive(t') && t'.pc != CaMake && t'.pc != SshMake
            && if t.pc == RollProxy then
                 ev.call == RemoveName(ProxyName(t.plan.name)) && ProxyLive(t) && t'.volsMade == t.volsMade && NetNew(t') == NetNew(t)
               else if t.pc == RollVolume then
                 && ev.call.RemoveVol? && ev.call.oldVol in t.volsMade && !ProxyLive(t)
                 && t'.volsMade == t.volsMade - {ev.call.oldVol} && NetNew(t') == NetNew(t)
               else
                 && ev.call == RemoveNet(Net(cfg, t.plan.name)) && !ProxyLive(t) && NetNew(t) && !NetNew(t')
                 && t'.volsMade == t.volsMade
  {
  }

  lemma SidecarDropped(n: string, before: View, st: State, id: Id)
    requires WellFormed(st) && ContainersTracked(n, before, st.containers, true, id)
    ensures NameTaken(st, ProxyName(n))
    ensures WithoutName(st.containers, ProxyName(n)) == st.containers - {id}
  {
  }

  lemma TrackRollProxy(cfg: Config, n: string, st: State, t: Thread, t': Thread)
    requires WellFormed(st) && t.Creating? && t'.Creating? && Tracks(cfg, n, st, t) && Flags(t')
    requires ProxyLive(t) && !ProxyLive(t') && NetNew(t') == NetNew(t) && t'.pc != CaMake && t'.pc != SshMake
    requires t'.before == t.before && t'.plan == t.plan && t'.volsMade == t.volsMade
    ensures NameTaken(st, ProxyName(n))
    ensures Tracks(cfg, n, st.(containers := WithoutName(st.containers, ProxyName(n))), t')
  {
    SidecarDropped(n, t.before, st, t.proxyId);
    SidecarGoes(n, t.before, st.containers, t.proxyId);
  }

  lemma TrackRollVolume(cfg: Config, n: string, st: State, t: Thread, t': Thread, v: string)
    requires WellFormed(st) && t.Creating? && t'.Creating? && Tracks(cfg, n, st, t) && Flags(t') && v in t.volsMade
    requires !ProxyLive(t) && !ProxyLive(t') && NetNew(t') == NetNew(t) && t'.pc != CaMake && t'.pc != SshMake
    requires t'.before == t.before && t'.plan == t.plan && t'.volsMade == t.volsMade - {v}
    ensures !VolumeInUse(st, v)
    ensures Tracks(cfg, n, st.(volumes := st.volumes - {v}), t')
  {
    VolumeKinds(n, n);
    var now := st.volumes - {v};
    assert now * Vols(n) - {DataVolume(n)} == (st.volumes * Vols(n) - {DataVolume(n)}) - {v};
    assert VolumesTracked(n, t.before, now, t'.volsMade, t.plan.persist);
  }

  lemma TrackRollNetwork(cfg: Config, n: string, st: State, t: Thread, t': Thread)
    requires WellFormed(st) && t.Creating? && t'.Creating? && Tracks(cfg, n, st, t) && Flags(t')
    requires !ProxyLive(t) && !ProxyLive(t') && NetNew(t) && !NetNew(t') && t'.pc != CaMake && t'.pc != SshMake
    requires t'.before == t.before && t'.plan == t.plan && t'.volsMade == t.volsMade
    ensures Net(cfg, n) in st.networks && !NetworkInUse(st, Net(cfg, n))
    ensures Tracks(cfg, n, st.(networks := st.networks - {Net(cfg, n)}), t')
  {
    assert NetsOf(cfg, n, st.networks - {Net(cfg, n)}) == map[];
  }

  /** Every cleanup call finds its target there and out of use. */
  lemma TrackRoll(cfg: Config, n: string, st: State, t: Thread, ev: Event)
    requires WellFormed(st) && t.Creating? && RollPhase(t.pc) && t.plan.name == n && Tracks(cfg, n, st, t)
    requires Possible(st, ev) && Honest(st, ev) && NextRoll(cfg, t, ev).Some?
    ensures ev.ok
    ensures Tracks(cfg, n, Effect(st, ev), NextRoll(cfg, t, ev).value)
  {
    FlagsStay(cfg, t, ev);
    RollKeepsPlan(cfg, t, ev);
    RollMoves(cfg, t, ev);
    var t' := NextRoll(cfg, t, ev).value;
    if t.pc == RollProxy {
      TrackRollProxy(cfg, n, st, t, t');
    } else if t.pc == RollVolume {
      TrackRollVolume(cfg, n, st, t, t', ev.call.oldVol);
    } else {
      TrackRollNetwork(cfg, n, st, t, t');
    }
  }

  // ----- any step -----

  ghost predicate Follows(cfg: Config, n: string, st: State, t: Thread) {
    t.Creating? && t.pc != Made ==> Tracks(cfg, n, st, t) && t.before.volumes <= Vols(n)
  }

  /** A Create of any request keeps the record of what it added exact. */
  lemma OwnStepFollows(cfg: Config, n: string, st: State, t: Thread, ev: Event)
    requires WellFormed(st) && t.Creating? && Wired(n, st, t) && Follows(cfg, n, st, t)
    requires Possible(st, ev) && Honest(st, ev) && NotTaken(n, st, ev) && NextCreate(cfg, t, ev).Some?
    ensures Follows(cfg, n, Effect(st, ev), NextCreate(cfg, t, ev).value)
  {
    NextKeepsPlan(cfg, t, ev);
    if NetworkPhase(t.pc) {
      TrackNetwork(cfg, n, st, t, ev);
    } else if ProxyPhase(t.pc) {
      TrackProxy(cfg, n, st, t, ev);
    } else if RollPhase(t.pc) {
      TrackRoll(cfg, n, st, t, ev);
    } else {
      TrackVolume(cfg, n, st, t, ev);
    }
  }

  /** Steps of other sandboxes neither change what is tracked nor start using it. */
  lemma OtherStepFollows(cfg: Config, n: string, m: string, st: State, t: Thread, ev: Event)
    requires Apart(m, n) && KeepsOff(n, Call(m, ev))
    requires WellFormed(st) && Possible(st, ev) && Touching(cfg, m, st, ev) && Follows(cfg, n, st, t)
    ensures Follows(cfg, n, Effect(st, ev), t)
  {
    if t.Creating? && t.pc != Made {
      ApartNames(cfg.netPrefix, m, n);
      OwnNamesDiffer(cfg.netPrefix, n);
      TouchingLeavesOthers(cfg, m, n, st, ev);
      var st' := Effect(st, ev);
      assert CtrsOf(n, st'.containers) == CtrsOf(n, st.containers);
      assert NetsOf(cfg, n, st'.networks) == NetsOf(cfg, n, st.networks);
      assert st'.volumes * Vols(n) == st.volumes * Vols(n);
      TrackedVolumesSame(n, t.before, st.volumes, st'.volumes, t.volsMade, t.plan.persist);
      TrackedNetworksSame(cfg, n, t.before, st.networks, st'.networks, NetNew(t));
      TrackedContainersSame(n, t.before, st.containers, st'.containers, ProxyLive(t), t.proxyId);
      StaysPrivate(cfg, n, m, st, t, ev);
    }
  }

  lemma TrackedVolumesSame(n: string, before: View, now: set<string>, now': set<string>, made: set<string>, persist: bool)
    requires VolumesTracked(n, before, now, made, persist) && now * Vols(n) == now' * Vols(n)
    ensures VolumesTracked(n, before, now', made, persist)
    ensures forall v :: v in Vols(n) ==> (v in now <==> v in now')
  {
    forall v | v in Vols(n) ensures v in now <==> v in now' {
      assert v in now * Vols(n) <==> v in now' * Vols(n);
    }
  }

  lemma TrackedNetworksSame(cfg: Config, n: string, before: View, now: map<string, Network>, now': map<string, Network>, made: bool)
    requires NetworksTracked(cfg, n, before, now, made) && NetsOf(cfg, n, now) == NetsOf(cfg, n, now')
    ensures NetworksTracked(cfg, n, before, now', made)
  {
    assert Net(cfg, n) in now <==> Net(cfg, n) in NetsOf(cfg, n, now);
    assert Net(cfg, n) in now' <==> Net(cfg, n) in NetsOf(cfg, n, now');
  }

  lemma TrackedContainersSame(n: string, before: View, now: map<Id, Container>, now': map<Id, Container>, live: bool, id: Id)
    requires ContainersTracked(n, before, now, live, id) && CtrsOf(n, now) == CtrsOf(n, now')
    ensures ContainersTracked(n, before, now', live, id)
  {
    if live {
      assert id in CtrsOf(n, now);
      assert id in CtrsOf(n, now') && CtrsOf(n, now')[id] == now'[id] == now[id];
    }
  }

  lemma StaysPrivate(cfg: Config, n: string, m: string, st: State, t: Thread, ev: Event)
    requires Apart(m, n) && KeepsOff(n, Call(m, ev))
    requires WellFormed(st) && Possible(st, ev) && Touching(cfg, m, st, ev)
    requires t.Creating? && Private(cfg, n, st, t) && t.volsMade <= {CaVolume(n), SshVolume(n)}
    ensures Private(cfg, n, Effect(st, ev), t)
  {
    ApartNames(cfg.netPrefix, m, n);
    OwnNamesDiffer(cfg.netPrefix, n);
  }

  // ----- whole runs -----

  /** Every removal that sandbox n asks for is answered honestly, and it takes no volume for its own. */
  ghost predicate HonestFor(cfg: Config, n: string, s: Sys, acts: seq<Act>)
    requires IsRun(cfg, s, acts)
    decreases |acts|
  {
    acts != [] ==>
      && (acts[0].Call? && acts[0].who == n ==> Honest(s.st, acts[0].ev) && NotTaken(n, s.st, acts[0].ev))
      && HonestFor(cfg, n, After(cfg, s, acts[0]), acts[1..])
  }

  lemma StepFollows(cfg: Config, s: Sys, act: Act, n: string)
    requires Inv(cfg, s) && n in s.threads && Enabled(cfg, s, act) && KeepsOff(n, act) && Follows(cfg, n, s.st, s.threads[n])
    requires act.Call? && act.who == n ==> Honest(s.st, act.ev) && NotTaken(n, s.st, act.ev)
    ensures var s' := After(cfg, s, act); n in s'.threads && Follows(cfg, n, s'.st, s'.threads[n])
  {
    if act.Call? {
      if act.who != n {
        StepTouchesOwn(cfg, act.who, s.st, s.threads[act.who], act.ev);
        OtherStepFollows(cfg, n, act.who, s.st, s.threads[n], act.ev);
      } else if s.threads[n].Creating? {
        OwnStepFollows(cfg, n, s.st, s.threads[n], act.ev);
      } else {
        DeleteStays(s.threads[n], act.ev);
      }
    } else if act.BeginCreate? && act.who == n {
      BeginFollows(cfg, n, s.st, act.req);
    }
  }

  lemma DeleteStays(t: Thread, ev: Event)
    requires t.Deleting? && NextDelete(t, ev).Some?
    ensures NextDelete(t, ev).value.Deleting?
  {
  }

  lemma BeginFollows(cfg: Config, n: string, st: State, req: Request)
    requires req.name == n
    ensures Follows(cfg, n, st, StartCreate(cfg, req, st))
  {
    VolumeKinds(n, n);
    FreshTracks(cfg, n, st, PlanOf(cfg, req));
  }

  lemma FreshTracks(cfg: Config, n: string, st: State, plan: Plan)
    ensures Tracks(cfg, n, st, Creating(plan, ViewOf(cfg, n, st), Begin, false, false, {}, 0))
  {
  }

  /**
   Rollback: in every run, however the sandboxes' calls interleave and at whichever step
   Create failed, a failed Create of n has put back everything of n, the data volume
   excepted, provided n's removals are answered honestly, it takes no volume for its own that
   was there, and no other sandbox mounts n's volumes meanwhile. Nothing outside of the
   sandboxes' names changed either.
   */
  lemma {:induction false} FailedCreateIsUndone(cfg: Config, s: Sys, acts: seq<Act>, n: string)
    requires Inv(cfg, s) && IsRun(cfg, s, acts) && HonestFor(cfg, n, s, acts) && AllKeepOff(n, acts)
    requires n in s.threads && Follows(cfg, n, s.st, s.threads[n])
    ensures var s' := End(cfg, s, acts);
            && n in s'.threads && Follows(cfg, n, s'.st, s'.threads[n])
            && (s'.threads[n].Creating? && s'.threads[n].pc == Failed ==>
                  Restored(cfg, n, s'.st, s'.threads[n].before, s'.threads[n].plan.persist))
    ensures SameOutside(ReachOf(cfg, s.threads.Keys), s.st, End(cfg, s, acts).st)
    decreases |acts|
  {
    RunsStayOutside(cfg, s, acts);
    if acts == [] {
      if s.threads[n].Creating? && s.threads[n].pc == Failed {
        FailedIsRestored(cfg, n, s.st, s.threads[n]);
      }
    } else {
      InvStep(cfg, s, acts[0]);
      StepFollows(cfg, s, acts[0], n);
      FailedCreateIsUndone(cfg, After(cfg, s, acts[0]), acts[1..], n);
    }
  }

  lemma UndoProxyGranted(cfg: Config, n: string, st: State, t: Thread, ev: Event)
    requires WellFormed(st) && t.Creating? && t.plan.name == n && Tracks(cfg, n, st, t) && t.pc == ProxyUndo
    requires Honest(st, ev) && NextProxy(t, ev).Some?
    ensures ev.ok
  {
    ProxyMoves(t, ev);
  }

  /** In every such run, no cleanup call is refused because its target is in use. */
  lemma CleanupIsNeverRefused(cfg: Config, n: string, st: State, t: Thread, ev: Event)
    requires WellFormed(st) && t.Creating? && t.plan.name == n && Tracks(cfg, n, st, t)
    requires Possible(st, ev) && Honest(st, ev) && NextCreate(cfg, t, ev).Some?
    requires t.pc == NetUndo || t.pc == ProxyUndo || RollPhase(t.pc)
    ensures ev.ok
  {
    if RollPhase(t.pc) {
      TrackRoll(cfg, n, st, t, ev);
    } else if t.pc == NetUndo {
      NetworkMoves(cfg, t, ev);
      UndoNetworkGranted(cfg, n, st, t, ev);
    } else {
      UndoProxyGranted(cfg, n, st, t, ev);
    }
  }
}
