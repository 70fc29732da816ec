/**
 One sandbox running by itself: the list of its calls decides where it ends, and the
 theorems about runs apply. Also the runs that show why their conditions are needed.
 */
module Solo {
  import opened GoStrings
  import opened Names
  import opened Engine
  import opened Sandbox
  import opened Provision
  import opened Runs
  import opened Isolation
  import opened Frame
  import opened Success
  import opened Rollback
  import opened Cancellation
  import opened Deletion

  datatype Place = Place(st: State, t: Thread)

  ghost function Stepped(cfg: Config, p: Option<Place>, ev: Event): Option<Place> {
    if p.Some? && Possible(p.value.st, ev) && Next(cfg, p.value.t, ev).Some?
    then Some(Place(Effect(p.value.st, ev), Next(cfg, p.value.t, ev).value))
    else None
  }

  /** Where a list of calls leads, if the thread makes them and the engine can answer so. */
  ghost function Ran(cfg: Config, p: Place, evs: seq<Event>): Option<Place> {
    if evs == [] then Some(p) else Stepped(cfg, Ran(cfg, p, evs[..|evs| - 1]), evs[|evs| - 1])
  }

  ghost predicate HonestRun(cfg: Config, p: Place, evs: seq<Event>) {
    evs != [] ==>
      var before := Ran(cfg, p, evs[..|evs| - 1]);
      HonestRun(cfg, p, evs[..|evs| - 1]) && (before.Some? ==> Honest(before.value.st, evs[|evs| - 1]))
  }

  ghost function Alone(n: string, p: Place): Sys {
    Sys(p.st, map[n := p.t])
  }

  lemma StepAlone(cfg: Config, n: string, p: Place, ev: Event)
    requires Possible(p.st, ev) && Next(cfg, p.t, ev).Some?
    ensures var act := Call(n, ev);
            && CanStep(cfg, Alone(n, p), act) && (AtHome(n, ev) ==> Enabled(cfg, Alone(n, p), act))
            && After(cfg, Alone(n, p), act) == Alone(n, Stepped(cfg, Some(p), ev).value)
  {
    assert map[n := p.t][n := Next(cfg, p.t, ev).value] == map[n := Next(cfg, p.t, ev).value];
  }

  /** Alone, whatever was asked for: isolation holds. */
  lemma {:induction false} AloneStaysIsolated(cfg: Config, n: string, p: Place, evs: seq<Event>)
    requires AllIsolated(cfg, Alone(n, p)) && Ran(cfg, p, evs).Some?
    ensures AllIsolated(cfg, Alone(n, Ran(cfg, p, evs).value))
  {
    if evs != [] {
      var evs', ev := evs[..|evs| - 1], evs[|evs| - 1];
      AloneStaysIsolated(cfg, n, p, evs');
      var q := Ran(cfg, p, evs').value;
      StepAlone(cfg, n, q, ev);
      StepStaysIsolated(cfg, Alone(n, q), Call(n, ev));
    }
  }

  /** Create, whatever was asked for and whatever fails, changes nothing outside of the sandbox's names. */
  lemma {:induction false} CreateStaysOutside(cfg: Config, n: string, p: Place, evs: seq<Event>)
    requires WellFormed(p.st) && p.t.Creating? && Wired(n, p.st, p.t) && Ran(cfg, p, evs).Some?
    ensures var q := Ran(cfg, p, evs).value;
            WellFormed(q.st) && q.t.Creating? && Wired(n, q.st, q.t) && SameOutside(ReachOf(cfg, {n}), p.st, q.st)
  {
    if evs != [] {
      var evs', ev := evs[..|evs| - 1], evs[|evs| - 1];
      CreateStaysOutside(cfg, n, p, evs');
      var q := Ran(cfg, p, evs').value;
      EffectKeepsWellFormed(q.st, ev);
      OwnCreateStays(cfg, n, q.st, ev, q.t);
      CreateStepInside(cfg, n, q.st, q.t, ev);
      InsideStaysOutside(ReachOf(cfg, {n}), q.st, ev);
      SameOutsideTrans(ReachOf(cfg, {n}), p.st, q.st, Effect(q.st, ev));
    }
  }

  // ----- a failed Create, whatever was asked for -----

  /** Removals are answered honestly, and no volume is taken for Create's own that was there. */
  ghost predicate FairRun(cfg: Config, n: string, p: Place, evs: seq<Event>) {
    evs != [] ==>
      var before, ev := Ran(cfg, p, evs[..|evs| - 1]), evs[|evs| - 1];
      FairRun(cfg, n, p, evs[..|evs| - 1]) && (before.Some? ==> Honest(before.value.st, ev) && NotTaken(n, before.value.st, ev))
  }

  /** Create of any request keeps the record of what it added exact. */
  lemma {:induction false} AloneHolds(cfg: Config, n: string, p: Place, evs: seq<Event>)
    requires WellFormed(p.st) && p.t.Creating? && Wired(n, p.st, p.t) && Follows(cfg, n, p.st, p.t)
    requires Ran(cfg, p, evs).Some? && FairRun(cfg, n, p, evs)
    ensures var q := Ran(cfg, p, evs).value;
            WellFormed(q.st) && q.t.Creating? && Wired(n, q.st, q.t) && Follows(cfg, n, q.st, q.t)
  {
    if evs != [] {
      var evs', ev := evs[..|evs| - 1], evs[|evs| - 1];
      AloneHolds(cfg, n, p, evs');
      var q := Ran(cfg, p, evs').value;
      EffectKeepsWellFormed(q.st, ev);
      OwnCreateStays(cfg, n, q.st, ev, q.t);
      OwnStepFollows(cfg, n, q.st, q.t, ev);
    }
  }

  /** The calls are those of a Create whose context is cancelled after the first k of them. */
  ghost predicate ContextRun(cfg: Config, p: Place, evs: seq<Event>, k: nat) {
    evs != [] ==>
      var before, ev := Ran(cfg, p, evs[..|evs| - 1]), evs[|evs| - 1];
      && ContextRun(cfg, p, evs[..|evs| - 1], k)
      && (before.Some? && before.value.t.Creating? ==> Answered(before.value.st, before.value.t, ev, k <= |evs| - 1))
  }

  /** The cancellation finds Create at an exposed moment. */
  ghost predicate ExposedAfter(cfg: Config, p: Place, evs: seq<Event>, k: nat) {
    && k <= |evs|
    && var q := Ran(cfg, p, evs[..k]); q.Some? && q.value.t.Creating? && Exposed(q.value.t)
  }

  lemma {:induction false} ContextIsFair(cfg: Config, n: string, p: Place, evs: seq<Event>, k: nat)
    requires p.t.Creating? && p.t.plan.name == n && Vacant(n, p.st, p.t) && Ran(cfg, p, evs).Some?
    requires ContextRun(cfg, p, evs, k) && !ExposedAfter(cfg, p, evs, k)
    ensures FairRun(cfg, n, p, evs)
    ensures var q := Ran(cfg, p, evs).value;
            && q.t.Creating? && q.t.plan.name == n
            && (if k <= |evs| then !Exposed(q.t) else Vacant(n, q.st, q.t))
  {
    if evs == [] {
      assert evs[..0] == [];
    } else {
      var evs', ev := evs[..|evs| - 1], evs[|evs| - 1];
      assert k <= |evs'| ==> evs'[..k] == evs[..k];
      ContextIsFair(cfg, n, p, evs', k);
      var q := Ran(cfg, p, evs').value;
      NextKeepsPlan(cfg, q.t, ev);
      if k <= |evs'| {
        CancelledStep(cfg, n, q.st, q.t, ev);
      } else {
        LiveStep(cfg, n, q.st, q.t, ev);
        assert k == |evs| ==> evs[..k] == evs;
      }
    }
  }

  /** A cancellation after the last call changes nothing of them. */
  lemma {:induction false} LiveContext(cfg: Config, p: Place, evs: seq<Event>, k: nat)
    requires ContextRun(cfg, p, evs, k) && k >= |evs|
    ensures ContextRun(cfg, p, evs, k + 1)
  {
    if evs != [] {
      LiveContext(cfg, p, evs[..|evs| - 1], k);
    }
  }

  lemma ExposedNowLeaks(cfg: Config, n: string, p: Place, evs: seq<Event>)
    requires WellFormed(p.st) && p.t.Creating? && Wired(n, p.st, p.t) && Follows(cfg, n, p.st, p.t) && Vacant(n, p.st, p.t)
    requires Ran(cfg, p, evs).Some? && ContextRun(cfg, p, evs, |evs|) && ExposedAfter(cfg, p, evs, |evs|)
    ensures Leaks(cfg, n, Ran(cfg, p, evs).value.st, Ran(cfg, p, evs).value.t)
  {
    assert evs[..|evs|] == evs;
    LiveContext(cfg, p, evs, |evs|);
    ContextIsFair(cfg, n, p, evs, |evs| + 1);
    AloneHolds(cfg, n, p, evs);
    ExposedLeaks(cfg, n, Ran(cfg, p, evs).value.st, Ran(cfg, p, evs).value.t);
  }

  lemma {:induction false} ExposedContextLeaks(cfg: Config, n: string, p: Place, evs: seq<Event>, k: nat)
    requires WellFormed(p.st) && p.t.Creating? && Wired(n, p.st, p.t) && Follows(cfg, n, p.st, p.t) && Vacant(n, p.st, p.t)
    requires Ran(cfg, p, evs).Some? && ContextRun(cfg, p, evs, k) && ExposedAfter(cfg, p, evs, k)
    ensures Leaks(cfg, n, Ran(cfg, p, evs).value.st, Ran(cfg, p, evs).value.t)
  {
    if k == |evs| {
      ExposedNowLeaks(cfg, n, p, evs);
    } else {
      var evs' := evs[..|evs| - 1];
      assert evs'[..k] == evs[..k];
      ExposedContextLeaks(cfg, n, p, evs', k);
      LeaksOn(cfg, n, Ran(cfg, p, evs').value.st, Ran(cfg, p, evs').value.t, evs[|evs| - 1]);
    }
  }

  /** The plan and what was there before stay in the thread to the end. */
  lemma {:induction false} RanKeepsPlan(cfg: Config, p: Place, evs: seq<Event>)
    requires p.t.Creating? && Ran(cfg, p, evs).Some?
    ensures SamePlan(p.t, Ran(cfg, p, evs).value.t)
  {
    if evs != [] {
      var evs' := evs[..|evs| - 1];
      RanKeepsPlan(cfg, p, evs');
      NextKeepsPlan(cfg, Ran(cfg, p, evs').value.t, evs[|evs| - 1]);
    }
  }

  // ----- what success and failure mean -----

  /** How far a Create of any request has come after these calls: it has built what it should, or has a cause to give up. */
  ghost predicate Building(cfg: Config, n: string, start: Thread, q: Place, evs: seq<Event>) {
    && start.Creating? && q.t.Creating? && SamePlan(start, q.t) && WellFormed(q.st) && Wired(n, q.st, q.t)
    && Built(cfg, n, ViewOf(cfg, n, q.st), q.t) && Passed(q.t, evs)
    && (!OnPath(q.t.pc) ==> HadCause(cfg, q.t.plan.proxied, evs))
  }

  ghost predicate HadCause(cfg: Config, proxied: bool, evs: seq<Event>) {
    exists ev :: ev in evs && Cause(cfg, proxied, ev)
  }

  ghost predicate BuildingBy(cfg: Config, n: string, p: Place, evs: seq<Event>) {
    exists q :: Ran(cfg, p, evs) == Some(q) && Building(cfg, n, p.t, q, evs)
  }

  lemma {:induction false} AloneBuilds(cfg: Config, n: string, p: Place, evs: seq<Event>)
    requires BuildingBy(cfg, n, p, []) && Ran(cfg, p, evs).Some?
    ensures BuildingBy(cfg, n, p, evs)
  {
    if evs != [] {
      AloneBuilds(cfg, n, p, evs[..|evs| - 1]);
      BuildsLast(cfg, n, p, evs);
    }
  }

  lemma BuildsLast(cfg: Config, n: string, p: Place, evs: seq<Event>)
    requires evs != [] && Ran(cfg, p, evs).Some? && BuildingBy(cfg, n, p, evs[..|evs| - 1])
    ensures BuildingBy(cfg, n, p, evs)
  {
    var before, ev := evs[..|evs| - 1], evs[|evs| - 1];
    var q :| Ran(cfg, p, before) == Some(q) && Building(cfg, n, p.t, q, before);
    LastCall(cfg, p, evs, q);
    BuildsOneMore(cfg, n, p.t, q, before, ev);
    assert before + [ev] == evs;
  }

  lemma LastCall(cfg: Config, p: Place, evs: seq<Event>, q: Place)
    requires evs != [] && Ran(cfg, p, evs).Some? && Ran(cfg, p, evs[..|evs| - 1]) == Some(q) && q.t.Creating?
    ensures var ev := evs[|evs| - 1];
            && Possible(q.st, ev) && NextCreate(cfg, q.t, ev).Some?
            && Ran(cfg, p, evs) == Some(Place(Effect(q.st, ev), NextCreate(cfg, q.t, ev).value))
  {
  }

  lemma BuildsOneMore(cfg: Config, n: string, start: Thread, q: Place, evs: seq<Event>, ev: Event)
    requires Building(cfg, n, start, q, evs) && Possible(q.st, ev) && NextCreate(cfg, q.t, ev).Some?
    ensures Building(cfg, n, start, Place(Effect(q.st, ev), NextCreate(cfg, q.t, ev).value), evs + [ev])
  {
    NextKeepsPlan(cfg, q.t, ev);
    EffectKeepsWellFormed(q.st, ev);
    OwnCreateStays(cfg, n, q.st, ev, q.t);
    OwnStepBuilds(cfg, n, q.st, q.t, ev);
    PassesStep(cfg, q.t, ev, evs);
    GivesUpForCause(cfg, q.t.plan.proxied, q.t, ev, evs);
  }

  lemma GivesUpForCause(cfg: Config, proxied: bool, t: Thread, ev: Event, evs: seq<Event>)
    requires t.Creating? && t.plan.proxied == proxied && NextCreate(cfg, t, ev).Some? && NextCreate(cfg, t, ev).value.Creating?
    requires !OnPath(t.pc) ==> HadCause(cfg, proxied, evs)
    ensures !OnPath(NextCreate(cfg, t, ev).value.pc) ==> HadCause(cfg, proxied, evs + [ev])
  {
    if !OnPath(t.pc) {
      var e :| e in evs && Cause(cfg, proxied, e);
      assert e in evs + [ev];
    } else if !OnPath(NextCreate(cfg, t, ev).value.pc) {
      LeavesForCause(cfg, t, ev);
      assert ev in evs + [ev];
    }
  }

  /** If a sandbox of the name is there already, Create does nothing. */
  lemma {:induction false} AloneIsStopped(cfg: Config, p: Place, evs: seq<Event>)
    requires p.t.Creating? && NotListed(p.t.pc) && HasManaged(p.st, p.t.plan.name) && Ran(cfg, p, evs).Some?
    ensures var q := Ran(cfg, p, evs).value; q.st == p.st && q.t.Creating? && SamePlan(p.t, q.t) && NotListed(q.t.pc)
  {
    if evs != [] {
      AloneIsStopped(cfg, p, evs[..|evs| - 1]);
      var q := Ran(cfg, p, evs[..|evs| - 1]).value;
      NextKeepsPlan(cfg, q.t, evs[|evs| - 1]);
      ListedStops(cfg, q.t, evs[|evs| - 1], q.st);
    }
  }

  // ----- Delete alone -----

  ghost predicate CanDelete(cfg: Config, n: string, p: Place) {
    p.t.Deleting? && Progress(cfg, n, p.st, p.t) && OnlyOwnUse(cfg, n, p.st) && n != "" && Net(cfg, n) != ""
  }

  lemma DeleteInspectsOwn(cfg: Config, n: string, p: Place, ev: Event)
    requires CanDelete(cfg, n, p) && Possible(p.st, ev) && NextDelete(p.t, ev).Some?
    ensures AtHome(n, ev)
  {
    if ev.call.InspectCtr? {
      assert p.t.dpc == FindMain;
      assert p.t.id in CtrsOf(n, p.st.containers);
    }
  }

  /** Alone, too, Delete makes progress to the end. */
  lemma {:induction false} AloneDeletes(cfg: Config, n: string, p: Place, evs: seq<Event>)
    requires Inv(cfg, Alone(n, p)) && Ran(cfg, p, evs).Some? && HonestRun(cfg, p, evs) && CanDelete(cfg, n, p)
    ensures var q := Ran(cfg, p, evs).value;
            && Inv(cfg, Alone(n, q)) && CanDelete(cfg, n, q) && q.t.before == p.t.before && q.t.id == p.t.id
            && SameOutside(ReachOf(cfg, {n}), p.st, q.st)
  {
    if evs != [] {
      var evs', ev := evs[..|evs| - 1], evs[|evs| - 1];
      AloneDeletes(cfg, n, p, evs');
      var q := Ran(cfg, p, evs').value;
      StepAlone(cfg, n, q, ev);
      DeleteInspectsOwn(cfg, n, q, ev);
      assert KeepsOff(n, Call(n, ev));
      InvStep(cfg, Alone(n, q), Call(n, ev));
      assert Alone(n, q).threads.Keys == {n};
      StepStaysOutside(cfg, Alone(n, q), Call(n, ev));
      SameOutsideTrans(ReachOf(cfg, {n}), p.st, q.st, Effect(q.st, ev));
      StepProgress(cfg, Alone(n, q), Call(n, ev), n);
    }
  }

  /** All that Delete can reach: the container, and what its labels name. */
  function DeleteReach(id: Id, labels: map<string, string>): Reach {
    Reach({id}, if Label(labels, L_NAME) == "" then {} else {ProxyName(Label(labels, L_NAME))},
          Named(labels, L_NETWORK), Dropped(7, labels))
  }

  function LabelsAt(st: State, id: Id): map<string, string> {
    if id in st.containers then st.containers[id].labels else map[]
  }

  /** Where a Delete of any container stands: it has looked, or it follows the labels it found. */
  ghost predicate Following(id: Id, labels: map<string, string>, st: State, t: Thread) {
    && t.Deleting? && t.id == id
    && (t.dpc == FindMain ==> LabelsAt(st, id) == labels)
    && (t.dpc != FindMain && t.dpc != Deleted ==> t.labels == labels)
    && (t.dpc == DropProxy ==> Label(t.labels, L_NAME) != "")
    && (t.dpc == DropNetwork ==> Label(t.labels, L_NETWORK) != "")
    && (t.dpc == DropData ==> Label(t.labels, L_VOLUME) != "")
    && (t.dpc == DropCa ==> Label(t.labels, L_CA) != "")
    && (t.dpc == DropSsh ==> Label(t.labels, L_SSH_VOLUME) != "")
  }

  lemma FollowingStep(id: Id, labels: map<string, string>, st: State, t: Thread, ev: Event)
    requires Following(id, labels, st, t) && Possible(st, ev) && NextDelete(t, ev).Some?
    ensures Inside(DeleteReach(id, labels), st, ev.call)
    ensures Following(id, labels, Effect(st, ev), NextDelete(t, ev).value)
  {
  }

  /** Delete of any container at all, whatever fails, changes only the container and what its labels name. */
  lemma {:induction false} DeleteStaysInReach(cfg: Config, id: Id, labels: map<string, string>, p: Place, evs: seq<Event>)
    requires WellFormed(p.st) && Following(id, labels, p.st, p.t) && Ran(cfg, p, evs).Some?
    ensures var q := Ran(cfg, p, evs).value;
            WellFormed(q.st) && Following(id, labels, q.st, q.t) && SameOutside(DeleteReach(id, labels), p.st, q.st)
  {
    if evs != [] {
      var evs', ev := evs[..|evs| - 1], evs[|evs| - 1];
      DeleteStaysInReach(cfg, id, labels, p, evs');
      var q := Ran(cfg, p, evs').value;
      EffectKeepsWellFormed(q.st, ev);
      FollowingStep(id, labels, q.st, q.t, ev);
      InsideStaysOutside(DeleteReach(id, labels), q.st, ev);
      SameOutsideTrans(DeleteReach(id, labels), p.st, q.st, Effect(q.st, ev));
    }
  }

  lemma RanSnoc(cfg: Config, p: Place, evs: seq<Event>, ev: Event)
    ensures Ran(cfg, p, evs + [ev]) == Stepped(cfg, Ran(cfg, p, evs), ev)
  {
    assert (evs + [ev])[..|evs + [ev]| - 1] == evs;
  }

  // ----- why the conditions are needed -----

  lemma Extend(cfg: Config, p: Place, evs: seq<Event>, q: Place, ev: Event) returns (evs': seq<Event>, q': Place)
    requires Ran(cfg, p, evs) == Some(q) && Possible(q.st, ev) && Next(cfg, q.t, ev).Some?
    ensures evs' == evs + [ev] && q' == Place(Effect(q.st, ev), Next(cfg, q.t, ev).value)
    ensures Ran(cfg, p, evs') == Some(q')
  {
    evs', q' := evs + [ev], Place(Effect(q.st, ev), Next(cfg, q.t, ev).value);
    RanSnoc(cfg, p, evs, ev);
  }

  function Fresh(cfg: Config, plan: Plan, st: State): Thread {
    Creating(plan, ViewOf(cfg, plan.name, st), Begin, false, false, {}, 0)
  }

  lemma UpToNetwork(cfg: Config, plan: Plan, st: State, spec: Network) returns (evs: seq<Event>, q: Place)
    requires !HasManaged(st, plan.name) && Net(cfg, plan.name) !in st.networks && plan.proxied
    requires cfg.nativeCreate ==> cfg.nativeVerify
    requires cfg.nativeCreate || spec == DockerNetwork(true)
    ensures Ran(cfg, Place(st, Fresh(cfg, plan, st)), evs) == Some(q)
    ensures q.st == st.(networks := st.networks[Net(cfg, plan.name) := spec])
    ensures var t := Fresh(cfg, plan, st);
            q.t == if cfg.nativeCreate then t.(pc := NetCheck) else t.(pc := CaInspect, netMade := true)
  {
    var n := plan.name;
    var p, net := Place(st, Fresh(cfg, plan, st)), Net(cfg, n);
    evs, q := [], p;
    evs, q := Extend(cfg, p, evs, q, Event(Check, true));
    evs, q := Extend(cfg, p, evs, q, Event(List(n, false), true));
    evs, q := Extend(cfg, p, evs, q, Event(Check, true));
    evs, q := Extend(cfg, p, evs, q, Event(InspectNet(net, spec), false));
    evs, q := Extend(cfg, p, evs, q, Event(CreateNet(net, spec), true));
  }

  /**
   An inspect that fails although the CA volume exists: Create takes the volume for its
   own, and when a later step fails the cleanup deletes it.
   */
  lemma SpuriousInspectLosesVolume(cfg: Config, plan: Plan, st: State) returns (evs: seq<Event>, q: Place)
    requires WellFormed(st) && !HasManaged(st, plan.name) && Net(cfg, plan.name) !in st.networks
    requires !cfg.nativeCreate && plan.proxied && !plan.ssh
    requires CaVolume(plan.name) in st.volumes && !VolumeInUse(st, CaVolume(plan.name))
    ensures Ran(cfg, Place(st, Fresh(cfg, plan, st)), evs) == Some(q)
    ensures q.t.Creating? && q.t.pc == Failed
    ensures CaVolume(plan.name) in q.t.before.volumes && CaVolume(plan.name) !in q.st.volumes
  {
    var n := plan.name;
    var p, ca := Place(st, Fresh(cfg, plan, st)), CaVolume(n);
    evs, q := UpToNetwork(cfg, plan, st, DockerNetwork(true));
    assert !VolumeInUse(q.st, ca) && !NetworkInUse(q.st, Net(cfg, n));
    evs, q := TakeVolume(cfg, n, p, evs, q, ca);
    evs, q := LoseVolume(cfg, n, p, evs, q, ca);
  }

  /** The inspect fails, the create finds the volume there, and a later check fails. */
  lemma TakeVolume(cfg: Config, n: string, p: Place, evs: seq<Event>, q: Place, ca: string) returns (evs': seq<Event>, q': Place)
    requires Ran(cfg, p, evs) == Some(q) && q.t.Creating? && q.t.plan.name == n && !q.t.plan.ssh
    requires q.t.pc == CaInspect && q.t.volsMade == {} && !q.t.proxyMade && ca == CaVolume(n) && ca in q.st.volumes
    ensures Ran(cfg, p, evs') == Some(q') && q'.st == q.st
    ensures q'.t == q.t.(pc := RollVolume, volsMade := {ca})
  {
    TakeVolumeNext(q.t, ca);
    evs', q' := Extend(cfg, p, evs, q, Event(InspectVol(ca), false));
    evs', q' := Extend(cfg, p, evs', q', Event(CreateVol(ca), true));
    assert q'.st.volumes == q.st.volumes;
    evs', q' := Extend(cfg, p, evs', q', Event(Check, false));
  }

  lemma TakeVolumeNext(t: Thread, ca: string)
    requires t.Creating? && t.pc == CaInspect && t.volsMade == {} && !t.proxyMade && !t.plan.ssh && ca == CaVolume(t.plan.name)
    ensures NextVolume(t, Event(InspectVol(ca), false)) == Some(t.(pc := CaMake))
    ensures NextVolume(t.(pc := CaMake), Event(CreateVol(ca), true)) == Some(t.(pc := ProxyCheck, volsMade := {ca}))
    ensures NextVolume(t.(pc := ProxyCheck, volsMade := {ca}), Event(Check, false)) == Some(t.(pc := RollVolume, volsMade := {ca}))
  {
    assert {} + {ca} == {ca};
  }

  lemma LoseVolume(cfg: Config, n: string, p: Place, evs: seq<Event>, q: Place, ca: string) returns (evs': seq<Event>, q': Place)
    requires Ran(cfg, p, evs) == Some(q) && q.t.Creating? && q.t.plan.name == n
    requires q.t.pc == RollVolume && q.t.volsMade == {ca} && q.t.netMade && !q.t.proxyMade
    requires !VolumeInUse(q.st, ca) && Net(cfg, n) in q.st.networks && !NetworkInUse(q.st, Net(cfg, n))
    ensures Ran(cfg, p, evs') == Some(q')
    ensures q'.t.Creating? && q'.t.pc == Failed && q'.t.before == q.t.before && ca !in q'.st.volumes
  {
    var net := Net(cfg, n);
    evs', q' := Extend(cfg, p, evs, q, Event(RemoveVol(ca), true));
    assert q'.t == q.t.(pc := RollNetwork, volsMade := {});
    assert !NetworkInUse(q'.st, net);
    evs', q' := Extend(cfg, p, evs', q', Event(RemoveNet(net), true));
  }

  /** A cancelled context inside ensureNetwork: the unverified network stays behind. */
  lemma CancelledContextLeaksNetwork(cfg: Config, plan: Plan, st: State, spec: Network) returns (evs: seq<Event>, q: Place)
    requires !HasManaged(st, plan.name) && Net(cfg, plan.name) !in st.networks
    requires cfg.nativeCreate && cfg.nativeVerify && plan.proxied
    ensures Ran(cfg, Place(st, Fresh(cfg, plan, st)), evs) == Some(q)
    ensures q.t.Creating? && q.t.pc == Failed
    ensures Net(cfg, plan.name) !in q.t.before.networks && Net(cfg, plan.name) in q.st.networks
  {
    var n := plan.name;
    var p, net := Place(st, Fresh(cfg, plan, st)), Net(cfg, n);
    evs, q := UpToNetwork(cfg, plan, st, spec);
    evs, q := Extend(cfg, p, evs, q, Event(VerifyNet(net), false));
    evs, q := Extend(cfg, p, evs, q, Event(RemoveNet(net), false));
  }

  /**
   The removal inside createProxySidecar fails as well: the sidecar goes on holding the
   volume and the network, every cleanup call is refused, and all three stay behind.
   */
  lemma SidecarLeaks(cfg: Config, plan: Plan, st: State, id: Id) returns (evs: seq<Event>, q: Place)
    requires WellFormed(st) && !HasManaged(st, plan.name) && Net(cfg, plan.name) !in st.networks
    requires !cfg.nativeCreate && plan.proxied && !plan.ssh && CaVolume(plan.name) !in st.volumes
    requires plan.sidecar.networks == {Net(cfg, plan.name)} && plan.sidecar.volumes == {CaVolume(plan.name)}
    requires id !in st.issued && !NameTaken(st, plan.sidecar.name)
    ensures Ran(cfg, Place(st, Fresh(cfg, plan, st)), evs) == Some(q)
    ensures q.t.Creating? && q.t.pc == Failed
    ensures id in q.st.containers && Net(cfg, plan.name) in q.st.networks && CaVolume(plan.name) in q.st.volumes
  {
    var n := plan.name;
    var p, ca := Place(st, Fresh(cfg, plan, st)), CaVolume(n);
    evs, q := UpToNetwork(cfg, plan, st, DockerNetwork(true));
    evs, q := MakeSidecar(cfg, n, p, evs, q, id);
    evs, q := AbandonSidecar(cfg, n, p, evs, q, id);
  }

  lemma MakeSidecar(cfg: Config, n: string, p: Place, evs: seq<Event>, q: Place, id: Id) returns (evs': seq<Event>, q': Place)
    requires Ran(cfg, p, evs) == Some(q) && q.t.Creating? && q.t.plan.name == n && !q.t.plan.ssh
    requires q.t.pc == CaInspect && q.t.volsMade == {} && CaVolume(n) !in q.st.volumes
    requires q.t.plan.sidecar.networks == {Net(cfg, n)} && q.t.plan.sidecar.volumes == {CaVolume(n)}
    requires id !in q.st.issued && !NameTaken(q.st, q.t.plan.sidecar.name) && Net(cfg, n) in q.st.networks
    ensures Ran(cfg, p, evs') == Some(q') && q'.t == q.t.(pc := ProxyBridge, volsMade := {CaVolume(n)}, proxyId := id)
    ensures id in q'.st.containers && q'.st.containers[id] == q.t.plan.sidecar
    ensures q'.st.networks == q.st.networks && CaVolume(n) in q'.st.volumes
  {
    var ca := CaVolume(n);
    MakeSidecarNext(q.t, ca, id);
    evs', q' := Extend(cfg, p, evs, q, Event(InspectVol(ca), false));
    evs', q' := Extend(cfg, p, evs', q', Event(CreateVol(ca), true));
    evs', q' := Extend(cfg, p, evs', q', Event(Check, true));
    evs', q' := Extend(cfg, p, evs', q', Event(CreateCtr(id, q.t.plan.sidecar), true));
  }

  lemma MakeSidecarNext(t: Thread, ca: string, id: Id)
    requires t.Creating? && t.pc == CaInspect && t.volsMade == {} && !t.plan.ssh && ca == CaVolume(t.plan.name)
    ensures NextVolume(t, Event(InspectVol(ca), false)) == Some(t.(pc := CaMake))
    ensures NextVolume(t.(pc := CaMake), Event(CreateVol(ca), true)) == Some(t.(pc := ProxyCheck, volsMade := {ca}))
    ensures NextVolume(t.(pc := ProxyCheck, volsMade := {ca}), Event(Check, true)) == Some(t.(pc := ProxyMake, volsMade := {ca}))
    ensures NextProxy(t.(pc := ProxyMake, volsMade := {ca}), Event(CreateCtr(id, t.plan.sidecar), true))
            == Some(t.(pc := ProxyBridge, volsMade := {ca}, proxyId := id))
  {
    assert {} + {ca} == {ca};
  }

  lemma AbandonSidecar(cfg: Config, n: string, p: Place, evs: seq<Event>, q: Place, id: Id) returns (evs': seq<Event>, q': Place)
    requires Ran(cfg, p, evs) == Some(q) && q.t.Creating? && q.t.plan.name == n
    requires q.t.pc == ProxyBridge && q.t.proxyId == id && q.t.volsMade == {CaVolume(n)} && q.t.netMade && !q.t.proxyMade
    ensures Ran(cfg, p, evs') == Some(q') && q'.st == q.st && q'.t.Creating? && q'.t.pc == Failed
  {
    var ca := CaVolume(n);
    AbandonSidecarNext(cfg, q.t, ca);
    evs', q' := Extend(cfg, p, evs, q, Event(Connect(id, "bridge"), false));
    evs', q' := Extend(cfg, p, evs', q', Event(RemoveId(id), false));
    evs', q' := Extend(cfg, p, evs', q', Event(RemoveVol(ca), false));
    evs', q' := Extend(cfg, p, evs', q', Event(RemoveNet(Net(cfg, n)), false));
  }

  lemma AbandonSidecarNext(cfg: Config, t: Thread, ca: string)
    requires t.Creating? && t.pc == ProxyBridge && t.volsMade == {ca} && t.netMade && !t.proxyMade
    ensures NextProxy(t, Event(Connect(t.proxyId, "bridge"), false)) == Some(t.(pc := ProxyUndo))
    ensures NextProxy(t.(pc := ProxyUndo), Event(RemoveId(t.proxyId), false)) == Some(t.(pc := RollVolume))
    ensures NextRoll(cfg, t.(pc := RollVolume), Event(RemoveVol(ca), false)) == Some(t.(pc := RollNetwork, volsMade := {}))
    ensures NextRoll(cfg, t.(pc := RollNetwork, volsMade := {}), Event(RemoveNet(Net(cfg, t.plan.name)), false))
            == Some(t.(pc := Failed, volsMade := {}, netMade := false))
  {
    assert {ca} - {ca} == {};
  }

  /**
   Names that are not apart: Delete of sandbox n takes the main container of the sandbox
   called "proxy-" plus n for n's sidecar and removes it.
   */
  lemma DeleteTakesNamesake(cfg: Config, n: string, st: State, id: Id, other: Id) returns (evs: seq<Event>, q: Place)
    requires n != "" && id in st.containers && st.containers[id].name == CtrName(n)
    requires Label(st.containers[id].labels, L_NAME) == n
    requires other in st.containers && other != id && st.containers[other].name == CtrName("proxy-" + n)
    ensures Ran(cfg, Place(st, StartDelete(cfg, n, id, st)), evs) == Some(q)
    ensures q.t.Deleting? && other !in q.st.containers
  {
    ProxyIsProxySandbox(n);
    var p, c := Place(st, StartDelete(cfg, n, id, st)), st.containers[id];
    evs, q := Extend(cfg, p, [], p, Event(InspectCtr(id, c), true));
    evs, q := Extend(cfg, p, evs, q, Event(RemoveId(id), true));
    assert other in q.st.containers && NameTaken(q.st, ProxyName(n));
    evs, q := Extend(cfg, p, evs, q, Event(RemoveName(ProxyName(n)), true));
  }

  /** A caller's label that sends Delete to a volume of the caller's choice. */
  lemma HarmfulLabelMisleadsDelete(cfg: Config, req: Request, victim: string)
    requires !req.persist && req.labels == [(L_VOLUME, victim)] && victim != ""
    ensures Label(SandboxLabels(cfg, req), L_VOLUME) == victim && !HarmlessLabels(cfg, req)
  {
    var ls := req.labels;
    assert ls[..0] == [];
    assert L_VOLUME[0] == 'c' && L_VOLUME[|L_VOLUME| - 1] == 'e';
    TrimSpaceFixed(L_VOLUME);
    assert UserLabels(ls) == [(L_VOLUME, victim)];
    SteeringLabel(cfg, req, L_VOLUME);
    var ws := UserLabels(ls);
    assert ws[..0] == [];
    LabelsDiffer();
  }
}
