/**
 Delete finds everything of its sandbox again through the labels that Create recorded,
 removes all of it and nothing else.
 */
module Deletion {
  import opened Names
  import opened Engine
  import opened Sandbox
  import opened Provision
  import opened Runs
  import opened Frame

  /** Only containers of sandbox n use its network and volumes. */
  ghost predicate OnlyOwnUse(cfg: Config, n: string, st: State) {
    forall id :: id in st.containers && st.containers[id].name !in Ctrs(n) ==>
      Net(cfg, n) !in st.containers[id].networks && st.containers[id].volumes !! Vols(n)
  }

  lemma OnlyOwnUseStays(cfg: Config, n: string, m: string, st: State, ev: Event)
    requires (m == n || Apart(m, n)) && KeepsOff(n, Call(m, ev)) && OnlyOwnUse(cfg, n, st) && Touching(cfg, m, st, ev)
    ensures OnlyOwnUse(cfg, n, Effect(st, ev))
  {
    OwnNamesDiffer(cfg.netPrefix, n);
    if m != n {
      ApartNames(cfg.netPrefix, m, n);
    }
  }

  function Rank(dpc: DeletePc): nat {
    match dpc
    case FindMain => 0
    case DropMain => 1
    case DropProxy => 2
    case DropNetwork => 3
    case DropData => 4
    case DropCa => 5
    case DropSsh => 6
    case Deleted => 7
  }

  function Named(labels: map<string, string>, k: string): set<string> {
    if Label(labels, k) == "" then {} else {Label(labels, k)}
  }

  /** The volumes that Delete has dealt with on reaching a step. */
  function Dropped(rank: nat, labels: map<string, string>): set<string> {
    (if rank > 4 then Named(labels, L_VOLUME) else {})
    + (if rank > 5 then Named(labels, L_CA) else {})
    + (if rank > 6 then Named(labels, L_SSH_VOLUME) else {})
  }

  /** The container to delete is the sandbox's main one and carries its name and network. */
  ghost predicate Target(cfg: Config, n: string, before: View, id: Id) {
    && id in before.containers && before.containers[id].name == CtrName(n)
    && Label(before.containers[id].labels, L_NAME) == n
    && Label(before.containers[id].labels, L_NETWORK) == Net(cfg, n)
  }

  ghost predicate Progress(cfg: Config, n: string, st: State, t: Thread)
    requires t.Deleting?
  {
    var now, rank := ViewOf(cfg, n, st), Rank(t.dpc);
    && Target(cfg, n, t.before, t.id)
    && (rank > 0 ==> t.labels == t.before.containers[t.id].labels)
    && now.containers == (if rank <= 1 then t.before.containers else if rank == 2 then t.before.containers - {t.id} else map[])
    && (rank == 2 ==> forall j :: j in now.containers ==> now.containers[j].name == ProxyName(n))
    && now.networks == (if rank <= 3 then t.before.networks else map[])
    && now.volumes == t.before.volumes - Dropped(rank, t.labels)
  }

  lemma MainGoes(n: string, st: State, id: Id)
    requires WellFormed(st) && id in st.containers && st.containers[id].name == CtrName(n)
    ensures CtrsOf(n, st.containers - {id}) == CtrsOf(n, st.containers) - {id}
    ensures forall j :: j in CtrsOf(n, st.containers - {id}) ==> st.containers[j].name == ProxyName(n)
    ensures CtrsOf(n, WithoutName(st.containers - {id}, ProxyName(n))) == map[]
  {
  }

  lemma ProxyGoes(n: string, st: State)
    requires forall j :: j in CtrsOf(n, st.containers) ==> st.containers[j].name == ProxyName(n)
    ensures CtrsOf(n, WithoutName(st.containers, ProxyName(n))) == map[]
    ensures !NameTaken(st, ProxyName(n)) ==> CtrsOf(n, st.containers) == map[]
  {
    assert forall j :: j in CtrsOf(n, st.containers) ==> j in st.containers && NameTaken(st, st.containers[j].name);
  }

  /** With no container of n left, nothing uses its network or volumes. */
  lemma NothingInUse(cfg: Config, n: string, st: State)
    requires OnlyOwnUse(cfg, n, st) && CtrsOf(n, st.containers) == map[]
    ensures !NetworkInUse(st, Net(cfg, n))
    ensures forall v :: v in Vols(n) ==> !VolumeInUse(st, v)
  {
    forall id | id in st.containers ensures st.containers[id].name !in Ctrs(n) {
      assert id !in CtrsOf(n, st.containers);
    }
  }

  lemma DeleteMoves(n: string, t: Thread, ev: Event)
    requires t.Deleting? && NextDelete(t, ev).Some? && Label(t.labels, L_NAME) != "" && Label(t.labels, L_NETWORK) != ""
    requires t.dpc != FindMain
    requires t.dpc == DropData ==> Label(t.labels, L_VOLUME) != ""
    requires t.dpc == DropCa ==> Label(t.labels, L_CA) != ""
    requires t.dpc == DropSsh ==> Label(t.labels, L_SSH_VOLUME) != ""
    ensures var t' := NextDelete(t, ev).value;
            && t'.Deleting? && t'.id == t.id && t'.before == t.before && t'.labels == t.labels
            && (t.dpc == DropMain ==> t'.dpc == DropProxy && ev.call == RemoveId(t.id))
            && (t.dpc == DropProxy ==> t'.dpc == DropNetwork && ev.call == RemoveName(ProxyName(Label(t.labels, L_NAME))))
            && (t.dpc == DropNetwork ==> Rank(t'.dpc) >= 4 && ev.call == RemoveNet(Label(t.labels, L_NETWORK)) && Dropped(Rank(t'.dpc), t.labels) == {})
            && (Rank(t.dpc) >= 4 ==>
                  && ev.call.RemoveVol? && Rank(t'.dpc) >= 5
                  && Dropped(Rank(t'.dpc), t.labels) == Dropped(Rank(t.dpc), t.labels) + {ev.call.oldVol})
  {
  }

  /** Progress speaks of the sandbox's view alone. */
  lemma SameViewProgress(cfg: Config, n: string, st: State, st': State, t: Thread)
    requires t.Deleting? && Progress(cfg, n, st, t) && ViewOf(cfg, n, st') == ViewOf(cfg, n, st)
    ensures Progress(cfg, n, st', t)
  {
  }

  lemma MainProgress(cfg: Config, n: string, st: State, t: Thread, ev: Event)
    requires WellFormed(st) && t.Deleting? && Rank(t.dpc) <= 1 && Progress(cfg, n, st, t)
    requires n != "" && Net(cfg, n) != ""
    requires Possible(st, ev) && Honest(st, ev) && NextDelete(t, ev).Some?
    ensures NextDelete(t, ev).value.Deleting? && Progress(cfg, n, Effect(st, ev), NextDelete(t, ev).value)
  {
    assert t.id in CtrsOf(n, st.containers);
    if t.dpc == FindMain {
      assert ev.ok && Effect(st, ev) == st;
    } else {
      DeleteMoves(n, t, ev);
      MainGoes(n, st, t.id);
    }
  }

  lemma ProxyProgress(cfg: Config, n: string, st: State, t: Thread, ev: Event)
    requires t.Deleting? && t.dpc == DropProxy && Progress(cfg, n, st, t) && n != "" && Net(cfg, n) != ""
    requires Possible(st, ev) && Honest(st, ev) && NextDelete(t, ev).Some?
    ensures NextDelete(t, ev).value.Deleting? && Progress(cfg, n, Effect(st, ev), NextDelete(t, ev).value)
  {
    DeleteMoves(n, t, ev);
    assert CtrsOf(n, st.containers) == ViewOf(cfg, n, st).containers;
    assert forall j :: j in CtrsOf(n, st.containers) ==> st.containers[j].name == ProxyName(n);
    ProxyGoes(n, st);
  }

  lemma RestProgress(cfg: Config, n: string, st: State, t: Thread, ev: Event)
    requires OnlyOwnUse(cfg, n, st) && t.Deleting? && Rank(t.dpc) > 2
    requires ThreadInv(cfg, st, n, t) && Progress(cfg, n, st, t) && n != "" && Net(cfg, n) != ""
    requires Possible(st, ev) && Honest(st, ev) && NextDelete(t, ev).Some?
    ensures NextDelete(t, ev).value.Deleting? && Progress(cfg, n, Effect(st, ev), NextDelete(t, ev).value)
  {
    DeleteMoves(n, t, ev);
    NothingInUse(cfg, n, st);
    var st' := Effect(st, ev);
    if t.dpc == DropNetwork {
      assert NetsOf(cfg, n, st'.networks) == map[];
    } else {
      assert st'.volumes * Vols(n) == st.volumes * Vols(n) - {ev.call.oldVol};
    }
  }

  lemma OwnStepProgress(cfg: Config, n: string, st: State, t: Thread, ev: Event)
    requires WellFormed(st) && OnlyOwnUse(cfg, n, st)
    requires t.Deleting? && ThreadInv(cfg, st, n, t) && Progress(cfg, n, st, t) && n != ""
    requires Possible(st, ev) && Honest(st, ev) && NextDelete(t, ev).Some? && Net(cfg, n) != ""
    ensures NextDelete(t, ev).value.Deleting? && Progress(cfg, n, Effect(st, ev), NextDelete(t, ev).value)
  {
    if Rank(t.dpc) <= 1 {
      MainProgress(cfg, n, st, t, ev);
    } else if t.dpc == DropProxy {
      ProxyProgress(cfg, n, st, t, ev);
    } else {
      RestProgress(cfg, n, st, t, ev);
    }
  }

  lemma NextKeepsTarget(n: string, t: Thread, ev: Event)
    requires t.Deleting? && NextDelete(t, ev).Some?
    ensures var t' := NextDelete(t, ev).value; t'.Deleting? && t'.before == t.before && t'.id == t.id
  {
  }

  lemma CallProgress(cfg: Config, s: Sys, who: string, ev: Event, n: string)
    requires Inv(cfg, s) && n in s.threads && Enabled(cfg, s, Call(who, ev)) && OnlyOwnUse(cfg, n, s.st)
    requires s.threads[n].Deleting? && Progress(cfg, n, s.st, s.threads[n]) && n != "" && Net(cfg, n) != ""
    requires (who == n ==> Honest(s.st, ev)) && KeepsOff(n, Call(who, ev))
    ensures OnlyOwnUse(cfg, n, Effect(s.st, ev))
    ensures who == n ==> NextDelete(s.threads[n], ev).Some? && NextDelete(s.threads[n], ev).value.Deleting?
                         && Progress(cfg, n, Effect(s.st, ev), NextDelete(s.threads[n], ev).value)
    ensures who != n ==> Progress(cfg, n, Effect(s.st, ev), s.threads[n])
  {
    var t := s.threads[n];
    StepTouchesOwn(cfg, who, s.st, s.threads[who], ev);
    OnlyOwnUseStays(cfg, n, who, s.st, ev);
    if who == n {
      OwnStepProgress(cfg, n, s.st, t, ev);
    } else {
      TouchingLeavesOthers(cfg, who, n, s.st, ev);
      SameViewProgress(cfg, n, s.st, Effect(s.st, ev), t);
    }
  }

  lemma StepProgress(cfg: Config, s: Sys, act: Act, n: string)
    requires Inv(cfg, s) && n in s.threads && Enabled(cfg, s, act) && OnlyOwnUse(cfg, n, s.st)
    requires s.threads[n].Deleting? && Progress(cfg, n, s.st, s.threads[n]) && n != "" && Net(cfg, n) != ""
    requires (act.who == n ==> act.Call? && Honest(s.st, act.ev)) && KeepsOff(n, act)
    ensures var s' := After(cfg, s, act);
            n in s'.threads && s'.threads[n].Deleting? && Progress(cfg, n, s'.st, s'.threads[n]) && OnlyOwnUse(cfg, n, s'.st)
            && s'.threads[n].before == s.threads[n].before && s'.threads[n].id == s.threads[n].id
  {
    if act.Call? {
      CallProgress(cfg, s, act.who, act.ev, n);
      if act.who == n {
        NextKeepsTarget(n, s.threads[n], act.ev);
      }
    }
  }

  /** Sandbox n makes only the calls of its running Delete, all answered honestly. */
  ghost predicate HonestDelete(cfg: Config, n: string, s: Sys, acts: seq<Act>)
    requires IsRun(cfg, s, acts)
    decreases |acts|
  {
    acts != [] ==>
      && (acts[0].who == n ==> acts[0].Call? && Honest(s.st, acts[0].ev))
      && HonestDelete(cfg, n, After(cfg, s, acts[0]), acts[1..])
  }

  /**
   Delete is complete: in every run, when it ends there is no container and no network
   of the sandbox left, and of its volumes just those that its labels do not name. Nothing
   outside of the sandboxes' names changed.
   */
  lemma {:induction false} DeleteIsComplete(cfg: Config, s: Sys, acts: seq<Act>, n: string)
    requires Inv(cfg, s) && IsRun(cfg, s, acts) && HonestDelete(cfg, n, s, acts) && AllKeepOff(n, acts)
    requires n in s.threads && s.threads[n].Deleting? && Progress(cfg, n, s.st, s.threads[n])
    requires OnlyOwnUse(cfg, n, s.st) && n != "" && Net(cfg, n) != ""
    ensures var s' := End(cfg, s, acts);
            var before, id := s.threads[n].before, s.threads[n].id;
            && n in s'.threads && s'.threads[n].Deleting?
            && (s'.threads[n].dpc == Deleted ==>
                  id in before.containers &&
                  ViewOf(cfg, n, s'.st) == View(map[], map[], before.volumes - Dropped(7, before.containers[id].labels)))
    ensures SameOutside(ReachOf(cfg, s.threads.Keys), s.st, End(cfg, s, acts).st)
    decreases |acts|
  {
    RunsStayOutside(cfg, s, acts);
    if acts != [] {
      InvStep(cfg, s, acts[0]);
      StepProgress(cfg, s, acts[0], n);
      DeleteIsComplete(cfg, After(cfg, s, acts[0]), acts[1..], n);
    }
  }

  /** The labels of a created sandbox name its own volumes, all of them and no others. */
  lemma CreatedLabelsNameOwnVolumes(cfg: Config, req: Request)
    requires HarmlessLabels(cfg, req)
    ensures Dropped(7, SandboxLabels(cfg, req)) == OwnVolumes(req)
    ensures Label(SandboxLabels(cfg, req), L_NAME) == req.name
    ensures Label(SandboxLabels(cfg, req), L_NETWORK) == Net(cfg, req.name)
  {
    LabelsSteerDelete(cfg, req);
    var m := SandboxLabels(cfg, req);
    assert SteersToOwn(cfg, req, m);
    assert Label(m, L_NAME) == Expected(cfg, req, L_NAME);
    assert Label(m, L_NETWORK) == Expected(cfg, req, L_NETWORK);
    assert Label(m, L_VOLUME) == Expected(cfg, req, L_VOLUME);
    assert Label(m, L_CA) == Expected(cfg, req, L_CA);
    assert Label(m, L_SSH_VOLUME) == Expected(cfg, req, L_SSH_VOLUME);
    LabelsDiffer();
  }

  // ----- what every reachable state supplies -----

  /** While no other sandbox mounts n's volumes, only n's containers come to use its network and volumes. */
  lemma {:induction false} RunsKeepOwnUse(cfg: Config, s: Sys, acts: seq<Act>, n: string)
    requires Inv(cfg, s) && IsRun(cfg, s, acts) && AllKeepOff(n, acts) && n in s.threads && OnlyOwnUse(cfg, n, s.st)
    ensures OnlyOwnUse(cfg, n, End(cfg, s, acts).st)
    decreases |acts|
  {
    if acts != [] {
      var act := acts[0];
      InvStep(cfg, s, act);
      if act.Call? {
        StepTouchesOwn(cfg, act.who, s.st, s.threads[act.who], act.ev);
        OnlyOwnUseStays(cfg, n, act.who, s.st, act.ev);
      }
      RunsKeepOwnUse(cfg, After(cfg, s, act), acts[1..], n);
    }
  }

  /** The container of a finished Create is in the engine. */
  ghost predicate MadeIsThere(st: State, t: Thread) {
    t.Creating? && t.pc == Made ==> exists id :: id in st.containers && st.containers[id] == t.plan.main
  }

  lemma OwnCallMakes(cfg: Config, st: State, t: Thread, ev: Event)
    requires t.Creating? && Possible(st, ev) && NextCreate(cfg, t, ev).Some?
    ensures SamePlan(t, NextCreate(cfg, t, ev).value) && MadeIsThere(Effect(st, ev), NextCreate(cfg, t, ev).value)
  {
    NextKeepsPlan(cfg, t, ev);
    if NextCreate(cfg, t, ev).value.pc == Made {
      OnlyMainMakes(cfg, t, ev);
      assert ev.call.newId in Effect(st, ev).containers;
    }
  }

  lemma OnlyMainMakes(cfg: Config, t: Thread, ev: Event)
    requires t.Creating? && NextCreate(cfg, t, ev).Some? && NextCreate(cfg, t, ev).value.pc == Made
    ensures ev.ok && ev.call.CreateCtr? && ev.call.ctr == t.plan.main
  {
  }

  /** It stays there until the sandbox's next step, whatever the others do. */
  lemma OtherCallKeepsMade(cfg: Config, s: Sys, act: Act, n: string)
    requires Inv(cfg, s) && Enabled(cfg, s, act) && act.who != n && n in s.threads && s.threads[n].Creating?
    requires MadeIsThere(s.st, s.threads[n])
    ensures MadeIsThere(After(cfg, s, act).st, s.threads[n])
  {
    StepLeavesOthers(cfg, s, act, n);
    var t, st' := s.threads[n], After(cfg, s, act).st;
    if t.pc == Made {
      assert t.plan.main.name == CtrName(n);
      var id :| id in s.st.containers && s.st.containers[id] == t.plan.main;
      assert id in CtrsOf(n, s.st.containers);
      assert id in CtrsOf(n, st'.containers) && CtrsOf(n, st'.containers)[id] == CtrsOf(n, s.st.containers)[id];
    }
  }

  lemma CreatingStepKeepsPlan(cfg: Config, s: Sys, act: Act, n: string)
    requires Inv(cfg, s) && Enabled(cfg, s, act) && (act.who == n ==> act.Call?)
    requires n in s.threads && s.threads[n].Creating? && MadeIsThere(s.st, s.threads[n])
    ensures var s' := After(cfg, s, act);
            n in s'.threads && SamePlan(s.threads[n], s'.threads[n]) && MadeIsThere(s'.st, s'.threads[n])
  {
    if act.who == n {
      OwnCallMakes(cfg, s.st, s.threads[n], act.ev);
    } else {
      OtherCallKeepsMade(cfg, s, act, n);
    }
  }

  lemma {:induction false} CreatingRunKeepsPlan(cfg: Config, s: Sys, acts: seq<Act>, n: string)
    requires Inv(cfg, s) && IsRun(cfg, s, acts) && OnlyCalls(n, acts)
    requires n in s.threads && s.threads[n].Creating? && MadeIsThere(s.st, s.threads[n])
    ensures var s' := End(cfg, s, acts);
            n in s'.threads && SamePlan(s.threads[n], s'.threads[n]) && MadeIsThere(s'.st, s'.threads[n])
    decreases |acts|
  {
    if acts != [] {
      InvStep(cfg, s, acts[0]);
      CreatingStepKeepsPlan(cfg, s, acts[0], n);
      CreatingRunKeepsPlan(cfg, After(cfg, s, acts[0]), acts[1..], n);
    }
  }

  // ----- Create, then Delete -----

  /** A run from one state to another. */
  ghost predicate Leads(cfg: Config, s: Sys, acts: seq<Act>, s': Sys) {
    IsRun(cfg, s, acts) && End(cfg, s, acts) == s'
  }

  /** Create of the request runs from idle to Made, among any steps of other sandboxes. */
  ghost predicate Creates(cfg: Config, req: Request, s: Sys, acts: seq<Act>, made: Sys) {
    && Enabled(cfg, s, BeginCreate(req.name, req))
    && Leads(cfg, After(cfg, s, BeginCreate(req.name, req)), acts, made) && OnlyCalls(req.name, acts)
    && req.name in made.threads && made.threads[req.name].Creating? && made.threads[req.name].pc == Made
  }

  /** Delete of the container runs to its end with honest answers, among any steps of others. */
  ghost predicate Deletes(cfg: Config, n: string, id: Id, s: Sys, acts: seq<Act>, deleted: Sys) {
    && Enabled(cfg, s, BeginDelete(n, id))
    && Leads(cfg, After(cfg, s, BeginDelete(n, id)), acts, deleted)
    && HonestDelete(cfg, n, After(cfg, s, BeginDelete(n, id)), acts)
    && n in deleted.threads && deleted.threads[n].Deleting? && deleted.threads[n].dpc == Deleted
  }

  /** After a finished Create the container under the sandbox's name is the one that was asked for. */
  lemma CreatedContainer(cfg: Config, req: Request, s: Sys, creating: seq<Act>, made: Sys, id: Id)
    requires Inv(cfg, s) && Creates(cfg, req, s, creating, made)
    requires id in made.st.containers && made.st.containers[id].name == CtrName(req.name)
    ensures Inv(cfg, made) && made.st.containers[id] == SandboxContainer(cfg, req) && HarmlessLabels(cfg, req)
  {
    var begun := After(cfg, s, BeginCreate(req.name, req));
    InvStep(cfg, s, BeginCreate(req.name, req));
    RunsKeepInv(cfg, begun, creating);
    CreatingRunKeepsPlan(cfg, begun, creating, req.name);
    assert made.threads[req.name].plan == PlanOf(cfg, req);
    var main :| main in made.st.containers && made.st.containers[main] == SandboxContainer(cfg, req);
    assert made.st.containers[main].name == CtrName(req.name);
    assert main == id;
  }

  /**
   Create then Delete. Let any sandboxes do anything, let n's Create succeed and then an
   honest Delete of its container end, all interleaved with any steps of the others that
   mount no volume of n. Then n has no container and no network left, of its volumes exactly
   those of the request are gone, and nothing outside of the sandboxes' names is changed from
   the start.
   */
  lemma CreateThenDelete(cfg: Config, start: Sys, earlier: seq<Act>, s: Sys, req: Request, creating: seq<Act>, made: Sys,
                         id: Id, deleting: seq<Act>, deleted: Sys)
    requires Inv(cfg, start) && OnlyOwnUse(cfg, req.name, start.st) && req.name != ""
    requires Leads(cfg, start, earlier, s) && Creates(cfg, req, s, creating, made)
    requires id in made.st.containers && made.st.containers[id].name == CtrName(req.name)
    requires Deletes(cfg, req.name, id, made, deleting, deleted)
    requires AllKeepOff(req.name, earlier) && AllKeepOff(req.name, creating) && AllKeepOff(req.name, deleting)
    ensures ViewOf(cfg, req.name, deleted.st) == View(map[], map[], made.st.volumes * Vols(req.name) - OwnVolumes(req))
    ensures deleted.st.volumes !! OwnVolumes(req)
    ensures SameOutside(ReachOf(cfg, start.threads.Keys), start.st, deleted.st)
  {
    var n, names := req.name, start.threads.Keys;
    RunsKeepInv(cfg, start, earlier);
    assert n in s.threads && s.threads.Keys == names;
    RunsKeepOwnUse(cfg, start, earlier, n);
    RunsStayOutside(cfg, start, earlier);
    UpToMade(cfg, req, s, creating, made);
    CreatedContainer(cfg, req, s, creating, made, id);
    AfterMade(cfg, req, made, id, deleting, deleted);
    var r := ReachOf(cfg, names);
    SameOutsideTrans(r, start.st, s.st, made.st);
    SameOutsideTrans(r, start.st, made.st, deleted.st);
  }

  /** An engine without sandboxes, whatever other containers it runs, is such a start. */
  lemma FirstSandboxes(cfg: Config, names: set<string>, st: State, n: string)
    requires AllApart(names) && WellFormed(st)
    requires forall id, m :: id in st.containers && m in names ==> st.containers[id].name !in Ctrs(m)
    requires forall id :: id in st.containers ==> Net(cfg, n) !in st.containers[id].networks && st.containers[id].volumes !! Vols(n)
    ensures Inv(cfg, Sys(st, AllIdle(names))) && OnlyOwnUse(cfg, n, st)
  {
    assert AllIdle(names).Keys == names;
  }

  lemma UpToMade(cfg: Config, req: Request, s: Sys, creating: seq<Act>, made: Sys)
    requires Inv(cfg, s) && Creates(cfg, req, s, creating, made) && OnlyOwnUse(cfg, req.name, s.st)
    requires AllKeepOff(req.name, creating)
    ensures OnlyOwnUse(cfg, req.name, made.st) && made.threads.Keys == s.threads.Keys
    ensures SameOutside(ReachOf(cfg, s.threads.Keys), s.st, made.st)
  {
    var begun := After(cfg, s, BeginCreate(req.name, req));
    InvStep(cfg, s, BeginCreate(req.name, req));
    assert begun.threads.Keys == s.threads.Keys && begun.st == s.st;
    RunsKeepInv(cfg, begun, creating);
    RunsKeepOwnUse(cfg, begun, creating, req.name);
    RunsStayOutside(cfg, begun, creating);
  }

  lemma AfterMade(cfg: Config, req: Request, made: Sys, id: Id, deleting: seq<Act>, deleted: Sys)
    requires Inv(cfg, made) && OnlyOwnUse(cfg, req.name, made.st) && HarmlessLabels(cfg, req) && req.name != ""
    requires id in made.st.containers && made.st.containers[id] == SandboxContainer(cfg, req)
    requires Deletes(cfg, req.name, id, made, deleting, deleted) && AllKeepOff(req.name, deleting)
    ensures ViewOf(cfg, req.name, deleted.st) == View(map[], map[], made.st.volumes * Vols(req.name) - OwnVolumes(req))
    ensures deleted.st.volumes !! OwnVolumes(req)
    ensures SameOutside(ReachOf(cfg, made.threads.Keys), made.st, deleted.st)
  {
    var n := req.name;
    var c, begun := SandboxContainer(cfg, req), After(cfg, made, BeginDelete(n, id));
    InvStep(cfg, made, BeginDelete(n, id));
    assert begun.threads.Keys == made.threads.Keys && begun.st == made.st;
    CreatedLabelsNameOwnVolumes(cfg, req);
    assert c.name == CtrName(n) && c.labels == SandboxLabels(cfg, req);
    StartsProgress(cfg, n, made.st, id, c);
    assert |Net(cfg, n)| > 0;
    DeleteIsComplete(cfg, begun, deleting, n);
    assert ViewOf(cfg, n, deleted.st).volumes == deleted.st.volumes * Vols(n);
    assert OwnVolumes(req) <= Vols(n);
    forall v | v in OwnVolumes(req)
      ensures v !in deleted.st.volumes
    {
      assert v in Vols(n) && v !in ViewOf(cfg, n, deleted.st).volumes;
    }
  }

  lemma StartsProgress(cfg: Config, n: string, st: State, id: Id, c: Container)
    requires id in st.containers && st.containers[id] == c && c.name == CtrName(n)
    requires Label(c.labels, L_NAME) == n && Label(c.labels, L_NETWORK) == Net(cfg, n)
    ensures Progress(cfg, n, st, StartDelete(cfg, n, id, st))
    ensures StartDelete(cfg, n, id, st).before.containers[id] == c
  {
    assert id in CtrsOf(n, st.containers) && CtrsOf(n, st.containers)[id] == c;
  }
}
