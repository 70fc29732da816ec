/**
 What the calls of Create and Delete can reach in the engine, and that everything else
 stays as it is: containers, networks and volumes that belong to no sandbox included.
 */
module Frame {
  import opened Names
  import opened Engine
  import opened Sandbox
  import opened Provision
  import opened Runs

  /** Containers by ID or name, networks and volumes. */
  datatype Reach = Reach(ids: set<Id>, ctrs: set<string>, nets: set<string>, vols: set<string>)

  predicate Reached(r: Reach, id: Id, c: Container) {
    id in r.ids || c.name in r.ctrs
  }

  ghost predicate ContainersOutside(r: Reach, cs: map<Id, Container>, cs': map<Id, Container>) {
    && (forall id :: id in cs && !Reached(r, id, cs[id]) ==> id in cs' && cs'[id] == cs[id])
    && (forall id :: id in cs' && !Reached(r, id, cs'[id]) ==> id in cs && cs[id] == cs'[id])
  }

  /** The two states are the same outside of the reach. */
  ghost predicate SameOutside(r: Reach, st: State, st': State) {
    && ContainersOutside(r, st.containers, st'.containers)
    && st'.networks - r.nets == st.networks - r.nets
    && st'.volumes - r.vols == st.volumes - r.vols
  }

  /** Everything named after one of these sandboxes. */
  function ReachOf(cfg: Config, names: set<string>): Reach {
    Reach({}, set n, c | n in names && c in Ctrs(n) :: c, set n | n in names :: Net(cfg, n), set n, v | n in names && v in Vols(n) :: v)
  }

  lemma SameOutsideTrans(r: Reach, a: State, b: State, c: State)
    requires SameOutside(r, a, b) && SameOutside(r, b, c)
    ensures SameOutside(r, a, c)
  {
  }

  // ----- one call -----

  /** The call changes nothing outside of the reach. */
  ghost predicate Inside(r: Reach, st: State, call: Call) {
    match call
    case CreateNet(net, _) => net in r.nets
    case RemoveNet(net) => net in r.nets
    case CreateVol(v) => v in r.vols
    case RemoveVol(v) => v in r.vols
    case CreateCtr(_, c) => c.name in r.ctrs
    case Connect(id, _) => id in st.containers ==> Reached(r, id, st.containers[id])
    case RemoveId(id) => id in st.containers ==> Reached(r, id, st.containers[id])
    case RemoveName(name) => name in r.ctrs
    case _ => true
  }

  lemma InsideContainers(r: Reach, st: State, ev: Event)
    requires WellFormed(st) && Possible(st, ev) && Inside(r, st, ev.call)
    ensures ContainersOutside(r, st.containers, Effect(st, ev).containers)
  {
    if ev.ok {
      match ev.call
      case CreateCtr(id, c) =>
      case Connect(id, net) =>
      case RemoveId(id) =>
      case RemoveName(name) =>
      case _ => assert Effect(st, ev).containers == st.containers;
    }
  }

  lemma InsideStaysOutside(r: Reach, st: State, ev: Event)
    requires WellFormed(st) && Possible(st, ev) && Inside(r, st, ev.call)
    ensures SameOutside(r, st, Effect(st, ev))
  {
    InsideContainers(r, st, ev);
    var st' := Effect(st, ev);
    assert st'.networks - r.nets == st.networks - r.nets;
    assert st'.volumes - r.vols == st.volumes - r.vols;
  }

  // ----- every run -----

  lemma ReachOfOne(cfg: Config, names: set<string>, n: string)
    requires n in names
    ensures var r := ReachOf(cfg, names); Ctrs(n) <= r.ctrs && Net(cfg, n) in r.nets && Vols(n) <= r.vols
  {
  }

  lemma TouchingIsInside(cfg: Config, names: set<string>, n: string, st: State, ev: Event)
    requires n in names && Touching(cfg, n, st, ev)
    ensures Inside(ReachOf(cfg, names), st, ev.call)
  {
    ReachOfOne(cfg, names, n);
  }

  lemma StepStaysOutside(cfg: Config, s: Sys, act: Act)
    requires Inv(cfg, s) && Enabled(cfg, s, act)
    ensures SameOutside(ReachOf(cfg, s.threads.Keys), s.st, After(cfg, s, act).st)
  {
    if act.Call? {
      var names := s.threads.Keys;
      StepTouchesOwn(cfg, act.who, s.st, s.threads[act.who], act.ev);
      TouchingIsInside(cfg, names, act.who, s.st, act.ev);
      InsideStaysOutside(ReachOf(cfg, names), s.st, act.ev);
    }
  }

  /** In every run whatever is not named after one of the sandboxes stays exactly as it is. */
  lemma {:induction false} RunsStayOutside(cfg: Config, s: Sys, acts: seq<Act>)
    requires Inv(cfg, s) && IsRun(cfg, s, acts)
    ensures SameOutside(ReachOf(cfg, s.threads.Keys), s.st, End(cfg, s, acts).st)
    decreases |acts|
  {
    if acts != [] {
      var s' := After(cfg, s, acts[0]);
      InvStep(cfg, s, acts[0]);
      assert s'.threads.Keys == s.threads.Keys;
      StepStaysOutside(cfg, s, acts[0]);
      RunsStayOutside(cfg, s', acts[1..]);
      SameOutsideTrans(ReachOf(cfg, s.threads.Keys), s.st, s'.st, End(cfg, s', acts[1..]).st);
    }
  }

  // ----- a Create, whatever was asked for -----

  lemma CreateStepInside(cfg: Config, n: string, st: State, t: Thread, ev: Event)
    requires t.Creating? && Wired(n, st, t) && NextCreate(cfg, t, ev).Some?
    ensures Inside(ReachOf(cfg, {n}), st, ev.call)
  {
    ReachOfOne(cfg, {n}, n);
  }

  // ----- a sandbox's view and the rest make the whole -----

  lemma ReachOfSingle(cfg: Config, n: string)
    ensures ReachOf(cfg, {n}) == Reach({}, Ctrs(n), {Net(cfg, n)}, Vols(n))
  {
    var r := ReachOf(cfg, {n});
    assert r.ctrs == Ctrs(n) && r.nets == {Net(cfg, n)} && r.vols == Vols(n);
  }

  /** Outside one sandbox's reach nothing changed: the engine is that sandbox's view and the rest as before. */
  lemma WholeEngine(cfg: Config, n: string, st: State, st': State)
    requires SameOutside(ReachOf(cfg, {n}), st, st')
    ensures CtrsOf(n, st'.containers) == CtrsOf(n, st.containers) ==> st'.containers == st.containers
    ensures NetsOf(cfg, n, st'.networks) == NetsOf(cfg, n, st.networks) ==> st'.networks == st.networks
    ensures CtrsOf(n, st'.containers) == map[] ==> st'.containers == map id | id in st.containers && st.containers[id].name !in Ctrs(n) :: st.containers[id]
    ensures NetsOf(cfg, n, st'.networks) == map[] ==> st'.networks == st.networks - {Net(cfg, n)}
    ensures st'.volumes == (st.volumes - Vols(n)) + (st'.volumes * Vols(n))
  {
    ReachOfSingle(cfg, n);
    SameContainers(n, st.containers, st'.containers);
    SameNetworks(cfg, n, st.networks, st'.networks);
  }

  lemma SameContainers(n: string, cs: map<Id, Container>, cs': map<Id, Container>)
    requires ContainersOutside(Reach({}, Ctrs(n), {}, {}), cs, cs')
    ensures CtrsOf(n, cs') == CtrsOf(n, cs) ==> cs' == cs
    ensures CtrsOf(n, cs') == map[] ==> cs' == map id | id in cs && cs[id].name !in Ctrs(n) :: cs[id]
  {
    var r := Reach({}, Ctrs(n), {}, {});
    assert forall id :: id in cs ==> (Reached(r, id, cs[id]) <==> id in CtrsOf(n, cs));
    assert forall id :: id in cs' ==> (Reached(r, id, cs'[id]) <==> id in CtrsOf(n, cs'));
    if CtrsOf(n, cs') == CtrsOf(n, cs) {
      assert forall id :: id in CtrsOf(n, cs) ==> cs[id] == CtrsOf(n, cs)[id] && cs'[id] == CtrsOf(n, cs')[id];
    }
  }

  lemma SameNetworks(cfg: Config, n: string, ns: map<string, Network>, ns': map<string, Network>)
    requires ns' - {Net(cfg, n)} == ns - {Net(cfg, n)}
    ensures NetsOf(cfg, n, ns') == NetsOf(cfg, n, ns) ==> ns' == ns
    ensures NetsOf(cfg, n, ns') == map[] ==> ns' == ns - {Net(cfg, n)}
  {
    var net := Net(cfg, n);
    assert forall k :: k != net ==> (k in ns <==> k in ns - {net}) && (k in ns' <==> k in ns' - {net});
    assert forall k :: k != net && k in ns ==> ns[k] == (ns - {net})[k];
    assert forall k :: k != net && k in ns' ==> ns'[k] == (ns' - {net})[k];
    assert net in ns <==> net in NetsOf(cfg, n, ns);
    assert net in ns' <==> net in NetsOf(cfg, n, ns');
    if NetsOf(cfg, n, ns') == NetsOf(cfg, n, ns) && net in ns {
      assert ns[net] == NetsOf(cfg, n, ns)[net] && ns'[net] == NetsOf(cfg, n, ns')[net];
    }
  }
}
