/**
 How Create assembles the sandbox container step by step: environment, labels, binds.
 */
module Assembly {
  import opened GoStrings
  import opened Names
  import opened Environment
  import opened Engine
  import opened Sandbox
  import opened Binds
  import DriverConfig

  lemma MergeMore(base: seq<string>, done: seq<(string, string)>, more: seq<(string, string)>)
    ensures Merged(Merged(base + Rendered(done)) + Rendered(more)) == Merged(base + Rendered(done + more))
  {
    MergeAbsorbsLeft(base + Rendered(done), Rendered(more));
    assert base + Rendered(done) + Rendered(more) == base + Rendered(done + more);
  }

  method BuildEnv(cfg: Config, req: Request) returns (env: seq<string>)
    ensures env == SandboxEnv(cfg, req)
  {
    env := FilterIdentityEnv(req.env);
    ghost var base, done := env, IdentityVars(req);
    env := MergeEnv(env, Rendered(IdentityVars(req)));
    env, done := MergeWhen(env, ProxyVars(cfg, req), base, done);
    env, done := MergeWhen(env, CaVars(cfg, req), base, done);
    env, done := MergeWhen(env, DataVars(cfg, req), base, done);
    env, done := MergeWhen(env, OwnershipVars(cfg, req), base, done);
    env, done := MergeWhen(env, PolicyVars(req), base, done);
    env, done := MergeWhen(env, RelayVars(cfg, req), base, done);
    env, done := MergeWhen(env, ControlVars(cfg, req), base, done);
    env, done := MergeWhen(env, DisplayVars(cfg, req), base, done);
  }

  /** One optional group of variables; an option that is off has none. */
  method MergeWhen(env: seq<string>, vars: seq<(string, string)>, ghost base: seq<string>, ghost done: seq<(string, string)>)
    returns (env': seq<string>, ghost done': seq<(string, string)>)
    requires env == Merged(base + Rendered(done))
    ensures done' == done + vars && env' == Merged(base + Rendered(done'))
  {
    env', done' := env, done + vars;
    if |vars| > 0 {
      env' := MergeEnv(env, Rendered(vars));
      MergeMore(base, done, vars);
    } else {
      assert done' == done;
    }
  }

  method BuildLabels(cfg: Config, req: Request) returns (labels: map<string, string>)
    ensures labels == SandboxLabels(cfg, req)
  {
    ghost var first := FirstLabels(cfg, req);
    assert [] + first == first;
    labels := Write(map[], FirstLabels(cfg, req), []);
    labels := WriteUser(labels, req.labels, first);
    labels := Write(labels, LateLabels(cfg, req), first + UserLabels(req.labels));
  }

  lemma WrittenSnoc(ws: seq<(string, string)>, w: (string, string))
    ensures Written(ws + [w]) == Written(ws)[w.0 := w.1]
  {
    assert (ws + [w])[..|ws|] == ws;
  }

  /** The caller's labels: keys trimmed, empty keys skipped. */
  method WriteUser(labels0: map<string, string>, ls: seq<(string, string)>, ghost done: seq<(string, string)>)
    returns (labels: map<string, string>)
    requires labels0 == Written(done)
    ensures labels == Written(done + UserLabels(ls))
  {
    labels := labels0;
    assert done + UserLabels(ls[..0]) == done;
    for i := 0 to |ls|
      invariant labels == Written(done + UserLabels(ls[..i]))
    {
      var k := TrimSpace(ls[i].0);
      ghost var so := ls[..i + 1];
      assert so[..i] == ls[..i];
      if k == "" {
        continue;
      }
      assert done + UserLabels(so) == done + UserLabels(ls[..i]) + [(k, ls[i].1)];
      WrittenSnoc(done + UserLabels(ls[..i]), (k, ls[i].1));
      labels := labels[k := ls[i].1];
    }
    assert ls[..|ls|] == ls;
  }

  /** Write a group of labels one by one. */
  method Write(labels0: map<string, string>, ws: seq<(string, string)>, ghost done: seq<(string, string)>)
    returns (labels: map<string, string>)
    requires labels0 == Written(done)
    ensures labels == Written(done + ws)
  {
    labels := labels0;
    assert done + ws[..0] == done;
    for i := 0 to |ws|
      invariant labels == Written(done + ws[..i])
    {
      assert done + ws[..i + 1] == done + ws[..i] + [ws[i]];
      WrittenSnoc(done + ws[..i], ws[i]);
      labels := labels[ws[i].0 := ws[i].1];
    }
    assert ws[..|ws|] == ws;
  }

  // ----- binds and the volumes they name -----

  /** The volume an engine reads out of a bind: its source, unless that is a host path. */
  function NamedIn(bind: string): set<string> {
    var p := ParseBind(bind);
    if p.None? || (p.value.source != "" && p.value.source[0] == '/') then {} else {p.value.source}
  }

  function NamedVolumes(binds: seq<string>): set<string> {
    if binds == [] then {} else NamedVolumes(binds[..|binds| - 1]) + NamedIn(binds[|binds| - 1])
  }

  lemma {:induction false} NamedConcat(a: seq<string>, b: seq<string>)
    ensures NamedVolumes(a + b) == NamedVolumes(a) + NamedVolumes(b)
  {
    if b == [] {
      assert a + b == a;
    } else {
      NamedConcat(a, b[..|b| - 1]);
      assert (a + b)[..|a + b| - 1] == a + b[..|b| - 1];
    }
  }

  lemma NamedSingle(bind: string)
    ensures NamedVolumes([bind]) == NamedIn(bind)
  {
    assert [bind][..0] == [];
  }

  predicate HostPath(p: string) {
    p != "" && p[0] == '/'
  }

  /** A bind of a host path names no volume, whatever else it says. */
  lemma HostBindNamesNone(source: string, target: string, options: string)
    requires HostPath(source) && ':' !in options
    ensures NamedVolumes([Bind(source, target, options)]) == {}
  {
    BindRoundTrip(source, target, options);
    NamedSingle(Bind(source, target, options));
  }

  lemma VolumeBindNamesIt(source: string, target: string, options: string)
    requires !HostPath(source) && ':' !in source && ':' !in target && ':' !in options
    ensures NamedVolumes([Bind(source, target, options)]) == {source}
  {
    BindRoundTrip(source, target, options);
    NamedSingle(Bind(source, target, options));
  }

  /** The host paths that are used are absolute, and no name or guest path of a volume holds a colon. */
  predicate PathsFit(cfg: Config, req: Request) {
    && ':' !in req.name && ':' !in cfg.guest.caDir && ':' !in cfg.guest.data && ':' !in cfg.sshDir
    && HostPath(req.workspace)
    && (WithInit(req) ==> HostPath(req.initBin) && (req.policyPath != "" ==> HostPath(req.policyPath)))
    && (WithSupervisor(req) ==> HostPath(req.supervisorBin))
    && (req.enableSsh ==> HostPath(req.sshBin))
  }

  lemma OwnVolumeBinds(cfg: Config, req: Request)
    requires PathsFit(cfg, req)
    ensures NamedVolumes(CaBinds(cfg, req)) == if WithProxy(req) then {CaVolume(req.name)} else {}
    ensures NamedVolumes(DataBinds(cfg, req)) == if req.persist then {DataVolume(req.name)} else {}
  {
    assert CaVolume(req.name)[0] == 'c' && DataVolume(req.name)[0] == 'c';
    VolumeBindNamesIt(CaVolume(req.name), cfg.guest.caDir, "ro");
    VolumeBindNamesIt(DataVolume(req.name), cfg.guest.data, "rw");
  }

  lemma SshVolumeBinds(cfg: Config, req: Request)
    requires PathsFit(cfg, req)
    ensures NamedVolumes(SshBinds(cfg, req)) == if req.enableSsh then {SshVolume(req.name)} else {}
  {
    if req.enableSsh {
      assert SshVolume(req.name)[0] == 'c';
      var host, vol := Bind(req.sshBin, cfg.guest.sshd, "ro"), Bind(SshVolume(req.name), cfg.sshDir, "rw");
      HostBindNamesNone(req.sshBin, cfg.guest.sshd, "ro");
      VolumeBindNamesIt(SshVolume(req.name), cfg.sshDir, "rw");
      NamedConcat([host], [vol]);
      assert SshBinds(cfg, req) == [host] + [vol];
    }
  }

  lemma HostBindsNameNone(req: Request)
    requires WithInit(req) ==> HostPath(req.initBin) && (req.policyPath != "" ==> HostPath(req.policyPath))
    requires WithSupervisor(req) ==> HostPath(req.supervisorBin)
    ensures NamedVolumes(InitBinds(req)) == {} && NamedVolumes(PolicyBinds(req)) == {} && NamedVolumes(SupervisorBinds(req)) == {}
  {
    if WithInit(req) {
      HostBindNamesNone(req.initBin, "/cauteum-haven/cauteum-init", "ro");
      if req.policyPath != "" {
        HostBindNamesNone(req.policyPath, "/cauteum/policy.yaml", "ro");
      }
    }
    if WithSupervisor(req) {
      HostBindNamesNone(req.supervisorBin, "/cauteum-haven/cauteum-supervisor", "ro");
    }
  }

  /** Eight groups of binds, four of them of host paths. */
  lemma NamedOfGroups(ws: seq<string>, driver: seq<string>, ca: seq<string>, data: seq<string>,
                      e: seq<string>, f: seq<string>, g: seq<string>, ssh: seq<string>)
    requires NamedVolumes(ws) == {} && NamedVolumes(e) == {} && NamedVolumes(f) == {} && NamedVolumes(g) == {}
    ensures NamedVolumes(ws + driver + ca + data + e + f + g + ssh) ==
            NamedVolumes(ca) + NamedVolumes(ssh) + NamedVolumes(data) + NamedVolumes(driver)
  {
    NamedConcat(ws, driver);
    NamedConcat(ws + driver, ca);
    NamedConcat(ws + driver + ca, data);
    NamedConcat(ws + driver + ca + data, e);
    NamedConcat(ws + driver + ca + data + e, f);
    NamedConcat(ws + driver + ca + data + e + f, g);
    NamedConcat(ws + driver + ca + data + e + f + g, ssh);
  }

  lemma WorkspaceNamesNone(cfg: Config, req: Request)
    requires HostPath(req.workspace)
    ensures NamedVolumes([Bind(req.workspace, cfg.guest.workdir, "rw")]) == {}
  {
    HostBindNamesNone(req.workspace, cfg.guest.workdir, "rw");
  }

  /** The binds name the sandbox's own volumes, those of the driver_config binds, and no others. */
  lemma BindsNameOwnVolumes(cfg: Config, req: Request)
    requires PathsFit(cfg, req)
    ensures NamedVolumes(SandboxBinds(cfg, req)) == OwnVolumes(req) + NamedVolumes(req.driverBinds)
  {
    WorkspaceNamesNone(cfg, req);
    OwnVolumeBinds(cfg, req);
    SshVolumeBinds(cfg, req);
    HostBindsNameNone(req);
    var own := NamedVolumes(CaBinds(cfg, req)) + NamedVolumes(SshBinds(cfg, req)) + NamedVolumes(DataBinds(cfg, req));
    assert own == OwnVolumes(req);
    NamedOfGroups([Bind(req.workspace, cfg.guest.workdir, "rw")], req.driverBinds, CaBinds(cfg, req), DataBinds(cfg, req),
                  InitBinds(req), PolicyBinds(req), SupervisorBinds(req), SshBinds(cfg, req));
  }

  /** The binds that driver_config prints are of host paths, so they name none. */
  lemma {:induction false} ConfiguredBindsNameNone(configs: seq<DriverConfig.MountConfig>, os: seq<DriverConfig.Outcome>,
                                                   enableBinds: bool, roots: seq<string>)
    requires DriverConfig.AllFaithful(configs, os) && DriverConfig.AllAcceptable(configs, enableBinds, roots)
    ensures NamedVolumes(DriverConfig.BindsOf(os)) == {}
  {
    if os != [] {
      var k := |os| - 1;
      var cfg, o := configs[k], os[k];
      ConfiguredBindsNameNone(configs[..k], os[..k], enableBinds, roots);
      if o.AsBind? {
        DriverConfig.KindsDiffer();
        assert DriverConfig.Faithful(cfg, o) && DriverConfig.Acceptable(cfg, enableBinds, roots);
        var source, options := DriverConfig.StringField(cfg.source, true).value,
            Options(DriverConfig.ReadOnlyField(cfg.readOnly).value, DriverConfig.LabelOf(DriverConfig.StringField(cfg.selinux, false).value));
        OptionsRoundTrip(DriverConfig.ReadOnlyField(cfg.readOnly).value, DriverConfig.LabelOf(DriverConfig.StringField(cfg.selinux, false).value));
        HostBindNamesNone(source, o.at, options);
        NamedConcat(DriverConfig.BindsOf(os[..k]), [o.bind]);
      }
    }
  }

  method BuildBinds(cfg: Config, req: Request) returns (binds: seq<string>)
    ensures binds == SandboxBinds(cfg, req)
    ensures PathsFit(cfg, req) ==> NamedVolumes(binds) == OwnVolumes(req) + NamedVolumes(req.driverBinds)
  {
    binds := [Bind(req.workspace, cfg.guest.workdir, "rw")];
    binds := binds + req.driverBinds;
    binds := binds + CaBinds(cfg, req);
    binds := binds + DataBinds(cfg, req);
    binds := binds + InitBinds(req);
    binds := binds + PolicyBinds(req);
    binds := binds + SupervisorBinds(req);
    binds := binds + SshBinds(cfg, req);
    if PathsFit(cfg, req) {
      BindsNameOwnVolumes(cfg, req);
    }
  }

  /** The container's volumes are those its binds name and those of its driver_config mounts. */
  method BuildContainer(cfg: Config, req: Request) returns (c: Container)
    ensures c == SandboxContainer(cfg, req)
    ensures PathsFit(cfg, req) && NamedVolumes(req.driverBinds) == {} ==> c.volumes == NamedVolumes(c.binds) + req.driverVolumes
  {
    var env := BuildEnv(cfg, req);
    var labels := BuildLabels(cfg, req);
    var binds := BuildBinds(cfg, req);
    c := Container(CtrName(req.name), Origin.Sandbox(req.name, WithProxy(req)), labels, env, binds,
                   {Net(cfg, req.name)}, OwnVolumes(req) + req.driverVolumes);
  }
}
