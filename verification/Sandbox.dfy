/**
 A create request and what Create makes of it: names, labels, environment, binds,
 and the two containers.
 */
module Sandbox {
  import opened GoStrings
  import opened Names
  import opened Environment
  import opened Engine
  import opened Binds

  /** In-guest paths and ports from the core defaults. */
  datatype Guest = Guest(
    workdir: string, caDir: string, caFile: string, data: string, home: string, path: string,
    sshd: string, noProxy: string, proxyPort: nat, novncPort: nat)

  datatype Config = Config(
    netPrefix: string,
    nativeCreate: bool,
    nativeVerify: bool,
    namespace: string,
    reconcile: bool,
    gateway: bool,
    sshDir: string,
    dialSocket: string,
    controlSocket: string,
    guest: Guest)

  /** What the host file system and the image store answer. */
  datatype HostFacts = HostFacts(
    gpuOk: bool, configOk: bool, workspaceOk: bool, supervisorOk: bool, sshBinOk: bool,
    imageOk: bool, proxyImageOk: bool, proxyFilesOk: bool, initBinOk: bool, imageHasGui: bool)

  datatype Request = Request(
    name: string,
    workspace: string,
    env: seq<string>,
    imageUser: string,
    proxyBin: string,
    proxyPort: int,
    enableSsh: bool,
    sshBin: string,
    persist: bool,
    noHarden: bool,
    initBin: string,
    policyPath: string,
    policyAbs: string,
    supervisorBin: string,
    display: bool,
    displayPassword: string,
    displayPort: int,
    gpu: bool,
    labels: seq<(string, string)>,
    driverBinds: seq<string>,
    driverVolumes: set<string>,
    ports: seq<(int, int)>,
    sidecarEnv: seq<string>,
    sidecarBinds: seq<string>,
    host: HostFacts)

  predicate WithProxy(req: Request) {
    TrimSpace(req.proxyBin) != ""
  }

  predicate WithSupervisor(req: Request) {
    TrimSpace(req.supervisorBin) != ""
  }

  predicate WithInit(req: Request) {
    !req.noHarden && TrimSpace(req.initBin) != ""
  }

  function Net(cfg: Config, n: string): string {
    NetName(cfg.netPrefix, n)
  }

  // ----- environment -----

  function Port(cfg: Config, req: Request): nat {
    if req.proxyPort <= 0 then cfg.guest.proxyPort else req.proxyPort
  }

  function ProxyUrl(cfg: Config, req: Request): string {
    "http://" + ProxyName(req.name) + ":" + Decimal(Port(cfg, req))
  }

  function IdentityVars(req: Request): seq<(string, string)> {
    [(IMAGE_USER, req.imageUser)]
  }

  function ProxyVars(cfg: Config, req: Request): seq<(string, string)> {
    if !WithProxy(req) then []
    else
      var u := ProxyUrl(cfg, req);
      [("HTTP_PROXY", u), ("HTTPS_PROXY", u), ("http_proxy", u), ("https_proxy", u), ("ALL_PROXY", u),
       ("NO_PROXY", cfg.guest.noProxy), ("no_proxy", cfg.guest.noProxy)]
  }

  function CaVars(cfg: Config, req: Request): seq<(string, string)> {
    if !WithProxy(req) then []
    else
      var f := cfg.guest.caFile;
      [("SSL_CERT_FILE", f), ("CURL_CA_BUNDLE", f), ("REQUESTS_CA_BUNDLE", f), ("NODE_EXTRA_CA_CERTS", f), ("GIT_SSL_CAINFO", f)]
  }

  function DataVars(cfg: Config, req: Request): seq<(string, string)> {
    if !req.persist then []
    else [("CAUTEUM_DATA", cfg.guest.data), ("HOME", cfg.guest.home), ("PATH", cfg.guest.path)]
  }

  function OwnershipVars(cfg: Config, req: Request): seq<(string, string)> {
    if req.persist && cfg.reconcile then [("CAUTEUM_RECONCILE_DATA_OWNERSHIP", "1")] else []
  }

  function PolicyVars(req: Request): seq<(string, string)> {
    if WithInit(req) && req.policyPath != "" then [("CAUTEUM_POLICY", "/cauteum/policy.yaml")] else []
  }

  function RelayVars(cfg: Config, req: Request): seq<(string, string)> {
    if req.enableSsh && WithSupervisor(req) && cfg.dialSocket != "" then [("CAUTEUM_RELAY_TARGET_SOCKET", cfg.dialSocket)] else []
  }

  function ControlVars(cfg: Config, req: Request): seq<(string, string)> {
    if req.enableSsh && WithSupervisor(req) && cfg.gateway then [("CAUTEUM_SUPERVISOR_CONTROL_SOCKET", cfg.controlSocket)] else []
  }

  function Password(req: Request): string {
    if TrimSpace(req.displayPassword) == "" then "cauteum" else TrimSpace(req.displayPassword)
  }

  function DisplayVars(cfg: Config, req: Request): seq<(string, string)> {
    if !req.display then []
    else [("DISPLAY_MODE", "novnc"), ("DISPLAY", ":99"), ("CAUTEUM_VNC_PASSWORD", Password(req)),
          ("CAUTEUM_NOVNC_PORT", Decimal(cfg.guest.novncPort))]
  }

  /** Everything Create adds to the caller's environment, in order. */
  function DriverVars(cfg: Config, req: Request): seq<(string, string)> {
    IdentityVars(req) + ProxyVars(cfg, req) + CaVars(cfg, req) + DataVars(cfg, req) + OwnershipVars(cfg, req)
    + PolicyVars(req) + RelayVars(cfg, req) + ControlVars(cfg, req) + DisplayVars(cfg, req)
  }

  /** The sandbox's environment: the caller's without identity keys, then the driver's, merged at once. */
  function SandboxEnv(cfg: Config, req: Request): seq<string> {
    Merged(Filtered(req.env) + Rendered(DriverVars(cfg, req)))
  }

  // ----- labels -----

  const L_SANDBOX := "cauteum.sandbox"
  const L_NAME := "cauteum.name"
  const L_NETWORK := "cauteum.network"
  const L_ROLE := "cauteum.role"
  const L_CA := "cauteum.ca_volume"
  const L_VOLUME := "cauteum.volume"
  const L_SSH_VOLUME := "cauteum.ssh_volume"

  /** The labels that steer Delete. */
  const STEERING := {L_NAME, L_NETWORK, L_CA, L_VOLUME, L_SSH_VOLUME}

  /** What Delete has to find for the sandbox this request makes. */
  function Expected(cfg: Config, req: Request, k: string): string {
    if k == L_NAME then req.name
    else if k == L_NETWORK then Net(cfg, req.name)
    else if k == L_CA && WithProxy(req) then CaVolume(req.name)
    else if k == L_VOLUME && req.persist then DataVolume(req.name)
    else if k == L_SSH_VOLUME && req.enableSsh then SshVolume(req.name)
    else ""
  }

  /** A later driver write covers this key, whatever the caller put there. */
  predicate Covered(req: Request, k: string) {
    (k == L_VOLUME && req.persist) || (k == L_SSH_VOLUME && req.enableSsh)
  }

  function Label(m: map<string, string>, k: string): string {
    if k in m then m[k] else ""
  }

  /** Labels after a series of writes, the last one winning. */
  function Written(ws: seq<(string, string)>): map<string, string> {
    if ws == [] then map[] else Written(ws[..|ws| - 1])[ws[|ws| - 1].0 := ws[|ws| - 1].1]
  }

  function FirstLabels(cfg: Config, req: Request): seq<(string, string)> {
    [(L_SANDBOX, "1"), (L_NAME, req.name), (L_NETWORK, Net(cfg, req.name)), (L_ROLE, "sandbox")]
    + if WithProxy(req) then [(L_CA, CaVolume(req.name))] else []
  }

  /** The caller's labels in the order the map is walked, keys trimmed, empty ones skipped. */
  function UserLabels(ls: seq<(string, string)>): seq<(string, string)> {
    if ls == [] then []
    else
      var rest, k := UserLabels(ls[..|ls| - 1]), TrimSpace(ls[|ls| - 1].0);
      if k == "" then rest else rest + [(k, ls[|ls| - 1].1)]
  }

  function NamespaceLabel(cfg: Config): seq<(string, string)> {
    if cfg.namespace != "" then [("openshell.ai/sandbox-namespace", cfg.namespace)] else []
  }

  function DataLabel(req: Request): seq<(string, string)> {
    if req.persist then [(L_VOLUME, DataVolume(req.name))] else []
  }

  function InitLabels(req: Request): seq<(string, string)> {
    (if WithInit(req) && req.policyPath != "" then [("cauteum.policy_path", req.policyAbs)] else [])
    + (if WithInit(req) then [("cauteum.init", "1")] else [])
    + (if WithSupervisor(req) then [("cauteum.supervisor", "go")] else [])
    + (if req.enableSsh then [("cauteum.ssh", "1")] else [])
  }

  function SshLabel(req: Request): seq<(string, string)> {
    if req.enableSsh then [(L_SSH_VOLUME, SshVolume(req.name))] else []
  }

  function ShowLabels(cfg: Config, req: Request): seq<(string, string)> {
    (if req.display then [("cauteum.display", "novnc"), ("cauteum.display.port", Decimal(DisplayPort(cfg, req)))] else [])
    + (if req.gpu then [("cauteum.gpu", "1")] else [])
  }

  /** What the driver writes after the caller's labels, in this order. */
  function LateLabels(cfg: Config, req: Request): seq<(string, string)> {
    NamespaceLabel(cfg) + DataLabel(req) + InitLabels(req) + SshLabel(req) + ShowLabels(cfg, req)
  }

  function DisplayPort(cfg: Config, req: Request): nat {
    if req.displayPort <= 0 then cfg.guest.novncPort else req.displayPort
  }

  function SandboxLabels(cfg: Config, req: Request): map<string, string> {
    Written(FirstLabels(cfg, req) + UserLabels(req.labels) + LateLabels(cfg, req))
  }

  lemma {:induction false} WrittenConcat(a: seq<(string, string)>, b: seq<(string, string)>)
    ensures Written(a + b) == Written(a) + Written(b)
  {
    if b == [] {
      assert a + b == a;
    } else {
      assert (a + b)[..|a + b| - 1] == a + b[..|b| - 1];
      WrittenConcat(a, b[..|b| - 1]);
    }
  }

  lemma {:induction false} WrittenKeys(ws: seq<(string, string)>, k: string)
    ensures k in Written(ws) <==> exists i :: 0 <= i < |ws| && ws[i].0 == k
  {
    if ws != [] {
      WrittenKeys(ws[..|ws| - 1], k);
      assert ws == ws[..|ws| - 1] + [ws[|ws| - 1]];
    }
  }

  lemma {:induction false} WrittenOnce(ws: seq<(string, string)>, i: nat)
    requires i < |ws| && forall j :: i < j < |ws| ==> ws[j].0 != ws[i].0
    ensures ws[i].0 in Written(ws) && Written(ws)[ws[i].0] == ws[i].1
  {
    if i < |ws| - 1 {
      WrittenOnce(ws[..|ws| - 1], i);
    }
  }

  lemma FirstLabelValues(cfg: Config, req: Request, k: string)
    requires k in STEERING
    ensures Label(Written(FirstLabels(cfg, req)), k) == if Covered(req, k) then "" else Expected(cfg, req, k)
  {
    var ws := FirstLabels(cfg, req);
    LabelsDiffer();
    WrittenKeys(ws, k);
    if k == L_NAME {
      WrittenOnce(ws, 1);
    } else if k == L_NETWORK {
      WrittenOnce(ws, 2);
    } else if k == L_CA && WithProxy(req) {
      WrittenOnce(ws, 4);
    }
  }

  /** Labels that neither steer Delete nor mark the container as managed. */
  ghost predicate Aside(ws: seq<(string, string)>) {
    forall i :: 0 <= i < |ws| ==> ws[i].0 !in STEERING + {L_SANDBOX}
  }

  lemma AsideWrites(ws: seq<(string, string)>)
    requires Aside(ws)
    ensures Written(ws).Keys !! STEERING + {L_SANDBOX}
  {
    forall k | k in STEERING + {L_SANDBOX}
      ensures k !in Written(ws)
    {
      WrittenKeys(ws, k);
    }
  }

  lemma AsideNames(v: string, w: string)
    ensures Aside([("openshell.ai/sandbox-namespace", v)]) && Aside([("cauteum.policy_path", v)])
    ensures Aside([("cauteum.init", v)]) && Aside([("cauteum.supervisor", v)])
    ensures Aside([("cauteum.ssh", v)]) && Aside([("cauteum.gpu", v)])
    ensures Aside([("cauteum.display", v), ("cauteum.display.port", w)])
  {
    assert |L_SANDBOX| == |L_NETWORK| == 15 && |L_NAME| == 12 && |L_CA| == 17 && |L_VOLUME| == 14 && |L_SSH_VOLUME| == 18;
    assert "cauteum.init"[8] == 'i' && L_NAME[8] == 'n';
    assert "cauteum.supervisor"[9] == 'u' && L_SSH_VOLUME[9] == 's';
    assert "cauteum.display"[8] == 'd' && L_SANDBOX[8] == 's' && L_NETWORK[8] == 'n';
  }

  lemma LateAside(cfg: Config, req: Request)
    ensures Aside(NamespaceLabel(cfg)) && Aside(InitLabels(req)) && Aside(ShowLabels(cfg, req))
  {
    AsideNames(cfg.namespace, "");
    AsideNames(req.policyAbs, "");
    AsideNames("1", "");
    AsideNames("go", "");
    AsideNames("novnc", Decimal(DisplayPort(cfg, req)));
  }

  /** The driver's later writes: aside from the two volume labels they steer nothing. */
  lemma LateLabelValues(cfg: Config, req: Request, k: string)
    requires k in STEERING + {L_SANDBOX}
    ensures var m := Written(LateLabels(cfg, req));
            && (k in m <==> Covered(req, k))
            && (Covered(req, k) ==> m[k] == Expected(cfg, req, k))
  {
    LateAside(cfg, req);
    AsideWrites(NamespaceLabel(cfg));
    AsideWrites(InitLabels(req));
    AsideWrites(ShowLabels(cfg, req));
    LatePieces(NamespaceLabel(cfg), DataLabel(req), InitLabels(req), SshLabel(req), ShowLabels(cfg, req));
    VolumeWrites(req, k);
    AsideDrops(Written(NamespaceLabel(cfg)), Written(DataLabel(req)), Written(InitLabels(req)),
               Written(SshLabel(req)), Written(ShowLabels(cfg, req)), k);
  }

  lemma AsideDrops(a: map<string, string>, vol: map<string, string>, b: map<string, string>,
                   ssh: map<string, string>, c: map<string, string>, k: string)
    requires k !in a && k !in b && k !in c
    ensures k in a + vol + b + ssh + c <==> k in vol + ssh
    ensures k in vol + ssh ==> (a + vol + b + ssh + c)[k] == (vol + ssh)[k]
  {
  }

  lemma VolumeWrites(req: Request, k: string)
    requires k in STEERING + {L_SANDBOX}
    ensures var m := Written(DataLabel(req)) + Written(SshLabel(req));
            && (k in m <==> Covered(req, k))
            && (Covered(req, k) ==> forall cfg :: m[k] == Expected(cfg, req, k))
  {
    SingleWrite(DataLabel(req));
    SingleWrite(SshLabel(req));
    LabelsDiffer();
  }

  lemma LabelsDiffer()
    ensures L_NAME != L_NETWORK && L_NAME != L_CA && L_NAME != L_VOLUME && L_NAME != L_SSH_VOLUME && L_NAME != L_SANDBOX
    ensures L_NETWORK != L_CA && L_NETWORK != L_VOLUME && L_NETWORK != L_SSH_VOLUME && L_NETWORK != L_SANDBOX
    ensures L_CA != L_VOLUME && L_CA != L_SSH_VOLUME && L_CA != L_SANDBOX
    ensures L_VOLUME != L_SSH_VOLUME && L_VOLUME != L_SANDBOX && L_SSH_VOLUME != L_SANDBOX
  {
    assert |L_NETWORK| == |L_SANDBOX| == 15 && |L_NAME| == 12 && |L_CA| == 17 && |L_VOLUME| == 14 && |L_SSH_VOLUME| == 18;
    assert L_NETWORK[8] == 'n' && L_SANDBOX[8] == 's';
  }

  lemma SingleWrite(ws: seq<(string, string)>)
    requires |ws| <= 1
    ensures Written(ws) == if ws == [] then map[] else map[ws[0].0 := ws[0].1]
  {
  }

  lemma LatePieces(a: seq<(string, string)>, vol: seq<(string, string)>, b: seq<(string, string)>,
                   ssh: seq<(string, string)>, c: seq<(string, string)>)
    ensures Written(a + vol + b + ssh + c) == Written(a) + Written(vol) + Written(b) + Written(ssh) + Written(c)
  {
    WrittenConcat(a, vol);
    WrittenConcat(a + vol, b);
    WrittenConcat(a + vol + b, ssh);
    WrittenConcat(a + vol + b + ssh, c);
  }

  /** The caller's labels leave Delete's steering labels as the driver wants them. */
  predicate HarmlessLabels(cfg: Config, req: Request) {
    var user := Written(UserLabels(req.labels));
    forall k :: k in STEERING && k in user && !Covered(req, k) ==> user[k] == Expected(cfg, req, k)
  }

  predicate SteersToOwn(cfg: Config, req: Request, labels: map<string, string>) {
    forall k :: k in STEERING ==> Label(labels, k) == Expected(cfg, req, k)
  }

  /** Delete's labels name exactly this sandbox's resources if and only if the caller's labels are harmless. */
  lemma LabelsSteerDelete(cfg: Config, req: Request)
    ensures SteersToOwn(cfg, req, SandboxLabels(cfg, req)) <==> HarmlessLabels(cfg, req)
  {
    var m, user := SandboxLabels(cfg, req), Written(UserLabels(req.labels));
    forall k | k in STEERING
      ensures Label(m, k) == if k in user && !Covered(req, k) then user[k] else Expected(cfg, req, k)
    {
      SteeringLabel(cfg, req, k);
    }
  }

  lemma SteeringLabel(cfg: Config, req: Request, k: string)
    requires k in STEERING
    ensures var user := Written(UserLabels(req.labels));
            Label(SandboxLabels(cfg, req), k) == if k in user && !Covered(req, k) then user[k] else Expected(cfg, req, k)
  {
    var first, user, late := FirstLabels(cfg, req), UserLabels(req.labels), LateLabels(cfg, req);
    WrittenConcat(first, user);
    WrittenConcat(first + user, late);
    FirstLabelValues(cfg, req, k);
    LateLabelValues(cfg, req, k);
    LabelsDiffer();
  }

  // ----- binds and containers -----

  function CaBinds(cfg: Config, req: Request): seq<string> {
    if WithProxy(req) then [Bind(CaVolume(req.name), cfg.guest.caDir, "ro")] else []
  }

  function DataBinds(cfg: Config, req: Request): seq<string> {
    if req.persist then [Bind(DataVolume(req.name), cfg.guest.data, "rw")] else []
  }

  function InitBinds(req: Request): seq<string> {
    if WithInit(req) then [Bind(req.initBin, "/cauteum-haven/cauteum-init", "ro")] else []
  }

  function PolicyBinds(req: Request): seq<string> {
    if WithInit(req) && req.policyPath != "" then [Bind(req.policyPath, "/cauteum/policy.yaml", "ro")] else []
  }

  function SupervisorBinds(req: Request): seq<string> {
    if WithSupervisor(req) then [Bind(req.supervisorBin, "/cauteum-haven/cauteum-supervisor", "ro")] else []
  }

  function SshBinds(cfg: Config, req: Request): seq<string> {
    if req.enableSsh then [Bind(req.sshBin, cfg.guest.sshd, "ro"), Bind(SshVolume(req.name), cfg.sshDir, "rw")] else []
  }

  function SandboxBinds(cfg: Config, req: Request): seq<string> {
    [Bind(req.workspace, cfg.guest.workdir, "rw")] + req.driverBinds + CaBinds(cfg, req) + DataBinds(cfg, req)
    + InitBinds(req) + PolicyBinds(req) + SupervisorBinds(req) + SshBinds(cfg, req)
  }

  /** The named volumes a sandbox owns. */
  function OwnVolumes(req: Request): (vs: set<string>)
    ensures vs <= Vols(req.name)
  {
    (if WithProxy(req) then {CaVolume(req.name)} else {})
    + (if req.enableSsh then {SshVolume(req.name)} else {})
    + (if req.persist then {DataVolume(req.name)} else {})
  }

  function SandboxContainer(cfg: Config, req: Request): Container {
    Container(CtrName(req.name), Origin.Sandbox(req.name, WithProxy(req)), SandboxLabels(cfg, req), SandboxEnv(cfg, req),
              SandboxBinds(cfg, req), {Net(cfg, req.name)}, OwnVolumes(req) + req.driverVolumes)
  }

  function ProxyContainer(cfg: Config, req: Request): Container {
    Container(ProxyName(req.name), Origin.Proxy(req.name),
              map[L_SANDBOX := "1", L_NAME := req.name, L_NETWORK := Net(cfg, req.name), L_ROLE := "proxy", "cauteum.policy_path" := req.policyAbs],
              req.sidecarEnv, req.sidecarBinds, {Net(cfg, req.name)},
              {CaVolume(req.name)} + if req.enableSsh then {SshVolume(req.name)} else {})
  }

  /** The network Create asks a Docker engine for. */
  function DockerNetwork(internal: bool): (net: Network)
    ensures net.internal == internal
    ensures internal ==> HostGatewayIsolated(net)
    ensures !internal ==> net.gatewayV4 != "isolated" && net.gatewayV6 != "isolated"
  {
    var mode := if internal then "isolated" else "";
    Network(internal, mode, mode, [], [])
  }
}
