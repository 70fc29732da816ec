/**
 What a sandbox is told, key by key: every environment variable, every label and every
 bind of the container that Create asks for, written out beside the order in which
 Create puts them together.
 */
module SandboxValues {
  import opened GoStrings
  import opened Names
  import opened Environment
  import opened Engine
  import opened Sandbox
  import opened Binds

  // ----- environment -----

  /** Where the workload reaches its sidecar: the name of the container made for it, and its port. */
  function SidecarUrl(cfg: Config, req: Request): string {
    "http://" + ProxyContainer(cfg, req).name + ":" + Decimal(if req.proxyPort > 0 then req.proxyPort else cfg.guest.proxyPort)
  }

  const PROXY_KEYS := {"HTTP_PROXY", "HTTPS_PROXY", "http_proxy", "https_proxy", "ALL_PROXY"}
  const NO_PROXY_KEYS := {"NO_PROXY", "no_proxy"}
  const CA_KEYS := {"SSL_CERT_FILE", "CURL_CA_BUNDLE", "REQUESTS_CA_BUNDLE", "NODE_EXTRA_CA_CERTS", "GIT_SSL_CAINFO"}

  function ProxySetting(cfg: Config, req: Request, k: string): Option<string> {
    if !WithProxy(req) then None
    else if k in PROXY_KEYS then Some(SidecarUrl(cfg, req))
    else if k in NO_PROXY_KEYS then Some(cfg.guest.noProxy)
    else None
  }

  function CaSetting(cfg: Config, req: Request, k: string): Option<string> {
    if WithProxy(req) && k in CA_KEYS then Some(cfg.guest.caFile) else None
  }

  function DataSetting(cfg: Config, req: Request, k: string): Option<string> {
    if !req.persist then None
    else if k == "CAUTEUM_DATA" then Some(cfg.guest.data)
    else if k == "HOME" then Some(cfg.guest.home)
    else if k == "PATH" then Some(cfg.guest.path)
    else None
  }

  function DisplaySetting(cfg: Config, req: Request, k: string): Option<string> {
    if !req.display then None
    else if k == "DISPLAY_MODE" then Some("novnc")
    else if k == "DISPLAY" then Some(":99")
    else if k == "CAUTEUM_VNC_PASSWORD" then Some(if TrimSpace(req.displayPassword) != "" then TrimSpace(req.displayPassword) else "cauteum")
    else if k == "CAUTEUM_NOVNC_PORT" then Some(Decimal(cfg.guest.novncPort))
    else None
  }

  function OwnershipSetting(cfg: Config, req: Request, k: string): Option<string> {
    if k == "CAUTEUM_RECONCILE_DATA_OWNERSHIP" && req.persist && cfg.reconcile then Some("1") else None
  }

  function PolicySetting(req: Request, k: string): Option<string> {
    if k == "CAUTEUM_POLICY" && !req.noHarden && TrimSpace(req.initBin) != "" && req.policyPath != ""
    then Some("/cauteum/policy.yaml") else None
  }

  function RelaySetting(cfg: Config, req: Request, k: string): Option<string> {
    if k == "CAUTEUM_RELAY_TARGET_SOCKET" && req.enableSsh && TrimSpace(req.supervisorBin) != "" && cfg.dialSocket != ""
    then Some(cfg.dialSocket) else None
  }

  function ControlSetting(cfg: Config, req: Request, k: string): Option<string> {
    if k == "CAUTEUM_SUPERVISOR_CONTROL_SOCKET" && req.enableSsh && TrimSpace(req.supervisorBin) != "" && cfg.gateway
    then Some(cfg.controlSocket) else None
  }

  function IdentitySetting(req: Request, k: string): Option<string> {
    if k == "OPENSHELL_OCI_IMAGE_USER" then Some(req.imageUser) else None
  }

  function Else(a: Option<string>, b: Option<string>): Option<string> {
    if a.Some? then a else b
  }

  /** The value the driver gives a variable, if it gives one. */
  function Setting(cfg: Config, req: Request, k: string): Option<string> {
    Else(DisplaySetting(cfg, req, k), Else(ControlSetting(cfg, req, k), Else(RelaySetting(cfg, req, k),
    Else(PolicySetting(req, k), Else(OwnershipSetting(cfg, req, k), Else(DataSetting(cfg, req, k),
    Else(CaSetting(cfg, req, k), Else(ProxySetting(cfg, req, k), IdentitySetting(req, k)))))))))
  }

  function Assigned(k: string, v: Option<string>): Option<string> {
    if v.Some? then Some(k + "=" + v.value) else None
  }

  /** The variables, written in this order, leave k with this value. */
  ghost predicate Says(ps: seq<(string, string)>, k: string, v: Option<string>) {
    Last(Rendered(ps), k) == Assigned(k, v)
  }

  lemma SaysMore(a: seq<(string, string)>, b: seq<(string, string)>, k: string, v: Option<string>, w: Option<string>)
    requires Says(a, k, v) && Says(b, k, w)
    ensures Says(a + b, k, Else(w, v))
  {
    assert Rendered(a + b) == Rendered(a) + Rendered(b);
    LastConcat(Rendered(a), Rendered(b), k);
  }

  lemma SaysAtMostOne(ps: seq<(string, string)>, k: string)
    requires PlainKeys(ps) && |ps| <= 1
    ensures Says(ps, k, if |ps| == 1 && k == ps[0].0 then Some(ps[0].1) else None)
  {
    if |ps| == 1 && k == ps[0].0 { RenderedWrites(ps, 0); } else { RenderedOmits(ps, k); }
  }

  lemma IdentitySays(req: Request, k: string)
    ensures Says(IdentityVars(req), k, IdentitySetting(req, k))
  {
    SaysAtMostOne(IdentityVars(req), k);
  }

  lemma ProxySays(cfg: Config, req: Request, k: string)
    ensures Says(ProxyVars(cfg, req), k, ProxySetting(cfg, req, k))
  {
    var ps := ProxyVars(cfg, req);
    ProxyKeysArePlain(cfg, req);
    if ProxySetting(cfg, req, k).Some? {
      var i := ProxyIndex(k);
      ProxyKeyOnce(cfg, req, k);
      RenderedWrites(ps, i);
    } else {
      ProxyKeyNone(cfg, req, k);
      RenderedOmits(ps, k);
    }
  }

  function ProxyIndex(k: string): nat {
    if k == "HTTP_PROXY" then 0 else if k == "HTTPS_PROXY" then 1 else if k == "http_proxy" then 2
    else if k == "https_proxy" then 3 else if k == "ALL_PROXY" then 4 else if k == "NO_PROXY" then 5 else 6
  }

  lemma ProxyKeysArePlain(cfg: Config, req: Request)
    ensures PlainKeys(ProxyVars(cfg, req))
  {
  }

  lemma ProxyKeyOnce(cfg: Config, req: Request, k: string)
    requires WithProxy(req) && (k in PROXY_KEYS || k in NO_PROXY_KEYS)
    ensures var ps, i := ProxyVars(cfg, req), ProxyIndex(k);
            && i < |ps| && ps[i].0 == k && Some(ps[i].1) == ProxySetting(cfg, req, k)
            && forall j :: i < j < |ps| ==> ps[j].0 != k
  {
  }

  lemma ProxyKeyNone(cfg: Config, req: Request, k: string)
    requires ProxySetting(cfg, req, k).None?
    ensures forall j :: 0 <= j < |ProxyVars(cfg, req)| ==> ProxyVars(cfg, req)[j].0 != k
  {
  }

  lemma CaKeysArePlain(cfg: Config, req: Request)
    ensures PlainKeys(CaVars(cfg, req))
  {
  }

  lemma CaSays(cfg: Config, req: Request, k: string)
    ensures Says(CaVars(cfg, req), k, CaSetting(cfg, req, k))
  {
    var ps := CaVars(cfg, req);
    CaKeysArePlain(cfg, req);
    if CaSetting(cfg, req, k).Some? {
      RenderedWrites(ps, if k == "SSL_CERT_FILE" then 0 else if k == "CURL_CA_BUNDLE" then 1 else if k == "REQUESTS_CA_BUNDLE" then 2
                         else if k == "NODE_EXTRA_CA_CERTS" then 3 else 4);
    } else {
      RenderedOmits(ps, k);
    }
  }

  lemma DataSays(cfg: Config, req: Request, k: string)
    ensures Says(DataVars(cfg, req), k, DataSetting(cfg, req, k))
  {
    var ps := DataVars(cfg, req);
    assert PlainKeys(ps);
    if DataSetting(cfg, req, k).Some? {
      RenderedWrites(ps, if k == "CAUTEUM_DATA" then 0 else if k == "HOME" then 1 else 2);
    } else {
      RenderedOmits(ps, k);
    }
  }

  lemma OwnershipSays(cfg: Config, req: Request, k: string)
    ensures Says(OwnershipVars(cfg, req), k, OwnershipSetting(cfg, req, k))
  {
    SaysAtMostOne(OwnershipVars(cfg, req), k);
  }

  lemma PolicySays(req: Request, k: string)
    ensures Says(PolicyVars(req), k, PolicySetting(req, k))
  {
    SaysAtMostOne(PolicyVars(req), k);
  }

  lemma RelaySays(cfg: Config, req: Request, k: string)
    ensures Says(RelayVars(cfg, req), k, RelaySetting(cfg, req, k))
  {
    SaysAtMostOne(RelayVars(cfg, req), k);
  }

  lemma ControlSays(cfg: Config, req: Request, k: string)
    ensures Says(ControlVars(cfg, req), k, ControlSetting(cfg, req, k))
  {
    SaysAtMostOne(ControlVars(cfg, req), k);
  }

  lemma DisplaySays(cfg: Config, req: Request, k: string)
    ensures Says(DisplayVars(cfg, req), k, DisplaySetting(cfg, req, k))
  {
    var ps := DisplayVars(cfg, req);
    assert PlainKeys(ps);
    if DisplaySetting(cfg, req, k).Some? {
      RenderedWrites(ps, if k == "DISPLAY_MODE" then 0 else if k == "DISPLAY" then 1 else if k == "CAUTEUM_VNC_PASSWORD" then 2 else 3);
    } else {
      RenderedOmits(ps, k);
    }
  }

  lemma SaysFive(a: seq<(string, string)>, b: seq<(string, string)>, c: seq<(string, string)>, d: seq<(string, string)>,
                 e: seq<(string, string)>, k: string,
                 va: Option<string>, vb: Option<string>, vc: Option<string>, vd: Option<string>, ve: Option<string>)
    requires Says(a, k, va) && Says(b, k, vb) && Says(c, k, vc) && Says(d, k, vd) && Says(e, k, ve)
    ensures Says(a + b + c + d + e, k, Else(ve, Else(vd, Else(vc, Else(vb, va)))))
  {
    SaysMore(a, b, k, va, vb);
    SaysMore(a + b, c, k, Else(vb, va), vc);
    SaysMore(a + b + c, d, k, Else(vc, Else(vb, va)), vd);
    SaysMore(a + b + c + d, e, k, Else(vd, Else(vc, Else(vb, va))), ve);
  }

  lemma DriverSays(cfg: Config, req: Request, k: string)
    ensures Says(DriverVars(cfg, req), k, Setting(cfg, req, k))
  {
    IdentitySays(req, k);
    ProxySays(cfg, req, k);
    CaSays(cfg, req, k);
    DataSays(cfg, req, k);
    OwnershipSays(cfg, req, k);
    PolicySays(req, k);
    RelaySays(cfg, req, k);
    ControlSays(cfg, req, k);
    DisplaySays(cfg, req, k);
    var early := IdentityVars(req) + ProxyVars(cfg, req) + CaVars(cfg, req) + DataVars(cfg, req) + OwnershipVars(cfg, req);
    var v := Else(OwnershipSetting(cfg, req, k), Else(DataSetting(cfg, req, k),
             Else(CaSetting(cfg, req, k), Else(ProxySetting(cfg, req, k), IdentitySetting(req, k)))));
    SaysFive(IdentityVars(req), ProxyVars(cfg, req), CaVars(cfg, req), DataVars(cfg, req), OwnershipVars(cfg, req), k,
             IdentitySetting(req, k), ProxySetting(cfg, req, k), CaSetting(cfg, req, k), DataSetting(cfg, req, k), OwnershipSetting(cfg, req, k));
    SaysFive(early, PolicyVars(req), RelayVars(cfg, req), ControlVars(cfg, req), DisplayVars(cfg, req), k,
             v, PolicySetting(req, k), RelaySetting(cfg, req, k), ControlSetting(cfg, req, k), DisplaySetting(cfg, req, k));
  }

  /** The driver's variables win over the caller's, and identity keys of the caller are dropped. */
  lemma Settled(env: seq<string>, ps: seq<(string, string)>, k: string, v: Option<string>)
    requires Says(ps, k, v)
    ensures Last(Merged(Filtered(env) + Rendered(ps)), k) ==
            if v.Some? then Assigned(k, v) else if Reserved(k) then None else Last(env, k)
  {
    MergedKeepsMeaning(Filtered(env) + Rendered(ps));
    LastConcat(Filtered(env), Rendered(ps), k);
    FilteredLast(env, k);
  }

  /**
   Every variable of the sandbox: the driver's value where the driver sets one, else the
   caller's last entry, except that the identity keys are never the caller's.
   */
  lemma EveryVariable(cfg: Config, req: Request, k: string)
    ensures Last(SandboxEnv(cfg, req), k) ==
            if Setting(cfg, req, k).Some? then Some(k + "=" + Setting(cfg, req, k).value)
            else if k == "OPENSHELL_OCI_IMAGE_USER" || k == "OPENSHELL_SANDBOX_UID" || k == "OPENSHELL_SANDBOX_GID" then None
            else Last(req.env, k)
  {
    DriverSays(cfg, req, k);
    Settled(req.env, DriverVars(cfg, req), k, Setting(cfg, req, k));
  }

  // ----- no two groups set the same variable -----

  /** The group that a variable's length and first letters point to; the groups are those of Setting, in its order. */
  function Group(k: string): nat {
    if |k| < 4 then 9
    else if |k| == 7 || |k| == 20 || (|k| == 12 && k[0] == 'D') || (|k| == 18 && k[0] == 'C') then 0
    else if |k| == 33 then 1
    else if |k| == 27 then 2
    else if |k| == 14 && k[0] == 'C' && k[1] == 'A' then 3
    else if |k| == 32 then 4
    else if |k| == 4 || |k| == 12 then 5
    else if 13 <= |k| <= 19 then 6
    else if 8 <= |k| <= 11 then 7
    else 8
  }

  lemma LateGroups(cfg: Config, req: Request, k: string)
    ensures DisplaySetting(cfg, req, k).Some? ==> Group(k) == 0
    ensures ControlSetting(cfg, req, k).Some? ==> Group(k) == 1
    ensures RelaySetting(cfg, req, k).Some? ==> Group(k) == 2
    ensures PolicySetting(req, k).Some? ==> Group(k) == 3
  {
  }

  lemma EarlyGroups(cfg: Config, req: Request, k: string)
    ensures OwnershipSetting(cfg, req, k).Some? ==> Group(k) == 4
    ensures DataSetting(cfg, req, k).Some? ==> Group(k) == 5
    ensures CaSetting(cfg, req, k).Some? ==> Group(k) == 6
    ensures ProxySetting(cfg, req, k).Some? ==> Group(k) == 7
    ensures k in {IMAGE_USER, SANDBOX_UID, SANDBOX_GID} ==> Group(k) == 8
  {
    if k in PROXY_KEYS {
      assert 9 <= |k| <= 11;
    }
  }

  /** A group that sets a variable decides it: no other group does. */
  lemma OneGroupSetsIt(cfg: Config, req: Request, k: string)
    ensures Setting(cfg, req, k) ==
            match Group(k)
            case 0 => DisplaySetting(cfg, req, k)
            case 1 => ControlSetting(cfg, req, k)
            case 2 => RelaySetting(cfg, req, k)
            case 3 => PolicySetting(req, k)
            case 4 => OwnershipSetting(cfg, req, k)
            case 5 => DataSetting(cfg, req, k)
            case 6 => CaSetting(cfg, req, k)
            case 7 => ProxySetting(cfg, req, k)
            case _ => IdentitySetting(req, k)
  {
    LateGroups(cfg, req, k);
    EarlyGroups(cfg, req, k);
  }

  lemma IdentityIsTrusted(cfg: Config, req: Request)
    ensures Last(SandboxEnv(cfg, req), IMAGE_USER) == Some(IMAGE_USER + "=" + req.imageUser)
    ensures Last(SandboxEnv(cfg, req), SANDBOX_UID) == None && Last(SandboxEnv(cfg, req), SANDBOX_GID) == None
  {
    forall k | k in {IMAGE_USER, SANDBOX_UID, SANDBOX_GID}
      ensures Last(SandboxEnv(cfg, req), k) == Assigned(k, IdentitySetting(req, k))
    {
      EveryVariable(cfg, req, k);
      EarlyGroups(cfg, req, k);
      OneGroupSetsIt(cfg, req, k);
    }
    assert |IMAGE_USER| != |SANDBOX_UID| && |IMAGE_USER| != |SANDBOX_GID|;
  }

  lemma ProxyIsTrusted(cfg: Config, req: Request, k: string)
    requires WithProxy(req) && (k in PROXY_KEYS || k in NO_PROXY_KEYS)
    ensures Last(SandboxEnv(cfg, req), k) == Assigned(k, ProxySetting(cfg, req, k))
  {
    EveryVariable(cfg, req, k);
    EarlyGroups(cfg, req, k);
    OneGroupSetsIt(cfg, req, k);
  }

  lemma ProxyEntry(cfg: Config, req: Request, k: string)
    requires WithProxy(req) && k in PROXY_KEYS
    ensures var p := if req.proxyPort > 0 then req.proxyPort else cfg.guest.proxyPort;
            Last(SandboxEnv(cfg, req), k) == Some(k + "=http://" + ProxyContainer(cfg, req).name + ":" + Decimal(p))
  {
    ProxyIsTrusted(cfg, req, k);
    UrlEntry(k, ProxyContainer(cfg, req).name, Decimal(if req.proxyPort > 0 then req.proxyPort else cfg.guest.proxyPort));
  }

  lemma UrlEntry(k: string, host: string, port: string)
    ensures k + "=" + ("http://" + host + ":" + port) == k + "=http://" + host + ":" + port
  {
    assert k + "=" + "http://" == k + "=http://";
  }

  lemma NoProxyKeyIsOther(k: string)
    requires k in NO_PROXY_KEYS
    ensures k !in PROXY_KEYS
  {
    assert |k| == 8;
  }

  lemma NoProxyEntry(cfg: Config, req: Request, k: string)
    requires WithProxy(req) && k in NO_PROXY_KEYS
    ensures Last(SandboxEnv(cfg, req), k) == Some(k + "=" + cfg.guest.noProxy)
  {
    ProxyIsTrusted(cfg, req, k);
    NoProxyKeyIsOther(k);
  }

  lemma CaIsTrusted(cfg: Config, req: Request, k: string)
    requires WithProxy(req) && k in CA_KEYS
    ensures Last(SandboxEnv(cfg, req), k) == Some(k + "=" + cfg.guest.caFile)
  {
    EveryVariable(cfg, req, k);
    EarlyGroups(cfg, req, k);
    OneGroupSetsIt(cfg, req, k);
  }

  /**
   Whatever the caller's environment and options: no key twice, exactly the inspected
   image user, no injected user or group ID, and with a proxy the address of the sidecar
   that Create makes, its exceptions, and the CA file the sidecar writes.
   */
  lemma SandboxEnvIsTrusted(cfg: Config, req: Request)
    ensures DistinctKeys(SandboxEnv(cfg, req))
    ensures Last(SandboxEnv(cfg, req), "OPENSHELL_OCI_IMAGE_USER") == Some("OPENSHELL_OCI_IMAGE_USER" + "=" + req.imageUser)
    ensures Last(SandboxEnv(cfg, req), "OPENSHELL_SANDBOX_UID") == None
    ensures Last(SandboxEnv(cfg, req), "OPENSHELL_SANDBOX_GID") == None
    ensures WithProxy(req) ==>
              var p := if req.proxyPort > 0 then req.proxyPort else cfg.guest.proxyPort;
              forall k :: k in {"HTTP_PROXY", "HTTPS_PROXY", "http_proxy", "https_proxy", "ALL_PROXY"} ==>
                Last(SandboxEnv(cfg, req), k) == Some(k + "=http://" + ProxyContainer(cfg, req).name + ":" + Decimal(p))
    ensures WithProxy(req) ==> forall k :: k in {"NO_PROXY", "no_proxy"} ==>
              Last(SandboxEnv(cfg, req), k) == Some(k + "=" + cfg.guest.noProxy)
    ensures WithProxy(req) ==>
              forall k :: k in {"SSL_CERT_FILE", "CURL_CA_BUNDLE", "REQUESTS_CA_BUNDLE", "NODE_EXTRA_CA_CERTS", "GIT_SSL_CAINFO"} ==>
                Last(SandboxEnv(cfg, req), k) == Some(k + "=" + cfg.guest.caFile)
  {
    MergedIsDistinct(Filtered(req.env) + Rendered(DriverVars(cfg, req)));
    IdentityIsTrusted(cfg, req);
    forall k | WithProxy(req) && k in PROXY_KEYS
      ensures var p := if req.proxyPort > 0 then req.proxyPort else cfg.guest.proxyPort;
              Last(SandboxEnv(cfg, req), k) == Some(k + "=http://" + ProxyContainer(cfg, req).name + ":" + Decimal(p))
    {
      ProxyEntry(cfg, req, k);
    }
    forall k | WithProxy(req) && k in NO_PROXY_KEYS
      ensures Last(SandboxEnv(cfg, req), k) == Some(k + "=" + cfg.guest.noProxy)
    {
      NoProxyEntry(cfg, req, k);
    }
    forall k | WithProxy(req) && k in CA_KEYS
      ensures Last(SandboxEnv(cfg, req), k) == Some(k + "=" + cfg.guest.caFile)
    {
      CaIsTrusted(cfg, req, k);
    }
  }

  /** The variables of the data volume and of the display. */
  lemma DataAndDisplay(cfg: Config, req: Request, k: string)
    ensures req.persist && k in {"CAUTEUM_DATA", "HOME", "PATH"} ==>
              Last(SandboxEnv(cfg, req), k) == Assigned(k, DataSetting(cfg, req, k))
    ensures req.display && k in {"DISPLAY_MODE", "DISPLAY", "CAUTEUM_VNC_PASSWORD", "CAUTEUM_NOVNC_PORT"} ==>
              Last(SandboxEnv(cfg, req), k) == Assigned(k, DisplaySetting(cfg, req, k))
  {
    EveryVariable(cfg, req, k);
    LateGroups(cfg, req, k);
    EarlyGroups(cfg, req, k);
    OneGroupSetsIt(cfg, req, k);
  }

  // ----- labels -----

  function Found(m: map<string, string>, k: string): Option<string> {
    if k in m then Some(m[k]) else None
  }

  /** The label the driver writes before the caller's. */
  function FirstLabel(cfg: Config, req: Request, k: string): Option<string> {
    if k == "cauteum.ca_volume" && WithProxy(req) then Some("cauteum-ca-" + req.name)
    else if k == "cauteum.role" then Some("sandbox")
    else if k == "cauteum.network" then Some(cfg.netPrefix + "-" + req.name)
    else if k == "cauteum.name" then Some(req.name)
    else if k == "cauteum.sandbox" then Some("1")
    else None
  }

  function NamespaceSays(cfg: Config, k: string): Option<string> {
    if k == "openshell.ai/sandbox-namespace" && cfg.namespace != "" then Some(cfg.namespace) else None
  }

  function DataVolumeSays(req: Request, k: string): Option<string> {
    if k == "cauteum.volume" && req.persist then Some("cauteum-data-" + req.name) else None
  }

  function InitSays(req: Request, k: string): Option<string> {
    var hardened := !req.noHarden && TrimSpace(req.initBin) != "";
    if k == "cauteum.ssh" && req.enableSsh then Some("1")
    else if k == "cauteum.supervisor" && TrimSpace(req.supervisorBin) != "" then Some("go")
    else if k == "cauteum.init" && hardened then Some("1")
    else if k == "cauteum.policy_path" && hardened && req.policyPath != "" then Some(req.policyAbs)
    else None
  }

  function SshVolumeSays(req: Request, k: string): Option<string> {
    if k == "cauteum.ssh_volume" && req.enableSsh then Some("cauteum-ssh-" + req.name) else None
  }

  function ShowSays(cfg: Config, req: Request, k: string): Option<string> {
    if k == "cauteum.gpu" && req.gpu then Some("1")
    else if k == "cauteum.display.port" && req.display then Some(Decimal(if req.displayPort > 0 then req.displayPort else cfg.guest.novncPort))
    else if k == "cauteum.display" && req.display then Some("novnc")
    else None
  }

  /** The label the driver writes after the caller's. */
  function LateLabel(cfg: Config, req: Request, k: string): Option<string> {
    Else(ShowSays(cfg, req, k), Else(SshVolumeSays(req, k), Else(InitSays(req, k),
    Else(DataVolumeSays(req, k), NamespaceSays(cfg, k)))))
  }

  /** The labels, written in this order, leave k with this value. */
  ghost predicate Writes(ws: seq<(string, string)>, k: string, v: Option<string>) {
    Found(Written(ws), k) == v
  }

  lemma WritesMore(a: seq<(string, string)>, b: seq<(string, string)>, k: string, v: Option<string>, w: Option<string>)
    requires Writes(a, k, v) && Writes(b, k, w)
    ensures Writes(a + b, k, Else(w, v))
  {
    WrittenConcat(a, b);
  }

  lemma WritesAtMostOne(ws: seq<(string, string)>, k: string)
    requires |ws| <= 1
    ensures Writes(ws, k, if |ws| == 1 && k == ws[0].0 then Some(ws[0].1) else None)
  {
    SingleWrite(ws);
  }

  lemma WritesPair(p: (string, string), q: (string, string), k: string)
    ensures Writes([p, q], k, if k == q.0 then Some(q.1) else if k == p.0 then Some(p.1) else None)
  {
    WritesAtMostOne([p], k);
    WritesAtMostOne([q], k);
    WritesMore([p], [q], k, if k == p.0 then Some(p.1) else None, if k == q.0 then Some(q.1) else None);
    assert [p, q] == [p] + [q];
  }

  lemma WritesFour(a: seq<(string, string)>, b: seq<(string, string)>, c: seq<(string, string)>, d: seq<(string, string)>, k: string,
                   va: Option<string>, vb: Option<string>, vc: Option<string>, vd: Option<string>)
    requires Writes(a, k, va) && Writes(b, k, vb) && Writes(c, k, vc) && Writes(d, k, vd)
    ensures Writes(a + b + c + d, k, Else(vd, Else(vc, Else(vb, va))))
  {
    WritesMore(a, b, k, va, vb);
    WritesMore(a + b, c, k, Else(vb, va), vc);
    WritesMore(a + b + c, d, k, Else(vc, Else(vb, va)), vd);
  }

  lemma FirstLabelSays(cfg: Config, req: Request, k: string)
    ensures Writes(FirstLabels(cfg, req), k, FirstLabel(cfg, req, k))
  {
    var ca := if WithProxy(req) then [(L_CA, CaVolume(req.name))] else [];
    var p, q, r, s := (L_SANDBOX, "1"), (L_NAME, req.name), (L_NETWORK, Net(cfg, req.name)), (L_ROLE, "sandbox");
    WritesPair(p, q, k);
    WritesPair(r, s, k);
    WritesAtMostOne(ca, k);
    WritesMore([p, q], [r, s], k, Found(Written([p, q]), k), Found(Written([r, s]), k));
    WritesMore([p, q] + [r, s], ca, k, Else(Found(Written([r, s]), k), Found(Written([p, q]), k)), Found(Written(ca), k));
    assert FirstLabels(cfg, req) == [p, q] + [r, s] + ca;
  }

  lemma InitLabelSays(req: Request, k: string)
    ensures Writes(InitLabels(req), k, InitSays(req, k))
  {
    var a := if WithInit(req) && req.policyPath != "" then [("cauteum.policy_path", req.policyAbs)] else [];
    var b := if WithInit(req) then [("cauteum.init", "1")] else [];
    var c := if WithSupervisor(req) then [("cauteum.supervisor", "go")] else [];
    var d := if req.enableSsh then [("cauteum.ssh", "1")] else [];
    WritesAtMostOne(a, k);
    WritesAtMostOne(b, k);
    WritesAtMostOne(c, k);
    WritesAtMostOne(d, k);
    WritesFour(a, b, c, d, k, Found(Written(a), k), Found(Written(b), k), Found(Written(c), k), Found(Written(d), k));
  }

  lemma ShowLabelSays(cfg: Config, req: Request, k: string)
    ensures Writes(ShowLabels(cfg, req), k, ShowSays(cfg, req, k))
  {
    var p, q := ("cauteum.display", "novnc"), ("cauteum.display.port", Decimal(DisplayPort(cfg, req)));
    var a := if req.display then [p, q] else [];
    var b := if req.gpu then [("cauteum.gpu", "1")] else [];
    WritesPair(p, q, k);
    WritesAtMostOne(b, k);
    WritesMore(a, b, k, Found(Written(a), k), Found(Written(b), k));
  }

  lemma VolumeLabelsSay(cfg: Config, req: Request, k: string)
    ensures Writes(NamespaceLabel(cfg), k, NamespaceSays(cfg, k))
    ensures Writes(DataLabel(req), k, DataVolumeSays(req, k))
    ensures Writes(SshLabel(req), k, SshVolumeSays(req, k))
  {
    WritesAtMostOne(NamespaceLabel(cfg), k);
    WritesAtMostOne(DataLabel(req), k);
    WritesAtMostOne(SshLabel(req), k);
  }

  lemma LateLabelSays(cfg: Config, req: Request, k: string)
    ensures Writes(LateLabels(cfg, req), k, LateLabel(cfg, req, k))
  {
    var a, b, c, d, e := NamespaceLabel(cfg), DataLabel(req), InitLabels(req), SshLabel(req), ShowLabels(cfg, req);
    VolumeLabelsSay(cfg, req, k);
    InitLabelSays(req, k);
    ShowLabelSays(cfg, req, k);
    WritesFour(a, b, c, d, k, NamespaceSays(cfg, k), DataVolumeSays(req, k), InitSays(req, k), SshVolumeSays(req, k));
    WritesMore(a + b + c + d, e, k, Else(SshVolumeSays(req, k), Else(InitSays(req, k), Else(DataVolumeSays(req, k), NamespaceSays(cfg, k)))),
               ShowSays(cfg, req, k));
  }

  /** Every label of the sandbox: the driver's later write, else the caller's, else the driver's first write. */
  lemma EveryLabel(cfg: Config, req: Request, k: string)
    ensures Found(SandboxLabels(cfg, req), k) ==
            Else(LateLabel(cfg, req, k), Else(Found(Written(UserLabels(req.labels)), k), FirstLabel(cfg, req, k)))
  {
    var first, user, late := FirstLabels(cfg, req), UserLabels(req.labels), LateLabels(cfg, req);
    var own := Found(Written(user), k);
    FirstLabelSays(cfg, req, k);
    LateLabelSays(cfg, req, k);
    WritesMore(first, user, k, FirstLabel(cfg, req, k), own);
    WritesMore(first + user, late, k, Else(own, FirstLabel(cfg, req, k)), LateLabel(cfg, req, k));
  }

  lemma CallerLabelStep(init: seq<(string, string)>, last: (string, string), k: string)
    ensures Found(Written(UserLabels(init + [last])), k) ==
            if k != "" && TrimSpace(last.0) == k then Some(last.1) else Found(Written(UserLabels(init)), k)
  {
    var t := TrimSpace(last.0);
    assert (init + [last])[..|init|] == init;
    if t != "" {
      WritesAtMostOne([(t, last.1)], k);
      WritesMore(UserLabels(init), [(t, last.1)], k, Found(Written(UserLabels(init)), k), if k == t then Some(last.1) else None);
    } else {
      NoEmptyLabel(init);
    }
  }

  lemma {:induction false} NoEmptyLabel(ls: seq<(string, string)>)
    ensures "" !in Written(UserLabels(ls))
  {
    if ls != [] {
      NoEmptyLabel(ls[..|ls| - 1]);
      var rest, k := UserLabels(ls[..|ls| - 1]), TrimSpace(ls[|ls| - 1].0);
      if k != "" {
        WritesAtMostOne([(k, ls[|ls| - 1].1)], "");
        WritesMore(rest, [(k, ls[|ls| - 1].1)], "", None, None);
      }
    }
  }

  /** The caller's label is that of the last pair whose trimmed key it is; without such a pair there is none. */
  lemma {:induction false} CallerLabel(ls: seq<(string, string)>, k: string, i: nat)
    requires k != "" && i <= |ls|
    requires forall j :: i < j < |ls| ==> TrimSpace(ls[j].0) != k
    requires i < |ls| ==> TrimSpace(ls[i].0) == k
    requires i == |ls| ==> forall j :: 0 <= j < |ls| ==> TrimSpace(ls[j].0) != k
    ensures Found(Written(UserLabels(ls)), k) == if i < |ls| then Some(ls[i].1) else None
  {
    if ls != [] {
      var init, last := ls[..|ls| - 1], ls[|ls| - 1];
      assert ls == init + [last];
      CallerLabelStep(init, last, k);
      if i != |ls| - 1 {
        CallerLabel(init, k, if i < |ls| then i else |init|);
      }
    }
  }

  /**
   The list call finds the sandbox, so that a second Create of its name is refused,
   exactly when the caller's labels do not say otherwise; its sidecar is always found.
   */
  lemma ManagedExactly(cfg: Config, req: Request)
    ensures Managed(ProxyContainer(cfg, req), req.name)
    ensures var user := Written(UserLabels(req.labels));
            Managed(SandboxContainer(cfg, req), req.name) <==>
            && ("cauteum.sandbox" in user ==> user["cauteum.sandbox"] == "1")
            && ("cauteum.name" in user ==> user["cauteum.name"] == req.name)
  {
    SidecarIsManaged(cfg, req);
    EveryLabel(cfg, req, "cauteum.sandbox");
    EveryLabel(cfg, req, "cauteum.name");
    NoLateLabel(cfg, req);
    ManagedLabels(SandboxContainer(cfg, req), req.name);
  }

  lemma ManagedLabels(c: Container, n: string)
    ensures Managed(c, n) <==> Found(c.labels, "cauteum.sandbox") == Some("1") && Found(c.labels, "cauteum.name") == Some(n)
  {
  }

  lemma SidecarIsManaged(cfg: Config, req: Request)
    ensures Managed(ProxyContainer(cfg, req), req.name)
  {
    LabelsDiffer();
    assert |"cauteum.policy_path"| == 19 && |L_ROLE| == 12 && L_ROLE[8] == 'r' && L_NAME[8] == 'n';
  }

  lemma NoLateLabel(cfg: Config, req: Request)
    ensures LateLabel(cfg, req, "cauteum.sandbox") == LateLabel(cfg, req, "cauteum.name") == None
    ensures FirstLabel(cfg, req, "cauteum.sandbox") == Some("1") && FirstLabel(cfg, req, "cauteum.name") == Some(req.name)
  {
    assert |"cauteum.sandbox"| == 15 && "cauteum.sandbox"[8] == 's';
    assert |"cauteum.name"| == 12 && "cauteum.name"[8] == 'n';
    assert |"cauteum.display"| == 15 && "cauteum.display"[8] == 'd' && "cauteum.network"[8] == 'n';
    assert |"cauteum.init"| == 12 && "cauteum.init"[8] == 'i' && "cauteum.role"[8] == 'r';
  }

  // ----- binds -----

  /** Every bind of the sandbox, with source, target and access mode; the other binds are those of driver_config. */
  lemma EveryBind(cfg: Config, req: Request, b: string)
    ensures b in SandboxBinds(cfg, req) <==>
            || b == Bind(req.workspace, cfg.guest.workdir, "rw")
            || b in req.driverBinds
            || (WithProxy(req) && b == Bind("cauteum-ca-" + req.name, cfg.guest.caDir, "ro"))
            || (req.persist && b == Bind("cauteum-data-" + req.name, cfg.guest.data, "rw"))
            || (!req.noHarden && TrimSpace(req.initBin) != "" && b == Bind(req.initBin, "/cauteum-haven/cauteum-init", "ro"))
            || (!req.noHarden && TrimSpace(req.initBin) != "" && req.policyPath != "" && b == Bind(req.policyPath, "/cauteum/policy.yaml", "ro"))
            || (TrimSpace(req.supervisorBin) != "" && b == Bind(req.supervisorBin, "/cauteum-haven/cauteum-supervisor", "ro"))
            || (req.enableSsh && b == Bind(req.sshBin, cfg.guest.sshd, "ro"))
            || (req.enableSsh && b == Bind("cauteum-ssh-" + req.name, cfg.sshDir, "rw"))
  {
    InOneOf([Bind(req.workspace, cfg.guest.workdir, "rw")], req.driverBinds, CaBinds(cfg, req), DataBinds(cfg, req),
            InitBinds(req), PolicyBinds(req), SupervisorBinds(req), SshBinds(cfg, req), b);
  }

  lemma InOneOf(u: seq<string>, v: seq<string>, w: seq<string>, x: seq<string>,
                c: seq<string>, d: seq<string>, e: seq<string>, f: seq<string>, b: string)
    ensures b in u + v + w + x + c + d + e + f <==> b in u || b in v || b in w || b in x || b in c || b in d || b in e || b in f
  {
  }

  // ----- the two containers -----

  /** The sidecar: its name, its five labels, its network before it joins the bridge, and the volumes it shares. */
  lemma SidecarIsExact(cfg: Config, req: Request, k: string)
    ensures ProxyContainer(cfg, req).name == "cauteum-proxy-" + req.name
    ensures Found(ProxyContainer(cfg, req).labels, k) ==
            if k == "cauteum.policy_path" then Some(req.policyAbs)
            else if k == "cauteum.role" then Some("proxy")
            else if k == "cauteum.network" then Some(cfg.netPrefix + "-" + req.name)
            else if k == "cauteum.name" then Some(req.name)
            else if k == "cauteum.sandbox" then Some("1")
            else None
    ensures ProxyContainer(cfg, req).networks == {cfg.netPrefix + "-" + req.name}
    ensures ProxyContainer(cfg, req).volumes ==
            {"cauteum-ca-" + req.name} + if req.enableSsh then {"cauteum-ssh-" + req.name} else {}
  {
  }

  /** The sandbox: its name, its one network, and its volumes. */
  lemma SandboxIsExact(cfg: Config, req: Request, v: string)
    ensures SandboxContainer(cfg, req).name == "cauteum-" + req.name
    ensures SandboxContainer(cfg, req).networks == {cfg.netPrefix + "-" + req.name}
    ensures v in SandboxContainer(cfg, req).volumes <==>
            || (WithProxy(req) && v == "cauteum-ca-" + req.name)
            || (req.enableSsh && v == "cauteum-ssh-" + req.name)
            || (req.persist && v == "cauteum-data-" + req.name)
            || v in req.driverVolumes
  {
    OwnVolumesAre(req, v);
    InUnion(OwnVolumes(req), req.driverVolumes, v);
  }

  lemma OwnVolumesAre(req: Request, v: string)
    ensures v in OwnVolumes(req) <==>
            || (WithProxy(req) && v == "cauteum-ca-" + req.name)
            || (req.enableSsh && v == "cauteum-ssh-" + req.name)
            || (req.persist && v == "cauteum-data-" + req.name)
  {
  }

  lemma InUnion(a: set<string>, b: set<string>, v: string)
    ensures v in a + b <==> v in a || v in b
  {
  }
}
