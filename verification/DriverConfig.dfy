/**
 The mounts of a sandbox's driver_config: what is refused, and what is handed on.
 */
module DriverConfig {
  import opened GoStrings
  import opened ReservedPaths
  import opened Binds

  // ----- engine mounts -----

  datatype MountKind = BindMount | VolumeMount | TmpfsMount | ImageMount | ClusterMount | OtherMount

  datatype BindOptions = BindOptions(
    propagation: string, nonRecursive: bool, createMountpoint: bool, readOnlyNonRecursive: bool, readOnlyForceRecursive: bool)

  datatype VolumeOptions = VolumeOptions(subpath: string, noCopy: bool, hasLabels: bool, hasDriver: bool)

  datatype TmpfsOptions = TmpfsOptions(size: int, mode: int, pairs: seq<seq<string>>)

  datatype Mount = Mount(
    kind: MountKind, source: string, target: string, readOnly: bool,
    bind: Option<BindOptions>, volume: Option<VolumeOptions>, tmpfs: Option<TmpfsOptions>)

  // ----- mount configurations as decoded -----

  /** A field that is missing, has the wrong type, or was decoded. */
  datatype Given<+T> = Absent | Malformed | Given(value: T)

  datatype MountConfig = MountConfig(
    kind: Given<string>, target: Given<string>, readOnly: Given<bool>,
    source: Given<string>, selinux: Given<string>, subpath: Given<string>,
    options: Given<seq<string>>, size: Given<int>, mode: Given<int>,
    unknownField: bool, sourceExists: bool)

  const PROTECTED := ["/opt/openshell", "/etc/openshell", "/etc/openshell-tls", "/run/openshell",
                      "/run/openshell-sidecar", "/run/netns", "/var/run/netns"]

  predicate AtOrBelow(target: string, p: string) {
    target == p || p + "/" <= target
  }

  /** strings.TrimSuffix(target, "/"). */
  function TrimOneSlash(s: string): string {
    if s != "" && s[|s| - 1] == '/' then s[..|s| - 1] else s
  }

  predicate PlainTarget(t: string) {
    '\0' !in t && '\\' !in t && TrimSpace(t) == t
  }

  /** A target the parser accepts. */
  ghost predicate GoodTarget(t: string, roots: seq<string>) {
    && Normal(t) && NoControl(t) && PlainTarget(t)
    && (forall r :: r in roots ==> !Related(t, r))
    && (forall i :: 0 <= i < |PROTECTED| ==> !AtOrBelow(t, PROTECTED[i]))
  }

  method FindProtected(target: string) returns (found: bool)
    ensures found <==> exists i :: 0 <= i < |PROTECTED| && AtOrBelow(target, PROTECTED[i])
  {
    for i := 0 to |PROTECTED|
      invariant forall j :: 0 <= j < i ==> !AtOrBelow(target, PROTECTED[j])
    {
      if AtOrBelow(target, PROTECTED[i]) {
        return true;
      }
    }
    found := false;
  }

  lemma CleanTargetIsNormal(target: string, p: string)
    requires StandsFor(target, p) && Clean(target) == target
    ensures target == p
  {
    if target == p + "/" {
      SegmentsOf(target, p);
      CleanedKeepsComponents(Comps(p), true);
      assert (Comps(p) + [""])[..|Comps(p)|] == Comps(p);
      NormalIsJoin(p);
    }
  }

  /** The target checks, in the order of the code. */
  method CheckTarget(raw: string, roots: seq<string>) returns (r: Option<string>)
    requires forall r :: r in roots ==> Normal(r)
    ensures r.Some? <==> GoodTarget(TrimOneSlash(raw), roots)
    ensures r.Some? ==> r.value == TrimOneSlash(raw)
  {
    var target := TrimOneSlash(raw);
    if target == "" || target[0] != '/' || target == "/" {
      if Normal(target) { NotRoot(target); }
      return None;
    }
    if Clean(target) != target {
      if Normal(target) { CleanIsIdentity(target); }
      return None;
    }
    if !PlainTarget(target) {
      return None;
    }
    var clear := ValidateMountTarget(target, roots);
    if !clear {
      assert GoodTarget(target, roots) ==> StandsFor(target, target);
      return None;
    }
    ghost var p :| StandsFor(target, p) && forall r :: r in roots ==> !Related(p, r);
    CleanTargetIsNormal(target, p);
    var under := FindProtected(target);
    if under {
      return None;
    }
    r := Some(target);
  }

  // ----- parseDockerMount -----

  /** A string field as the code's helper reads it. */
  function StringField(f: Given<string>, required: bool): Option<string> {
    match f
    case Absent => if required then None else Some("")
    case Malformed => None
    case Given(v) => if TrimSpace(v) != v || '\0' in v || (required && v == "") then None else Some(v)
  }

  function ReadOnlyField(f: Given<bool>): Option<bool> {
    match f
    case Absent => Some(true)
    case Malformed => None
    case Given(b) => Some(b)
  }

  datatype Outcome = AsMount(mount: Mount, at: string) | AsBind(bind: string, at: string)

  function PairOf(option: string): seq<string> {
    var c := Cut(option, '=');
    if c.found then [c.before, c.after] else [option]
  }

  /** Not empty, and with something on both sides of the first "=" if there is one. */
  predicate OptionOk(option: string) {
    option != "" && (Cut(option, '=').found ==> "" !in PairOf(option))
  }

  method ParseTmpfsOptions(options: seq<string>) returns (r: Option<seq<seq<string>>>)
    ensures r.Some? ==> Paired(options, r.value)
    ensures r.Some? <==> forall i :: 0 <= i < |options| ==> OptionOk(options[i])
  {
    var parsed: seq<seq<string>> := [];
    for i := 0 to |options|
      invariant |parsed| == i && forall j :: 0 <= j < i ==> parsed[j] == PairOf(options[j])
      invariant forall j :: 0 <= j < i ==> OptionOk(options[j])
    {
      if options[i] == "" {
        return None;
      }
      var c := Cut(options[i], '=');
      if c.found && (c.before == "" || c.after == "") {
        assert "" in PairOf(options[i]) by {
          assert PairOf(options[i])[0] == c.before && PairOf(options[i])[1] == c.after;
        }
        return None;
      }
      parsed := parsed + [PairOf(options[i])];
    }
    r := Some(parsed);
  }

  /** The SELinux label a configuration asks for. */
  function LabelOf(s: string): SelinuxLabel {
    if s == "shared" then Shared else if s == "private" then Private else NoLabel
  }

  function Or<T>(f: Given<T>, default: T): T {
    if f.Given? then f.value else default
  }

  predicate Paired(options: seq<string>, pairs: seq<seq<string>>) {
    |pairs| == |options| && forall i :: 0 <= i < |options| ==> pairs[i] == PairOf(options[i])
  }

  predicate BindOk(cfg: MountConfig, enableBinds: bool) {
    && enableBinds && cfg.kind == Given("bind") && cfg.sourceExists
    && StringField(cfg.source, true).Some? && StringField(cfg.source, true).value[0] == '/'
    && StringField(cfg.selinux, false) in {Some(""), Some("shared"), Some("private")}
  }

  predicate SubpathOk(s: string) {
    s == "" || (s[0] != '/' && Clean(s) == s && '\\' !in s && ' ' !in s)
  }

  /** An accepted subpath stays below the volume exactly when its first component is not "..". */
  lemma SubpathStaysBelow(s: string)
    requires SubpathOk(s) && s != ""
    ensures ".." !in Split(s, '/') <==> Split(s, '/')[0] != ".."
  {
    CleanRelativeDots(s);
  }

  predicate VolumeOk(cfg: MountConfig) {
    && cfg.kind == Given("volume") && StringField(cfg.source, true).Some?
    && StringField(cfg.subpath, false).Some? && SubpathOk(StringField(cfg.subpath, false).value)
  }

  /** A component without blanks, backslashes and zero characters. */
  predicate PlainComponent(c: string) {
    Component(c) && forall i :: 0 <= i < |c| ==> !IsSpace(c[i]) && c[i] != '\\' && c[i] != '\0'
  }

  /**
   The message asks for a safe relative path, but ".." is accepted, and so is every plain
   component below it.
   */
  lemma ParentSubpathIsAccepted(cfg: MountConfig, c: string)
    requires cfg.kind == Given("volume") && StringField(cfg.source, true).Some?
    requires c == "" || PlainComponent(c)
    requires cfg.subpath == Given(if c == "" then ".." else ".." + "/" + c)
    ensures VolumeOk(cfg) && Split(cfg.subpath.value, '/')[0] == ".."
  {
    if c == "" {
      ParentIsClean();
    } else {
      BelowParentIsClean(c);
    }
  }

  lemma ParentIsClean()
    ensures SubpathOk("..") && Split("..", '/') == [".."] && StringField(Given(".."), false) == Some("..")
  {
    TrimSpaceFixed("..");
    SplitSingle("..", '/');
    assert [".."][..0] == [];
    assert Cleaned([".."], false) == [".."];
  }

  lemma BelowParentIsClean(c: string)
    requires PlainComponent(c)
    ensures SubpathOk(".." + "/" + c) && Split(".." + "/" + c, '/') == ["..", c]
    ensures StringField(Given(".." + "/" + c), false) == Some(".." + "/" + c)
  {
    TrimSpaceFixed(".." + "/" + c);
    var s, long := ".." + "/" + c, ["..", c];
    SplitHead("..", c, '/');
    SplitSingle(c, '/');
    assert long[..1] == [".."] && [".."][..0] == [];
    assert Cleaned([".."], false) == [".."];
    assert Cleaned(long, false) == long;
    JoinSplit(s, '/');
    assert Clean(s) == s;
  }

  predicate TmpfsOk(cfg: MountConfig) {
    && cfg.kind == Given("tmpfs") && !cfg.options.Malformed? && !cfg.size.Malformed? && !cfg.mode.Malformed?
    && Or(cfg.size, 0) >= 0 && Or(cfg.mode, 0) >= 0
    && forall i :: 0 <= i < |Or(cfg.options, [])| ==> OptionOk(Or(cfg.options, [])[i])
  }

  /** Exactly the configurations that are accepted. */
  ghost predicate Acceptable(cfg: MountConfig, enableBinds: bool, roots: seq<string>) {
    && !cfg.unknownField && cfg.target.Given? && GoodTarget(TrimOneSlash(cfg.target.value), roots)
    && ReadOnlyField(cfg.readOnly).Some?
    && (BindOk(cfg, enableBinds) || VolumeOk(cfg) || TmpfsOk(cfg))
  }

  /** What an accepted configuration turns into; the mode is cut to the 32 bits of a file mode. */
  predicate Faithful(cfg: MountConfig, o: Outcome) {
    && cfg.target.Given? && o.at == TrimOneSlash(cfg.target.value)
    && ReadOnlyField(cfg.readOnly).Some?
    && var readOnly := ReadOnlyField(cfg.readOnly).value;
       match o
       case AsBind(bind, at) =>
         && cfg.kind == Given("bind") && StringField(cfg.source, true).Some? && StringField(cfg.selinux, false).Some?
         && bind == Bind(StringField(cfg.source, true).value, at,
                         Options(readOnly, LabelOf(StringField(cfg.selinux, false).value)))
       case AsMount(m, at) =>
         && m.target == at && m.readOnly == readOnly && m.bind == None
         && if m.kind == VolumeMount then
              && cfg.kind == Given("volume") && StringField(cfg.source, true) == Some(m.source)
              && StringField(cfg.subpath, false).Some? && m.tmpfs == None
              && m.volume == Some(VolumeOptions(StringField(cfg.subpath, false).value, false, false, false))
            else
              && m.kind == TmpfsMount && cfg.kind == Given("tmpfs") && m.source == "" && m.volume == None && m.tmpfs.Some?
              && m.tmpfs.value.size == Or(cfg.size, 0) && m.tmpfs.value.mode == Or(cfg.mode, 0) % 0x1_0000_0000
              && Paired(Or(cfg.options, []), m.tmpfs.value.pairs)
  }

  method ParseBindMount(cfg: MountConfig, enableBinds: bool, target: string, readOnly: bool) returns (r: Option<Outcome>)
    requires cfg.kind == Given("bind") && cfg.target.Given? && target == TrimOneSlash(cfg.target.value)
    requires ReadOnlyField(cfg.readOnly) == Some(readOnly)
    ensures r.Some? <==> BindOk(cfg, enableBinds)
    ensures r.Some? ==> Faithful(cfg, r.value)
  {
    if !enableBinds {
      return None;
    }
    var source := StringField(cfg.source, true);
    if source.None? || source.value[0] != '/' || !cfg.sourceExists {
      return None;
    }
    var selinux := StringField(cfg.selinux, false);
    if selinux.None? || (selinux.value != "" && selinux.value != "shared" && selinux.value != "private") {
      return None;
    }
    r := Some(AsBind(Bind(source.value, target, Options(readOnly, LabelOf(selinux.value))), target));
  }

  method ParseVolumeMount(cfg: MountConfig, target: string, readOnly: bool) returns (r: Option<Outcome>)
    requires cfg.kind == Given("volume") && cfg.target.Given? && target == TrimOneSlash(cfg.target.value)
    requires ReadOnlyField(cfg.readOnly) == Some(readOnly)
    ensures r.Some? <==> VolumeOk(cfg)
    ensures r.Some? ==> Faithful(cfg, r.value)
  {
    var source := StringField(cfg.source, true);
    var subpath := StringField(cfg.subpath, false);
    if source.None? || subpath.None? {
      return None;
    }
    var s := subpath.value;
    if s != "" && (s[0] == '/' || Clean(s) != s || '\\' in s || ' ' in s) {
      return None;
    }
    r := Some(AsMount(Mount(VolumeMount, source.value, target, readOnly, None, Some(VolumeOptions(s, false, false, false)), None), target));
  }

  method ParseTmpfsMount(cfg: MountConfig, target: string, readOnly: bool) returns (r: Option<Outcome>)
    requires cfg.kind == Given("tmpfs") && cfg.target.Given? && target == TrimOneSlash(cfg.target.value)
    requires ReadOnlyField(cfg.readOnly) == Some(readOnly)
    ensures r.Some? <==> TmpfsOk(cfg)
    ensures r.Some? ==> Faithful(cfg, r.value)
  {
    if cfg.options.Malformed? {
      return None;
    }
    var options := Or(cfg.options, []);
    var pairs := ParseTmpfsOptions(options);
    if pairs.None? {
      return None;
    }
    var size, mode := Or(cfg.size, 0), Or(cfg.mode, 0);
    if cfg.size.Malformed? || size < 0 || cfg.mode.Malformed? || mode < 0 {
      return None;
    }
    var t := TmpfsOptions(size, mode % 0x1_0000_0000, pairs.value);
    r := Some(AsMount(Mount(TmpfsMount, "", target, readOnly, None, None, Some(t)), target));
  }

  method ParseMount(cfg: MountConfig, enableBinds: bool, roots: seq<string>) returns (r: Option<Outcome>)
    requires forall p :: p in roots ==> Normal(p)
    ensures r.Some? <==> Acceptable(cfg, enableBinds, roots)
    ensures r.Some? ==> Faithful(cfg, r.value)
  {
    KindsDiffer();
    if !cfg.kind.Given? || cfg.unknownField || !cfg.target.Given? {
      return None;
    }
    var target := CheckTarget(cfg.target.value, roots);
    if target.None? {
      return None;
    }
    var readOnly := ReadOnlyField(cfg.readOnly);
    if readOnly.None? {
      return None;
    }
    if cfg.kind.value == "bind" {
      r := ParseBindMount(cfg, enableBinds, target.value, readOnly.value);
    } else if cfg.kind.value == "volume" {
      r := ParseVolumeMount(cfg, target.value, readOnly.value);
    } else if cfg.kind.value == "tmpfs" {
      r := ParseTmpfsMount(cfg, target.value, readOnly.value);
    } else {
      r := None;
    }
  }

  lemma KindsDiffer()
    ensures "bind" != "volume" && "bind" != "tmpfs" && "volume" != "tmpfs"
  {
    assert |"bind"| == 4 && |"volume"| == 6 && |"tmpfs"| == 5;
  }

  // ----- the list of mounts -----

  function MountsOf(os: seq<Outcome>): seq<Mount> {
    if os == [] then []
    else
      var rest, o := MountsOf(os[..|os| - 1]), os[|os| - 1];
      if o.AsMount? then rest + [o.mount] else rest
  }

  function BindsOf(os: seq<Outcome>): seq<string> {
    if os == [] then []
    else
      var rest, o := BindsOf(os[..|os| - 1]), os[|os| - 1];
      if o.AsBind? then rest + [o.bind] else rest
  }

  lemma OutcomesSnoc(os: seq<Outcome>, o: Outcome)
    ensures MountsOf(os + [o]) == MountsOf(os) + if o.AsMount? then [o.mount] else []
    ensures BindsOf(os + [o]) == BindsOf(os) + if o.AsBind? then [o.bind] else []
  {
    assert (os + [o])[..|os|] == os;
  }

  /** Every configuration is acceptable, and no two have the same target. */
  ghost predicate AllAcceptable(configs: seq<MountConfig>, enableBinds: bool, roots: seq<string>) {
    && (forall i :: 0 <= i < |configs| ==> Acceptable(configs[i], enableBinds, roots))
    && (forall i, j :: 0 <= i < j < |configs| ==> TargetOf(configs[i]) != TargetOf(configs[j]))
  }

  function TargetOf(cfg: MountConfig): string {
    TrimOneSlash(Or(cfg.target, ""))
  }

  /** Outcome i is what configuration i asks for. */
  predicate AllFaithful(configs: seq<MountConfig>, os: seq<Outcome>) {
    |os| == |configs| && forall i :: 0 <= i < |os| ==> Faithful(configs[i], os[i])
  }

  function Targets(configs: seq<MountConfig>): set<string> {
    set c | c in configs :: TargetOf(c)
  }

  /** The lists that a read of these configurations has built, with the targets seen. */
  ghost predicate Built(configs: seq<MountConfig>, os: seq<Outcome>, mounts: seq<Mount>, binds: seq<string>, seen: set<string>) {
    AllFaithful(configs, os) && mounts == MountsOf(os) && binds == BindsOf(os) && seen == Targets(configs)
  }

  lemma AcceptOneMore(done: seq<MountConfig>, cfg: MountConfig, enableBinds: bool, roots: seq<string>)
    requires AllAcceptable(done, enableBinds, roots)
    ensures AllAcceptable(done + [cfg], enableBinds, roots) <==>
              Acceptable(cfg, enableBinds, roots) && TargetOf(cfg) !in Targets(done)
  {
    var so := done + [cfg];
    assert so[|done|] == cfg;
    if TargetOf(cfg) in Targets(done) {
      var i :| 0 <= i < |done| && TargetOf(done[i]) == TargetOf(cfg);
      assert TargetOf(so[i]) == TargetOf(so[|done|]);
    }
  }

  lemma BuildOneMore(done: seq<MountConfig>, cfg: MountConfig, os: seq<Outcome>, o: Outcome,
                     mounts: seq<Mount>, binds: seq<string>, seen: set<string>)
    requires Built(done, os, mounts, binds, seen) && Faithful(cfg, o)
    ensures o.AsMount? ==> Built(done + [cfg], os + [o], mounts + [o.mount], binds, seen + {o.at})
    ensures o.AsBind? ==> Built(done + [cfg], os + [o], mounts, binds + [o.bind], seen + {o.at})
  {
    OutcomesSnoc(os, o);
    TargetsSnoc(done, cfg);
    FaithfulSnoc(done, cfg, os, o);
  }

  lemma TargetsSnoc(done: seq<MountConfig>, cfg: MountConfig)
    ensures Targets(done + [cfg]) == Targets(done) + {TargetOf(cfg)}
  {
    forall t
      ensures t in Targets(done + [cfg]) <==> t in Targets(done) + {TargetOf(cfg)}
    {
      assert forall c :: c in done + [cfg] <==> c in done || c == cfg;
    }
  }

  lemma FaithfulSnoc(done: seq<MountConfig>, cfg: MountConfig, os: seq<Outcome>, o: Outcome)
    requires AllFaithful(done, os) && Faithful(cfg, o)
    ensures AllFaithful(done + [cfg], os + [o]) && o.at == TargetOf(cfg)
  {
  }

  lemma PrefixAcceptable(configs: seq<MountConfig>, k: nat, enableBinds: bool, roots: seq<string>)
    requires k <= |configs| && !AllAcceptable(configs[..k], enableBinds, roots)
    ensures !AllAcceptable(configs, enableBinds, roots)
  {
  }

  /**
   A list is accepted exactly when every configuration is and no target repeats. It then
   gives one mount or bind for every configuration, in order.
   */
  method ParseMounts(configs: seq<MountConfig>, enableBinds: bool, roots: seq<string>)
    returns (ok: bool, mounts: seq<Mount>, binds: seq<string>, ghost outcomes: seq<Outcome>)
    requires forall p :: p in roots ==> Normal(p)
    ensures ok <==> AllAcceptable(configs, enableBinds, roots)
    ensures ok ==> AllFaithful(configs, outcomes) && mounts == MountsOf(outcomes) && binds == BindsOf(outcomes)
  {
    ok, mounts, binds, outcomes := false, [], [], [];
    var seen: set<string> := {};
    for k := 0 to |configs|
      invariant Built(configs[..k], outcomes, mounts, binds, seen)
      invariant AllAcceptable(configs[..k], enableBinds, roots)
    {
      assert configs[..k + 1] == configs[..k] + [configs[k]];
      AcceptOneMore(configs[..k], configs[k], enableBinds, roots);
      var o := ParseMount(configs[k], enableBinds, roots);
      if o.None? || o.value.at in seen {
        PrefixAcceptable(configs, k + 1, enableBinds, roots);
        return;
      }
      BuildOneMore(configs[..k], configs[k], outcomes, o.value, mounts, binds, seen);
      seen := seen + {o.value.at};
      match o.value {
        case AsBind(bind, _) => binds := binds + [bind];
        case AsMount(m, _) => mounts := mounts + [m];
      }
      outcomes := outcomes + [o.value];
    }
    assert configs[..|configs|] == configs;
    ok := true;
  }

  /** Every configuration ends up in exactly one of the two lists. */
  lemma {:induction false} NothingIsLost(os: seq<Outcome>)
    ensures |MountsOf(os)| + |BindsOf(os)| == |os|
  {
    if os != [] {
      NothingIsLost(os[..|os| - 1]);
    }
  }

  /**
   The protected-path test is one-sided: it catches a target exactly when the target is
   the protected path or lies below it. A target above one, such as "/opt" over
   "/opt/openshell", passes it.
   */
  lemma ProtectedTestIsOneSided(target: string, p: string)
    requires Normal(target) && Normal(p)
    ensures AtOrBelow(target, p) <==> Comps(p) <= Comps(target)
    ensures Comps(target) < Comps(p) ==> !AtOrBelow(target, p) && Related(target, p)
  {
    if p + "/" <= target {
      BelowIsPrefix(target, p);
    }
    if Comps(p) < Comps(target) {
      PrefixIsBelow(target, p);
    } else if Comps(p) == Comps(target) {
      NormalIsJoin(p);
      NormalIsJoin(target);
    }
  }

  /** The seven protected paths, with and without a final slash, and everything below them are refused. */
  lemma ProtectedPathsAreRefused(p: string, rest: string, roots: seq<string>)
    requires p in {"/opt/openshell", "/etc/openshell", "/etc/openshell-tls", "/run/openshell",
                   "/run/openshell-sidecar", "/run/netns", "/var/run/netns"}
    ensures !GoodTarget(p, roots) && !GoodTarget(p + "/" + rest, roots)
    ensures TrimOneSlash(p) == TrimOneSlash(p + "/") == p
  {
    assert p in PROTECTED;
    var i :| 0 <= i < |PROTECTED| && PROTECTED[i] == p;
    assert AtOrBelow(p, PROTECTED[i]);
    assert p + "/" <= p + "/" + rest;
    assert AtOrBelow(p + "/" + rest, PROTECTED[i]);
    assert (p + "/")[..|p|] == p;
  }

  lemma OneComponent(c: string)
    requires Component(c)
    ensures Comps("/" + c) == [c] && Normal("/" + c)
  {
    assert ("/" + c)[1..] == c;
    SplitSingle(c, '/');
  }

  lemma TwoComponents(c: string, d: string)
    requires Component(c) && Component(d)
    ensures Comps("/" + c + "/" + d) == [c, d]
  {
    assert ("/" + c + "/" + d)[1..] == c + ['/'] + d;
    SplitHead(c, d, '/');
    SplitSingle(d, '/');
  }

  /** A path shorter than every protected one is neither one of them nor below one. */
  lemma ShortIsUnprotected(t: string)
    requires |t| < 10
    ensures forall i :: 0 <= i < |PROTECTED| ==> !AtOrBelow(t, PROTECTED[i])
  {
    assert forall i :: 0 <= i < |PROTECTED| ==> |PROTECTED[i]| >= 10;
  }

  lemma ShortTargetIsGood(c: string, roots: seq<string>)
    requires PlainComponent(c) && NoControl(c) && |c| < 9
    requires forall r :: r in roots ==> !Related("/" + c, r)
    ensures GoodTarget("/" + c, roots)
  {
    var t := "/" + c;
    OneComponent(c);
    assert !IsSpace(t[|t| - 1]);
    TrimSpaceFixed(t);
    ShortIsUnprotected(t);
  }

  /** The parent of a protected path, itself a short plain component below the root. */
  predicate ShortParent(c: string, d: string, k: nat) {
    && PlainComponent(c) && NoControl(c) && |c| < 9 && Component(d)
    && k < |PROTECTED| && PROTECTED[k] == "/" + c + "/" + d
  }

  /** So a mount over such a parent is accepted, unless a reserved root forbids it. */
  lemma ProtectedParentIsAccepted(c: string, d: string, k: nat, roots: seq<string>)
    requires ShortParent(c, d, k) && forall r :: r in roots ==> !Related("/" + c, r)
    ensures GoodTarget("/" + c, roots) && Related("/" + c, PROTECTED[k])
  {
    ShortTargetIsGood(c, roots);
    OneComponent(c);
    TwoComponents(c, d);
  }

  /** "/opt" is the parent of "/opt/openshell". */
  lemma OptIsSuchAParent()
    ensures ShortParent("opt", "openshell", 0)
  {
  }
}
