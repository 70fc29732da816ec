/**
 Building a Libpod container spec from a Docker create request: every bind, mount,
 tmpfs, port, device and ID map is carried over or the whole request is refused.
 */
module NativeSpec {
  import opened GoStrings
  import opened Binds
  import opened DriverConfig
  import opened Sorting

  datatype NativeMount = NativeMount(kind: string, source: string, dest: string, options: seq<string>)
  datatype NativeVolume = NativeVolume(name: string, dest: string, options: seq<string>)

  /** One requested mount on its way into the spec: a mount or a named volume. */
  datatype Item = M(mount: NativeMount) | V(volume: NativeVolume)

  function Dest(i: Item): string {
    match i case M(m) => m.dest case V(v) => v.dest
  }

  function Opts(i: Item): seq<string> {
    match i case M(m) => m.options case V(v) => v.options
  }

  /** A host path becomes a recursive bind of that path, anything else the volume of that name. */
  predicate FromSource(i: Item, source: string) {
    if source != "" && source[0] == '/'
    then i.M? && i.mount.kind == "bind" && i.mount.source == source && "rbind" in i.mount.options
    else i.V? && i.volume.name == source
  }

  /** The options say the access mode that was asked for, and do not also say the opposite. */
  predicate SaysReadOnly(options: seq<string>, readOnly: bool) {
    ("ro" in options <==> readOnly) && (readOnly ==> "rw" !in options)
  }

  // ----- binds -----

  function BindItem(bind: string): Option<Item> {
    var p := ParseBind(bind);
    if p.None? then None
    else if p.value.source != "" && p.value.source[0] == '/' then
      Some(M(NativeMount("bind", p.value.source, p.value.target,
                         if "rbind" in p.value.options then p.value.options else p.value.options + ["rbind"])))
    else Some(V(NativeVolume(p.value.source, p.value.target, p.value.options)))
  }

  /** A printed bind arrives with its target and its access mode, or not at all. */
  lemma PrintedBindArrives(source: string, target: string, readOnly: bool, selinux: SelinuxLabel)
    ensures var i := BindItem(Bind(source, target, Options(readOnly, selinux)));
            && (i.Some? <==> ':' !in source && ':' !in target)
            && (i.Some? ==> Dest(i.value) == target && SaysReadOnly(Opts(i.value), readOnly)
                            && ("z" in Opts(i.value) <==> selinux == Shared) && ("Z" in Opts(i.value) <==> selinux == Private)
                            && FromSource(i.value, source))
  {
    PrintedBindIsKept(source, target, readOnly, selinux);
    assert |"rbind"| == 5 && |"ro"| == |"rw"| == 2 && |"z"| == |"Z"| == 1;
  }

  /** A bind without options arrives as well, with none but "rbind". */
  lemma ShortBindArrives(source: string, target: string)
    requires ':' !in source && ':' !in target
    ensures var i := BindItem(source + ":" + target);
            i.Some? && Dest(i.value) == target && FromSource(i.value, source)
            && Opts(i.value) == if source != "" && source[0] == '/' then ["rbind"] else []
  {
    assert source + ":" + target == source + [':'] + target;
    SplitHead(source, target, ':');
    SplitSingle(target, ':');
  }

  // ----- engine mounts -----

  function Octal(n: nat): (s: string)
    ensures s != "" && forall i :: 0 <= i < |s| ==> '0' <= s[i] <= '7'
  {
    if n < 8 then ['0' + n as char] else Octal(n / 8) + ['0' + (n % 8) as char]
  }

  function OctalValue(s: string): nat
    requires forall i :: 0 <= i < |s| ==> '0' <= s[i] <= '7'
  {
    if s == "" then 0 else 8 * OctalValue(s[..|s| - 1]) + (s[|s| - 1] - '0') as nat
  }

  /** A file mode is printed in base 8. */
  lemma {:induction false} OctalRoundTrip(n: nat)
    ensures OctalValue(Octal(n)) == n
  {
    if n >= 8 {
      OctalRoundTrip(n / 8);
      assert Octal(n)[..|Octal(n)| - 1] == Octal(n / 8);
    }
  }

  function RenderPair(pair: seq<string>): string
    requires |pair| == 1 || |pair| == 2
  {
    if |pair| == 1 then pair[0] else pair[0] + "=" + pair[1]
  }

  predicate PairsOk(pairs: seq<seq<string>>) {
    forall i :: 0 <= i < |pairs| ==> |pairs[i]| == 1 || |pairs[i]| == 2
  }

  function RenderPairs(pairs: seq<seq<string>>): (r: seq<string>)
    requires PairsOk(pairs)
    ensures |r| == |pairs| && forall i :: 0 <= i < |pairs| ==> r[i] == RenderPair(pairs[i])
  {
    seq(|pairs|, i requires 0 <= i < |pairs| => RenderPair(pairs[i]))
  }

  /** A tmpfs option that driver_config split into a pair comes out as it went in. */
  lemma PairRoundTrip(option: string)
    ensures RenderPair(PairOf(option)) == option
  {
  }

  function AccessOption(readOnly: bool): seq<string> {
    if readOnly then ["ro"] else []
  }

  function BindMountOptions(b: Option<BindOptions>): seq<string> {
    ["rbind"]
    + if b.None? then []
      else (if b.value.propagation != "" then [b.value.propagation] else [])
           + (if b.value.nonRecursive then ["bind-nonrecursive"] else [])
           + (if b.value.readOnlyNonRecursive then ["ro"] else [])
  }

  function SizeOptions(t: TmpfsOptions): seq<string> {
    (if t.size > 0 then ["size=" + Decimal(t.size)] else [])
    + (if t.mode > 0 then ["mode=" + Octal(t.mode)] else [])
  }

  predicate MountOk(m: Mount) {
    match m.kind
    case BindMount => m.bind.Some? ==> !m.bind.value.createMountpoint && !m.bind.value.readOnlyForceRecursive
    case VolumeMount => m.volume.Some? ==> m.volume.value == VolumeOptions("", false, false, false)
    case TmpfsMount => m.tmpfs.Some? ==> PairsOk(m.tmpfs.value.pairs)
    case _ => false
  }

  function MountOptions(m: Mount): seq<string>
    requires MountOk(m) && m.kind != VolumeMount
  {
    AccessOption(m.readOnly) +
    if m.kind == BindMount then BindMountOptions(m.bind)
    else if m.tmpfs.None? then ["rw"]
    else SizeOptions(m.tmpfs.value) + RenderPairs(m.tmpfs.value.pairs)
  }

  function MountItem(m: Mount): Item
    requires MountOk(m)
  {
    if m.kind == VolumeMount then V(NativeVolume(m.source, m.target, [if m.readOnly then "ro" else "rw"]))
    else M(NativeMount(if m.kind == BindMount then "bind" else "tmpfs", m.source, m.target, MountOptions(m)))
  }

  method TranslatePairs(pairs: seq<seq<string>>, options0: seq<string>) returns (ok: bool, options: seq<string>)
    ensures ok <==> PairsOk(pairs)
    ensures ok ==> options == options0 + RenderPairs(pairs)
  {
    options := options0;
    for i := 0 to |pairs|
      invariant PairsOk(pairs[..i]) && options == options0 + RenderPairs(pairs[..i])
    {
      if |pairs[i]| == 1 || |pairs[i]| == 2 {
        options := options + [RenderPair(pairs[i])];
        assert RenderPairs(pairs[..i + 1]) == RenderPairs(pairs[..i]) + [RenderPair(pairs[i])];
      } else {
        return false, options;
      }
    }
    assert pairs[..|pairs|] == pairs;
    ok := true;
  }

  method TranslateTmpfs(t: TmpfsOptions, options0: seq<string>) returns (ok: bool, options: seq<string>)
    ensures ok <==> PairsOk(t.pairs)
    ensures ok ==> options == options0 + (SizeOptions(t) + RenderPairs(t.pairs))
  {
    options := options0;
    if t.size > 0 {
      options := options + ["size=" + Decimal(t.size)];
    }
    if t.mode > 0 {
      options := options + ["mode=" + Octal(t.mode)];
    }
    assert options == options0 + SizeOptions(t);
    ok, options := TranslatePairs(t.pairs, options);
  }

  method TranslateMount(m: Mount) returns (r: Option<NativeMount>)
    ensures r.Some? <==> MountOk(m) && m.kind != VolumeMount
    ensures r.Some? ==> MountItem(m) == M(r.value)
  {
    var options: seq<string> := [];
    if m.readOnly {
      options := options + ["ro"];
    }
    if m.kind == BindMount {
      options := options + ["rbind"];
      if m.bind.Some? {
        var b := m.bind.value;
        if b.propagation != "" {
          options := options + [b.propagation];
        }
        if b.nonRecursive {
          options := options + ["bind-nonrecursive"];
        }
        if b.createMountpoint {
          return None;
        }
        if b.readOnlyNonRecursive {
          options := options + ["ro"];
        }
        if b.readOnlyForceRecursive {
          return None;
        }
      }
      assert options == MountOptions(m);
      return Some(NativeMount("bind", m.source, m.target, options));
    }
    if m.kind == TmpfsMount {
      if m.tmpfs.Some? {
        var ok;
        ok, options := TranslateTmpfs(m.tmpfs.value, options);
        if !ok {
          return None;
        }
      } else {
        options := options + ["rw"];
      }
      return Some(NativeMount("tmpfs", m.source, m.target, options));
    }
    r := None;
  }

  /** When a translated mount says exactly the access mode that was asked for. */
  predicate AccessKept(m: Mount)
    requires MountOk(m)
  {
    if m.kind == VolumeMount then true
    else if m.kind == BindMount then
      m.bind.Some? ==>
        (if m.readOnly then m.bind.value.propagation != "rw"
         else m.bind.value.propagation != "ro" && !m.bind.value.readOnlyNonRecursive)
    else if m.tmpfs.None? then !m.readOnly
    else forall i :: 0 <= i < |m.tmpfs.value.pairs| ==> RenderPair(m.tmpfs.value.pairs[i]) != if m.readOnly then "rw" else "ro"
  }

  lemma AccessOfVolume(m: Mount)
    requires MountOk(m) && m.kind == VolumeMount
    ensures SaysReadOnly(Opts(MountItem(m)), m.readOnly)
  {
    assert "ro"[1] != "rw"[1];
  }

  lemma InEither(a: seq<string>, b: seq<string>, x: string)
    ensures x in a + b <==> x in a || x in b
  {
  }

  /** Access options in front of others: what the others may not say. */
  lemma AccessBefore(rest: seq<string>, readOnly: bool)
    ensures SaysReadOnly(AccessOption(readOnly) + rest, readOnly) <==> (if readOnly then "rw" else "ro") !in rest
  {
    assert "ro"[1] != "rw"[1];
    InEither(AccessOption(readOnly), rest, "ro");
    InEither(AccessOption(readOnly), rest, "rw");
  }

  lemma BindOptionsSay(b: BindOptions, x: string)
    requires |x| == 2
    ensures x in BindMountOptions(Some(b)) <==> x == b.propagation || (x == "ro" && b.readOnlyNonRecursive)
  {
    assert |"rbind"| == 5 && |"bind-nonrecursive"| == 17;
    var p := if b.propagation != "" then [b.propagation] else [];
    var q := if b.nonRecursive then ["bind-nonrecursive"] else [];
    var r := if b.readOnlyNonRecursive then ["ro"] else [];
    InEither(["rbind"], p + q + r, x);
    InEither(p + q, r, x);
    InEither(p, q, x);
  }

  lemma AccessOfBind(m: Mount)
    requires MountOk(m) && m.kind == BindMount
    ensures SaysReadOnly(Opts(MountItem(m)), m.readOnly) <==> AccessKept(m)
  {
    AccessBefore(BindMountOptions(m.bind), m.readOnly);
    assert |"rbind"| == 5 && |"ro"| == 2 && |"rw"| == 2 && "ro"[1] != "rw"[1];
    if m.bind.Some? {
      BindOptionsSay(m.bind.value, "ro");
      BindOptionsSay(m.bind.value, "rw");
    }
  }

  lemma AccessOfTmpfs(m: Mount)
    requires MountOk(m) && m.kind == TmpfsMount
    ensures SaysReadOnly(Opts(MountItem(m)), m.readOnly) <==> AccessKept(m)
  {
    var x := if m.readOnly then "rw" else "ro";
    assert "ro"[1] != "rw"[1];
    if m.tmpfs.Some? {
      var t := m.tmpfs.value;
      AccessBefore(SizeOptions(t) + RenderPairs(t.pairs), m.readOnly);
      InEither(SizeOptions(t), RenderPairs(t.pairs), x);
      assert |"size="| == 5 && |"mode="| == 5 && |x| == 2;
      assert forall i :: 0 <= i < |SizeOptions(t)| ==> |SizeOptions(t)[i]| >= 5;
    } else {
      AccessBefore(["rw"], m.readOnly);
    }
  }

  /**
   A mount keeps its destination, and its access mode exactly under AccessKept: a
   read-only tmpfs with the option "rw", for one, comes out saying both.
   */
  lemma MountArrives(m: Mount)
    requires MountOk(m)
    ensures Dest(MountItem(m)) == m.target
    ensures m.kind == VolumeMount ==> MountItem(m).V? && MountItem(m).volume.name == m.source
    ensures m.kind == BindMount ==> MountItem(m).M? && MountItem(m).mount.kind == "bind" && MountItem(m).mount.source == m.source
    ensures m.kind == TmpfsMount ==> MountItem(m).M? && MountItem(m).mount.kind == "tmpfs"
    ensures SaysReadOnly(Opts(MountItem(m)), m.readOnly) <==> AccessKept(m)
  {
    if m.kind == VolumeMount {
      AccessOfVolume(m);
    } else if m.kind == BindMount {
      AccessOfBind(m);
    } else {
      AccessOfTmpfs(m);
    }
  }

  /** The options of a translated bind are these and no others. */
  lemma BindMountSays(m: Mount, x: string)
    requires MountOk(m) && m.kind == BindMount
    ensures x in Opts(MountItem(m)) <==>
            || x == "rbind"
            || (x == "ro" && (m.readOnly || (m.bind.Some? && m.bind.value.readOnlyNonRecursive)))
            || (m.bind.Some? && x != "" && x == m.bind.value.propagation)
            || (m.bind.Some? && x == "bind-nonrecursive" && m.bind.value.nonRecursive)
  {
    InEither(AccessOption(m.readOnly), BindMountOptions(m.bind), x);
    if m.bind.Some? {
      var b := m.bind.value;
      var p := if b.propagation != "" then [b.propagation] else [];
      var q := if b.nonRecursive then ["bind-nonrecursive"] else [];
      var r := if b.readOnlyNonRecursive then ["ro"] else [];
      InEither(["rbind"], p + q + r, x);
      InEither(p + q, r, x);
      InEither(p, q, x);
    }
  }

  /** So are those of a tmpfs: access mode, size, file mode in base 8, and the pairs as they were written. */
  lemma TmpfsMountSays(m: Mount, x: string)
    requires MountOk(m) && m.kind == TmpfsMount && m.tmpfs.Some?
    ensures var t := m.tmpfs.value;
            x in Opts(MountItem(m)) <==>
            || (m.readOnly && x == "ro")
            || (t.size > 0 && x == "size=" + Decimal(t.size))
            || (t.mode > 0 && x == "mode=" + Octal(t.mode))
            || exists i :: 0 <= i < |t.pairs| && RenderPair(t.pairs[i]) == x
  {
    var t := m.tmpfs.value;
    InEither(AccessOption(m.readOnly), SizeOptions(t) + RenderPairs(t.pairs), x);
    InEither(SizeOptions(t), RenderPairs(t.pairs), x);
    assert x in RenderPairs(t.pairs) <==> exists i :: 0 <= i < |t.pairs| && RenderPair(t.pairs[i]) == x;
  }

  // ----- from driver_config to the spec -----

  /** What a configured mount becomes in the spec, if it can be expressed. */
  function ItemOf(o: Outcome): Option<Item> {
    match o
    case AsBind(bind, _) => BindItem(bind)
    case AsMount(m, _) => if MountOk(m) then Some(MountItem(m)) else None
  }

  /** No tmpfs option contradicts the access mode; leaving read_only out means read-only. */
  predicate OptionsAgree(cfg: MountConfig)
    requires ReadOnlyField(cfg.readOnly).Some?
  {
    cfg.kind == Given("tmpfs") ==>
      (if ReadOnlyField(cfg.readOnly).value then "rw" else "ro") !in Or(cfg.options, [])
  }

  lemma PairedSays(options: seq<string>, pairs: seq<seq<string>>, x: string)
    requires Paired(options, pairs)
    ensures PairsOk(pairs)
    ensures x in options <==> exists i :: 0 <= i < |pairs| && RenderPair(pairs[i]) == x
  {
    forall i | 0 <= i < |pairs|
      ensures (|pairs[i]| == 1 || |pairs[i]| == 2) && RenderPair(pairs[i]) == options[i]
    {
      PairRoundTrip(options[i]);
    }
  }

  /** A configured bind arrives as a recursive bind of its source, with the SELinux letter of its label. */
  predicate BindArrived(cfg: MountConfig, i: Item) {
    cfg.source.Given? && FromSource(i, cfg.source.value)
    && ("z" in Opts(i) <==> cfg.selinux == Given("shared"))
    && ("Z" in Opts(i) <==> cfg.selinux == Given("private"))
  }

  /** A configured tmpfs arrives with its size, its mode and its options. */
  predicate TmpfsArrived(size: int, mode: int, options: seq<string>, i: Item) {
    && i.M? && i.mount.kind == "tmpfs"
    && (size > 0 ==> "size=" + Decimal(size) in Opts(i))
    && (mode > 0 ==> "mode=" + Octal(mode) in Opts(i))
    && forall o :: o in options ==> o in Opts(i)
  }

  lemma LabelArrives(selinux: Given<string>)
    requires StringField(selinux, false).Some?
    ensures LabelOf(StringField(selinux, false).value) == Shared <==> selinux == Given("shared")
    ensures LabelOf(StringField(selinux, false).value) == Private <==> selinux == Given("private")
  {
    assert "shared"[0] == 's' && "private"[0] == 'p';
  }

  lemma SizeAndModeArrive(m: Mount)
    requires MountOk(m) && m.kind == TmpfsMount && m.tmpfs.Some?
    ensures m.tmpfs.value.size > 0 ==> "size=" + Decimal(m.tmpfs.value.size) in Opts(MountItem(m))
    ensures m.tmpfs.value.mode > 0 ==> "mode=" + Octal(m.tmpfs.value.mode) in Opts(MountItem(m))
  {
    if m.tmpfs.value.size > 0 {
      TmpfsMountSays(m, "size=" + Decimal(m.tmpfs.value.size));
    }
    if m.tmpfs.value.mode > 0 {
      TmpfsMountSays(m, "mode=" + Octal(m.tmpfs.value.mode));
    }
  }

  lemma PairedArrive(m: Mount, options: seq<string>)
    requires MountOk(m) && m.kind == TmpfsMount && m.tmpfs.Some? && Paired(options, m.tmpfs.value.pairs)
    ensures forall o :: o in options ==> o in Opts(MountItem(m))
  {
    forall o | o in options
      ensures o in Opts(MountItem(m))
    {
      PairedSays(options, m.tmpfs.value.pairs, o);
      TmpfsMountSays(m, o);
    }
  }

  lemma TmpfsArrives(m: Mount, options: seq<string>)
    requires MountOk(m) && m.kind == TmpfsMount && m.tmpfs.Some? && Paired(options, m.tmpfs.value.pairs)
    ensures TmpfsArrived(m.tmpfs.value.size, m.tmpfs.value.mode, options, MountItem(m))
  {
    SizeAndModeArrive(m);
    PairedArrive(m, options);
  }

  /**
   An accepted mount arrives at its target and as what it is: a bind with its source and
   label, a named volume, or a tmpfs with its options. It arrives with its access mode
   exactly when its options agree with it.
   */
  lemma ConfiguredMountArrives(cfg: MountConfig, o: Outcome)
    requires Faithful(cfg, o) && ItemOf(o).Some?
    ensures Dest(ItemOf(o).value) == TrimOneSlash(cfg.target.value)
    ensures cfg.kind == Given("bind") ==> BindArrived(cfg, ItemOf(o).value)
    ensures cfg.kind == Given("volume") ==> ItemOf(o).value.V? && cfg.source == Given(ItemOf(o).value.volume.name)
    ensures cfg.kind == Given("tmpfs") ==>
              TmpfsArrived(Or(cfg.size, 0), Or(cfg.mode, 0) % 0x1_0000_0000, Or(cfg.options, []), ItemOf(o).value)
    ensures SaysReadOnly(Opts(ItemOf(o).value), ReadOnlyField(cfg.readOnly).value) <==> OptionsAgree(cfg)
  {
    KindsDiffer();
    var readOnly := ReadOnlyField(cfg.readOnly).value;
    match o
    case AsBind(bind, at) =>
      PrintedBindArrives(StringField(cfg.source, true).value, at, readOnly, LabelOf(StringField(cfg.selinux, false).value));
      LabelArrives(cfg.selinux);
    case AsMount(m, at) =>
      MountArrives(m);
      if m.kind == TmpfsMount {
        PairedSays(Or(cfg.options, []), m.tmpfs.value.pairs, if readOnly then "rw" else "ro");
        TmpfsArrives(m, Or(cfg.options, []));
      }
  }

  /** A tmpfs with the option "rw" and no read_only is accepted and arrives saying both "ro" and "rw". */
  lemma ContraryTmpfsIsAccepted(cfg: MountConfig, enableBinds: bool, roots: seq<string>, o: Outcome)
    requires cfg.kind == Given("tmpfs") && !cfg.unknownField && cfg.target.Given? && GoodTarget(TrimOneSlash(cfg.target.value), roots)
    requires cfg.options == Given(["rw"]) && cfg.readOnly == Absent && cfg.size == Absent && cfg.mode == Absent
    requires Faithful(cfg, o)
    ensures Acceptable(cfg, enableBinds, roots) && ItemOf(o).Some?
    ensures "ro" in Opts(ItemOf(o).value) && "rw" in Opts(ItemOf(o).value)
  {
    KindsDiffer();
    assert OptionOk("rw");
    var m := o.mount;
    var pairs := m.tmpfs.value.pairs;
    PairedSays(["rw"], pairs, "rw");
    assert RenderPairs(pairs)[0] == "rw";
    var rest := SizeOptions(m.tmpfs.value) + RenderPairs(pairs);
    InEither(SizeOptions(m.tmpfs.value), RenderPairs(pairs), "rw");
    InEither(AccessOption(true), rest, "rw");
    InEither(AccessOption(true), rest, "ro");
  }

  // ----- all mounts together -----

  function MountsIn(items: seq<Item>): seq<NativeMount> {
    if items == [] then []
    else
      var rest, i := MountsIn(items[..|items| - 1]), items[|items| - 1];
      if i.M? then rest + [i.mount] else rest
  }

  function VolumesIn(items: seq<Item>): seq<NativeVolume> {
    if items == [] then []
    else
      var rest, i := VolumesIn(items[..|items| - 1]), items[|items| - 1];
      if i.V? then rest + [i.volume] else rest
  }

  /** Every item is in exactly one of the two lists. */
  lemma {:induction false} EveryItemArrives(items: seq<Item>)
    ensures |MountsIn(items)| + |VolumesIn(items)| == |items|
    ensures forall i :: i in items ==> if i.M? then i.mount in MountsIn(items) else i.volume in VolumesIn(items)
    ensures forall m :: m in MountsIn(items) ==> M(m) in items
    ensures forall v :: v in VolumesIn(items) ==> V(v) in items
  {
    if items != [] {
      EveryItemArrives(items[..|items| - 1]);
      assert items == items[..|items| - 1] + [items[|items| - 1]];
    }
  }

  predicate BindsOk(binds: seq<string>) {
    forall i :: 0 <= i < |binds| ==> BindItem(binds[i]).Some?
  }

  function BindItems(binds: seq<string>): (r: seq<Item>)
    requires BindsOk(binds)
    ensures |r| == |binds| && forall i :: 0 <= i < |r| ==> Some(r[i]) == BindItem(binds[i])
  {
    seq(|binds|, i requires 0 <= i < |binds| => BindItem(binds[i]).value)
  }

  predicate MountsOk(ms: seq<Mount>) {
    forall i :: 0 <= i < |ms| ==> MountOk(ms[i])
  }

  function MountItems(ms: seq<Mount>): (r: seq<Item>)
    requires MountsOk(ms)
    ensures |r| == |ms| && forall i :: 0 <= i < |r| ==> r[i] == MountItem(ms[i])
  {
    seq(|ms|, i requires 0 <= i < |ms| => MountItem(ms[i]))
  }

  function TmpfsItems(targets: seq<string>, tmpfs: map<string, string>): (r: seq<Item>)
    requires forall t :: t in targets ==> t in tmpfs
    ensures |r| == |targets|
    ensures forall i :: 0 <= i < |r| ==> r[i] == M(NativeMount("tmpfs", "tmpfs", targets[i], Split(tmpfs[targets[i]], ',')))
  {
    seq(|targets|, i requires 0 <= i < |targets| => M(NativeMount("tmpfs", "tmpfs", targets[i], Split(tmpfs[targets[i]], ','))))
  }

  /** The two lists of a spec hold exactly these items, in order. */
  ghost predicate Holds(mounts: seq<NativeMount>, volumes: seq<NativeVolume>, items: seq<Item>) {
    mounts == MountsIn(items) && volumes == VolumesIn(items)
  }

  lemma HoldsOneMore(mounts: seq<NativeMount>, volumes: seq<NativeVolume>, items: seq<Item>, i: Item)
    requires Holds(mounts, volumes, items)
    ensures i.M? ==> Holds(mounts + [i.mount], volumes, items + [i])
    ensures i.V? ==> Holds(mounts, volumes + [i.volume], items + [i])
  {
    assert (items + [i])[..|items + [i]| - 1] == items;
  }

  lemma BindItemsSnoc(binds: seq<string>, i: nat)
    requires i < |binds| && BindsOk(binds[..i])
    ensures BindsOk(binds[..i + 1]) <==> BindItem(binds[i]).Some?
    ensures BindItem(binds[i]).Some? ==> BindItems(binds[..i + 1]) == BindItems(binds[..i]) + [BindItem(binds[i]).value]
  {
    assert binds[..i + 1] == binds[..i] + [binds[i]];
    assert binds[..i + 1][i] == binds[i];
  }

  method TranslateBind(bind: string) returns (r: Option<Item>)
    ensures r == BindItem(bind)
  {
    var parts := Split(bind, ':');
    if |parts| < 2 || |parts| > 3 {
      return None;
    }
    var opts: seq<string> := [];
    if |parts| == 3 {
      opts := Split(parts[2], ',');
    }
    if parts[0] != "" && parts[0][0] == '/' {
      if "rbind" !in opts {
        opts := opts + ["rbind"];
      }
      return Some(M(NativeMount("bind", parts[0], parts[1], opts)));
    }
    r := Some(V(NativeVolume(parts[0], parts[1], opts)));
  }

  /** Append one item to the list it belongs to. */
  method Append(item: Item, mounts0: seq<NativeMount>, volumes0: seq<NativeVolume>, ghost done: seq<Item>)
    returns (mounts: seq<NativeMount>, volumes: seq<NativeVolume>)
    requires Holds(mounts0, volumes0, done)
    ensures Holds(mounts, volumes, done + [item])
  {
    HoldsOneMore(mounts0, volumes0, done, item);
    match item
    case M(m) => mounts, volumes := mounts0 + [m], volumes0;
    case V(v) => mounts, volumes := mounts0, volumes0 + [v];
  }

  method AddBinds(binds: seq<string>) returns (ok: bool, mounts: seq<NativeMount>, volumes: seq<NativeVolume>)
    ensures ok <==> BindsOk(binds)
    ensures ok ==> Holds(mounts, volumes, BindItems(binds))
  {
    ok, mounts, volumes := false, [], [];
    for i := 0 to |binds|
      invariant BindsOk(binds[..i]) && Holds(mounts, volumes, BindItems(binds[..i]))
    {
      BindItemsSnoc(binds, i);
      var item := TranslateBind(binds[i]);
      if item.None? {
        return;
      }
      mounts, volumes := Append(item.value, mounts, volumes, BindItems(binds[..i]));
    }
    assert binds[..|binds|] == binds;
    ok := true;
  }

  lemma MountItemsSnoc(ms: seq<Mount>, i: nat, done: seq<Item>)
    requires i < |ms| && MountsOk(ms[..i])
    ensures MountsOk(ms[..i + 1]) <==> MountOk(ms[i])
    ensures MountOk(ms[i]) ==> done + MountItems(ms[..i + 1]) == done + MountItems(ms[..i]) + [MountItem(ms[i])]
  {
    assert ms[..i + 1] == ms[..i] + [ms[i]];
    assert ms[..i + 1][i] == ms[i];
    if MountOk(ms[i]) {
      assert MountItems(ms[..i + 1]) == MountItems(ms[..i]) + [MountItem(ms[i])];
    }
  }

  /** One engine mount: named volumes become volumes, the rest goes through TranslateMount. */
  method TranslateItem(m: Mount) returns (r: Option<Item>)
    ensures r.Some? <==> MountOk(m)
    ensures r.Some? ==> r.value == MountItem(m)
  {
    if m.kind == VolumeMount {
      if m.volume.Some? && (m.volume.value.subpath != "" || m.volume.value.noCopy || m.volume.value.hasLabels || m.volume.value.hasDriver) {
        return None;
      }
      var mode := "rw";
      if m.readOnly {
        mode := "ro";
      }
      return Some(V(NativeVolume(m.source, m.target, [mode])));
    }
    var t := TranslateMount(m);
    r := if t.None? then None else Some(M(t.value));
  }

  method AddMounts(ms: seq<Mount>, mounts0: seq<NativeMount>, volumes0: seq<NativeVolume>, ghost done: seq<Item>)
    returns (ok: bool, mounts: seq<NativeMount>, volumes: seq<NativeVolume>)
    requires Holds(mounts0, volumes0, done)
    ensures ok <==> MountsOk(ms)
    ensures ok ==> Holds(mounts, volumes, done + MountItems(ms))
  {
    ok, mounts, volumes := false, mounts0, volumes0;
    assert done + MountItems(ms[..0]) == done;
    for i := 0 to |ms|
      invariant MountsOk(ms[..i]) && Holds(mounts, volumes, done + MountItems(ms[..i]))
    {
      MountItemsSnoc(ms, i, done);
      var item := TranslateItem(ms[i]);
      if item.None? {
        return;
      }
      mounts, volumes := Append(item.value, mounts, volumes, done + MountItems(ms[..i]));
    }
    assert ms[..|ms|] == ms;
    ok := true;
  }

  /** The tmpfs targets sorted, whatever order the map was walked in. */
  method SortTargets(order: seq<string>) returns (sorted: seq<string>)
    ensures multiset(sorted) == multiset(order) && Sorted(sorted, Before)
    ensures forall t :: t in sorted <==> t in order
  {
    sorted := Sort(order, Before);
    BeforeIsOrder();
    SortSorts(order, Before);
    SameMembers(sorted, order);
  }

  lemma TmpfsItemsSnoc(targets: seq<string>, tmpfs: map<string, string>, i: nat, done: seq<Item>)
    requires i < |targets| && forall t :: t in targets ==> t in tmpfs
    ensures done + TmpfsItems(targets[..i + 1], tmpfs) ==
            done + TmpfsItems(targets[..i], tmpfs) + [M(NativeMount("tmpfs", "tmpfs", targets[i], Split(tmpfs[targets[i]], ',')))]
  {
    assert TmpfsItems(targets[..i + 1], tmpfs) ==
      TmpfsItems(targets[..i], tmpfs) + [M(NativeMount("tmpfs", "tmpfs", targets[i], Split(tmpfs[targets[i]], ',')))];
  }

  method AddTmpfs(targets: seq<string>, tmpfs: map<string, string>, mounts0: seq<NativeMount>, volumes: seq<NativeVolume>,
                  ghost done: seq<Item>)
    returns (mounts: seq<NativeMount>)
    requires Holds(mounts0, volumes, done) && forall t :: t in targets ==> t in tmpfs
    ensures Holds(mounts, volumes, done + TmpfsItems(targets, tmpfs))
  {
    mounts := mounts0;
    assert done + TmpfsItems(targets[..0], tmpfs) == done;
    for i := 0 to |targets|
      invariant Holds(mounts, volumes, done + TmpfsItems(targets[..i], tmpfs))
    {
      TmpfsItemsSnoc(targets, tmpfs, i, done);
      var m := NativeMount("tmpfs", "tmpfs", targets[i], Split(tmpfs[targets[i]], ','));
      HoldsOneMore(mounts, volumes, done + TmpfsItems(targets[..i], tmpfs), M(m));
      mounts := mounts + [m];
    }
    assert targets[..|targets|] == targets;
  }

  // ----- ports -----

  datatype PortBinding = PortBinding(hostIp: Option<string>, hostPort: string)
  datatype PortEntry = PortEntry(num: nat, proto: string, bindings: seq<PortBinding>)
  datatype PortMapping = PortMapping(hostIp: string, hostPort: nat, containerPort: nat, protocol: string)

  const PORTS := 0x1_0000

  predicate HostPortOk(b: PortBinding) {
    b.hostPort == "" || ParseUint(b.hostPort, PORTS).Some?
  }

  predicate PortsOk(es: seq<PortEntry>) {
    forall i, j :: 0 <= i < |es| && 0 <= j < |es[i].bindings| ==> HostPortOk(es[i].bindings[j])
  }

  function Mapping(e: PortEntry, b: PortBinding): PortMapping
    requires HostPortOk(b)
  {
    PortMapping(if b.hostIp.Some? then b.hostIp.value else "",
                if b.hostPort == "" then 0 else ParseUint(b.hostPort, PORTS).value, e.num, e.proto)
  }

  function EntryMappings(e: PortEntry, bs: seq<PortBinding>): (r: seq<PortMapping>)
    requires forall j :: 0 <= j < |bs| ==> HostPortOk(bs[j])
    ensures |r| == |bs| && forall j :: 0 <= j < |r| ==> r[j] == Mapping(e, bs[j])
  {
    seq(|bs|, j requires 0 <= j < |bs| => Mapping(e, bs[j]))
  }

  function AllMappings(es: seq<PortEntry>): seq<PortMapping>
    requires PortsOk(es)
  {
    if es == [] then []
    else AllMappings(es[..|es| - 1]) + EntryMappings(es[|es| - 1], es[|es| - 1].bindings)
  }

  /** The mapping publishes the container's port on the host address and port of the binding; no host port is 0. */
  predicate Publishes(m: PortMapping, e: PortEntry, b: PortBinding) {
    && m.containerPort == e.num && m.protocol == e.proto
    && m.hostIp == (match b.hostIp case None => "" case Some(ip) => ip)
    && (b.hostPort == "" ==> m.hostPort == 0)
    && (b.hostPort != "" ==> AllDigits(b.hostPort) && m.hostPort == Value(b.hostPort) && m.hostPort < 65536)
  }

  lemma MappingPublishes(e: PortEntry, b: PortBinding)
    requires HostPortOk(b)
    ensures Publishes(Mapping(e, b), e, b)
  {
  }

  /** A host port printed in decimal is published as that number. */
  lemma PrintedPortIsPublished(m: PortMapping, e: PortEntry, b: PortBinding, p: nat)
    requires Publishes(m, e, b) && b.hostPort == Decimal(p)
    ensures m.hostPort == p
  {
    ParseDecimal(p, PORTS);
  }

  ghost predicate IsPublished(ms: seq<PortMapping>, e: PortEntry, b: PortBinding) {
    exists m :: m in ms && Publishes(m, e, b)
  }

  /** Every binding of every port is among the mappings. */
  lemma {:induction false} NoPortIsLost(es: seq<PortEntry>, i: nat, j: nat)
    requires PortsOk(es) && i < |es| && j < |es[i].bindings|
    ensures Mapping(es[i], es[i].bindings[j]) in AllMappings(es)
    ensures IsPublished(AllMappings(es), es[i], es[i].bindings[j])
  {
    MappingPublishes(es[i], es[i].bindings[j]);
    if i == |es| - 1 {
      var last := EntryMappings(es[i], es[i].bindings);
      assert last[j] in last;
    } else {
      NoPortIsLost(es[..|es| - 1], i, j);
    }
  }

  ghost predicate FromBinding(m: PortMapping, es: seq<PortEntry>) {
    exists i, j :: 0 <= i < |es| && 0 <= j < |es[i].bindings| && Publishes(m, es[i], es[i].bindings[j])
  }

  /** All bindings are published and nothing else is, one mapping for each. */
  ghost predicate PublishesAll(ms: seq<PortMapping>, es: seq<PortEntry>) {
    && |ms| == BindingCount(es)
    && (forall i, j :: 0 <= i < |es| && 0 <= j < |es[i].bindings| ==> IsPublished(ms, es[i], es[i].bindings[j]))
    && (forall m :: m in ms ==> FromBinding(m, es))
  }

  lemma AllArePublished(es: seq<PortEntry>)
    requires PortsOk(es)
    ensures PublishesAll(AllMappings(es), es)
  {
    NoPortIsAdded(es);
    forall i, j | 0 <= i < |es| && 0 <= j < |es[i].bindings|
      ensures IsPublished(AllMappings(es), es[i], es[i].bindings[j])
    {
      NoPortIsLost(es, i, j);
    }
  }

  function BindingCount(es: seq<PortEntry>): nat {
    if es == [] then 0 else BindingCount(es[..|es| - 1]) + |es[|es| - 1].bindings|
  }

  /** And there is no mapping more than that: as many as bindings, each from one of them. */
  lemma {:induction false} NoPortIsAdded(es: seq<PortEntry>)
    requires PortsOk(es)
    ensures |AllMappings(es)| == BindingCount(es)
    ensures forall m :: m in AllMappings(es) ==> FromBinding(m, es)
  {
    if es == [] {
      assert AllMappings(es) == [];
    } else {
      var init, e := es[..|es| - 1], es[|es| - 1];
      NoPortIsAdded(init);
      assert AllMappings(es) == AllMappings(init) + EntryMappings(e, e.bindings);
      forall m | m in AllMappings(es)
        ensures FromBinding(m, es)
      {
        if m in AllMappings(init) {
          var i, j :| 0 <= i < |init| && 0 <= j < |init[i].bindings| && Publishes(m, init[i], init[i].bindings[j]);
          assert es[i] == init[i];
        } else {
          var ms := EntryMappings(e, e.bindings);
          var j :| 0 <= j < |ms| && ms[j] == m;
          MappingPublishes(e, e.bindings[j]);
          assert es[|es| - 1] == e;
        }
      }
    }
  }

  method TranslateBindings(e: PortEntry) returns (ok: bool, mappings: seq<PortMapping>)
    ensures ok <==> forall j :: 0 <= j < |e.bindings| ==> HostPortOk(e.bindings[j])
    ensures ok ==> mappings == EntryMappings(e, e.bindings)
  {
    ok, mappings := false, [];
    for j := 0 to |e.bindings|
      invariant forall k :: 0 <= k < j ==> HostPortOk(e.bindings[k])
      invariant mappings == EntryMappings(e, e.bindings[..j])
    {
      var b := e.bindings[j];
      var hostPort := 0;
      if b.hostPort != "" {
        var parsed := ParseUint(b.hostPort, PORTS);
        if parsed.None? {
          assert !HostPortOk(e.bindings[j]);
          return;
        }
        hostPort := parsed.value;
      }
      var hostIp := if b.hostIp.Some? then b.hostIp.value else "";
      mappings := mappings + [PortMapping(hostIp, hostPort, e.num, e.proto)];
    }
    assert e.bindings[..|e.bindings|] == e.bindings;
    ok := true;
  }

  /** Succeeds exactly when every host port is one, and then publishes every binding and nothing else. */
  method TranslatePorts(es: seq<PortEntry>) returns (ok: bool, mappings: seq<PortMapping>)
    ensures ok <==> PortsOk(es)
    ensures ok ==> mappings == AllMappings(es) && PublishesAll(mappings, es)
  {
    ok, mappings := false, [];
    for i := 0 to |es|
      invariant PortsOk(es[..i]) && mappings == AllMappings(es[..i])
    {
      var fine, more := TranslateBindings(es[i]);
      if !fine {
        return;
      }
      mappings := mappings + more;
      assert es[..i + 1][..i] == es[..i];
    }
    assert es[..|es|] == es;
    AllArePublished(es);
    ok := true;
  }

  // ----- CDI devices -----

  datatype DeviceRequest = DeviceRequest(driver: string, ids: seq<string>)

  predicate DeviceOk(r: DeviceRequest) {
    r.driver == "cdi" && r.ids != [] && forall j :: 0 <= j < |r.ids| ==> TrimSpace(r.ids[j]) != ""
  }

  function Trimmed(ids: seq<string>): (r: seq<string>)
    ensures |r| == |ids| && forall j :: 0 <= j < |r| ==> r[j] == TrimSpace(ids[j])
  {
    seq(|ids|, j requires 0 <= j < |ids| => TrimSpace(ids[j]))
  }

  function AllDevices(rs: seq<DeviceRequest>): seq<string> {
    if rs == [] then [] else AllDevices(rs[..|rs| - 1]) + Trimmed(rs[|rs| - 1].ids)
  }

  function DeviceCount(rs: seq<DeviceRequest>): nat {
    if rs == [] then 0 else DeviceCount(rs[..|rs| - 1]) + |rs[|rs| - 1].ids|
  }

  /** Every requested device arrives under its trimmed ID, and none besides. */
  lemma {:induction false} NoDeviceIsLost(rs: seq<DeviceRequest>)
    ensures |AllDevices(rs)| == DeviceCount(rs)
    ensures forall i, j :: 0 <= i < |rs| && 0 <= j < |rs[i].ids| ==> TrimSpace(rs[i].ids[j]) in AllDevices(rs)
  {
    if rs != [] {
      var init, r := rs[..|rs| - 1], rs[|rs| - 1];
      NoDeviceIsLost(init);
      forall i, j | 0 <= i < |rs| && 0 <= j < |rs[i].ids|
        ensures TrimSpace(rs[i].ids[j]) in AllDevices(rs)
      {
        if i < |init| {
          assert rs[i] == init[i];
        } else {
          assert Trimmed(r.ids)[j] in Trimmed(r.ids);
        }
      }
    }
  }

  method TranslateDevices(rs: seq<DeviceRequest>) returns (ok: bool, devices: seq<string>)
    ensures ok <==> forall i :: 0 <= i < |rs| ==> DeviceOk(rs[i])
    ensures ok ==> devices == AllDevices(rs)
  {
    ok, devices := false, [];
    for i := 0 to |rs|
      invariant forall k :: 0 <= k < i ==> DeviceOk(rs[k])
      invariant devices == AllDevices(rs[..i])
    {
      var r := rs[i];
      if r.driver != "cdi" || |r.ids| == 0 {
        assert !DeviceOk(rs[i]);
        return;
      }
      ghost var before := devices;
      assert before + Trimmed(r.ids[..0]) == before;
      for j := 0 to |r.ids|
        invariant forall k :: 0 <= k < j ==> TrimSpace(r.ids[k]) != ""
        invariant devices == before + Trimmed(r.ids[..j])
      {
        var id := TrimSpace(r.ids[j]);
        if id == "" {
          assert !DeviceOk(rs[i]);
          return;
        }
        devices := devices + [id];
        assert Trimmed(r.ids[..j + 1]) == Trimmed(r.ids[..j]) + [id];
      }
      assert r.ids[..|r.ids|] == r.ids;
      assert rs[..i + 1][..i] == rs[..i];
    }
    assert rs[..|rs|] == rs;
    ok := true;
  }
}
