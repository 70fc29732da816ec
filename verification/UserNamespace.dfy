/**
 User-namespace settings of the Podman backend: the mode and the ID maps as configured,
 and as the Libpod spec wants them.
 */
module UserNamespace {
  import opened GoStrings

  const IDS := 0x1_0000_0000

  /** Three 32-bit numbers. */
  datatype IdMapping = IdMapping(containerId: nat, hostId: nat, size: nat)

  predicate Fits32(m: IdMapping) {
    m.containerId < IDS && m.hostId < IDS && m.size < IDS
  }

  // ----- idMapListValue -----

  function ParseEntry(entry: string): Option<IdMapping> {
    var parts := Split(entry, ':');
    if |parts| != 3 then None
    else
      var c, h, s := ParseUint(parts[0], IDS), ParseUint(parts[1], IDS), ParseUint(parts[2], IDS);
      if c.Some? && h.Some? && s.Some? && s.value != 0 then Some(IdMapping(c.value, h.value, s.value)) else None
  }

  function PrintEntry(m: IdMapping): string {
    Decimal(m.containerId) + ":" + Decimal(m.hostId) + ":" + Decimal(m.size)
  }

  lemma DigitsHaveNoColon(n: nat)
    ensures ':' !in Decimal(n)
  {
    var s := Decimal(n);
    assert forall i :: 0 <= i < |s| ==> IsDigit(s[i]) && s[i] != ':';
  }

  /** Printed mappings read back, except the empty ones, which are refused. */
  lemma EntryRoundTrip(m: IdMapping)
    requires Fits32(m)
    ensures ParseEntry(PrintEntry(m)) == if m.size != 0 then Some(m) else None
  {
    var c, h, s := Decimal(m.containerId), Decimal(m.hostId), Decimal(m.size);
    DigitsHaveNoColon(m.containerId);
    DigitsHaveNoColon(m.hostId);
    DigitsHaveNoColon(m.size);
    assert PrintEntry(m) == c + [':'] + (h + [':'] + s);
    SplitHead(c, h + [':'] + s, ':');
    SplitHead(h, s, ':');
    SplitSingle(s, ':');
    ParseDecimal(m.containerId, IDS);
    ParseDecimal(m.hostId, IDS);
    ParseDecimal(m.size, IDS);
  }

  method ParseNumbers(parts: seq<string>) returns (r: Option<seq<nat>>)
    ensures r.Some? <==> forall j :: 0 <= j < |parts| ==> ParseUint(parts[j], IDS).Some?
    ensures r.Some? ==> |r.value| == |parts| && forall j :: 0 <= j < |parts| ==> ParseUint(parts[j], IDS) == Some(r.value[j])
  {
    var values: seq<nat> := [];
    for j := 0 to |parts|
      invariant |values| == j && forall k :: 0 <= k < j ==> ParseUint(parts[k], IDS) == Some(values[k])
    {
      var v := ParseUint(parts[j], IDS);
      if v.None? {
        return None;
      }
      values := values + [v.value];
    }
    r := Some(values);
  }

  method IdMapList(entries: seq<string>) returns (r: Option<seq<IdMapping>>)
    ensures r.Some? <==> forall i :: 0 <= i < |entries| ==> ParseEntry(entries[i]).Some?
    ensures r.Some? ==> |r.value| == |entries| && forall i :: 0 <= i < |entries| ==> ParseEntry(entries[i]) == Some(r.value[i])
    ensures r.Some? ==> forall i :: 0 <= i < |entries| ==> Fits32(r.value[i]) && r.value[i].size > 0
  {
    var mappings: seq<IdMapping> := [];
    for i := 0 to |entries|
      invariant |mappings| == i && forall k :: 0 <= k < i ==> ParseEntry(entries[k]) == Some(mappings[k])
    {
      var parts := Split(entries[i], ':');
      if |parts| != 3 {
        return None;
      }
      var values := ParseNumbers(parts);
      if values.None? || values.value[2] == 0 {
        return None;
      }
      mappings := mappings + [IdMapping(values.value[0], values.value[1], values.value[2])];
    }
    r := Some(mappings);
  }

  // ----- canonicalUsernsMode and the cross-field rules of ConfigFromMap -----

  function CanonicalMode(input: string): Option<string> {
    if input == "" then Some("")
    else
      var cut := Cut(input, ':');
      var mode := ToLower(cut.before);
      if mode == "auto" || mode == "keep-id" then
        if cut.found && TrimSpace(cut.after) == "" then None
        else Some(if cut.found then mode + ":" + cut.after else mode)
      else if mode == "host" || mode == "nomap" || mode == "no-map" || mode == "private" then
        if cut.found then None else Some(if mode == "nomap" then "no-map" else mode)
      else None
  }

  predicate ConfigOk(mode: string, uid: seq<IdMapping>, gid: seq<IdMapping>) {
    if mode == "private" then uid != [] && gid != [] else uid == [] && gid == []
  }

  // ----- what buildNativeSpec asks -----

  predicate RangeOk(m: IdMapping) {
    m.size != 0 && m.containerId + m.size <= IDS && m.hostId + m.size <= IDS
  }

  method ValidateIdMap(ms: seq<IdMapping>) returns (ok: bool)
    ensures ok <==> forall i :: 0 <= i < |ms| ==> RangeOk(ms[i])
  {
    for i := 0 to |ms|
      invariant forall j :: 0 <= j < i ==> RangeOk(ms[j])
    {
      if ms[i].size == 0 {
        return false;
      }
      if ms[i].containerId + ms[i].size > IDS || ms[i].hostId + ms[i].size > IDS {
        return false;
      }
    }
    ok := true;
  }

  predicate KnownMode(m: string) {
    m == "private" || m == "auto" || m == "host" || m == "keep-id" || m == "no-map"
  }

  predicate ModeOk(usernsMode: string) {
    var cut := Cut(usernsMode, ':');
    usernsMode != "" && KnownMode(cut.before) && (cut.before == "host" || cut.before == "no-map" ==> !cut.found)
  }

  predicate MapsOk(mode: string, uid: seq<IdMapping>, gid: seq<IdMapping>) {
    && (if mode == "private" then uid != [] && gid != [] && |uid| == |gid| else uid == [] && gid == [])
    && (forall i :: 0 <= i < |uid| ==> RangeOk(uid[i]))
    && (forall i :: 0 <= i < |gid| ==> RangeOk(gid[i]))
  }

  method CheckMaps(mode: string, uid: seq<IdMapping>, gid: seq<IdMapping>) returns (ok: bool)
    ensures ok <==> MapsOk(mode, uid, gid)
  {
    if mode == "private" {
      if |uid| == 0 || |gid| == 0 || |uid| != |gid| {
        return false;
      }
    } else if |uid| != 0 || |gid| != 0 {
      return false;
    }
    var uidOk := ValidateIdMap(uid);
    var gidOk := ValidateIdMap(gid);
    ok := uidOk && gidOk;
  }

  datatype IdMappings = IdMappings(auto: bool, uid: seq<IdMapping>, gid: seq<IdMapping>)
  datatype UserNs = UserNs(mode: string, value: Option<string>, ids: Option<IdMappings>)

  /** The mode with its value, and both maps in order in a record that exists for auto and private. */
  predicate CarriesMode(ns: UserNs, usernsMode: string, uid: seq<IdMapping>, gid: seq<IdMapping>) {
    var cut := Cut(usernsMode, ':');
    && ns.mode == cut.before && ns.value == (if cut.found then Some(cut.after) else None)
    && ns.ids == if cut.before == "auto" || cut.before == "private" then Some(IdMappings(cut.before == "auto", uid, gid)) else None
  }

  /**
   The user-namespace part of buildNativeSpec. The maps are appended to an ID-mapping
   record that exists only for the modes auto and private.
   */
  method BuildUserNs(usernsMode: string, uid: seq<IdMapping>, gid: seq<IdMapping>) returns (r: Option<UserNs>)
    requires usernsMode != ""
    ensures r.Some? <==> ModeOk(usernsMode) && MapsOk(Cut(usernsMode, ':').before, uid, gid)
    ensures r.Some? ==> CarriesMode(r.value, usernsMode, uid, gid)
  {
    var cut := Cut(usernsMode, ':');
    var mode := cut.before;
    if !KnownMode(mode) {
      return None;
    }
    if (mode == "host" || mode == "no-map") && cut.found {
      return None;
    }
    var mapsOk := CheckMaps(mode, uid, gid);
    if !mapsOk {
      return None;
    }
    var ids := None;
    if mode == "auto" || mode == "private" {
      ids := Some(IdMappings(mode == "auto", [], []));
    }
    ids := FillMaps(ids, uid, gid);
    r := Some(UserNs(mode, if cut.found then Some(cut.after) else None, ids));
  }

  /** Append the maps to the record; without one there must be nothing to append. */
  method FillMaps(ids0: Option<IdMappings>, uid: seq<IdMapping>, gid: seq<IdMapping>) returns (ids: Option<IdMappings>)
    requires ids0.None? ==> uid == [] && gid == []
    requires ids0.Some? ==> ids0.value.uid == [] && ids0.value.gid == []
    ensures ids == if ids0.None? then None else Some(IdMappings(ids0.value.auto, uid, gid))
  {
    ids := ids0;
    for i := 0 to |uid|
      invariant ids == if ids0.None? then None else Some(IdMappings(ids0.value.auto, uid[..i], []))
    {
      assert uid[..i + 1] == uid[..i] + [uid[i]];
      ids := Some(ids.value.(uid := ids.value.uid + [uid[i]]));
    }
    assert uid[..|uid|] == uid;
    for i := 0 to |gid|
      invariant ids == if ids0.None? then None else Some(IdMappings(ids0.value.auto, uid, gid[..i]))
    {
      assert gid[..i + 1] == gid[..i] + [gid[i]];
      ids := Some(ids.value.(gid := ids.value.gid + [gid[i]]));
    }
    assert gid[..|gid|] == gid;
  }

  /** A mapping is accepted exactly when it covers an ID and every ID it covers, on both sides, is a 32-bit ID. */
  lemma MappedIdsFit(m: IdMapping)
    ensures RangeOk(m) <==> m.size > 0 && forall k :: 0 <= k < m.size ==> BothFit(m, k)
  {
    if m.size > 0 && forall k :: 0 <= k < m.size ==> BothFit(m, k) {
      assert BothFit(m, m.size - 1);
    }
  }

  predicate BothFit(m: IdMapping, k: nat) {
    m.containerId + k < 0x1_0000_0000 && m.hostId + k < 0x1_0000_0000
  }

  lemma CanonicalIsKnown(input: string)
    requires CanonicalMode(input).Some? && CanonicalMode(input).value != ""
    ensures ModeOk(CanonicalMode(input).value)
    ensures Cut(CanonicalMode(input).value, ':').before == "private" <==> CanonicalMode(input).value == "private"
  {
    var cut := Cut(input, ':');
    var mode := ToLower(cut.before);
    var m := CanonicalMode(input).value;
    assert ':' !in "auto" && ':' !in "keep-id" && ':' !in "host" && ':' !in "no-map" && ':' !in "private";
    if cut.found {
      assert mode == "auto" || mode == "keep-id";
      assert m == mode + [':'] + cut.after;
      CutUnique(mode, cut.after, ':');
      assert |"auto"| == 4 && |"keep-id"| == 7 && "keep-id"[0] != "private"[0];
      assert ':' in m;
    } else {
      assert Cut(m, ':').found ==> ':' in m;
    }
  }

  /** The canonical spelling of a mode. */
  function Spelled(mode: string): string {
    if ToLower(mode) == "nomap" then "no-map" else ToLower(mode)
  }

  predicate AcceptedMode(cut: CutResult) {
    || (Spelled(cut.before) in {"auto", "keep-id"} && (cut.found ==> TrimSpace(cut.after) != ""))
    || (Spelled(cut.before) in {"host", "no-map", "private"} && !cut.found)
  }

  lemma CanonicalForm(input: string)
    requires input != ""
    ensures var cut := Cut(input, ':');
            CanonicalMode(input) == if !AcceptedMode(cut) then None
                                    else Some(if cut.found then Spelled(cut.before) + ":" + cut.after else Spelled(cut.before))
  {
    assert |"auto"| == |"host"| == 4 && |"nomap"| == 5 && |"no-map"| == 6 && |"keep-id"| == |"private"| == 7;
    assert "auto"[0] == 'a' && "host"[0] == 'h' && "keep-id"[0] == 'k' && "private"[0] == 'p';
  }

  lemma SpelledHasNoColon(cut: CutResult)
    requires AcceptedMode(cut)
    ensures ':' !in Spelled(cut.before)
  {
    assert ':' !in "auto" && ':' !in "keep-id" && ':' !in "host" && ':' !in "no-map" && ':' !in "private";
  }

  /**
   Exactly which modes are accepted, and that the canonical form keeps them: the mode in
   its canonical spelling, and whatever follows the first colon as it was.
   */
  lemma CanonicalIsExact(input: string)
    requires input != ""
    ensures CanonicalMode(input).Some? <==> AcceptedMode(Cut(input, ':'))
    ensures CanonicalMode(input).Some? ==>
              Cut(CanonicalMode(input).value, ':') == CutResult(Spelled(Cut(input, ':').before), Cut(input, ':').after, Cut(input, ':').found)
  {
    var cut := Cut(input, ':');
    CanonicalForm(input);
    if AcceptedMode(cut) {
      var mode := Spelled(cut.before);
      SpelledHasNoColon(cut);
      if cut.found {
        assert mode + ":" + cut.after == mode + [':'] + cut.after;
        CutUnique(mode, cut.after, ':');
      } else {
        assert Cut(mode, ':').found ==> ':' in mode;
      }
    }
  }

  lemma SpelledTwice(mode: string)
    ensures ToLower(Spelled(mode)) == Spelled(mode) && Spelled(mode) != "nomap"
  {
    assert ToLower(ToLower(mode)) == ToLower(mode);
    assert ToLower("no-map") == "no-map" && |"no-map"| == 6 && |"nomap"| == 5;
  }

  /** A canonical mode is its own canonical form. */
  lemma CanonicalTwice(input: string)
    requires CanonicalMode(input).Some?
    ensures CanonicalMode(CanonicalMode(input).value) == CanonicalMode(input)
  {
    if input != "" {
      CanonicalIsExact(input);
      SpelledTwice(Cut(input, ':').before);
    }
  }

  /**
   Settings that the configuration accepts are accepted again when a container is made,
   exactly when the two maps have the same length and stay in range: the configuration
   asks for neither.
   */
  lemma ConfiguredMapsAreAccepted(input: string, uid: seq<IdMapping>, gid: seq<IdMapping>)
    requires CanonicalMode(input).Some? && CanonicalMode(input).value != "" && ConfigOk(CanonicalMode(input).value, uid, gid)
    ensures var m := CanonicalMode(input).value;
            ModeOk(m) && MapsOk(Cut(m, ':').before, uid, gid) <==>
            && |uid| == |gid|
            && (forall i :: 0 <= i < |uid| ==> RangeOk(uid[i])) && (forall i :: 0 <= i < |gid| ==> RangeOk(gid[i]))
  {
    CanonicalIsKnown(input);
  }

  lemma PlainModeIsCanonical(mode: string)
    requires ':' !in mode && ToLower(mode) == mode && mode == "private"
    ensures Cut(mode, ':').before == mode && CanonicalMode(mode) == Some(mode)
  {
    var cut := Cut(mode, ':');
    assert !cut.found;
    assert |"auto"| == 4 && |"nomap"| == 5 && |mode| == 7 && "keep-id"[0] != mode[0];
  }

  lemma PrivateIsLower()
    ensures ToLower("private") == "private" && ':' !in "private"
  {
  }

  /** Two user mappings with one group mapping pass the configuration, and every Create with them is refused. */
  lemma UnequalMapsAreConfigured(m: IdMapping)
    ensures CanonicalMode("private") == Some("private") && ConfigOk("private", [m, m], [m])
    ensures Cut("private", ':').before == "private" && !MapsOk("private", [m, m], [m])
  {
    PrivateIsLower();
    PlainModeIsCanonical("private");
  }
}
