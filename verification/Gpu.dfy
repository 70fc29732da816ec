/**
 GPU requests: the check of a request, the CDI devices asked for, and the local
 inventory they are taken from.
 */
module Gpu {
  import opened GoStrings
  import opened Sorting

  datatype Request = Request(gpu: bool, count: int, devices: seq<string>)

  /** What the process sees: CAUTEUM_GPU_CDI, the names under /dev if readable, and /dev/dxg. */
  datatype Host = Host(env: string, names: Option<seq<string>>, dxg: bool)

  const ALL_GPUS := "nvidia.com/gpu=all"

  // ----- device lists -----

  function Normalized(values: seq<string>): (ids: seq<string>)
    ensures |ids| <= |values|
  {
    if values == [] then []
    else
      var rest, id := Normalized(values[..|values| - 1]), TrimSpace(values[|values| - 1]);
      if id != "" then rest + [id] else rest
  }

  method NormalizeDevices(values: seq<string>) returns (ids: seq<string>)
    ensures ids == Normalized(values)
  {
    ids := [];
    for i := 0 to |values|
      invariant ids == Normalized(values[..i])
    {
      assert values[..i + 1][..i] == values[..i];
      var id := TrimSpace(values[i]);
      if id != "" {
        ids := ids + [id];
      }
    }
    assert values[..|values|] == values;
  }

  lemma {:induction false} NormalizedKeepsAll(values: seq<string>)
    requires forall i :: 0 <= i < |values| ==> TrimSpace(values[i]) != ""
    ensures |Normalized(values)| == |values|
  {
    if values != [] {
      NormalizedKeepsAll(values[..|values| - 1]);
    }
  }

  lemma {:induction false} NormalizedConcat(a: seq<string>, b: seq<string>)
    ensures Normalized(a + b) == Normalized(a) + Normalized(b)
  {
    if b == [] {
      assert a + b == a;
    } else {
      NormalizedConcat(a, b[..|b| - 1]);
      assert (a + b)[..|a + b| - 1] == a + b[..|b| - 1];
    }
  }

  /** The IDs are the trimmed values that are not empty, in their order. */
  lemma NormalizedKeepsOrder(a: seq<string>, v: string, b: seq<string>)
    ensures Normalized(a + [v] + b) == Normalized(a) + (if TrimSpace(v) == "" then [] else [TrimSpace(v)]) + Normalized(b)
  {
    NormalizedConcat(a + [v], b);
    NormalizedConcat(a, [v]);
    assert [v][..0] == [];
  }

  function EnvDevices(host: Host): seq<string> {
    Normalized(Split(TrimSpace(host.env), ','))
  }

  // ----- numericIndex: a machine integer of 64 bits -----

  const WORD := 0x1_0000_0000_0000_0000
  const HALF := 0x8000_0000_0000_0000

  function Wrap(x: int): (r: int)
    ensures -HALF <= r < HALF
  {
    (x + HALF) % WORD - HALF
  }

  method ComputeIndex(s: string) returns (r: int)
    requires AllDigits(s)
    ensures r == NumericIndex(s)
  {
    r := 0;
    for i := 0 to |s|
      invariant r == NumericIndex(s[..i])
    {
      assert s[..i + 1][..i] == s[..i];
      r := Wrap(r * 10 + DigitValue(s[i]));
    }
    assert s[..|s|] == s;
  }

  function NumericIndex(s: string): int
    requires forall i :: 0 <= i < |s| ==> IsDigit(s[i])
  {
    if s == "" then 0 else Wrap(NumericIndex(s[..|s| - 1]) * 10 + DigitValue(s[|s| - 1]))
  }

  lemma ModUnique(x: int, q: int, r: int)
    requires x == WORD * q + r && 0 <= r < WORD
    ensures x % WORD == r
  {
  }

  lemma WrapShift(x: int, k: int)
    ensures Wrap(x + WORD * k) == Wrap(x)
  {
    var q, r := (x + HALF) / WORD, (x + HALF) % WORD;
    ModUnique(x + WORD * k + HALF, q + k, r);
  }

  lemma WrapIsShift(x: int) returns (k: int)
    ensures Wrap(x) == x + WORD * k
  {
    k := -((x + HALF) / WORD);
  }

  lemma WrapInside(x: int)
    requires -HALF <= x < HALF
    ensures Wrap(x) == x
  {
    ModUnique(x + HALF, 0, x + HALF);
  }

  /** The index a device name is sorted by is its number modulo 2^64, as a signed word. */
  lemma {:induction false} IndexIsWrappedValue(s: string)
    requires forall i :: 0 <= i < |s| ==> IsDigit(s[i])
    ensures NumericIndex(s) == Wrap(Value(s))
  {
    if s == "" {
      WrapInside(0);
    } else {
      var init, d := s[..|s| - 1], DigitValue(s[|s| - 1]);
      IndexIsWrappedValue(init);
      var k := WrapIsShift(Value(init));
      assert NumericIndex(init) * 10 + d == Value(s) + WORD * (10 * k);
      WrapShift(Value(s), 10 * k);
    }
  }

  /** The index is the number itself exactly when the number is below 2^63. */
  lemma IndexIsValue(s: string)
    requires forall i :: 0 <= i < |s| ==> IsDigit(s[i])
    ensures NumericIndex(s) == Value(s) <==> Value(s) < HALF
  {
    IndexIsWrappedValue(s);
    if Value(s) < HALF {
      WrapInside(Value(s));
    }
  }

  function Pow10(n: nat): nat {
    if n == 0 then 1 else 10 * Pow10(n - 1)
  }

  lemma {:induction false} ValueBound(s: string)
    requires forall i :: 0 <= i < |s| ==> IsDigit(s[i])
    ensures Value(s) < Pow10(|s|)
  {
    if s != "" {
      ValueBound(s[..|s| - 1]);
    }
  }

  lemma {:induction false} Pow10Grows(a: nat, b: nat)
    requires a <= b
    ensures Pow10(a) <= Pow10(b)
  {
    if a < b {
      Pow10Grows(a, b - 1);
    }
  }

  lemma Pow10At18()
    ensures Pow10(18) < HALF
  {
    assert Pow10(3) == 1000 && Pow10(6) == 1000 * Pow10(3) && Pow10(9) == 1000 * Pow10(6);
    assert Pow10(12) == 1000 * Pow10(9) && Pow10(15) == 1000 * Pow10(12) && Pow10(18) == 1000 * Pow10(15);
  }

  /** Up to 18 digits the index is the number. */
  lemma ShortIndexIsValue(s: string)
    requires AllDigits(s) && |s| <= 18
    ensures NumericIndex(s) == Value(s)
  {
    IndexIsValue(s);
    ValueBound(s);
    Pow10Grows(|s|, 18);
    Pow10At18();
  }

  /** A longer name can wrap around and sort before device 0. */
  lemma LongIndexWraps()
    ensures exists s :: AllDigits(s) && NumericIndex(s) < 0
  {
    var s := Decimal(HALF);
    IndexIsWrappedValue(s);
    ModUnique(HALF + HALF, 1, 0);
  }

  // ----- localCDIDevices -----

  /** The number in a device name nvidiaN. */
  function IndexOf(name: string): Option<string> {
    if "nvidia" <= name && AllDigits(name[6..]) then Some(name[6..]) else None
  }

  function Indexes(names: seq<string>): (r: seq<string>)
    ensures forall i :: 0 <= i < |r| ==> AllDigits(r[i])
    ensures |r| <= |names|
  {
    if names == [] then []
    else
      var rest, i := Indexes(names[..|names| - 1]), IndexOf(names[|names| - 1]);
      if i.Some? then rest + [i.value] else rest
  }

  /** The inventory is complete: exactly the numbers N of the device names nvidiaN. */
  lemma {:induction false} IndexesAreAll(names: seq<string>, s: string)
    ensures s in Indexes(names) <==> AllDigits(s) && "nvidia" + s in names
  {
    if names != [] {
      var init, last := names[..|names| - 1], names[|names| - 1];
      assert names == init + [last];
      IndexesAreAll(init, s);
      assert ("nvidia" + s)[6..] == s;
      assert IndexOf(last).Some? ==> last == "nvidia" + last[6..];
    }
  }

  /** Order by index; names without one come last, so the order is total on all strings. */
  predicate InOrder(a: string, b: string) {
    if AllDigits(a) && AllDigits(b) then NumericIndex(a) <= NumericIndex(b) else AllDigits(a) || !AllDigits(b)
  }

  lemma InOrderIsOrder()
    ensures TotalPreorder(InOrder)
  {
  }

  function DeviceId(index: string): string {
    "nvidia.com/gpu=" + index
  }

  function DeviceIds(indexes: seq<string>): (r: seq<string>)
    ensures |r| == |indexes| && forall i :: 0 <= i < |r| ==> r[i] == DeviceId(indexes[i])
  {
    seq(|indexes|, i requires 0 <= i < |indexes| => DeviceId(indexes[i]))
  }

  function LocalIndexes(host: Host): (r: seq<string>)
    ensures forall i :: 0 <= i < |r| ==> AllDigits(r[i])
  {
    if host.names.None? then []
    else
      var r := Sort(Indexes(host.names.value), InOrder);
      SameMembers(r, Indexes(host.names.value));
      assert forall i :: 0 <= i < |r| ==> r[i] in Indexes(host.names.value);
      r
  }

  function LocalDevices(host: Host): seq<string> {
    if host.names.None? then []
    else if LocalIndexes(host) == [] && host.dxg then [ALL_GPUS]
    else DeviceIds(LocalIndexes(host))
  }

  /** Which devices the inventory lists: nvidia.com/gpu=N for every nvidiaN, or the selector of all on /dev/dxg alone. */
  lemma LocalDevicesAreAll(host: Host, s: string)
    requires AllDigits(s)
    ensures "nvidia.com/gpu=" + s in LocalDevices(host) <==> host.names.Some? && "nvidia" + s in host.names.value
    ensures host.names.None? ==> LocalDevices(host) == []
    ensures host.names.Some? && (forall d :: AllDigits(d) ==> "nvidia" + d !in host.names.value) ==>
              LocalDevices(host) == if host.dxg then ["nvidia.com/gpu=all"] else []
  {
    if host.names.Some? {
      var names, sorted := host.names.value, LocalIndexes(host);
      SameMembers(sorted, Indexes(names));
      IndexesAreAll(names, s);
      AllIsNoIndex(s);
      ListedById(sorted, s);
      if sorted != [] {
        assert sorted[0] in Indexes(names);
        IndexesAreAll(names, sorted[0]);
      }
    }
  }

  lemma ListedById(indexes: seq<string>, s: string)
    ensures DeviceId(s) in DeviceIds(indexes) <==> s in indexes
  {
    forall i | 0 <= i < |indexes|
      ensures DeviceIds(indexes)[i] == DeviceId(s) <==> indexes[i] == s
    {
      assert DeviceId(indexes[i])[15..] == indexes[i] && DeviceId(s)[15..] == s;
    }
  }

  lemma AllIsNoIndex(s: string)
    requires AllDigits(s)
    ensures DeviceId(s) != ALL_GPUS
  {
    assert DeviceId(s)[15] == s[0] && ALL_GPUS[15] == 'a';
  }

  method ListLocalDevices(host: Host) returns (devices: seq<string>)
    ensures devices == LocalDevices(host)
  {
    if host.names.None? {
      return [];
    }
    var names := host.names.value;
    var indexes: seq<string> := [];
    for k := 0 to |names|
      invariant indexes == Indexes(names[..k])
    {
      assert names[..k + 1][..k] == names[..k];
      var i := IndexOf(names[k]);
      if i.None? {
        continue;
      }
      indexes := indexes + [i.value];
    }
    assert names[..|names|] == names;
    indexes := Sort(indexes, InOrder);
    devices := [];
    for k := 0 to |indexes|
      invariant devices == DeviceIds(indexes[..k])
    {
      devices := devices + [DeviceId(indexes[k])];
      assert indexes[..k + 1] == indexes[..k] + [indexes[k]];
    }
    assert indexes[..|indexes|] == indexes;
    if |devices| == 0 && host.dxg {
      return [ALL_GPUS];
    }
  }

  // ----- the check and the request -----

  method ValidateRequest(req: Request, host: Host) returns (ok: bool)
    ensures ok <==> Valid(req, host)
  {
    if req.count < 0 {
      return false;
    }
    var devices := NormalizeDevices(req.devices);
    var fromEnv := NormalizeDevices(Split(TrimSpace(host.env), ','));
    var hasDevices := |devices| > 0 || |fromEnv| > 0;
    if hasDevices && !(req.gpu || req.count > 0) {
      return false;
    }
    if req.count == 0 {
      return true;
    }
    var explicit := |devices| > 0;
    if |devices| == 0 {
      devices := fromEnv;
      explicit := |devices| > 0;
    }
    if |devices| == 0 {
      devices := ListLocalDevices(host);
    }
    if |devices| == 0 {
      return false;
    }
    if (explicit && |devices| != req.count) || (!explicit && |devices| < req.count) {
      return false;
    }
    ok := true;
  }

  /** Devices the caller or the environment names. */
  function Explicit(req: Request, host: Host): seq<string> {
    if Normalized(req.devices) != [] then Normalized(req.devices) else EnvDevices(host)
  }

  predicate Valid(req: Request, host: Host) {
    && req.count >= 0
    && (Explicit(req, host) != [] ==> req.gpu || req.count > 0)
    && (req.count > 0 ==>
          if Explicit(req, host) != [] then |Explicit(req, host)| == req.count
          else |LocalDevices(host)| >= req.count)
  }

  /** DeviceRequestsForGPU: None when no device request is made. */
  method DeviceRequests(req: Request, host: Host) returns (ids: Option<seq<string>>)
    ensures ids == Requested(req, host)
  {
    if !req.gpu && |req.devices| == 0 {
      return None;
    }
    var list := NormalizeDevices(req.devices);
    if |list| == 0 {
      list := NormalizeDevices(Split(TrimSpace(host.env), ','));
    }
    if req.count > 0 && |list| == 0 {
      list := ListLocalDevices(host);
    }
    if req.count > 0 && |list| > req.count {
      list := list[..req.count];
    }
    if |list| == 0 {
      list := [ALL_GPUS];
    }
    ids := Some(list);
  }

  function Requested(req: Request, host: Host): Option<seq<string>> {
    if !req.gpu && req.devices == [] then None
    else
      var list := if req.count > 0 && Explicit(req, host) == [] then LocalDevices(host) else Explicit(req, host);
      var cut := if req.count > 0 && |list| > req.count then list[..req.count] else list;
      Some(if cut == [] then [ALL_GPUS] else cut)
  }

  /**
   Count agreement: for an accepted request with a count, exactly that many IDs are asked
   for if GPUs are asked for at all, which takes the GPU flag or a device list.
   */
  lemma CountAgrees(req: Request, host: Host)
    requires Valid(req, host) && req.count > 0
    ensures Requested(req, host).Some? <==> req.gpu || req.devices != []
    ensures Requested(req, host).Some? ==> |Requested(req, host).value| == req.count
  {
  }

  /**
   An accepted request that asks for GPUs gets the devices named by the caller, or else by
   the environment, all of them; without either and without a count, all GPUs.
   */
  lemma NamedDevicesAreKept(req: Request, host: Host)
    requires Valid(req, host) && (req.gpu || req.devices != [])
    ensures Normalized(req.devices) != [] ==> Requested(req, host) == Some(Normalized(req.devices))
    ensures Normalized(req.devices) == [] && EnvDevices(host) != [] ==> Requested(req, host) == Some(EnvDevices(host))
    ensures Normalized(req.devices) == [] && EnvDevices(host) == [] && req.count == 0 ==>
              Requested(req, host) == Some(["nvidia.com/gpu=all"])
  {
  }

  /**
   Taken from the inventory, the IDs are the lowest in order: each chosen index is at most
   every later one, chosen or not.
   */
  lemma InventoryGivesLowest(req: Request, host: Host, i: nat, j: nat)
    requires Valid(req, host) && req.count > 0 && Requested(req, host).Some?
    requires Explicit(req, host) == [] && LocalIndexes(host) != []
    requires i < req.count && i < j < |LocalIndexes(host)|
    ensures Requested(req, host).value[i] == "nvidia.com/gpu=" + LocalIndexes(host)[i]
    ensures NumericIndex(LocalIndexes(host)[i]) <= NumericIndex(LocalIndexes(host)[j])
  {
    InOrderIsOrder();
    SortSorts(Indexes(host.names.value), InOrder);
    assert InOrder(LocalIndexes(host)[i], LocalIndexes(host)[j]);
  }

  /**
   Create validates the request first and only then replaces its devices by those of
   driver_config. The count then holds exactly when driver_config lists at least that many.
   */
  lemma DriverConfigCount(req: Request, host: Host, listed: seq<string>)
    requires Valid(req, host) && req.count > 0
    requires listed != [] && forall i :: 0 <= i < |listed| ==> TrimSpace(listed[i]) != ""
    ensures Requested(req.(devices := listed), host).Some?
    ensures |Requested(req.(devices := listed), host).value| == req.count <==> |listed| >= req.count
  {
    NormalizedKeepsAll(listed);
  }

  lemma {:induction false} NormalizedTrimmed(ids: seq<string>)
    requires forall i :: 0 <= i < |ids| ==> ids[i] != "" && TrimSpace(ids[i]) == ids[i]
    ensures Normalized(ids) == ids
  {
    if ids != [] {
      NormalizedTrimmed(ids[..|ids| - 1]);
      assert ids == ids[..|ids| - 1] + [ids[|ids| - 1]];
    }
  }

  /** Two devices are asked for and accepted, driver_config lists one: one is requested. */
  lemma OneListedForTwo(host: Host, a: string, b: string, c: string)
    requires forall id :: id in [a, b, c] ==> id != "" && TrimSpace(id) == id
    ensures var req := Request(true, 2, [a, b]);
            Valid(req, host) && Requested(req.(devices := [c]), host) == Some([c])
  {
    assert a in [a, b, c] && b in [a, b, c] && c in [a, b, c];
    NormalizedTrimmed([a, b]);
    NormalizedTrimmed([c]);
  }
}
