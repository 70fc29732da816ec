/**
 The Libpod network callbacks: create with retries against a daemon that other
 clients use too, and the check that every host gateway is black-holed.
 */
module NativeNetwork {
  import opened GoStrings
  import opened Subnets

  /** A field that does not parse is None. */
  datatype Subnet = Subnet(prefix: Option<Prefix>, gateway: Option<Addr>)
  datatype Route = Route(destination: Option<Prefix>, routeType: string)
  datatype Details = Details(internal: bool, subnets: seq<Subnet>, routes: seq<Route>)

  // ----- verify -----

  predicate IsBlackhole(route: Route, gateway: Addr) {
    && ToLower(route.routeType) == "blackhole"
    && route.destination == Some(Prefix(gateway, Width(gateway)))
  }

  ghost predicate Blackholed(subnet: Subnet, routes: seq<Route>) {
    && subnet.prefix.Some? && subnet.gateway.Some?
    && subnet.prefix.value.len <= Width(subnet.prefix.value.addr)
    && Contains(subnet.prefix.value, subnet.gateway.value)
    && exists r :: r in routes && IsBlackhole(r, subnet.gateway.value)
  }

  /** An internal network with at least one subnet, and every gateway black-holed. */
  ghost predicate GatewaysBlackholed(d: Details) {
    d.internal && d.subnets != [] && forall s :: s in d.subnets ==> Blackholed(s, d.routes)
  }

  predicate Parsed(d: Details) {
    forall s :: s in d.subnets && s.prefix.Some? ==> ValidPrefix(s.prefix.value)
  }

  method FindRoute(prefix: Prefix, gateway: Addr, routes: seq<Route>) returns (found: bool)
    requires prefix.len <= Width(prefix.addr)
    ensures found <==> Contains(prefix, gateway) && exists r :: r in routes && IsBlackhole(r, gateway)
  {
    found := false;
    for i := 0 to |routes|
      invariant !found
      invariant forall r :: r in routes[..i] ==> !(IsBlackhole(r, gateway) && Contains(prefix, gateway))
    {
      if IsBlackhole(routes[i], gateway) && Contains(prefix, gateway) {
        found := true;
        break;
      }
      assert routes[..i + 1] == routes[..i] + [routes[i]];
    }
    assert routes[..|routes|] == routes;
  }

  /** The verify callback; None stands for a failed or undecodable inspection. */
  method Verify(inspected: Option<Details>, internal: bool) returns (ok: bool)
    requires inspected.Some? ==> Parsed(inspected.value)
    ensures ok <==> inspected.Some? && (internal ==> GatewaysBlackholed(inspected.value))
  {
    if inspected.None? {
      return false;
    }
    var details := inspected.value;
    if internal && !details.internal {
      return false;
    }
    if internal {
      if |details.subnets| == 0 {
        return false;
      }
      for i := 0 to |details.subnets|
        invariant forall s :: s in details.subnets[..i] ==> Blackholed(s, details.routes)
      {
        var subnet := details.subnets[i];
        if subnet.prefix.None? || subnet.gateway.None? {
          return false;
        }
        var found := FindRoute(subnet.prefix.value, subnet.gateway.value, details.routes);
        if !found {
          return false;
        }
        assert details.subnets[..i + 1] == details.subnets[..i] + [subnet];
      }
      assert details.subnets[..|details.subnets|] == details.subnets;
    }
    ok := true;
  }

  /** A full-length route takes the gateway's traffic and no other address's. */
  lemma FullLengthRouteIsOneAddress(gateway: Addr, ip: Addr)
    ensures Contains(Prefix(gateway, Width(gateway)), ip) <==> ip == gateway
  {
    var p := Prefix(gateway, Width(gateway));
    assert Pow2(HostBits(p)) == 1;
    assert ip.bits / 1 == ip.bits && gateway.bits / 1 == gateway.bits;
  }

  // ----- create -----

  /** What the create callback sends for an internal network. */
  function InternalSpec(prefix: Prefix, gateway: Addr): Details {
    Details(true, [Subnet(Some(prefix), Some(gateway))], [Route(Some(Prefix(gateway, 32)), "blackhole")])
  }

  /** A spec made from an allocated /24 passes verify when it is stored as sent. */
  lemma SentSpecVerifies(prefix: Prefix, gateway: Addr)
    requires ValidPrefix(prefix) && gateway.V4? && Contains(prefix, gateway)
    ensures GatewaysBlackholed(InternalSpec(prefix, gateway))
  {
    var d := InternalSpec(prefix, gateway);
    var s := d.subnets[0];
    assert ToLower("blackhole") == "blackhole";
    assert d.routes[0] in d.routes && IsBlackhole(d.routes[0], gateway);
    assert Blackholed(s, d.routes);
  }

  predicate OverlapAt(a: Subnet, b: Subnet) {
    && a.prefix.Some? && b.prefix.Some?
    && ValidPrefix(a.prefix.value) && ValidPrefix(b.prefix.value)
    && PrefixesOverlap(a.prefix.value, b.prefix.value)
  }

  /** No two subnets in the daemon overlap. */
  predicate Separate(nets: map<string, Details>) {
    forall m, n ::
      m in nets && n in nets ==>
        forall i, j ::
          0 <= i < |nets[m].subnets| && 0 <= j < |nets[n].subnets| && (m != n || i != j)
          ==> !OverlapAt(nets[m].subnets[i], nets[n].subnets[j])
  }

  predicate AllParsed(nets: map<string, Details>) {
    forall n :: n in nets ==> Parsed(nets[n])
  }

  /** Separate subnets have no address in common. */
  lemma SeparateSharesNothing(nets: map<string, Details>, m: string, n: string, i: nat, j: nat)
    requires AllParsed(nets) && Separate(nets)
    requires m in nets && n in nets && i < |nets[m].subnets| && j < |nets[n].subnets| && (m, i) != (n, j)
    requires nets[m].subnets[i].prefix.Some? && nets[n].subnets[j].prefix.Some?
    ensures ValidPrefix(nets[m].subnets[i].prefix.value) && ValidPrefix(nets[n].subnets[j].prefix.value)
    ensures !ShareAddress(nets[m].subnets[i].prefix.value, nets[n].subnets[j].prefix.value)
  {
    var a, b := nets[m].subnets[i], nets[n].subnets[j];
    assert a in nets[m].subnets && b in nets[n].subnets;
    OverlapExact(a.prefix.value, b.prefix.value);
    assert !OverlapAt(a, b);
  }

  datatype Response = NoAnswer | Status(code: int, message: string, cause: string)

  predicate Success(r: Response) {
    r.Status? && 200 <= r.code < 300
  }

  /** What a refusal says: the message, or the cause when there is no message. */
  function Said(r: Response): string
    requires r.Status?
  {
    ToLower(if r.message == "" then r.cause else r.message)
  }

  predicate SaysUsed(r: Response) {
    r.Status? && HasSubstring(Said(r), "subnet") && HasSubstring(Said(r), "used")
  }

  /** How Podman refuses a subnet that is taken. */
  function OverlapRefusal(): Response {
    Status(500, "subnet" + " is already " + "used" + " on the host or by another config", "")
  }

  /**
   The daemon as a client sees it. It refuses a taken name and an overlapping subnet;
   any request may also fail for reasons of its own, and an answer may get lost after
   the request was carried out.
   */
  class Daemon {
    var nets: map<string, Details>
    ghost var listings: seq<Option<seq<seq<Option<Prefix>>>>>
    ghost var sent: seq<Details>
    ghost var answers: seq<Response>

    constructor ()
      ensures Valid() && nets == map[] && listings == [] && sent == [] && answers == []
    {
      nets := map[];
      listings, sent, answers := [], [], [];
    }

    predicate Valid()
      reads this
    {
      AllParsed(nets) && Separate(nets)
    }

    /** Other clients add networks of their own. */
    method OtherClients()
      requires Valid()
      modifies this`nets
      ensures Valid() && old(nets).Keys <= nets.Keys
      ensures forall n :: n in old(nets) ==> nets[n] == old(nets)[n]
    {
      var added: map<string, Details> := *;
      var next := nets + (added - nets.Keys);
      if AllParsed(next) && Separate(next) {
        nets := next;
      }
    }

    /** GET networks/json: every network's subnets, or a failure. */
    method List() returns (listed: Option<seq<seq<Option<Prefix>>>>)
      requires Valid()
      modifies this`listings
      ensures listings == old(listings) + [listed]
      ensures listed.Some? ==>
                && (forall p :: InUse(listed.value, p) ==> ValidPrefix(p))
                && (forall n, s :: n in nets && s in nets[n].subnets && s.prefix.Some? ==> InUse(listed.value, s.prefix.value))
    {
      if * {
        listings := listings + [None];
        return None;
      }
      var all: seq<seq<Option<Prefix>>> := [];
      var todo := nets.Keys;
      while todo != {}
        invariant todo <= nets.Keys && listings == old(listings)
        invariant forall p :: InUse(all, p) ==> ValidPrefix(p)
        invariant forall n, s :: n in nets && n !in todo && s in nets[n].subnets && s.prefix.Some? ==> InUse(all, s.prefix.value)
        decreases |todo|
      {
        var n :| n in todo;
        var subnets := nets[n].subnets;
        var row := seq(|subnets|, k requires 0 <= k < |subnets| => subnets[k].prefix);
        ListedRow(all, row, subnets);
        all := all + [row];
        todo := todo - {n};
      }
      listed := Some(all);
      listings := listings + [listed];
    }

    /** POST networks/create. */
    method Create(name: string, spec: Details) returns (r: Response)
      requires Valid() && Parsed(spec)
      modifies this`nets, this`sent, this`answers
      ensures Valid() && sent == old(sent) + [spec] && answers == old(answers) + [r]
      ensures Success(r) ==>
                && name !in old(nets) && name in nets && nets == old(nets)[name := nets[name]]
                && (spec.subnets != [] ==> nets[name] == spec)
      ensures r.Status? && !Success(r) ==> nets == old(nets)
      ensures forall n :: n in old(nets) ==> n in nets && nets[n] == old(nets)[n]
    {
      r := *;
      var stored: Details := *;
      if spec.subnets != [] {
        stored := spec;
      }
      var fits := name !in nets && Parsed(stored) && Separate(nets[name := stored]);
      var carriedOut := Success(r);
      if r.NoAnswer? {
        carriedOut := *;
      }
      if carriedOut && !fits {
        r, carriedOut := OverlapRefusal(), false;
      }
      if carriedOut {
        nets := nets[name := stored];
      }
      sent, answers := sent + [spec], answers + [r];
    }
  }

  lemma ListedRow(all: seq<seq<Option<Prefix>>>, row: seq<Option<Prefix>>, subnets: seq<Subnet>)
    requires |row| == |subnets| && forall k :: 0 <= k < |row| ==> row[k] == subnets[k].prefix
    ensures forall p :: InUse(all, p) ==> InUse(all + [row], p)
    ensures forall s :: s in subnets && s.prefix.Some? ==> InUse(all + [row], s.prefix.value)
    ensures forall p :: InUse(all + [row], p) ==> InUse(all, p) || exists s :: s in subnets && s.prefix == Some(p)
  {
    var more := all + [row];
    forall p | InUse(all, p)
      ensures InUse(more, p)
    {
      var i, j :| 0 <= i < |all| && 0 <= j < |all[i]| && all[i][j] == Some(p);
      assert more[i][j] == Some(p);
    }
    forall s | s in subnets && s.prefix.Some?
      ensures InUse(more, s.prefix.value)
    {
      var k :| 0 <= k < |subnets| && subnets[k] == s;
      assert more[|all|][k] == Some(s.prefix.value);
    }
    forall p | InUse(more, p)
      ensures InUse(all, p) || exists s :: s in subnets && s.prefix == Some(p)
    {
      var i, j :| 0 <= i < |more| && 0 <= j < |more[i]| && more[i][j] == Some(p);
      if i < |all| {
        assert all[i][j] == Some(p);
      } else {
        assert subnets[j] in subnets;
      }
    }
  }

  const ATTEMPTS := 32

  datatype Outcome = Created | Failed(why: Why)
  datatype Why = ListFailed | NoFreeSubnet | Unreachable | NoBlackholeSupport | Refused | Exhausted

  /** A refusal whose text, whatever its case, contains the word. */
  predicate Mentions(r: Response, word: string) {
    r.Status? && !(200 <= r.code < 300) && HasSubstring(ToLower(if r.message == "" then r.cause else r.message), word)
  }

  /** The answer after which the loop tries another subnet. */
  predicate Retried(r: Response, internal: bool) {
    internal && Mentions(r, "subnet") && Mentions(r, "used") && !Mentions(r, "route gateway nil")
  }

  /** What each outcome of the create callback means, by the last listing and the answers it got. */
  ghost predicate Explained(o: Outcome, internal: bool, listings: seq<Option<seq<seq<Option<Prefix>>>>>, answers: seq<Response>) {
    && |answers| <= ATTEMPTS && (!internal ==> |answers| == 1 && listings == [])
    && (forall i :: 0 <= i < |answers| - 1 ==> Retried(answers[i], internal))
    && match o
       case Created => answers != [] && answers[|answers| - 1].Status? && 200 <= answers[|answers| - 1].code < 300
       case Failed(why) =>
         match why
         case ListFailed =>
           && AllRetried(answers, internal) && |listings| == |answers| + 1 && listings[|answers|] == None
         case NoFreeSubnet =>
           && AllRetried(answers, internal) && |listings| == |answers| + 1 && listings[|answers|].Some?
           && forall index :: 0 <= index < CANDIDATES ==> Collides(listings[|answers|].value, index)
         case Unreachable => answers != [] && answers[|answers| - 1] == NoAnswer
         case NoBlackholeSupport => internal && answers != [] && Mentions(answers[|answers| - 1], "route gateway nil")
         case Refused =>
           && answers != [] && answers[|answers| - 1].Status? && !(200 <= answers[|answers| - 1].code < 300)
           && !(internal && Mentions(answers[|answers| - 1], "route gateway nil"))
           && (!internal || !Mentions(answers[|answers| - 1], "subnet") || !Mentions(answers[|answers| - 1], "used"))
         case Exhausted => internal && |answers| == ATTEMPTS && AllRetried(answers, internal)
  }

  predicate AllRetried(answers: seq<Response>, internal: bool) {
    forall i :: 0 <= i < |answers| ==> Retried(answers[i], internal)
  }

  /** A request for an internal network names one fresh /24 with its gateway black-holed; any other names none. */
  ghost predicate WellSent(spec: Details, internal: bool) {
    && spec.internal == internal
    && if internal then
         && GatewaysBlackholed(spec) && |spec.subnets| == 1 && |spec.routes| == 1
         && spec.subnets[0].prefix.Some? && spec.subnets[0].prefix.value.len == 24
       else spec.subnets == [] && spec.routes == []
  }

  ghost predicate AllWellSent(specs: seq<Details>, internal: bool) {
    forall i :: 0 <= i < |specs| ==> WellSent(specs[i], internal)
  }

  lemma LowerConcat(a: string, b: string)
    ensures ToLower(a + b) == ToLower(a) + ToLower(b)
  {
  }

  lemma LowerPieces()
    ensures ToLower("subnet") == "subnet" && ToLower(" is already ") == " is already " && ToLower("used") == "used"
    ensures ToLower(" on the host or by another config") == " on the host or by another config"
  {
  }

  lemma InMiddle(a: string, word: string, b: string)
    ensures HasSubstring(a + word + b, word)
  {
    assert (a + word + b)[|a|..] == word + b;
  }

  lemma FourPieces(a: string, b: string, c: string, d: string)
    requires ToLower(a) == a && ToLower(b) == b && ToLower(c) == c && ToLower(d) == d
    requires 'w' !in a && 'w' !in b && 'w' !in c && 'w' !in d
    ensures var text := ToLower(a + b + c + d);
            HasSubstring(text, a) && HasSubstring(text, c) && !HasSubstring(text, "route gateway nil")
  {
    LowerConcat(a + b + c, d);
    LowerConcat(a + b, c);
    LowerConcat(a, b);
    InMiddle("", a, b + c + d);
    assert "" + a + (b + c + d) == a + b + c + d;
    InMiddle(a + b, c, d);
    NoRoute(a + b + c + d);
  }

  /** The daemon's own refusal of a taken subnet is one that is retried. */
  lemma OverlapIsRetried()
    ensures Retried(OverlapRefusal(), true)
  {
    LowerPieces();
    assert 'w' !in "subnet" && 'w' !in " is already " && 'w' !in "used" && 'w' !in " on the host or by another config";
    FourPieces("subnet", " is already ", "used", " on the host or by another config");
  }

  lemma NoRoute(text: string)
    requires 'w' !in text
    ensures !HasSubstring(text, "route gateway nil")
  {
    var word := "route gateway nil";
    assert word[10] == 'w';
    forall k | 0 <= k <= |text|
      ensures !(word <= text[k..])
    {
      assert forall i :: 0 <= i < |text[k..]| ==> text[k..][i] == text[k + i] && text[k + i] in text;
    }
  }

  /** A network is reported as created exactly when the last answer is a success. */
  lemma CreatedExactly(o: Outcome, internal: bool, listings: seq<Option<seq<seq<Option<Prefix>>>>>, answers: seq<Response>)
    requires Explained(o, internal, listings, answers)
    ensures o.Created? <==> answers != [] && answers[|answers| - 1].Status? && 200 <= answers[|answers| - 1].code < 300
  {
    if !o.Created? && answers != [] && AllRetried(answers, internal) {
      assert Retried(answers[|answers| - 1], internal);
    }
  }

  /** Among outcomes of an internal create, such a refusal never ends it before the attempts run out or the list fails. */
  lemma RetriedGoesOn(o: Outcome, listings: seq<Option<seq<seq<Option<Prefix>>>>>, answers: seq<Response>)
    requires Explained(o, true, listings, answers) && answers != [] && Retried(answers[|answers| - 1], true)
    ensures o == Failed(ListFailed) || o == Failed(NoFreeSubnet) || (o == Failed(Exhausted) && |answers| == 32)
  {
  }

  /**
   The create callback. The start indexes are what the SHA-256 of the allocation name
   gives at each attempt.
   */
  method CreateNetwork(daemon: Daemon, name: string, internal: bool, starts: seq<nat>)
    returns (o: Outcome, ghost ls: seq<Option<seq<seq<Option<Prefix>>>>>, ghost an: seq<Response>, ghost se: seq<Details>)
    requires daemon.Valid()
    requires |starts| == ATTEMPTS && forall k :: 0 <= k < ATTEMPTS ==> starts[k] < 0x1_0000
    modifies daemon
    ensures daemon.Valid()
    ensures daemon.listings == old(daemon.listings) + ls && daemon.answers == old(daemon.answers) + an && daemon.sent == old(daemon.sent) + se
    ensures Explained(o, internal, ls, an) && |se| == |an| && AllWellSent(se, internal)
    ensures o.Created? ==> name !in old(daemon.nets) && name in daemon.nets
    ensures o.Created? && internal ==> GatewaysBlackholed(daemon.nets[name])
    ensures Kept(old(daemon.nets), daemon.nets)
  {
    ls, an, se := [], [], [];
    for attempt := 0 to ATTEMPTS
      invariant daemon.Valid()
      invariant daemon.listings == old(daemon.listings) + ls && daemon.answers == old(daemon.answers) + an && daemon.sent == old(daemon.sent) + se
      invariant Trying(attempt, internal, ls, an, se)
      invariant Kept(old(daemon.nets), daemon.nets)
    {
      ghost var before := daemon.nets;
      var done, more, got, gone := Attempt(daemon, name, internal, starts[attempt]);
      KeptOn(old(daemon.nets), before, daemon.nets);
      Joined(old(daemon.listings), ls, more);
      Joined(old(daemon.answers), an, got);
      Joined(old(daemon.sent), se, gone);
      OneMore(done, internal, ls, an, se, more, got, gone);
      ls, an, se := ls + more, an + got, se + gone;
      if done.Some? {
        return done.value, ls, an, se;
      }
    }
    o := Failed(Exhausted);
  }

  /** Every network that was there is there unchanged. */
  ghost predicate Kept(nets: map<string, Details>, nets': map<string, Details>) {
    forall n :: n in nets ==> n in nets' && nets'[n] == nets[n]
  }

  lemma KeptOn(a: map<string, Details>, b: map<string, Details>, c: map<string, Details>)
    requires Kept(a, b) && Kept(b, c)
    ensures Kept(a, c)
  {
  }

  /** So many attempts were made, and each answer said to try again. */
  ghost predicate Trying(attempt: nat, internal: bool, ls: seq<Option<seq<seq<Option<Prefix>>>>>, an: seq<Response>, se: seq<Details>) {
    && (attempt > 0 ==> internal) && |ls| == |an| == |se| == attempt
    && AllRetried(an, internal) && AllWellSent(se, internal)
  }

  lemma Joined<T>(a: seq<T>, b: seq<T>, c: seq<T>)
    ensures a + b + c == a + (b + c)
  {
  }

  lemma OneMore(done: Option<Outcome>, internal: bool, ls: seq<Option<seq<seq<Option<Prefix>>>>>, an: seq<Response>, se: seq<Details>,
                more: seq<Option<seq<seq<Option<Prefix>>>>>, got: seq<Response>, gone: seq<Details>)
    requires Trying(|an|, internal, ls, an, se) && |an| < ATTEMPTS && Attempted(done, internal, more, got)
    requires |gone| == |got| && AllWellSent(gone, internal)
    ensures done.Some? ==> Explained(done.value, internal, ls + more, an + got) && |se + gone| == |an + got| && AllWellSent(se + gone, internal)
    ensures done.None? ==> Trying(|an| + 1, internal, ls + more, an + got, se + gone)
  {
    if done.Some? {
      LastOne(done.value, internal, ls, an, more, got);
    } else {
      RetriedOnceMore(an, got, internal);
    }
    WellSentOnceMore(se, gone, internal);
  }

  lemma RetriedOnceMore(an: seq<Response>, got: seq<Response>, internal: bool)
    requires AllRetried(an, internal) && |got| == 1 && Retried(got[0], internal)
    ensures AllRetried(an + got, internal)
  {
  }

  lemma WellSentOnceMore(se: seq<Details>, gone: seq<Details>, internal: bool)
    requires AllWellSent(se, internal) && AllWellSent(gone, internal)
    ensures AllWellSent(se + gone, internal)
  {
  }

  lemma LastOne(o: Outcome, internal: bool, ls: seq<Option<seq<seq<Option<Prefix>>>>>, an: seq<Response>,
                more: seq<Option<seq<seq<Option<Prefix>>>>>, got: seq<Response>)
    requires |ls| == |an| < ATTEMPTS && AllRetried(an, internal) && (|an| > 0 ==> internal) && Attempted(Some(o), internal, more, got)
    ensures Explained(o, internal, ls + more, an + got)
  {
    if got == [] {
      assert an + got == an && (ls + more)[|an|] == more[0];
    } else {
      assert got == [got[0]] && (an + got)[|an|] == got[0];
      assert forall i :: 0 <= i < |an| ==> (an + got)[i] == an[i];
    }
  }

  /** What one attempt ends with, or that it is to be tried again. */
  ghost predicate Attempted(done: Option<Outcome>, internal: bool, more: seq<Option<seq<seq<Option<Prefix>>>>>, got: seq<Response>) {
    && |more| == (if internal then 1 else 0) && |got| <= 1
    && match done
       case None => |got| == 1 && Retried(got[0], internal)
       case Some(Created) => |got| == 1 && got[0].Status? && 200 <= got[0].code < 300
       case Some(Failed(why)) =>
         match why
         case ListFailed => internal && got == [] && more == [None]
         case NoFreeSubnet => internal && got == [] && more[0].Some? && forall index :: 0 <= index < CANDIDATES ==> Collides(more[0].value, index)
         case Unreachable => got == [NoAnswer]
         case NoBlackholeSupport => internal && |got| == 1 && Mentions(got[0], "route gateway nil")
         case Refused =>
           && |got| == 1 && got[0].Status? && !(200 <= got[0].code < 300) && !(internal && Mentions(got[0], "route gateway nil"))
           && (!internal || !Mentions(got[0], "subnet") || !Mentions(got[0], "used"))
         case Exhausted => false
  }

  /** One turn of the loop: list, allocate, send. */
  method Attempt(daemon: Daemon, name: string, internal: bool, start: nat)
    returns (done: Option<Outcome>, ghost more: seq<Option<seq<seq<Option<Prefix>>>>>, ghost got: seq<Response>, ghost gone: seq<Details>)
    requires daemon.Valid() && start < 0x1_0000
    modifies daemon
    ensures daemon.Valid()
    ensures daemon.listings == old(daemon.listings) + more && daemon.answers == old(daemon.answers) + got
    ensures daemon.sent == old(daemon.sent) + gone && |gone| == |got| && AllWellSent(gone, internal)
    ensures Attempted(done, internal, more, got)
    ensures done == Some(Created) ==> name !in old(daemon.nets) && name in daemon.nets && (internal ==> GatewaysBlackholed(daemon.nets[name]))
    ensures Kept(old(daemon.nets), daemon.nets)
  {
    more, got, gone := [], [], [];
    var spec := Details(internal, [], []);
    if internal {
      var listed := daemon.List();
      more := [listed];
      if listed.None? {
        return Some(Failed(ListFailed)), more, got, gone;
      }
      var free := AvailableNetworkSubnet(listed.value, start);
      if free.None? {
        return Some(Failed(NoFreeSubnet)), more, got, gone;
      }
      var (prefix, gateway) := free.value;
      spec := InternalSpec(prefix, gateway);
      SentSpecVerifies(prefix, gateway);
    }
    daemon.OtherClients();
    var r := daemon.Create(name, spec);
    got, gone := [r], [spec];
    if r.NoAnswer? {
      return Some(Failed(Unreachable)), more, got, gone;
    }
    if Success(r) {
      return Some(Created), more, got, gone;
    }
    if internal && HasSubstring(Said(r), "route gateway nil") {
      return Some(Failed(NoBlackholeSupport)), more, got, gone;
    }
    if !internal || !SaysUsed(r) {
      return Some(Failed(Refused)), more, got, gone;
    }
    done := None;
  }
}
