/**
 Guest paths: what "normalized and absolute" means in components, path.Clean, the
 string test for overlap, and the two validations against reserved roots.
 */
module ReservedPaths {
  import opened GoStrings

  // ----- components -----

  predicate Component(c: string) {
    c != "" && c != "." && c != ".." && '/' !in c
  }

  function Comps(p: string): seq<string>
    requires p != ""
  {
    Split(p[1..], '/')
  }

  /** A slash, then components separated by single slashes. */
  predicate Normal(p: string) {
    p != "" && p[0] == '/' && forall i :: 0 <= i < |Comps(p)| ==> Component(Comps(p)[i])
  }

  lemma NormalIsJoin(p: string)
    requires Normal(p)
    ensures p == "/" + Join(Comps(p), '/')
  {
    JoinSplit(p[1..], '/');
  }

  // ----- path.Clean -----

  /** Components left after dropping empty and dot ones and resolving "..". */
  function Cleaned(parts: seq<string>, rooted: bool): seq<string> {
    if parts == [] then []
    else
      var st, c := Cleaned(parts[..|parts| - 1], rooted), parts[|parts| - 1];
      if c == "" || c == "." then st
      else if c == ".." then
        if st != [] && st[|st| - 1] != ".." then st[..|st| - 1]
        else if rooted then st
        else st + [".."]
      else st + [c]
  }

  function Clean(p: string): string {
    if p == "" then "."
    else if p[0] == '/' then "/" + Join(Cleaned(Split(p[1..], '/'), true), '/')
    else
      var st := Cleaned(Split(p, '/'), false);
      if st == [] then "." else Join(st, '/')
  }

  lemma {:induction false} CleanedKeepsComponents(parts: seq<string>, rooted: bool)
    requires forall i :: 0 <= i < |parts| ==> Component(parts[i])
    ensures Cleaned(parts, rooted) == parts
  {
    if parts != [] {
      CleanedKeepsComponents(parts[..|parts| - 1], rooted);
    }
  }

  /** After cleaning, ".." stands only in front. */
  predicate DotsFirst(st: seq<string>) {
    forall i, j :: 0 <= i < j < |st| && st[j] == ".." ==> st[i] == ".."
  }

  lemma {:induction false} CleanedDotsFirst(parts: seq<string>, rooted: bool)
    requires forall i :: 0 <= i < |parts| ==> '/' !in parts[i]
    ensures DotsFirst(Cleaned(parts, rooted))
    ensures forall i :: 0 <= i < |Cleaned(parts, rooted)| ==> '/' !in Cleaned(parts, rooted)[i]
  {
    if parts != [] {
      CleanedDotsFirst(parts[..|parts| - 1], rooted);
    }
  }

  /** A relative path that Clean leaves alone holds ".." exactly when it begins with it. */
  lemma CleanRelativeDots(p: string)
    requires p != "" && p[0] != '/' && Clean(p) == p
    ensures ".." in Split(p, '/') <==> Split(p, '/')[0] == ".."
  {
    var parts := Split(p, '/');
    JoinSplit(p, '/');
    CleanedDotsFirst(parts, false);
    var st := Cleaned(parts, false);
    if st == [] {
      SplitSingle(".", '/');
      assert parts == ["."];
    } else {
      SplitJoin(st, '/');
      assert parts == st;
    }
  }

  /** path.Clean changes nothing on a normalized path. */
  lemma CleanIsIdentity(p: string)
    requires Normal(p)
    ensures Clean(p) == p
  {
    CleanedKeepsComponents(Comps(p), true);
    NormalIsJoin(p);
  }

  // ----- overlap -----

  predicate PathsOverlap(a: string, b: string) {
    a == b || a == "/" || b == "/" || b + "/" <= a || a + "/" <= b
  }

  /** One path is the other or lies below it. */
  predicate Related(a: string, b: string) {
    a != "" && b != "" && (Comps(a) <= Comps(b) || Comps(b) <= Comps(a))
  }

  lemma BelowIsPrefix(a: string, b: string)
    requires Normal(a) && Normal(b) && b + "/" <= a
    ensures Comps(b) <= Comps(a)
  {
    var x := a[|b| + 1..];
    assert a == b + "/" + x;
    assert a[1..] == b[1..] + ['/'] + x;
    SplitConcat(b[1..], x, '/');
  }

  lemma PrefixIsBelow(a: string, b: string)
    requires Normal(a) && Normal(b) && Comps(b) < Comps(a)
    ensures b + "/" <= a
  {
    var rest := Comps(a)[|Comps(b)|..];
    assert Comps(a) == Comps(b) + rest;
    JoinConcat(Comps(b), rest, '/');
    NormalIsJoin(a);
    NormalIsJoin(b);
    assert a == b + "/" + Join(rest, '/');
  }

  lemma NotRoot(p: string)
    requires Normal(p)
    ensures p != "/"
  {
    assert Component(Comps(p)[0]);
  }

  /** On normalized paths the string test is exactly the relation on components. */
  lemma OverlapIsRelated(a: string, b: string)
    requires Normal(a) && Normal(b)
    ensures PathsOverlap(a, b) <==> Related(a, b)
  {
    NotRoot(a);
    NotRoot(b);
    if b + "/" <= a { BelowIsPrefix(a, b); }
    if a + "/" <= b { BelowIsPrefix(b, a); }
    if Comps(b) < Comps(a) { PrefixIsBelow(a, b); }
    if Comps(a) < Comps(b) { PrefixIsBelow(b, a); }
    if Comps(a) == Comps(b) {
      NormalIsJoin(a);
      NormalIsJoin(b);
    }
  }

  // ----- normalizeAbsoluteContainerPath -----

  predicate NoControl(s: string) {
    forall i :: 0 <= i < |s| ==> s[i] as int >= 0x20
  }

  function TrimSlashes(s: string): string {
    if s != "" && s[|s| - 1] == '/' then TrimSlashes(s[..|s| - 1]) else s
  }

  /** The normalized path that a trimmed value stands for, with or without a trailing slash. */
  ghost predicate StandsFor(value: string, p: string) {
    Normal(p) && NoControl(p) && (value == p || value == p + "/")
  }

  lemma NormalEnd(p: string)
    requires Normal(p)
    ensures p[|p| - 1] != '/'
    ensures TrimSlashes(p) == p && TrimSlashes(p + "/") == p
  {
    var cs := Comps(p);
    var last := cs[|cs| - 1];
    NormalIsJoin(p);
    if |cs| > 1 {
      assert cs == cs[..|cs| - 1] + [last];
      JoinConcat(cs[..|cs| - 1], [last], '/');
    }
    assert Component(last);
    assert last[|last| - 1] in last;
    assert p[|p| - 1] == last[|last| - 1];
    assert (p + "/")[..|p + "/"| - 1] == p;
  }

  /** The segments of a value that stands for p. */
  lemma SegmentsOf(value: string, p: string)
    requires StandsFor(value, p)
    ensures value[0] == '/' && NoControl(value)
    ensures Comps(value) == if value == p then Comps(p) else Comps(p) + [""]
  {
    if value == p + "/" {
      assert value[1..] == p[1..] + ['/'] + "";
      SplitConcat(p[1..], "", '/');
    }
  }

  predicate SegmentsOk(segs: seq<string>) {
    forall i :: 0 <= i < |segs| ==> segs[i] != "." && segs[i] != ".." && (segs[i] == "" ==> i == |segs| - 1)
  }

  lemma TrailingSlash(value: string, cs: seq<string>)
    requires |cs| >= 1 && NoControl(value) && value == "/" + Join(cs, '/') + "/"
    requires forall i :: 0 <= i < |cs| ==> Component(cs[i])
    ensures StandsFor(value, TrimSlashes(value))
  {
    var p := "/" + Join(cs, '/');
    SplitJoin(cs, '/');
    assert p[1..] == Join(cs, '/');
    assert Normal(p);
    NormalEnd(p);
    assert forall i :: 0 <= i < |p| ==> p[i] == value[i];
  }

  lemma AcceptedStandsFor(value: string)
    requires value != "" && value[0] == '/' && NoControl(value) && SegmentsOk(Comps(value)) && TrimSlashes(value) != ""
    ensures StandsFor(value, TrimSlashes(value))
  {
    var segs := Comps(value);
    JoinSplit(value[1..], '/');
    assert value == "/" + Join(segs, '/');
    if segs[|segs| - 1] == "" {
      assert |segs| == 1 ==> value == "/";
      if |segs| > 1 {
        var cs := segs[..|segs| - 1];
        assert segs == cs + [""];
        JoinConcat(cs, [""], '/');
        assert forall i :: 0 <= i < |cs| ==> cs[i] == segs[i] && Component(cs[i]);
        TrailingSlash(value, cs);
      }
    } else {
      assert Normal(value);
      NormalEnd(value);
    }
  }

  method NormalizeAbsolute(value0: string) returns (r: Option<string>)
    ensures r.Some? ==> StandsFor(TrimSpace(value0), r.value)
    ensures r.None? ==> !exists p :: StandsFor(TrimSpace(value0), p)
  {
    var value := TrimSpace(value0);
    if value == "" {
      return None;
    }
    for i := 0 to |value|
      invariant NoControl(value[..i])
    {
      if (value[i] as int) < 0x20 {
        forall p | StandsFor(value, p) ensures false { SegmentsOf(value, p); }
        return None;
      }
    }
    assert value[..|value|] == value;
    if value[0] != '/' {
      return None;
    }
    var segs := Split(value[1..], '/');
    for i := 0 to |segs|
      invariant forall j :: 0 <= j < i ==> segs[j] != "." && segs[j] != ".." && (segs[j] == "" ==> j == |segs| - 1)
    {
      if segs[i] == "." || segs[i] == ".." || (segs[i] == "" && i < |segs| - 1) {
        forall p | StandsFor(value, p) ensures false { SegmentsOf(value, p); }
        return None;
      }
    }
    var normalized := TrimSlashes(value);
    if normalized == "" {
      forall p | StandsFor(value, p) ensures false { NormalEnd(p); }
      return None;
    }
    AcceptedStandsFor(value);
    r := Some(normalized);
  }

  lemma StandsForOne(value: string, p: string, q: string)
    requires StandsFor(value, p) && StandsFor(value, q)
    ensures p == q
  {
    NormalEnd(p);
    NormalEnd(q);
  }

  // ----- validation -----

  /** The target stands for a path that is no ancestor and no descendant of any root. */
  ghost predicate ClearOf(target: string, roots: seq<string>)
    requires forall r :: r in roots ==> Normal(r)
  {
    exists p :: StandsFor(TrimSpace(target), p) && forall r :: r in roots ==> !Related(p, r)
  }

  lemma ClearIsDecided(target: string, p: string, roots: seq<string>)
    requires StandsFor(TrimSpace(target), p) && forall r :: r in roots ==> Normal(r)
    ensures ClearOf(target, roots) <==> forall r :: r in roots ==> !Related(p, r)
  {
    forall q | StandsFor(TrimSpace(target), q)
      ensures q == p
    {
      StandsForOne(TrimSpace(target), p, q);
    }
  }

  lemma CleanedOverlap(p: string, root: string)
    requires Normal(p) && Normal(root)
    ensures Clean(p) == p && (PathsOverlap(p, Clean(root)) <==> Related(p, root))
  {
    CleanIsIdentity(p);
    CleanIsIdentity(root);
    OverlapIsRelated(p, root);
  }

  method ValidateMountTarget(target: string, roots: seq<string>) returns (ok: bool)
    requires forall r :: r in roots ==> Normal(r)
    ensures ok <==> ClearOf(target, roots)
  {
    var normalized := NormalizeAbsolute(target);
    if normalized.None? {
      return false;
    }
    CleanIsIdentity(normalized.value);
    var p := Clean(normalized.value);
    ClearIsDecided(target, p, roots);
    for i := 0 to |roots|
      invariant forall j :: 0 <= j < i ==> !Related(p, roots[j])
    {
      CleanedOverlap(p, roots[i]);
      assert roots[i] in roots;
      if PathsOverlap(p, Clean(roots[i])) {
        return false;
      }
    }
    ok := true;
  }

  /** Uploads below the workspace always pass; elsewhere the mount rule holds. */
  method ValidateUploadDest(dest: string, workdir: string, roots: seq<string>) returns (ok: bool)
    requires Normal(workdir) && forall r :: r in roots ==> Normal(r)
    ensures ok <==> (exists p :: StandsFor(TrimSpace(dest), p) && Comps(workdir) <= Comps(p)) || ClearOf(dest, roots)
  {
    var normalized := NormalizeAbsolute(dest);
    if normalized.None? {
      return false;
    }
    CleanIsIdentity(normalized.value);
    CleanIsIdentity(workdir);
    var p, ws := Clean(normalized.value), Clean(workdir);
    if p == ws || ws + "/" <= p {
      if p != ws {
        BelowIsPrefix(p, ws);
      }
      return true;
    }
    forall q | StandsFor(TrimSpace(dest), q)
      ensures !(Comps(workdir) <= Comps(q))
    {
      StandsForOne(TrimSpace(dest), p, q);
      if Comps(ws) < Comps(p) {
        PrefixIsBelow(p, ws);
      } else if Comps(ws) == Comps(p) {
        NormalIsJoin(p);
        NormalIsJoin(ws);
      }
    }
    ok := ValidateMountTarget(dest, roots);
  }
}
