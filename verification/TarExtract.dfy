/**
 Extracting a copied archive below a root directory: which paths may change, symbolic
 links, and what a nil error means.
 */
module TarExtract {
  import opened GoStrings
  import opened ReservedPaths

  /** A path below the root, as its components. */
  type Path = seq<string>

  datatype Node = Dir | File(data: seq<int>, mode: int) | Link(to: string)

  type Tree = map<Path, Node>

  // ----- archive names -----

  /** safeArchiveName: the components of a relative name without "..", or a refusal. */
  function ArchivePath(raw: string): Option<Path> {
    if raw == "" || raw[0] == '/' || ".." in Split(raw, '/') then None
    else
      var name := Clean(raw);
      if name == "." || name == ".." || "../" <= name then None else Some(Split(name, '/'))
  }

  /** The parts that name something. */
  function Named(parts: seq<string>): Path {
    if parts == [] then []
    else
      var c := parts[|parts| - 1];
      Named(parts[..|parts| - 1]) + if c == "" || c == "." then [] else [c]
  }

  lemma {:induction false} CleanedWithoutDots(parts: seq<string>)
    requires ".." !in parts && forall i :: 0 <= i < |parts| ==> '/' !in parts[i]
    ensures Cleaned(parts, false) == Named(parts)
    ensures forall i :: 0 <= i < |Named(parts)| ==> Component(Named(parts)[i])
  {
    if parts != [] {
      var init, last := parts[..|parts| - 1], parts[|parts| - 1];
      assert parts == init + [last];
      assert last in parts;
      CleanedWithoutDots(init);
    }
  }

  /** Exactly the relative names without ".." that name something are accepted, as their parts. */
  lemma ArchivePathIsLocal(raw: string)
    ensures ArchivePath(raw).Some? <==>
              raw != "" && raw[0] != '/' && ".." !in Split(raw, '/') && Named(Split(raw, '/')) != []
    ensures ArchivePath(raw).Some? ==> ArchivePath(raw).value == Named(Split(raw, '/')) && Local(ArchivePath(raw).value)
  {
    var parts := Split(raw, '/');
    if raw != "" && raw[0] != '/' && ".." !in parts {
      JoinSplit(raw, '/');
      CleanedWithoutDots(parts);
      var st := Named(parts);
      if st != [] {
        SplitJoin(st, '/');
        JoinIsPlain(st);
      }
    }
  }

  lemma JoinIsPlain(st: Path)
    requires Local(st)
    ensures var name := Join(st, '/'); name != "." && name != ".." && !("../" <= name)
  {
    var name := Join(st, '/');
    SplitJoin(st, '/');
    assert Component(st[0]);
    if name == "." || name == ".." {
      SplitSingle(name, '/');
    } else if "../" <= name {
      var x := name[3..];
      assert name == ".." + ['/'] + x;
      SplitConcat("..", x, '/');
      SplitSingle("..", '/');
    }
  }

  predicate Local(p: Path) {
    p != [] && forall i :: 0 <= i < |p| ==> Component(p[i])
  }

  // ----- the file tree -----

  /** No component on the way to p, nor p itself, is a symbolic link. */
  predicate LinkFree(nodes: Tree, p: Path) {
    forall k :: 0 < k <= |p| ==> !(p[..k] in nodes && nodes[p[..k]].Link?)
  }

  /** Something on the way to p, or p itself, is there and is no directory. */
  predicate NotAllDirs(nodes: Tree, p: Path) {
    exists k :: 0 < k <= |p| && p[..k] in nodes && nodes[p[..k]] != Dir
  }

  /** After is before with changes at the allowed paths only, nothing removed and no link touched. */
  ghost predicate OnlyAt(before: Tree, after: Tree, allowed: iset<Path>) {
    && (forall q :: q in before ==> q in after)
    && (forall q :: q in after && (q !in before || after[q] != before[q]) ==>
          q != [] && q in allowed && !after[q].Link? && LinkFree(before, q))
  }

  lemma OnlyAtTrans(a: Tree, b: Tree, c: Tree, allowed: iset<Path>)
    requires OnlyAt(a, b, allowed) && OnlyAt(b, c, allowed)
    ensures OnlyAt(a, c, allowed)
  {
    forall q | q in c && (q !in a || c[q] != a[q])
      ensures q != [] && q in allowed && !c[q].Link? && LinkFree(a, q)
    {
      if q in b && b[q] == c[q] {
      } else {
        assert LinkFree(b, q);
        forall k | 0 < k <= |q|
          ensures !(q[..k] in a && a[q[..k]].Link?)
        {
          var p := q[..k];
          assert p[..k] == p;
          assert p in a && p in b && b[p] != a[p] ==> LinkFree(a, p);
        }
      }
    }
  }

  predicate Within(q: Path, p: Path) {
    q != [] && q <= p
  }

  /** The path and its parents, below the root. */
  ghost function Prefixes(p: Path): iset<Path> {
    iset q | Within(q, p)
  }

  class Root {
    var nodes: Tree

    constructor (nodes: Tree)
      ensures this.nodes == nodes
    {
      this.nodes := nodes;
    }

    /**
     rejectExistingSymlink: looks at every component from the top. Looking may fail by a
     fault of the file system; without one it succeeds exactly when no component is a link.
     */
    method RejectSymlink(p: Path) returns (ok: bool, ghost fault: bool)
      ensures !fault ==> (ok <==> LinkFree(nodes, p) && Local(p))
      ensures ok ==> !fault && LinkFree(nodes, p) && Local(p)
    {
      ok, fault := false, false;
      if !Local(p) {
        return;
      }
      for k := 0 to |p|
        invariant !fault && LinkFree(nodes, p[..k])
      {
        var component := p[..k + 1];
        var failed: bool := *;
        if failed {
          fault := true;
          return;
        }
        assert forall j :: 0 < j <= k ==> p[..k][..j] == component[..j];
        if component !in nodes {
          assert component[..k + 1] == component;
          continue;
        }
        if nodes[component].Link? {
          return;
        }
        assert component[..k + 1] == component;
      }
      assert p[..|p|] == p;
      ok := true;
    }

    /**
     MkdirAll below the root. A fault may stop it part-way, and so does a component that is
     no directory. When a component is a link it would follow it, and nothing is promised
     about what changes.
     */
    method MkdirAll(p: Path) returns (ok: bool, ghost fault: bool)
      modifies this
      ensures ok ==> !fault
      ensures LinkFree(old(nodes), p) && !ok && !fault ==> NotAllDirs(nodes, p)
      ensures LinkFree(old(nodes), p) ==> OnlyAt(old(nodes), nodes, Prefixes(p))
      ensures LinkFree(old(nodes), p) ==> forall q :: q in old(nodes) ==> q in nodes && nodes[q] == old(nodes)[q]
      ensures LinkFree(old(nodes), p) && ok ==> forall k :: 0 < k <= |p| ==> p[..k] in nodes && nodes[p[..k]] == Dir
    {
      ok, fault := false, false;
      if !LinkFree(nodes, p) {
        nodes := *;
        return;
      }
      ghost var before := nodes;
      for k := 0 to |p|
        invariant !fault
        invariant forall q :: q in before ==> q in nodes && nodes[q] == before[q]
        invariant forall q :: q in nodes && q !in before ==> nodes[q] == Dir && exists j :: 0 < j <= k && q == p[..j]
        invariant forall j :: 0 < j <= k ==> p[..j] in nodes && nodes[p[..j]] == Dir
      {
        var component := p[..k + 1];
        var failed: bool := *;
        if failed {
          Made(before, nodes, p, k);
          fault := true;
          return;
        }
        if component in nodes {
          if !nodes[component].Dir? {
            Made(before, nodes, p, k);
            return;
          }
        } else {
          nodes := nodes[component := Dir];
        }
      }
      Made(before, nodes, p, |p|);
      ok := true;
    }

    /**
     Open with create and truncate, copy, chmod, close. After the file is open a fault
     leaves part of the data; with a link on the way nothing is promised.
     */
    method WriteFile(p: Path, data: seq<int>, mode: int) returns (ok: bool, ghost fault: bool)
      modifies this
      ensures ok ==> !fault
      ensures LinkFree(old(nodes), p) && !ok && !fault ==> nodes == old(nodes) && (p == [] || (p in nodes && nodes[p].Dir?))
      ensures LinkFree(old(nodes), p) ==> OnlyAt(old(nodes), nodes, iset{p})
      ensures LinkFree(old(nodes), p) ==> forall q :: q in old(nodes) && q != p ==> q in nodes && nodes[q] == old(nodes)[q]
      ensures LinkFree(old(nodes), p) && p in old(nodes) && old(nodes)[p].Dir? ==> nodes == old(nodes) && !ok
      ensures LinkFree(old(nodes), p) && ok ==> p in nodes && nodes[p] == File(data, mode)
    {
      ok, fault := false, false;
      if !LinkFree(nodes, p) {
        nodes := *;
        return;
      }
      if p == [] || (p in nodes && nodes[p].Dir?) {
        return;
      }
      var isOpen: bool := *;
      if !isOpen {
        fault := true;
        return;
      }
      var failed: bool := *;
      if failed {
        fault := true;
        assert 0 <= |data|;
        var kept: nat :| kept <= |data|;
        nodes := nodes[p := File(data[..kept], mode)];
        return;
      }
      nodes := nodes[p := File(data, mode)];
      ok := true;
    }
  }

  lemma Made(before: Tree, nodes: Tree, p: Path, k: nat)
    requires k <= |p| && LinkFree(before, p)
    requires forall q :: q in before ==> q in nodes && nodes[q] == before[q]
    requires forall q :: q in nodes && q !in before ==> nodes[q] == Dir && exists j :: 0 < j <= k && q == p[..j]
    ensures OnlyAt(before, nodes, Prefixes(p))
  {
    forall q | q in nodes && (q !in before || nodes[q] != before[q])
      ensures q in Prefixes(p) && !nodes[q].Link? && LinkFree(before, q)
    {
      var j :| 0 < j <= k && q == p[..j];
      forall i | 0 < i <= |q|
        ensures !(q[..i] in before && before[q[..i]].Link?)
      {
        assert q[..i] == p[..i];
      }
    }
  }

  // ----- extraction -----

  datatype Kind = DirEntry | RegEntry | OtherEntry
  datatype Entry = Entry(name: string, kind: Kind, mode: bv64, data: seq<int>)

  /** The mode in which the file is made, from the execute bits taken together. */
  function FileMode(e: Entry): int {
    if e.mode & 0x49 != 0 then 0x1ED else 0x1A4
  }

  /** Owner, group or others may execute it. */
  predicate Executable(e: Entry) {
    e.mode & 0x40 != 0 || e.mode & 0x8 != 0 || e.mode & 0x1 != 0
  }

  const MODE_755 := 7 * 64 + 5 * 8 + 5
  const MODE_644 := 6 * 64 + 4 * 8 + 4

  lemma FileModeIsExact(e: Entry)
    ensures FileMode(e) == if Executable(e) then MODE_755 else MODE_644
  {
  }

  predicate SkippedDot(e: Entry) {
    e.kind == DirEntry && (e.name == "." || e.name == "./")
  }

  /** An entry that extraction acts on, and where. */
  predicate Acts(e: Entry, asDir: bool) {
    e.kind == RegEntry || (asDir && e.kind == DirEntry && !SkippedDot(e))
  }

  function Target(e: Entry, asDir: bool, base: string): Option<Path> {
    if asDir then ArchivePath(e.name) else Some([base])
  }

  /** Paths that an archive may touch: its entries' targets and, below a directory, their parents. */
  ghost function Allowed(entries: seq<Entry>, asDir: bool, base: string): iset<Path> {
    iset q | Touched(entries, asDir, base, q)
  }

  predicate Touched(entries: seq<Entry>, asDir: bool, base: string, q: Path) {
    exists i :: 0 <= i < |entries| && TouchedBy(entries[i], asDir, base, q)
  }

  predicate TouchedBy(e: Entry, asDir: bool, base: string, q: Path) {
    Acts(e, asDir) && var t := Target(e, asDir, base); t.Some? && Within(q, t.value)
  }

  /** Entry i is regular and no entry before k overwrites it. */
  ghost predicate LastAt(entries: seq<Entry>, i: nat, k: nat, asDir: bool, base: string)
    requires i < k <= |entries|
  {
    entries[i].kind == RegEntry &&
    forall j :: i < j < k && entries[j].kind == RegEntry ==>
      Target(entries[j], asDir, base) != Target(entries[i], asDir, base)
  }

  /** The first k entries are in place: bytes and mode of every last file, and every directory. */
  ghost predicate InPlace(nodes: Tree, entries: seq<Entry>, k: nat, asDir: bool, base: string)
    requires k <= |entries|
  {
    forall i :: 0 <= i < k ==> Placed(nodes, entries, i, k, asDir, base)
  }

  ghost predicate Placed(nodes: Tree, entries: seq<Entry>, i: nat, k: nat, asDir: bool, base: string)
    requires i < k <= |entries|
  {
    var e := entries[i];
    var t := Target(e, asDir, base);
    && (SkippedDot(e) || ArchivePath(e.name).Some?)
    && (Acts(e, asDir) ==> t.Some? && t.value in nodes)
    && (e.kind == DirEntry && Acts(e, asDir) ==> nodes[t.value] == Dir)
    && (LastAt(entries, i, k, asDir, base) ==> nodes[t.value] == File(e.data, if Executable(e) then MODE_755 else MODE_644))
  }

  function Regular(entries: seq<Entry>): nat {
    if entries == [] then 0
    else Regular(entries[..|entries| - 1]) + if entries[|entries| - 1].kind == RegEntry then 1 else 0
  }

  lemma {:induction false} RegularGrows(entries: seq<Entry>, k: nat)
    requires k <= |entries|
    ensures Regular(entries[..k]) <= Regular(entries)
  {
    if k == |entries| {
      assert entries[..k] == entries;
    } else {
      RegularGrows(entries[..|entries| - 1], k);
      assert entries[..|entries| - 1][..k] == entries[..k];
    }
  }

  lemma StepInPlace(n0: Tree, n1: Tree, entries: seq<Entry>, k: nat, asDir: bool, base: string)
    requires k < |entries| && InPlace(n0, entries, k, asDir, base)
    requires SkippedDot(entries[k]) || ArchivePath(entries[k].name).Some?
    requires forall q :: q in n0 ==> q in n1
    requires forall q :: q in n0 && n1[q] != n0[q] ==>
               entries[k].kind == RegEntry && Target(entries[k], asDir, base) == Some(q) && n0[q] != Dir
    requires Acts(entries[k], asDir) ==>
               var t := Target(entries[k], asDir, base);
               t.Some? && t.value in n1 &&
               n1[t.value] == if entries[k].kind == DirEntry then Dir else File(entries[k].data, FileMode(entries[k]))
    ensures InPlace(n1, entries, k + 1, asDir, base)
  {
    var n := k + 1;
    forall i | 0 <= i < k
      ensures Placed(n1, entries, i, n, asDir, base)
    {
      assert Placed(n0, entries, i, k, asDir, base);
    }
    FileModeIsExact(entries[k]);
    assert Placed(n1, entries, k, k + 1, asDir, base);
  }

  /** No file can be written at p: it is a directory or a link, or something on the way is no directory. */
  predicate NotAFile(nodes: Tree, p: Path) {
    || (p in nodes && !nodes[p].File?)
    || exists k :: 0 < k < |p| && p[..k] in nodes && nodes[p[..k]] != Dir
  }

  /** What keeps an entry from being put in its place. */
  predicate InTheWay(nodes: Tree, e: Entry, asDir: bool, base: string) {
    Acts(e, asDir) && var t := Target(e, asDir, base);
    t.Some? && (!Local(t.value) || if e.kind == DirEntry then NotAllDirs(nodes, t.value) else NotAFile(nodes, t.value))
  }

  /** Why an archive is not extracted, other than by a fault of the file system. */
  ghost predicate Refusal(nodes: Tree, entries: seq<Entry>, readable: bool, asDir: bool, base: string) {
    || !readable
    || (exists i :: 0 <= i < |entries| && !SkippedDot(entries[i]) && ArchivePath(entries[i].name).None?)
    || (!asDir && Regular(entries) != 1)
    || (exists i :: 0 <= i < |entries| && InTheWay(nodes, entries[i], asDir, base))
  }

  /** The directory entry of an archive: refuse links, then create it with its parents. */
  method PutDir(root: Root, p: Path) returns (ok: bool, ghost fault: bool)
    modifies root
    ensures ok ==> !fault
    ensures !ok && !fault ==> !Local(p) || NotAllDirs(root.nodes, p)
    ensures OnlyAt(old(root.nodes), root.nodes, Prefixes(p))
    ensures forall q :: q in old(root.nodes) ==> root.nodes[q] == old(root.nodes)[q]
    ensures ok ==> p in root.nodes && root.nodes[p] == Dir
  {
    ok, fault := root.RejectSymlink(p);
    if ok {
      ok, fault := root.MkdirAll(p);
      assert p[..|p|] == p;
    }
  }

  /** A regular file of an archive: refuse links, create its parents, write it. */
  method PutFile(root: Root, p: Path, data: seq<int>, mode: int) returns (ok: bool, ghost fault: bool)
    modifies root
    ensures ok ==> !fault
    ensures !ok && !fault ==> !Local(p) || NotAFile(root.nodes, p)
    ensures OnlyAt(old(root.nodes), root.nodes, Prefixes(p))
    ensures forall q :: q in old(root.nodes) && root.nodes[q] != old(root.nodes)[q] ==> q == p && old(root.nodes)[q] != Dir
    ensures ok ==> p in root.nodes && root.nodes[p] == File(data, mode)
  {
    ok, fault := root.RejectSymlink(p);
    assert p[..|p|] == p;
    if !ok {
      return;
    }
    ghost var before := root.nodes;
    var parent := p[..|p| - 1];
    assert forall k :: 0 < k <= |parent| ==> parent[..k] == p[..k];
    assert LinkFree(before, parent) by {
      assert forall k :: 0 < k <= |parent| ==> parent[..k] == p[..k];
    }
    ok, fault := root.MkdirAll(parent);
    ghost var mid := root.nodes;
    assert OnlyAt(before, mid, Prefixes(p));
    if !ok {
      return;
    }
    assert LinkFree(mid, p);
    ok, fault := root.WriteFile(p, data, mode);
    assert OnlyAt(mid, root.nodes, Prefixes(p));
    OnlyAtTrans(before, mid, root.nodes, Prefixes(p));
  }

  lemma Widened(a: Tree, b: Tree, c: Tree, entries: seq<Entry>, k: nat, p: Path, asDir: bool, base: string)
    requires k < |entries| && Acts(entries[k], asDir) && Target(entries[k], asDir, base) == Some(p)
    requires OnlyAt(a, b, Allowed(entries, asDir, base)) && OnlyAt(b, c, Prefixes(p))
    ensures OnlyAt(a, c, Allowed(entries, asDir, base))
  {
    assert forall q :: q in Prefixes(p) ==> TouchedBy(entries[k], asDir, base, q);
    assert OnlyAt(b, c, Allowed(entries, asDir, base));
    OnlyAtTrans(a, b, c, Allowed(entries, asDir, base));
  }

  /**
   extractCopyTar over the entries of an archive; readable says whether the stream ends
   properly after them, and base is the destination's file name.
   */
  method Extract(root: Root, entries: seq<Entry>, readable: bool, asDir: bool, base: string)
    returns (ok: bool, ghost fault: bool)
    modifies root
    ensures ok ==> !fault
    ensures !ok && !fault ==> Refusal(root.nodes, entries, readable, asDir, base)
    ensures OnlyAt(old(root.nodes), root.nodes, Allowed(entries, asDir, base))
    ensures ok ==> InPlace(root.nodes, entries, |entries|, asDir, base)
    ensures ok && !asDir ==> Regular(entries) == 1
    ensures ok ==> readable
  {
    ok, fault := false, false;
    ghost var before := root.nodes;
    var wroteFile := false;
    for k := 0 to |entries|
      invariant !fault
      invariant OnlyAt(before, root.nodes, Allowed(entries, asDir, base))
      invariant InPlace(root.nodes, entries, k, asDir, base)
      invariant !asDir ==> Regular(entries[..k]) == if wroteFile then 1 else 0
    {
      var e := entries[k];
      ghost var was := root.nodes;
      assert entries[..k + 1][..k] == entries[..k];
      if !SkippedDot(e) {
        var name := ArchivePath(e.name);
        if name.None? {
          ok := false;
          return;
        }
        if e.kind == DirEntry && asDir {
          ok, fault := PutDir(root, name.value);
          Widened(before, was, root.nodes, entries, k, name.value, asDir, base);
          if !ok {
            assert !fault ==> InTheWay(root.nodes, entries[k], asDir, base);
            return;
          }
        } else if e.kind == RegEntry {
          var target := name.value;
          if !asDir {
            if wroteFile {
              RegularGrows(entries, k + 1);
              ok := false;
              return;
            }
            target := [base];
            wroteFile := true;
          }
          ok, fault := PutFile(root, target, e.data, FileMode(e));
          Widened(before, was, root.nodes, entries, k, target, asDir, base);
          if !ok {
            assert !fault ==> InTheWay(root.nodes, entries[k], asDir, base);
            return;
          }
        }
      }
      StepInPlace(was, root.nodes, entries, k, asDir, base);
    }
    assert entries[..|entries|] == entries;
    ok := readable && (asDir || wroteFile);
  }

  /** In file mode the one regular entry, wherever it stands, is the last at the destination. */
  lemma {:induction false} OneRegular(entries: seq<Entry>, i: nat, j: nat)
    requires Regular(entries) == 1 && i < |entries| && j < |entries|
    requires entries[i].kind == RegEntry && entries[j].kind == RegEntry
    ensures i == j
  {
    var n := |entries| - 1;
    if entries[n].kind == RegEntry {
      NoRegular(entries[..n]);
    } else {
      OneRegular(entries[..n], i, j);
    }
  }

  lemma {:induction false} NoRegular(entries: seq<Entry>)
    requires Regular(entries) == 0
    ensures forall i :: 0 <= i < |entries| ==> entries[i].kind != RegEntry
  {
    if entries != [] {
      NoRegular(entries[..|entries| - 1]);
    }
  }

  lemma {:induction false} SomeRegular(entries: seq<Entry>) returns (i: nat)
    requires Regular(entries) > 0
    ensures i < |entries| && entries[i].kind == RegEntry
  {
    var n := |entries| - 1;
    if entries[n].kind == RegEntry {
      i := n;
    } else {
      i := SomeRegular(entries[..n]);
    }
  }

  /** What a nil result means in file mode: one regular entry, its bytes and mode at the destination. */
  lemma FileModeResult(nodes: Tree, entries: seq<Entry>, base: string) returns (i: nat)
    requires InPlace(nodes, entries, |entries|, false, base) && Regular(entries) == 1
    ensures i < |entries| && entries[i].kind == RegEntry
    ensures forall j :: 0 <= j < |entries| && entries[j].kind == RegEntry ==> j == i
    ensures [base] in nodes && nodes[[base]] == File(entries[i].data, if Executable(entries[i]) then MODE_755 else MODE_644)
  {
    i := SomeRegular(entries);
    forall j | 0 <= j < |entries| && entries[j].kind == RegEntry
      ensures j == i
    {
      OneRegular(entries, i, j);
    }
    assert Placed(nodes, entries, i, |entries|, false, base);
    assert LastAt(entries, i, |entries|, false, base);
  }

  /** Links are the same before and after, and no changed path passes through one. */
  lemma LinksSurvive(before: Tree, after: Tree, allowed: iset<Path>)
    requires OnlyAt(before, after, allowed)
    ensures forall q :: (q in before && before[q].Link?) <==> (q in after && after[q].Link?)
    ensures forall q :: q in before && before[q].Link? ==> after[q] == before[q]
    ensures forall q :: q in after && (q !in before || after[q] != before[q]) ==> LinkFree(after, q)
  {
    forall q | q in before && before[q].Link?
      ensures q in after && after[q] == before[q]
    {
      assert q[..|q|] == q;
    }
  }

  /** In file mode only the destination can change. */
  lemma FileModeTouchesOne(entries: seq<Entry>, base: string, q: Path)
    requires q in Allowed(entries, false, base)
    ensures q == [base]
  {
    var i :| 0 <= i < |entries| && TouchedBy(entries[i], false, base, q);
    assert q[0] == base;
  }
}
