/**
 Environment lists of KEY=VALUE strings: mergeEnv, filterIdentityEnv and the map that
 Libpod receives.
 */
module Environment {
  import opened GoStrings

  function Entry(key: string, value: string): string {
    key + "=" + value
  }

  /** The key of an entry that mergeEnv keeps: text before the first '=', and not empty. */
  predicate Keyed(entry: string) {
    Cut(entry, '=').found && Cut(entry, '=').before != ""
  }

  function Key(entry: string): string {
    Cut(entry, '=').before
  }

  lemma EntryKey(key: string, value: string)
    requires '=' !in key
    ensures Cut(Entry(key, value), '=') == CutResult(key, value, true)
  {
    assert key + "=" + value == key + ['='] + value;
    CutUnique(key, value, '=');
  }

  // ----- the reference meaning: which keys, in what order, with which entry -----

  /** Keys in order of first occurrence. */
  function Keys(es: seq<string>): seq<string> {
    if es == [] then []
    else
      var ks, e := Keys(es[..|es| - 1]), es[|es| - 1];
      if Keyed(e) && Key(e) !in ks then ks + [Key(e)] else ks
  }

  /** The last entry written for a key. */
  function Last(es: seq<string>, key: string): Option<string> {
    if es == [] then None
    else if Keyed(es[|es| - 1]) && Key(es[|es| - 1]) == key then Some(es[|es| - 1])
    else Last(es[..|es| - 1], key)
  }

  lemma {:induction false} KeysAreWritten(es: seq<string>)
    ensures forall k :: k in Keys(es) <==> Last(es, k).Some?
    ensures forall k :: Last(es, k).Some? ==> Keyed(Last(es, k).value) && Key(Last(es, k).value) == k
    ensures forall i, j :: 0 <= i < j < |Keys(es)| ==> Keys(es)[i] != Keys(es)[j]
  {
    if es != [] {
      KeysAreWritten(es[..|es| - 1]);
    }
  }

  /** Last-writer-wins, in order of first occurrence. */
  function Merged(es: seq<string>): (out: seq<string>)
    ensures |out| == |Keys(es)|
    ensures forall i :: 0 <= i < |out| ==> Last(es, Keys(es)[i]) == Some(out[i])
  {
    KeysAreWritten(es);
    seq(|Keys(es)|, i requires 0 <= i < |Keys(es)| => Last(es, Keys(es)[i]).value)
  }

  // ----- mergeEnv -----

  ghost predicate Indexes(index: map<string, nat>, out: seq<string>) {
    && (forall k :: k in index ==> index[k] < |out| && Keyed(out[index[k]]) && Key(out[index[k]]) == k)
    && (forall i :: 0 <= i < |out| ==> Keyed(out[i]) && Key(out[i]) in index && index[Key(out[i])] == i)
  }

  /** What one more entry does to the merged list. */
  lemma MergedSnoc(done: seq<string>, e: string, i: nat)
    ensures !Keyed(e) ==> Merged(done + [e]) == Merged(done)
    ensures Keyed(e) && i < |Keys(done)| && Keys(done)[i] == Key(e) ==> Merged(done + [e]) == Merged(done)[i := e]
    ensures Keyed(e) && Key(e) !in Keys(done) ==> Merged(done + [e]) == Merged(done) + [e]
  {
    var all := done + [e];
    assert all[..|done|] == done;
    KeysAreWritten(done);
    KeysAreWritten(all);
    assert forall k :: Last(all, k) == if Keyed(e) && k == Key(e) then Some(e) else Last(done, k);
  }

  lemma IndexesSet(index: map<string, nat>, out: seq<string>, e: string)
    requires Indexes(index, out) && Keyed(e) && Key(e) in index
    ensures index[Key(e)] < |out| && Indexes(index, out[index[Key(e)] := e])
  {
  }

  lemma IndexesAppend(index: map<string, nat>, out: seq<string>, e: string)
    requires Indexes(index, out) && Keyed(e) && Key(e) !in index
    ensures Indexes(index[Key(e) := |out|], out + [e])
  {
  }

  /** One step of mergeEnv's inner add: overwrite in place, or append. */
  method Add(index: map<string, nat>, out: seq<string>, entry: string, ghost done: seq<string>)
    returns (index': map<string, nat>, out': seq<string>)
    requires Indexes(index, out) && out == Merged(done)
    ensures Indexes(index', out') && out' == Merged(done + [entry])
  {
    index', out' := index, out;
    MergedIsDistinct(done);
    var cut := Cut(entry, '=');
    if !cut.found || cut.before == "" {
      MergedSnoc(done, entry, 0);
      return;
    }
    if cut.before in index {
      var i := index[cut.before];
      IndexesSet(index, out, entry);
      out' := out[i := entry];
      MergedSnoc(done, entry, i);
    } else {
      IndexesAppend(index, out, entry);
      index' := index[cut.before := |out|];
      out' := out + [entry];
      assert cut.before !in Keys(done);
      MergedSnoc(done, entry, 0);
    }
  }

  method MergeEnv(base: seq<string>, extra: seq<string>) returns (out: seq<string>)
    ensures out == Merged(base + extra)
  {
    var index: map<string, nat> := map[];
    out := [];
    for i := 0 to |base|
      invariant Indexes(index, out) && out == Merged(base[..i])
    {
      assert base[..i + 1] == base[..i] + [base[i]];
      index, out := Add(index, out, base[i], base[..i]);
    }
    assert base[..|base|] == base + extra[..0];
    for i := 0 to |extra|
      invariant Indexes(index, out) && out == Merged(base + extra[..i])
    {
      assert base + extra[..i + 1] == base + extra[..i] + [extra[i]];
      index, out := Add(index, out, extra[i], base + extra[..i]);
    }
    assert extra[..|extra|] == extra;
  }

  // ----- algebra of merging -----

  function Without(ks: seq<string>, gone: seq<string>): seq<string> {
    if ks == [] then []
    else
      var rest, k := Without(ks[..|ks| - 1], gone), ks[|ks| - 1];
      if k in gone then rest else rest + [k]
  }

  lemma {:induction false} WithoutMembers(ks: seq<string>, gone: seq<string>)
    ensures forall k :: k in Without(ks, gone) <==> k in ks && k !in gone
  {
    if ks != [] {
      WithoutMembers(ks[..|ks| - 1], gone);
      assert ks == ks[..|ks| - 1] + [ks[|ks| - 1]];
    }
  }

  lemma {:induction false} LastConcat(a: seq<string>, b: seq<string>, k: string)
    ensures Last(a + b, k) == if Last(b, k).Some? then Last(b, k) else Last(a, k)
  {
    if b == [] {
      assert a + b == a;
    } else {
      assert (a + b)[..|a + b| - 1] == a + b[..|b| - 1];
      LastConcat(a, b[..|b| - 1], k);
    }
  }

  lemma WithoutSnoc(ks: seq<string>, k: string, gone: seq<string>)
    ensures Without(ks + [k], gone) == Without(ks, gone) + if k in gone then [] else [k]
  {
    assert (ks + [k])[..|ks|] == ks;
  }

  lemma {:induction false} KeysConcat(a: seq<string>, b: seq<string>)
    ensures Keys(a + b) == Keys(a) + Without(Keys(b), Keys(a))
  {
    if b == [] {
      assert a + b == a;
    } else {
      var b', e := b[..|b| - 1], b[|b| - 1];
      assert (a + b)[..|a + b| - 1] == a + b';
      KeysConcat(a, b');
      WithoutMembers(Keys(b'), Keys(a));
      if Keyed(e) && Key(e) !in Keys(b') {
        WithoutSnoc(Keys(b'), Key(e), Keys(a));
        assert Key(e) in Keys(a + b') <==> Key(e) in Keys(a);
      }
    }
  }

  ghost predicate DistinctKeys(es: seq<string>) {
    && (forall i :: 0 <= i < |es| ==> Keyed(es[i]))
    && (forall i, j :: 0 <= i < j < |es| ==> Key(es[i]) != Key(es[j]))
  }

  lemma {:induction false} DistinctIsItsOwnMerge(es: seq<string>)
    requires DistinctKeys(es)
    ensures |Keys(es)| == |es|
    ensures forall i :: 0 <= i < |es| ==> Keys(es)[i] == Key(es[i]) && Last(es, Key(es[i])) == Some(es[i])
  {
    if es != [] {
      var es' := es[..|es| - 1];
      DistinctIsItsOwnMerge(es');
      assert forall k :: k in Keys(es') ==> exists i :: 0 <= i < |es'| && k == Key(es'[i]);
    }
  }

  /** The merged list has no two entries with one key, and every entry has a key. */
  lemma MergedIsDistinct(es: seq<string>)
    ensures DistinctKeys(Merged(es))
    ensures forall i :: 0 <= i < |Merged(es)| ==> Key(Merged(es)[i]) == Keys(es)[i]
  {
    KeysAreWritten(es);
  }

  /** Merging loses neither the order of the keys nor the entry of any key. */
  lemma MergedKeepsMeaning(es: seq<string>)
    ensures Keys(Merged(es)) == Keys(es)
    ensures forall k :: Last(Merged(es), k) == Last(es, k)
  {
    var m := Merged(es);
    MergedIsDistinct(es);
    DistinctIsItsOwnMerge(m);
    KeysAreWritten(es);
    KeysAreWritten(m);
    assert Keys(m) == Keys(es);
    forall k
      ensures Last(m, k) == Last(es, k)
    {
      if k in Keys(es) {
        var i :| 0 <= i < |Keys(es)| && Keys(es)[i] == k;
        assert Last(m, Key(m[i])) == Some(m[i]);
      }
    }
  }

  lemma SameMeaningSameMerge(a: seq<string>, b: seq<string>)
    requires Keys(a) == Keys(b) && forall k :: Last(a, k) == Last(b, k)
    ensures Merged(a) == Merged(b)
  {
  }

  /** mergeEnv of a merged list changes nothing. */
  lemma MergeIdempotent(es: seq<string>)
    ensures Merged(Merged(es)) == Merged(es)
  {
    MergedKeepsMeaning(es);
    SameMeaningSameMerge(Merged(es), es);
  }

  lemma MergeAbsorbsLeft(a: seq<string>, b: seq<string>)
    ensures Merged(Merged(a) + b) == Merged(a + b)
  {
    MergedKeepsMeaning(a);
    KeysConcat(Merged(a), b);
    KeysConcat(a, b);
    forall k
      ensures Last(Merged(a) + b, k) == Last(a + b, k)
    {
      LastConcat(Merged(a), b, k);
      LastConcat(a, b, k);
    }
    SameMeaningSameMerge(Merged(a) + b, a + b);
  }

  lemma MergeAbsorbsRight(a: seq<string>, b: seq<string>)
    ensures Merged(a + Merged(b)) == Merged(a + b)
  {
    MergedKeepsMeaning(b);
    KeysConcat(a, Merged(b));
    KeysConcat(a, b);
    forall k
      ensures Last(a + Merged(b), k) == Last(a + b, k)
    {
      LastConcat(a, Merged(b), k);
      LastConcat(a, b, k);
    }
    SameMeaningSameMerge(a + Merged(b), a + b);
  }

  /** mergeEnv is associative: both groupings merge the three lists at once. */
  lemma MergeAssociative(a: seq<string>, b: seq<string>, c: seq<string>)
    ensures Merged(Merged(a + b) + c) == Merged(a + Merged(b + c)) == Merged(a + b + c)
  {
    MergeAbsorbsLeft(a + b, c);
    MergeAbsorbsRight(a, b + c);
    assert a + (b + c) == a + b + c;
  }

  // ----- the environment map sent to Libpod -----

  /** buildNativeSpec's loop over Config.Env: an entry without '=' becomes an empty value. */
  method NativeEnv(es: seq<string>) returns (env: map<string, string>)
    ensures env == NativeMap(es)
  {
    env := map[];
    for i := 0 to |es|
      invariant env == NativeMap(es[..i])
    {
      var cut := Cut(es[i], '=');
      var value := cut.after;
      if !cut.found {
        value := "";
      }
      env := env[cut.before := value];
      assert es[..i + 1][..i] == es[..i];
    }
    assert es[..|es|] == es;
  }

  function NativeMap(es: seq<string>): map<string, string> {
    if es == [] then map[]
    else NativeMap(es[..|es| - 1])[Key(es[|es| - 1]) := Cut(es[|es| - 1], '=').after]
  }

  /**
   Of any list, merged or not: the map holds for each key what follows the "=" of the last
   entry with that key, and nothing for an entry without "=", whose key is the whole entry.
   */
  lemma {:induction false} NativeMapIsLast(es: seq<string>, i: nat)
    requires i < |es| && forall j :: i < j < |es| ==> Cut(es[j], '=').before != Cut(es[i], '=').before
    ensures var cut := Cut(es[i], '=');
            cut.before in NativeMap(es) && NativeMap(es)[cut.before] == if cut.found then cut.after else ""
  {
    if i < |es| - 1 {
      NativeMapIsLast(es[..|es| - 1], i);
    }
  }

  lemma {:induction false} NativeMapKeys(es: seq<string>, k: string)
    ensures k in NativeMap(es) <==> exists i :: 0 <= i < |es| && Cut(es[i], '=').before == k
  {
    if es != [] {
      NativeMapKeys(es[..|es| - 1], k);
      assert es == es[..|es| - 1] + [es[|es| - 1]];
    }
  }

  lemma {:induction false} NativeMapOfKeyed(es: seq<string>)
    requires forall i :: 0 <= i < |es| ==> Keyed(es[i])
    ensures forall k :: k in NativeMap(es) <==> Last(es, k).Some?
    ensures forall k :: k in NativeMap(es) ==> Last(es, k) == Some(Entry(k, NativeMap(es)[k]))
  {
    if es != [] {
      NativeMapOfKeyed(es[..|es| - 1]);
      var e := es[|es| - 1];
      assert e == Entry(Key(e), Cut(e, '=').after);
    }
  }

  /** The map Libpod gets from a merged list agrees with it on every key. */
  lemma NativeMapAgrees(es: seq<string>, k: string)
    ensures k in NativeMap(Merged(es)) <==> k in Keys(es)
    ensures k in NativeMap(Merged(es)) ==> Last(es, k) == Some(Entry(k, NativeMap(Merged(es))[k]))
  {
    MergedIsDistinct(es);
    MergedKeepsMeaning(es);
    NativeMapOfKeyed(Merged(es));
    KeysAreWritten(es);
  }

  // ----- filterIdentityEnv -----

  const IMAGE_USER := "OPENSHELL_OCI_IMAGE_USER"
  const SANDBOX_UID := "OPENSHELL_SANDBOX_UID"
  const SANDBOX_GID := "OPENSHELL_SANDBOX_GID"

  predicate Reserved(key: string) {
    key == IMAGE_USER || key == SANDBOX_UID || key == SANDBOX_GID
  }

  function Filtered(es: seq<string>): (out: seq<string>)
    ensures forall e :: e in out <==> e in es && !Reserved(Key(e))
  {
    if es == [] then []
    else
      var rest, e := Filtered(es[..|es| - 1]), es[|es| - 1];
      assert es == es[..|es| - 1] + [e];
      if Reserved(Key(e)) then rest else rest + [e]
  }

  method FilterIdentityEnv(es: seq<string>) returns (out: seq<string>)
    ensures out == Filtered(es)
  {
    out := [];
    for i := 0 to |es|
      invariant out == Filtered(es[..i])
    {
      assert es[..i + 1][..i] == es[..i];
      if Reserved(Key(es[i])) {
        continue;
      }
      out := out + [es[i]];
    }
    assert es[..|es|] == es;
  }

  lemma {:induction false} FilteredLast(es: seq<string>, k: string)
    ensures Last(Filtered(es), k) == if Reserved(k) then None else Last(es, k)
  {
    if es != [] {
      FilteredLast(es[..|es| - 1], k);
      var e := es[|es| - 1];
      if !Reserved(Key(e)) {
        assert Filtered(es)[..|Filtered(es)| - 1] == Filtered(es[..|es| - 1]);
      }
    }
  }

  // ----- what the driver itself adds -----

  function Rendered(ps: seq<(string, string)>): (es: seq<string>)
    ensures |es| == |ps|
    ensures forall i :: 0 <= i < |ps| ==> es[i] == Entry(ps[i].0, ps[i].1)
  {
    seq(|ps|, i requires 0 <= i < |ps| => Entry(ps[i].0, ps[i].1))
  }

  ghost predicate PlainKeys(ps: seq<(string, string)>) {
    forall i :: 0 <= i < |ps| ==> ps[i].0 != "" && '=' !in ps[i].0
  }

  lemma {:induction false} RenderedOmits(ps: seq<(string, string)>, k: string)
    requires PlainKeys(ps)
    requires forall i :: 0 <= i < |ps| ==> ps[i].0 != k
    ensures Last(Rendered(ps), k) == None
  {
    if ps != [] {
      var ps', p := ps[..|ps| - 1], ps[|ps| - 1];
      assert Rendered(ps)[..|ps| - 1] == Rendered(ps');
      RenderedOmits(ps', k);
      EntryKey(p.0, p.1);
    }
  }

  lemma {:induction false} RenderedWrites(ps: seq<(string, string)>, i: nat)
    requires PlainKeys(ps) && i < |ps|
    requires forall j :: i < j < |ps| ==> ps[j].0 != ps[i].0
    ensures Last(Rendered(ps), ps[i].0) == Some(Entry(ps[i].0, ps[i].1))
  {
    var ps', p := ps[..|ps| - 1], ps[|ps| - 1];
    assert Rendered(ps)[..|ps| - 1] == Rendered(ps');
    EntryKey(p.0, p.1);
    if i < |ps'| {
      RenderedWrites(ps', i);
    }
  }
}
