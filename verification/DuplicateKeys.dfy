/**
 The duplicate-key check over the tokens of a JSON text.
 */
module DuplicateKeys {
  import opened GoStrings

  datatype Json = Text(text: string) | Plain | Array(items: seq<Json>) | Object(fields: seq<Field>)
  datatype Field = Field(name: string, value: Json)

  datatype Token = Str(s: string) | Scalar | LBrace | RBrace | LBracket | RBracket

  // ----- what a JSON value looks like as tokens, and when its names are distinct -----

  function Tokens(v: Json): seq<Token>
    decreases v, 0
  {
    match v
    case Text(s) => [Str(s)]
    case Plain => [Scalar]
    case Array(items) => [LBracket] + ItemTokens(items) + [RBracket]
    case Object(fields) => [LBrace] + FieldTokens(fields) + [RBrace]
  }

  function ItemTokens(items: seq<Json>): seq<Token>
    decreases items, 1
  {
    if items == [] then [] else Tokens(items[0]) + ItemTokens(items[1..])
  }

  function FieldTokens(fields: seq<Field>): seq<Token>
    decreases fields, 1
  {
    if fields == [] then [] else [Str(fields[0].name)] + Tokens(fields[0].value) + FieldTokens(fields[1..])
  }

  /** At every depth, no object has two fields of one name. */
  ghost predicate Distinct(v: Json)
    decreases v, 0
  {
    match v
    case Text(_) => true
    case Plain => true
    case Array(items) => forall i :: 0 <= i < |items| ==> Distinct(items[i])
    case Object(fields) =>
      && (forall i, j :: 0 <= i < j < |fields| ==> fields[i].name != fields[j].name)
      && (forall i :: 0 <= i < |fields| ==> Distinct(fields[i].value))
  }

  // ----- the check as a function of the remaining tokens -----

  predicate More(ts: seq<Token>) {
    ts != [] && ts[0] != RBrace && ts[0] != RBracket
  }

  /** parseValue: what remains after one value, or None on any error. */
  function Parse(ts: seq<Token>): (rest: Option<seq<Token>>)
    ensures rest.Some? ==> |rest.value| < |ts|
    decreases |ts|, 0
  {
    if ts == [] then None
    else match ts[0]
    case Str(_) => Some(ts[1..])
    case Scalar => Some(ts[1..])
    case LBrace => ParseFields(ts[1..], {})
    case LBracket => ParseItems(ts[1..])
    case _ => None
  }

  function ParseFields(ts: seq<Token>, seen: set<string>): (rest: Option<seq<Token>>)
    ensures rest.Some? ==> |rest.value| < |ts|
    decreases |ts|, 1
  {
    if More(ts) then
      if !ts[0].Str? || ts[0].s in seen then None
      else
        var rest := Parse(ts[1..]);
        if rest.None? then None else ParseFields(rest.value, seen + {ts[0].s})
    else if ts != [] && ts[0] == RBrace then Some(ts[1..])
    else None
  }

  function ParseItems(ts: seq<Token>): (rest: Option<seq<Token>>)
    ensures rest.Some? ==> |rest.value| < |ts|
    decreases |ts|, 1
  {
    if More(ts) then
      var rest := Parse(ts);
      if rest.None? then None else ParseItems(rest.value)
    else if ts != [] && ts[0] == RBracket then Some(ts[1..])
    else None
  }

  // ----- the code -----

  class Decoder {
    const tokens: seq<Token>
    var pos: nat

    constructor (tokens: seq<Token>)
      ensures Valid() && Left() == tokens
    {
      this.tokens, pos := tokens, 0;
    }

    predicate Valid()
      reads this
    {
      pos <= |tokens|
    }

    function Left(): seq<Token>
      requires Valid()
      reads this
    {
      tokens[pos..]
    }

    method Next() returns (t: Option<Token>)
      requires Valid()
      modifies this
      ensures Valid()
      ensures old(Left()) == [] ==> t.None? && Left() == []
      ensures old(Left()) != [] ==> t == Some(old(Left())[0]) && Left() == old(Left())[1..]
    {
      if pos == |tokens| {
        return None;
      }
      t := Some(tokens[pos]);
      pos := pos + 1;
    }

    method ParseValue() returns (ok: bool)
      requires Valid()
      modifies this
      ensures Valid() && |Left()| <= |old(Left())|
      ensures ok <==> Parse(old(Left())).Some?
      ensures ok ==> Parse(old(Left())) == Some(Left())
      decreases |Left()|, 0
    {
      var token := Next();
      if token.None? {
        return false;
      }
      match token.value
      case Str(_) => return true;
      case Scalar => return true;
      case LBrace =>
        ok := ParseObject();
      case LBracket =>
        ok := ParseArray();
      case _ => return false;
    }

    method ParseObject() returns (ok: bool)
      requires Valid()
      modifies this
      ensures Valid() && |Left()| <= |old(Left())|
      ensures ok <==> ParseFields(old(Left()), {}).Some?
      ensures ok ==> ParseFields(old(Left()), {}) == Some(Left())
      decreases |Left()|, 1
    {
      var seen: set<string> := {};
      while More(Left())
        invariant Valid() && |Left()| <= |old(Left())|
        invariant ParseFields(Left(), seen) == ParseFields(old(Left()), {})
        decreases |Left()|
      {
        var key := Next();
        if !key.value.Str? {
          return false;
        }
        if key.value.s in seen {
          return false;
        }
        var value := ParseValue();
        if !value {
          return false;
        }
        seen := seen + {key.value.s};
      }
      var close := Next();
      ok := close == Some(RBrace);
    }

    method ParseArray() returns (ok: bool)
      requires Valid()
      modifies this
      ensures Valid() && |Left()| <= |old(Left())|
      ensures ok <==> ParseItems(old(Left())).Some?
      ensures ok ==> ParseItems(old(Left())) == Some(Left())
      decreases |Left()|, 1
    {
      while More(Left())
        invariant Valid() && |Left()| <= |old(Left())|
        invariant ParseItems(Left()) == ParseItems(old(Left()))
        decreases |Left()|
      {
        var value := ParseValue();
        if !value {
          return false;
        }
      }
      var close := Next();
      ok := close == Some(RBracket);
    }
  }

  method RejectDuplicateKeys(tokens: seq<Token>) returns (ok: bool)
    ensures ok <==> Parse(tokens) == Some([])
    ensures ok <==> exists v :: tokens == Tokens(v) && Distinct(v)
  {
    var decoder := new Decoder(tokens);
    ok := decoder.ParseValue();
    if ok {
      var second := decoder.Next();
      ok := second.None?;
    }
    AcceptsExactlyDistinct(tokens);
  }

  // ----- exactness -----

  /** On the tokens of a value: everything up to its end, if and only if its names are distinct. */
  lemma {:induction false} ParseIsExact(v: Json, rest: seq<Token>)
    ensures Parse(Tokens(v) + rest) == if Distinct(v) then Some(rest) else None
    decreases v, 0
  {
    match v
    case Text(s) => assert ([Str(s)] + rest)[1..] == rest;
    case Plain => assert ([Scalar] + rest)[1..] == rest;
    case Array(items) =>
      var ts := Tokens(v) + rest;
      assert ts[1..] == ItemTokens(items) + ([RBracket] + rest);
      ItemsAreExact(items, rest);
    case Object(fields) =>
      var ts := Tokens(v) + rest;
      assert ts[1..] == FieldTokens(fields) + ([RBrace] + rest);
      FieldsAreExact(fields, {}, rest);
  }

  lemma TokensStart(v: Json, rest: seq<Token>)
    ensures More(Tokens(v) + rest)
  {
  }

  lemma {:induction false} ItemsAreExact(items: seq<Json>, rest: seq<Token>)
    ensures ParseItems(ItemTokens(items) + ([RBracket] + rest)) ==
            if forall i :: 0 <= i < |items| ==> Distinct(items[i]) then Some(rest) else None
    decreases items, 1
  {
    var tail := [RBracket] + rest;
    if items == [] {
      assert ItemTokens(items) + tail == tail && tail[1..] == rest;
    } else {
      var more := ItemTokens(items[1..]) + tail;
      assert ItemTokens(items) + tail == Tokens(items[0]) + more;
      TokensStart(items[0], more);
      ParseIsExact(items[0], more);
      ItemsAreExact(items[1..], rest);
      assert (forall i :: 0 <= i < |items| ==> Distinct(items[i])) <==>
        Distinct(items[0]) && forall i :: 0 <= i < |items[1..]| ==> Distinct(items[1..][i]);
    }
  }

  ghost predicate FieldsDistinct(fields: seq<Field>, seen: set<string>) {
    && (forall i, j :: 0 <= i < j < |fields| ==> fields[i].name != fields[j].name)
    && (forall i :: 0 <= i < |fields| ==> Distinct(fields[i].value) && fields[i].name !in seen)
  }

  lemma FieldsDistinctHead(fields: seq<Field>, seen: set<string>)
    requires fields != []
    ensures FieldsDistinct(fields, seen) <==>
            && Distinct(fields[0].value) && fields[0].name !in seen
            && FieldsDistinct(fields[1..], seen + {fields[0].name})
  {
    var rest := fields[1..];
    assert forall i :: 0 <= i < |rest| ==> rest[i] == fields[i + 1];
    if FieldsDistinct(rest, seen + {fields[0].name}) && Distinct(fields[0].value) && fields[0].name !in seen {
      forall i, j | 0 <= i < j < |fields|
        ensures fields[i].name != fields[j].name
      {
        assert fields[j] == rest[j - 1];
        if i > 0 {
          assert fields[i] == rest[i - 1];
        }
      }
      forall i | 0 <= i < |fields|
        ensures Distinct(fields[i].value) && fields[i].name !in seen
      {
        if i > 0 {
          assert fields[i] == rest[i - 1];
        }
      }
    }
  }

  lemma {:induction false} FieldsAreExact(fields: seq<Field>, seen: set<string>, rest: seq<Token>)
    ensures ParseFields(FieldTokens(fields) + ([RBrace] + rest), seen) ==
            if FieldsDistinct(fields, seen) then Some(rest) else None
    decreases fields, 1
  {
    var tail := [RBrace] + rest;
    if fields == [] {
      assert FieldTokens(fields) + tail == tail && tail[1..] == rest;
    } else {
      var more := FieldTokens(fields[1..]) + tail;
      var ts := FieldTokens(fields) + tail;
      assert ts == [Str(fields[0].name)] + (Tokens(fields[0].value) + more);
      assert ts[1..] == Tokens(fields[0].value) + more;
      ParseIsExact(fields[0].value, more);
      FieldsAreExact(fields[1..], seen + {fields[0].name}, rest);
      FieldsDistinctHead(fields, seen);
    }
  }

  /** Conversely, whatever the check lets pass is the token list of a value with distinct names. */
  lemma {:induction false} ParsedIsValue(ts: seq<Token>) returns (v: Json)
    requires Parse(ts).Some?
    ensures Distinct(v) && ts == Tokens(v) + Parse(ts).value
    decreases |ts|, 0
  {
    match ts[0]
    case Str(s) => v := Text(s);
    case Scalar => v := Plain;
    case LBrace =>
      var fields := ParsedFields(ts[1..], {});
      v := Object(fields);
    case LBracket =>
      var items := ParsedItems(ts[1..]);
      v := Array(items);
  }

  lemma {:induction false} ParsedItems(ts: seq<Token>) returns (items: seq<Json>)
    requires ParseItems(ts).Some?
    ensures forall i :: 0 <= i < |items| ==> Distinct(items[i])
    ensures ts == ItemTokens(items) + [RBracket] + ParseItems(ts).value
    decreases |ts|, 1
  {
    if More(ts) {
      var first := ParsedIsValue(ts);
      var rest := ParsedItems(Parse(ts).value);
      items := [first] + rest;
      assert items[1..] == rest;
    } else {
      items := [];
    }
  }

  lemma {:induction false} ParsedFields(ts: seq<Token>, seen: set<string>) returns (fields: seq<Field>)
    requires ParseFields(ts, seen).Some?
    ensures FieldsDistinct(fields, seen)
    ensures ts == FieldTokens(fields) + [RBrace] + ParseFields(ts, seen).value
    decreases |ts|, 1
  {
    if More(ts) {
      var first := ParsedIsValue(ts[1..]);
      var rest := ParsedFields(Parse(ts[1..]).value, seen + {ts[0].s});
      fields := [Field(ts[0].s, first)] + rest;
      assert fields[1..] == rest;
      FieldsDistinctHead(fields, seen);
    } else {
      fields := [];
    }
  }

  lemma AcceptsExactlyDistinct(ts: seq<Token>)
    ensures Parse(ts) == Some([]) <==> exists v :: ts == Tokens(v) && Distinct(v)
  {
    if Parse(ts) == Some([]) {
      var v := ParsedIsValue(ts);
      assert Tokens(v) + [] == Tokens(v);
    }
    forall v | ts == Tokens(v) && Distinct(v)
      ensures Parse(ts) == Some([])
    {
      ParseIsExact(v, []);
      assert Tokens(v) + [] == Tokens(v);
    }
  }

  /** Two values one after the other are refused. */
  lemma SecondValueIsRefused(v: Json, w: Json, rest: seq<Token>)
    ensures Parse(Tokens(v) + (Tokens(w) + rest)) != Some([])
  {
    ParseIsExact(v, Tokens(w) + rest);
    TokensStart(w, rest);
  }
}
