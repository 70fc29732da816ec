/**
 shellQuote against the quoting rules of the shell: sections 2.2.1 (escape character)
 and 2.2.2 (single-quotes) of the POSIX.1-2017 Shell Command Language.
 */
module ShellQuote {
  import opened GoStrings

  /** strings.ReplaceAll(value, "'", "'\\''"). */
  function Escaped(value: string): string {
    if value == "" then ""
    else (if value[0] == '\'' then "'\\''" else [value[0]]) + Escaped(value[1..])
  }

  function Quoted(value: string): string {
    "'" + Escaped(value) + "'"
  }

  // ----- how a shell reads characters into words -----

  datatype Mode = Bare | Escape | Single

  /** The words read so far, operators standing alone, and the word being read, if any. */
  datatype Reader = Reader(mode: Mode, done: seq<string>, word: Option<string>)

  predicate Blank(c: char) {
    c == ' ' || c == '\t' || c == '\n'
  }

  predicate Operator(c: char) {
    c in "|&;<>()"
  }

  function Begun(r: Reader): string {
    if r.word.Some? then r.word.value else ""
  }

  function EndWord(r: Reader): Reader {
    if r.word.Some? then Reader(Bare, r.done + [r.word.value], None) else r.(mode := Bare)
  }

  function Read(r: Reader, c: char): Reader {
    match r.mode
    case Single =>
      if c == '\'' then r.(mode := Bare) else r.(word := Some(Begun(r) + [c]))
    case Escape =>
      if c == '\n' then r.(mode := Bare) else Reader(Bare, r.done, Some(Begun(r) + [c]))
    case Bare =>
      if c == '\'' then Reader(Single, r.done, Some(Begun(r)))
      else if c == '\\' then r.(mode := Escape)
      else if Blank(c) then EndWord(r)
      else if Operator(c) then var e := EndWord(r); e.(done := e.done + [[c]])
      else r.(word := Some(Begun(r) + [c]))
  }

  function ReadAll(r: Reader, s: string): Reader
    decreases |s|
  {
    if s == "" then r else ReadAll(Read(r, s[0]), s[1..])
  }

  /** The words and operators of a script. */
  function Words(script: string): seq<string> {
    EndWord(ReadAll(Reader(Bare, [], None), script)).done
  }

  lemma {:induction false} ReadConcat(r: Reader, a: string, b: string)
    ensures ReadAll(r, a + b) == ReadAll(ReadAll(r, a), b)
    decreases |a|
  {
    if a == "" {
      assert a + b == b;
    } else {
      assert (a + b)[1..] == a[1..] + b;
      ReadConcat(Read(r, a[0]), a[1..], b);
    }
  }

  lemma ReadQuoteBreak(r: Reader)
    requires r.mode == Single && r.word.Some?
    ensures ReadAll(r, "'\\''") == r.(word := Some(r.word.value + ['\'']))
  {
    var s := "'\\''";
    var r1 := Read(r, '\'');
    var r2 := Read(r1, '\\');
    var r3 := Read(r2, '\'');
    var r4 := Read(r3, '\'');
    assert s[1..] == "\\''" && s[1..][1..] == "''" && s[1..][1..][1..] == "'" && s[1..][1..][1..][1..] == "";
    assert ReadAll(r, s) == ReadAll(r1, "\\''") == ReadAll(r2, "''") == ReadAll(r3, "'") == ReadAll(r4, "") == r4;
    assert r4.word == Some(r.word.value + ['\'']);
  }

  lemma {:induction false} ReadEscaped(r: Reader, value: string)
    requires r.mode == Single && r.word.Some?
    ensures ReadAll(r, Escaped(value)) == r.(word := Some(r.word.value + value))
    decreases |value|
  {
    if value == "" {
      assert r.word.value + "" == r.word.value;
    } else {
      var head := if value[0] == '\'' then "'\\''" else [value[0]];
      ReadConcat(r, head, Escaped(value[1..]));
      if value[0] == '\'' {
        ReadQuoteBreak(r);
      } else {
        assert head[1..] == "";
        assert ReadAll(r, head) == ReadAll(Read(r, value[0]), "");
      }
      ReadEscaped(ReadAll(r, head), value[1..]);
      assert r.word.value + [value[0]] + value[1..] == r.word.value + value;
    }
  }

  /** Wherever a quoted value stands unquoted in a script, it adds exactly the value to one word. */
  lemma ReadQuoted(r: Reader, value: string)
    requires r.mode == Bare
    ensures ReadAll(r, Quoted(value)) == r.(word := Some(Begun(r) + value))
  {
    var open := Reader(Single, r.done, Some(Begun(r)));
    assert Quoted(value) == "'" + (Escaped(value) + "'");
    ReadConcat(r, "'", Escaped(value) + "'");
    assert "'"[1..] == "";
    assert ReadAll(r, "'") == ReadAll(Read(r, '\''), "") == open;
    ReadConcat(open, Escaped(value), "'");
    ReadEscaped(open, value);
    var inside := open.(word := Some(Begun(r) + value));
    assert ReadAll(inside, "'") == ReadAll(Read(inside, '\''), "") == inside.(mode := Bare);
  }

  /** The round trip: any string, quoted, reads back as one word equal to it. */
  lemma QuoteRoundTrip(value: string)
    ensures Words(Quoted(value)) == [value]
  {
    ReadQuoted(Reader(Bare, [], None), value);
    assert "" + value == value;
  }

  /**
   Text without quotes of either kind, backslashes, expansions and comments: the reader
   above says how a shell reads it, and stays unquoted.
   */
  predicate Unquoted(s: string) {
    forall i :: 0 <= i < |s| ==> !Special(s[i])
  }

  predicate Special(c: char) {
    c == '\'' || c == '\\' || c == '"' || c == '$' || c == '`' || c == '#'
  }

  lemma {:induction false} UnquotedStaysBare(r: Reader, s: string)
    requires r.mode == Bare && Unquoted(s)
    ensures ReadAll(r, s).mode == Bare
    decreases |s|
  {
    if s != "" {
      UnquotedStaysBare(Read(r, s[0]), s[1..]);
    }
  }

  /** The reader after a prefix that ends in a blank is between words. */
  lemma AfterBlank(r: Reader, s: string)
    requires r.mode == Bare && Unquoted(s)
    ensures ReadAll(r, s + " ").mode == Bare && ReadAll(r, s + " ").word == None
  {
    ReadConcat(r, s, " ");
    UnquotedStaysBare(r, s);
    var m := ReadAll(r, s);
    assert " "[1..] == "";
    assert ReadAll(m, " ") == ReadAll(Read(m, ' '), "");
  }

  /** What comes after does not depend on the words already read. */
  lemma {:induction false} ReadShift(r: Reader, more: seq<string>, s: string)
    ensures ReadAll(r.(done := more + r.done), s) == ReadAll(r, s).(done := more + ReadAll(r, s).done)
    decreases |s|
  {
    if s != "" {
      var next := Read(r, s[0]);
      assert Read(r.(done := more + r.done), s[0]).done == more + next.done;
      assert Read(r.(done := more + r.done), s[0]) == next.(done := more + next.done);
      ReadShift(next, more, s[1..]);
    }
  }

  /**
   A quoted value between an unquoted prefix ending in a blank and an unquoted suffix
   starting with a blank is one word of its own; all other words are the same for every value.
   */
  lemma EmbeddedIsOneWord(prefix: string, value: string, suffix: string)
    requires Unquoted(prefix) && Unquoted(suffix)
    ensures Words(prefix + " " + Quoted(value) + " " + suffix) == Words(prefix) + [value] + Words(suffix)
  {
    var start := Reader(Bare, [], None);
    var script := prefix + " " + Quoted(value) + " " + suffix;
    assert script == (prefix + " ") + (Quoted(value) + (" " + suffix));
    ReadConcat(start, prefix + " ", Quoted(value) + (" " + suffix));
    AfterBlank(start, prefix);
    var p := ReadAll(start, prefix + " ");
    WordsBeforeBlank(start, prefix);
    ReadConcat(p, Quoted(value), " " + suffix);
    ReadQuoted(p, value);
    assert "" + value == value;
    var q := p.(word := Some(value));
    assert (" " + suffix)[1..] == suffix;
    var next := Reader(Bare, p.done + [value], None);
    assert ReadAll(q, " " + suffix) == ReadAll(next, suffix);
    assert next == start.(done := (p.done + [value]) + start.done);
    ReadShift(start, p.done + [value], suffix);
    EndWordShift(ReadAll(start, suffix), p.done + [value]);
  }

  lemma WordsBeforeBlank(start: Reader, prefix: string)
    requires start == Reader(Bare, [], None) && Unquoted(prefix)
    ensures ReadAll(start, prefix + " ") == Reader(Bare, Words(prefix), None)
  {
    ReadConcat(start, prefix, " ");
    UnquotedStaysBare(start, prefix);
    var m := ReadAll(start, prefix);
    assert " "[1..] == "";
    assert ReadAll(m, " ") == ReadAll(Read(m, ' '), "") == EndWord(m);
  }

  lemma EndWordShift(r: Reader, more: seq<string>)
    ensures EndWord(r.(done := more + r.done)).done == more + EndWord(r).done
  {
    if r.word.Some? {
      assert more + r.done + [r.word.value] == more + (r.done + [r.word.value]);
    }
  }

  // ----- the two scripts that embed a socket path -----

  function SshdScript(sshd: string, socket: string, log: string): string {
    "exec " + sshd + " --socket" + " " + Quoted(socket) + " " + (">>" + log + " 2>&1")
  }

  function HealthTest(): string {
    "test -e " + "/var/run/openshell-ssh-ready" + " || test -S"
  }

  function HealthScript(socket: string): string {
    HealthTest() + " " + Quoted(socket) + " " + "|| ss -tlnp | grep -q :22"
  }

  /** Whatever the socket path, the sshd script passes it as one argument and is otherwise fixed. */
  lemma SshdScriptWords(sshd: string, socket: string, log: string)
    requires Unquoted(sshd) && Unquoted(log)
    ensures Words(SshdScript(sshd, socket, log)) ==
            Words("exec " + sshd + " --socket") + [socket] + Words(">>" + log + " 2>&1")
  {
    var prefix := "exec " + sshd + " --socket";
    assert Unquoted("exec ") && Unquoted(" --socket");
    assert Unquoted(prefix);
    assert Unquoted(">>") && Unquoted(" 2>&1");
    EmbeddedIsOneWord(prefix, socket, ">>" + log + " 2>&1");
  }

  lemma UnquotedConcat(a: string, b: string)
    requires Unquoted(a) && Unquoted(b)
    ensures Unquoted(a + b)
  {
  }

  lemma HealthTestUnquoted()
    ensures Unquoted(HealthTest())
  {
    assert Unquoted("test -e ");
    assert Unquoted("/var/run/openshell-ssh-ready");
    assert Unquoted(" || test -S");
    UnquotedConcat("test -e ", "/var/run/openshell-ssh-ready");
    UnquotedConcat("test -e " + "/var/run/openshell-ssh-ready", " || test -S");
  }

  /** The health check, too, tests exactly the socket path it was given. */
  lemma HealthScriptWords(socket: string)
    ensures Words(HealthScript(socket)) == Words(HealthTest()) + [socket] + Words("|| ss -tlnp | grep -q :22")
  {
    HealthTestUnquoted();
    assert Unquoted("|| ss -tlnp | grep -q :22");
    EmbeddedIsOneWord(HealthTest(), socket, "|| ss -tlnp | grep -q :22");
  }
}
