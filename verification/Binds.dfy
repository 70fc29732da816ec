/**
 Bind strings of the form source:target:options, printed by Create and the
 driver_config parser and read back when a Libpod spec is built.
 */
module Binds {
  import opened GoStrings

  function Bind(source: string, target: string, options: string): string {
    source + ":" + target + ":" + options
  }

  datatype SelinuxLabel = NoLabel | Shared | Private

  /** The options part that the driver_config parser prints. */
  function Options(readOnly: bool, selinux: SelinuxLabel): string {
    (if readOnly then "ro" else "rw")
    + match selinux case NoLabel => "" case Shared => ",z" case Private => ",Z"
  }

  datatype Parsed = Parsed(source: string, target: string, options: seq<string>)

  /** buildNativeSpec's reading of one bind. */
  function ParseBind(bind: string): Option<Parsed> {
    var parts := Split(bind, ':');
    if |parts| < 2 || |parts| > 3 then None
    else Some(Parsed(parts[0], parts[1], if |parts| == 3 then Split(parts[2], ',') else []))
  }

  lemma BindColons(source: string, target: string, options: string)
    requires ':' !in options
    ensures |Split(Bind(source, target, options), ':')| == 3 + Count(source, ':') + Count(target, ':')
  {
    assert Bind(source, target, options) == source + [':'] + (target + [':'] + options);
    SplitConcat(source, target + [':'] + options, ':');
    SplitConcat(target, options, ':');
    SplitCount(source, ':');
    SplitCount(target, ':');
    SplitSingle(options, ':');
  }

  /**
   A printed bind is accepted exactly when neither source nor target holds a colon, and
   then it reads back as the same source, target and options; it is never split elsewhere.
   */
  lemma BindRoundTrip(source: string, target: string, options: string)
    requires ':' !in options
    ensures ParseBind(Bind(source, target, options)) ==
            if ':' !in source && ':' !in target then Some(Parsed(source, target, Split(options, ','))) else None
  {
    BindColons(source, target, options);
    CountZero(source, ':');
    CountZero(target, ':');
    if ':' !in source && ':' !in target {
      assert Bind(source, target, options) == source + [':'] + (target + [':'] + options);
      SplitHead(source, target + [':'] + options, ':');
      SplitHead(target, options, ':');
      SplitSingle(options, ':');
    }
  }

  /** The printed options read back as the access mode and the SELinux letter. */
  lemma OptionsRoundTrip(readOnly: bool, selinux: SelinuxLabel)
    ensures ':' !in Options(readOnly, selinux)
    ensures Split(Options(readOnly, selinux), ',') ==
            [if readOnly then "ro" else "rw"]
            + match selinux case NoLabel => [] case Shared => ["z"] case Private => ["Z"]
  {
    var mode := if readOnly then "ro" else "rw";
    assert ',' !in mode && ':' !in mode;
    match selinux
    case NoLabel =>
      assert mode + "" == mode;
      SplitSingle(mode, ',');
    case Shared =>
      assert mode + ",z" == mode + [','] + "z";
      SplitHead(mode, "z", ',');
      SplitSingle("z", ',');
    case Private =>
      assert mode + ",Z" == mode + [','] + "Z";
      SplitHead(mode, "Z", ',');
      SplitSingle("Z", ',');
  }

  /** Whatever the parser printed, the reader sees the same access mode and label, or refuses the bind. */
  lemma PrintedBindIsKept(source: string, target: string, readOnly: bool, selinux: SelinuxLabel)
    ensures var r := ParseBind(Bind(source, target, Options(readOnly, selinux)));
            && (r.Some? <==> ':' !in source && ':' !in target)
            && (r.Some? ==> r.value.source == source && r.value.target == target
                            && ("ro" in r.value.options <==> readOnly) && ("rw" in r.value.options <==> !readOnly)
                            && ("z" in r.value.options <==> selinux == Shared) && ("Z" in r.value.options <==> selinux == Private))
  {
    OptionsRoundTrip(readOnly, selinux);
    BindRoundTrip(source, target, Options(readOnly, selinux));
    assert "z" != "Z" && "z" != "ro" && "z" != "rw" && "ro" != "rw" by {
      assert "z"[0] != "Z"[0] && "ro"[1] != "rw"[1];
    }
  }
}
