/**
 * The debug-attach entry point (pkg/compose/debug.go): a service's `x-debug`
 * extension block is decoded into a DebugConfig, the command-line options
 * override it field by field, the config is turned into command-line flags,
 * and the external attach tool is spawned.
 *
 * The extension decoder (mapstructure.Decode) is an oracle `decode`; the
 * spawned process is an oracle `process` saying whether it failed to start,
 * exited with an error, or finished.
 */
module ComposeDebug {
  import opened Wrappers
  import StringUtils

  datatype DebugConfig = DebugConfig(command: string, host: string, privileged: bool, root: bool, shell: string)

  /** The zero value of DebugConfig. */
  const ZeroConfig: DebugConfig := DebugConfig("", "", false, false, "")

  /** The command-line options of `compose debug`. */
  datatype DebugOptions = DebugOptions(service: string, host: string, shell: string, command: string, privileged: bool, root: bool)

  /** The extension key holding a service's debug configuration. */
  const DebugKey: string := "x-debug"

  // ---------------------------------------------------------------------------
  // loadDebugConfig

  /** The pair loadDebugConfig returns: a config pointer that may be nil and an error that may be nil. */
  datatype LoadResult = LoadResult(config: Option<DebugConfig>, err: Option<string>)

  /**
   * loadDebugConfig: no `x-debug` key gives the zero config; a key whose value
   * is nil gives no config and no error; otherwise the decoder's config or its
   * error, never both.
   */
  function LoadDebugConfig<V>(extensions: map<string, Option<V>>, decode: V -> Result<DebugConfig, string>): (r: LoadResult)
    ensures DebugKey !in extensions ==> r == LoadResult(Some(ZeroConfig), None)
    ensures r.config.None? <==> DebugKey in extensions && (extensions[DebugKey].None? || decode(extensions[DebugKey].value).Err?)
    ensures r.err.Some? <==> DebugKey in extensions && extensions[DebugKey].Some? && decode(extensions[DebugKey].value).Err?
    ensures r.err.Some? ==> r.config.None? && r.err.value == decode(extensions[DebugKey].value).error
    ensures r.config.Some? && DebugKey in extensions ==> decode(extensions[DebugKey].value) == Ok(r.config.value)
  {
    if DebugKey !in extensions then LoadResult(Some(ZeroConfig), None)
    else match extensions[DebugKey]
      case None => LoadResult(None, None)
      case Some(input) =>
        match decode(input)
        case Err(e) => LoadResult(None, Some(e))
        case Ok(c) => LoadResult(Some(c), None)
  }

  /** project.Services[name].Extensions: a service the project lacks reads as the zero service, with no extensions. */
  function ServiceExtensions<V>(services: map<string, map<string, Option<V>>>, name: string): (r: map<string, Option<V>>)
    ensures name in services ==> r == services[name]
    ensures name !in services ==> DebugKey !in r
  {
    if name in services then services[name] else map[]
  }

  /** Debugging a service the project lacks loads the zero config, with no error. */
  lemma MissingServiceLoadsZero<V>(services: map<string, map<string, Option<V>>>, name: string, decode: V -> Result<DebugConfig, string>)
    requires name !in services
    ensures LoadDebugConfig(ServiceExtensions(services, name), decode) == LoadResult(Some(ZeroConfig), None)
  {
  }

  // ---------------------------------------------------------------------------
  // DebugConfig.apply

  /**
   * apply: each of shell, host and command is taken from the options when the
   * option is set (non-empty) and kept otherwise; privileged and root are
   * never overridden.
   */
  function Apply(c: DebugConfig, opts: DebugOptions): (r: DebugConfig)
    ensures opts.shell != "" ==> r.shell == opts.shell
    ensures opts.shell == "" ==> r.shell == c.shell
    ensures opts.host != "" ==> r.host == opts.host
    ensures opts.host == "" ==> r.host == c.host
    ensures opts.command != "" ==> r.command == opts.command
    ensures opts.command == "" ==> r.command == c.command
    ensures r.privileged == c.privileged && r.root == c.root
  {
    var c1 := if opts.shell != "" then c.(shell := opts.shell) else c;
    var c2 := if opts.host != "" then c1.(host := opts.host) else c1;
    if opts.command != "" then c2.(command := opts.command) else c2
  }

  /** Applying the same options twice is applying them once. */
  lemma ApplyIdempotent(c: DebugConfig, opts: DebugOptions)
    ensures Apply(Apply(c, opts), opts) == Apply(c, opts)
  {
  }

  /** A field differs after apply only when the options set it; the options never touch privileged or root. */
  lemma ApplyChangesOnlyOverridden(c: DebugConfig, opts: DebugOptions)
    ensures Apply(c, opts) == c <==>
      (opts.shell == "" || opts.shell == c.shell) && (opts.host == "" || opts.host == c.host) &&
      (opts.command == "" || opts.command == c.command)
  {
  }

  // ---------------------------------------------------------------------------
  // convertFieldsToArgs

  /** The dynamic value handed to convertFieldsToArgs: a bool, a string, or any other value with its printed form. */
  datatype FieldValue = BoolField(b: bool) | StringField(s: string) | OtherField(printed: string)

  /** `--` followed by the lower-cased field name. */
  function Flag(field: string): (r: string)
    ensures |r| == |field| + 2 && r[..2] == "--"
    ensures forall i :: 0 <= i < |field| ==> r[i + 2] == StringUtils.LowerChar(field[i]) && !('A' <= r[i + 2] <= 'Z')
  {
    "--" + StringUtils.ToLower(field)
  }

  /** A field name with no capital letter gives `--` followed by the name itself. */
  lemma FlagOfLowerCase(field: string)
    requires forall i :: 0 <= i < |field| ==> !('A' <= field[i] <= 'Z')
    ensures Flag(field) == "--" + field
  {
  }

  /**
   * What a field contributes to the command line: a true bool its flag alone,
   * a false bool or an empty string nothing, any other value its flag and the
   * value.
   */
  function Contribution(field: string, value: FieldValue): (r: seq<string>)
    ensures value == BoolField(true) ==> r == [Flag(field)]
    ensures value == BoolField(false) || value == StringField("") ==> r == []
    ensures value.StringField? && value.s != "" ==> r == [Flag(field), value.s]
    ensures value.OtherField? ==> r == [Flag(field), value.printed]
  {
    match value
    case BoolField(b) => if b then [Flag(field)] else []
    case StringField(s) => if s == "" then [] else [Flag(field), s]
    case OtherField(p) => [Flag(field), p]
  }

  /** convertFieldsToArgs: only appends, and what it appends is the field's contribution. */
  function ConvertFieldsToArgs(field: string, value: FieldValue, args: seq<string>): (r: seq<string>)
    ensures r == args + Contribution(field, value)
  {
    match value
    case BoolField(b) => if b then args + [Flag(field)] else args
    case StringField(s) =>
      if s == "" then args else args + [Flag(field)] + [s]
    case OtherField(p) => args + [Flag(field)] + [p]
  }

  /** The given arguments are always a prefix of the result, and the result grows by 0, 1 or 2 elements. */
  lemma ConvertFieldsToArgsAppends(field: string, value: FieldValue, args: seq<string>)
    ensures args <= ConvertFieldsToArgs(field, value, args)
    ensures |ConvertFieldsToArgs(field, value, args)| - |args| ==
      match value
      case BoolField(b) => if b then 1 else 0
      case StringField(s) => if s == "" then 0 else 2
      case OtherField(_) => 2
  {
  }

  // ---------------------------------------------------------------------------
  // The argument list of Debug

  /** The names Debug gives the five fields when it converts them. */
  datatype FieldNames = FieldNames(host: string, shell: string, privileged: string, root: string, command: string)

  const DebugFieldNames: FieldNames := FieldNames("host", "shell", "privileged", "root", "command")

  /** The five empty strings `make([]string, 5)` starts the list with. */
  const Blanks: seq<string> := ["", "", "", "", ""]

  /**
   * `start` followed by the config's flags in the order the code builds them:
   * host, shell, privileged, root, command. Two elements per non-empty string,
   * one per true bool, and the host pair, when present, right after `start`.
   */
  function ArgsAfter(start: seq<string>, c: DebugConfig, n: FieldNames): (r: seq<string>)
    ensures start <= r
    ensures |r| == |start| + (if c.host != "" then 2 else 0) + (if c.shell != "" then 2 else 0) +
      (if c.privileged then 1 else 0) + (if c.root then 1 else 0) + (if c.command != "" then 2 else 0)
    ensures c.host != "" ==> r[|start|] == Flag(n.host) && r[|start| + 1] == c.host
    ensures c == ZeroConfig ==> r == start
  {
    start + Contribution(n.host, StringField(c.host)) + Contribution(n.shell, StringField(c.shell)) +
      Contribution(n.privileged, BoolField(c.privileged)) + Contribution(n.root, BoolField(c.root)) +
      Contribution(n.command, StringField(c.command))
  }

  /** The flags after any start are the start followed by the flags alone. */
  lemma ArgsAfterSplits(start: seq<string>, c: DebugConfig, n: FieldNames)
    ensures ArgsAfter(start, c, n) == start + ArgsAfter([], c, n)
  {
  }

  /**
   * The argument assembly of Debug as written: five empty strings, then the
   * config's flags in the order host, shell, privileged, root, command.
   */
  method BuildArgs(c: DebugConfig) returns (args: seq<string>)
    ensures args == ArgsAfter(Blanks, c, DebugFieldNames)
  {
    var names := DebugFieldNames;
    args := Blanks;
    args := ConvertFieldsToArgs(names.host, StringField(c.host), args);
    args := ConvertFieldsToArgs(names.shell, StringField(c.shell), args);
    args := ConvertFieldsToArgs(names.privileged, BoolField(c.privileged), args);
    args := ConvertFieldsToArgs(names.root, BoolField(c.root), args);
    args := ConvertFieldsToArgs(names.command, StringField(c.command), args);
  }

  /** The argument assembly as evidently intended: an empty list with room for five, then the flags. */
  method BuildArgsIntended(c: DebugConfig) returns (args: seq<string>)
    ensures args == ArgsAfter([], c, DebugFieldNames)
  {
    var names := DebugFieldNames;
    args := [];
    args := ConvertFieldsToArgs(names.host, StringField(c.host), args);
    args := ConvertFieldsToArgs(names.shell, StringField(c.shell), args);
    args := ConvertFieldsToArgs(names.privileged, BoolField(c.privileged), args);
    args := ConvertFieldsToArgs(names.root, BoolField(c.root), args);
    args := ConvertFieldsToArgs(names.command, StringField(c.command), args);
  }

  /** As written, the list starts with five empty strings; as intended, those are absent. */
  lemma BlanksPrefixTheFlags(c: DebugConfig, n: FieldNames)
    ensures ArgsAfter(Blanks, c, n)[..5] == Blanks
    ensures ArgsAfter(Blanks, c, n)[5..] == ArgsAfter([], c, n)
  {
    ArgsAfterSplits(Blanks, c, n);
  }

  // ---------------------------------------------------------------------------
  // Debug

  /** What cmd.Start and cmd.Wait report for the spawned tool. */
  datatype ProcessOutcome = StartFailed(msg: string) | WaitFailed(msg: string) | Completed

  /** How Debug ends: a nil-pointer panic, a returned error, or success. */
  datatype DebugOutcome = NilDereference | Failed(msg: string) | Succeeded

  /** The error Debug returns for the process outcome: the start or wait error's text, or nothing. */
  function ProcessResult(p: ProcessOutcome): (r: DebugOutcome)
    ensures r != NilDereference
    ensures r.Succeeded? <==> p.Completed?
    ensures r.Failed? ==> r.msg == p.msg
  {
    match p
    case StartFailed(m) => Failed(m)
    case WaitFailed(m) => Failed(m)
    case Completed => Succeeded
  }

  /**
   * Debug as written. `apply` dereferences the loaded config before the load
   * error is looked at, so a nil config (a nil `x-debug` value or a decode
   * failure) panics and the load error is never returned. Otherwise the
   * argument list is built from the overridden config, and `dld attach
   * <service>` is spawned without it. `argv` is the spawned command line and
   * `args` the assembled list.
   */
  method Debug<V>(services: map<string, map<string, Option<V>>>, decode: V -> Result<DebugConfig, string>,
                  options: DebugOptions, process: ProcessOutcome)
    returns (outcome: DebugOutcome, argv: seq<string>, args: seq<string>)
    ensures var loaded := LoadDebugConfig(ServiceExtensions(services, options.service), decode);
      outcome == NilDereference <==> loaded.config.None?
    ensures var loaded := LoadDebugConfig(ServiceExtensions(services, options.service), decode);
      loaded.config.Some? ==>
        args == ArgsAfter(Blanks, Apply(loaded.config.value, options), DebugFieldNames) &&
        argv == ["dld", "attach", options.service] &&
        outcome == ProcessResult(process)
    ensures outcome.Failed? ==> !process.Completed? && outcome.msg == process.msg
  {
    var loaded := LoadDebugConfig(ServiceExtensions(services, options.service), decode);
    if loaded.config.None? {
      return NilDereference, [], [];
    }
    var config := Apply(loaded.config.value, options);
    args := BuildArgs(config);
    argv := ["dld", "attach", options.service];
    outcome := ProcessResult(process);
  }

  /**
   * Debug as evidently intended: the load error is returned before anything
   * else, a nil config falls back to the default (zero) config, and the
   * argument list has no leading empty strings.
   */
  method DebugIntended<V>(services: map<string, map<string, Option<V>>>, decode: V -> Result<DebugConfig, string>,
                          options: DebugOptions, process: ProcessOutcome)
    returns (outcome: DebugOutcome, argv: seq<string>, args: seq<string>)
    ensures outcome != NilDereference
    ensures var loaded := LoadDebugConfig(ServiceExtensions(services, options.service), decode);
      loaded.err.Some? ==> outcome == Failed(loaded.err.value) && argv == [] && args == []
    ensures var loaded := LoadDebugConfig(ServiceExtensions(services, options.service), decode);
      loaded.err.None? ==>
        args == ArgsAfter([], Apply(loaded.config.GetOr(ZeroConfig), options), DebugFieldNames) &&
        argv == ["dld", "attach", options.service] &&
        outcome == ProcessResult(process)
  {
    var loaded := LoadDebugConfig(ServiceExtensions(services, options.service), decode);
    if loaded.err.Some? {
      return Failed(loaded.err.value), [], [];
    }
    var config := Apply(loaded.config.GetOr(ZeroConfig), options);
    args := BuildArgsIntended(config);
    argv := ["dld", "attach", options.service];
    outcome := ProcessResult(process);
  }

  /**
   * As written, a decode failure is never reported: the decoder's error makes
   * the loaded config nil, which Debug turns into a panic.
   */
  lemma DecodeFailureIsNilConfig<V>(extensions: map<string, Option<V>>, decode: V -> Result<DebugConfig, string>)
    requires DebugKey in extensions && extensions[DebugKey].Some?
    requires decode(extensions[DebugKey].value).Err?
    ensures LoadDebugConfig(extensions, decode).config.None?
    ensures LoadDebugConfig(extensions, decode).err == Some(decode(extensions[DebugKey].value).error)
  {
  }

  /** With no `x-debug` block, the options alone decide the strings and privileged and root stay off. */
  lemma DefaultsThenOverrides<V>(extensions: map<string, Option<V>>, decode: V -> Result<DebugConfig, string>, opts: DebugOptions)
    requires DebugKey !in extensions
    ensures var c := Apply(LoadDebugConfig(extensions, decode).config.value, opts);
      c == DebugConfig(opts.command, opts.host, false, false, opts.shell)
  {
  }
}
