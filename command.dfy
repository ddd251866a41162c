/** cmd/armv/app/command.go: the root command. It declares six flags bound
    to package-level variables, four of them required, and its `RunE` copies
    the variables into `Args`, picks the output path and calls `run`. */
module Command {
  import opened Wrappers
  import opened Errors
  import opened GoContext
  import opened PollerTypes
  import opened PollApi
  import opened Cloud
  import opened Root

  /** The six package-level flag variables. */
  datatype Flags = Flags(
    sourceSubscriptionId: string,
    sourceResourceGroup: string,
    targetSubscriptionId: string,
    targetResourceGroup: string,
    debug: bool,
    outputPath: string)

  /** The value of a flag: a string flag or a boolean one. */
  datatype FlagValue = Text(text: string) | Switch(on: bool)

  /** One declared flag: its name, its default, whether it is required. */
  datatype FlagSpec = FlagSpec(name: string, default: FlagValue, required: bool)

  /** The parts of the `cobra.Command` this model looks at. */
  datatype RootCommand = RootCommand(use: string, version: string, flags: seq<FlagSpec>)

  const SourceSubscriptionFlag: string := "source-subscription-id"
  const SourceGroupFlag: string := "source-resource-group"
  const TargetSubscriptionFlag: string := "target-subscription-id"
  const TargetGroupFlag: string := "target-resource-group"
  const DebugFlag: string := "debug"
  const OutputPathFlag: string := "output-path"

  /** `NewRootCommand(version)`: the command with its flags declared. */
  function NewRootCommand(version: string): (c: RootCommand)
    ensures c.version == version
    ensures |c.flags| == 6 && NamesDistinct(c)
  {
    RootCommand("armv", version, [
      FlagSpec(SourceSubscriptionFlag, Text(""), true),
      FlagSpec(SourceGroupFlag, Text(""), true),
      FlagSpec(TargetSubscriptionFlag, Text(""), true),
      FlagSpec(TargetGroupFlag, Text(""), true),
      FlagSpec(DebugFlag, Switch(false), false),
      FlagSpec(OutputPathFlag, Text(DefaultOutputPath), false)])
  }

  predicate NamesDistinct(c: RootCommand)
  {
    forall i, j | 0 <= i < j < |c.flags| :: c.flags[i].name != c.flags[j].name
  }

  /** The names of the flags marked required. */
  function RequiredNames(c: RootCommand): set<string>
  {
    set i | 0 <= i < |c.flags| && c.flags[i].required :: c.flags[i].name
  }

  /** The declaration of the flag called `name`, if there is one. */
  function Lookup(flags: seq<FlagSpec>, name: string): (r: Option<FlagSpec>)
    ensures r.Some? ==> r.value in flags && r.value.name == name
    ensures r.None? ==> forall f | f in flags :: f.name != name
  {
    if |flags| == 0 then None
    else if flags[0].name == name then Some(flags[0])
    else Lookup(flags[1..], name)
  }

  /** What the variable bound to flag `name` holds after parsing: the value
      given on the command line, or the declared default. */
  function ValueOf(c: RootCommand, given: map<string, FlagValue>, name: string): FlagValue
  {
    if name in given then given[name]
    else match Lookup(c.flags, name)
      case Some(f) => f.default
      case None => Text("")
  }

  function TextOf(v: FlagValue): string
  {
    if v.Text? then v.text else ""
  }

  /** The six variables after the command line `given` has been parsed. */
  function Bind(c: RootCommand, given: map<string, FlagValue>): Flags
  {
    Flags(
      TextOf(ValueOf(c, given, SourceSubscriptionFlag)),
      TextOf(ValueOf(c, given, SourceGroupFlag)),
      TextOf(ValueOf(c, given, TargetSubscriptionFlag)),
      TextOf(ValueOf(c, given, TargetGroupFlag)),
      ValueOf(c, given, DebugFlag).Switch? && ValueOf(c, given, DebugFlag).on,
      TextOf(ValueOf(c, given, OutputPathFlag)))
  }

  /** The configuration `RunE` builds from the variables. */
  function ConfigOf(f: Flags): Config
  {
    var args := Args(f.sourceSubscriptionId, f.sourceResourceGroup, f.targetSubscriptionId,
                     f.targetResourceGroup, f.debug, f.outputPath);
    Config(args, if args.outputPath != "" then args.outputPath else DefaultOutputPath)
  }

  /** The body of `RunE` up to `run`: `Args` is filled in field by field,
      the output path starts as the default and is replaced by the flag's
      value when that is not empty. */
  method NewConfig(f: Flags) returns (cfg: Config)
    ensures cfg.args.sourceSubscriptionId == f.sourceSubscriptionId
    ensures cfg.args.sourceResourceGroup == f.sourceResourceGroup
    ensures cfg.args.targetSubscriptionId == f.targetSubscriptionId
    ensures cfg.args.targetResourceGroup == f.targetResourceGroup
    ensures cfg.args.debug == f.debug && cfg.args.outputPath == f.outputPath
    ensures cfg.outputPath != ""
    ensures f.outputPath != "" ==> cfg.outputPath == f.outputPath
    ensures f.outputPath == "" ==> cfg.outputPath == DefaultOutputPath
    ensures cfg == ConfigOf(f)
  {
    var appArgs := Args(f.sourceSubscriptionId, f.sourceResourceGroup, f.targetSubscriptionId,
                        f.targetResourceGroup, f.debug, f.outputPath);
    cfg := Config(appArgs, DefaultOutputPath);
    if cfg.args.outputPath != "" {
      cfg := cfg.(outputPath := cfg.args.outputPath);
    }
  }

  /** The context `RunE` hands to `run`: the command's, or `Background`
      when the command has none. */
  function ContextFor(cmdCtx: Option<Context>): (ctx: Context)
    ensures cmdCtx.Some? ==> ctx == cmdCtx.value
    ensures cmdCtx.None? ==> ctx == Background && ctx.cancelAt.None? && ctx.deadline.None?
  {
    if cmdCtx.None? then Background else cmdCtx.value
  }

  /** `RunE(cmd, args)`, with the command's context `cmdCtx` (`None` for
      nil) and the flag variables `f`. */
  method RunE(cmdCtx: Option<Context>, f: Flags, az: Azure, sink: OutputSink, setup: PollSetup) returns (r: Outcome)
    requires setup.pollingTimeout >= OneMinute
    modifies az, sink
    ensures var t := RunEnd(ContextFor(cmdCtx), ConfigOf(f), az, setup, sink.failure);
            && r == t.outcome
            && az.log == old(az.log) + t.calls
            && sink.calls == old(sink.calls) + t.written
  {
    var ctx := Background;
    if cmdCtx.Some? {
      ctx := cmdCtx.value;
    }
    var cfg := NewConfig(f);
    var info;
    r, info := Run(ctx, cfg, az, sink, setup);
  }

  /** Exactly the four identifier flags are required; `debug` is off and
      `output-path` is "./output" unless given. */
  lemma DeclaredFlags(version: string)
    ensures var c := NewRootCommand(version);
            && RequiredNames(c) == {SourceSubscriptionFlag, SourceGroupFlag, TargetSubscriptionFlag, TargetGroupFlag}
            && Lookup(c.flags, DebugFlag) == Some(FlagSpec(DebugFlag, Switch(false), false))
            && Lookup(c.flags, OutputPathFlag) == Some(FlagSpec(OutputPathFlag, Text(DefaultOutputPath), false))
  {
    RequiredFlagNames(version);
    DefaultFlags(version);
  }

  /** The required flags are the four identifier flags. */
  lemma RequiredFlagNames(version: string)
    ensures RequiredNames(NewRootCommand(version))
              == {SourceSubscriptionFlag, SourceGroupFlag, TargetSubscriptionFlag, TargetGroupFlag}
  {
    var c := NewRootCommand(version);
    var want := {SourceSubscriptionFlag, SourceGroupFlag, TargetSubscriptionFlag, TargetGroupFlag};
    forall n | n in RequiredNames(c) ensures n in want {
      var i :| 0 <= i < |c.flags| && c.flags[i].required && c.flags[i].name == n;
      assert i < 4;
    }
    forall n | n in want ensures n in RequiredNames(c) {
      var i := if n == SourceSubscriptionFlag then 0 else if n == SourceGroupFlag then 1
               else if n == TargetSubscriptionFlag then 2 else 3;
      assert c.flags[i].required && c.flags[i].name == n;
    }
  }

  /** The two optional flags are declared with their defaults. */
  lemma DefaultFlags(version: string)
    ensures var c := NewRootCommand(version);
            && Lookup(c.flags, DebugFlag) == Some(FlagSpec(DebugFlag, Switch(false), false))
            && Lookup(c.flags, OutputPathFlag) == Some(FlagSpec(OutputPathFlag, Text(DefaultOutputPath), false))
  {
    var c := NewRootCommand(version);
    assert DebugFlag[0] == 'd' && OutputPathFlag[0] == 'o';
    assert Lookup(c.flags, DebugFlag) == Lookup(c.flags[4..], DebugFlag);
    assert Lookup(c.flags, OutputPathFlag) == Lookup(c.flags[5..], OutputPathFlag);
  }

  /** Given only the four required flags, the run is not in debug mode and
      writes under "./output", and each identifier reaches `run` unchanged. */
  lemma RequiredOnlyUsesDefaults(version: string, given: map<string, FlagValue>)
    requires given.Keys == {SourceSubscriptionFlag, SourceGroupFlag, TargetSubscriptionFlag, TargetGroupFlag}
    requires forall name | name in given :: given[name].Text?
    ensures var cfg := ConfigOf(Bind(NewRootCommand(version), given));
            && !cfg.args.debug
            && cfg.outputPath == DefaultOutputPath
            && cfg.args.sourceSubscriptionId == given[SourceSubscriptionFlag].text
            && cfg.args.sourceResourceGroup == given[SourceGroupFlag].text
            && cfg.args.targetSubscriptionId == given[TargetSubscriptionFlag].text
            && cfg.args.targetResourceGroup == given[TargetGroupFlag].text
  {
    var c := NewRootCommand(version);
    DeclaredFlags(version);
    assert DebugFlag !in given && OutputPathFlag !in given by {
      assert DebugFlag[0] == 'd' && OutputPathFlag[0] == 'o';
    }
    assert ValueOf(c, given, DebugFlag) == Switch(false);
    assert ValueOf(c, given, OutputPathFlag) == Text(DefaultOutputPath);
  }

  /** A non-empty `--output-path` is used as given; an empty one falls back
      to the default, so the path `run` gets is never empty. */
  lemma OutputPathChoice(version: string, given: map<string, FlagValue>, p: string)
    requires OutputPathFlag in given && given[OutputPathFlag] == Text(p)
    ensures var cfg := ConfigOf(Bind(NewRootCommand(version), given));
            && cfg.args.outputPath == p
            && cfg.outputPath == (if p != "" then p else DefaultOutputPath)
            && cfg.outputPath != ""
  {
  }
}
