/** cmd/main.go: the `setup` command. The strategy factories map the names
    given on the command line to strategy values, runSetup builds them in a
    fixed order, copies the path options, and runs the manager. */
module Cli {
  import opened Base
  import opened Machine
  import opened Find
  import opened Keys
  import opened Passphrase
  import opened Setup

  datatype KeyStrategy = KeyStrategy(typ: string, serverUrl: string)
  datatype PassphraseStrategy = PassphraseStrategy(typ: string, pipePath: string)
  datatype DiskStrategy = DiskStrategy(typ: string, pathGlob: string)

  /** Config: the parsed command-line flags. */
  datatype Config = Config(
    keyStrategy: KeyStrategy,
    passphraseStrategy: PassphraseStrategy,
    diskStrategy: DiskStrategy,
    sshDir: string,
    keyFile: string,
    mountPoint: string,
    mapperName: string,
    mapperDevice: string)

  /** The Config field a flag is bound to. */
  datatype Field = SshDir | KeyFile | MountPoint | MapperName | MapperDevice
                 | KeyType | ServerUrl | PassphraseType | PipePath | DiskType | DiskGlob

  /** One StringVar call: the field the flag is bound to and its default. */
  datatype FlagDef = FlagDef(field: Field, value: string)

  function FieldOf(c: Config, f: Field): string
  {
    match f
    case SshDir => c.sshDir
    case KeyFile => c.keyFile
    case MountPoint => c.mountPoint
    case MapperName => c.mapperName
    case MapperDevice => c.mapperDevice
    case KeyType => c.keyStrategy.typ
    case ServerUrl => c.keyStrategy.serverUrl
    case PassphraseType => c.passphraseStrategy.typ
    case PipePath => c.passphraseStrategy.pipePath
    case DiskType => c.diskStrategy.typ
    case DiskGlob => c.diskStrategy.pathGlob
  }

  /** Writing one field sets it and leaves every other field. */
  function SetField(c: Config, f: Field, v: string): (d: Config)
    ensures FieldOf(d, f) == v
    ensures forall g: Field | g != f :: FieldOf(d, g) == FieldOf(c, g)
  {
    match f
    case SshDir => c.(sshDir := v)
    case KeyFile => c.(keyFile := v)
    case MountPoint => c.(mountPoint := v)
    case MapperName => c.(mapperName := v)
    case MapperDevice => c.(mapperDevice := v)
    case KeyType => c.(keyStrategy := c.keyStrategy.(typ := v))
    case ServerUrl => c.(keyStrategy := c.keyStrategy.(serverUrl := v))
    case PassphraseType => c.(passphraseStrategy := c.passphraseStrategy.(typ := v))
    case PipePath => c.(passphraseStrategy := c.passphraseStrategy.(pipePath := v))
    case DiskType => c.(diskStrategy := c.diskStrategy.(typ := v))
    case DiskGlob => c.(diskStrategy := c.diskStrategy.(pathGlob := v))
  }

  /** pflag's StringVar writes the default into the bound field when the flag
      is defined; parsing writes only the flags given on the command line. So
      before parsing, each field holds the default of the flag bound to it
      that was defined last. */
  function DefineFlags(c: Config, defs: seq<FlagDef>): Config
    decreases |defs|
  {
    if defs == [] then c else DefineFlags(SetField(c, defs[0].field, defs[0].value), defs[1..])
  }

  /** The default of the last definition bound to `f`, `otherwise` when there
      is none. */
  function LastValue(defs: seq<FlagDef>, f: Field, otherwise: string): string
  {
    if defs == [] then otherwise
    else if defs[|defs| - 1].field == f then defs[|defs| - 1].value
    else LastValue(defs[..|defs| - 1], f, otherwise)
  }

  lemma {:induction false} DefineFlagsSnoc(c: Config, defs: seq<FlagDef>, d: FlagDef)
    ensures DefineFlags(c, defs + [d]) == SetField(DefineFlags(c, defs), d.field, d.value)
    decreases |defs|
  {
    if defs == [] {
      assert ([] + [d])[1..] == [];
    } else {
      assert (defs + [d])[1..] == defs[1..] + [d];
      DefineFlagsSnoc(SetField(c, defs[0].field, defs[0].value), defs[1..], d);
    }
  }

  /** Defining flags in order leaves each field with the default of the last
      definition bound to it, and untouched when none is. */
  lemma {:induction false} DefineFlagsIsLastValue(c: Config, defs: seq<FlagDef>, f: Field)
    ensures FieldOf(DefineFlags(c, defs), f) == LastValue(defs, f, FieldOf(c, f))
  {
    if defs != [] {
      var n := |defs| - 1;
      assert defs == defs[..n] + [defs[n]];
      DefineFlagsSnoc(c, defs[..n], defs[n]);
      DefineFlagsIsLastValue(c, defs[..n], f);
    }
  }

  /** The root command's persistent flags. */
  const RootFlags := [FlagDef(SshDir, "/root/.ssh"), FlagDef(KeyFile, "/etc/root_key"),
                      FlagDef(MountPoint, "/persistent"), FlagDef(MapperName, "cryptdisk"),
                      FlagDef(MapperDevice, "/dev/mapper/cryptdisk")]

  /** The setup command's flags. */
  const SetupFlags := [FlagDef(KeyType, "webserver"), FlagDef(ServerUrl, "0.0.0.0:8080"),
                       FlagDef(PassphraseType, "random"), FlagDef(PipePath, "/tmp/passphrase"),
                       FlagDef(DiskType, "largest"), FlagDef(DiskGlob, "*")]

  /** The config command's flags, bound to the same fields as setup's. */
  const ConfigFlags := [FlagDef(KeyType, "webserver"), FlagDef(ServerUrl, ":8080"),
                        FlagDef(PassphraseType, "random"), FlagDef(PipePath, "/tmp/passphrase"),
                        FlagDef(DiskType, "largest"), FlagDef(DiskGlob, "*")]

  /** Every flag definition of init(), in order. */
  const FlagDefinitions := RootFlags + SetupFlags + ConfigFlags

  /** Go's zero Config. */
  const ZeroConfig := Config(KeyStrategy("", ""), PassphraseStrategy("", ""), DiskStrategy("", ""), "", "", "", "", "")

  /** The Config a command starts from before its flags are parsed: init()
      defines the root, setup and config flags in that order, so config's
      server-URL default, defined last, is the one in effect for setup too. */
  function DefaultConfig(): (c: Config)
    ensures c.keyStrategy.serverUrl == ":8080"
  {
    DefineFlagsIsLastValue(ZeroConfig, FlagDefinitions, ServerUrl);
    LastValueAt(FlagDefinitions, 12, ServerUrl, "");
    DefineFlags(ZeroConfig, FlagDefinitions)
  }

  /** The last definition bound to `f` decides LastValue. */
  lemma {:induction false} LastValueAt(defs: seq<FlagDef>, i: int, f: Field, otherwise: string)
    requires 0 <= i < |defs| && defs[i].field == f
    requires forall j | i < j < |defs| :: defs[j].field != f
    ensures LastValue(defs, f, otherwise) == defs[i].value
    decreases |defs|
  {
    if i != |defs| - 1 {
      LastValueAt(defs[..|defs| - 1], i, f, otherwise);
    }
  }

  /** Two Configs that agree on every field are equal. */
  lemma SameFields(c: Config, d: Config)
    requires forall f: Field :: FieldOf(c, f) == FieldOf(d, f)
    ensures c == d
  {
    assert FieldOf(c, SshDir) == FieldOf(d, SshDir);
    assert FieldOf(c, KeyFile) == FieldOf(d, KeyFile);
    assert FieldOf(c, MountPoint) == FieldOf(d, MountPoint);
    assert FieldOf(c, MapperName) == FieldOf(d, MapperName);
    assert FieldOf(c, MapperDevice) == FieldOf(d, MapperDevice);
    assert FieldOf(c, KeyType) == FieldOf(d, KeyType);
    assert FieldOf(c, ServerUrl) == FieldOf(d, ServerUrl);
    assert FieldOf(c, PassphraseType) == FieldOf(d, PassphraseType);
    assert FieldOf(c, PipePath) == FieldOf(d, PipePath);
    assert FieldOf(c, DiskType) == FieldOf(d, DiskType);
    assert FieldOf(c, DiskGlob) == FieldOf(d, DiskGlob);
  }

  /** The field `f` of DefaultConfig is the default of definition `i`, the
      last one bound to `f`. */
  lemma DefaultField(f: Field, i: int)
    requires 0 <= i < |FlagDefinitions| && FlagDefinitions[i].field == f
    requires forall j | i < j < |FlagDefinitions| :: FlagDefinitions[j].field != f
    ensures FieldOf(DefaultConfig(), f) == FlagDefinitions[i].value
  {
    DefineFlagsIsLastValue(ZeroConfig, FlagDefinitions, f);
    LastValueAt(FlagDefinitions, i, f, "");
  }

  /** The root command's defaults are the only definitions of its fields. */
  lemma RootDefaults()
    ensures FieldOf(DefaultConfig(), SshDir) == "/root/.ssh"
    ensures FieldOf(DefaultConfig(), KeyFile) == "/etc/root_key"
    ensures FieldOf(DefaultConfig(), MountPoint) == "/persistent"
    ensures FieldOf(DefaultConfig(), MapperName) == "cryptdisk"
    ensures FieldOf(DefaultConfig(), MapperDevice) == "/dev/mapper/cryptdisk"
  {
    DefaultField(SshDir, 0);
    DefaultField(KeyFile, 1);
    DefaultField(MountPoint, 2);
    DefaultField(MapperName, 3);
    DefaultField(MapperDevice, 4);
  }

  /** The strategy fields hold the config command's defaults, defined last. */
  lemma StrategyDefaults()
    ensures FieldOf(DefaultConfig(), KeyType) == "webserver"
    ensures FieldOf(DefaultConfig(), ServerUrl) == ":8080"
    ensures FieldOf(DefaultConfig(), PassphraseType) == "random"
    ensures FieldOf(DefaultConfig(), PipePath) == "/tmp/passphrase"
    ensures FieldOf(DefaultConfig(), DiskType) == "largest"
    ensures FieldOf(DefaultConfig(), DiskGlob) == "*"
  {
    DefaultField(KeyType, 11);
    DefaultField(ServerUrl, 12);
    DefaultField(PassphraseType, 13);
    DefaultField(PipePath, 14);
    DefaultField(DiskType, 15);
    DefaultField(DiskGlob, 16);
  }

  /** Every default in effect: the root command's own, and the config
      command's for the strategy flags, which it redefines last. */
  lemma DefaultConfigValues()
    ensures DefaultConfig() == Config(KeyStrategy("webserver", ":8080"), PassphraseStrategy("random", "/tmp/passphrase"),
                                      DiskStrategy("largest", "*"), "/root/.ssh", "/etc/root_key", "/persistent",
                                      "cryptdisk", "/dev/mapper/cryptdisk")
  {
    RootDefaults();
    StrategyDefaults();
    SameFields(DefaultConfig(), Config(KeyStrategy("webserver", ":8080"), PassphraseStrategy("random", "/tmp/passphrase"),
                                       DiskStrategy("largest", "*"), "/root/.ssh", "/etc/root_key", "/persistent",
                                       "cryptdisk", "/dev/mapper/cryptdisk"));
  }

  /** createKeyInitializer. */
  function CreateKeyInitializer(c: Config): (r: Result<KeySource>)
    ensures r.Ok? <==> c.keyStrategy.typ == "webserver"
    ensures r.Ok? ==> r.value.url == c.keyStrategy.serverUrl
    ensures r.Err? ==> r.error == UnknownKeyStrategy(c.keyStrategy.typ)
  {
    match c.keyStrategy.typ
    case "webserver" => Ok(WebServer(c.keyStrategy.serverUrl))
    case _ => Err(UnknownKeyStrategy(c.keyStrategy.typ))
  }

  /** createPassphraseInitializer. */
  function CreatePassphraseInitializer(c: Config): (r: Result<PassphraseSource>)
    ensures r.Ok? <==> c.passphraseStrategy.typ in {"random", "namedpipe"}
    ensures r.Ok? ==> (r.value.RandomSource? <==> c.passphraseStrategy.typ == "random")
    ensures r.Ok? && r.value.NamedPipe? ==> r.value.pipePath == c.passphraseStrategy.pipePath
    ensures r.Err? ==> r.error == UnknownPassphraseStrategy(c.passphraseStrategy.typ)
  {
    match c.passphraseStrategy.typ
    case "random" => Ok(RandomSource)
    case "namedpipe" => Ok(NamedPipe(c.passphraseStrategy.pipePath))
    case _ => Err(UnknownPassphraseStrategy(c.passphraseStrategy.typ))
  }

  /** createDiskInitializer. */
  function CreateDiskInitializer(c: Config): (r: Result<DiskSource>)
    ensures r.Ok? <==> c.diskStrategy.typ in {"largest", "pathglob"}
    ensures r.Ok? ==> (r.value.LargestDisk? <==> c.diskStrategy.typ == "largest")
    ensures r.Ok? && r.value.PathGlob? ==> r.value.pathGlob == c.diskStrategy.pathGlob
    ensures r.Err? ==> r.error == UnknownDiskStrategy(c.diskStrategy.typ)
  {
    match c.diskStrategy.typ
    case "largest" => Ok(LargestDisk)
    case "pathglob" => Ok(PathGlob(c.diskStrategy.pathGlob))
    case _ => Err(UnknownDiskStrategy(c.diskStrategy.typ))
  }

  /** The flag values that select a given strategy. */
  function KeyStrategyFor(s: KeySource): KeyStrategy
  {
    KeyStrategy("webserver", s.url)
  }

  function PassphraseStrategyFor(s: PassphraseSource, c: Config): PassphraseStrategy
  {
    match s
    case RandomSource => PassphraseStrategy("random", c.passphraseStrategy.pipePath)
    case NamedPipe(path) => PassphraseStrategy("namedpipe", path)
  }

  function DiskStrategyFor(s: DiskSource, c: Config): DiskStrategy
  {
    match s
    case LargestDisk => DiskStrategy("largest", c.diskStrategy.pathGlob)
    case PathGlob(glob) => DiskStrategy("pathglob", glob)
  }

  /** Every strategy can be selected from the command line: the factories
      give back exactly the strategy whose name and parameter were set. */
  lemma FactoriesReachEveryStrategy(c: Config, k: KeySource, p: PassphraseSource, d: DiskSource)
    ensures CreateKeyInitializer(c.(keyStrategy := KeyStrategyFor(k))) == Ok(k)
    ensures CreatePassphraseInitializer(c.(passphraseStrategy := PassphraseStrategyFor(p, c))) == Ok(p)
    ensures CreateDiskInitializer(c.(diskStrategy := DiskStrategyFor(d, c))) == Ok(d)
  {
  }

  /** The three strategies runSetup hands to the manager. */
  datatype Strategies = Strategies(key: KeySource, passphrase: PassphraseSource, disk: DiskSource)

  /** The factories, tried in the order key, passphrase, disk; the first
      failure is the one reported. */
  function CreateStrategies(c: Config): (r: Result<Strategies>)
    ensures r.Ok? <==> CreateKeyInitializer(c).Ok? && CreatePassphraseInitializer(c).Ok? && CreateDiskInitializer(c).Ok?
    ensures r.Ok? ==> && r.value.key == CreateKeyInitializer(c).value
                      && r.value.passphrase == CreatePassphraseInitializer(c).value
                      && r.value.disk == CreateDiskInitializer(c).value
    ensures r.Err? ==> r.error == match c.keyStrategy.typ
                                   case "webserver" =>
                                     if CreatePassphraseInitializer(c).Err? then UnknownPassphraseStrategy(c.passphraseStrategy.typ)
                                     else UnknownDiskStrategy(c.diskStrategy.typ)
                                   case _ => UnknownKeyStrategy(c.keyStrategy.typ)
  {
    var key := CreateKeyInitializer(c);
    if key.Err? then Err(key.error)
    else
      var passphrase := CreatePassphraseInitializer(c);
      if passphrase.Err? then Err(passphrase.error)
      else
        var disk := CreateDiskInitializer(c);
        if disk.Err? then Err(disk.error)
        else Ok(Strategies(key.value, passphrase.value, disk.value))
  }

  /** The manager options runSetup builds from the flags. */
  function OptionsOf(c: Config): (o: Options)
    ensures o.sshDir == c.sshDir && o.keyFile == c.keyFile && o.mountPoint == c.mountPoint
    ensures o.mapperName == c.mapperName && o.mapperDevice == c.mapperDevice
  {
    Options(c.sshDir, c.keyFile, c.mountPoint, c.mapperName, c.mapperDevice)
  }

  /** The flag defaults are DefaultTdxSetupManagerOptions, and with them the
      web-server key strategy, random passphrases and the largest SCSI disk
      are chosen. */
  lemma DefaultFlagsMatchDefaultOptions()
    ensures OptionsOf(DefaultConfig()) == DefaultOptions()
    ensures CreateStrategies(DefaultConfig()) == Ok(Strategies(WebServer(":8080"), RandomSource, LargestDisk))
    ensures DefaultConfig().keyStrategy.serverUrl != SetupFlags[1].value
  {
    DefaultConfigValues();
  }

  /** How runSetup ends: a fatal exit before Setup, or Setup's own outcome. */
  datatype RunOutcome = Aborted(error: Error) | Ran(outcome: Outcome)

  /** runSetup: an unknown strategy name ends the program before anything
      touches the machine; otherwise the manager is built from the strategies
      and the copied options, and Setup runs with the effect SetupEffect
      describes. `manager` is the manager built and `stages` what each stage
      of its Setup produced. */
  method RunSetup(c: Config, host: Host, env: Environment)
    returns (o: RunOutcome, ghost manager: TdxSetupManager?, ghost stages: Stages)
    modifies host`header, host`slot1, host`mapperOpen, host`mounts, host`files, host`trace
    ensures CreateStrategies(c).Err? ==>
              o == Aborted(CreateStrategies(c).error) && manager == null && host.State() == old(host.State())
    ensures CreateStrategies(c).Ok? ==>
              && o.Ran? && manager != null
              && manager.keySource == CreateStrategies(c).value.key
              && manager.passphraseSource == CreateStrategies(c).value.passphrase
              && manager.diskSource == CreateStrategies(c).value.disk
              && manager.options == OptionsOf(c)
              && manager.SetupEffect(old(host.State()), host.State(), env, o.outcome, stages)
  {
    var strategies := CreateStrategies(c);
    if strategies.Err? {
      // Nothing ran: `stages` is a placeholder that no ensures speaks of.
      o, manager, stages := Aborted(strategies.error), null, Stages(Err(NoScsiDisk), false, Waiting, host.State(),
                                                                    None, host.State(), host.State(), None, None, false, None);
      return;
    }
    var m := new TdxSetupManager(strategies.value.key, strategies.value.passphrase, strategies.value.disk, OptionsOf(c));
    var outcome;
    outcome, stages := m.Setup(host, env);
    o, manager := Ran(outcome), m;
  }
}
