/** pkg/tdxsetup/setup.go: the orchestrator. TdxSetupManager runs five stages
    in a fixed order (find the disk, find the key, write the key, wait for the
    passphrase, set up the encrypted disk) and stops at the first failure,
    labelling the error with the stage it came from.

    Everything outside the machine is passed in as an Environment: the
    partition table and the glob results the disk strategies see, the events
    that reach the key server, and what crypto/rand and the named pipe
    supply. */
module Setup {
  import opened Base
  import opened Machine
  import opened Mounting
  import opened Find
  import opened Keys
  import opened Passphrase

  /** TdxSetupManagerOptions. */
  datatype Options = Options(
    sshDir: string,
    keyFile: string,
    mountPoint: string,
    mapperName: string,
    mapperDevice: string)

  /** The directory device-mapper targets appear in. */
  const MapperDir := "/dev/mapper/"

  /** The name of the SSH authorized keys file inside SSHDir. */
  const AuthorizedKeysName := "authorized_keys"

  /** filepath.Join of a directory and a plain file name. */
  function JoinPath(dir: string, name: string): (path: string)
    ensures |name| <= |path| && path[|path| - |name|..] == name
    ensures dir != [] ==> dir <= path && |path| <= |dir| + 1 + |name|
  {
    if dir == [] then name
    else if dir[|dir| - 1] == '/' then dir + name
    else dir + "/" + name
  }

  function AuthorizedKeysPath(o: Options): string
  {
    JoinPath(o.sshDir, AuthorizedKeysName)
  }

  /** DefaultTdxSetupManagerOptions: the mapper device is the mapper's entry
      under /dev/mapper, and the key file is not the authorized keys file. */
  function DefaultOptions(): (o: Options)
    ensures o.mapperDevice == MapperDir + o.mapperName
    ensures o.keyFile != AuthorizedKeysPath(o)
    ensures o.mountPoint != "" && o.mapperName != ""
  {
    Options("/root/.ssh", "/etc/root_key", "/persistent", "cryptdisk", "/dev/mapper/cryptdisk")
  }

  /** The restrictions and key type every authorized key line starts with. */
  const KeyOptions := "no-port-forwarding,no-agent-forwarding,no-X11-forwarding ssh-ed25519 "

  /** The line writeKey puts into authorized_keys. */
  function AuthorizedKeysLine(key: string): (line: string)
    ensures KeyOptions <= line && |line| == |KeyOptions| + |key| + 1
    ensures line[|KeyOptions|..|line| - 1] == key && line[|line| - 1] == '\n'
  {
    KeyOptions + key + "\n"
  }

  /** A key that passed the server's check makes a line of fixed length, and
      no newline occurs after the options prefix except the terminator: one
      key is always one line. */
  lemma ValidKeyMakesOneLine(key: string)
    requires ValidKey(key)
    ensures |AuthorizedKeysLine(key)| == |KeyOptions| + 69
    ensures forall i | |KeyOptions| <= i < |AuthorizedKeysLine(key)| - 1 :: AuthorizedKeysLine(key)[i] != '\n'
  {
    var line := AuthorizedKeysLine(key);
    forall i | |KeyOptions| <= i < |line| - 1
      ensures line[i] != '\n'
    {
      assert line[i] == key[i - |KeyOptions|];
      assert IsKeyChar(key[i - |KeyOptions|]);
    }
  }

  /** Because the file is not truncated, writing over a line this code wrote
      earlier leaves exactly the new line when both keys passed the check;
      any longer old contents keep their tail. */
  lemma RewriteOfValidLineIsExact(oldKey: string, newKey: string)
    requires ValidKey(oldKey) && ValidKey(newKey)
    ensures OverwriteFromStart(AuthorizedKeysLine(oldKey), AuthorizedKeysLine(newKey)) == AuthorizedKeysLine(newKey)
  {
  }

  /** The part of tryFindKey after a successful token export: parse the JSON
      and take user_data["metadata"]. */
  function ExtractKey(blob: Blob): (r: Result<string>)
    ensures r.Ok? <==> blob.Json? && MetadataField in blob.token.userData
    ensures r.Err? ==> r.error == (if blob.Garbage? then TokenParseFailed else NoMetadata)
    ensures r.Ok? ==> r.value == blob.token.userData[MetadataField]
  {
    match blob
    case Garbage => Err(TokenParseFailed)
    case Json(token) =>
      if MetadataField in token.userData then Ok(token.userData[MetadataField]) else Err(NoMetadata)
  }

  /** The token SetupNewDisk stores gives back the key it was built from. */
  lemma ExtractKeyInvertsUserToken(key: string)
    ensures ExtractKey(Json(UserToken(key))) == Ok(key)
  {
  }

  /** Other user data in a token does not disturb the extraction. */
  lemma ExtractKeyIgnoresOtherFields(t: Token, field: string, value: string)
    requires field != MetadataField
    ensures ExtractKey(Json(t.(userData := t.userData[field := value]))) == ExtractKey(Json(t))
  {
  }

  /** What the world outside the machine supplies during one Setup. */
  datatype Environment = Environment(
    partitions: Partitions,
    glob: string -> Option<seq<string>>,
    keyEvents: seq<Event>,
    shutdownFails: bool,
    entropy: Option<seq<byte>>,
    pipe: PipeInput)

  /** How tryFindKey ends: it never returns (the key server waits for ever),
      or it returns the key or an error. */
  datatype Lookup = Waiting | Looked(result: Result<string>)

  /** What tryFindKey does. `probe` is the outcome of `cryptsetup isLuks`,
      which succeeds only on a device with a LUKS header but may fail on one
      too. When it succeeds the key comes from token 1 and the key server is
      never started; when it fails the key server's result is taken, its
      error wrapped. */
  ghost predicate FindKeyEffect(b: Snapshot, a: Snapshot, events: seq<Event>, shutdownFails: bool,
                                probe: bool, l: Lookup)
  {
    && (probe ==> b.header)
    && var probed := b.(trace := b.trace + [Call(ProbeHeader, probe)]);
    if probe then
      || (a == probed.(trace := probed.trace + [Fail(TokenExport)]) && l == Looked(Err(TokenExportFailed)))
      || (&& b.slot1.Some?
          && a == probed.(trace := probed.trace + [Pass(TokenExport)])
          && l == Looked(ExtractKey(b.slot1.value)))
    else
      match WaitForKey(events, shutdownFails)
      case Blocked => a == probed && l == Waiting
      case Returned(result, _) =>
        && a == probed.(trace := probed.trace + [Call(AwaitKey, result.Ok?)])
        && l == Looked(if result.Ok? then result else Err(KeyWaitFailed(result.error)))
  }

  /** What writeKey does: open (creating if needed) authorized_keys, write the
      key line over its start, then replace the key file with the key; the
      first failure ends it. */
  ghost predicate WriteKeyEffect(b: Snapshot, a: Snapshot, key: string, err: Option<Error>, o: Options)
  {
    var path := AuthorizedKeysPath(o);
    var ready := b.(files := if path in b.files then b.files else b.files[path := ""],
                     trace := b.trace + [Pass(OpenAuthorizedKeys)]);
    var written := ready.(files := ready.files[path := OverwriteFromStart(ready.files[path], AuthorizedKeysLine(key))],
                           trace := ready.trace + [Pass(WriteAuthorizedKeys)]);
    match err
    case Some(OpenAuthorizedKeysFailed) => a == b.(trace := b.trace + [Fail(OpenAuthorizedKeys)])
    case Some(WriteAuthorizedKeysFailed) => a == ready.(trace := ready.trace + [Fail(WriteAuthorizedKeys)])
    case Some(WriteKeyFileFailed) => a == written.(trace := written.trace + [Fail(WriteKeyFile)])
    case None => a == written.(files := written.files[o.keyFile := key], trace := written.trace + [Pass(WriteKeyFile)])
    case _ => false
  }

  /** After a successful writeKey the key file holds the key and the
      authorized keys file starts with the key's line; the disk, the token
      slot and the mount table are untouched. */
  lemma WriteKeyStoresKey(b: Snapshot, a: Snapshot, key: string, o: Options)
    requires WriteKeyEffect(b, a, key, None, o)
    ensures o.keyFile in a.files && a.files[o.keyFile] == key
    ensures o.keyFile != AuthorizedKeysPath(o) ==>
              AuthorizedKeysPath(o) in a.files && AuthorizedKeysLine(key) <= a.files[AuthorizedKeysPath(o)]
    ensures a.header == b.header && a.slot1 == b.slot1 && a.mounts == b.mounts && a.mapperOpen == b.mapperOpen
  {
  }

  /** Once writeKey has written the key file, SetPassphrase's key-file guard
      cannot fire: within Setup the only guard error left is AlreadySetup. */
  lemma KeyFileGuardPasses(w: Snapshot, c: Snapshot, err: Option<Error>, seen: Option<string>,
                           probe: bool, pathErr: Option<Error>, o: Options)
    requires o.keyFile in w.files
    requires SetPassphraseEffect(w, c, err, seen, probe, pathErr, o.keyFile, o.mapperDevice, o.mountPoint)
    ensures err == None || err == Some(AlreadySetup)
  {
  }

  /** When the header probe fails (on a device without a header, or on one
      with a header when isLuks fails), a SetPassphrase whose path succeeded
      leaves the device formatted, mounted at the mount point, and holding in
      token 1 the key that the key file held, which ExtractKey gives back. */
  lemma FreshDiskStoresKey(w: Snapshot, c: Snapshot, seen: Option<string>, key: string, o: Options)
    requires o.keyFile in w.files && w.files[o.keyFile] == key
    requires SetPassphraseEffect(w, c, None, seen, false, None, o.keyFile, o.mapperDevice, o.mountPoint)
    ensures c.header && c.slot1 == Some(Json(UserToken(key)))
    ensures c.mounts == w.mounts + [MountEntry(o.mapperDevice, o.mountPoint)]
    ensures ExtractKey(c.slot1.value) == Ok(key)
  {
    ExtractKeyInvertsUserToken(key);
  }

  /** On the next boot, when the header probe succeeds, tryFindKey gets back
      the key stored at provisioning, or fails to export the token; the key
      server is not started either way. */
  lemma KeyRecoveredOnNextRun(c: Snapshot, d: Snapshot, key: string, events: seq<Event>,
                              shutdownFails: bool, l: Lookup)
    requires c.slot1 == Some(Json(UserToken(key)))
    requires FindKeyEffect(c, d, events, shutdownFails, true, l)
    ensures l == Looked(Ok(key)) || l == Looked(Err(TokenExportFailed))
    ensures d.trace == c.trace + [Pass(ProbeHeader), Call(TokenExport, l.result.Ok?)]
    ensures d == c.(trace := d.trace)
  {
    ExtractKeyInvertsUserToken(key);
  }

  /** The key's round trip across boots: writeKey stores the key file,
      SetPassphrase on a device whose probe failed imports the key's token,
      and on a later boot, with token 1 as it was left and a probe that
      succeeds, tryFindKey gets back that same key unless the export fails. */
  lemma KeySurvivesReboot(b: Snapshot, w: Snapshot, c: Snapshot, next: Snapshot, d: Snapshot, key: string,
                          seen: Option<string>, events: seq<Event>, shutdownFails: bool, l: Lookup, o: Options)
    requires WriteKeyEffect(b, w, key, None, o)
    requires SetPassphraseEffect(w, c, None, seen, false, None, o.keyFile, o.mapperDevice, o.mountPoint)
    requires next.slot1 == c.slot1
    requires FindKeyEffect(next, d, events, shutdownFails, true, l)
    ensures l == Looked(Ok(key)) || l == Looked(Err(TokenExportFailed))
  {
    WriteKeyStoresKey(b, w, key, o);
    FreshDiskStoresKey(w, c, seen, key, o);
    KeyRecoveredOnNextRun(next, d, key, events, shutdownFails, l);
  }

  /** On a provisioned device whose header probe fails, tryFindKey does not
      read token 1: it waits on the key server, and any key it returns is one
      the server accepted. */
  lemma FailedProbeAwaitsServer(c: Snapshot, d: Snapshot, key: string, events: seq<Event>,
                                shutdownFails: bool, l: Lookup)
    requires c.header && c.slot1 == Some(Json(UserToken(key)))
    requires FindKeyEffect(c, d, events, shutdownFails, false, l)
    ensures |d.trace| > |c.trace| && d.trace[|c.trace|] == Fail(ProbeHeader)
    ensures forall k | |c.trace| <= k < |d.trace| :: d.trace[k].step != TokenExport
    ensures l.Looked? && l.result.Ok? ==> ValidKey(l.result.value)
    ensures l != Looked(Err(TokenExportFailed))
    ensures d == c.(trace := d.trace)
  {
  }

  /** While the volume is still mounted (in the same boot), a second
      SetPassphrase that can read /proc/mounts refuses and changes nothing. */
  lemma SecondRunRefused(c: Snapshot, d: Snapshot, err: Option<Error>, seen: Option<string>,
                         probe: bool, pathErr: Option<Error>, earlier: seq<MountEntry>, o: Options)
    requires c.mounts == earlier + [MountEntry(o.mapperDevice, o.mountPoint)]
    requires seen.Some?
    requires SetPassphraseEffect(c, d, err, seen, probe, pathErr, o.keyFile, o.mapperDevice, o.mountPoint)
    ensures err == Some(AlreadySetup) && d == c
  {
    MountedPointIsDetected(c.mounts, |c.mounts| - 1);
  }

  /** How Setup ends: success, an error labelled with its stage, or a stage
      that never returns. */
  datatype Outcome = Completed | Failed(error: Error) | Stuck(stage: Stage)

  /** What each stage of Setup produced and the state it left: `device` from
      FindDisk; `keyProbe`, `lookup` and `afterKey` from tryFindKey;
      `writeErr` and `afterWrite` from writeKey; `afterWait` once the
      passphrase has arrived; `setErr`, `seen`, `setProbe` and `pathErr` from
      SetPassphrase. */
  datatype Stages = Stages(
    device: Result<string>,
    keyProbe: bool, lookup: Lookup, afterKey: Snapshot,
    writeErr: Option<Error>, afterWrite: Snapshot,
    afterWait: Snapshot,
    setErr: Option<Error>, seen: Option<string>, setProbe: bool, pathErr: Option<Error>)

  class TdxSetupManager {
    const keySource: KeySource
    const passphraseSource: PassphraseSource
    const diskSource: DiskSource
    const options: Options

    /** NewSetupManager. */
    constructor (keySource: KeySource, passphraseSource: PassphraseSource,
                 diskSource: DiskSource, options: Options)
      ensures this.keySource == keySource && this.passphraseSource == passphraseSource
      ensures this.diskSource == diskSource && this.options == options
    {
      this.keySource := keySource;
      this.passphraseSource := passphraseSource;
      this.diskSource := diskSource;
      this.options := options;
    }

    method TryFindKey(host: Host, env: Environment) returns (l: Lookup, ghost probe: bool)
      modifies host`trace
      ensures FindKeyEffect(old(host.State()), host.State(), env.keyEvents, env.shutdownFails, probe, l)
    {
      var hasHeader := host.Probe();
      probe := hasHeader;
      if hasHeader {
        var blob := host.ExportToken();
        l := if blob.None? then Looked(Err(TokenExportFailed)) else Looked(ExtractKey(blob.value));
        return;
      }
      var w := WaitForKey(env.keyEvents, env.shutdownFails);
      if w.Blocked? {
        l := Waiting;
        return;
      }
      host.Record(AwaitKey, w.result.Ok?);
      l := if w.result.Err? then Looked(Err(KeyWaitFailed(w.result.error))) else Looked(w.result);
    }

    method WriteKey(host: Host, key: string) returns (err: Option<Error>)
      modifies host`files, host`trace
      ensures WriteKeyEffect(old(host.State()), host.State(), key, err, options)
    {
      var path := AuthorizedKeysPath(options);
      var ok := host.OpenForWrite(path, OpenAuthorizedKeys);
      if !ok {
        return Some(OpenAuthorizedKeysFailed);
      }
      ok := host.WriteFromStart(path, AuthorizedKeysLine(key), WriteAuthorizedKeys);
      if !ok {
        return Some(WriteAuthorizedKeysFailed);
      }
      ok := host.WriteWhole(options.keyFile, key, WriteKeyFile);
      if !ok {
        return Some(WriteKeyFileFailed);
      }
      return None;
    }

    /** The disk strategy's FindDisk. */
    method FindDisk(env: Environment) returns (device: Result<string>)
      ensures diskSource.PathGlob? ==> device == FindFirstDiskByPathGlob(diskSource.pathGlob, env.glob)
      ensures diskSource.LargestDisk? ==> IsLargestDiskResult(env.partitions, device)
      ensures diskSource.LargestDisk? && device.Err? ==>
                device.error in {PartitionsUnreadable, ScanFailed, NoScsiDisk}
      ensures diskSource.LargestDisk? && device.Ok? ==> "/dev/sd" <= device.value
    {
      match diskSource
      case LargestDisk =>
        device := FindLargestDisk(env.partitions);
      case PathGlob(pathGlob) =>
        device := FindFirstDiskByPathGlob(pathGlob, env.glob);
    }

    /** What Setup does, stage by stage: each stage starts from the state the
        previous one left, and a failing or blocking stage is the last, the
        state it left being the final one. The disk stage's result is the
        disk strategy's: FindFirstDiskByPathGlob's, or one that fits
        IsLargestDiskResult. `b` and `a` are the states before and after;
        `st` names what each stage produced. */
    ghost predicate SetupEffect(b: Snapshot, a: Snapshot, env: Environment, r: Outcome, st: Stages)
    {
      && (diskSource.PathGlob? ==> st.device == FindFirstDiskByPathGlob(diskSource.pathGlob, env.glob))
      && (diskSource.LargestDisk? ==> IsLargestDiskResult(env.partitions, st.device))
      && if st.device.Err? then
        r == Failed(InStage(FindDiskStage, st.device.error)) && a == b
      else
        && FindKeyEffect(b, st.afterKey, env.keyEvents, env.shutdownFails, st.keyProbe, st.lookup)
        && match st.lookup
           case Waiting =>
             r == Stuck(FindKeyStage) && a == st.afterKey
           case Looked(Err(e)) =>
             r == Failed(InStage(FindKeyStage, e)) && a == st.afterKey
           case Looked(Ok(key)) =>
             && WriteKeyEffect(st.afterKey, st.afterWrite, key, st.writeErr, options)
             && if st.writeErr.Some? then
                  r == Failed(InStage(WriteKeyStage, st.writeErr.value)) && a == st.afterWrite
                else
                  LastStagesEffect(st.afterWrite, a, env, r, st.afterWait, st.setErr, st.seen, st.setProbe, st.pathErr)
    }

    /** The last two stages: wait for the passphrase, then SetPassphrase. `w`
        is the state writeKey left, `afterWait` the state once the passphrase
        has arrived, and the rest is what SetPassphrase produced. */
    ghost predicate LastStagesEffect(w: Snapshot, a: Snapshot, env: Environment, r: Outcome, afterWait: Snapshot,
                                     setErr: Option<Error>, seen: Option<string>, setProbe: bool, pathErr: Option<Error>)
    {
      match WaitForPassphrase(passphraseSource, env.entropy, env.pipe)
      case WriterAbsent =>
        r == Stuck(PassphraseStage) && a == w
      case Answered(passphrase) =>
        && afterWait == w.(trace := w.trace + [Call(AwaitPassphrase, passphrase.Ok?)])
        && if passphrase.Err? then
             r == Failed(InStage(PassphraseStage, passphrase.error)) && a == afterWait
           else
             && SetPassphraseEffect(afterWait, a, setErr, seen, setProbe, pathErr,
                                    options.keyFile, options.mapperDevice, options.mountPoint)
             && r == (if setErr.None? then Completed else Failed(InStage(SetPassphraseStage, setErr.value)))
    }

    /** The passphrase and SetPassphrase stages of Setup. */
    method LastStages(host: Host, env: Environment)
      returns (r: Outcome, ghost afterWait: Snapshot, ghost setErr: Option<Error>, ghost seen: Option<string>,
               ghost setProbe: bool, ghost pathErr: Option<Error>)
      modifies host`header, host`slot1, host`mapperOpen, host`mounts, host`files, host`trace
      ensures LastStagesEffect(old(host.State()), host.State(), env, r, afterWait, setErr, seen, setProbe, pathErr)
    {
      afterWait, setErr, seen, setProbe, pathErr := host.State(), None, None, false, None;
      var passphrase := WaitForPassphrase(passphraseSource, env.entropy, env.pipe);
      if passphrase.WriterAbsent? {
        r := Stuck(PassphraseStage);
        return;
      }
      host.Record(AwaitPassphrase, passphrase.result.Ok?);
      afterWait := host.State();
      if passphrase.result.Err? {
        r := Failed(InStage(PassphraseStage, passphrase.result.error));
        return;
      }
      var err, mounts, diskProbe, dropped := SetPassphrase(host, options.keyFile, options.mapperDevice, options.mountPoint);
      setErr, seen, setProbe, pathErr := err, mounts, diskProbe, dropped;
      r := if err.None? then Completed else Failed(InStage(SetPassphraseStage, err.value));
    }

    /** Setup. The ghost result `st` names what each stage produced and the
        state it left. Each stage starts from the state the previous one
        left, and a failing or blocking stage is the last: nothing after it
        runs. */
    method Setup(host: Host, env: Environment) returns (r: Outcome, ghost st: Stages)
      modifies host`header, host`slot1, host`mapperOpen, host`mounts, host`files, host`trace
      ensures SetupEffect(old(host.State()), host.State(), env, r, st)
    {
      var found := FindDisk(env);
      ghost var keyProbe, lookup, afterKey := false, Waiting, host.State();
      ghost var writeErr, afterWrite, afterWait := None, host.State(), host.State();
      ghost var setErr, seen, setProbe, pathErr := None, None, false, None;
      if found.Err? {
        r := Failed(InStage(FindDiskStage, found.error));
      } else {
        var key, probe := TryFindKey(host, env);
        keyProbe, lookup, afterKey := probe, key, host.State();
        if key.Waiting? {
          r := Stuck(FindKeyStage);
        } else if key.result.Err? {
          r := Failed(InStage(FindKeyStage, key.result.error));
        } else {
          var written := WriteKey(host, key.result.value);
          writeErr, afterWrite := written, host.State();
          if written.Some? {
            r := Failed(InStage(WriteKeyStage, written.value));
          } else {
            r, afterWait, setErr, seen, setProbe, pathErr := LastStages(host, env);
          }
        }
      }
      st := Stages(found, keyProbe, lookup, afterKey, writeErr, afterWrite, afterWait, setErr, seen, setProbe, pathErr);
    }
  }
}
