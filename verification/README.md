# tdx-init, modelled in Dafny

tdx-init provisions the encrypted persistent disk of a TDX confidential
virtual machine when it boots. The `setup` command does five things in order:

1. It picks the block device, either the largest whole SCSI disk in
   `/proc/partitions` or the first match of a `/dev/disk/by-path/` pattern.
2. It obtains the operator's SSH public key. If `cryptsetup isLuks`
   succeeds on the device, the key comes from LUKS token 1. Otherwise it
   comes from an HTTP POST to a small key server. `isLuks` fails on a device
   without a LUKS header, but it may also fail on one that has a header.
3. It writes the key into `authorized_keys` and into a key file.
4. It obtains a disk passphrase, either 32 random bytes or whatever is
   written into a named pipe.
5. It calls `SetPassphrase`. That refuses when the mount point is already
   mounted or the key file is missing. Otherwise it runs `isLuks` again. If
   that fails, it formats, opens and mounts the device and stores the key in
   token 1. If it succeeds, it opens and mounts the existing volume.

The model has eight modules, one per source file, plus two shared ones:

- `Base` (base.dfy): bytes, `Option`, `Result` and the error values the
  source reports.
- `Machine` (machine.dfy): the machine as a `Host` class. Its fields are:
  - the LUKS header of the one target device and its token slot 1;
  - whether the device-mapper target is open;
  - the mount table and the regular files;
  - an ordered log of every external step attempted and whether it
    succeeded.

  Each external command is a `Host` method that may succeed or fail
  nondeterministically. So every contract holds for every pattern of tool
  failures.
- `Mounting` (mounting.dfy, `pkg/disk/mounting.go`): the operations are
  imperative methods on a `Host`. Each is specified by a ghost predicate
  relating the states before and after to the error returned.
- `Find` (find.dfy, `pkg/disk/find.go`): the `/proc/partitions` scan is a
  loop proved against a reference definition, the first maximum of the line
  sizes. `TrimSpace`, `Fields` and `ParseInt` are modelled exactly, as is the
  int64 wrap-around of `* 1024`.
- `Keys` (keys.dfy, `pkg/tdxsetup/keys.go`): the HTTP handler, and the
  `select` over the events that reach it, in arrival order.
- `Passphrase` (passphrase.dfy, `pkg/tdxsetup/passphrase.go`): both
  passphrase strategies, over what `crypto/rand` and the pipe's system calls
  return.
- `Setup` (setup.dfy, `pkg/tdxsetup/setup.go`): `TdxSetupManager` and its
  five stages, and lemmas that follow a device across runs. After a first
  boot the key is recovered from token 1. A second run in the same boot is
  refused.
- `Cli` (main.dfy, `cmd/main.go`): the strategy factories, the flag
  defaults and `runSetup`.

Several source behaviours are kept exactly as written:

- `SetPassphrase` drops whatever error `SetupNewDisk` or `MountExistingDisk`
  returns and reports success. The dropped error is kept as a ghost result.
- After a failed `mkfs.ext4` or `mount` in `SetupNewDisk`, the result of
  `cryptsetup close` is ignored.
- `authorized_keys` is opened without `O_TRUNC`, so old contents longer than
  the new line keep their tail.
- A wait that never ends (no valid key ever arrives, or no writer ever opens
  the pipe) is a distinct outcome, `Stuck`.

## Model

| member | source | states |
|---|---|---|
| Machine.OverwriteFromStart | pkg/tdxsetup/setup.go:121-127 | a write at offset 0 of a file opened without O_TRUNC: the data is a prefix of the result, the length is the larger of the two, and the bytes beyond the data are the old ones |
| Machine.Host.constructor | pkg/disk/mounting.go:19-46 | the machine starts in the given state with an empty step log |
| Machine.Host.Probe | pkg/disk/mounting.go:35-36 | `cryptsetup isLuks` succeeds only when the device has a LUKS header, and may fail on a device that has one; nothing but the log changes |
| Machine.Host.Format | pkg/disk/mounting.go:57-61 | `luksFormat` either writes a fresh header with an empty token slot, or leaves the device as it was |
| Machine.Host.Open | pkg/disk/mounting.go:63-67 | `cryptsetup open` either opens the mapper or changes nothing |
| Machine.Host.Close | pkg/disk/mounting.go:154-157 | `cryptsetup close` either closes the mapper or changes nothing |
| Machine.Host.MakeFilesystem | pkg/disk/mounting.go:70 | `mkfs.ext4` succeeds or fails and only logs the outcome |
| Machine.Host.MountAt | pkg/disk/mounting.go:76 | a successful `mount` appends the entry to the mount table; a failed one changes nothing |
| Machine.Host.Unmount | pkg/disk/mounting.go:151 | a successful `umount` removes the most recent mount at that point |
| Machine.Host.ReadMounts | pkg/disk/mounting.go:143-146 | a successful read of /proc/mounts returns the text of the current mount table |
| Machine.Host.ReadFileAt | pkg/disk/mounting.go:81 | a successful read returns the file's current contents, and fails for a missing file |
| Machine.Host.ImportToken | pkg/disk/mounting.go:102-108 | a successful `token import` puts the JSON in slot 1 |
| Machine.Host.ExportToken | pkg/tdxsetup/setup.go:84-88 | a successful `token export` returns the contents of slot 1 |
| Machine.Host.Record | pkg/tdxsetup/setup.go:68-71 | a step that happens off the machine is logged with its outcome and nothing else changes |
| Machine.Host.OpenForWrite | pkg/tdxsetup/setup.go:121-124 | O_CREATE makes an empty file when there is none, and existing contents are kept; the attempt is logged under the step the caller names |
| Machine.Host.WriteFromStart | pkg/tdxsetup/setup.go:127-129 | a successful write overwrites the start of the file (OverwriteFromStart), and a failed one leaves it |
| Machine.Host.WriteWhole | pkg/tdxsetup/setup.go:135-137 | `os.WriteFile` leaves the file holding exactly the data |
| Mounting.UserToken | pkg/disk/mounting.go:87-93 | the token SetupNewDisk builds is of type "user", is bound to no keyslot, and has the key under "metadata" as its only user-data entry |
| Mounting.CheckMounted | pkg/disk/mounting.go:142-148 | an unreadable /proc/mounts means not mounted; otherwise the mount point is reported exactly when it occurs in the text with a space on each side |
| Mounting.DelimitedIffContains | pkg/disk/mounting.go:147 | `strings.Contains` of " " + point + " " holds exactly when the point occurs with a space on each side |
| Mounting.MountedPointIsDetected | pkg/disk/mounting.go:142-148 | every mount point in the mount table is found by CheckMounted in the /proc/mounts text |
| Mounting.UmountUndoesMount | pkg/disk/mounting.go:150-153 | unmounting the mount point last mounted restores the previous mount table |
| Mounting.ImportedTokenCarriesKey | pkg/disk/mounting.go:87-108 | after a successful SetupNewDisk, slot 1 holds a "user" token bound to no keyslot whose only user-data entry "metadata" is the key file's contents, and the volume is open and mounted |
| Mounting.CleanupMount | pkg/disk/mounting.go:150-158 | umount, then close only if umount succeeded; the error is UmountFailed, CloseFailed or none, and it fixes the mount table, mapper and log left behind |
| Mounting.MountExistingDisk | pkg/disk/mounting.go:115-140 | open then mount; a failed mount closes again and reports the close error if there is one, the mount error otherwise; the header and token are never touched |
| Mounting.PrepareVolume | pkg/disk/mounting.go:56-79 | format, open, mkfs and mount in order, stopping at the first failure; after a failed mkfs or mount the mapper is closed again with the close result ignored |
| Mounting.StoreKeyToken | pkg/disk/mounting.go:81-108 | read the key file and import its token; either failure runs CleanupMount and carries the cleanup error with it |
| Mounting.SetupNewDisk | pkg/disk/mounting.go:48-113 | the whole new-disk path: every error determines exactly the state left behind, and success leaves the formatted, mounted volume with the key token in slot 1 |
| Mounting.SetPassphrase | pkg/disk/mounting.go:19-46 | the mount guard, then the key-file guard, change nothing when they fire; otherwise the outcome of `isLuks` picks exactly one path: success (possible only with a header) mounts the existing volume, and failure (with or without a header) formats the device; the path's error is dropped |
| Mounting.FailedProbeReformats | pkg/disk/mounting.go:35-39 | when `isLuks` fails on a device that already has a header and a token, SetPassphrase reports success and runs `luksFormat`; once that succeeds, token 1 is empty or holds the key file's key, so the old token is gone |
| Mounting.NewDiskStartsWithFormat | pkg/disk/mounting.go:56-61 | SetupNewDisk only appends to the log, its first command is `luksFormat`, and once that has succeeded token 1 is empty or holds the key file's key |
| Mounting.StoreKeyExtends | pkg/disk/mounting.go:81-108 | reading the key file and importing the token only append to the log, and leave token 1 as it was or holding the key file's key |
| Find.Wrap64 | pkg/disk/find.go:62 | int64 wrap-around: the result is in int64 range, congruent to the input modulo 2^64, and equal to it when it is in range |
| Find.TrimLeftCutsSpace | pkg/disk/find.go:37 | TrimLeft removes exactly a leading run of white space |
| Find.TrimRightCutsSpace | pkg/disk/find.go:37 | TrimRight removes exactly a trailing run of white space |
| Find.TrimSpace | pkg/disk/find.go:37 | `strings.TrimSpace` gives a text that neither starts nor ends with white space, no longer than the input, and empty exactly when the input is all white space |
| Find.TrimSpaceCutsSpace | pkg/disk/find.go:37 | `strings.TrimSpace` removes white space from both ends and nothing else |
| Find.Word | pkg/disk/find.go:43 | a word is no longer than its input and is non-empty when the input starts with a non-space |
| Find.WordHasNoSpace | pkg/disk/find.go:43 | a word is the longest prefix without white space |
| Find.Fields | pkg/disk/find.go:43 | `strings.Fields` gives no more fields than the text has characters |
| Find.NoFieldsIffAllSpace | pkg/disk/find.go:43 | a text has no fields exactly when it is all white space |
| Find.FieldsAreWords | pkg/disk/find.go:43 | every field of `strings.Fields` is non-empty and has no white space |
| Find.ParseInt64 | pkg/disk/find.go:57-60 | `strconv.ParseInt(s, 10, 64)` succeeds exactly when the text after an optional `+` or `-` is a non-empty run of ASCII digits whose signed value is in int64 range, and then returns that value |
| Find.Decimal | pkg/disk/find.go:57 | the kernel's decimal text is a non-empty string of digits |
| Find.DecimalValue | pkg/disk/find.go:57 | decimal text spells its number |
| Find.ParseInt64ReadsDecimal | pkg/disk/find.go:57-60 | every block count in int64 range is parsed back unchanged |
| Find.CandidateOf | pkg/disk/find.go:37-62 | a line that survives the filters names a whole SCSI disk (an "sd" prefix, no trailing digit) with an int64 size |
| Find.DigitsHaveNoSpace | pkg/disk/find.go:43 | decimal digits are not white space, so a number is one field |
| Find.TrimLeftSkipsSpace | pkg/disk/find.go:37 | TrimLeft drops any leading white space before a text that starts with a non-space |
| Find.WordBeforeSpace | pkg/disk/find.go:43 | a word ends at the first white space |
| Find.FieldsSkipSpace | pkg/disk/find.go:43 | white space before a text does not change its fields |
| Find.FieldsStartWithWord | pkg/disk/find.go:43 | a word followed by white space or the end is the first field, and the rest gives the other fields |
| Find.RecordFields | pkg/disk/find.go:43-48 | a /proc/partitions record with its columns separated by white space splits into the major, minor, block count and name |
| Find.RecordTrim | pkg/disk/find.go:37 | trimming a record removes exactly its leading padding, and the result starts with a digit |
| Find.CandidateOfRecord | pkg/disk/find.go:37-62 | a record, however padded, is a candidate exactly when its name is a whole SCSI disk and its block count fits int64, and then its size is the block count times 1024, wrapped to int64 |
| Find.HeaderIsSkipped | pkg/disk/find.go:39-41 | the header line of /proc/partitions is never a candidate |
| Find.IsScsiDiskName | pkg/disk/find.go:50-53 | a whole SCSI disk name starts with "sd", and a name ending in an ASCII digit (a partition) never qualifies |
| Find.ExampleNames | pkg/disk/find.go:50-53 | "sda" and "sdb" are whole SCSI disk names, and "sda1" is a partition |
| Find.PositiveSizeIsCandidate | pkg/disk/find.go:64 | only a candidate line can beat the initial maximum of 0 |
| Find.Sizes | pkg/disk/find.go:35-68 | there is one competing size per line |
| Find.SizesAt | pkg/disk/find.go:35-68 | the i-th competing size is the size of the i-th line |
| Find.FirstMaxIsUnique | pkg/disk/find.go:64-67 | with a strict comparison, ties go to the earliest line, so the chosen line is unique |
| Find.FirstMaxExists | pkg/disk/find.go:64-67 | when some size is positive, a first maximum exists |
| Find.ScanStep | pkg/disk/find.go:64-67 | one loop iteration keeps the scan invariant |
| Find.ScanEnd | pkg/disk/find.go:64-76 | at the end of the scan, a disk is chosen exactly when some size is positive, and it is the first maximum |
| Find.ScanLines | pkg/disk/find.go:35-68 | the loop keeps "/dev/" + the name of the line at the first maximum of the sizes, and keeps "" exactly when no size is positive |
| Find.FindLargestDisk | pkg/disk/find.go:25-79 | IsLargestDiskResult: an open failure or a scanner error is reported; otherwise the result is "/dev/" + the name of the first largest whole SCSI disk, or "no SCSI disk found" exactly when no line has a positive size |
| Find.LargestDiskResultIsUnique | pkg/disk/find.go:25-79 | the listing determines FindLargestDisk's result: two results that both fit it are equal |
| Find.DiskRecordSize | pkg/disk/find.go:37-62 | a whole-disk record whose size fits int64 is a candidate competing with its block count times 1024 |
| Find.OtherRecordSize | pkg/disk/find.go:50-55 | a record whose name is not a whole SCSI disk competes with size 0 |
| Find.FirstMaxIsTheResult | pkg/disk/find.go:64-76 | on a listing read without a scanner error, FindLargestDisk reports the device of the first maximum |
| Find.ExampleRecordSizes | pkg/disk/find.go:37-62 | the records of sda, sdb and sda1, however padded and numbered, have sizes of their block counts times 1024, and 0 for the partition sda1 |
| Find.SecondOfThreeIsFirstMax | pkg/disk/find.go:64-67 | in three lines, a second line larger than the first and a third that is no candidate make the second the first maximum |
| Find.ExampleRecordsChooseSdb | pkg/disk/find.go:37-67 | in a listing of record lines for sda, sdb and sda1, with any padding and device numbers, the sizes are those block counts times 1024 and 0, the partition drops out, and when sdb has more blocks than sda, sdb is chosen |
| Find.ExampleListingGivesSdb | pkg/disk/find.go:25-79 | on that listing, read without a scanner error, FindLargestDisk reports /dev/sdb |
| Find.FindFirstDiskByPathGlob | pkg/disk/find.go:12-23 | a glob error, "no disk found" for no match, otherwise the first match |
| Keys.ValidKey | pkg/tdxsetup/keys.go:39-40 | a key passes only with exactly 68 characters, and the end anchor rejects a trailing newline |
| Keys.ValidKeyHasNoSeparators | pkg/tdxsetup/keys.go:39-40 | a key that passes the regular expression has no padding, spaces or line breaks |
| Keys.Handle | pkg/tdxsetup/keys.go:25-50 | the status is 405 exactly for non-POST, and 200 exactly when a key is handed off; a key is handed off exactly when a POST body passes the check, and it is the body itself |
| Keys.Decide | pkg/tdxsetup/keys.go:59-72 | cancellation and a key both shut the server down, and a failing shutdown replaces the result; a listener error returns without a shutdown; cancellation gives ContextCancelled, a listener error ServerFailed, and a key with a clean shutdown is the posted body itself |
| Keys.WaitForKey | pkg/tdxsetup/keys.go:18-73 | a key returned passed the check and the server was shut down; any error is a cancellation, a server error or a shutdown error |
| Keys.FirstDecisiveEventDecides | pkg/tdxsetup/keys.go:59-72 | the first event the select acts on decides the wait; rejected requests before it and events after it do not matter |
| Keys.NoDecisiveEventBlocks | pkg/tdxsetup/keys.go:59-72 | with only rejected requests the wait never returns |
| Passphrase.RandomPassphrase | pkg/tdxsetup/passphrase.go:17-24 | the passphrase is exactly 32 bytes from the entropy source, or the read error |
| Passphrase.TrimNewline | pkg/tdxsetup/passphrase.go:49-52 | the result is a prefix of the data, at most one byte shorter |
| Passphrase.TrimNewlineDropsTerminator | pkg/tdxsetup/passphrase.go:50-52 | a newline-terminated line loses exactly its terminator |
| Passphrase.TrimNewlineKeepsUnterminated | pkg/tdxsetup/passphrase.go:50-52 | data without a trailing newline is kept whole |
| Passphrase.TrimNewlineDropsOnlyOne | pkg/tdxsetup/passphrase.go:50-52 | only one trailing newline is dropped |
| Passphrase.ReadPipe | pkg/tdxsetup/passphrase.go:30-55 | a mkfifo error other than "exists" and an open error are reported; without a writer the open never returns; a failed or empty first read is ReadPipeFailed; a success is a non-empty read cut to 1024 bytes and then stripped of one trailing newline (TrimNewline), so at most one byte shorter |
| Passphrase.PipeDeliversLine | pkg/tdxsetup/passphrase.go:30-55 | a short line written into the pipe comes back without its newline, whether the pipe was created or already existed |
| Passphrase.PipeTruncatesLongInput | pkg/tdxsetup/passphrase.go:43-49 | bytes beyond the first 1024 never affect the passphrase |
| Passphrase.WaitForPassphrase | pkg/tdxsetup/passphrase.go:17-55 | the configured strategy decides which source answers |
| Setup.JoinPath | pkg/tdxsetup/setup.go:120 | the joined path starts with the directory and ends with the name, with at most one separator between them |
| Setup.DefaultOptions | pkg/tdxsetup/setup.go:29-37 | the default mapper device is the mapper's entry under /dev/mapper, and the key file is not authorized_keys |
| Setup.AuthorizedKeysLine | pkg/tdxsetup/setup.go:127 | the line is the restriction prefix, then the key, then a newline |
| Setup.ValidKeyMakesOneLine | pkg/tdxsetup/setup.go:127 | a checked key makes a line of fixed length, with no newline after the prefix except the terminator |
| Setup.RewriteOfValidLineIsExact | pkg/tdxsetup/setup.go:121-127 | rewriting a line written for a checked key with another checked key's line leaves exactly the new line, despite the missing O_TRUNC |
| Setup.ExtractKey | pkg/tdxsetup/setup.go:90-100 | extraction succeeds exactly for token JSON with a "metadata" entry, and the key is that entry's value; the error is a parse failure for non-token JSON, and "no metadata" otherwise |
| Setup.ExtractKeyInvertsUserToken | pkg/disk/mounting.go:87-93 | extracting from the token SetupNewDisk stores gives back the key it was built from |
| Setup.ExtractKeyIgnoresOtherFields | pkg/tdxsetup/setup.go:95 | other user-data entries do not affect the extracted key |
| Setup.WriteKeyStoresKey | pkg/tdxsetup/setup.go:113-140 | after a successful writeKey, the key file holds the key and authorized_keys starts with its line; the disk, token, mapper and mounts are untouched |
| Setup.KeyFileGuardPasses | pkg/disk/mounting.go:31-33 | once writeKey has written the key file, SetPassphrase's "SSH key not set" guard cannot fire |
| Setup.FreshDiskStoresKey | pkg/disk/mounting.go:35-40 | when `isLuks` fails (on a device with or without a header), a successful path formats and mounts the device and stores the key file's key in token 1 |
| Setup.KeyRecoveredOnNextRun | pkg/tdxsetup/setup.go:80-100 | on a later boot, when `isLuks` succeeds, tryFindKey gets back the stored key or fails to export it, without starting the key server and without changing the machine |
| Setup.KeySurvivesReboot | pkg/tdxsetup/setup.go:80-140 | the key writeKey stored and SetPassphrase imported into token 1 after a failed probe is, on a later boot with a successful probe, the key tryFindKey gets back, unless the export fails |
| Setup.FailedProbeAwaitsServer | pkg/tdxsetup/setup.go:80-111 | on a provisioned device where `isLuks` fails, tryFindKey never exports the token; it waits on the key server, and any key it returns is one the server accepted |
| Setup.SecondRunRefused | pkg/disk/mounting.go:27-29 | while the volume is mounted, a second SetPassphrase that can read /proc/mounts is refused and changes nothing |
| Setup.TdxSetupManager.constructor | pkg/tdxsetup/setup.go:39-51 | the manager holds the three strategies and the options it was given |
| Setup.TdxSetupManager.TryFindKey | pkg/tdxsetup/setup.go:80-111 | when `isLuks` succeeds (possible only with a header), only the token is exported and parsed; when it fails (with or without a header), the key server's result is taken with its error wrapped, or the wait never ends |
| Setup.TdxSetupManager.WriteKey | pkg/tdxsetup/setup.go:113-140 | open authorized_keys, write the line over its start, then replace the key file; the first failure ends it, and each error fixes the files and log left behind |
| Setup.TdxSetupManager.FindDisk | pkg/tdxsetup/disk.go:12-24 | the pathglob strategy is FindFirstDiskByPathGlob; the largest strategy gives a result fitting IsLargestDiskResult, so an "/dev/sd" device or one of its three errors |
| Setup.TdxSetupManager.LastStages | pkg/tdxsetup/setup.go:68-77 | wait for the passphrase; an endless wait or an error ends Setup there, and otherwise SetPassphrase runs and its error is labelled with its stage |
| Setup.TdxSetupManager.Setup | pkg/tdxsetup/setup.go:53-78 | five stages in order, each starting from the state the previous one left; the first failure or endless wait is the last stage, and the error is labelled with its stage; the disk stage's result is FindFirstDiskByPathGlob's or one fitting IsLargestDiskResult |
| Cli.CreateKeyInitializer | cmd/main.go:129-136 | "webserver" gives the key server at the configured URL, and any other name is an "unknown key strategy" error |
| Cli.CreatePassphraseInitializer | cmd/main.go:138-147 | "random" and "namedpipe" (with its pipe path) are accepted, and any other name is an error naming it |
| Cli.CreateDiskInitializer | cmd/main.go:149-158 | "largest" and "pathglob" (with its pattern) are accepted, and any other name is an error naming it |
| Cli.FactoriesReachEveryStrategy | cmd/main.go:129-158 | every strategy value is produced by the factory from the flags that name it |
| Cli.CreateStrategies | cmd/main.go:96-109 | the factories run in the order key, passphrase, disk, and the first failure is the one reported |
| Cli.SetField | cmd/main.go:62-80 | a StringVar definition writes its own field and leaves every other field |
| Cli.DefineFlagsSnoc | cmd/main.go:62-80 | defining one more flag writes its default over the Config the earlier definitions left |
| Cli.DefineFlagsIsLastValue | cmd/main.go:62-80 | after the definitions, each field holds the default of the last definition bound to it, and its old value when there is none |
| Cli.LastValueAt | cmd/main.go:62-80 | the last definition bound to a field decides its value |
| Cli.DefaultConfig | cmd/main.go:62-80 | the Config before parsing has the server URL ":8080": the config command's flag, defined after setup's, wrote the shared field last |
| Cli.RootDefaults | cmd/main.go:62-66 | the root command's persistent flags give /root/.ssh, /etc/root_key, /persistent, cryptdisk and /dev/mapper/cryptdisk |
| Cli.StrategyDefaults | cmd/main.go:68-80 | the strategy fields hold webserver, ":8080", random, /tmp/passphrase, largest and "*" |
| Cli.DefaultConfigValues | cmd/main.go:62-80 | the whole Config before parsing, field by field |
| Cli.OptionsOf | cmd/main.go:111-117 | the manager's options copy the five path and name flags unchanged |
| Cli.DefaultFlagsMatchDefaultOptions | cmd/main.go:62-80 | the flag defaults give DefaultTdxSetupManagerOptions and select the key server on ":8080" (not the setup flag's declared "0.0.0.0:8080"), random passphrases and the largest disk |
| Cli.RunSetup | cmd/main.go:93-127 | an unknown strategy aborts before the machine is touched; otherwise the manager gets the strategies and the copied options, and Setup runs with the whole effect SetupEffect states, including a disk stage whose result is FindFirstDiskByPathGlob's or one fitting IsLargestDiskResult |

## Left out

- The target device path, the mapper name and the passphrase are not
  carried into `Host`. There is one target device. `cryptsetup` checking the
  passphrase against a keyslot is not modelled: `Open` succeeds or fails
  nondeterministically.
- `json.Marshal` of the token (pkg/disk/mounting.go:95-99) cannot fail for a
  struct of strings, so that branch is not modelled. The JSON text is modelled
  as a `Blob`, either the encoding of a token or text that does not decode.
- `os.MkdirAll` and `os.Chown` (pkg/disk/mounting.go:75, 129;
  pkg/tdxsetup/setup.go:114-118) have their errors ignored by the source, so
  they are left out.
- `defer f.Close()` on authorized_keys and on the pipe is not modelled,
  because its error is ignored.
- Setup.JoinPath: models `filepath.Join` of a directory and a plain file
  name. The `Clean` of `..` and repeated separators is not modelled.
- Find.FindFirstDiskByPathGlob: glob matching itself is a parameter, so the
  order and contents of `filepath.Glob`'s matches are not modelled.
- The HTTP server's lifecycle, the listener goroutine and the channels are
  abstracted into the ordered events that reach `select`. The context is
  `context.Background()`, so cancellation is only an event here.
- Each partial write is modelled as a failure that leaves the file as it
  was.
- Strings are sequences of characters, not UTF-8 bytes. Only the
  passphrase, which the source handles as bytes, is `seq<byte>`.
- `bufio.Scanner`'s maximum line length is not modelled. A scanner error is
  one boolean that ends the scan, after which the result is ScanFailed.
- Setup.ValidKeyMakesOneLine: states the absence of newlines only after the
  fixed restriction prefix, whose characters are a literal.
- Setup.SecondRunRefused: assumes the mount point is written the way the
  kernel shows it in /proc/mounts. That means an absolute, canonical path
  without the space, tab, newline or backslash that /proc/mounts escapes as
  octal. `mount` canonicalises its target, and that canonicalisation is not
  modelled: `EntryLine` prints the mount point as given. The same holds for
  Mounting.MountedPointIsDetected.
- Setup.TdxSetupManager.LastStages: the passphrase and SetPassphrase stages
  are a helper method split out of `Setup` so that each proof stays small.
- Mounting.SetupNewDisk: is specified through two helper methods,
  PrepareVolume and StoreKeyToken, that split the source function at line 80.
- Machine.Host.Record: the log entries for the waits are a modelling device,
  not a side effect of the source.
- The `config` command (`showConfig`), cobra's argument parsing, logging,
  and `log.Fatal`'s exit are not modelled. Only the flag defaults are: the
  Config a command starts from before its command line is parsed. The
  config command's server-URL flag (cmd/main.go:76) is bound to the same
  field as setup's (cmd/main.go:69) and is defined after it, so its
  ":8080" is the default `setup` sees. It listens on port 8080 on every
  interface, as "0.0.0.0:8080" would.
- tdx-init.go is not part of this model.
