/** The machine the provisioning code acts on, abstracted to what its
    decisions depend on: the LUKS header of the one target device and its
    token slot 1, whether the device-mapper target is open, the kernel mount
    table, the regular files it reads and writes, and the ordered log of every
    external step attempted together with whether it succeeded.

    Each external command (cryptsetup, mkfs.ext4, mount, umount, file I/O) is
    a method of Host that either succeeds and changes the record, or fails and
    leaves it as it was; which of the two happens is chosen nondeterministically,
    so every contract that uses these methods holds for every pattern of tool
    failures. */
module Machine {
  import opened Base

  /** disk.Token: the object cryptsetup's "token import/export" exchange
      (a LUKS2 "tokens" entry): a type tag, the keyslots it is bound to and
      free-form user data. */
  datatype Token = Token(typ: string, keyslots: seq<string>, userData: map<string, string>)

  /** The JSON text held in token slot 1, as json.Unmarshal sees it: the
      encoding of some Token, or text that does not decode into one. */
  datatype Blob = Json(token: Token) | Garbage

  /** One line of /proc/mounts: the mounted device and its mount point. */
  datatype MountEntry = MountEntry(device: string, point: string)

  /** The external steps the core performs, as they appear in the log. */
  datatype Step =
    | ProbeHeader            // cryptsetup isLuks <dev>
    | LuksFormat             // cryptsetup luksFormat --type luks2 -q <dev>
    | LuksOpen               // cryptsetup open <dev> <mapperName>
    | LuksClose              // cryptsetup close <mapperName>
    | Mkfs                   // mkfs.ext4 <mapperDevice>
    | Mount                  // mount <mapperDevice> <mountPoint>
    | Umount                 // umount <mountPoint>
    | ReadFile               // os.ReadFile(<keyFile>)
    | TokenImport            // cryptsetup token import --token-id 1 <dev>
    | TokenExport            // cryptsetup token export --token-id 1 <dev>
    | AwaitKey               // KeyInitializerer.WaitForKey
    | AwaitPassphrase        // PassphraseInitializerer.WaitForPassphrase
    | OpenAuthorizedKeys     // os.OpenFile(authorized_keys, O_CREATE|O_WRONLY)
    | WriteAuthorizedKeys    // f.WriteString(line)
    | WriteKeyFile           // os.WriteFile(<keyFile>, key)

  /** One attempted step and whether it succeeded. */
  datatype Call = Call(step: Step, ok: bool)

  function Pass(s: Step): Call { Call(s, true) }

  function Fail(s: Step): Call { Call(s, false) }

  /** A value copy of a Host's state, so that contracts can relate two states. */
  datatype Snapshot = Snapshot(
    header: bool,
    slot1: Option<Blob>,
    mapperOpen: bool,
    mounts: seq<MountEntry>,
    files: map<string, string>,
    trace: seq<Call>)

  /** The /proc/mounts line the kernel prints for an entry made by this code. */
  function EntryLine(e: MountEntry): string
  {
    e.device + " " + e.point + " ext4 rw,relatime 0 0\n"
  }

  /** The text of /proc/mounts for a mount table. */
  function MountsText(mounts: seq<MountEntry>): string
  {
    if mounts == [] then "" else EntryLine(mounts[0]) + MountsText(mounts[1..])
  }

  /** The mount table after `umount point`: the most recent mount at that point
      is removed. */
  function RemoveLastAt(mounts: seq<MountEntry>, point: string): seq<MountEntry>
  {
    if mounts == [] then []
    else if mounts[|mounts| - 1].point == point then mounts[..|mounts| - 1]
    else RemoveLastAt(mounts[..|mounts| - 1], point) + [mounts[|mounts| - 1]]
  }

  /** File contents after writing `data` at offset 0 of a file opened without
      O_TRUNC or O_APPEND: the data, then whatever of the old contents lies
      beyond it. */
  function OverwriteFromStart(current: string, data: string): (r: string)
    ensures data <= r
    ensures |r| == if |current| > |data| then |current| else |data|
    ensures forall i :: |data| <= i < |r| ==> r[i] == current[i]
  {
    if |current| > |data| then data + current[|data|..] else data
  }

  class Host {
    var header: bool
    var slot1: Option<Blob>
    var mapperOpen: bool
    var mounts: seq<MountEntry>
    var files: map<string, string>
    var trace: seq<Call>

    constructor (header: bool, slot1: Option<Blob>, mapperOpen: bool,
                 mounts: seq<MountEntry>, files: map<string, string>)
      ensures State() == Snapshot(header, slot1, mapperOpen, mounts, files, [])
    {
      this.header := header;
      this.slot1 := slot1;
      this.mapperOpen := mapperOpen;
      this.mounts := mounts;
      this.files := files;
      this.trace := [];
    }

    function State(): Snapshot
      reads this
    {
      Snapshot(header, slot1, mapperOpen, mounts, files, trace)
    }

    /** cryptsetup isLuks: succeeds only when the device carries a header. It
        may fail on a device that has one (the tool cannot run, the header
        cannot be read), and the callers take any failure for "no header". */
    method Probe() returns (ok: bool)
      modifies this`trace
      ensures ok ==> header
      ensures trace == old(trace) + [Call(ProbeHeader, ok)]
    {
      ok :| true;
      ok := ok && header;
      trace := trace + [Call(ProbeHeader, ok)];
    }

    /** cryptsetup luksFormat: writes a fresh header, which holds no token. */
    method Format() returns (ok: bool)
      modifies this`header, this`slot1, this`trace
      ensures trace == old(trace) + [Call(LuksFormat, ok)]
      ensures header == (ok || old(header))
      ensures slot1 == if ok then None else old(slot1)
    {
      ok :| true;
      if ok {
        header, slot1 := true, None;
      }
      trace := trace + [Call(LuksFormat, ok)];
    }

    /** cryptsetup open: creates the mapper device. */
    method Open() returns (ok: bool)
      modifies this`mapperOpen, this`trace
      ensures trace == old(trace) + [Call(LuksOpen, ok)]
      ensures mapperOpen == (ok || old(mapperOpen))
    {
      ok :| true;
      if ok {
        mapperOpen := true;
      }
      trace := trace + [Call(LuksOpen, ok)];
    }

    /** cryptsetup close: removes the mapper device. */
    method Close() returns (ok: bool)
      modifies this`mapperOpen, this`trace
      ensures trace == old(trace) + [Call(LuksClose, ok)]
      ensures mapperOpen == (!ok && old(mapperOpen))
    {
      ok :| true;
      if ok {
        mapperOpen := false;
      }
      trace := trace + [Call(LuksClose, ok)];
    }

    /** mkfs.ext4 on the mapper device; the filesystem itself is not tracked. */
    method MakeFilesystem() returns (ok: bool)
      modifies this`trace
      ensures trace == old(trace) + [Call(Mkfs, ok)]
    {
      ok :| true;
      trace := trace + [Call(Mkfs, ok)];
    }

    /** mount <device> <point>. */
    method MountAt(device: string, point: string) returns (ok: bool)
      modifies this`mounts, this`trace
      ensures trace == old(trace) + [Call(Mount, ok)]
      ensures mounts == if ok then old(mounts) + [MountEntry(device, point)] else old(mounts)
    {
      ok :| true;
      if ok {
        mounts := mounts + [MountEntry(device, point)];
      }
      trace := trace + [Call(Mount, ok)];
    }

    /** umount <point>. */
    method Unmount(point: string) returns (ok: bool)
      modifies this`mounts, this`trace
      ensures trace == old(trace) + [Call(Umount, ok)]
      ensures mounts == if ok then RemoveLastAt(old(mounts), point) else old(mounts)
    {
      ok :| true;
      if ok {
        mounts := RemoveLastAt(mounts, point);
      }
      trace := trace + [Call(Umount, ok)];
    }

    /** os.ReadFile("/proc/mounts"): the text of the mount table, or nothing
        when the read fails. Not logged: it changes nothing. */
    method ReadMounts() returns (text: Option<string>)
      ensures text.Some? ==> text.value == MountsText(mounts)
    {
      var ok: bool :| true;
      text := if ok then Some(MountsText(mounts)) else None;
    }

    /** os.Stat(path) == nil. */
    function Exists(path: string): bool
      reads this
    {
      path in files
    }

    /** os.ReadFile(path): fails when the file is missing, and may fail anyway. */
    method ReadFileAt(path: string) returns (content: Option<string>)
      modifies this`trace
      ensures trace == old(trace) + [Call(ReadFile, content.Some?)]
      ensures content.Some? ==> path in files && content.value == files[path]
    {
      var ok: bool :| true;
      content := if ok && path in files then Some(files[path]) else None;
      trace := trace + [Call(ReadFile, content.Some?)];
    }

    /** cryptsetup token import --token-id 1: stores the JSON in slot 1. */
    method ImportToken(blob: Blob) returns (ok: bool)
      modifies this`slot1, this`trace
      ensures trace == old(trace) + [Call(TokenImport, ok)]
      ensures slot1 == if ok then Some(blob) else old(slot1)
    {
      ok :| true;
      if ok {
        slot1 := Some(blob);
      }
      trace := trace + [Call(TokenImport, ok)];
    }

    /** cryptsetup token export --token-id 1: the JSON in slot 1; fails when the
        slot is empty, and may fail anyway. */
    method ExportToken() returns (blob: Option<Blob>)
      modifies this`trace
      ensures trace == old(trace) + [Call(TokenExport, blob.Some?)]
      ensures blob.Some? ==> blob == slot1
    {
      var ok: bool :| true;
      blob := if ok then slot1 else None;
      trace := trace + [Call(TokenExport, blob.Some?)];
    }

    /** Logs a step that happens off the machine (a wait for a key or a
        passphrase) together with its outcome. */
    method Record(step: Step, ok: bool)
      modifies this`trace
      ensures trace == old(trace) + [Call(step, ok)]
    {
      trace := trace + [Call(step, ok)];
    }

    /** os.OpenFile(path, O_CREATE|O_WRONLY, 0600): creates an empty file when
        none exists; existing contents are kept (no O_TRUNC). The attempt is
        logged as `step`. */
    method OpenForWrite(path: string, step: Step) returns (ok: bool)
      modifies this`files, this`trace
      ensures trace == old(trace) + [Call(step, ok)]
      ensures files == if ok && path !in old(files) then old(files)[path := ""] else old(files)
      ensures ok ==> path in files
    {
      ok :| true;
      if ok && path !in files {
        files := files[path := ""];
      }
      trace := trace + [Call(step, ok)];
    }

    /** One write of `data` through a descriptor opened by OpenForWrite, which
        sits at offset 0, logged as `step`. A failed write leaves the file as
        it was. */
    method WriteFromStart(path: string, data: string, step: Step) returns (ok: bool)
      requires path in files
      modifies this`files, this`trace
      ensures trace == old(trace) + [Call(step, ok)]
      ensures files == if ok then old(files)[path := OverwriteFromStart(old(files)[path], data)] else old(files)
    {
      ok :| true;
      if ok {
        files := files[path := OverwriteFromStart(files[path], data)];
      }
      trace := trace + [Call(step, ok)];
    }

    /** os.WriteFile(path, data, 0600), logged as `step`: the file afterwards
        holds exactly `data`. */
    method WriteWhole(path: string, data: string, step: Step) returns (ok: bool)
      modifies this`files, this`trace
      ensures trace == old(trace) + [Call(step, ok)]
      ensures files == if ok then old(files)[path := data] else old(files)
    {
      ok :| true;
      if ok {
        files := files[path := data];
      }
      trace := trace + [Call(step, ok)];
    }
  }
}
