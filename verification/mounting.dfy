/** pkg/disk/mounting.go: bringing the encrypted volume to "open and mounted",
    either by formatting a pristine device (SetupNewDisk) or by unlocking an
    existing one (MountExistingDisk), behind the guards of SetPassphrase.

    The effect of each operation is stated as a ghost predicate over the
    states before and after and the error returned: the error determines the
    state left behind and the steps logged on the way. */
module Mounting {
  import opened Base
  import opened Machine

  /** The user_data key under which the public key is stored in the token. */
  const MetadataField := "metadata"

  /** The token SetupNewDisk imports for a key file holding `key`. */
  function UserToken(key: string): (t: Token)
    ensures t.typ == "user" && t.keyslots == []
    ensures MetadataField in t.userData && t.userData[MetadataField] == key
    ensures forall k | k in t.userData :: k == MetadataField
  {
    Token("user", [], map[MetadataField := key])
  }

  /** `part` occurs in `text` at offset i. */
  predicate OccursAt(text: string, part: string, i: int)
  {
    0 <= i <= |text| - |part| && text[i..i + |part|] == part
  }

  /** strings.Contains. */
  predicate Contains(text: string, part: string)
  {
    exists i | 0 <= i <= |text| - |part| :: OccursAt(text, part, i)
  }

  /** CheckMounted, given the result of reading /proc/mounts (None when the
      read failed). */
  function CheckMounted(mounts: Option<string>, mountPoint: string): (mounted: bool)
    ensures mounts.None? ==> !mounted
    ensures mounted <==> mounts.Some? && exists i | 0 < i && i + |mountPoint| < |mounts.value| ::
                           DelimitedAt(mounts.value, mountPoint, i)
  {
    if mounts.None? then false
    else
      DelimitedIffContains(mounts.value, mountPoint);
      Contains(mounts.value, " " + mountPoint + " ")
  }

  /** `word` sits at offset i of `text` with a space on each side. */
  predicate DelimitedAt(text: string, word: string, i: int)
  {
    0 < i && i + |word| < |text| && text[i - 1] == ' ' && text[i..i + |word|] == word && text[i + |word|] == ' '
  }

  lemma DelimitedIffContains(text: string, word: string)
    ensures Contains(text, " " + word + " ") <==> exists i | 0 < i && i + |word| < |text| :: DelimitedAt(text, word, i)
  {
    if Contains(text, " " + word + " ") {
      var j :| 0 <= j <= |text| - |word| - 2 && OccursAt(text, " " + word + " ", j);
      OccurrenceIsDelimited(text, word, j);
    }
    if exists i | 0 < i && i + |word| < |text| :: DelimitedAt(text, word, i) {
      var i :| 0 < i && i + |word| < |text| && DelimitedAt(text, word, i);
      DelimitedIsOccurrence(text, word, i);
    }
  }

  lemma OccurrenceIsDelimited(text: string, word: string, j: int)
    requires OccursAt(text, " " + word + " ", j)
    ensures DelimitedAt(text, word, j + 1)
  {
    var part := " " + word + " ";
    var seen := text[j..j + |part|];
    assert text[j] == seen[0] == ' ';
    var got, expected := text[j + 1..j + 1 + |word|], seen[1..1 + |word|];
    assert forall k | 0 <= k < |word| :: got[k] == expected[k];
    assert got == expected;
    assert seen[1..1 + |word|] == word;
    assert text[j + 1 + |word|] == seen[1 + |word|] == ' ';
  }

  lemma DelimitedIsOccurrence(text: string, word: string, i: int)
    requires DelimitedAt(text, word, i)
    ensures OccursAt(text, " " + word + " ", i - 1)
  {
    assert text[i - 1..i + |word| + 1] == [text[i - 1]] + text[i..i + |word|] + [text[i + |word|]];
  }

  lemma ContainsInLeft(a: string, b: string, part: string)
    requires Contains(a, part)
    ensures Contains(a + b, part)
  {
    var i :| 0 <= i <= |a| - |part| && OccursAt(a, part, i);
    assert (a + b)[i..i + |part|] == a[i..i + |part|];
    assert OccursAt(a + b, part, i);
  }

  lemma ContainsInRight(a: string, b: string, part: string)
    requires Contains(b, part)
    ensures Contains(a + b, part)
  {
    var i :| 0 <= i <= |b| - |part| && OccursAt(b, part, i);
    assert (a + b)[|a| + i..|a| + i + |part|] == b[i..i + |part|];
    assert OccursAt(a + b, part, |a| + i);
  }

  /** The /proc/mounts line of an entry holds its mount point between spaces. */
  lemma EntryLineShowsPoint(e: MountEntry)
    ensures Contains(EntryLine(e), " " + e.point + " ")
  {
    var part := " " + e.point + " ";
    var line := EntryLine(e);
    assert line == e.device + part + "ext4 rw,relatime 0 0\n";
    assert line[|e.device|..|e.device| + |part|] == part;
    assert OccursAt(line, part, |e.device|);
  }

  /** Every mount point in the mount table is seen by CheckMounted once
      /proc/mounts has been read: after a successful mount, a second
      SetPassphrase stops at its first guard. */
  lemma {:induction false} MountedPointIsDetected(mounts: seq<MountEntry>, i: nat)
    requires i < |mounts|
    ensures CheckMounted(Some(MountsText(mounts)), mounts[i].point)
  {
    var part := " " + mounts[i].point + " ";
    if i == 0 {
      EntryLineShowsPoint(mounts[0]);
      ContainsInLeft(EntryLine(mounts[0]), MountsText(mounts[1..]), part);
    } else {
      MountedPointIsDetected(mounts[1..], i - 1);
      ContainsInRight(EntryLine(mounts[0]), MountsText(mounts[1..]), part);
    }
  }

  /** Removing the most recent mount at `point` undoes mounting it last. */
  lemma UmountUndoesMount(mounts: seq<MountEntry>, e: MountEntry)
    ensures RemoveLastAt(mounts + [e], e.point) == mounts
  {
    assert (mounts + [e])[..|mounts|] == mounts;
  }

  /** The state CleanupMount leaves behind, given the error it returned:
      umount first; close only once umount has succeeded. */
  function AfterCleanup(s: Snapshot, err: Option<Error>, mountPoint: string): Snapshot
  {
    if err == Some(UmountFailed) then
      s.(trace := s.trace + [Fail(Umount)])
    else
      s.(mounts := RemoveLastAt(s.mounts, mountPoint),
         mapperOpen := s.mapperOpen && err.Some?,
         trace := s.trace + [Pass(Umount)] + [Call(LuksClose, err.None?)])
  }

  /** What CleanupMount does: its error is UmountFailed, CloseFailed or none. */
  ghost predicate CleanupEffect(b: Snapshot, a: Snapshot, err: Option<Error>, mountPoint: string)
  {
    && (err == Some(UmountFailed) || err == Some(CloseFailed) || err == None)
    && a == AfterCleanup(b, err, mountPoint)
  }

  /** A close of the mapper whose outcome is `closed`. */
  function AfterClose(s: Snapshot, closed: bool): Snapshot
  {
    s.(mapperOpen := s.mapperOpen && !closed, trace := s.trace + [Call(LuksClose, closed)])
  }

  /** What MountExistingDisk does: open; then mount; if the mount fails, close,
      and report the close error if there is one, the mount error otherwise.
      Nothing is formatted and the token slot is left alone. */
  ghost predicate ExistingDiskEffect(b: Snapshot, a: Snapshot, err: Option<Error>,
                                     mapperDevice: string, mountPoint: string)
  {
    var unlocked := b.(mapperOpen := true, trace := b.trace + [Pass(LuksOpen)]);
    match err
    case Some(OpenFailed) =>
      a == b.(trace := b.trace + [Fail(LuksOpen)])
    case Some(CloseFailed) =>
      a == AfterClose(unlocked.(trace := unlocked.trace + [Fail(Mount)]), false)
    case Some(MountFailed) =>
      a == AfterClose(unlocked.(trace := unlocked.trace + [Fail(Mount)]), true)
    case None =>
      a == unlocked.(mounts := b.mounts + [MountEntry(mapperDevice, mountPoint)],
                     trace := unlocked.trace + [Pass(Mount)])
    case _ => false
  }

  /** The state once format, open, mkfs and mount have all succeeded: a fresh
      header with an empty token slot, the mapper open, the volume mounted. */
  function Prepared(b: Snapshot, mapperDevice: string, mountPoint: string): Snapshot
  {
    var formatted := b.(header := true, slot1 := None, trace := b.trace + [Pass(LuksFormat)]);
    var unlocked := formatted.(mapperOpen := true, trace := formatted.trace + [Pass(LuksOpen)]);
    var filesystem := unlocked.(trace := unlocked.trace + [Pass(Mkfs)]);
    filesystem.(mounts := b.mounts + [MountEntry(mapperDevice, mountPoint)],
                trace := filesystem.trace + [Pass(Mount)])
  }

  /** The first half of SetupNewDisk: format, open, mkfs, mount; the first
      failing step ends it. A failure of format or open is left as it is; a
      failure of mkfs or mount closes the mapper, and that close's outcome
      (visible in the mapper state) is discarded. Each named state is the one
      reached once that step has succeeded. */
  ghost predicate PrepareEffect(b: Snapshot, a: Snapshot, err: Option<Error>,
                                mapperDevice: string, mountPoint: string)
  {
    var formatted := b.(header := true, slot1 := None, trace := b.trace + [Pass(LuksFormat)]);
    var unlocked := formatted.(mapperOpen := true, trace := formatted.trace + [Pass(LuksOpen)]);
    var filesystem := unlocked.(trace := unlocked.trace + [Pass(Mkfs)]);
    match err
    case Some(FormatFailed) =>
      a == b.(trace := b.trace + [Fail(LuksFormat)])
    case Some(OpenFailed) =>
      a == formatted.(trace := formatted.trace + [Fail(LuksOpen)])
    case Some(MkfsFailed) =>
      a == AfterClose(unlocked.(trace := unlocked.trace + [Fail(Mkfs)]), !a.mapperOpen)
    case Some(MountFailed) =>
      a == AfterClose(filesystem.(trace := filesystem.trace + [Fail(Mount)]), !a.mapperOpen)
    case None =>
      a == Prepared(b, mapperDevice, mountPoint)
    case _ => false
  }

  /** The second half of SetupNewDisk, from the mounted state `m`: read the key
      file, import the token built from it; a failure runs CleanupMount and
      joins its error. On success slot 1 holds that token. */
  ghost predicate StoreKeyEffect(m: Snapshot, a: Snapshot, err: Option<Error>, keyFile: string, mountPoint: string)
  {
    var keyRead := m.(trace := m.trace + [Pass(ReadFile)]);
    match err
    case Some(ReadKeyFailed(cleanup)) =>
      CleanupEffect(m.(trace := m.trace + [Fail(ReadFile)]), a, cleanup, mountPoint)
    case Some(ImportFailed(cleanup)) =>
      && keyFile in m.files
      && CleanupEffect(keyRead.(trace := keyRead.trace + [Fail(TokenImport)]), a, cleanup, mountPoint)
    case None =>
      && keyFile in m.files
      && a == keyRead.(slot1 := Some(Json(UserToken(m.files[keyFile]))),
                       trace := keyRead.trace + [Pass(TokenImport)])
    case _ => false
  }

  /** What SetupNewDisk does: format, open, mkfs, mount, read the key file,
      import the token; the first failing step ends the run, with the
      compensating actions of the two halves above. */
  ghost predicate NewDiskEffect(b: Snapshot, a: Snapshot, err: Option<Error>,
                                keyFile: string, mapperDevice: string, mountPoint: string)
  {
    if err == None || err.value.ReadKeyFailed? || err.value.ImportFailed? then
      StoreKeyEffect(Prepared(b, mapperDevice, mountPoint), a, err, keyFile, mountPoint)
    else
      PrepareEffect(b, a, err, mapperDevice, mountPoint)
  }

  /** On success slot 1 holds a "user" token bound to no keyslot whose user
      data has the single entry "metadata", mapped to the key file's contents;
      the device is formatted, open and mounted at the mount point. */
  lemma ImportedTokenCarriesKey(b: Snapshot, a: Snapshot, keyFile: string, mapperDevice: string, mountPoint: string)
    requires NewDiskEffect(b, a, None, keyFile, mapperDevice, mountPoint)
    ensures a.slot1.Some? && a.slot1.value.Json?
    ensures a.slot1.value.token.typ == "user" && a.slot1.value.token.keyslots == []
    ensures a.slot1.value.token.userData.Keys == {MetadataField}
    ensures a.slot1.value.token.userData[MetadataField] == b.files[keyFile]
    ensures a.header && a.mapperOpen && a.mounts == b.mounts + [MountEntry(mapperDevice, mountPoint)]
  {
  }

  method CleanupMount(host: Host, mountPoint: string) returns (err: Option<Error>)
    modifies host`mounts, host`mapperOpen, host`trace
    ensures CleanupEffect(old(host.State()), host.State(), err, mountPoint)
  {
    var ok := host.Unmount(mountPoint);
    if !ok {
      return Some(UmountFailed);
    }
    ok := host.Close();
    if !ok {
      return Some(CloseFailed);
    }
    return None;
  }

  method MountExistingDisk(host: Host, mapperDevice: string, mountPoint: string) returns (err: Option<Error>)
    modifies host`mapperOpen, host`mounts, host`trace
    ensures ExistingDiskEffect(old(host.State()), host.State(), err, mapperDevice, mountPoint)
  {
    var ok := host.Open();
    if !ok {
      return Some(OpenFailed);
    }
    ok := host.MountAt(mapperDevice, mountPoint);
    if !ok {
      var closed := host.Close();
      if !closed {
        return Some(CloseFailed);
      }
      return Some(MountFailed);
    }
    return None;
  }

  /** Lines 56-79 of SetupNewDisk. */
  method PrepareVolume(host: Host, mapperDevice: string, mountPoint: string) returns (err: Option<Error>)
    modifies host`header, host`slot1, host`mapperOpen, host`mounts, host`trace
    ensures PrepareEffect(old(host.State()), host.State(), err, mapperDevice, mountPoint)
  {
    var ok := host.Format();
    if !ok {
      return Some(FormatFailed);
    }
    ok := host.Open();
    if !ok {
      return Some(OpenFailed);
    }
    ok := host.MakeFilesystem();
    if !ok {
      var _ := host.Close();
      return Some(MkfsFailed);
    }
    ok := host.MountAt(mapperDevice, mountPoint);
    if !ok {
      var _ := host.Close();
      return Some(MountFailed);
    }
    return None;
  }

  /** Lines 81-108 of SetupNewDisk. */
  method StoreKeyToken(host: Host, keyFile: string, mountPoint: string) returns (err: Option<Error>)
    modifies host`slot1, host`mapperOpen, host`mounts, host`trace
    ensures StoreKeyEffect(old(host.State()), host.State(), err, keyFile, mountPoint)
  {
    var key := host.ReadFileAt(keyFile);
    if key.None? {
      var cleanup := CleanupMount(host, mountPoint);
      return Some(ReadKeyFailed(cleanup));
    }
    var ok := host.ImportToken(Json(UserToken(key.value)));
    if !ok {
      var cleanup := CleanupMount(host, mountPoint);
      return Some(ImportFailed(cleanup));
    }
    return None;
  }

  method SetupNewDisk(host: Host, keyFile: string, mapperDevice: string, mountPoint: string)
    returns (err: Option<Error>)
    modifies host`header, host`slot1, host`mapperOpen, host`mounts, host`trace
    ensures NewDiskEffect(old(host.State()), host.State(), err, keyFile, mapperDevice, mountPoint)
  {
    err := PrepareVolume(host, mapperDevice, mountPoint);
    if err.Some? {
      return;
    }
    err := StoreKeyToken(host, keyFile, mountPoint);
  }

  /** What SetPassphrase does: the mount guard, then the key-file guard, then
      the outcome of `cryptsetup isLuks` picks exactly one path; whatever that
      path returns is dropped and SetPassphrase reports success. `seen` is
      what the read of /proc/mounts returned, `probe` the outcome of the
      header probe (which succeeds only on a device with a header, but may
      fail on one), and `pathErr` the dropped error of the path taken. */
  ghost predicate SetPassphraseEffect(b: Snapshot, a: Snapshot, err: Option<Error>,
                                      seen: Option<string>, probe: bool, pathErr: Option<Error>,
                                      keyFile: string, mapperDevice: string, mountPoint: string)
  {
    && (seen.Some? ==> seen.value == MountsText(b.mounts))
    && if CheckMounted(seen, mountPoint) then
         err == Some(AlreadySetup) && a == b
       else if keyFile !in b.files then
         err == Some(KeyNotSet) && a == b
       else
         && err == None
         && (probe ==> b.header)
         && var probed := b.(trace := b.trace + [Call(ProbeHeader, probe)]);
            if probe then ExistingDiskEffect(probed, a, pathErr, mapperDevice, mountPoint)
            else NewDiskEffect(probed, a, pathErr, keyFile, mapperDevice, mountPoint)
  }

  method SetPassphrase(host: Host, keyFile: string, mapperDevice: string, mountPoint: string)
    returns (err: Option<Error>, ghost seen: Option<string>, ghost probe: bool, ghost pathErr: Option<Error>)
    modifies host`header, host`slot1, host`mapperOpen, host`mounts, host`trace
    ensures SetPassphraseEffect(old(host.State()), host.State(), err, seen, probe, pathErr,
                                keyFile, mapperDevice, mountPoint)
  {
    var mounts := host.ReadMounts();
    seen, probe, pathErr := mounts, false, None;
    if CheckMounted(mounts, mountPoint) {
      return Some(AlreadySetup), seen, probe, pathErr;
    }
    if !host.Exists(keyFile) {
      return Some(KeyNotSet), seen, probe, pathErr;
    }
    var hasHeader := host.Probe();
    probe := hasHeader;
    if !hasHeader {
      pathErr := SetupNewDisk(host, keyFile, mapperDevice, mountPoint);
    } else {
      pathErr := MountExistingDisk(host, mapperDevice, mountPoint);
    }
    return None, seen, probe, pathErr;
  }

  /** A probe that fails on a device that already holds a header and a token
      (the cryptsetup binary cannot run, the header cannot be read) sends
      SetPassphrase down the new-disk path: luksFormat is the next step, and
      once it succeeds the old token is gone, replaced by at most the token
      built from the key file. */
  lemma FailedProbeReformats(b: Snapshot, a: Snapshot, err: Option<Error>, seen: Option<string>,
                             pathErr: Option<Error>, keyFile: string, mapperDevice: string, mountPoint: string)
    requires b.header && b.slot1.Some? && keyFile in b.files && !CheckMounted(seen, mountPoint)
    requires SetPassphraseEffect(b, a, err, seen, false, pathErr, keyFile, mapperDevice, mountPoint)
    ensures err == None
    ensures |a.trace| >= |b.trace| + 2
    ensures a.trace[|b.trace|] == Fail(ProbeHeader) && a.trace[|b.trace| + 1].step == LuksFormat
    ensures a.trace[|b.trace| + 1].ok ==> a.slot1 == None || a.slot1 == Some(Json(UserToken(b.files[keyFile])))
  {
    var probed := b.(trace := b.trace + [Call(ProbeHeader, false)]);
    NewDiskStartsWithFormat(probed, a, pathErr, keyFile, mapperDevice, mountPoint);
    assert a.trace[..|probed.trace|] == probed.trace;
    assert a.trace[|b.trace|] == probed.trace[|b.trace|];
  }

  /** SetupNewDisk's first command is luksFormat; once it has succeeded,
      token 1 is empty or holds the key file's key. */
  lemma NewDiskStartsWithFormat(b: Snapshot, a: Snapshot, err: Option<Error>,
                                keyFile: string, mapperDevice: string, mountPoint: string)
    requires NewDiskEffect(b, a, err, keyFile, mapperDevice, mountPoint)
    ensures |a.trace| > |b.trace| && a.trace[..|b.trace|] == b.trace
    ensures a.trace[|b.trace|].step == LuksFormat
    ensures a.trace[|b.trace|].ok ==> a.slot1 == None || (keyFile in b.files && a.slot1 == Some(Json(UserToken(b.files[keyFile]))))
  {
    if err == None || err.value.ReadKeyFailed? || err.value.ImportFailed? {
      var m := Prepared(b, mapperDevice, mountPoint);
      assert m.trace == b.trace + [Pass(LuksFormat), Pass(LuksOpen), Pass(Mkfs), Pass(Mount)];
      StoreKeyExtends(m, a, err, keyFile, mountPoint);
      assert a.trace[..|b.trace|] == m.trace[..|b.trace|];
      assert a.trace[|b.trace|] == m.trace[|b.trace|];
    } else {
      assert a.trace[|b.trace|] == Call(LuksFormat, err != Some(FormatFailed));
    }
  }

  /** Storing the token only appends to the trace, and leaves token 1 as it
      was or holding the key file's key. */
  lemma StoreKeyExtends(m: Snapshot, a: Snapshot, err: Option<Error>, keyFile: string, mountPoint: string)
    requires StoreKeyEffect(m, a, err, keyFile, mountPoint)
    ensures |m.trace| < |a.trace| && a.trace[..|m.trace|] == m.trace
    ensures a.slot1 == m.slot1 || (keyFile in m.files && a.slot1 == Some(Json(UserToken(m.files[keyFile]))))
  {
  }

}
