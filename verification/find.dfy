/** pkg/disk/find.go: choosing the block device to encrypt, either the first
    match of a /dev/disk/by-path pattern or the largest whole SCSI disk listed
    in /proc/partitions. */
module Find {
  import opened Base

  /** The two disk strategies (pkg/tdxsetup/disk.go): the largest SCSI disk,
      or the first match of a by-path pattern. */
  datatype DiskSource = LargestDisk | PathGlob(pathGlob: string)

  /** What reading /proc/partitions yields: nothing (the open failed), or its
      lines together with whether the scanner stopped on an error. */
  datatype Partitions = Unreadable | Listing(lines: seq<string>, scanFailed: bool)

  const MinInt64: int := -0x8000_0000_0000_0000
  const MaxInt64: int := 0x7fff_ffff_ffff_ffff

  predicate InInt64(x: int)
  {
    MinInt64 <= x <= MaxInt64
  }

  /** Two's-complement wrap-around of a mathematical integer to int64, as Go's
      int64 multiplication does on overflow. */
  function Wrap64(x: int): (r: int)
    ensures InInt64(r)
    ensures (r - x) % 0x1_0000_0000_0000_0000 == 0
    ensures InInt64(x) ==> r == x
  {
    (x - MinInt64) % 0x1_0000_0000_0000_0000 + MinInt64
  }

  /** unicode.IsSpace. */
  predicate IsSpace(c: char)
  {
    || c == '\t' || c == '\n' || c == '\U{0B}' || c == '\U{0C}' || c == '\r' || c == ' '
    || c == '\U{85}' || c == '\U{A0}' || c == '\U{1680}'
    || ('\U{2000}' <= c <= '\U{200A}')
    || c == '\U{2028}' || c == '\U{2029}' || c == '\U{202F}' || c == '\U{205F}' || c == '\U{3000}'
  }

  predicate NoSpace(s: string)
  {
    forall i | 0 <= i < |s| :: !IsSpace(s[i])
  }

  predicate AllSpace(s: string)
  {
    forall i | 0 <= i < |s| :: IsSpace(s[i])
  }

  function TrimLeft(s: string): string
  {
    if s != [] && IsSpace(s[0]) then TrimLeft(s[1..]) else s
  }

  function TrimRight(s: string): string
  {
    if s != [] && IsSpace(s[|s| - 1]) then TrimRight(s[..|s| - 1]) else s
  }

  /** strings.TrimSpace: the result neither starts nor ends with white space,
      and is empty exactly when `s` is all white space. */
  function TrimSpace(s: string): (r: string)
    ensures |r| <= |s|
    ensures r == [] <==> AllSpace(s)
    ensures r == [] || (!IsSpace(r[0]) && !IsSpace(r[|r| - 1]))
  {
    TrimLeftCutsSpace(s);
    TrimRightCutsSpace(TrimLeft(s));
    var left := TrimLeft(s);
    assert s == s[..|s| - |left|] + left;
    TrimRight(left)
  }

  lemma {:induction false} TrimLeftCutsSpace(s: string)
    ensures var r := TrimLeft(s);
            |r| <= |s| && r == s[|s| - |r|..] && AllSpace(s[..|s| - |r|]) && (r == [] || !IsSpace(r[0]))
    decreases |s|
  {
    if s != [] && IsSpace(s[0]) {
      TrimLeftCutsSpace(s[1..]);
      var r := TrimLeft(s[1..]);
      assert s[..|s| - |r|] == [s[0]] + s[1..][..|s| - 1 - |r|];
    }
  }

  lemma {:induction false} TrimRightCutsSpace(s: string)
    ensures var r := TrimRight(s);
            |r| <= |s| && r == s[..|r|] && AllSpace(s[|r|..]) && (r == [] || !IsSpace(r[|r| - 1]))
    decreases |s|
  {
    if s != [] && IsSpace(s[|s| - 1]) {
      TrimRightCutsSpace(s[..|s| - 1]);
      var r := TrimRight(s[..|s| - 1]);
      assert s[|r|..] == s[..|s| - 1][|r|..] + [s[|s| - 1]];
    }
  }

  /** TrimSpace cuts white space off both ends and nothing else: `s` is white
      space, the result, then white space. */
  lemma TrimSpaceCutsSpace(s: string)
    ensures var r := TrimSpace(s);
            exists i | 0 <= i <= |s| - |r| :: AllSpace(s[..i]) && s[i..i + |r|] == r && AllSpace(s[i + |r|..])
  {
    TrimLeftCutsSpace(s);
    var left := TrimLeft(s);
    TrimRightCutsSpace(left);
    var r := TrimRight(left);
    var i := |s| - |left|;
    assert s[i..i + |r|] == r;
    assert s[i + |r|..] == left[|r|..];
    assert AllSpace(s[..i]) && s[i..i + |r|] == r && AllSpace(s[i + |r|..]);
  }

  predicate HasPrefix(s: string, prefix: string)
  {
    prefix <= s
  }

  /** The longest prefix of `s` holding no white space. */
  function Word(s: string): (w: string)
    ensures |w| <= |s|
    ensures s != [] && !IsSpace(s[0]) ==> w != []
  {
    if s == [] || IsSpace(s[0]) then [] else [s[0]] + Word(s[1..])
  }

  /** strings.Fields: the maximal runs of non-white-space characters. */
  function Fields(s: string): (fs: seq<string>)
    ensures |fs| <= |s|
    decreases |s|
  {
    if s == [] then []
    else if IsSpace(s[0]) then Fields(s[1..])
    else
      var w := Word(s);
      [w] + Fields(s[|w|..])
  }

  lemma {:induction false} WordHasNoSpace(s: string)
    ensures var w := Word(s); w == s[..|w|] && NoSpace(w) && (|w| < |s| ==> IsSpace(s[|w|]))
  {
    if s != [] && !IsSpace(s[0]) {
      WordHasNoSpace(s[1..]);
    }
  }

  /** Every field is a non-empty run without white space. */
  lemma {:induction false} FieldsAreWords(s: string)
    ensures forall k | 0 <= k < |Fields(s)| :: Fields(s)[k] != [] && NoSpace(Fields(s)[k])
    decreases |s|
  {
    if s == [] {
    } else if IsSpace(s[0]) {
      FieldsAreWords(s[1..]);
    } else {
      var w := Word(s);
      WordHasNoSpace(s);
      FieldsAreWords(s[|w|..]);
    }
  }

  /** A text has no fields exactly when it is all white space. */
  lemma {:induction false} NoFieldsIffAllSpace(s: string)
    ensures Fields(s) == [] <==> AllSpace(s)
    decreases |s|
  {
    if s != [] && IsSpace(s[0]) {
      NoFieldsIffAllSpace(s[1..]);
      assert AllSpace(s) <==> AllSpace(s[1..]);
    }
  }

  predicate IsDigit(c: char)
  {
    '0' <= c <= '9'
  }

  function DigitValue(c: char): nat
    requires IsDigit(c)
  {
    c as int - '0' as int
  }

  predicate AllDigits(s: string)
  {
    forall i | 0 <= i < |s| :: IsDigit(s[i])
  }

  /** The value of a string of decimal digits. */
  function DigitsValue(s: string): (n: nat)
    requires AllDigits(s)
  {
    if s == [] then 0 else DigitsValue(s[..|s| - 1]) * 10 + DigitValue(s[|s| - 1])
  }

  /** The text after an optional leading sign. */
  function Unsigned(s: string): string
  {
    if s != [] && (s[0] == '+' || s[0] == '-') then s[1..] else s
  }

  /** The value of an optional sign followed by decimal digits. */
  function SignedValue(s: string): int
    requires AllDigits(Unsigned(s))
  {
    var n: int := DigitsValue(Unsigned(s));
    if s != [] && s[0] == '-' then -n else n
  }

  /** strconv.ParseInt(s, 10, 64): an optional sign, then one or more decimal
      digits, with the value in int64 range; anything else is an error. */
  function ParseInt64(s: string): (r: Option<int>)
    ensures r.Some? <==> Unsigned(s) != [] && AllDigits(Unsigned(s)) && InInt64(SignedValue(s))
    ensures r.Some? ==> r.value == SignedValue(s)
  {
    var negative := s != [] && s[0] == '-';
    var digits := Unsigned(s);
    if digits == [] || exists i | 0 <= i < |digits| :: !IsDigit(digits[i]) then None
    else
      var n: int := DigitsValue(digits);
      if negative && n <= -MinInt64 then Some(-n)
      else if !negative && n <= MaxInt64 then Some(n)
      else None
  }

  /** The decimal text of a natural number, as the kernel prints block counts. */
  function Decimal(n: nat): (s: string)
    ensures s != [] && AllDigits(s)
  {
    var d := ['0' + (n % 10) as char];
    if n < 10 then d else Decimal(n / 10) + d
  }

  /** Decimal text is read back by ParseInt64 as the number it spells. */
  lemma {:induction false} DecimalValue(n: nat)
    ensures DigitsValue(Decimal(n)) == n
  {
    var s := Decimal(n);
    if n >= 10 {
      DecimalValue(n / 10);
      assert s[..|s| - 1] == Decimal(n / 10);
    }
  }

  /** Every block count in int64 range that the kernel prints is parsed back
      unchanged. */
  lemma ParseInt64ReadsDecimal(n: nat)
    requires n <= MaxInt64
    ensures ParseInt64(Decimal(n)) == Some(n)
  {
    DecimalValue(n);
  }

  /** A whole SCSI disk: the name starts with "sd" and does not end in a digit
      (sda qualifies, its partition sda1 does not). */
  predicate IsScsiDiskName(name: string)
    ensures IsScsiDiskName(name) ==> |name| >= 2 && name[..2] == "sd"
    ensures name != [] && IsDigit(name[|name| - 1]) ==> !IsScsiDiskName(name)
  {
    HasPrefix(name, "sd") && !IsDigit(name[|name| - 1])
  }

  /** A /proc/partitions entry that FindLargestDisk considers. */
  datatype Candidate = Candidate(name: string, sizeBytes: int)

  /** The candidate a line describes, if any: after trimming, not the header
      and not empty, at least four fields, a whole-SCSI-disk name in the
      fourth, a parsable block count in the third; the size is that count
      times 1024, wrapped to int64. */
  function CandidateOf(line: string): (c: Option<Candidate>)
    ensures c.Some? ==> IsScsiDiskName(c.value.name) && InInt64(c.value.sizeBytes)
  {
    var line := TrimSpace(line);
    if HasPrefix(line, "major") || line == [] then None
    else
      var fields := Fields(line);
      if |fields| < 4 || !IsScsiDiskName(fields[3]) then None
      else
        var blocks := ParseInt64(fields[2]);
        if blocks.None? then None
        else Some(Candidate(fields[3], Wrap64(blocks.value * 1024)))
  }

  lemma DigitsHaveNoSpace(s: string)
    requires AllDigits(s)
    ensures NoSpace(s)
  {
    forall i | 0 <= i < |s|
      ensures !IsSpace(s[i])
    {
      assert IsDigit(s[i]);
    }
  }

  lemma {:induction false} TrimLeftSkipsSpace(sp: string, x: string)
    requires AllSpace(sp) && (x == [] || !IsSpace(x[0]))
    ensures TrimLeft(sp + x) == x
    decreases |sp|
  {
    if sp != [] {
      assert (sp + x)[1..] == sp[1..] + x;
      TrimLeftSkipsSpace(sp[1..], x);
    } else {
      assert sp + x == x;
    }
  }

  lemma {:induction false} WordBeforeSpace(w: string, rest: string)
    requires NoSpace(w) && (rest == [] || IsSpace(rest[0]))
    ensures Word(w + rest) == w
    decreases |w|
  {
    if w == [] {
      assert w + rest == rest;
    } else {
      assert (w + rest)[1..] == w[1..] + rest;
      WordBeforeSpace(w[1..], rest);
      assert [w[0]] + w[1..] == w;
    }
  }

  lemma {:induction false} FieldsSkipSpace(sp: string, rest: string)
    requires AllSpace(sp)
    ensures Fields(sp + rest) == Fields(rest)
    decreases |sp|
  {
    if sp == [] {
      assert sp + rest == rest;
    } else {
      assert (sp + rest)[1..] == sp[1..] + rest;
      FieldsSkipSpace(sp[1..], rest);
    }
  }

  /** A word followed by white space (or by nothing) is the first field. */
  lemma FieldsStartWithWord(w: string, rest: string)
    requires w != [] && NoSpace(w) && (rest == [] || IsSpace(rest[0]))
    ensures Fields(w + rest) == [w] + Fields(rest)
  {
    WordBeforeSpace(w, rest);
    assert (w + rest)[|w|..] == rest;
  }

  /** One /proc/partitions record as the kernel prints it: the major number,
      the minor number and the block count in decimal, then the name, in
      columns padded with white space. */
  function Record(lead: string, major: nat, sep1: string, minor: nat, sep2: string,
                  blocks: nat, sep3: string, name: string): string
  {
    lead + RecordBody(major, sep1, minor, sep2, blocks, sep3, name)
  }

  /** A record without its leading padding. */
  function RecordBody(major: nat, sep1: string, minor: nat, sep2: string,
                      blocks: nat, sep3: string, name: string): string
  {
    Decimal(major) + (sep1 + (Decimal(minor) + (sep2 + (Decimal(blocks) + (sep3 + name)))))
  }

  /** The fields of a record are its four columns. */
  lemma RecordFields(major: nat, sep1: string, minor: nat, sep2: string,
                     blocks: nat, sep3: string, name: string)
    requires AllSpace(sep1) && AllSpace(sep2) && AllSpace(sep3)
    requires sep1 != [] && sep2 != [] && sep3 != []
    requires name != [] && NoSpace(name)
    ensures Fields(RecordBody(major, sep1, minor, sep2, blocks, sep3, name)) ==
            [Decimal(major), Decimal(minor), Decimal(blocks), name]
  {
    var dMajor, dMinor, dBlocks := Decimal(major), Decimal(minor), Decimal(blocks);
    DigitsHaveNoSpace(dMajor);
    DigitsHaveNoSpace(dMinor);
    DigitsHaveNoSpace(dBlocks);
    FieldsSkipSpace(sep3, name);
    FieldsStartWithWord(name, []);
    assert name + [] == name;
    var u3 := sep3 + name;
    FieldsStartWithWord(dBlocks, u3);
    var u2 := sep2 + (dBlocks + u3);
    FieldsSkipSpace(sep2, dBlocks + u3);
    FieldsStartWithWord(dMinor, u2);
    FieldsSkipSpace(sep1, dMinor + u2);
    FieldsStartWithWord(dMajor, sep1 + (dMinor + u2));
  }

  /** Trimming a record removes exactly its leading padding. */
  lemma RecordTrim(lead: string, major: nat, sep1: string, minor: nat, sep2: string,
                   blocks: nat, sep3: string, name: string)
    requires AllSpace(lead)
    requires name != [] && NoSpace(name)
    ensures var body := RecordBody(major, sep1, minor, sep2, blocks, sep3, name);
            TrimSpace(Record(lead, major, sep1, minor, sep2, blocks, sep3, name)) == body
            && body != [] && IsDigit(body[0])
  {
    var body := RecordBody(major, sep1, minor, sep2, blocks, sep3, name);
    assert body[0] == Decimal(major)[0];
    TrimLeftSkipsSpace(lead, body);
    assert body[|body| - 1] == name[|name| - 1];
  }

  /** A record is a candidate exactly when its name is a whole SCSI disk and
      its block count fits int64; its size is then the block count times
      1024, wrapped to int64. */
  lemma CandidateOfRecord(lead: string, major: nat, sep1: string, minor: nat, sep2: string,
                          blocks: nat, sep3: string, name: string)
    requires AllSpace(lead) && AllSpace(sep1) && AllSpace(sep2) && AllSpace(sep3)
    requires sep1 != [] && sep2 != [] && sep3 != []
    requires name != [] && NoSpace(name)
    ensures CandidateOf(Record(lead, major, sep1, minor, sep2, blocks, sep3, name)) ==
            if IsScsiDiskName(name) && blocks <= MaxInt64 then Some(Candidate(name, Wrap64(blocks * 1024)))
            else None
  {
    var body := RecordBody(major, sep1, minor, sep2, blocks, sep3, name);
    RecordTrim(lead, major, sep1, minor, sep2, blocks, sep3, name);
    RecordFields(major, sep1, minor, sep2, blocks, sep3, name);
    assert !HasPrefix(body, "major") by {
      assert body[0] != "major"[0];
    }
    var dBlocks := Decimal(blocks);
    assert Unsigned(dBlocks) == dBlocks;
    DecimalValue(blocks);
  }

  /** The size a line competes with: its candidate's size, 0 otherwise (a
      size that can never beat the initial maximum). */
  function SizeOf(line: string): int
  {
    match CandidateOf(line)
    case Some(c) => c.sizeBytes
    case None => 0
  }

  /** Only a candidate has a positive size. */
  lemma PositiveSizeIsCandidate(line: string)
    requires SizeOf(line) > 0
    ensures CandidateOf(line).Some?
  {
  }

  /** The sizes the lines compete with, in order. */
  function Sizes(lines: seq<string>): (sizes: seq<int>)
    ensures |sizes| == |lines|
  {
    if lines == [] then [] else Sizes(lines[..|lines| - 1]) + [SizeOf(lines[|lines| - 1])]
  }

  lemma {:induction false} SizesAt(lines: seq<string>, i: int)
    requires 0 <= i < |lines|
    ensures Sizes(lines)[i] == SizeOf(lines[i])
  {
    if i < |lines| - 1 {
      SizesAt(lines[..|lines| - 1], i);
    }
  }

  /** Position i holds a positive size, strictly larger than every earlier
      size and at least as large as every later one: the maximum that a scan
      with a strict comparison, starting from 0, settles on. */
  ghost predicate IsFirstMax(sizes: seq<int>, i: int)
  {
    && 0 <= i < |sizes|
    && sizes[i] > 0
    && (forall j | 0 <= j < i :: sizes[j] < sizes[i])
    && (forall j | i < j < |sizes| :: sizes[j] <= sizes[i])
  }

  /** Some size is positive. */
  ghost predicate HasPositive(sizes: seq<int>)
  {
    exists i | 0 <= i < |sizes| :: sizes[i] > 0
  }

  /** At most one position is the first maximum: ties go to the earliest. */
  lemma FirstMaxIsUnique(sizes: seq<int>, i: int, j: int)
    requires IsFirstMax(sizes, i) && IsFirstMax(sizes, j)
    ensures i == j
  {
  }

  /** Whenever some size is positive, there is a first maximum. */
  lemma {:induction false} FirstMaxExists(sizes: seq<int>)
    requires HasPositive(sizes)
    ensures exists i :: IsFirstMax(sizes, i)
  {
    var k :| 0 <= k < |sizes| && sizes[k] > 0;
    var m := 0;
    for n := 1 to |sizes|
      invariant 0 <= m < n
      invariant forall p | 0 <= p < m :: sizes[p] < sizes[m]
      invariant forall p | m < p < n :: sizes[p] <= sizes[m]
    {
      if sizes[n] > sizes[m] {
        m := n;
      }
    }
    assert sizes[k] <= sizes[m];
    assert IsFirstMax(sizes, m);
  }

  /** What a scan of the first k sizes knows: `chosen` is -1 and the
      maximum still 0 while no positive size has been seen; otherwise `chosen`
      is the first maximum of sizes[..k] and `largest` its size. */
  ghost predicate ScanState(sizes: seq<int>, k: int, chosen: int, largest: int)
  {
    && 0 <= k <= |sizes|
    && -1 <= chosen < k
    && (chosen == -1 ==> largest == 0 && forall j | 0 <= j < k :: sizes[j] <= 0)
    && (chosen >= 0 ==> largest == sizes[chosen] && IsFirstMax(sizes[..k], chosen))
  }

  /** One step of the scan: a size strictly above the maximum replaces it. */
  lemma ScanStep(sizes: seq<int>, k: int, chosen: int, largest: int)
    requires ScanState(sizes, k, chosen, largest) && k < |sizes|
    ensures largest >= 0
    ensures sizes[k] > largest ==> ScanState(sizes, k + 1, k, sizes[k])
    ensures sizes[k] <= largest ==> ScanState(sizes, k + 1, chosen, largest)
  {
  }

  /** At the end of the scan, `chosen` is the first maximum when there is a
      positive size and -1 otherwise. */
  lemma ScanEnd(sizes: seq<int>, chosen: int, largest: int)
    requires ScanState(sizes, |sizes|, chosen, largest)
    ensures chosen == -1 <==> !HasPositive(sizes)
    ensures chosen >= 0 ==> IsFirstMax(sizes, chosen)
  {
    assert sizes[..|sizes|] == sizes;
  }

  /** Line i of the listing is a candidate and `device` is its device path. */
  ghost predicate DeviceOfLine(lines: seq<string>, i: int, device: string)
  {
    && 0 <= i < |lines|
    && CandidateOf(lines[i]).Some?
    && device == "/dev/" + CandidateOf(lines[i]).value.name
  }

  /** What FindLargestDisk may report for a listing: an unreadable file and a
      scanner error give their errors; otherwise a disk exactly when some
      line has a positive size, that disk being the line at the first
      maximum, and "no SCSI disk found" when none has. */
  ghost predicate IsLargestDiskResult(partitions: Partitions, r: Result<string>)
  {
    && (partitions.Unreadable? ==> r == Err(PartitionsUnreadable))
    && (partitions.Listing? && partitions.scanFailed ==> r == Err(ScanFailed))
    && (partitions.Listing? && !partitions.scanFailed ==>
          && (r.Ok? <==> HasPositive(Sizes(partitions.lines)))
          && (r.Err? ==> r.error == NoScsiDisk))
    && (r.Ok? ==> && partitions.Listing?
                  && exists i :: IsFirstMax(Sizes(partitions.lines), i) && DeviceOfLine(partitions.lines, i, r.value))
  }

  /** The listing determines the result: at most one result fits it. */
  lemma LargestDiskResultIsUnique(partitions: Partitions, r1: Result<string>, r2: Result<string>)
    requires IsLargestDiskResult(partitions, r1) && IsLargestDiskResult(partitions, r2)
    ensures r1 == r2
  {
    if r1.Ok? && r2.Ok? {
      var i :| IsFirstMax(Sizes(partitions.lines), i) && DeviceOfLine(partitions.lines, i, r1.value);
      var j :| IsFirstMax(Sizes(partitions.lines), j) && DeviceOfLine(partitions.lines, j, r2.value);
      FirstMaxIsUnique(Sizes(partitions.lines), i, j);
    }
  }

  /** The loop of FindLargestDisk: keep the device of the first line whose
      size is strictly larger than every size before it; "" when no line has
      a positive size. `chosen` is the index of the kept line, -1 for none. */
  method ScanLines(lines: seq<string>) returns (largestDevice: string, ghost chosen: int)
    ensures -1 <= chosen < |lines|
    ensures chosen == -1 <==> largestDevice == ""
    ensures chosen == -1 <==> !HasPositive(Sizes(lines))
    ensures chosen >= 0 ==> IsFirstMax(Sizes(lines), chosen) && DeviceOfLine(lines, chosen, largestDevice)
  {
    ghost var sizes := Sizes(lines);
    largestDevice := "";
    var largestSize := 0;
    chosen := -1;
    for k := 0 to |lines|
      invariant ScanState(sizes, k, chosen, largestSize)
      invariant chosen == -1 <==> largestDevice == ""
      invariant chosen >= 0 ==> DeviceOfLine(lines, chosen, largestDevice)
    {
      var candidate := CandidateOf(lines[k]);
      SizesAt(lines, k);
      assert sizes[k] == if candidate.Some? then candidate.value.sizeBytes else 0;
      ScanStep(sizes, k, chosen, largestSize);
      assert (candidate.Some? && candidate.value.sizeBytes > largestSize) == (sizes[k] > largestSize);
      if candidate.Some? && candidate.value.sizeBytes > largestSize {
        largestSize := candidate.value.sizeBytes;
        largestDevice := "/dev/" + candidate.value.name;
        chosen := k;
        assert DeviceOfLine(lines, chosen, largestDevice);
      }
    }
    ScanEnd(sizes, chosen, largestSize);
  }

  /** FindLargestDisk: scan /proc/partitions and report "/dev/" + the name of
      the largest whole SCSI disk, the earliest of equally large ones; a
      scanner error wins over any result, and with no candidate of positive
      size the error is "no SCSI disk found". Each line is filtered as
      CandidateOf describes. */
  method FindLargestDisk(partitions: Partitions) returns (r: Result<string>)
    ensures IsLargestDiskResult(partitions, r)
  {
    if partitions.Unreadable? {
      return Err(PartitionsUnreadable);
    }
    var largestDevice, chosen := ScanLines(partitions.lines);
    if partitions.scanFailed {
      return Err(ScanFailed);
    }
    if largestDevice == "" {
      return Err(NoScsiDisk);
    }
    assert IsFirstMax(Sizes(partitions.lines), chosen) && DeviceOfLine(partitions.lines, chosen, largestDevice);
    return Ok(largestDevice);
  }

  /** The header of /proc/partitions. */
  const PartitionsHeader := "major minor  #blocks  name"

  lemma ExampleNames()
    ensures NoSpace("sda") && NoSpace("sdb") && NoSpace("sda1")
    ensures IsScsiDiskName("sda") && IsScsiDiskName("sdb") && !IsScsiDiskName("sda1")
  {
    assert forall i | 0 <= i < 4 :: "sda1"[i] in "sda1";
  }

  /** The header line is never a candidate. */
  lemma HeaderIsSkipped()
    ensures CandidateOf(PartitionsHeader) == None
  {
    assert TrimLeft(PartitionsHeader) == PartitionsHeader;
    assert TrimSpace(PartitionsHeader) == PartitionsHeader;
    assert HasPrefix(PartitionsHeader, "major");
  }

  /** In a three-line listing whose second line is larger than the first and
      whose third is no candidate, the second line is the first maximum. */
  lemma SecondOfThreeIsFirstMax(x: string, y: string, z: string)
    requires 0 < SizeOf(x) < SizeOf(y) && SizeOf(z) == 0
    ensures Sizes([x, y, z]) == [SizeOf(x), SizeOf(y), 0]
    ensures IsFirstMax(Sizes([x, y, z]), 1)
  {
    var lines := [x, y, z];
    SizesAt(lines, 0);
    SizesAt(lines, 1);
    SizesAt(lines, 2);
    assert Sizes(lines) == [SizeOf(x), SizeOf(y), 0];
  }

  /** The sizes that the records of sda, sdb and sda1 compete with, whatever
      their padding and device numbers: sda1 drops out as a partition. */
  lemma ExampleRecordSizes(lead: string, sep1: string, sep2: string, sep3: string,
                           major: nat, minors: seq<nat>, a: nat, b: nat, c: nat)
    requires AllSpace(lead) && AllSpace(sep1) && AllSpace(sep2) && AllSpace(sep3)
    requires sep1 != [] && sep2 != [] && sep3 != [] && |minors| == 3
    requires a * 1024 <= MaxInt64 && b * 1024 <= MaxInt64
    ensures SizeOf(Record(lead, major, sep1, minors[0], sep2, a, sep3, "sda")) == a * 1024
    ensures CandidateOf(Record(lead, major, sep1, minors[1], sep2, b, sep3, "sdb")) == Some(Candidate("sdb", b * 1024))
    ensures SizeOf(Record(lead, major, sep1, minors[1], sep2, b, sep3, "sdb")) == b * 1024
    ensures SizeOf(Record(lead, major, sep1, minors[2], sep2, c, sep3, "sda1")) == 0
  {
    ExampleNames();
    DiskRecordSize(lead, major, sep1, minors[0], sep2, a, sep3, "sda");
    DiskRecordSize(lead, major, sep1, minors[1], sep2, b, sep3, "sdb");
    OtherRecordSize(lead, major, sep1, minors[2], sep2, c, sep3, "sda1");
  }

  /** A whole-disk record whose size fits int64 competes with that size. */
  lemma DiskRecordSize(lead: string, major: nat, sep1: string, minor: nat, sep2: string,
                       blocks: nat, sep3: string, name: string)
    requires AllSpace(lead) && AllSpace(sep1) && AllSpace(sep2) && AllSpace(sep3)
    requires sep1 != [] && sep2 != [] && sep3 != []
    requires name != [] && NoSpace(name) && IsScsiDiskName(name)
    requires blocks * 1024 <= MaxInt64
    ensures CandidateOf(Record(lead, major, sep1, minor, sep2, blocks, sep3, name)) == Some(Candidate(name, blocks * 1024))
    ensures SizeOf(Record(lead, major, sep1, minor, sep2, blocks, sep3, name)) == blocks * 1024
  {
    CandidateOfRecord(lead, major, sep1, minor, sep2, blocks, sep3, name);
  }

  /** A record whose name is not a whole SCSI disk competes with size 0. */
  lemma OtherRecordSize(lead: string, major: nat, sep1: string, minor: nat, sep2: string,
                        blocks: nat, sep3: string, name: string)
    requires AllSpace(lead) && AllSpace(sep1) && AllSpace(sep2) && AllSpace(sep3)
    requires sep1 != [] && sep2 != [] && sep3 != []
    requires name != [] && NoSpace(name) && !IsScsiDiskName(name)
    ensures SizeOf(Record(lead, major, sep1, minor, sep2, blocks, sep3, name)) == 0
  {
    CandidateOfRecord(lead, major, sep1, minor, sep2, blocks, sep3, name);
  }

  /** The records of sda, sdb and the partition sda1, with any device
      numbers and columns padded however the kernel pads them: when sdb has
      more blocks than sda, sdb is the first maximum, with its block count
      times 1024 as its size. */
  lemma ExampleRecordsChooseSdb(lead: string, sep1: string, sep2: string, sep3: string,
                                major: nat, minors: seq<nat>, a: nat, b: nat, c: nat)
    requires AllSpace(lead) && AllSpace(sep1) && AllSpace(sep2) && AllSpace(sep3)
    requires sep1 != [] && sep2 != [] && sep3 != [] && |minors| == 3
    requires 0 < a < b && b * 1024 <= MaxInt64
    ensures var lines := [Record(lead, major, sep1, minors[0], sep2, a, sep3, "sda"),
                          Record(lead, major, sep1, minors[1], sep2, b, sep3, "sdb"),
                          Record(lead, major, sep1, minors[2], sep2, c, sep3, "sda1")];
            && Sizes(lines) == [a * 1024, b * 1024, 0]
            && IsFirstMax(Sizes(lines), 1)
            && CandidateOf(lines[1]) == Some(Candidate("sdb", b * 1024))
  {
    ExampleRecordSizes(lead, sep1, sep2, sep3, major, minors, a, b, c);
    SecondOfThreeIsFirstMax(Record(lead, major, sep1, minors[0], sep2, a, sep3, "sda"),
                            Record(lead, major, sep1, minors[1], sep2, b, sep3, "sdb"),
                            Record(lead, major, sep1, minors[2], sep2, c, sep3, "sda1"));
  }

  /** FindLargestDisk on that listing, read without a scanner error, reports
      /dev/sdb. */
  lemma ExampleListingGivesSdb(lead: string, sep1: string, sep2: string, sep3: string,
                               major: nat, minors: seq<nat>, a: nat, b: nat, c: nat, r: Result<string>)
    requires AllSpace(lead) && AllSpace(sep1) && AllSpace(sep2) && AllSpace(sep3)
    requires sep1 != [] && sep2 != [] && sep3 != [] && |minors| == 3
    requires 0 < a < b && b * 1024 <= MaxInt64
    requires IsLargestDiskResult(Listing([Record(lead, major, sep1, minors[0], sep2, a, sep3, "sda"),
                                          Record(lead, major, sep1, minors[1], sep2, b, sep3, "sdb"),
                                          Record(lead, major, sep1, minors[2], sep2, c, sep3, "sda1")], false), r)
    ensures r == Ok("/dev/sdb")
  {
    var lines := [Record(lead, major, sep1, minors[0], sep2, a, sep3, "sda"),
                  Record(lead, major, sep1, minors[1], sep2, b, sep3, "sdb"),
                  Record(lead, major, sep1, minors[2], sep2, c, sep3, "sda1")];
    ExampleRecordsChooseSdb(lead, sep1, sep2, sep3, major, minors, a, b, c);
    SdbDevice();
    FirstMaxIsTheResult(lines, r, 1, "/dev/sdb");
  }

  lemma SdbDevice()
    ensures "/dev/" + "sdb" == "/dev/sdb"
  {
  }

  /** On a listing read without a scanner error, the device of the first
      maximum is the result. */
  lemma FirstMaxIsTheResult(lines: seq<string>, r: Result<string>, i: int, device: string)
    requires IsLargestDiskResult(Listing(lines, false), r)
    requires IsFirstMax(Sizes(lines), i) && DeviceOfLine(lines, i, device)
    ensures r == Ok(device)
  {
    assert Sizes(lines)[i] > 0;
    var j :| IsFirstMax(Sizes(lines), j) && DeviceOfLine(lines, j, r.value);
    FirstMaxIsUnique(Sizes(lines), i, j);
  }

  /** The directory FindFirstDiskByPathGlob prefixes to its pattern. */
  const ByPathDir := "/dev/disk/by-path/"

  /** FindFirstDiskByPathGlob, given filepath.Glob as `glob` (None when the
      pattern is malformed): the first match, an error when there is none. */
  function FindFirstDiskByPathGlob(path: string, glob: string -> Option<seq<string>>): (r: Result<string>)
    ensures glob(ByPathDir + path).None? <==> r == Err(GlobFailed)
    ensures glob(ByPathDir + path) == Some([]) <==> r == Err(NoDiskByPath(path))
    ensures r.Ok? <==> (glob(ByPathDir + path).Some? && glob(ByPathDir + path).value != [])
    ensures r.Ok? ==> r.value == glob(ByPathDir + path).value[0]
  {
    match glob(ByPathDir + path)
    case None => Err(GlobFailed)
    case Some(disks) =>
      if |disks| == 0 then Err(NoDiskByPath(path)) else Ok(disks[0])
  }
}
