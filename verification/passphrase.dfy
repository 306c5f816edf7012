/** pkg/tdxsetup/passphrase.go: where the LUKS passphrase comes from. Both
    strategies are straight-line code over what the outside world supplies:
    the bytes crypto/rand hands out, and the outcome of each system call on
    the named pipe. */
module Passphrase {
  import opened Base

  /** The passphrase strategy: 32 random bytes, or whatever is written into a
      named pipe at the given path. */
  datatype PassphraseSource = RandomSource | NamedPipe(pipePath: string)

  /** Length of a random passphrase. */
  const RandomLength := 32

  /** Size of the one buffer the named-pipe strategy reads into. */
  const PipeBufferSize := 1024

  /** How syscall.Mkfifo ends: the pipe is made, a file of that name already
      exists (tolerated), or any other error. */
  datatype MkfifoOutcome = FifoCreated | FifoExists | FifoFailed

  /** How opening the pipe for reading ends: it fails, it never returns
      because no writer ever opens the other end, or it returns and the one
      Read sees `firstRead` (None when the read fails). */
  datatype PipeOpen = OpenRefused | NoWriter | Opened(firstRead: Option<seq<byte>>)

  datatype PipeInput = PipeInput(mkfifo: MkfifoOutcome, open: PipeOpen)

  /** How WaitForPassphrase ends: it never returns, or it returns a result. */
  datatype PassphraseWait = WriterAbsent | Answered(result: Result<seq<byte>>)

  /** RandomPassphraseInitializer: the first 32 bytes crypto/rand supplies.
      `entropy` is None when rand.Read fails, and a read that cannot fill the
      buffer is a failure too. */
  function RandomPassphrase(entropy: Option<seq<byte>>): (r: Result<seq<byte>>)
    ensures r.Ok? <==> entropy.Some? && |entropy.value| >= RandomLength
    ensures r.Ok? ==> |r.value| == RandomLength && r.value <= entropy.value
    ensures r.Err? ==> r.error == EntropyFailed
  {
    if entropy.Some? && |entropy.value| >= RandomLength then Ok(entropy.value[..RandomLength])
    else Err(EntropyFailed)
  }

  /** Drops one trailing newline, if there is one. */
  function TrimNewline(data: seq<byte>): (r: seq<byte>)
    ensures r <= data && |data| - 1 <= |r|
  {
    if |data| > 0 && data[|data| - 1] == Newline then data[..|data| - 1] else data
  }

  /** A line written with `echo` loses exactly its terminator. */
  lemma TrimNewlineDropsTerminator(line: seq<byte>)
    ensures TrimNewline(line + [Newline]) == line
  {
    assert (line + [Newline])[..|line|] == line;
  }

  /** Data that does not end in a newline is kept whole. */
  lemma TrimNewlineKeepsUnterminated(data: seq<byte>)
    requires data == [] || data[|data| - 1] != Newline
    ensures TrimNewline(data) == data
  {
  }

  /** Only one newline is dropped: a passphrase written with a blank line
      after it keeps the first newline. */
  lemma TrimNewlineDropsOnlyOne(line: seq<byte>)
    ensures TrimNewline(line + [Newline, Newline]) == line + [Newline]
  {
    assert (line + [Newline, Newline])[..|line| + 1] == line + [Newline];
  }

  /** How many bytes one Read into the 1024-byte buffer takes from `data`. */
  function ReadLength(data: seq<byte>): nat
  {
    if |data| < PipeBufferSize then |data| else PipeBufferSize
  }

  /** NamedPipePassphraseInitializer: make the pipe (an existing one is fine),
      open it, and take what a single Read of at most 1024 bytes returns,
      minus one trailing newline. A Read that returns no bytes reports io.EOF,
      which is an error. */
  function ReadPipe(pipe: PipeInput): (w: PassphraseWait)
    ensures w == WriterAbsent <==> pipe.mkfifo != FifoFailed && pipe.open == NoWriter
    ensures pipe.mkfifo == FifoFailed ==> w == Answered(Err(MkfifoFailed))
    ensures pipe.mkfifo != FifoFailed && pipe.open == OpenRefused ==> w == Answered(Err(OpenPipeFailed))
    ensures w.Answered? && w.result.Ok? ==>
              && pipe.open.Opened? && pipe.open.firstRead.Some?
              && var data := pipe.open.firstRead.value;
              && data != []
              && w.result.value <= data
              && |w.result.value| <= PipeBufferSize
              && |w.result.value| + 1 >= ReadLength(data)
              && w.result.value == TrimNewline(data[..ReadLength(data)])
    ensures (pipe.mkfifo != FifoFailed && pipe.open.Opened? &&
             (pipe.open.firstRead.None? || pipe.open.firstRead.value == [])) ==> w == Answered(Err(ReadPipeFailed))
  {
    if pipe.mkfifo == FifoFailed then Answered(Err(MkfifoFailed))
    else match pipe.open
      case OpenRefused => Answered(Err(OpenPipeFailed))
      case NoWriter => WriterAbsent
      case Opened(firstRead) =>
        if firstRead.None? || firstRead.value == [] then Answered(Err(ReadPipeFailed))
        else
          Answered(Ok(TrimNewline(firstRead.value[..ReadLength(firstRead.value)])))
  }

  /** A writer that sends a short line through the pipe gets it back without
      its terminator. */
  lemma PipeDeliversLine(line: seq<byte>)
    requires |line| < PipeBufferSize
    ensures ReadPipe(PipeInput(FifoCreated, Opened(Some(line + [Newline])))) == Answered(Ok(line))
    ensures ReadPipe(PipeInput(FifoExists, Opened(Some(line + [Newline])))) == Answered(Ok(line))
  {
    var data := line + [Newline];
    assert data[..|data|] == data;
    TrimNewlineDropsTerminator(line);
  }

  /** Anything beyond the first 1024 bytes is never seen. */
  lemma {:induction false} PipeTruncatesLongInput(data: seq<byte>, more: seq<byte>)
    requires |data| == PipeBufferSize
    ensures ReadPipe(PipeInput(FifoCreated, Opened(Some(data + more)))) ==
            ReadPipe(PipeInput(FifoCreated, Opened(Some(data))))
  {
    assert (data + more)[..PipeBufferSize] == data == data[..PipeBufferSize];
  }

  /** PassphraseInitializerer.WaitForPassphrase for the configured strategy. */
  function WaitForPassphrase(source: PassphraseSource, entropy: Option<seq<byte>>, pipe: PipeInput): (w: PassphraseWait)
    ensures source.RandomSource? ==> w == Answered(RandomPassphrase(entropy))
    ensures source.NamedPipe? ==> w == ReadPipe(pipe)
  {
    match source
    case RandomSource => Answered(RandomPassphrase(entropy))
    case NamedPipe(_) => ReadPipe(pipe)
  }
}
