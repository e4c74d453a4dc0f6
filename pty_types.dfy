/**
  Types shared by every PTY backend: the configuration a PTY is created from,
  the error values, the results of the asynchronous read/write protocol, and
  the caller's read buffer.
*/
module PtyTypes {
  import opened Utf8

  /** Rust's `u16`, the width of terminal dimensions. */
  type u16 = x: int | 0 <= x < 0x1_0000

  /** The smaller of two lengths, as `usize::min`. */
  function Min(a: nat, b: nat): nat {
    if a <= b then a else b
  }

  datatype Result<+T, +E> = Ok(value: T) | Err(error: E)

  /** `std::task::Poll`: a result now, or "not yet". */
  datatype Poll<+T> = Ready(value: T) | Pending

  /** The `std::io::ErrorKind`s the backends tell apart. */
  datatype ErrorKind = BrokenPipe | WouldBlock | OtherKind

  datatype IoError = IoError(kind: ErrorKind, message: string)

  /** `PtyError`, with one variant per way the backends produce one. */
  datatype PtyError =
    | SpawnFailed(reason: string)
    | ProcessTerminated
      /** an `std::io::Error` converted by `?` */
    | Io(cause: IoError)
      /** an error of the native PTY library converted by `?` */
    | Native(reason: string)
    | Other(reason: string)

  /** `PtyConfig`: what to run and how big the terminal is. */
  datatype PtyConfig = PtyConfig(
    command: string,
    args: seq<string>,
    cols: u16,
    rows: u16,
    env: seq<(string, string)>,
    cwd: Option<string>)

  /**
    `std::process::ExitStatus` on Unix: the raw 32-bit status word that
    `waitpid` reports (`ExitStatus::from_raw` takes it as an `i32`).
  */
  datatype ExitStatus = ExitStatus(raw: int)

  /** `ExitStatus::default()`: the status word 0, a clean exit with code 0. */
  const DefaultExitStatus := ExitStatus(0)

  /** The status word's 32 bits, read as an unsigned number. */
  function StatusBits(s: ExitStatus): (b: nat)
    ensures b < 0x1_0000_0000
  {
    s.raw % 0x1_0000_0000
  }

  /**
    `ExitStatus::code()`: when the process exited normally (WIFEXITED: the low
    seven bits are zero) its exit code (WEXITSTATUS: bits 8 to 15), else none.
  */
  function ExitCode(s: ExitStatus): (c: Option<int>)
    ensures c.Some? ==> 0 <= c.value < 0x100
  {
    var bits := StatusBits(s);
    if bits % 0x80 == 0 then Some((bits / 0x100) % 0x100) else None
  }

  /** `ExitStatus::success()`: a normal exit with code 0. */
  predicate Success(s: ExitStatus) {
    ExitCode(s) == Some(0)
  }

  /** The default status is a success. */
  lemma DefaultIsSuccess()
    ensures Success(DefaultExitStatus) && ExitCode(DefaultExitStatus) == Some(0)
  {
  }

  /** The error every backend's `poll_write` reports once the child is gone. */
  function BrokenPipeError(message: string): IoError {
    IoError(BrokenPipe, message)
  }

  /**
    `tokio::io::ReadBuf`: a caller-owned byte array, of which the first
    `filled` bytes hold data already read.
  */
  class ReadBuf {
    const storage: array<byte>
    var filled: nat

    ghost predicate Valid()
      reads this
    {
      filled <= storage.Length
    }

    /** `remaining()`: room left for more data. */
    function Remaining(): nat
      reads this
      requires Valid()
    {
      storage.Length - filled
    }

    /** `filled()`: the bytes read so far. */
    function Filled(): Bytes
      reads this, storage
      requires Valid()
    {
      storage[..filled]
    }

    constructor (capacity: nat)
      ensures Valid() && fresh(storage)
      ensures storage.Length == capacity && Filled() == []
    {
      storage := new byte[capacity];
      filled := 0;
    }

    /** `put_slice`: append `src` after the filled part; the caller keeps within the room left. */
    method PutSlice(src: Bytes)
      requires Valid() && |src| <= Remaining()
      modifies this, storage
      ensures Valid()
      ensures Filled() == old(Filled()) + src
      ensures Remaining() == old(Remaining()) - |src|
    {
      var i := 0;
      while i < |src|
        invariant 0 <= i <= |src|
        invariant filled == old(filled)
        invariant storage[..filled + i] == old(Filled()) + src[..i]
      {
        storage[filled + i] := src[i];
        assert storage[..filled + i + 1] == storage[..filled + i] + [src[i]];
        assert src[..i + 1] == src[..i] + [src[i]];
        i := i + 1;
      }
      assert src[..i] == src;
      filled := filled + |src|;
    }
  }
}
