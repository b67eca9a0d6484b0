/** The capped log of memory failures (src/chat/memory-failure-log.ts), byte for byte. */
module FailureLog {

  const MAX_BYTES: nat := 65_536
  const KEEP_BYTES: nat := 32_768

  type Byte = b: int | 0 <= b < 256

  const LF: Byte := 10

  type Bytes = seq<Byte>

  /** One record: it ends in a line feed and holds no other. */
  predicate IsLine(line: Bytes) {
    line != [] && line[|line| - 1] == LF && forall i | 0 <= i < |line| - 1 :: line[i] != LF
  }

  function FirstLf(bytes: Bytes, from: nat): nat
    requires from <= |bytes|
    ensures from <= FirstLf(bytes, from) <= |bytes|
    ensures FirstLf(bytes, from) < |bytes| ==> bytes[FirstLf(bytes, from)] == LF
    decreases |bytes| - from
  {
    if from == |bytes| || bytes[from] == LF then from else FirstLf(bytes, from + 1)
  }

  predicate Rotates(size: nat, incoming: nat) {
    size + incoming > MAX_BYTES
  }

  /** Where the kept tail starts: behind the first line feed of the last 32 KiB, or nowhere. */
  function KeptFrom(file: Bytes): nat
    ensures KeptFrom(file) <= |file| && |file| - KeptFrom(file) < KEEP_BYTES
  {
    var start := if |file| <= KEEP_BYTES then 0 else |file| - KEEP_BYTES;
    var lf := FirstLf(file, start);
    if lf < |file| then lf + 1 else |file|
  }

  function Rotated(file: Bytes, incoming: nat): Bytes {
    if Rotates(|file|, incoming) then file[KeptFrom(file)..] else file
  }

  /** How far a write got: the disk may refuse it anywhere, and half way through a rewrite or an append. */
  datatype Disk = Writes | RefusesAtOnce | TearsRewrite(written: nat) | TearsAppend(written: nat)

  function Prefix(bytes: Bytes, n: nat): Bytes {
    if n < |bytes| then bytes[..n] else bytes
  }

  /** A refused rewrite leaves the first bytes of the tail it was to keep; with nothing to rewrite, nothing is torn. */
  function Torn(file: Bytes, incoming: nat, disk: Disk): Bytes {
    if disk.TearsRewrite? && Rotates(|file|, incoming) then Prefix(Rotated(file, incoming), disk.written)
    else Rotated(file, incoming)
  }

  /** What of the line reached the file. */
  function Landed(line: Bytes, disk: Disk): Bytes {
    match disk
    case Writes => line
    case TearsAppend(n) => Prefix(line, n)
    case TearsRewrite(_) => []
    case RefusesAtOnce => []
  }

  class FailureLog {
    var present: bool
    var file: Bytes

    constructor ()
      ensures !present && file == []
    {
      present, file := false, [];
    }

    method IndexOfLf(from: nat) returns (at: nat)
      requires from <= |file|
      ensures at == FirstLf(file, from)
      ensures from <= at <= |file| && (at < |file| ==> file[at] == LF) && forall i | from <= i < at :: file[i] != LF
    {
      at := from;
      while at < |file| && file[at] != LF
        invariant from <= at <= |file| && FirstLf(file, from) == FirstLf(file, at)
        invariant forall i | from <= i < at :: file[i] != LF
      {
        at := at + 1;
      }
    }

    method RotateIfFull(incomingBytes: nat, disk: Disk) returns (torn: bool)
      requires !present ==> file == []
      modifies `file
      ensures file == if present then Torn(old(file), incomingBytes, disk) else old(file)
      ensures torn <==> present && disk.TearsRewrite? && Rotates(|old(file)|, incomingBytes)
      ensures !present || |old(file)| + incomingBytes <= MAX_BYTES ==> file == old(file) && !torn
      ensures present && |old(file)| + incomingBytes > MAX_BYTES ==> |file| < KEEP_BYTES
      ensures torn <==> present && |old(file)| + incomingBytes > MAX_BYTES && disk.TearsRewrite?
    {
      if !present {
        return false;
      }
      if |file| + incomingBytes <= MAX_BYTES {
        return false;
      }
      var at := IndexOfLf(if |file| <= KEEP_BYTES then 0 else |file| - KEEP_BYTES);
      var tail := if at == |file| then [] else file[at + 1..];
      file := if disk.TearsRewrite? then Prefix(tail, disk.written) else tail;
      torn := disk.TearsRewrite?;
    }

    method RecordMemoryFailure(line: Bytes, disk: Disk) returns (recorded: bool)
      requires !present ==> file == []
      modifies this
      ensures !present ==> file == []
      ensures recorded <==> disk.Writes?
      ensures present <==> old(present) || disk.Writes? || disk.TearsAppend?
      ensures disk.RefusesAtOnce? ==> unchanged(this)
      ensures !old(present) || |old(file)| + |line| <= MAX_BYTES ==>
        file == old(file) +
                (if disk.Writes? then line else if disk.TearsAppend? then Prefix(line, disk.written) else [])
      ensures file ==
        if disk.RefusesAtOnce? then old(file)
        else (if old(present) then Torn(old(file), |line|, disk) else []) + Landed(line, disk)
    {
      if disk.RefusesAtOnce? {
        return false;
      }
      var torn := RotateIfFull(|line|, disk);
      if torn || disk.TearsRewrite? {
        return false;
      }
      file := file + Landed(line, disk);
      present := true;
      recorded := disk.Writes?;
    }
  }
}
