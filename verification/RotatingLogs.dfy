/** The gateway's log file and its numbered backups. */
module RotatingLogs {
  import opened Wrappers

  type Bytes = seq<bv8>

  /** The files by number: 0 is the log itself, i > 0 the backup with suffix ".i". */
  type Files = map<nat, Bytes>

  datatype Log = Log(files: Files, bytesWritten: nat, maxBytes: nat, backupCount: nat)

  function Get(files: Files, i: nat): Bytes {
    if i in files then files[i] else []
  }

  /** Backups move up by one, the last falls off, and the log starts empty; files with larger numbers,
      left over from a larger backup count, stay where they are. */
  function Rotated(files: Files, n: nat): Files {
    var kept := (set i | i in files && i > n) + (set i | i in files && i < n :: i + 1);
    (map i | i in kept :: if i > n then files[i] else files[i - 1])[0 := []]
  }

  function Rotate(log: Log): Log {
    log.(files := Rotated(log.files, log.backupCount), bytesWritten := 0)
  }

  function Open(files: Files, maxBytes: nat, backupCount: nat): Log {
    var log := Log(files[0 := Get(files, 0)], |Get(files, 0)|, maxBytes, backupCount);
    if maxBytes > 0 && log.bytesWritten >= maxBytes then Rotate(log) else log
  }

  predicate MustRotate(log: Log, bytes: Bytes) {
    log.maxBytes > 0 && log.bytesWritten > 0 && log.bytesWritten + |bytes| > log.maxBytes
  }

  function Append(log: Log, bytes: Bytes): Log {
    log.(files := log.files[0 := Get(log.files, 0) + bytes], bytesWritten := log.bytesWritten + |bytes|)
  }

  function Write(log: Log, bytes: Bytes): Log {
    Append(if MustRotate(log, bytes) then Rotate(log) else log, bytes)
  }

  class RotatingLog {
    const maxBytes: nat
    const backupCount: nat
    var files: Files
    var bytesWritten: nat

    ghost function Now(): Log
      reads this
    {
      Log(files, bytesWritten, maxBytes, backupCount)
    }

    constructor (files: Files, maxBytes: nat, backupCount: nat)
      ensures Now() == Open(files, maxBytes, backupCount)
    {
      this.maxBytes, this.backupCount := maxBytes, backupCount;
      this.files := files[0 := Get(files, 0)];
      this.bytesWritten := |Get(files, 0)|;
      new;
      if maxBytes > 0 && bytesWritten >= maxBytes {
        RotateFiles();
      }
    }

    /** Backup by backup, from the oldest: remove the destination, move the source there. */
    method RotateFiles()
      requires 0 in files
      modifies this`files, this`bytesWritten
      ensures Now() == Rotate(old(Now()))
    {
      ghost var was := files;
      if backupCount == 0 {
        files := files[0 := []];
      } else {
        var index: nat := backupCount;
        while index > 0
          invariant index <= backupCount && IsShifted(was, files, backupCount, index)
        {
          ghost var before := files;
          files := files - {index};
          if index - 1 in files {
            files := files[index := files[index - 1]] - {index - 1};
          }
          ShiftOne(was, before, files, backupCount, index);
          index := index - 1;
        }
        ShiftedIsRotated(was, files, backupCount);
      }
      files := files[0 := []];
      bytesWritten := 0;
      assert files == Rotated(was, backupCount);
    }

    method WriteBytes(bytes: Bytes)
      requires 0 in files
      modifies this`files, this`bytesWritten
      ensures Now() == Write(old(Now()), bytes)
    {
      if maxBytes > 0 && bytesWritten > 0 && bytesWritten + |bytes| > maxBytes {
        RotateFiles();
      }
      files := files[0 := files[0] + bytes];
      bytesWritten := bytesWritten + |bytes|;
    }
  }

  function Look(files: Files, i: nat): Option<Bytes> {
    if i in files then Some(files[i]) else None
  }

  /** What stands at number i once the moves for index + 1 .. n are done. */
  function Moved(was: Files, n: nat, index: nat, i: nat): Option<Bytes> {
    if i < index || i > n then Look(was, i)
    else if i > index then Look(was, i - 1)
    else if index == n then Look(was, n)
    else None
  }

  ghost predicate IsShifted(was: Files, files: Files, n: nat, index: nat) {
    forall i: nat :: Look(files, i) == Moved(was, n, index, i)
  }

  lemma ShiftOne(was: Files, before: Files, files: Files, n: nat, index: nat)
    requires 0 < index <= n && IsShifted(was, before, n, index)
    requires files == if index - 1 in before then (before - {index})[index := before[index - 1]] - {index - 1}
                      else before - {index}
    ensures IsShifted(was, files, n, index - 1)
  {
    forall i: nat ensures Look(files, i) == Moved(was, n, index - 1, i) {
      assert Look(before, i) == Moved(was, n, index, i);
      assert Look(before, index - 1) == Moved(was, n, index, index - 1);
    }
  }

  lemma ShiftedIsRotated(was: Files, files: Files, n: nat)
    requires n > 0 && IsShifted(was, files, n, 0)
    ensures files[0 := []] == Rotated(was, n)
  {
    var done, spec := files[0 := []], Rotated(was, n);
    forall i: nat ensures Look(done, i) == Look(spec, i) {
      assert Look(files, i) == Moved(was, n, 0, i);
    }
    SameLooks(done, spec);
  }

  lemma SameLooks(a: Files, b: Files)
    requires forall i: nat :: Look(a, i) == Look(b, i)
    ensures a == b
  {
    forall i: nat ensures i in a <==> i in b {
      assert Look(a, i) == Look(b, i);
    }
    forall i: nat | i in a ensures a[i] == b[i] {
      assert Look(a, i) == Look(b, i);
    }
  }

  // ---------- over any sequence of writes ----------

  function After(files: Files, maxBytes: nat, backupCount: nat, writes: seq<Bytes>): Log {
    if writes == [] then Open(files, maxBytes, backupCount)
    else Write(After(files, maxBytes, backupCount, writes[..|writes| - 1]), writes[|writes| - 1])
  }

  function Written(writes: seq<Bytes>): Bytes {
    if writes == [] then [] else Written(writes[..|writes| - 1]) + writes[|writes| - 1]
  }

  /** Backups n .. 1 and then the log, oldest bytes first. */
  function Contents(files: Files, n: nat): Bytes {
    if n == 0 then Get(files, 0) else Get(files, n) + Contents(files, n - 1)
  }

  predicate IsSuffix(a: Bytes, b: Bytes) {
    |a| <= |b| && b[|b| - |a|..] == a
  }

  lemma SuffixOfSuffix(a: Bytes, b: Bytes, c: Bytes)
    requires IsSuffix(a, b) && IsSuffix(b, c)
    ensures IsSuffix(a, c)
  {
  }

  lemma SuffixAppend(a: Bytes, b: Bytes, x: Bytes)
    requires IsSuffix(a, b)
    ensures IsSuffix(a + x, b + x)
  {
    assert (b + x)[|b| - |a|..] == b[|b| - |a|..] + x;
  }

  lemma RotatedAt(files: Files, n: nat, i: nat)
    requires i <= n
    ensures Get(Rotated(files, n), i) == if i == 0 then [] else Get(files, i - 1)
  {
  }

  lemma {:induction false} ContentsRotated(files: Files, n: nat, i: nat)
    requires i <= n
    ensures Contents(Rotated(files, n), i) == if i == 0 then [] else Contents(files, i - 1)
  {
    RotatedAt(files, n, i);
    if i > 0 {
      ContentsRotated(files, n, i - 1);
      if i == 1 {
        assert Get(files, 0) + [] == Get(files, 0);
      }
    }
  }

  lemma RotationKeepsSuffix(files: Files, n: nat)
    ensures IsSuffix(Contents(Rotated(files, n), n), Contents(files, n))
  {
    ContentsRotated(files, n, n);
  }

  lemma Associates(a: Bytes, b: Bytes, c: Bytes)
    ensures a + (b + c) == (a + b) + c
  {
  }

  lemma {:induction false} ContentsAppend(files: Files, files': Files, n: nat, bytes: Bytes)
    requires files' == files[0 := Get(files, 0) + bytes]
    ensures Contents(files', n) == Contents(files, n) + bytes
  {
    if n > 0 {
      ContentsAppend(files, files', n - 1, bytes);
      assert Get(files', n) == Get(files, n);
      Associates(Get(files, n), Contents(files, n - 1), bytes);
    }
  }

  /** The log and its backups, read from the oldest on, are always the end of everything that was there
      or was written: rotation loses the oldest bytes only, and never reorders or repeats any. */
  lemma {:induction false} ContentsAreSuffix(files: Files, maxBytes: nat, n: nat, writes: seq<Bytes>)
    ensures IsSuffix(Contents(After(files, maxBytes, n, writes).files, n), Contents(files, n) + Written(writes))
  {
    if writes == [] {
      OpenKeepsSuffix(files, maxBytes, n);
    } else {
      var log, bytes := After(files, maxBytes, n, writes[..|writes| - 1]), writes[|writes| - 1];
      var all := Contents(files, n) + Written(writes[..|writes| - 1]);
      ContentsAreSuffix(files, maxBytes, n, writes[..|writes| - 1]);
      Parameters(files, maxBytes, n, writes[..|writes| - 1]);
      WriteKeepsSuffix(log, Write(log, bytes), bytes, all);
      Associates(Contents(files, n), Written(writes[..|writes| - 1]), bytes);
    }
  }

  lemma OpenKeepsSuffix(files: Files, maxBytes: nat, n: nat)
    ensures IsSuffix(Contents(Open(files, maxBytes, n).files, n), Contents(files, n) + [])
  {
    assert Get(files, 0) + [] == Get(files, 0) && Contents(files, n) + [] == Contents(files, n);
    ContentsAppend(files, files[0 := Get(files, 0)], n, []);
    RotationKeepsSuffix(files[0 := Get(files, 0)], n);
  }

  lemma WriteKeepsSuffix(log: Log, log': Log, bytes: Bytes, all: Bytes)
    requires IsSuffix(Contents(log.files, log.backupCount), all) && log' == Write(log, bytes)
    ensures IsSuffix(Contents(log'.files, log.backupCount), all + bytes)
  {
    var n := log.backupCount;
    if MustRotate(log, bytes) {
      RotationKeepsSuffix(log.files, n);
      ContentsAppend(Rotated(log.files, n), log'.files, n, bytes);
      SuffixOfSuffix(Contents(Rotated(log.files, n), n), Contents(log.files, n), all);
      SuffixAppend(Contents(Rotated(log.files, n), n), all, bytes);
    } else {
      ContentsAppend(log.files, log'.files, n, bytes);
      SuffixAppend(Contents(log.files, n), all, bytes);
    }
  }

  /** The counter is the length of the log file. */
  lemma {:induction false} Parameters(files: Files, maxBytes: nat, n: nat, writes: seq<Bytes>)
    ensures var log := After(files, maxBytes, n, writes);
            && log.maxBytes == maxBytes && log.backupCount == n
            && 0 in log.files && log.bytesWritten == |log.files[0]|
  {
    if writes != [] { Parameters(files, maxBytes, n, writes[..|writes| - 1]); }
  }

  /** Without a limit nothing is ever lost. */
  lemma {:induction false} UnlimitedLosesNothing(files: Files, n: nat, writes: seq<Bytes>)
    ensures Contents(After(files, 0, n, writes).files, n) == Contents(files, n) + Written(writes)
  {
    if writes == [] {
      assert Get(files, 0) + [] == Get(files, 0);
      ContentsAppend(files, files[0 := Get(files, 0)], n, []);
    } else {
      var log := After(files, 0, n, writes[..|writes| - 1]);
      UnlimitedLosesNothing(files, n, writes[..|writes| - 1]);
      Parameters(files, 0, n, writes[..|writes| - 1]);
      ContentsAppend(log.files, Write(log, writes[|writes| - 1]).files, n, writes[|writes| - 1]);
      Associates(Contents(files, n), Written(writes[..|writes| - 1]), writes[|writes| - 1]);
    }
  }

  /** No write ever makes a backup beyond the count: what stands at larger numbers is what was left there. */
  lemma {:induction false} NoBackupBeyond(files: Files, maxBytes: nat, n: nat, writes: seq<Bytes>, i: nat)
    requires i > n
    ensures Look(After(files, maxBytes, n, writes).files, i) == Look(files, i)
  {
    if writes != [] {
      NoBackupBeyond(files, maxBytes, n, writes[..|writes| - 1], i);
      Parameters(files, maxBytes, n, writes[..|writes| - 1]);
    }
  }

  // ---------- sizes ----------

  function Largest(writes: seq<Bytes>): nat {
    if writes == [] then 0
    else
      var before, last := Largest(writes[..|writes| - 1]), |writes[|writes| - 1]|;
      if last > before then last else before
  }

  function Max(a: nat, b: nat): nat {
    if a > b then a else b
  }

  /** How often writing has rotated the log. */
  function Rotations(files: Files, maxBytes: nat, n: nat, writes: seq<Bytes>): nat {
    if writes == [] then 0
    else
      var log := After(files, maxBytes, n, writes[..|writes| - 1]);
      Rotations(files, maxBytes, n, writes[..|writes| - 1]) + if MustRotate(log, writes[|writes| - 1]) then 1 else 0
  }

  /** Files 0 .. r were filled since the log was opened. */
  ghost predicate SizesHold(log: Log, r: nat, bound: nat) {
    && (forall i: nat :: i <= r && i <= log.backupCount ==> |Get(log.files, i)| <= bound)
    && (forall i: nat :: 0 < i <= r && i <= log.backupCount ==> TooMuchForOne(log, i))
    && log.bytesWritten == |Get(log.files, 0)|
  }

  predicate TooMuchForOne(log: Log, i: nat)
    requires i > 0
  {
    |Get(log.files, i)| + |Get(log.files, i - 1)| > log.maxBytes
  }

  lemma WriteSizes(log: Log, bytes: Bytes, r: nat, bound: nat)
    requires log.maxBytes > 0 && SizesHold(log, r, bound) && bound >= log.maxBytes
    ensures SizesHold(Write(log, bytes), if MustRotate(log, bytes) then r + 1 else r, Max(bound, |bytes|))
  {
    if MustRotate(log, bytes) {
      var log' := Write(log, bytes);
      forall i: nat | i <= log.backupCount
        ensures Get(log'.files, i) == if i == 0 then bytes else Get(log.files, i - 1)
      {
        RotatedAt(log.files, log.backupCount, i);
      }
      forall i: nat | 0 < i <= r + 1 && i <= log.backupCount ensures TooMuchForOne(log', i) {
        if i > 1 { assert TooMuchForOne(log, i - 1); }
      }
    } else {
      forall i: nat | i <= log.backupCount && i > 0 ensures Get(Write(log, bytes).files, i) == Get(log.files, i) {
      }
      forall i: nat | 0 < i <= r && i <= log.backupCount ensures TooMuchForOne(Write(log, bytes), i) {
        assert TooMuchForOne(log, i);
      }
    }
  }

  /** With a limit, a file filled since the log was opened holds at most the limit, or one oversized write;
      and rotation is never premature: two files in a row hold more than the limit. */
  lemma {:induction false} SizesBounded(files: Files, maxBytes: nat, n: nat, writes: seq<Bytes>)
    requires maxBytes > 0
    ensures SizesHold(After(files, maxBytes, n, writes), Rotations(files, maxBytes, n, writes),
                      Max(maxBytes, Largest(writes)))
  {
    if writes != [] {
      var before := writes[..|writes| - 1];
      SizesBounded(files, maxBytes, n, before);
      Parameters(files, maxBytes, n, before);
      WriteSizes(After(files, maxBytes, n, before), writes[|writes| - 1],
                 Rotations(files, maxBytes, n, before), Max(maxBytes, Largest(before)));
    }
  }

  /** One write conserves all bytes but those of the oldest backup, and loses these only when it rotates. */
  lemma WriteLosesOldest(log: Log, bytes: Bytes, n: nat)
    requires n == log.backupCount
    ensures Contents(log.files, n) + bytes ==
            (if MustRotate(log, bytes) then Get(log.files, n) else []) + Contents(Write(log, bytes).files, n)
  {
    var log' := Write(log, bytes);
    if MustRotate(log, bytes) {
      ContentsRotated(log.files, n, n);
      ContentsAppend(Rotated(log.files, n), log'.files, n, bytes);
      if n > 0 {
        Associates(Get(log.files, n), Contents(log.files, n - 1), bytes);
      } else {
        assert [] + bytes == bytes;
      }
    } else {
      ContentsAppend(log.files, log'.files, n, bytes);
      assert [] + Contents(log'.files, n) == Contents(log'.files, n);
    }
  }
}
