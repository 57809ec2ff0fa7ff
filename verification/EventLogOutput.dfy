/** The size-capped event log sink of api/rtc_event_log_output_file.cc.  Sizes are
    64-bit size_t values and additions wrap; whether the file accepts a write is an input. */
module EventLogOutput {

  const SIZE_T_MODULUS := 0x1_0000_0000_0000_0000
  const SIZE_T_MAX := SIZE_T_MODULUS - 1
  const MAX_REASONABLE_FILE_SIZE := SIZE_T_MAX / 2
  const UNLIMITED_OUTPUT := 0

  type SizeT = x: int | 0 <= x < SIZE_T_MODULUS

  function WrappingAdd(a: SizeT, b: SizeT): SizeT {
    (a + b) % SIZE_T_MODULUS
  }

  datatype Sink = Sink(maxSizeBytes: SizeT, writtenBytes: SizeT, isOpen: bool)

  /** One call of Write: the number of bytes offered and whether the file takes them. */
  datatype Attempt = Attempt(size: SizeT, fileAccepts: bool)

  /** What the constructor establishes and every write keeps. */
  ghost predicate Sound(s: Sink) {
    && s.maxSizeBytes <= MAX_REASONABLE_FILE_SIZE
    && (s.maxSizeBytes != UNLIMITED_OUTPUT ==> s.writtenBytes <= s.maxSizeBytes)
  }

  /** A limited sink's capacity test is exact: the sum it compares never wraps. */
  lemma CapacityTestIsExact(s: Sink, size: SizeT)
    requires Sound(s) && s.maxSizeBytes != UNLIMITED_OUTPUT && size < MAX_REASONABLE_FILE_SIZE
    ensures WrappingAdd(s.writtenBytes, size) == s.writtenBytes + size
  {
    assert s.writtenBytes + size < SIZE_T_MODULUS;
  }

  /** The sink after a write, as arithmetic without wrap-around would have it.  A closed file
      takes nothing, whatever is offered. */
  function Written(s: Sink, a: Attempt): Sink {
    if s.isOpen && a.fileAccepts && (s.maxSizeBytes == UNLIMITED_OUTPUT || s.writtenBytes + a.size <= s.maxSizeBytes)
    then s.(writtenBytes := WrappingAdd(s.writtenBytes, a.size))
    else s.(isOpen := false)
  }

  function Run(s: Sink, attempts: seq<Attempt>): Sink
    decreases |attempts|
  {
    if attempts == [] then s else Run(Written(s, attempts[0]), attempts[1..])
  }

  /** Bytes of the attempts that succeed. */
  function Accepted(s: Sink, attempts: seq<Attempt>): nat
    decreases |attempts|
  {
    if attempts == [] then 0
    else
      var s' := Written(s, attempts[0]);
      (if s'.isOpen then attempts[0].size else 0) + Accepted(s', attempts[1..])
  }

  /** Over any run, file errors included, a limited sink's counter is the exact number of
      bytes accepted and never passes the limit. */
  lemma {:induction false} AcceptedWithinLimit(s: Sink, attempts: seq<Attempt>)
    requires Sound(s) && s.maxSizeBytes != UNLIMITED_OUTPUT
    requires forall i :: 0 <= i < |attempts| ==> attempts[i].size < MAX_REASONABLE_FILE_SIZE
    ensures Sound(Run(s, attempts))
    ensures s.writtenBytes + Accepted(s, attempts) == Run(s, attempts).writtenBytes <= s.maxSizeBytes
    decreases |attempts|
  {
    if attempts != [] {
      CapacityTestIsExact(s, attempts[0].size);
      AcceptedWithinLimit(Written(s, attempts[0]), attempts[1..]);
    }
  }

  /** A closed sink stays as it is, whatever is written. */
  lemma {:induction false} ClosedForGood(s: Sink, attempts: seq<Attempt>)
    requires !s.isOpen
    ensures Run(s, attempts) == s && Accepted(s, attempts) == 0
    decreases |attempts|
  {
    if attempts != [] {
      ClosedForGood(Written(s, attempts[0]), attempts[1..]);
    }
  }

  /** The sink is open after a run exactly when every attempt in it succeeded. */
  lemma {:induction false} OpenIffNeverFailed(s: Sink, attempts: seq<Attempt>)
    requires s.isOpen
    ensures Run(s, attempts).isOpen <==>
            forall i :: 0 <= i < |attempts| ==> Written(Run(s, attempts[..i]), attempts[i]).isOpen
    decreases |attempts|
  {
    if attempts != [] {
      var s' := Written(s, attempts[0]);
      assert Run(s, attempts[..0]) == s;
      if s'.isOpen {
        OpenIffNeverFailed(s', attempts[1..]);
        forall i | 1 <= i < |attempts|
          ensures Run(s, attempts[..i]) == Run(s', attempts[1..][..i - 1])
        {
          assert attempts[..i][1..] == attempts[1..][..i - 1];
        }
        forall i | 0 <= i < |attempts| - 1
          ensures attempts[1..][i] == attempts[i + 1]
        {
        }
        assert forall i :: 1 <= i < |attempts| ==> attempts[1..][i - 1] == attempts[i];
      } else {
        ClosedForGood(s', attempts[1..]);
      }
    }
  }

  function TotalSize(attempts: seq<Attempt>): nat {
    if attempts == [] then 0 else attempts[0].size + TotalSize(attempts[1..])
  }

  /** A limited sink that was open still is after a run exactly when the file has taken every
      write and all of them together fit below the limit. */
  lemma {:induction false} OpenIffAllFits(s: Sink, attempts: seq<Attempt>)
    requires Sound(s) && s.maxSizeBytes != UNLIMITED_OUTPUT && s.isOpen
    requires forall i :: 0 <= i < |attempts| ==> attempts[i].size < MAX_REASONABLE_FILE_SIZE
    ensures Run(s, attempts).isOpen <==>
            && (forall i :: 0 <= i < |attempts| ==> attempts[i].fileAccepts)
            && s.writtenBytes + TotalSize(attempts) <= s.maxSizeBytes
    decreases |attempts|
  {
    if attempts != [] {
      var s', rest := Written(s, attempts[0]), attempts[1..];
      CapacityTestIsExact(s, attempts[0].size);
      assert forall i :: 1 <= i < |attempts| ==> rest[i - 1] == attempts[i];
      assert forall i :: 0 <= i < |rest| ==> rest[i] == attempts[i + 1];
      if s'.isOpen {
        OpenIffAllFits(s', rest);
      } else {
        ClosedForGood(s', rest);
      }
    }
  }

  class RtcEventLogOutputFile {
    const maxSizeBytes: SizeT
    var writtenBytes: SizeT
    var fileIsOpen: bool

    ghost function Value(): Sink
      reads this
    {
      Sink(maxSizeBytes, writtenBytes, fileIsOpen)
    }

    /** The size check is RTC_CHECK_LE; a file that did not open leaves the sink inactive. */
    constructor (fileIsOpen: bool, maxSizeBytes: SizeT)
      requires maxSizeBytes <= MAX_REASONABLE_FILE_SIZE
      ensures Value() == Sink(maxSizeBytes, 0, fileIsOpen) && Sound(Value())
    {
      this.maxSizeBytes := maxSizeBytes;
      this.writtenBytes := 0;
      this.fileIsOpen := fileIsOpen;
    }

    /** The code compares the wrapped sum; its outcome is the one of exact arithmetic.  A
        closed file accepts nothing, so a closed sink fails and stays closed. */
    method Write(output: string, fileAccepts: bool) returns (ok: bool)
      requires |output| < MAX_REASONABLE_FILE_SIZE && Sound(Value()) && (fileAccepts ==> fileIsOpen)
      modifies this
      ensures Value() == Written(old(Value()), Attempt(|output|, fileAccepts)) && Sound(Value())
      ensures ok == fileIsOpen
      ensures ok <==> old(fileIsOpen) && fileAccepts
                      && (maxSizeBytes == UNLIMITED_OUTPUT || old(writtenBytes) + |output| <= maxSizeBytes)
      ensures ok && maxSizeBytes != UNLIMITED_OUTPUT ==> writtenBytes == old(writtenBytes) + |output|
      ensures !old(fileIsOpen) ==> !ok && Value() == old(Value())
    {
      if maxSizeBytes != UNLIMITED_OUTPUT {
        CapacityTestIsExact(Value(), |output|);
      }
      if maxSizeBytes == UNLIMITED_OUTPUT || WrappingAdd(writtenBytes, |output|) <= maxSizeBytes {
        if fileAccepts {
          writtenBytes := WrappingAdd(writtenBytes, |output|);
          return true;
        }
      }
      fileIsOpen := false;
      return false;
    }

    predicate IsActive()
      reads this
    {
      fileIsOpen
    }
  }
}
