/** `make_iterator` of parse/sched.py: a sched_trace file is read in
    RECORD_SIZE slots; slots whose tag is not registered are skipped, and so
    are the records of job 1, whose values are meaningless. */
module TraceReader {
  import opened Common
  import opened Layout
  import opened Records

  /** The records of one slot that reach the caller. */
  function SlotRecords(chunk: seq<byte>): (rs: seq<Record>)
    requires |chunk| == RecordSize
    ensures |rs| <= 1
  {
    match Decode(chunk)
    case None => []
    case Some(r) => if r.hdr.job != 1 then [r] else []
  }

  /** Everything `make_iterator(fname)` yields for a file with contents
      `file`, in file order. A trailing slot shorter than RECORD_SIZE ends
      the file. */
  function TraceRecords(file: seq<byte>): seq<Record>
    decreases |file|
  {
    if |file| < RecordSize then []
    else SlotRecords(file[..RecordSize]) + TraceRecords(file[RecordSize..])
  }

  /** The generator, consumed to the end. */
  method MakeIterator(file: seq<byte>) returns (recs: seq<Record>)
    ensures recs == TraceRecords(file)
  {
    recs := [];
    var pos := 0;
    while pos + RecordSize <= |file|
      invariant pos <= |file|
      invariant recs + TraceRecords(file[pos..]) == TraceRecords(file)
      decreases |file| - pos
    {
      recs, pos := ReadSlot(file, pos, recs);
    }
    assert TraceRecords(file[pos..]) == [];
  }

  /** One pass of the generator's loop: decode the slot at `pos` and keep
      its record unless the tag is unknown or the job is the first. */
  method ReadSlot(file: seq<byte>, pos: nat, recs: seq<Record>) returns (recs': seq<Record>, pos': nat)
    requires pos + RecordSize <= |file|
    ensures pos' == pos + RecordSize
    ensures recs' + TraceRecords(file[pos'..]) == recs + TraceRecords(file[pos..])
  {
    var data := file[pos..pos + RecordSize];
    TraceRecordsStep(file, pos);
    var got := DecodeSlot(data);
    recs' := recs + got;
    pos' := pos + RecordSize;
  }

  /** The records one slot contributes. */
  method DecodeSlot(data: seq<byte>) returns (got: seq<Record>)
    requires |data| == RecordSize
    ensures got == SlotRecords(data)
  {
    got := [];
    var obj := Decode(data);
    if obj.Some? {
      if obj.value.hdr.job != 1 {
        got := [obj.value];
      }
    }
  }

  /** Reading from `pos` is reading one slot, then the rest. */
  lemma TraceRecordsStep(file: seq<byte>, pos: nat)
    requires pos + RecordSize <= |file|
    ensures TraceRecords(file[pos..]) == SlotRecords(file[pos..pos + RecordSize]) + TraceRecords(file[pos + RecordSize..])
  {
    assert file[pos..][..RecordSize] == file[pos..pos + RecordSize];
    assert file[pos..][RecordSize..] == file[pos + RecordSize..];
  }

  /** Records of job 1 dropped. */
  function SkipFirstJob(rs: seq<Record>): (out: seq<Record>)
    ensures |out| <= |rs|
  {
    if rs == [] then []
    else (if rs[0].hdr.job != 1 then [rs[0]] else []) + SkipFirstJob(rs[1..])
  }

  /** The bytes of a trace holding `rs`, one slot per record. */
  function EncodeAll(rs: seq<Record>): (file: seq<byte>)
    ensures |file| == RecordSize * |rs|
  {
    if rs == [] then [] else Encode(rs[0]) + EncodeAll(rs[1..])
  }

  /** Every yielded record is well formed and belongs to a job after the first. */
  lemma {:induction false} TraceRecordsValid(file: seq<byte>)
    ensures forall r :: r in TraceRecords(file) ==> WellFormed(r) && r.hdr.job != 1
    decreases |file|
  {
    if |file| >= RecordSize {
      var chunk := file[..RecordSize];
      if Decode(chunk).Some? {
        EncodeDecode(chunk);
      }
      TraceRecordsValid(file[RecordSize..]);
    }
  }

  /** Files are read slot by slot: a file of whole slots followed by more
      bytes yields its own records first. */
  lemma {:induction false} TraceRecordsAppend(a: seq<byte>, b: seq<byte>)
    requires |a| % RecordSize == 0
    ensures TraceRecords(a + b) == TraceRecords(a) + TraceRecords(b)
    decreases |a|
  {
    if a == [] {
      assert a + b == b;
    } else {
      assert (a + b)[..RecordSize] == a[..RecordSize];
      assert (a + b)[RecordSize..] == a[RecordSize..] + b;
      TraceRecordsAppend(a[RecordSize..], b);
    }
  }

  /** Reading back the trace of well-formed records yields them all, in
      order, except those of job 1. */
  lemma {:induction false} ReadEncodedTrace(rs: seq<Record>)
    requires forall r :: r in rs ==> WellFormed(r)
    ensures TraceRecords(EncodeAll(rs)) == SkipFirstJob(rs)
  {
    if rs != [] {
      var file := EncodeAll(rs);
      assert file[..RecordSize] == Encode(rs[0]);
      assert file[RecordSize..] == EncodeAll(rs[1..]);
      DecodeEncode(rs[0]);
      ReadEncodedTrace(rs[1..]);
    }
  }

  /** A slot whose tag is not registered yields nothing; reading goes on
      with the next slot. */
  lemma {:induction false} UnregisteredSlotSkipped(chunk: seq<byte>, rest: seq<byte>)
    requires |chunk| == RecordSize && SignedByte(chunk[0]) !in Tags
    ensures TraceRecords(chunk + rest) == TraceRecords(rest)
  {
    TraceRecordsAppend(chunk, rest);
    assert chunk[..RecordSize] == chunk;
    assert chunk[RecordSize..] == [];
  }
}
