/** Record layout of parse/sched.py: the ctypes field lists of the seven
    sched_trace record kinds, the byte-size arithmetic of `bits_to_bytes` and
    `field_bytes`, and `register_record`, which pads every kind with one-byte
    `c_char` fields up to the fixed record size. */
module Layout {
  import opened Common

  /** RECORD_SIZE: every sched_trace record occupies this many bytes. */
  const RecordSize: nat := 24

  datatype CType = UInt8 | UInt16 | UInt32 | UInt64 | Char

  /** ctypes `sizeof`. */
  function SizeOf(t: CType): nat
  {
    match t
    case UInt8 => 1
    case UInt16 => 2
    case UInt32 => 4
    case UInt64 => 8
    case Char => 1
  }

  /** A ctypes field tuple: `(name, type)` or, for a bitfield, `(name, type, bits)`. */
  datatype Field =
    | Field(name: string, ctype: CType)
    | BitField(name: string, ctype: CType, bits: nat)

  /** No bitfields: the only kind of field the registered records use. */
  predicate Plain(fields: seq<Field>)
  {
    forall i :: 0 <= i < |fields| ==> fields[i].Field?
  }

  /** Bytes taken by the whole-typed fields, bitfields ignored. */
  function SizeSum(fields: seq<Field>): nat
  {
    if fields == [] then 0
    else (if fields[0].Field? then SizeOf(fields[0].ctype) else 0) + SizeSum(fields[1..])
  }

  /** Bits taken by the bitfields. */
  function TotalBits(fields: seq<Field>): nat
  {
    if fields == [] then 0
    else (if fields[0].BitField? then fields[0].bits else 0) + TotalBits(fields[1..])
  }

  lemma {:induction false} SizeSumAppend(a: seq<Field>, b: seq<Field>)
    ensures SizeSum(a + b) == SizeSum(a) + SizeSum(b)
  {
    if a != [] {
      assert (a + b)[0] == a[0];
      assert (a + b)[1..] == a[1..] + b;
      SizeSumAppend(a[1..], b);
    } else {
      assert a + b == b;
    }
  }

  lemma {:induction false} PlainAppend(a: seq<Field>, b: seq<Field>)
    requires Plain(a) && Plain(b)
    ensures Plain(a + b)
  {
  }

  /** `bits_to_bytes`: the fewest whole bytes that hold `bits` bits. */
  function BitsToBytes(bits: nat): (r: nat)
    ensures 8 * r >= bits
    ensures 8 * r < bits + 8
  {
    bits / 8 + (if bits % 8 != 0 then 1 else 0)
  }

  /** Intended size of a field list: whole-typed fields take `sizeof` bytes,
      and every run of consecutive bitfields is rounded up to whole bytes.
      `pending` is the bit count of the run in progress. */
  function PackedFrom(fields: seq<Field>, pending: nat): nat
  {
    if fields == [] then BitsToBytes(pending)
    else match fields[0]
      case BitField(_, _, b) => PackedFrom(fields[1..], pending + b)
      case Field(_, t) => SizeOf(t) + BitsToBytes(pending) + PackedFrom(fields[1..], 0)
  }

  function PackedBytes(fields: seq<Field>): nat
  {
    PackedFrom(fields, 0)
  }

  /** Bits of the run of bitfields that ends the list (0 if it ends with a typed field). */
  function TrailingBits(fields: seq<Field>): nat
  {
    if fields == [] then 0
    else if fields[|fields| - 1].BitField? then
      TrailingBits(fields[..|fields| - 1]) + fields[|fields| - 1].bits
    else 0
  }

  /** `field_bytes`, as written: after rounding the trailing bitfield run up
      to bytes it returns `fbytes + fbits`, adding that run's bit count a
      second time, in bits. */
  method FieldBytes(fields: seq<Field>) returns (r: nat)
    ensures r == PackedBytes(fields) + TrailingBits(fields)
  {
    var fbytes: nat := 0;
    var fbits: nat := 0;
    for i := 0 to |fields|
      invariant fbytes + PackedFrom(fields[i..], fbits) == PackedBytes(fields)
      invariant fbits == TrailingBits(fields[..i])
    {
      assert fields[..i + 1][..i] == fields[..i];
      match fields[i]
      case BitField(_, _, b) =>
        fbits := fbits + b;
      case Field(_, t) =>
        fbytes := fbytes + SizeOf(t);
        fbytes := fbytes + BitsToBytes(fbits);
        fbits := 0;
    }
    assert fields[..|fields|] == fields;
    fbytes := fbytes + BitsToBytes(fbits);
    r := fbytes + fbits;
  }

  lemma {:induction false} PlainPackedFrom(fields: seq<Field>)
    requires Plain(fields)
    ensures PackedFrom(fields, 0) == SizeSum(fields)
  {
    if fields != [] {
      assert fields[0].Field?;
      PlainPackedFrom(fields[1..]);
    }
  }

  lemma {:induction false} PlainTrailingBits(fields: seq<Field>)
    requires Plain(fields)
    ensures TrailingBits(fields) == 0
  {
    if fields != [] {
      assert fields[|fields| - 1].Field?;
    }
  }

  /** On a layout without bitfields `field_bytes` is the sum of the field sizes. */
  lemma PlainFieldBytes(fields: seq<Field>)
    requires Plain(fields)
    ensures PackedBytes(fields) + TrailingBits(fields) == SizeSum(fields)
  {
    PlainPackedFrom(fields);
    PlainTrailingBits(fields);
  }

  /** The corrected size covers every typed byte and every bit. */
  lemma {:induction false} PackedCoversFields(fields: seq<Field>, pending: nat)
    ensures 8 * PackedFrom(fields, pending) >= 8 * SizeSum(fields) + TotalBits(fields) + pending
  {
    if fields != [] {
      match fields[0]
      case BitField(_, _, b) =>
        PackedCoversFields(fields[1..], pending + b);
      case Field(_, t) =>
        PackedCoversFields(fields[1..], 0);
    }
  }

  /** One 3-bit field: `field_bytes` answers 1 + 3 = 4 bytes where 1 is meant. */
  lemma FieldBytesTrailingBitfield()
    ensures var fs := [BitField("flag", UInt8, 3)];
      PackedBytes(fs) == 1 && PackedBytes(fs) + TrailingBits(fs) == 4
  {
    var fs := [BitField("flag", UInt8, 3)];
    assert fs[..0] == [];
    assert fs[1..] == [];
  }

  /** SchedRecord.FIELDS: the 8-byte header common to every record. */
  const HeaderFields: seq<Field> :=
    [Field("type", UInt8), Field("cpu", UInt8), Field("pid", UInt16), Field("job", UInt32)]

  const ParamFields: seq<Field> :=
    [Field("wcet", UInt32), Field("period", UInt32), Field("phase", UInt32),
     Field("partition", UInt8), Field("class", UInt8), Field("level", UInt8)]
  const ReleaseFields: seq<Field> := [Field("when", UInt64), Field("release", UInt64)]
  const CompletionFields: seq<Field> := [Field("when", UInt64), Field("load", UInt64)]
  const WhenFields: seq<Field> := [Field("when", UInt64)]

  /** The sched_trace ids passed to `register_record`. */
  const ParamTag := 2
  const ReleaseTag := 3
  const SwitchToTag := 5
  const SwitchAwayTag := 6
  const CompletionTag := 7
  const BlockTag := 8
  const ResumeTag := 9
  const Tags: set<int> := {2, 3, 5, 6, 7, 8, 9}

  /** The FIELDS list of the record class registered under `tag`. */
  function PayloadFields(tag: int): seq<Field>
    requires tag in Tags
  {
    if tag == ParamTag then ParamFields
    else if tag == ReleaseTag then ReleaseFields
    else if tag == CompletionTag then CompletionFields
    else WhenFields
  }

  /** The `n` padding fields `extra0 .. extra<n-1>`, each one `c_char`. */
  function Padding(n: nat): (r: seq<Field>)
    ensures |r| == n && Plain(r)
  {
    seq(n, i requires 0 <= i => Field("extra" + Decimal(i), Char))
  }

  lemma PaddingSnoc(n: nat)
    ensures Padding(n + 1) == Padding(n) + [Field("extra" + Decimal(n), Char)]
  {
  }

  /** Padding fields take one byte each. */
  lemma {:induction false} PaddingSize(n: nat)
    ensures SizeSum(Padding(n)) == n
  {
    if n > 0 {
      PaddingSnoc(n - 1);
      PaddingSize(n - 1);
      SizeSumAppend(Padding(n - 1), [Field("extra" + Decimal(n - 1), Char)]);
    }
  }

  /** Padding bytes per kind: 1 for Param, 0 for Release and Completion,
      8 for Block, Resume, SwitchTo and SwitchAway. */
  function PadCount(tag: int): nat
    requires tag in Tags
  {
    if tag == ParamTag then 1
    else if tag == ReleaseTag || tag == CompletionTag then 0
    else 8
  }

  /** The complete structure registered for `tag`: header, payload, padding. */
  function RecordLayout(tag: int): seq<Field>
    requires tag in Tags
  {
    HeaderFields + PayloadFields(tag) + Padding(PadCount(tag))
  }

  /** RECORD_SIZE - field_bytes(header) - field_bytes(payload), as `register_record` computes it. */
  function Deficit(payload: seq<Field>): int
  {
    RecordSize as int - (PackedBytes(HeaderFields) + TrailingBits(HeaderFields))
    - (PackedBytes(payload) + TrailingBits(payload))
  }

  /** `range(diff)` is empty for a negative difference. */
  function PadFor(payload: seq<Field>): nat
  {
    if Deficit(payload) > 0 then Deficit(payload) else 0
  }

  /** The structure `register_record` builds for `payload`. */
  function Registered(payload: seq<Field>): seq<Field>
  {
    HeaderFields + payload + Padding(PadFor(payload))
  }

  /** `register_record`: appends `RECORD_SIZE - field_bytes(header) -
      field_bytes(payload)` padding fields (none when that is negative) and
      stores header + payload + padding under `id`. */
  method RegisterRecord(registry: map<int, seq<Field>>, id: int, payload: seq<Field>)
    returns (r: map<int, seq<Field>>)
    ensures r == registry[id := Registered(payload)]
    ensures Plain(payload) && SizeSum(payload) <= RecordSize - 8 ==>
      Plain(r[id]) && SizeSum(r[id]) == RecordSize
  {
    var h := FieldBytes(HeaderFields);
    var p := FieldBytes(payload);
    var diff := RecordSize as int - h - p;
    var fields := payload;
    var d := 0;
    while d < diff
      invariant 0 <= d && (d <= diff || d == 0)
      invariant fields == payload + Padding(d)
    {
      PaddingSnoc(d);
      fields := fields + [Field("extra" + Decimal(d), Char)];
      d := d + 1;
    }
    r := registry[id := HeaderFields + fields];
    ghost var pad := PadFor(payload);
    assert d == pad;
    assert HeaderFields + fields == Registered(payload);
    if Plain(payload) && SizeSum(payload) <= RecordSize - 8 {
      HeaderSize();
      PlainFieldBytes(payload);
      PlainAppend(HeaderFields, payload);
      PlainAppend(HeaderFields + payload, Padding(pad));
      PaddingSize(pad);
      SizeSumAppend(HeaderFields, payload);
      SizeSumAppend(HeaderFields + payload, Padding(pad));
    }
  }

  lemma HeaderSize()
    ensures Plain(HeaderFields)
    ensures SizeSum(HeaderFields) == 8
    ensures PackedBytes(HeaderFields) + TrailingBits(HeaderFields) == 8
  {
    var h := HeaderFields;
    assert h[1..][1..][1..][1..] == [];
    PlainFieldBytes(h);
  }

  lemma PayloadSize(tag: int)
    requires tag in Tags
    ensures Plain(PayloadFields(tag))
    ensures SizeSum(PayloadFields(tag)) + PadCount(tag) == RecordSize - 8
    ensures PackedBytes(PayloadFields(tag)) + TrailingBits(PayloadFields(tag)) == SizeSum(PayloadFields(tag))
  {
    var p := PayloadFields(tag);
    if tag == ParamTag {
      assert p[1..][1..][1..][1..][1..][1..] == [];
    } else if tag == ReleaseTag || tag == CompletionTag {
      assert p[1..][1..] == [];
    } else {
      assert p[1..] == [];
    }
    PlainFieldBytes(p);
  }

  /** Number of fields registered for `tag`, padding included. */
  function Arity(tag: int): nat
    requires tag in Tags
  {
    |HeaderFields| + |PayloadFields(tag)| + PadCount(tag)
  }

  /** Every registered kind is 8 header bytes, its payload and its padding:
      exactly RECORD_SIZE bytes, with no bitfield. */
  lemma LayoutSize(tag: int)
    requires tag in Tags
    ensures Plain(RecordLayout(tag))
    ensures SizeSum(RecordLayout(tag)) == RecordSize
    ensures |RecordLayout(tag)| == Arity(tag)
  {
    HeaderSize();
    PayloadSize(tag);
    PlainAppend(HeaderFields, PayloadFields(tag));
    PlainAppend(HeaderFields + PayloadFields(tag), Padding(PadCount(tag)));
    PaddingSize(PadCount(tag));
    SizeSumAppend(HeaderFields, PayloadFields(tag));
    SizeSumAppend(HeaderFields + PayloadFields(tag), Padding(PadCount(tag)));
  }

  /** The padding `register_record` computes for each registered payload. */
  lemma PadForTag(tag: int)
    requires tag in Tags
    ensures PadFor(PayloadFields(tag)) == PadCount(tag)
    ensures Registered(PayloadFields(tag)) == RecordLayout(tag)
  {
    HeaderSize();
    PayloadSize(tag);
  }

  /** `register_record(tag, <class of tag>)`. */
  method RegisterKind(registry: map<int, seq<Field>>, tag: int) returns (r: map<int, seq<Field>>)
    requires tag in Tags
    ensures r == registry[tag := RecordLayout(tag)]
  {
    PadForTag(tag);
    r := RegisterRecord(registry, tag, PayloadFields(tag));
  }

  /** The seven `register_record` calls at module load: the registry they
      build is RecordLayout on exactly the seven tags. */
  method RegisterAll() returns (registry: map<int, seq<Field>>)
    ensures registry.Keys == Tags
    ensures forall t :: t in Tags ==> registry[t] == RecordLayout(t)
  {
    registry := map[];
    registry := RegisterKind(registry, ParamTag);
    registry := RegisterKind(registry, ReleaseTag);
    registry := RegisterKind(registry, SwitchToTag);
    registry := RegisterKind(registry, SwitchAwayTag);
    registry := RegisterKind(registry, CompletionTag);
    registry := RegisterKind(registry, BlockTag);
    registry := RegisterKind(registry, ResumeTag);
  }
}
