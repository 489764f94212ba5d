/** The seven sched_trace record kinds of parse/sched.py as one tagged
    datatype, and their little-endian packed byte form. Decoding follows the
    registered layout field by field, as the ctypes structure built by
    `register_record` does (`_pack_ = 1`, little-endian). */
module Records {
  import opened Common
  import opened Layout

  /** SchedRecord.FIELDS: `type` u8, `cpu` u8, `pid` u16, `job` u32. */
  datatype Header = Header(kind: nat, cpu: nat, pid: nat, job: nat)

  /** The payload of each record class. */
  datatype Body =
    | Param(wcet: nat, period: nat, phase: nat, partition: nat, taskClass: nat, level: nat)
    | Release(when: nat, release: nat)
    | Completion(when: nat, load: nat)
    | Block(when: nat)
    | Resume(when: nat)
    | SwitchTo(when: nat)
    | SwitchAway(when: nat)

  datatype Record = Record(hdr: Header, body: Body)

  /** `get_time` in `read_data`: the record's `when`, or 0 for a record without one. */
  function Time(r: Record): int
  {
    if r.body.Param? then 0 else r.body.when
  }

  /** The sched_trace id each kind is registered under. */
  function TagOf(b: Body): (t: int)
    ensures t in Tags
  {
    match b
    case Param(_, _, _, _, _, _) => ParamTag
    case Release(_, _) => ReleaseTag
    case Completion(_, _) => CompletionTag
    case Block(_) => BlockTag
    case Resume(_) => ResumeTag
    case SwitchTo(_) => SwitchToTag
    case SwitchAway(_) => SwitchAwayTag
  }

  function Pow256(n: nat): (p: nat)
    ensures p >= 1
  {
    if n == 0 then 1 else 256 * Pow256(n - 1)
  }

  /** Unsigned little-endian value of a byte string. */
  function LeValue(s: seq<byte>): (v: nat)
    ensures v < Pow256(|s|)
  {
    if s == [] then 0
    else
      var rest := LeValue(s[1..]);
      assert s[0] as nat + 256 * rest <= 255 + 256 * (Pow256(|s| - 1) - 1);
      s[0] as nat + 256 * rest
  }

  /** The `n` little-endian bytes of `v` (higher bytes of `v` dropped). */
  function LeBytes(v: nat, n: nat): (s: seq<byte>)
    ensures |s| == n
  {
    if n == 0 then [] else [(v % 256) as byte] + LeBytes(v / 256, n - 1)
  }

  lemma {:induction false} LeRoundTrip(v: nat, n: nat)
    requires v < Pow256(n)
    ensures LeValue(LeBytes(v, n)) == v
  {
    if n > 0 {
      var s := LeBytes(v, n);
      assert s[1..] == LeBytes(v / 256, n - 1);
      LeRoundTrip(v / 256, n - 1);
    }
  }

  lemma {:induction false} LeBytesOfValue(s: seq<byte>)
    ensures LeBytes(LeValue(s), |s|) == s
  {
    if s != [] {
      var v := LeValue(s);
      var rest := LeValue(s[1..]);
      assert v == s[0] as nat + 256 * rest;
      assert v % 256 == s[0] as nat;
      assert v / 256 == rest;
      LeBytesOfValue(s[1..]);
    }
  }

  /** Each value fits the width of its field. */
  predicate Fits(layout: seq<Field>, vals: seq<nat>)
    requires Plain(layout) && |vals| == |layout|
  {
    forall i :: 0 <= i < |vals| ==> vals[i] < Pow256(SizeOf(layout[i].ctype))
  }

  /** Read the fields of a packed structure one after the other. */
  function DecodeFields(layout: seq<Field>, bytes: seq<byte>): (vals: seq<nat>)
    requires Plain(layout) && SizeSum(layout) <= |bytes|
    ensures |vals| == |layout|
  {
    if layout == [] then []
    else
      var k := SizeOf(layout[0].ctype);
      [LeValue(bytes[..k])] + DecodeFields(layout[1..], bytes[k..])
  }

  /** Write the fields of a packed structure one after the other. */
  function EncodeFields(layout: seq<Field>, vals: seq<nat>): (bytes: seq<byte>)
    requires Plain(layout) && |vals| == |layout|
    ensures |bytes| == SizeSum(layout)
  {
    if layout == [] then []
    else LeBytes(vals[0], SizeOf(layout[0].ctype)) + EncodeFields(layout[1..], vals[1..])
  }

  lemma {:induction false} FieldsRoundTrip(layout: seq<Field>, vals: seq<nat>)
    requires Plain(layout) && |vals| == |layout| && Fits(layout, vals)
    ensures DecodeFields(layout, EncodeFields(layout, vals)) == vals
  {
    if layout != [] {
      var k := SizeOf(layout[0].ctype);
      var e := EncodeFields(layout, vals);
      assert e[..k] == LeBytes(vals[0], k);
      assert e[k..] == EncodeFields(layout[1..], vals[1..]);
      LeRoundTrip(vals[0], k);
      assert Fits(layout[1..], vals[1..]) by {
        forall i | 0 <= i < |vals| - 1 ensures vals[1..][i] < Pow256(SizeOf(layout[1..][i].ctype)) {
          assert vals[1..][i] == vals[i + 1];
        }
      }
      FieldsRoundTrip(layout[1..], vals[1..]);
    }
  }

  lemma {:induction false} FieldsReencode(layout: seq<Field>, bytes: seq<byte>)
    requires Plain(layout) && SizeSum(layout) <= |bytes|
    ensures EncodeFields(layout, DecodeFields(layout, bytes)) == bytes[..SizeSum(layout)]
  {
    if layout != [] {
      var k := SizeOf(layout[0].ctype);
      var vals := DecodeFields(layout, bytes);
      assert vals[1..] == DecodeFields(layout[1..], bytes[k..]);
      LeBytesOfValue(bytes[..k]);
      FieldsReencode(layout[1..], bytes[k..]);
      assert bytes[..SizeSum(layout)] == bytes[..k] + bytes[k..][..SizeSum(layout[1..])];
    }
  }

  lemma {:induction false} DecodedFits(layout: seq<Field>, bytes: seq<byte>)
    requires Plain(layout) && SizeSum(layout) <= |bytes|
    ensures Fits(layout, DecodeFields(layout, bytes))
  {
    if layout != [] {
      var k := SizeOf(layout[0].ctype);
      var vals := DecodeFields(layout, bytes);
      DecodedFits(layout[1..], bytes[k..]);
      forall i | 0 <= i < |vals| ensures vals[i] < Pow256(SizeOf(layout[i].ctype)) {
        if i > 0 {
          assert vals[i] == DecodeFields(layout[1..], bytes[k..])[i - 1];
        }
      }
    }
  }

  lemma {:induction false} DecodeFieldsAppend(a: seq<Field>, b: seq<Field>, bytes: seq<byte>)
    requires Plain(a) && Plain(b) && SizeSum(a) + SizeSum(b) <= |bytes|
    ensures Plain(a + b) && SizeSum(a + b) <= |bytes|
    ensures DecodeFields(a + b, bytes) == DecodeFields(a, bytes) + DecodeFields(b, bytes[SizeSum(a)..])
  {
    SizeSumAppend(a, b);
    PlainAppend(a, b);
    if a != [] {
      var k := SizeOf(a[0].ctype);
      var rest := bytes[k..];
      assert (a + b)[0] == a[0];
      assert (a + b)[1..] == a[1..] + b;
      assert SizeSum(a) == k + SizeSum(a[1..]);
      DecodeFieldsAppend(a[1..], b, rest);
      assert rest[SizeSum(a[1..])..] == bytes[SizeSum(a)..];
      var x, p, q := [LeValue(bytes[..k])], DecodeFields(a[1..], rest), DecodeFields(b, bytes[SizeSum(a)..]);
      assert DecodeFields(a + b, bytes) == x + (p + q);
      assert DecodeFields(a, bytes) == x + p;
      ConcatAssoc(x, p, q);
    } else {
      assert a + b == b;
    }
  }

  lemma ConcatAssoc<T>(x: seq<T>, y: seq<T>, z: seq<T>)
    ensures x + (y + z) == (x + y) + z
  {
  }

  lemma {:induction false} EncodeFieldsAppend(a: seq<Field>, b: seq<Field>, va: seq<nat>, vb: seq<nat>)
    requires Plain(a) && Plain(b) && |va| == |a| && |vb| == |b|
    ensures Plain(a + b)
    ensures EncodeFields(a + b, va + vb) == EncodeFields(a, va) + EncodeFields(b, vb)
  {
    PlainAppend(a, b);
    if a != [] {
      var k := SizeOf(a[0].ctype);
      assert (a + b)[0] == a[0];
      assert (a + b)[1..] == a[1..] + b;
      assert (va + vb)[0] == va[0];
      assert (va + vb)[1..] == va[1..] + vb;
      EncodeFieldsAppend(a[1..], b, va[1..], vb);
      assert EncodeFields(a + b, va + vb) == LeBytes(va[0], k) + EncodeFields(a[1..] + b, va[1..] + vb);
    } else {
      assert a + b == b;
      assert va + vb == vb;
    }
  }

  /** The payload values of a body, in FIELDS order. */
  function PayloadValues(b: Body): (vals: seq<nat>)
    ensures |vals| == |PayloadFields(TagOf(b))|
  {
    match b
    case Param(w, p, ph, part, c, l) => [w, p, ph, part, c, l]
    case Release(w, rel) => [w, rel]
    case Completion(w, l) => [w, l]
    case Block(w) => [w]
    case Resume(w) => [w]
    case SwitchTo(w) => [w]
    case SwitchAway(w) => [w]
  }

  function Zeros(n: nat): (z: seq<nat>)
    ensures |z| == n && forall i :: 0 <= i < n ==> z[i] == 0
  {
    seq(n, _ => 0)
  }

  /** All field values of a record, padding written as zero bytes. */
  function FieldValues(r: Record): (vals: seq<nat>)
    ensures |vals| == Arity(TagOf(r.body))
  {
    [r.hdr.kind, r.hdr.cpu, r.hdr.pid, r.hdr.job] + PayloadValues(r.body)
    + Zeros(PadCount(TagOf(r.body)))
  }

  /** A record the trace format can hold: its `type` byte is its kind's tag
      and every field fits its ctypes width. */
  predicate WellFormed(r: Record)
  {
    var t := TagOf(r.body);
    LayoutSize(t);
    r.hdr.kind == t && Fits(RecordLayout(t), FieldValues(r))
  }

  /** `struct.unpack_from('b', data)[0]`: byte 0 read as a signed char. */
  function SignedByte(b: byte): (v: int)
    ensures -128 <= v < 128
    ensures v >= 0 <==> b < 128
  {
    if b < 128 then b as int else b as int - 256
  }

  /** The record object built from the field values of a structure of kind `tag`. */
  function Build(tag: int, vals: seq<nat>): Record
    requires tag in Tags && |vals| == Arity(tag)
  {
    var h := Header(vals[0], vals[1], vals[2], vals[3]);
    if tag == ParamTag then Record(h, Param(vals[4], vals[5], vals[6], vals[7], vals[8], vals[9]))
    else if tag == ReleaseTag then Record(h, Release(vals[4], vals[5]))
    else if tag == CompletionTag then Record(h, Completion(vals[4], vals[5]))
    else if tag == BlockTag then Record(h, Block(vals[4]))
    else if tag == ResumeTag then Record(h, Resume(vals[4]))
    else if tag == SwitchToTag then Record(h, SwitchTo(vals[4]))
    else Record(h, SwitchAway(vals[4]))
  }

  /** One 24-byte slot of a trace file: None when its signed tag byte is not
      a registered id (`if type_num not in record_map: continue`). */
  function Decode(chunk: seq<byte>): Option<Record>
    requires |chunk| == RecordSize
  {
    var tag := SignedByte(chunk[0]);
    if tag !in Tags then None
    else
      LayoutSize(tag);
      Some(Build(tag, DecodeFields(RecordLayout(tag), chunk)))
  }

  /** The 24 bytes the tracer writes for a record. */
  function Encode(r: Record): (bytes: seq<byte>)
    ensures |bytes| == RecordSize
  {
    LayoutSize(TagOf(r.body));
    EncodeFields(RecordLayout(TagOf(r.body)), FieldValues(r))
  }

  lemma BuildFieldValues(r: Record)
    ensures Build(TagOf(r.body), FieldValues(r)) == r
  {
    var v := FieldValues(r);
    assert v[..4] == [r.hdr.kind, r.hdr.cpu, r.hdr.pid, r.hdr.job];
    match r.body
    case Param(w, p, ph, part, c, l) =>
      assert v[4..10] == [w, p, ph, part, c, l];
    case Release(w, rel) =>
      assert v[4..6] == [w, rel];
    case Completion(w, l) =>
      assert v[4..6] == [w, l];
    case Block(w) =>
      assert v[4] == w;
    case Resume(w) =>
      assert v[4] == w;
    case SwitchTo(w) =>
      assert v[4] == w;
    case SwitchAway(w) =>
      assert v[4] == w;
  }

  lemma {:induction false} EncodeFirstByte(layout: seq<Field>, vals: seq<nat>)
    requires Plain(layout) && |vals| == |layout| && layout != []
    requires SizeOf(layout[0].ctype) == 1
    ensures EncodeFields(layout, vals)[0] as nat == vals[0] % 256
  {
  }

  /** Decoding the bytes the encoder wrote gives back every field value. */
  lemma DecodeEncode(r: Record)
    requires WellFormed(r)
    ensures Decode(Encode(r)) == Some(r)
  {
    var t := TagOf(r.body);
    LayoutSize(t);
    var layout := RecordLayout(t);
    var vals := FieldValues(r);
    var e := Encode(r);
    assert layout[0] == Field("type", UInt8);
    EncodeFirstByte(layout, vals);
    assert vals[0] < Pow256(1);
    assert e[0] as int == t;
    FieldsRoundTrip(layout, vals);
    BuildFieldValues(r);
  }

  /** Header and payload fields of a kind, without its padding. */
  function DataLayout(tag: int): seq<Field>
    requires tag in Tags
  {
    HeaderFields + PayloadFields(tag)
  }

  lemma DataLayoutSize(tag: int)
    requires tag in Tags
    ensures Plain(DataLayout(tag))
    ensures SizeSum(DataLayout(tag)) == RecordSize - PadCount(tag)
    ensures RecordLayout(tag) == DataLayout(tag) + Padding(PadCount(tag))
  {
    HeaderSize();
    PayloadSize(tag);
    PlainAppend(HeaderFields, PayloadFields(tag));
    SizeSumAppend(HeaderFields, PayloadFields(tag));
  }

  /** The record built from decoded values has the kind it was built as, and
      its own field values are the decoded ones with the padding zeroed. */
  lemma BuildValues(tag: int, vals: seq<nat>)
    requires tag in Tags && |vals| == Arity(tag)
    ensures TagOf(Build(tag, vals).body) == tag
    ensures FieldValues(Build(tag, vals)) == vals[..Arity(tag) - PadCount(tag)] + Zeros(PadCount(tag))
  {
    var r := Build(tag, vals);
    var h := [vals[0], vals[1], vals[2], vals[3]];
    assert [r.hdr.kind, r.hdr.cpu, r.hdr.pid, r.hdr.job] == h;
    if tag == ParamTag {
      assert vals[..10] == h + [vals[4], vals[5], vals[6], vals[7], vals[8], vals[9]];
    } else if tag == ReleaseTag || tag == CompletionTag {
      assert vals[..6] == h + [vals[4], vals[5]];
    } else {
      assert vals[..5] == h + [vals[4]];
    }
  }

  lemma DecodeFirst(layout: seq<Field>, bytes: seq<byte>)
    requires Plain(layout) && SizeSum(layout) <= |bytes| && layout != []
    requires SizeOf(layout[0].ctype) == 1
    ensures DecodeFields(layout, bytes)[0] == bytes[0] as nat
  {
    assert bytes[..1][1..] == [];
  }

  /** A slot that decodes holds its tag unsigned in byte 0, and the record's
      `type` field is that tag. */
  lemma DecodedKind(chunk: seq<byte>)
    requires |chunk| == RecordSize && Decode(chunk).Some?
    ensures SignedByte(chunk[0]) == chunk[0] as int
    ensures Decode(chunk).value.hdr.kind == chunk[0] as int
  {
    var tag := SignedByte(chunk[0]);
    LayoutSize(tag);
    DataLayoutSize(tag);
    var layout := RecordLayout(tag);
    assert layout[0] == HeaderFields[0];
    DecodeFirst(layout, chunk);
  }

  /** Every record that decodes is well formed, and re-encoding it gives back
      the slot's bytes except the padding bytes, which decoding skips. */
  lemma EncodeDecode(chunk: seq<byte>)
    requires |chunk| == RecordSize && Decode(chunk).Some?
    ensures WellFormed(Decode(chunk).value)
    ensures var r := Decode(chunk).value;
      var k := RecordSize - PadCount(TagOf(r.body));
      Encode(r)[..k] == chunk[..k]
  {
    var tag := SignedByte(chunk[0]);
    LayoutSize(tag);
    DataLayoutSize(tag);
    var data := DataLayout(tag);
    var p := PadCount(tag);
    var pad := Padding(p);
    PaddingSize(p);
    var layout := RecordLayout(tag);
    var vals := DecodeFields(layout, chunk);
    var r := Build(tag, vals);
    assert Decode(chunk) == Some(r);
    BuildValues(tag, vals);
    DecodedKind(chunk);
    DecodeFieldsAppend(data, pad, chunk);
    var dv := DecodeFields(data, chunk);
    assert vals[..|data|] == dv;
    var fv := FieldValues(r);
    assert fv == dv + Zeros(p);
    DecodedFits(layout, chunk);
    assert Fits(layout, fv) by {
      forall i | 0 <= i < |fv| ensures fv[i] < Pow256(SizeOf(layout[i].ctype)) {
        if i < |data| {
          assert fv[i] == vals[i];
        }
      }
    }
    EncodeFieldsAppend(data, pad, dv, Zeros(p));
    FieldsReencode(data, chunk);
  }
}
