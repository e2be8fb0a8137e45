/**
 The transcript the entropy collector hands to the wallet core: its sources and bitmaps, the rules a
 reader enforces (docs/mnemonic-entropy.md), and its encoding.
 */
module EntropyTranscript {
  import opened Bytes

  datatype Source = NoSource | HardwareRng | Touch | Imu | Camera | Microphone

  function Bit(s: Source): byte {
    match s
    case NoSource => 0
    case HardwareRng => 1
    case Touch => 2
    case Imu => 4
    case Camera => 8
    case Microphone => 16
  }

  predicate IsAuxiliary(s: Source) {
    s != NoSource && s != HardwareRng
  }

  /** A bitmap of sources. */
  datatype Bits = Bits(hardware: bool, touch: bool, imu: bool, camera: bool, microphone: bool) {
    predicate Has(s: Source) {
      match s
      case NoSource => false
      case HardwareRng => hardware
      case Touch => touch
      case Imu => imu
      case Camera => camera
      case Microphone => microphone
    }

    function With(s: Source): Bits {
      match s
      case NoSource => this
      case HardwareRng => this.(hardware := true)
      case Touch => this.(touch := true)
      case Imu => this.(imu := true)
      case Camera => this.(camera := true)
      case Microphone => this.(microphone := true)
    }

    function Or(b: Bits): Bits {
      Bits(hardware || b.hardware, touch || b.touch, imu || b.imu, camera || b.camera, microphone || b.microphone)
    }

    function Minus(b: Bits): Bits {
      Bits(hardware && !b.hardware, touch && !b.touch, imu && !b.imu, camera && !b.camera, microphone && !b.microphone)
    }

    function And(b: Bits): Bits {
      Bits(hardware && b.hardware, touch && b.touch, imu && b.imu, camera && b.camera, microphone && b.microphone)
    }

    /** The bits strictly below a source's bit. */
    function Below(s: Source): Bits {
      Bits(hardware && 1 < Bit(s), touch && 2 < Bit(s), imu && 4 < Bit(s), camera && 8 < Bit(s), microphone && 16 < Bit(s))
    }

    /** The bits under APP_ENTROPY_SOURCE_AUXILIARY_MASK. */
    function Auxiliary(): Bits {
      this.(hardware := false)
    }

    function Count(): nat {
      (if hardware then 1 else 0) + (if touch then 1 else 0) + (if imu then 1 else 0)
      + (if camera then 1 else 0) + (if microphone then 1 else 0)
    }

    function ToByte(): byte {
      (if hardware then 1 else 0) + (if touch then 2 else 0) + (if imu then 4 else 0)
      + (if camera then 8 else 0) + (if microphone then 16 else 0)
    }
  }

  const NO_BITS := Bits(false, false, false, false, false)

  /** The operations on bitmaps are those on sets of sources. */
  lemma BitsAreSets(a: Bits, b: Bits, s: Source)
    ensures a.Or(b).Has(s) <==> a.Has(s) || b.Has(s)
    ensures a.And(b).Has(s) <==> a.Has(s) && b.Has(s)
    ensures a.Minus(b).Has(s) <==> a.Has(s) && !b.Has(s)
    ensures a.Auxiliary().Has(s) <==> a.Has(s) && s in {Touch, Imu, Camera, Microphone}
    ensures !NO_BITS.Has(s)
  {
    match s
    case NoSource =>
    case HardwareRng =>
    case Touch =>
    case Imu =>
    case Camera =>
    case Microphone =>
  }

  /** Adding a source, and keeping those below it. */
  lemma BitsOfOne(a: Bits, s: Source, t: Source)
    ensures a.With(t).Has(s) <==> a.Has(s) || (s == t && t != NoSource)
    ensures a.Below(t).Has(s) <==> a.Has(s) && Bit(s) < Bit(t)
    ensures IsAuxiliary(s) <==> s in {Touch, Imu, Camera, Microphone}
  {
    assert t.NoSource? || t.HardwareRng? || t.Touch? || t.Imu? || t.Camera? || t.Microphone?;
    match s
    case NoSource =>
    case HardwareRng =>
    case Touch =>
    case Imu =>
    case Camera =>
    case Microphone =>
  }

  function FromByte(b: byte): Option<Bits> {
    if b >= 32 then None
    else Some(Bits(b % 2 == 1, b / 2 % 2 == 1, b / 4 % 2 == 1, b / 8 % 2 == 1, b / 16 == 1))
  }

  lemma BitsRoundTrip(bits: Bits)
    ensures FromByte(bits.ToByte()) == Some(bits)
  {
  }

  lemma BitsCanonical(b: byte)
    requires FromByte(b).Some?
    ensures FromByte(b).value.ToByte() == b
  {
  }

  function SourceFromByte(b: byte): Source {
    if b == 2 then Touch else if b == 4 then Imu else if b == 8 then Camera else if b == 16 then Microphone
    else if b == 1 then HardwareRng else NoSource
  }

  const IN_BIT_ORDER: seq<Source> := [HardwareRng, Touch, Imu, Camera, Microphone]

  /** The set bits among the first k, in bit order. */
  function MembersUpTo(bits: Bits, k: nat): seq<Source>
    requires k <= 5
  {
    if k == 0 then []
    else MembersUpTo(bits, k - 1) + if bits.Has(IN_BIT_ORDER[k - 1]) then [IN_BIT_ORDER[k - 1]] else []
  }

  function Members(bits: Bits): seq<Source> {
    MembersUpTo(bits, 5)
  }

  lemma {:induction false} MembersUpToAre(bits: Bits, k: nat)
    requires k <= 5
    ensures Ascending(MembersUpTo(bits, k))
    ensures forall s :: s in MembersUpTo(bits, k) <==> bits.Has(s) && s in IN_BIT_ORDER[..k]
  {
    if k > 0 {
      MembersUpToAre(bits, k - 1);
      var s := IN_BIT_ORDER[k - 1];
      assert IN_BIT_ORDER[..k] == IN_BIT_ORDER[..k - 1] + [s];
      assert forall t :: t in IN_BIT_ORDER[..k - 1] ==> Bit(t) < Bit(s);
    }
  }

  /** The members of a bitmap are its sources in bit order, and POPCOUNT is their number. */
  lemma MembersAre(bits: Bits)
    ensures Ascending(Members(bits))
    ensures forall s :: s in Members(bits) <==> bits.Has(s)
    ensures |Members(bits)| == bits.Count()
  {
    MembersUpToAre(bits, 5);
    assert IN_BIT_ORDER[..5] == IN_BIT_ORDER;
    assert IN_BIT_ORDER[0] == HardwareRng && IN_BIT_ORDER[1] == Touch && IN_BIT_ORDER[2] == Imu
           && IN_BIT_ORDER[3] == Camera && IN_BIT_ORDER[4] == Microphone;
    assert forall s :: s != NoSource ==> s in IN_BIT_ORDER;
    CountMembers(bits);
  }

  lemma CountMembers(bits: Bits)
    ensures |Members(bits)| == bits.Count()
  {
    assert |MembersUpTo(bits, 1)| == if bits.hardware then 1 else 0;
    assert |MembersUpTo(bits, 2)| == |MembersUpTo(bits, 1)| + if bits.touch then 1 else 0;
    assert |MembersUpTo(bits, 3)| == |MembersUpTo(bits, 2)| + if bits.imu then 1 else 0;
    assert |MembersUpTo(bits, 4)| == |MembersUpTo(bits, 3)| + if bits.camera then 1 else 0;
    assert |MembersUpTo(bits, 5)| == |MembersUpTo(bits, 4)| + if bits.microphone then 1 else 0;
  }

  predicate Ascending(m: seq<Source>) {
    forall i, j :: 0 <= i < j < |m| ==> Bit(m[i]) < Bit(m[j])
  }

  /** The last of a strictly ordered list is its largest, and dropping it drops just that source. */
  lemma LastIsLargest(a: seq<Source>)
    requires Ascending(a) && a != []
    ensures forall s :: s in a ==> Bit(s) <= Bit(a[|a| - 1])
    ensures Ascending(a[..|a| - 1])
    ensures forall s :: s in a[..|a| - 1] <==> s in a && s != a[|a| - 1]
  {
  }

  lemma BitInjective(s: Source, t: Source)
    requires Bit(s) == Bit(t)
    ensures s == t
  {
  }

  /** A strictly ordered list is determined by its members. */
  lemma {:induction false} AscendingUnique(a: seq<Source>, b: seq<Source>)
    requires Ascending(a) && Ascending(b) && (forall s :: s in a <==> s in b)
    ensures a == b
  {
    assert b != [] ==> b[0] in a;
    if a != [] {
      assert a[|a| - 1] in b;
      LastIsLargest(a);
      LastIsLargest(b);
      assert b[|b| - 1] in a;
      BitInjective(a[|a| - 1], b[|b| - 1]);
      var a', b' := a[..|a| - 1], b[..|b| - 1];
      forall s ensures s in a' <==> s in b' {
        assert s in a' <==> s in a && s != a[|a| - 1];
        assert s in b' <==> s in b && s != b[|b| - 1];
      }
      AscendingUnique(a', b');
      assert a == a[..|a| - 1] + [a[|a| - 1]] && b == b[..|b| - 1] + [b[|b| - 1]];
    }
  }

  datatype Record = Record(source: Source, units: word, durationMs: word, digest: seq<byte>)

  datatype Transcript = Transcript(words: byte, selected: Bits, completed: Bits, skipped: Bits, records: seq<Record>)

  function SourcesOf(records: seq<Record>): (m: seq<Source>)
    ensures |m| == |records| && forall i :: 0 <= i < |m| ==> m[i] == records[i].source
  {
    seq(|records|, i requires 0 <= i < |records| => records[i].source)
  }

  /** The rules of the format, as its documentation states them. */
  predicate Wellformed(t: Transcript) {
    && (t.words == 12 || t.words == 18 || t.words == 24)
    && t.selected.hardware
    && !t.completed.hardware && !t.skipped.hardware
    && (forall s :: !(t.completed.Has(s) && t.skipped.Has(s)))
    && (forall s :: IsAuxiliary(s) ==> (t.selected.Has(s) <==> t.completed.Has(s) || t.skipped.Has(s)))
    && Ascending(SourcesOf(t.records))
    && (forall s :: s in SourcesOf(t.records) <==> t.completed.Has(s))
    && (forall r :: r in t.records ==> |r.digest| == 32)
  }

  /** So a transcript carries one record per completed source, at most four. */
  lemma RecordCount(t: Transcript)
    requires Wellformed(t)
    ensures SourcesOf(t.records) == Members(t.completed) && |t.records| == t.completed.Count() <= 4
  {
    MembersAre(t.completed);
    AscendingUnique(SourcesOf(t.records), Members(t.completed));
  }

  // -------------------------------------------------------------------- encoding

  const VERSION: byte := 1
  const MAGIC: seq<byte> := [0x4f, 0x53, 0x45, 0x4d]
  const HEADER_SIZE := 10
  const RECORD_SIZE := 41
  const MAX_SIZE := 174

  function EncodeRecord(r: Record): (b: seq<byte>)
    requires |r.digest| == 32
    ensures |b| == RECORD_SIZE
  {
    [Bit(r.source)] + Le32(r.units) + Le32(r.durationMs) + r.digest
  }

  function EncodeRecords(rs: seq<Record>): (b: seq<byte>)
    requires forall r :: r in rs ==> |r.digest| == 32
    ensures |b| == RECORD_SIZE * |rs|
  {
    if rs == [] then [] else EncodeRecords(rs[..|rs| - 1]) + EncodeRecord(rs[|rs| - 1])
  }

  function EncodeHeader(t: Transcript, count: byte): (b: seq<byte>)
    ensures |b| == HEADER_SIZE
  {
    MAGIC + [VERSION, t.words, t.selected.ToByte(), t.completed.ToByte(), t.skipped.ToByte(), count]
  }

  function Encode(t: Transcript): (b: seq<byte>)
    requires |t.records| < 256 && forall r :: r in t.records ==> |r.digest| == 32
    ensures |b| == HEADER_SIZE + RECORD_SIZE * |t.records|
  {
    EncodeHeader(t, |t.records|) + EncodeRecords(t.records)
  }

  function DecodeRecord(b: seq<byte>): Record
    requires |b| == RECORD_SIZE
  {
    Record(SourceFromByte(b[0]), FromLe32(b[1..5]), FromLe32(b[5..9]), b[9..])
  }

  /** Records read back to front; None when a source byte names no source. */
  function DecodeRecords(b: seq<byte>, count: nat): (rs: Option<seq<Record>>)
    requires |b| == RECORD_SIZE * count
    ensures rs.Some? ==> |rs.value| == count && forall r :: r in rs.value ==> |r.digest| == 32
    decreases count
  {
    if count == 0 then Some([])
    else
      var last := DecodeRecord(b[RECORD_SIZE * (count - 1)..]);
      if last.source == NoSource then None
      else match DecodeRecords(b[..RECORD_SIZE * (count - 1)], count - 1)
           case None => None
           case Some(rs) => Some(rs + [last])
  }

  /** A reader that enforces every rule. */
  function Decode(b: seq<byte>): Option<Transcript> {
    if |b| < HEADER_SIZE || b[..4] != MAGIC || b[4] != VERSION || |b| != HEADER_SIZE + RECORD_SIZE * b[9] as int then None
    else match (FromByte(b[6]), FromByte(b[7]), FromByte(b[8]), DecodeRecords(b[HEADER_SIZE..], b[9]))
         case (Some(selected), Some(completed), Some(skipped), Some(records)) =>
           var t := Transcript(b[5], selected, completed, skipped, records);
           if Wellformed(t) then Some(t) else None
         case _ => None
  }

  lemma RecordRoundTrip(r: Record)
    requires |r.digest| == 32
    ensures DecodeRecord(EncodeRecord(r)) == r
  {
    var b := EncodeRecord(r);
    assert b[1..5] == Le32(r.units) && b[5..9] == Le32(r.durationMs) && b[9..] == r.digest;
    Le32RoundTrip(r.units);
    Le32RoundTrip(r.durationMs);
  }

  lemma RecordCanonical(b: seq<byte>)
    requires |b| == RECORD_SIZE && DecodeRecord(b).source != NoSource
    ensures EncodeRecord(DecodeRecord(b)) == b
  {
    Le32Canonical(b[1..5]);
    Le32Canonical(b[5..9]);
    assert b == [b[0]] + b[1..5] + b[5..9] + b[9..];
  }

  lemma {:induction false} RecordsRoundTrip(rs: seq<Record>)
    requires forall r :: r in rs ==> |r.digest| == 32 && r.source != NoSource
    ensures DecodeRecords(EncodeRecords(rs), |rs|) == Some(rs)
  {
    if rs != [] {
      var n := |rs| - 1;
      var b := EncodeRecords(rs);
      RecordsRoundTrip(rs[..n]);
      RecordRoundTrip(rs[n]);
      assert b[RECORD_SIZE * n..] == EncodeRecord(rs[n]) && b[..RECORD_SIZE * n] == EncodeRecords(rs[..n]);
      assert rs == rs[..n] + [rs[n]];
    }
  }

  lemma {:induction false} RecordsCanonical(b: seq<byte>, count: nat)
    requires |b| == RECORD_SIZE * count && DecodeRecords(b, count).Some?
    ensures EncodeRecords(DecodeRecords(b, count).value) == b
  {
    if count > 0 {
      var front, back := b[..RECORD_SIZE * (count - 1)], b[RECORD_SIZE * (count - 1)..];
      RecordsCanonical(front, count - 1);
      RecordCanonical(back);
      var rs := DecodeRecords(b, count).value;
      assert rs == DecodeRecords(front, count - 1).value + [DecodeRecord(back)];
      assert rs[..count - 1] == DecodeRecords(front, count - 1).value;
      assert b == front + back;
    }
  }

  /** Where the header's fields are. */
  lemma Layout(t: Transcript)
    requires |t.records| <= 4 && forall r :: r in t.records ==> |r.digest| == 32
    ensures var b := Encode(t);
            && b[..4] == ['O' as int, 'S' as int, 'E' as int, 'M' as int] && b[4] == 1 && b[5] == t.words
            && b[6] == t.selected.ToByte() && b[7] == t.completed.ToByte() && b[8] == t.skipped.ToByte()
            && b[9] == |t.records| && b[10..] == EncodeRecords(t.records)
  {
  }

  lemma SourcesAreReal(t: Transcript)
    requires Wellformed(t)
    ensures forall r :: r in t.records ==> |r.digest| == 32 && r.source != NoSource
  {
    forall i | 0 <= i < |t.records| ensures t.records[i].source != NoSource {
      assert SourcesOf(t.records)[i] in SourcesOf(t.records);
    }
  }

  /** Every transcript that obeys the rules fits the buffer and reads back as itself. */
  lemma TranscriptRoundTrip(t: Transcript)
    requires Wellformed(t)
    ensures |t.records| <= 4 && |Encode(t)| == 10 + 41 * |t.records| <= MAX_SIZE
    ensures Decode(Encode(t)) == Some(t)
  {
    RecordCount(t);
    SourcesAreReal(t);
    Layout(t);
    BitsRoundTrip(t.selected);
    BitsRoundTrip(t.completed);
    BitsRoundTrip(t.skipped);
    RecordsRoundTrip(t.records);
  }

  /** And nothing else is accepted: what the reader accepts is the encoding of what it returns. */
  lemma TranscriptCanonical(b: seq<byte>)
    requires Decode(b).Some?
    ensures Wellformed(Decode(b).value) && |Decode(b).value.records| <= 4 && Encode(Decode(b).value) == b
  {
    var t := Decode(b).value;
    RecordCount(t);
    BitsCanonical(b[6]);
    BitsCanonical(b[7]);
    BitsCanonical(b[8]);
    RecordsCanonical(b[HEADER_SIZE..], b[9]);
    Reassemble(b, t);
  }

  lemma Reassemble(b: seq<byte>, t: Transcript)
    requires |t.records| < 256 && (forall r :: r in t.records ==> |r.digest| == 32)
    requires |b| >= HEADER_SIZE && b[..4] == MAGIC && b[4] == VERSION && b[5] == t.words && b[6] == t.selected.ToByte()
    requires b[7] == t.completed.ToByte() && b[8] == t.skipped.ToByte() && b[9] == |t.records|
    requires b[HEADER_SIZE..] == EncodeRecords(t.records)
    ensures Encode(t) == b
  {
  }
}
