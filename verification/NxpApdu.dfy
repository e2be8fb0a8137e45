/**
 The bytes of the commands, after the builders and the session wrapping in src/security/nxp/device.c,
 and the reader a chip needs: one-byte TLVs, and the short command cases of section 5.1 of ISO/IEC 7816-4:2005.
 */
module NxpApdu {
  import opened Bytes
  import opened NxpChip
  import opened NxpDevice

  const ALLOW_READ_REQUIRE_SM: word := 0x0022_0000
  const MAX_DATA := 110

  function Tlv(tag: byte, value: seq<byte>): seq<byte> {
    [tag, |value| % 256] + value
  }

  function ObjectTlv(id: word): seq<byte> {
    Tlv(0x41, Be32(id))
  }

  function Policy(reader: word, permissions: word): seq<byte> {
    Tlv(0x11, [8] + Be32(reader) + Be32(permissions))
  }

  /** Commands the device builds: identifiers of four bytes and short values. */
  predicate Encodable(cmd: Command) {
    match cmd
    case CheckExists(id) => id < 0x1_0000_0000
    case ReadObject(id) => id < 0x1_0000_0000
    case CreateSession(id) => id < 0x1_0000_0000
    case WriteBinary(id, reader, data) => id < 0x1_0000_0000 && reader < 0x1_0000_0000 && 0 < |data| <= 64
    case WriteUser(id, value, limit) => id < 0x1_0000_0000 && |value| == 16 && limit <= 255
    case VerifySession(value) => |value| == 16
    case _ => true
  }

  datatype Apdu = Apdu(ins: byte, p1: byte, p2: byte, data: seq<byte>)

  function Encode(cmd: Command): Apdu
    requires Encodable(cmd)
  {
    match cmd
    case GetVersion => Apdu(0x04, 0, 0x20, [])
    case CheckExists(id) => Apdu(0x04, 0, 0x27, ObjectTlv(id))
    case ReadObject(id) => Apdu(0x02, 0, 0, ObjectTlv(id))
    case WriteBinary(id, reader, data) =>
      Apdu(0x01, 0x06, 0, Policy(reader, ALLOW_READ_REQUIRE_SM) + (ObjectTlv(id) + (Tlv(0x43, [0, |data|]) + Tlv(0x44, data))))
    case WriteUser(id, value, limit) =>
      Apdu(0x41, 0x07, 0, Policy(0, 0) + (Tlv(0x12, [0, limit]) + (ObjectTlv(id) + Tlv(0x42, value))))
    case CreateSession(id) => Apdu(0x04, 0, 0x1b, ObjectTlv(id))
    case VerifySession(value) => Apdu(0x04, 0, 0x2c, Tlv(0x41, value))
    case DeleteAll => Apdu(0x04, 0, 0x2a, [])
  }

  // ------------------------------------------------------------------- readers

  datatype Field = Field(tag: byte, value: seq<byte>)

  /** A sequence of one-byte TLVs, or nothing when a length runs past the end. */
  function ParseTlvs(s: seq<byte>): Option<seq<Field>> {
    if s == [] then Some([])
    else if |s| < 2 || s[1] >= 128 || |s| < 2 + s[1] then None
    else match ParseTlvs(s[2 + s[1]..])
         case None => None
         case Some(rest) => Some([Field(s[0], s[2..2 + s[1]])] + rest)
  }

  predicate IsField(f: Field, tag: byte, length: nat) {
    f.tag == tag && |f.value| == length
  }

  /** An access rule: its length, then who is meant, or 0 for everyone, then what he may do. */
  predicate IsRule(f: Field, permissions: word) {
    IsField(f, 0x11, 9) && f.value[0] == 8 && FromBe32(f.value[5..9]) == permissions
  }

  /** The command a chip reads off instruction, parameters and data. A binary object may be read, which takes secure
      messaging, and neither written nor deleted; a user object has no permissions. */
  function Decode(a: Apdu): Option<Command> {
    match ParseTlvs(a.data)
    case None => None
    case Some(f) =>
      if a.ins == 0x04 && a.p1 == 0 then
        if |f| == 0 then
          if a.p2 == 0x20 then Some(GetVersion) else if a.p2 == 0x2a then Some(DeleteAll) else None
        else if |f| == 1 && IsField(f[0], 0x41, 4) then
          if a.p2 == 0x27 then Some(CheckExists(FromBe32(f[0].value)))
          else if a.p2 == 0x1b then Some(CreateSession(FromBe32(f[0].value)))
          else None
        else if |f| == 1 && IsField(f[0], 0x41, 16) && a.p2 == 0x2c then Some(VerifySession(f[0].value))
        else None
      else if a.ins == 0x02 && a.p1 == 0 && a.p2 == 0 && |f| == 1 && IsField(f[0], 0x41, 4) then
        Some(ReadObject(FromBe32(f[0].value)))
      else if a.ins == 0x01 && a.p1 == 0x06 && a.p2 == 0 && |f| == 4 && IsRule(f[0], 0x20_0000 + 0x2_0000)
              && IsField(f[1], 0x41, 4) && IsField(f[2], 0x43, 2) && f[3].tag == 0x44
              && f[2].value == [0, |f[3].value| % 256] then
        Some(WriteBinary(FromBe32(f[1].value), FromBe32(f[0].value[1..5]), f[3].value))
      else if a.ins == 0x41 && a.p1 == 0x07 && a.p2 == 0 && |f| == 4 && IsRule(f[0], 0) && IsField(f[1], 0x12, 2)
              && IsField(f[2], 0x41, 4) && f[3].tag == 0x42 && f[1].value[0] == 0 then
        Some(WriteUser(FromBe32(f[2].value), f[3].value, f[1].value[1]))
      else None
  }

  /** Reading a short TLV off the front. */
  lemma ParseFront(tag: byte, value: seq<byte>, rest: seq<byte>)
    requires |value| < 128
    ensures ParseTlvs(Tlv(tag, value) + rest) ==
            match ParseTlvs(rest) case None => None case Some(fields) => Some([Field(tag, value)] + fields)
  {
  }

  lemma ParseOne(tag: byte, value: seq<byte>)
    requires |value| < 128
    ensures ParseTlvs(Tlv(tag, value)) == Some([Field(tag, value)])
  {
    ParseFront(tag, value, []);
    assert Tlv(tag, value) + [] == Tlv(tag, value);
    assert [Field(tag, value)] + [] == [Field(tag, value)];
  }

  /** Every command the device builds is short, and reads back as itself. */
  lemma EncodeRoundTrip(cmd: Command)
    requires Encodable(cmd)
    ensures |Encode(cmd).data| <= MAX_DATA
    ensures Decode(Encode(cmd)) == Some(cmd)
  {
    match cmd {
      case GetVersion =>
      case DeleteAll =>
      case CheckExists(id) => IdentifierRoundTrip(id);
      case ReadObject(id) => IdentifierRoundTrip(id);
      case CreateSession(id) => IdentifierRoundTrip(id);
      case VerifySession(value) => ParseOne(0x41, value);
      case WriteBinary(id, reader, data) => WriteRoundTrip(id, reader, data);
      case WriteUser(id, value, limit) => UserRoundTrip(id, value, limit);
    }
  }

  lemma IdentifierRoundTrip(id: word)
    ensures ParseTlvs(ObjectTlv(id)) == Some([Field(0x41, Be32(id))]) && FromBe32(Be32(id)) == id
  {
    ParseOne(0x41, Be32(id));
    Be32RoundTrip(id);
  }

  lemma WriteRoundTrip(id: word, reader: word, data: seq<byte>)
    requires 0 < |data| <= 64
    ensures Decode(Encode(WriteBinary(id, reader, data))) == Some(WriteBinary(id, reader, data))
  {
    var rule := [8] + Be32(reader) + Be32(ALLOW_READ_REQUIRE_SM);
    WriteFields(id, reader, data, rule);
    RuleReads(reader, ALLOW_READ_REQUIRE_SM);
    Be32RoundTrip(id);
  }

  lemma RuleReads(reader: word, permissions: word)
    ensures var rule := [8] + Be32(reader) + Be32(permissions);
            |rule| == 9 && IsRule(Field(0x11, rule), permissions) && FromBe32(rule[1..5]) == reader
  {
    var rule := [8] + Be32(reader) + Be32(permissions);
    assert rule[1..5] == Be32(reader) && rule[5..9] == Be32(permissions);
    Be32RoundTrip(permissions);
    Be32RoundTrip(reader);
  }

  lemma WriteFields(id: word, reader: word, data: seq<byte>, rule: seq<byte>)
    requires 0 < |data| <= 64 && |rule| == 9 && rule == [8] + Be32(reader) + Be32(ALLOW_READ_REQUIRE_SM)
    ensures ParseTlvs(Encode(WriteBinary(id, reader, data)).data)
         == Some([Field(0x11, rule), Field(0x41, Be32(id)), Field(0x43, [0, |data|]), Field(0x44, data)])
  {
    ParseFour(Field(0x11, rule), Field(0x41, Be32(id)), Field(0x43, [0, |data|]), Field(0x44, data));
  }

  lemma ParseFour(a: Field, b: Field, c: Field, d: Field)
    requires |a.value| < 128 && |b.value| < 128 && |c.value| < 128 && |d.value| < 128
    ensures ParseTlvs(Tlv(a.tag, a.value) + (Tlv(b.tag, b.value) + (Tlv(c.tag, c.value) + Tlv(d.tag, d.value))))
            == Some([a, b, c, d])
  {
    ParseOne(d.tag, d.value);
    ParseFront(c.tag, c.value, Tlv(d.tag, d.value));
    ParseFront(b.tag, b.value, Tlv(c.tag, c.value) + Tlv(d.tag, d.value));
    ParseFront(a.tag, a.value, Tlv(b.tag, b.value) + (Tlv(c.tag, c.value) + Tlv(d.tag, d.value)));
    assert [a] + ([b] + ([c] + [d])) == [a, b, c, d];
  }

  lemma UserRoundTrip(id: word, value: seq<byte>, limit: byte)
    requires |value| == 16
    ensures Decode(Encode(WriteUser(id, value, limit))) == Some(WriteUser(id, value, limit))
  {
    var rule := [8] + Be32(0) + Be32(0);
    UserFields(id, value, limit, rule);
    RuleReads(0, 0);
    Be32RoundTrip(id);
  }

  lemma UserFields(id: word, value: seq<byte>, limit: byte, rule: seq<byte>)
    requires |value| == 16 && |rule| == 9 && rule == [8] + Be32(0) + Be32(0)
    ensures ParseTlvs(Encode(WriteUser(id, value, limit)).data)
         == Some([Field(0x11, rule), Field(0x12, [0, limit]), Field(0x41, Be32(id)), Field(0x42, value)])
  {
    ParseFour(Field(0x11, rule), Field(0x12, [0, limit]), Field(0x41, Be32(id)), Field(0x42, value));
  }

  // --------------------------------------------------- wrapping in a user session

  /** Commands that end in a zero byte: Le for a read, and the one DeleteAll needs. */
  predicate Trailing(a: Apdu) {
    a.ins == 0x02 || (a.ins == 0x04 && a.p2 == 0x2a)
  }

  function Inner(a: Apdu, trailing: bool): seq<byte> {
    [0x80, a.ins, a.p1, a.p2]
    + (if a.data == [] then [] else [|a.data| % 256] + a.data)
    + (if trailing then [0] else [])
  }

  function Wrapped(session: seq<byte>, a: Apdu, trailing: bool): seq<byte> {
    Tlv(0x10, session) + Tlv(0x41, Inner(a, trailing))
  }

  datatype Short = Short(a: Apdu, le: Option<nat>)

  /** The four short command cases: header; header Le; header Lc data; header Lc data Le. A zero Le means 256. */
  function ParseShort(s: seq<byte>): Option<Short> {
    if |s| < 4 || s[0] != 0x80 then None
    else if |s| == 4 then Some(Short(Apdu(s[1], s[2], s[3], []), None))
    else if |s| == 5 then Some(Short(Apdu(s[1], s[2], s[3], []), Some(Le(s[4]))))
    else if s[4] == 0 then None
    else if |s| == 5 + s[4] as int then Some(Short(Apdu(s[1], s[2], s[3], s[5..]), None))
    else if |s| == 6 + s[4] as int then Some(Short(Apdu(s[1], s[2], s[3], s[5..5 + s[4] as int]), Some(Le(s[5 + s[4] as int]))))
    else None
  }

  function Le(b: byte): nat {
    if b == 0 then 256 else b
  }

  lemma InnerRoundTrip(a: Apdu, trailing: bool)
    requires |a.data| <= MAX_DATA
    ensures |Inner(a, trailing)| <= 116
    ensures ParseShort(Inner(a, trailing)) == Some(Short(a, if trailing then Some(256) else None))
  {
    var s := Inner(a, trailing);
    if a.data != [] {
      assert s[4] == |a.data| && s[5..5 + |a.data|] == a.data;
      if trailing {
        assert |s| == 6 + |a.data|;
      } else {
        assert s[5..] == a.data;
      }
    }
  }

  /** What travels in a user session reads back as the session and exactly the command. */
  lemma WrappedRoundTrip(session: seq<byte>, cmd: Command)
    requires |session| == 8 && Encodable(cmd)
    ensures |Wrapped(session, Encode(cmd), Trailing(Encode(cmd)))| <= 128
    ensures var inner := Inner(Encode(cmd), Trailing(Encode(cmd)));
            && ParseTlvs(Wrapped(session, Encode(cmd), Trailing(Encode(cmd)))) == Some([Field(0x10, session), Field(0x41, inner)])
            && ParseShort(inner).Some? && Decode(ParseShort(inner).value.a) == Some(cmd)
  {
    EncodeRoundTrip(cmd);
    InnerRoundTrip(Encode(cmd), Trailing(Encode(cmd)));
    var inner := Inner(Encode(cmd), Trailing(Encode(cmd)));
    ParseOne(0x41, inner);
    ParseFront(0x10, session, Tlv(0x41, inner));
    assert [Field(0x10, session)] + [Field(0x41, inner)] == [Field(0x10, session), Field(0x41, inner)];
  }

  // ------------------------------------------------------------- in-place builders

  /** Copy `s` into the buffer at an offset. */
  method CopyAt(p: array<byte>, at: nat, s: seq<byte>)
    requires at + |s| <= p.Length
    modifies p
    ensures p[at..at + |s|] == s
    ensures p[..at] == old(p[..at]) && p[at + |s|..] == old(p[at + |s|..])
  {
    for i := 0 to |s|
      invariant p[at..at + i] == s[..i]
      invariant p[..at] == old(p[..at]) && p[at + i..] == old(p[at + i..])
    {
      p[at + i] := s[i];
    }
  }

  /** Append a TLV at `n`; the length byte is truncated to eight bits, as in the source. */
  method PutTlv(p: array<byte>, n: nat, tag: byte, value: seq<byte>) returns (m: nat)
    requires n + 2 + |value| <= p.Length
    modifies p
    ensures m == n + 2 + |value| && p[..m] == old(p[..n]) + Tlv(tag, value)
  {
    p[n] := tag;
    p[n + 1] := |value| % 256;
    CopyAt(p, n + 2, value);
    m := n + 2 + |value|;
    assert p[..m] == p[..n] + p[n..n + 2] + p[n + 2..m];
  }

  method PutObject(p: array<byte>, n: nat, id: word) returns (m: nat)
    requires n + 6 <= p.Length
    modifies p
    ensures m == n + 6 && p[..m] == old(p[..n]) + ObjectTlv(id)
  {
    m := PutTlv(p, n, 0x41, Be32(id));
  }

  method PutPolicy(p: array<byte>, n: nat, reader: word, permissions: word) returns (m: nat)
    requires n + 11 <= p.Length
    modifies p
    ensures m == n + 11 && p[..m] == old(p[..n]) + Policy(reader, permissions)
  {
    m := PutTlv(p, n, 0x11, [8] + Be32(reader) + Be32(permissions));
  }

  lemma Associate(a: seq<byte>, b: seq<byte>, c: seq<byte>, d: seq<byte>)
    ensures [] + a + b + c + d == a + (b + (c + d))
  {
  }

  /** The data of a binary write, in its 96-byte buffer. */
  method BuildWrite(command: array<byte>, id: word, reader: word, data: seq<byte>) returns (n: nat)
    requires command.Length == 96 && 0 < |data| <= 64
    modifies command
    ensures n <= 96 && command[..n] == Encode(WriteBinary(id, reader, data)).data
  {
    n := PutPolicy(command, 0, reader, ALLOW_READ_REQUIRE_SM);
    n := PutObject(command, n, id);
    n := PutTlv(command, n, 0x43, [0, |data|]);
    n := PutTlv(command, n, 0x44, data);
    Associate(Policy(reader, ALLOW_READ_REQUIRE_SM), ObjectTlv(id), Tlv(0x43, [0, |data|]), Tlv(0x44, data));
  }

  /** The data of a UserID write, in its 48-byte buffer. */
  method BuildUser(command: array<byte>, id: word, value: seq<byte>, attempts: byte) returns (n: nat)
    requires command.Length == 48 && |value| == 16
    modifies command
    ensures n <= 48 && command[..n] == Encode(WriteUser(id, value, attempts)).data
  {
    n := PutPolicy(command, 0, 0, 0);
    n := PutTlv(command, n, 0x12, [0, attempts]);
    n := PutObject(command, n, id);
    n := PutTlv(command, n, 0x42, value);
    Associate(Policy(0, 0), Tlv(0x12, [0, attempts]), ObjectTlv(id), Tlv(0x42, value));
  }

  /** The command APDU that goes inside a user session, in the 116-byte scratch buffer. */
  method BuildInner(inner: array<byte>, a: Apdu, trailing: bool) returns (length: nat)
    requires inner.Length == 116 && |a.data| <= MAX_DATA
    modifies inner
    ensures length <= 116 && inner[..length] == Inner(a, trailing)
  {
    CopyAt(inner, 0, [0x80, a.ins, a.p1, a.p2]);
    length := 4;
    if |a.data| > 0 {
      inner[length] := |a.data|;
      CopyAt(inner, length + 1, a.data);
      length := length + 1 + |a.data|;
      assert inner[..length] == inner[..5][..4] + [inner[..5][4]] + inner[5..length];
    }
    if trailing {
      inner[length] := 0;
      length := length + 1;
      assert inner[..length] == inner[..length - 1] + [0];
    }
  }

  /** What one exchange hands to the secure channel, built in the command buffer; None when it is refused
      for its length. */
  method BuildExchange(command: array<byte>, a: Apdu, deleting: bool, session: Option<seq<byte>>)
    returns (result: Option<(seq<byte>, nat)>)
    requires command.Length >= 128
    requires session.Some? ==> |session.value| == 8
    modifies command
    ensures result.None? <==> |a.data| > MAX_DATA
    ensures result.Some? ==> result.value.1 <= 128
    ensures result.Some? && session.None? ==>
              result.value.0 == [0x80, a.ins, a.p1, a.p2] && command[..result.value.1] == a.data
    ensures result.Some? && session.Some? ==>
              && result.value.0 == [0x80, 0x05, 0, 0]
              && command[..result.value.1] == Wrapped(session.value, a, a.ins == 0x02 || deleting)
  {
    if |a.data| > MAX_DATA {
      return None;
    }
    if session.None? {
      CopyAt(command, 0, a.data);
      return Some(([0x80, a.ins, a.p1, a.p2], |a.data|));
    }
    var inner := new byte[116];
    var length := BuildInner(inner, a, a.ins == 0x02 || deleting);
    ghost var built := inner[..length];
    var n := PutTlv(command, 0, 0x10, session.value);
    n := PutTlv(command, n, 0x41, inner[..length]);
    assert command[..n] == Tlv(0x10, session.value) + Tlv(0x41, built);
    Wipe(inner);
    result := Some(([0x80, 0x05, 0, 0], n));
  }
}
