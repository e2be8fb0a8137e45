/**
 Requests across the C and Rust boundary: how the display and FIDO code lay them out in a command,
 and how src/rs/ffi.rs reads them back.
 */
module CoreRequests {
  import opened Bytes

  datatype Transport = Uart | Bluetooth
  datatype Route = Route(transport: Transport, session: word)

  datatype LocalKind = Unlock | InitCustom | GenerateMnemonic | GenerateMnemonicMixed
                     | Restart | ResetStorage | Lock | RefreshSecureStorage

  datatype FidoKind = Register | Validate | Sign | Confirm | CancelConfirmation

  datatype Operation = OpRegister | OpAuthenticate | OpSelect | OpAuthorize

  datatype LocalRequest =
    | AskUnlock(pin: seq<byte>)
    | AskInitCustom(mnemonic: seq<byte>, passphrase: seq<byte>, newPin: seq<byte>)
    | AskMnemonic(words: word, entropy: seq<byte>)
    | AskMnemonicMixed(words: word, transcript: seq<byte>)
    | AskRestart | AskReset | AskLock | AskRefresh

  datatype FidoRequest =
    | AskRegister(rpId: seq<byte>, credProtect: byte)
    | AskValidate(credential: seq<byte>, rpIdHash: seq<byte>)
    | AskSign(credential: seq<byte>, rpIdHash: seq<byte>, hash: seq<byte>, preflight: bool)
    | AskConfirm(operation: Operation, rp: seq<byte>, account: seq<byte>)
    | AskCancel

  /** The part of a command that a request is read from. */
  datatype Wire<K> = Wire(kind: K, value: word, data: seq<byte>, auxiliary: seq<byte>)

  const HASH := 32

  function OperationOf(value: word): Option<Operation> {
    if value == 1 then Some(OpRegister) else if value == 2 then Some(OpAuthenticate)
    else if value == 3 then Some(OpSelect) else if value == 4 then Some(OpAuthorize) else None
  }

  function Number(operation: Operation): word {
    match operation
    case OpRegister => 1
    case OpAuthenticate => 2
    case OpSelect => 3
    case OpAuthorize => 4
  }

  /** local_request; `utf8` says which byte strings are text. */
  function ParseLocal(utf8: seq<byte> -> bool, w: Wire<LocalKind>): Option<LocalRequest> {
    match w.kind
    case Unlock => if utf8(w.data) then Some(AskUnlock(w.data)) else None
    case InitCustom =>
      if !utf8(w.data) || w.value > |w.auxiliary| then None
      else if !utf8(w.auxiliary[..w.value]) || !utf8(w.auxiliary[w.value..]) then None
      else Some(AskInitCustom(w.data, w.auxiliary[..w.value], w.auxiliary[w.value..]))
    case GenerateMnemonic => Some(AskMnemonic(w.value, w.data))
    case GenerateMnemonicMixed => Some(AskMnemonicMixed(w.value, w.data))
    case Restart => Some(AskRestart)
    case ResetStorage => Some(AskReset)
    case Lock => Some(AskLock)
    case RefreshSecureStorage => Some(AskRefresh)
  }

  /** fido_request. */
  function ParseFido(utf8: seq<byte> -> bool, w: Wire<FidoKind>): Option<FidoRequest> {
    match w.kind
    case Register => if utf8(w.data) && w.value < 256 then Some(AskRegister(w.data, w.value)) else None
    case Validate => if |w.auxiliary| == HASH then Some(AskValidate(w.data, w.auxiliary)) else None
    case Sign =>
      if |w.auxiliary| == 2 * HASH then Some(AskSign(w.data, w.auxiliary[..HASH], w.auxiliary[HASH..], w.value != 0))
      else None
    case Confirm =>
      var operation := OperationOf(w.value);
      if operation.Some? then Some(AskConfirm(operation.value, w.data, w.auxiliary)) else None
    case CancelConfirmation => Some(AskCancel)
  }

  /** What the display submits for a request. */
  function LocalWire(r: LocalRequest): Wire<LocalKind>
    requires r.AskInitCustom? ==> |r.passphrase| < 0x1_0000_0000
  {
    match r
    case AskUnlock(pin) => Wire(Unlock, 0, pin, [])
    case AskInitCustom(mnemonic, passphrase, pin) => Wire(InitCustom, |passphrase|, mnemonic, passphrase + pin)
    case AskMnemonic(words, entropy) => Wire(GenerateMnemonic, words, entropy, [])
    case AskMnemonicMixed(words, transcript) => Wire(GenerateMnemonicMixed, words, transcript, [])
    case AskRestart => Wire(Restart, 0, [], [])
    case AskReset => Wire(ResetStorage, 0, [], [])
    case AskLock => Wire(Lock, 0, [], [])
    case AskRefresh => Wire(RefreshSecureStorage, 0, [], [])
  }

  /** What the FIDO code submits for a request. */
  function FidoWire(r: FidoRequest): Wire<FidoKind> {
    match r
    case AskRegister(rpId, credProtect) => Wire(Register, credProtect, rpId, [])
    case AskValidate(credential, rpIdHash) => Wire(Validate, 0, credential, rpIdHash)
    case AskSign(credential, rpIdHash, hash, preflight) => Wire(Sign, if preflight then 1 else 0, credential, rpIdHash + hash)
    case AskConfirm(operation, rp, account) => Wire(Confirm, Number(operation), rp, account)
    case AskCancel => Wire(CancelConfirmation, 0, [], [])
  }

  predicate TextIsUtf8(utf8: seq<byte> -> bool, r: LocalRequest) {
    match r
    case AskUnlock(pin) => utf8(pin)
    case AskInitCustom(mnemonic, passphrase, pin) => utf8(mnemonic) && utf8(passphrase) && utf8(pin)
    case _ => true
  }

  predicate HashesFit(utf8: seq<byte> -> bool, r: FidoRequest) {
    match r
    case AskRegister(rpId, _) => utf8(rpId)
    case AskValidate(_, rpIdHash) => |rpIdHash| == 32
    case AskSign(_, rpIdHash, hash, _) => |rpIdHash| + |hash| == 64
    case _ => true
  }

  /** The core reads back the very request, exactly when its texts are texts. */
  lemma LocalRoundTrip(utf8: seq<byte> -> bool, r: LocalRequest)
    requires r.AskInitCustom? ==> |r.passphrase| < 0x1_0000_0000
    ensures ParseLocal(utf8, LocalWire(r)) == if TextIsUtf8(utf8, r) then Some(r) else None
  {
  }

  /** The core accepts exactly the requests that fit, and reads back those whose hashes are 32 bytes each. */
  lemma FidoRoundTrip(utf8: seq<byte> -> bool, r: FidoRequest)
    ensures ParseFido(utf8, FidoWire(r)).Some? <==> HashesFit(utf8, r)
    ensures HashesFit(utf8, r) ==>
              (ParseFido(utf8, FidoWire(r)) == Some(r) <==> (r.AskSign? ==> |r.rpIdHash| == 32))
  {
  }

  /** A local command of any making is read exactly when its texts are texts and its split is inside, and the
      request read lays out as the same command, but for what its kind does not use. */
  lemma LocalReadsIff(utf8: seq<byte> -> bool, w: Wire<LocalKind>)
    ensures ParseLocal(utf8, w).Some? <==>
            match w.kind
            case Unlock => utf8(w.data)
            case InitCustom =>
              utf8(w.data) && w.value <= |w.auxiliary| && utf8(w.auxiliary[..w.value]) && utf8(w.auxiliary[w.value..])
            case _ => true
    ensures ParseLocal(utf8, w).Some? ==>
              var again := LocalWire(ParseLocal(utf8, w).value);
              && again.kind == w.kind
              && (w.kind in {Unlock, InitCustom, GenerateMnemonic, GenerateMnemonicMixed} ==> again.data == w.data)
              && (w.kind in {InitCustom, GenerateMnemonic, GenerateMnemonicMixed} ==> again.value == w.value)
              && (w.kind == InitCustom ==> again.auxiliary == w.auxiliary)
  {
    if w.kind == InitCustom && w.value <= |w.auxiliary| {
      assert w.auxiliary[..w.value] + w.auxiliary[w.value..] == w.auxiliary;
    }
  }

  /** And so is a FIDO command, when its hashes are whole and its operation is one of the four. */
  lemma FidoReadsIff(utf8: seq<byte> -> bool, w: Wire<FidoKind>)
    ensures ParseFido(utf8, w).Some? <==>
            match w.kind
            case Register => utf8(w.data) && w.value <= 255
            case Validate => |w.auxiliary| == 32
            case Sign => |w.auxiliary| == 64
            case Confirm => 1 <= w.value <= 4
            case CancelConfirmation => true
    ensures ParseFido(utf8, w).Some? ==>
              var again := FidoWire(ParseFido(utf8, w).value);
              && again.kind == w.kind && (w.kind != CancelConfirmation ==> again.data == w.data)
              && (w.kind in {Validate, Sign, Confirm} ==> again.auxiliary == w.auxiliary)
              && (w.kind in {Register, Confirm} ==> again.value == w.value)
              && (w.kind == Sign ==> (again.value != 0 <==> w.value != 0))
  {
    if w.kind == Sign && |w.auxiliary| == 64 {
      assert w.auxiliary[..32] + w.auxiliary[32..] == w.auxiliary;
    }
  }

  // ------------------------------------------------------------------- fragments of a payload

  /** A slice handed over the boundary; `isNull` is a null pointer. */
  datatype Slice = Slice(isNull: bool, bytes: seq<byte>)

  predicate Readable(s: Slice) { s.isNull ==> s.bytes == [] }

  function Joined(fragments: seq<Slice>): seq<byte> {
    if fragments == [] then [] else Joined(fragments[..|fragments| - 1]) + fragments[|fragments| - 1].bytes
  }

  /** `payload`: the fragments gathered into one vector. */
  method Gather(fragments: seq<Slice>) returns (bytes: seq<byte>)
    ensures bytes == Joined(fragments)
  {
    bytes := [];
    assert fragments[..0] == [];
    for i := 0 to |fragments|
      invariant bytes == Joined(fragments[..i])
    {
      assert fragments[..i + 1][..i] == fragments[..i];
      bytes := bytes + fragments[i].bytes;
    }
    assert fragments[..|fragments|] == fragments;
  }
}
