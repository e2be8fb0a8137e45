/**
 Provisioning, unlocking and erasing the wallet seed, after src/security/nxp/store.c.
 Every public operation takes the store's mutex for its whole body, so each is one step of a run;
 what the bus does inside a step is arbitrary.
 */
module NxpStore {
  import opened Bytes
  import opened NxpChip
  import opened NxpDevice

  datatype State = Unconfigured | Unavailable | Empty | Ready | AuthRejected | Incomplete

  /** None of the wallet's objects is on the chip. */
  predicate Blank(objects: Objects) {
    PIN_ID !in objects && SEED_ID !in objects && SALT_ID !in objects
  }

  /** All of the wallet's objects are on the chip. */
  predicate Complete(objects: Objects) {
    PIN_ID in objects && SEED_ID in objects && SALT_ID in objects
  }

  /** The three object kinds under the wallet's ids, so far as they exist, are what the store writes. */
  predicate WellFormed(objects: Objects) {
    && (PIN_ID in objects ==> objects[PIN_ID].UserId? && objects[PIN_ID].limit == PIN_LIMIT)
    && (SALT_ID in objects ==> objects[SALT_ID].Binary? && objects[SALT_ID].reader == 0 && |objects[SALT_ID].data| == 16)
    && (SEED_ID in objects ==> objects[SEED_ID].Binary? && objects[SEED_ID].reader == PIN_ID && |objects[SEED_ID].data| == 64)
  }

  /** The cached state never contradicts the chip. */
  predicate Consistent(state: State, objects: Objects) {
    && (state == Empty ==> Blank(objects))
    && (state == Ready || state == AuthRejected ==> Complete(objects))
  }

  const WALLET := {PIN_ID, SEED_ID, SALT_ID}

  /** The wallet's part of the chip. */
  function Wallet(objects: Objects): Objects {
    map id | id in objects && id in WALLET :: objects[id]
  }

  /** What provisioning with this key and seed may leave behind: a prefix of the order in which the
      three objects are written, each with its intended contents. */
  predicate ProvisionedBy(objects: Objects, derive: (seq<byte>, seq<byte>) -> seq<byte>, pinKey: seq<byte>,
                          seed: seq<byte>) {
    && (SALT_ID !in objects ==> Blank(objects))
    && (SALT_ID in objects ==>
          && objects[SALT_ID].Binary? && objects[SALT_ID].reader == 0 && |objects[SALT_ID].data| == 16
          && (PIN_ID in objects ==> objects[PIN_ID] == UserId(derive(pinKey, objects[SALT_ID].data), PIN_LIMIT, 0))
          && (SEED_ID in objects ==> PIN_ID in objects && objects[SEED_ID] == Binary(PIN_ID, seed)))
  }

  /** The credential a PIN key yields with the salt stored on the chip. */
  function Credential(objects: Objects, derive: (seq<byte>, seq<byte>) -> seq<byte>, pinKey: seq<byte>): seq<byte> {
    if SALT_ID in objects && objects[SALT_ID].Binary? then derive(pinKey, objects[SALT_ID].data) else []
  }

  /** The chip would let this PIN key unlock the seed. */
  predicate Unlocks(objects: Objects, derive: (seq<byte>, seq<byte>) -> seq<byte>, pinKey: seq<byte>) {
    && Complete(objects) && objects[PIN_ID].UserId? && objects[SALT_ID].Binary?
    && !Exhausted(objects[PIN_ID])
    && objects[PIN_ID].value == Credential(objects, derive, pinKey)
  }

  /** Exchanges an undisturbed first provisioning makes up to and including the seed write. */
  function ExchangesToSeedWrite(objects: Objects): nat {
    if RESET_ID in objects then 11 else 12
  }

  /** Objects the store never touches, short of erasing the whole chip. */
  function Elsewhere(objects: Objects): Objects {
    objects - WALLET - {RESET_ID}
  }

  /** A public call with its arguments and its result. */
  datatype Call =
    | Refresh(rc: int)
    | SeedExists(result: int)
    | Initialize(pinKey: Option<seq<byte>>, newSeed: Option<seq<byte>>, rc: int)
    | Unlock(pinKey: Option<seq<byte>>, output: Option<seq<byte>>, rc: int)
    | Erase(rc: int)

  /** What persists between calls, and how many PIN verifications have been sent. */
  datatype Snapshot = Snapshot(objects: Objects, state: State, verifies: nat)

  /** What each call may do, whatever the bus does: the store's contract. A reset user that the key opens stays
      one that it opens. */
  predicate Allowed(derive: (seq<byte>, seq<byte>) -> seq<byte>, key: seq<byte>, s: Snapshot, call: Call, t: Snapshot) {
    && Consistent(t.state, t.objects)
    && (ResetUsable(s.objects, key) ==> ResetUsable(t.objects, key))
    && s.verifies <= t.verifies
    && match call
       case Refresh(rc) =>
         && t.objects == s.objects && t.verifies == s.verifies
         && (rc == 0 <==> t.state == Empty || t.state == Ready)
       case SeedExists(result) =>
         && t.objects == s.objects && t.verifies == s.verifies
         && result == if t.state == Empty then 0 else if t.state == Ready || t.state == AuthRejected then 1 else -1
       case Initialize(pinKey, seed, rc) => InitializeAllowed(derive, s, pinKey, seed, rc, t)
       case Unlock(pinKey, output, rc) => UnlockAllowed(derive, s, pinKey, output, rc, t)
       case Erase(rc) =>
         && t.verifies == s.verifies
         && (Wallet(t.objects) == Wallet(s.objects) || Blank(t.objects))
         && (rc == 0 ==> t.state == Empty && Blank(t.objects))
         && (rc != 0 ==> t.state == Unavailable)
  }

  /** Initialization refuses anything but a blank chip; on one, the objects appear in order and OK means all. */
  predicate InitializeAllowed(derive: (seq<byte>, seq<byte>) -> seq<byte>, s: Snapshot,
                              pinKey: Option<seq<byte>>, seed: Option<seq<byte>>, rc: int, t: Snapshot) {
    && (rc == 0 || rc == -1)
    && (pinKey.None? || seed.None? ==> rc == -1 && t == s)
    && (!Blank(s.objects) ==> rc == -1 && t.objects == s.objects && t.verifies == s.verifies)
    && (pinKey.Some? && seed.Some? && Blank(s.objects) ==>
          && ProvisionedBy(t.objects, derive, pinKey.value, seed.value)
          && Elsewhere(t.objects) == Elsewhere(s.objects)
          && t.verifies <= s.verifies + 1)
    && (rc == 0 ==> t.state == Ready && Complete(t.objects))
    && (pinKey.Some? && seed.Some? && rc != 0 ==> t.state != Empty && t.state != AuthRejected)
    && (rc != 0 && Blank(s.objects) && !Blank(t.objects) ==> t.state == Incomplete)
  }

  /** Unlocking makes at most one verification, and changes nothing but that verification's attempt counter. */
  predicate UnlockAllowed(derive: (seq<byte>, seq<byte>) -> seq<byte>, s: Snapshot,
                          pinKey: Option<seq<byte>>, output: Option<seq<byte>>, rc: int, t: Snapshot) {
    && (rc == 0 || rc == -1 || rc == -2)
    && t.verifies <= s.verifies + 1
    && (pinKey.None? || output.None? ==> rc == -1 && t == s)
    && (t.objects == s.objects || (pinKey.Some? && t.objects == Counted(s.objects, derive, pinKey.value)))
    && (rc == 0 ==>
          && t.state == Ready && Unlocks(s.objects, derive, pinKey.value)
          && t.objects == Counted(s.objects, derive, pinKey.value)
          && s.objects[SEED_ID].Binary? && output.value == s.objects[SEED_ID].data)
    && (pinKey.Some? && output.Some? ==> (rc == 0 <==> t.state == Ready) && (rc == -2 <==> t.state == AuthRejected))
    && (output.Some? && rc != 0 ==> output.value == Zeros(64))
  }

  /** The chip after one verification of the credential this PIN key yields. */
  function Counted(objects: Objects, derive: (seq<byte>, seq<byte>) -> seq<byte>, pinKey: seq<byte>): Objects {
    if Complete(objects) && objects[PIN_ID].UserId? then
      objects[PIN_ID := AfterVerify(objects[PIN_ID], Credential(objects, derive, pinKey))]
    else objects
  }

  /** Agreement outside the reset object is agreement on the wallet's. */
  lemma WalletUntouched(a: Objects, b: Objects)
    requires a - {RESET_ID} == b - {RESET_ID}
    ensures forall id :: id in WALLET ==> (id in a <==> id in b) && (id in a ==> a[id] == b[id])
    ensures Elsewhere(a) == Elsewhere(b)
  {
    assert Elsewhere(a) == (a - {RESET_ID}) - WALLET;
    assert Elsewhere(b) == (b - {RESET_ID}) - WALLET;
    forall id | id in WALLET
      ensures (id in a <==> id in b) && (id in a ==> a[id] == b[id])
    {
      assert id in a <==> id in a - {RESET_ID};
      assert id in b <==> id in b - {RESET_ID};
    }
  }

  lemma SameWallet(a: Objects, b: Objects)
    requires forall id :: id in WALLET ==> (id in a <==> id in b) && (id in a ==> a[id] == b[id])
    ensures Wallet(a) == Wallet(b)
  {
  }

  class Store {
    const device: Device
    const derive: (seq<byte>, seq<byte>) -> seq<byte>
    var state: State
    var scanned: bool

    ghost predicate Valid()
      reads this, device, device.bus
    {
      && device.Valid()
      && device.NeverRecreated()
      && Consistent(state, device.bus.chip.objects)
    }

    ghost function Now(): Snapshot
      reads this, device, device.bus
    {
      Snapshot(device.bus.chip.objects, state, device.PinVerifies())
    }

    constructor (device: Device, derive: (seq<byte>, seq<byte>) -> seq<byte>)
      requires device.Valid() && device.NeverRecreated()
      ensures Valid() && this.device == device && this.derive == derive && state == Unavailable && !scanned
    {
      this.device := device;
      this.derive := derive;
      state := Unavailable;
      scanned := false;
    }

    /** nxp_pin_credential: fails only when the crypto library does. */
    method PinCredential(pinKey: seq<byte>, salt: seq<byte>) returns (rc: int, credential: seq<byte>)
      ensures rc == OK ==> credential == derive(pinKey, salt)
      ensures device.bus.calm > 0 ==> rc == OK
    {
      var ready := *;
      if ready || device.bus.calm > 0 {
        return OK, derive(pinKey, salt);
      }
      return ERROR, [];
    }

    /** Look at the chip and cache what is there. */
    method Scan() returns (rc: int)
      requires device.Valid()
      modifies this`state, device`up, device`inUserSession, device`authenticatedId, device.bus`chip, device.bus`calm
      modifies device.bus`log
      ensures device.Valid() && !device.inUserSession && device.authenticatedId == 0
      ensures device.bus.chip.objects == old(device.bus.chip.objects)
      ensures device.bus.chip.version == old(device.bus.chip.version)
      ensures Consistent(state, device.bus.chip.objects) && state != AuthRejected
      ensures rc == OK <==> state == Empty || state == Ready
      ensures rc == OK || rc == ERROR
      ensures rc == OK ==> device.up && device.configured && device.bus.chip.version == (7, 2)
      ensures state == Incomplete ==> !Blank(device.bus.chip.objects) && !Complete(device.bus.chip.objects)
      ensures device.PinVerifies() == old(device.PinVerifies())
      ensures old(device.NeverRecreated()) ==> device.NeverRecreated()
      ensures device.bus.calm <= old(device.bus.calm)
      ensures old(device.bus.calm) >= 4 && device.configured && device.bus.chip.version == (7, 2) ==>
                && device.bus.calm == old(device.bus.calm) - 4
                && (rc == OK <==> Blank(device.bus.chip.objects) || Complete(device.bus.chip.objects))
                && (rc != OK ==> state == Incomplete)
      ensures state == Unconfigured ==> !device.configured
      ensures old(device.bus.calm) > 0 && !device.configured ==> state == Unconfigured
    {
      rc := device.Open();
      if rc != OK {
        state := if rc == CREDENTIALS_MISSING then Unconfigured else Unavailable;
        return ERROR;
      }
      var pin, seed, salt: bool;
      rc, pin := device.Exists(PIN_ID);
      if rc == OK {
        rc, seed := device.Exists(SEED_ID);
      }
      if rc == OK {
        rc, salt := device.Exists(SALT_ID);
      }
      if rc != OK {
        state := Unavailable;
        return ERROR;
      }
      state := if !pin && !seed && !salt then Empty
               else if pin && seed && salt then Ready
               else Incomplete;
      rc := if state == Incomplete then ERROR else OK;
    }

    method Refresh() returns (rc: int)
      requires Valid()
      modifies this`state, this`scanned, device`up, device`inUserSession, device`authenticatedId, device.bus`chip
      modifies device.bus`calm, device.bus`log
      ensures Valid() && scanned && !device.up
      ensures Allowed(derive, device.resetKey, old(Now()), Call.Refresh(rc), Now())
      ensures device.bus.chip.version == old(device.bus.chip.version)
      ensures old(device.bus.calm) >= 4 && device.configured && device.bus.chip.version == (7, 2) ==>
                && (rc == OK <==> Blank(device.bus.chip.objects) || Complete(device.bus.chip.objects))
                && (rc != OK ==> state == Incomplete)
      ensures state == Unconfigured ==> !device.configured
      ensures old(device.bus.calm) > 0 && !device.configured ==> state == Unconfigured
    {
      rc := Scan();
      scanned := true;
      device.Close();
    }

    method SeedExists() returns (result: int)
      requires Valid()
      modifies this`state, this`scanned, device`up, device`inUserSession, device`authenticatedId, device.bus`chip
      modifies device.bus`calm, device.bus`log
      ensures Valid() && scanned
      ensures Allowed(derive, device.resetKey, old(Now()), Call.SeedExists(result), Now())
      ensures result == 0 ==> Blank(device.bus.chip.objects)
      ensures device.bus.chip.version == old(device.bus.chip.version)
      ensures result == 1 ==> Complete(device.bus.chip.objects)
      ensures old(scanned) ==> state == old(state) && device.bus.log == old(device.bus.log)
      ensures !old(scanned) ==> !device.up
      // Undisturbed, a first look tells exactly what is there; later ones give what was found.
      ensures !old(scanned) && old(device.bus.calm) >= 4 && device.configured && device.bus.chip.version == (7, 2) ==>
                result == if Blank(device.bus.chip.objects) then 0 else if Complete(device.bus.chip.objects) then 1 else -1
      ensures old(scanned) ==>
                && (old(state) == Empty ==> result == 0)
                && (old(state) == Ready || old(state) == AuthRejected ==> result == 1)
                && (old(state) in {Unconfigured, Unavailable, Incomplete} ==> result == -1)
    {
      if !scanned {
        var _ := Scan();
        scanned := true;
        device.Close();
      }
      result := if state == Empty then 0 else if state == Ready || state == AuthRejected then 1 else ERROR;
    }

    /** hcrypto_get_random: leaves the buffer wiped when it fails. */
    method Random(a: array<byte>) returns (rc: int)
      modifies a
      ensures rc == OK || rc == 1
      ensures device.bus.calm > 0 ==> rc == OK
    {
      var fails := *;
      if fails && device.bus.calm == 0 {
        Wipe(a);
        return 1;
      }
      for i := 0 to a.Length
        modifies a
      {
        a[i] := *;
      }
      rc := OK;
    }

    method Initialize(pinKey: Option<seq<byte>>, seed: Option<seq<byte>>) returns (rc: int)
      requires Valid()
      requires seed.Some? ==> |seed.value| == 64
      modifies this`state, this`scanned, device`up, device`inUserSession, device`authenticatedId, device.bus`chip
      modifies device.bus`calm, device.bus`log
      ensures Valid()
      ensures Allowed(derive, device.resetKey, old(Now()), Call.Initialize(pinKey, seed, rc), Now())
      ensures pinKey.Some? && seed.Some? ==> scanned && !device.up
      ensures device.bus.chip.version == old(device.bus.chip.version)
      // Undisturbed, it succeeds exactly on a blank chip whose reset user is usable.
      ensures old(device.bus.calm) >= 20 && device.configured && device.bus.chip.version == (7, 2)
              && pinKey.Some? && seed.Some? ==>
                (rc == OK <==> Blank(old(device.bus.chip.objects)) && ResetUsable(old(device.bus.chip.objects), device.resetKey))
      // Cut off right after the seed write, it fails with all three objects stored.
      ensures device.bus.jammed && device.configured && device.bus.chip.version == (7, 2) && pinKey.Some? && seed.Some?
              && Blank(old(device.bus.chip.objects)) && ResetUsable(old(device.bus.chip.objects), device.resetKey)
              && old(device.bus.calm) == ExchangesToSeedWrite(old(device.bus.chip.objects))
              ==> rc == ERROR && Complete(device.bus.chip.objects)
    {
      if pinKey.None? || seed.None? {
        return ERROR;
      }
      var salt := new byte[16];
      var check := new byte[64];
      rc := Provision(pinKey.value, seed.value, salt, check);
      scanned := true;
      device.Close();
      Wipe(salt);
      Wipe(check);
    }

    /** The steps of an initialization, up to its single exit. */
    method Provision(pinKey: seq<byte>, seed: seq<byte>, salt: array<byte>, check: array<byte>) returns (rc: int)
      requires Valid() && |seed| == 64 && salt.Length == 16 && check.Length == 64 && salt != check
      modifies this`state, device`up, device`inUserSession, device`authenticatedId, device.bus`chip, device.bus`calm
      modifies device.bus`log, salt, check
      ensures Valid()
      ensures InitializeAllowed(derive, old(Now()), Some(pinKey), Some(seed), rc, Now())
      ensures old(ResetUsable(device.bus.chip.objects, device.resetKey)) ==>
                ResetUsable(device.bus.chip.objects, device.resetKey)
      ensures old(device.PinVerifies()) <= device.PinVerifies()
      ensures device.bus.chip.version == old(device.bus.chip.version)
      ensures old(device.bus.calm) >= 20 && device.configured && device.bus.chip.version == (7, 2) ==>
                (rc == OK <==> Blank(old(device.bus.chip.objects)) && ResetUsable(old(device.bus.chip.objects), device.resetKey))
      ensures device.bus.jammed && device.configured && device.bus.chip.version == (7, 2)
              && Blank(old(device.bus.chip.objects)) && ResetUsable(old(device.bus.chip.objects), device.resetKey)
              && old(device.bus.calm) == ExchangesToSeedWrite(old(device.bus.chip.objects))
              ==> rc == ERROR && Complete(device.bus.chip.objects)
    {
      rc := Scan();
      if rc != OK || state != Empty {
        return ERROR;
      }
      var credential: seq<byte>;
      rc, credential := Prepare(pinKey, salt);
      if rc != OK {
        state := Unavailable;
        return ERROR;
      }
      state := Incomplete;
      rc := WriteObjects(pinKey, salt[..], credential, seed);
      if rc == OK {
        rc := Confirm(credential, seed, check);
      }
      if rc == OK {
        state := Ready;
      }
    }

    /** Make sure of the reset user, then a fresh channel, a salt and the credential. */
    method Prepare(pinKey: seq<byte>, salt: array<byte>) returns (rc: int, credential: seq<byte>)
      requires device.Valid() && device.NeverRecreated() && Blank(device.bus.chip.objects) && salt.Length == 16
      modifies device`up, device`inUserSession, device`authenticatedId, device.bus`chip, device.bus`calm, device.bus`log
      modifies salt
      ensures device.Valid() && device.NeverRecreated() && device.PinVerifies() == old(device.PinVerifies())
      ensures Blank(device.bus.chip.objects)
      ensures Elsewhere(device.bus.chip.objects) == old(Elsewhere(device.bus.chip.objects))
      ensures rc == OK ==> credential == derive(pinKey, salt[..]) && device.up && !device.inUserSession
      ensures rc == OK ==> old(ResetUsable(device.bus.chip.objects, device.resetKey))
      ensures old(ResetUsable(device.bus.chip.objects, device.resetKey)) ==>
                ResetUsable(device.bus.chip.objects, device.resetKey)
      ensures device.bus.chip.version == old(device.bus.chip.version) && device.bus.calm <= old(device.bus.calm)
      ensures old(device.up) && !old(device.inUserSession) && old(device.bus.calm) >= 7
              && device.configured && device.bus.chip.version == (7, 2)
              && old(ResetUsable(device.bus.chip.objects, device.resetKey))
              ==> rc == OK && device.bus.calm == old(device.bus.calm) - if RESET_ID in old(device.bus.chip.objects) then 4
                                                                        else 5
    {
      credential := [];
      rc := device.ResetAuth();
      WalletUntouched(old(device.bus.chip.objects), device.bus.chip.objects);
      if rc == OK {
        rc := device.Open();
      }
      if rc == OK {
        rc := Random(salt);
      }
      if rc == OK {
        rc, credential := PinCredential(pinKey, salt[..]);
      }
    }

    /** Write the three objects, in the order salt, PIN, seed. */
    method WriteObjects(ghost pinKey: seq<byte>, salt: seq<byte>, credential: seq<byte>, seed: seq<byte>)
      returns (rc: int)
      requires device.Valid() && device.NeverRecreated() && Blank(device.bus.chip.objects)
      requires |seed| == 64 && |salt| == 16 && credential == derive(pinKey, salt)
      modifies device`up, device.bus`chip, device.bus`calm, device.bus`log
      ensures device.Valid() && device.NeverRecreated()
      ensures rc == OK || rc == ERROR
      ensures ProvisionedBy(device.bus.chip.objects, derive, pinKey, seed)
      ensures old(ResetUsable(device.bus.chip.objects, device.resetKey)) ==>
                ResetUsable(device.bus.chip.objects, device.resetKey)
      ensures Elsewhere(device.bus.chip.objects) == Elsewhere(old(device.bus.chip.objects))
      ensures device.PinVerifies() == old(device.PinVerifies())
      ensures rc == OK ==> Complete(device.bus.chip.objects) && device.bus.chip.objects[PIN_ID].value == credential
      ensures device.bus.chip.version == old(device.bus.chip.version)
      ensures old(device.up) && old(device.bus.calm) >= 3 ==>
                rc == OK && device.up && device.bus.calm == old(device.bus.calm) - 3
    {
      rc := device.Write(SALT_ID, 0, salt);
      if rc == OK {
        rc := device.User(PIN_ID, credential, PIN_LIMIT);
      }
      if rc == OK {
        rc := device.Write(SEED_ID, PIN_ID, seed);
      }
    }

    /** Prove that the credential opens the seed, and that what is stored is what was meant. */
    method Confirm(credential: seq<byte>, seed: seq<byte>, check: array<byte>) returns (rc: int)
      requires device.Valid() && device.NeverRecreated() && Complete(device.bus.chip.objects)
      requires device.bus.chip.objects[PIN_ID] == UserId(credential, PIN_LIMIT, 0)
      requires device.bus.chip.objects[SEED_ID] == Binary(PIN_ID, seed)
      requires |seed| == 64 && check.Length == 64
      modifies device`up, device`inUserSession, device`authenticatedId, device.bus`chip, device.bus`calm, device.bus`log
      modifies check
      ensures device.Valid() && device.NeverRecreated()
      ensures rc == OK || rc == ERROR
      ensures device.bus.chip.objects == old(device.bus.chip.objects)
      ensures device.bus.chip.version == old(device.bus.chip.version)
      ensures old(device.PinVerifies()) <= device.PinVerifies() <= old(device.PinVerifies()) + 1
      ensures old(device.up) && !old(device.inUserSession) && old(device.bus.calm) >= 3 ==> rc == OK
      ensures device.bus.jammed && old(device.bus.calm) == 0 ==> rc == ERROR
    {
      ghost var before := device.bus.chip.objects;
      assert before[PIN_ID := AfterVerify(before[PIN_ID], credential)] == before;
      rc := device.Auth(PIN_ID, credential);
      if rc == OK {
        rc := device.Read(SEED_ID, check);
      }
      if rc != OK {
        return ERROR;
      }
      var diff := false;
      for i := 0 to 64
        invariant diff <==> exists k :: 0 <= k < i && check[k] != seed[k]
      {
        diff := diff || check[i] != seed[i];
      }
      rc := if diff then ERROR else OK;
    }

    /** Exactly one verification per submission; every outcome but OK leaves the output wiped. */
    method Unlock(pinKey: Option<seq<byte>>, seed: array?<byte>) returns (rc: int)
      requires Valid()
      requires seed != null ==> seed.Length == 64
      modifies this`state, this`scanned, device`up, device`inUserSession, device`authenticatedId, device.bus`chip
      modifies device.bus`calm, device.bus`log, (if seed == null then {} else {seed})
      ensures Valid()
      ensures Allowed(derive, device.resetKey, old(Now()),
                      Call.Unlock(pinKey, if seed == null then None else Some(seed[..]), rc), Now())
      ensures pinKey.Some? && seed != null ==> !device.up
      ensures scanned == old(scanned)
      ensures device.bus.chip.version == old(device.bus.chip.version)
      // Undisturbed, the result says exactly whether this PIN key unlocks the chip.
      ensures old(device.bus.calm) >= 8 && device.configured && device.bus.chip.version == (7, 2) && pinKey.Some? && seed != null
              && Complete(old(device.bus.chip.objects)) && WellFormed(old(device.bus.chip.objects)) ==>
                && rc == (if Unlocks(old(device.bus.chip.objects), derive, pinKey.value) then OK else PIN_REJECTED)
                && device.bus.chip.objects == Counted(old(device.bus.chip.objects), derive, pinKey.value)
    {
      if seed != null {
        Wipe(seed);
      }
      if pinKey.None? || seed == null {
        return ERROR;
      }
      var salt := new byte[16];
      rc := Attempt(pinKey.value, seed, salt);
      if rc != OK {
        Wipe(seed);
      }
      device.Close();
      Wipe(salt);
    }

    /** The steps of an unlock, up to its single exit. */
    method Attempt(pinKey: seq<byte>, seed: array<byte>, salt: array<byte>) returns (rc: int)
      requires Valid() && seed.Length == 64 && salt.Length == 16 && seed != salt
      modifies this`state, device`up, device`inUserSession, device`authenticatedId, device.bus`chip, device.bus`calm
      modifies device.bus`log, seed, salt
      ensures Valid()
      ensures UnlockAllowed(derive, old(Now()), Some(pinKey), Some(if rc == OK then seed[..] else Zeros(64)), rc, Now())
      ensures old(ResetUsable(device.bus.chip.objects, device.resetKey)) ==>
                ResetUsable(device.bus.chip.objects, device.resetKey)
      ensures old(device.PinVerifies()) <= device.PinVerifies()
      ensures device.bus.chip.version == old(device.bus.chip.version)
      ensures old(device.bus.calm) >= 8 && device.configured && device.bus.chip.version == (7, 2)
              && Complete(old(device.bus.chip.objects)) && WellFormed(old(device.bus.chip.objects)) ==>
                && rc == (if Unlocks(old(device.bus.chip.objects), derive, pinKey) then OK else PIN_REJECTED)
                && device.bus.chip.objects == Counted(old(device.bus.chip.objects), derive, pinKey)
    {
      rc := Scan();
      if rc != OK || state != Ready {
        return ERROR;
      }
      rc := TryPin(pinKey, seed, salt);
    }

    /** On a chip that holds everything: read the salt, verify once, read the seed. */
    method TryPin(pinKey: seq<byte>, seed: array<byte>, salt: array<byte>) returns (rc: int)
      requires device.Valid() && device.NeverRecreated() && Complete(device.bus.chip.objects) && state == Ready
      requires seed.Length == 64 && salt.Length == 16 && seed != salt
      modifies this`state, device`up, device`inUserSession, device`authenticatedId, device.bus`chip, device.bus`calm
      modifies device.bus`log, seed, salt
      ensures Valid()
      ensures UnlockAllowed(derive, old(Now()), Some(pinKey), Some(if rc == OK then seed[..] else Zeros(64)), rc, Now())
      ensures old(ResetUsable(device.bus.chip.objects, device.resetKey)) ==>
                ResetUsable(device.bus.chip.objects, device.resetKey)
      ensures old(device.PinVerifies()) <= device.PinVerifies()
      ensures device.bus.chip.version == old(device.bus.chip.version)
      ensures old(device.bus.calm) >= 4 && old(device.up) && !old(device.inUserSession)
              && WellFormed(old(device.bus.chip.objects)) ==>
                && rc == (if Unlocks(old(device.bus.chip.objects), derive, pinKey) then OK else PIN_REJECTED)
                && device.bus.chip.objects == Counted(old(device.bus.chip.objects), derive, pinKey)
    {
      var credential: seq<byte> := [];
      rc := device.Read(SALT_ID, salt);
      if rc == OK {
        rc, credential := PinCredential(pinKey, salt[..]);
      }
      if rc != OK {
        state := Unavailable;
        return ERROR;
      }
      rc := device.Auth(PIN_ID, credential);
      if rc != OK {
        state := if rc == PIN_REJECTED then AuthRejected else Unavailable;
        return;
      }
      rc := device.Read(SEED_ID, seed);
      if rc != OK {
        state := Unavailable;
      }
    }

    /** DeleteAll's own answer proves nothing: only a fresh scan that finds the chip blank is success. */
    method Erase() returns (rc: int)
      requires Valid()
      modifies this`state, this`scanned, device`up, device`inUserSession, device`authenticatedId, device.bus`chip
      modifies device.bus`calm, device.bus`log
      ensures Valid() && scanned && !device.up
      ensures Allowed(derive, device.resetKey, old(Now()), Call.Erase(rc), Now())
      ensures rc == OK || rc == ERROR
      ensures rc == OK ==> ResetUsable(device.bus.chip.objects, device.resetKey)
      ensures device.bus.chip.version == old(device.bus.chip.version)
      // Undisturbed, it succeeds exactly when the reset user is usable.
      ensures old(device.bus.calm) >= 20 && device.configured && device.bus.chip.version == (7, 2)
              ==> (rc == OK <==> ResetUsable(old(device.bus.chip.objects), device.resetKey))
      ensures device.bus.calm <= old(device.bus.calm)
      ensures (rc == OK && old(device.bus.calm) >= 20 ==> device.bus.calm >= old(device.bus.calm) - 20)
    {
      rc := EraseSteps();
      if rc != OK {
        state := Unavailable;
        rc := ERROR;
      }
      scanned := true;
      device.Close();
    }

    /** The steps of an erase, up to its single exit. */
    method EraseSteps() returns (rc: int)
      requires Valid()
      modifies this`state, device`up, device`inUserSession, device`authenticatedId, device.bus`chip, device.bus`calm
      modifies device.bus`log
      ensures device.Valid() && device.NeverRecreated() && device.PinVerifies() == old(device.PinVerifies())
      ensures Wallet(device.bus.chip.objects) == old(Wallet(device.bus.chip.objects)) || Blank(device.bus.chip.objects)
      ensures rc == OK || old(ResetUsable(device.bus.chip.objects, device.resetKey)) ==>
                ResetUsable(device.bus.chip.objects, device.resetKey)
      ensures rc == OK ==>
                && state == Empty
                && Blank(device.bus.chip.objects)
                && old(ResetUsable(device.bus.chip.objects, device.resetKey))
      ensures device.bus.chip.version == old(device.bus.chip.version)
      ensures device.bus.calm <= old(device.bus.calm)
      ensures old(device.bus.calm) >= 20 && device.configured && device.bus.chip.version == (7, 2)
              && old(ResetUsable(device.bus.chip.objects, device.resetKey))
              ==> rc == OK
      ensures old(device.bus.calm) >= 20 && rc == OK ==> device.bus.calm >= old(device.bus.calm) - 20
    {
      rc := device.Open();
      if rc == OK {
        rc := device.ResetAuth();
      }
      WalletUntouched(old(device.bus.chip.objects), device.bus.chip.objects);
      SameWallet(old(device.bus.chip.objects), device.bus.chip.objects);
      if rc == OK {
        rc := DeleteAndScan();
      }
    }

    /** As the reset user: delete, and look whether the chip is blank. */
    method DeleteAndScan() returns (rc: int)
      requires device.Valid() && device.NeverRecreated()
      modifies this`state, device`up, device`inUserSession, device`authenticatedId, device.bus`chip, device.bus`calm
      modifies device.bus`log
      ensures device.Valid() && device.NeverRecreated() && device.PinVerifies() == old(device.PinVerifies())
      ensures Wallet(device.bus.chip.objects) == old(Wallet(device.bus.chip.objects)) || Blank(device.bus.chip.objects)
      ensures old(ResetUsable(device.bus.chip.objects, device.resetKey)) ==>
                ResetUsable(device.bus.chip.objects, device.resetKey)
      ensures rc == OK ==> state == Empty && Blank(device.bus.chip.objects)
      ensures device.bus.chip.version == old(device.bus.chip.version)
      ensures device.bus.calm <= old(device.bus.calm)
      ensures old(device.bus.calm) >= 5 && device.configured && device.bus.chip.version == (7, 2)
              && old(device.up && device.inUserSession && device.authenticatedId == RESET_ID
                     && device.bus.chip.session == Authenticated(RESET_ID)) ==>
                rc == OK
      ensures old(device.bus.calm) >= 5 && rc == OK ==> device.bus.calm >= old(device.bus.calm) - 5
    {
      var _ := device.DeleteAll();
      rc := Scan();
      if rc == OK && state != Empty {
        rc := ERROR;
      }
    }
  }
}
