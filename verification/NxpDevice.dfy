/**
 The host's single secure channel to the chip, after src/security/nxp/device.c. Any failed
 exchange drops the channel; it stays down until it is opened again.
 */
module NxpDevice {
  import opened Bytes
  import opened NxpChip

  const OK := 0
  const ERROR := -1
  const PIN_REJECTED := -2
  const CREDENTIALS_MISSING := -3

  /** Overwrite a buffer with zeros. */
  method Wipe(a: array<byte>)
    modifies a
    ensures a[..] == Zeros(a.Length)
  {
    for i := 0 to a.Length
      invariant forall k :: 0 <= k < i ==> a[k] == 0
    {
      a[i] := 0;
    }
  }

  class Device {
    const bus: Bus
    const resetKey: seq<byte>
    var configured: bool
    var up: bool
    var inUserSession: bool
    var authenticatedId: nat

    ghost predicate Valid()
      reads this, bus
    {
      var trace := Replay(bus.log);
      && trace.disciplined
      && (up ==>
            && trace.up
            && bus.chip.session == SessionOf(trace)
            && (authenticatedId == PIN_ID ==> trace.auth == PIN_ID))
      && (authenticatedId != 0 ==> inUserSession)
    }

    /** PIN verifications sent so far. */
    ghost function PinVerifies(): nat
      reads bus
    {
      Replay(bus.log).pinVerifies
    }

    /** No create was ever sent for an object that existed. */
    ghost predicate NeverRecreated()
      reads bus
    {
      Replay(bus.log).newborn
    }

    constructor (bus: Bus, resetKey: seq<byte>)
      requires Replay(bus.log).disciplined
      ensures Valid() && this.bus == bus && this.resetKey == resetKey && !up && authenticatedId == 0
    {
      this.bus := bus;
      this.resetKey := resetKey;
      configured := true;
      up := false;
      inUserSession := false;
      authenticatedId := 0;
    }

    /** One protected exchange; any error drops the channel before returning. */
    method Exchange(cmd: Command) returns (rc: int, reply: Reply)
      requires Valid()
      requires cmd == ReadObject(SEED_ID) ==> authenticatedId == PIN_ID
      requires cmd.CreateSession? ==> cmd.id != 0 && authenticatedId == 0
      requires cmd.VerifySession? ==> authenticatedId == 0
      modifies this`up, bus`chip, bus`calm, bus`log
      ensures Valid()
      ensures !old(up) ==>
                rc == ERROR && !up && bus.chip == old(bus.chip) && bus.log == old(bus.log) && bus.calm == old(bus.calm)
      ensures up ==> Replay(bus.log) == Next(Replay(old(bus.log)), Sent(cmd, true, old(bus.chip).objects.Keys))
      ensures old(PinVerifies()) <= PinVerifies()
              <= old(PinVerifies()) + if cmd.VerifySession? && Replay(old(bus.log)).target == PIN_ID then 1 else 0
      ensures old(NeverRecreated()) && (Creates(cmd) ==> cmd.id !in old(bus.chip).objects) ==> NeverRecreated()
      ensures old(up) ==> bus.calm == if old(bus.calm) > 0 then old(bus.calm) - 1 else 0
      ensures bus.chip == old(bus.chip) || Applied(old(bus.chip), cmd, bus.chip)
      ensures up ==> rc == OK
      ensures rc == OK ==> up || cmd.DeleteAll?
      ensures rc == OK && up ==> Applied(old(bus.chip), cmd, bus.chip) && reply == Answer(old(bus.chip), cmd)
      ensures rc == OK && up ==> reply != Refused && reply != Rejected
      ensures rc == OK || rc == ERROR || rc == PIN_REJECTED
      ensures old(up) && old(bus.calm) > 0 ==> Applied(old(bus.chip), cmd, bus.chip)
      ensures old(up) && old(bus.calm) > 0 && Answer(old(bus.chip), cmd) !in {Refused, Rejected} ==> rc == OK && up
      ensures old(up) && old(bus.calm) > 0 && Answer(old(bus.chip), cmd) == Rejected ==> rc == PIN_REJECTED
      ensures old(up) && old(bus.calm) == 0 && bus.jammed ==> rc == ERROR && bus.chip == old(bus.chip)
    {
      if !up {
        return ERROR, Refused;
      }
      ghost var before := bus.log;
      var outcome := bus.Transceive(cmd);
      Extend(before, bus.log[|before|]);
      match outcome {
        case Accepted(r) => rc, reply := OK, r;
        case BareSuccess =>
          rc, reply := if cmd.DeleteAll? then OK else ERROR, Done;
          up := false;
        case Denied => rc, reply, up := PIN_REJECTED, Rejected, false;
        case Failed => rc, reply, up := ERROR, Refused, false;
      }
    }

    method Close()
      requires Valid()
      modifies this`up, this`inUserSession, this`authenticatedId
      ensures Valid() && !up && !inUserSession && authenticatedId == 0
    {
      up, inUserSession, authenticatedId := false, false, 0;
    }

    /** Open a fresh channel and check the authenticated applet version. */
    method Open() returns (rc: int)
      requires Valid()
      modifies this`up, this`inUserSession, this`authenticatedId, bus`chip, bus`calm, bus`log
      ensures Valid() && (up <==> rc == OK) && !inUserSession && authenticatedId == 0
      ensures up ==> bus.chip.session == NoSession
      ensures bus.chip.objects == old(bus.chip.objects) && bus.chip.version == old(bus.chip.version)
      ensures PinVerifies() == old(PinVerifies())
      ensures old(NeverRecreated()) ==> NeverRecreated()
      ensures rc == CREDENTIALS_MISSING ==> !configured
      ensures old(bus.calm) > 0 && !configured ==> rc == CREDENTIALS_MISSING
      ensures rc == OK ==> configured && bus.chip.version == (7, 2)
      ensures bus.calm <= old(bus.calm)
      ensures old(bus.calm) >= 1 && configured && bus.chip.version == (7, 2) ==>
                rc == OK && bus.calm == old(bus.calm) - 1
      ensures old(bus.calm) >= 1 ==> bus.calm >= old(bus.calm) - 1
      ensures old(bus.calm) == 0 && bus.jammed ==> rc != OK
    {
      Close();
      var cryptoReady := *;
      if !cryptoReady && bus.calm == 0 {
        return ERROR;
      }
      if !configured {
        return CREDENTIALS_MISSING;
      }
      ghost var before := bus.log;
      var connected := bus.Connect();
      if !connected {
        return ERROR;
      }
      Extend(before, Connected);
      up := true;
      rc := CheckVersion();
    }

    /** On a fresh channel: the version the applet reports, or the channel closed. */
    method CheckVersion() returns (rc: int)
      requires Valid() && up && !inUserSession && authenticatedId == 0
      modifies this`up, this`inUserSession, this`authenticatedId, bus`chip, bus`calm, bus`log
      ensures Valid() && (up <==> rc == OK) && !inUserSession && authenticatedId == 0
      ensures bus.chip == old(bus.chip) && (rc == OK || rc == ERROR)
      ensures PinVerifies() == old(PinVerifies())
      ensures old(NeverRecreated()) ==> NeverRecreated()
      ensures rc == OK ==> bus.chip.version == (7, 2)
      ensures bus.calm == if old(bus.calm) > 0 then old(bus.calm) - 1 else 0
      ensures old(bus.calm) >= 1 && bus.chip.version == (7, 2) ==> rc == OK
      ensures old(bus.calm) == 0 && bus.jammed ==> rc != OK
    {
      var reply: Reply;
      rc, reply := Exchange(GetVersion);
      if rc != OK || reply != Version((7, 2)) {
        Close();
        return ERROR;
      }
    }

    method Exists(id: nat) returns (rc: int, present: bool)
      requires Valid()
      modifies this`up, bus`chip, bus`calm, bus`log
      ensures Valid() && bus.chip == old(bus.chip)
      ensures rc == OK ==> up && present == (id in bus.chip.objects)
      ensures rc != OK ==> rc == ERROR && !up
      ensures PinVerifies() == old(PinVerifies())
      ensures old(NeverRecreated()) ==> NeverRecreated()
      ensures bus.calm <= old(bus.calm)
      ensures old(up) && old(bus.calm) >= 1 ==> rc == OK && bus.calm == old(bus.calm) - 1
      ensures old(bus.calm) == 0 && bus.jammed ==> rc != OK
    {
      var reply: Reply;
      present := false;
      rc, reply := Exchange(CheckExists(id));
      if rc != OK || !reply.Presence? {
        up := false;
        return ERROR, false;
      }
      present := reply.exists_;
    }

    /** Read an object into `data`; a failure leaves nothing of a partial reply behind. A buffer longer than a
        reply can fill is refused at once and left alone. */
    method Read(id: nat, data: array<byte>) returns (rc: int)
      requires Valid()
      modifies this`up, bus`chip, bus`calm, bus`log, data
      ensures Valid() && bus.chip == old(bus.chip)
      ensures rc == OK ==> up && Readable(bus.chip, id) && data[..] == bus.chip.objects[id].data
      ensures rc != OK ==> rc == ERROR
      ensures data.Length > 64 ==> rc != OK && data[..] == old(data[..]) && bus.log == old(bus.log) && up == old(up)
      ensures data.Length <= 64 && rc != OK ==> data[..] == Zeros(data.Length)
      ensures id == SEED_ID && authenticatedId != PIN_ID ==> rc != OK && bus.log == old(bus.log)
      ensures PinVerifies() == old(PinVerifies())
      ensures old(NeverRecreated()) ==> NeverRecreated()
      ensures bus.calm <= old(bus.calm)
      ensures old(up) && old(bus.calm) >= 1 && (id == SEED_ID ==> authenticatedId == PIN_ID)
              && Readable(bus.chip, id) && |bus.chip.objects[id].data| == data.Length <= 64
              ==> rc == OK && bus.calm == old(bus.calm) - 1
      ensures old(bus.calm) == 0 && bus.jammed ==> rc != OK
    {
      if data.Length > 64 {
        return ERROR;
      }
      if id == SEED_ID && authenticatedId != PIN_ID {
        Wipe(data);
        return ERROR;
      }
      var reply: Reply;
      rc, reply := Exchange(ReadObject(id));
      if rc == OK && reply.Content? && |reply.data| == data.Length {
        for i := 0 to data.Length
          invariant data[..i] == reply.data[..i]
          modifies data
        {
          data[i] := reply.data[i];
        }
        assert data[..] == reply.data;
      } else {
        Wipe(data);
        up := false;
        rc := ERROR;
      }
    }

    method Write(id: nat, reader: nat, data: seq<byte>) returns (rc: int)
      requires Valid()
      modifies this`up, bus`chip, bus`calm, bus`log
      ensures Valid()
      ensures bus.chip.version == old(bus.chip.version) && bus.chip.session == old(bus.chip.session)
      ensures bus.chip.objects == old(bus.chip.objects)
              || (id !in old(bus.chip.objects) && bus.chip.objects == old(bus.chip.objects)[id := Binary(reader, data)])
      ensures rc == OK ==>
                && up
                && id !in old(bus.chip.objects)
                && bus.chip.objects == old(bus.chip.objects)[id := Binary(reader, data)]
      ensures rc != OK ==> rc == ERROR
      ensures |data| == 0 || |data| > 64 ==> rc == ERROR && bus.log == old(bus.log) && bus.chip == old(bus.chip)
      ensures PinVerifies() == old(PinVerifies())
      ensures old(NeverRecreated()) && id !in old(bus.chip.objects) ==> NeverRecreated()
      ensures bus.calm <= old(bus.calm)
      ensures old(up) && old(bus.calm) >= 1 && id !in old(bus.chip.objects) && 0 < |data| <= 64
              ==> rc == OK && bus.calm == old(bus.calm) - 1
      ensures old(bus.calm) == 0 && bus.jammed ==> rc != OK && bus.chip == old(bus.chip)
    {
      if |data| > 64 || |data| == 0 {
        return ERROR;
      }
      var reply: Reply;
      rc, reply := Exchange(WriteBinary(id, reader, data));
      rc := if rc == OK then OK else ERROR;
    }

    method User(id: nat, value: seq<byte>, attempts: nat) returns (rc: int)
      requires Valid()
      modifies this`up, bus`chip, bus`calm, bus`log
      ensures Valid()
      ensures bus.chip.version == old(bus.chip.version) && bus.chip.session == old(bus.chip.session)
      ensures bus.chip.objects == old(bus.chip.objects)
              || (id !in old(bus.chip.objects) && bus.chip.objects == old(bus.chip.objects)[id := UserId(value, attempts, 0)])
      ensures rc == OK ==>
                && up
                && id !in old(bus.chip.objects)
                && bus.chip.objects == old(bus.chip.objects)[id := UserId(value, attempts, 0)]
      ensures rc != OK ==> rc == ERROR
      ensures attempts > 255 ==> rc == ERROR && bus.log == old(bus.log) && bus.chip == old(bus.chip)
      ensures PinVerifies() == old(PinVerifies())
      ensures old(NeverRecreated()) && id !in old(bus.chip.objects) ==> NeverRecreated()
      ensures bus.calm <= old(bus.calm)
      ensures old(up) && old(bus.calm) >= 1 && id !in old(bus.chip.objects) && attempts <= 255
              ==> rc == OK && bus.calm == old(bus.calm) - 1
      ensures old(bus.calm) == 0 && bus.jammed ==> rc != OK && bus.chip == old(bus.chip)
    {
      if attempts > 255 {
        return ERROR;
      }
      var reply: Reply;
      rc, reply := Exchange(WriteUser(id, value, attempts));
      rc := if rc == OK then OK else ERROR;
    }

    /** Open a user session as `id` and verify `value` in it, once. */
    method Auth(id: nat, value: seq<byte>) returns (rc: int)
      requires Valid() && id != 0
      modifies this`up, this`inUserSession, this`authenticatedId, bus`chip, bus`calm, bus`log
      ensures Valid() && bus.chip.version == old(bus.chip.version)
      ensures bus.chip.objects == old(bus.chip.objects)
              || (id in old(bus.chip.objects) && old(bus.chip.objects)[id].UserId?
                  && bus.chip.objects == old(bus.chip.objects)[id := AfterVerify(old(bus.chip.objects)[id], value)])
      ensures rc == OK ==>
                && up && inUserSession && authenticatedId == id && bus.chip.session == Authenticated(id)
                && id in old(bus.chip.objects) && old(bus.chip.objects)[id].UserId?
                && !Exhausted(old(bus.chip.objects)[id]) && old(bus.chip.objects)[id].value == value
                && bus.chip.objects == old(bus.chip.objects)[id := AfterVerify(old(bus.chip.objects)[id], value)]
      ensures rc == OK || rc == ERROR || rc == PIN_REJECTED
      ensures old(ResetUsable(bus.chip.objects, resetKey)) && (id == RESET_ID ==> value == resetKey) ==>
                ResetUsable(bus.chip.objects, resetKey)
      ensures old(inUserSession) ==> rc == ERROR && bus.chip == old(bus.chip)
      ensures old(PinVerifies()) <= PinVerifies() <= old(PinVerifies()) + if id == PIN_ID then 1 else 0
      ensures old(NeverRecreated()) ==> NeverRecreated()
      ensures bus.calm <= old(bus.calm)
      ensures old(up) && !old(inUserSession) && old(bus.calm) >= 2
              && id in old(bus.chip.objects) && old(bus.chip.objects)[id].UserId? ==>
                && bus.calm == old(bus.calm) - 2
                && bus.chip.objects == old(bus.chip.objects)[id := AfterVerify(old(bus.chip.objects)[id], value)]
                && rc == if !Exhausted(old(bus.chip.objects)[id]) && old(bus.chip.objects)[id].value == value then OK
                         else PIN_REJECTED
      ensures old(bus.calm) == 0 && bus.jammed ==> rc != OK && bus.chip == old(bus.chip)
    {
      if inUserSession {
        return ERROR;
      }
      var reply: Reply;
      rc, reply := Exchange(CreateSession(id));
      if rc != OK {
        return rc;
      }
      inUserSession := true;
      rc, reply := Exchange(VerifySession(value));
      if rc == OK {
        authenticatedId := id;
      }
    }

    /** Authenticate as the reset user, creating it on first use. */
    method ResetAuth() returns (rc: int)
      requires Valid()
      modifies this`up, this`inUserSession, this`authenticatedId, bus`chip, bus`calm, bus`log
      ensures Valid() && bus.chip.version == old(bus.chip.version)
      ensures bus.chip.objects - {RESET_ID} == old(bus.chip.objects) - {RESET_ID}
      ensures rc == OK ==>
                up && inUserSession && authenticatedId == RESET_ID && bus.chip.session == Authenticated(RESET_ID)
      ensures rc == OK ==> ResetUsable(old(bus.chip).objects, resetKey)
      ensures rc == OK || old(ResetUsable(bus.chip.objects, resetKey)) ==> ResetUsable(bus.chip.objects, resetKey)
      ensures PinVerifies() == old(PinVerifies())
      ensures old(NeverRecreated()) ==> NeverRecreated()
      ensures bus.calm <= old(bus.calm)
      ensures old(up) && !old(inUserSession) && old(bus.calm) >= 4 && ResetUsable(old(bus.chip).objects, resetKey)
              ==> rc == OK && bus.calm == old(bus.calm) - if RESET_ID in old(bus.chip.objects) then 3 else 4
      ensures old(bus.calm) == 0 && bus.jammed ==> rc != OK && bus.chip == old(bus.chip)
    {
      var present: bool;
      rc, present := Exists(RESET_ID);
      if rc != OK {
        return ERROR;
      }
      if !present {
        rc := User(RESET_ID, resetKey, 0);
        if rc != OK {
          return ERROR;
        }
      }
      rc := Auth(RESET_ID, resetKey);
    }

    method DeleteAll() returns (rc: int)
      requires Valid()
      modifies this`up, bus`chip, bus`calm, bus`log
      ensures Valid() && bus.chip.version == old(bus.chip.version)
      ensures bus.chip.objects == old(bus.chip.objects) || bus.chip.objects.Keys <= {RESET_ID}
      ensures !old(inUserSession) || authenticatedId != RESET_ID ==> rc == ERROR && bus.log == old(bus.log)
      ensures old(ResetUsable(bus.chip.objects, resetKey)) ==> ResetUsable(bus.chip.objects, resetKey)
      ensures RESET_ID in bus.chip.objects ==>
                RESET_ID in old(bus.chip.objects) && bus.chip.objects[RESET_ID] == old(bus.chip.objects)[RESET_ID]
      ensures PinVerifies() == old(PinVerifies())
      ensures old(NeverRecreated()) ==> NeverRecreated()
      ensures bus.calm <= old(bus.calm)
      ensures old(bus.calm) >= 1 ==> bus.calm >= old(bus.calm) - 1
      ensures old(up) && old(inUserSession) && old(bus.calm) >= 1 && authenticatedId == RESET_ID
              && old(bus.chip.session) == Authenticated(RESET_ID) ==>
                bus.chip.objects.Keys <= {RESET_ID}
      ensures old(bus.calm) == 0 && bus.jammed ==> bus.chip == old(bus.chip)
    {
      if !inUserSession || authenticatedId != RESET_ID {
        return ERROR;
      }
      var reply: Reply;
      rc, reply := Exchange(Command.DeleteAll);
    }
  }

  /** The reset user can be authenticated: absent, and so about to be created, or holding this key. */
  predicate ResetUsable(objects: Objects, key: seq<byte>) {
    RESET_ID in objects ==>
      objects[RESET_ID].UserId? && objects[RESET_ID].value == key && !Exhausted(objects[RESET_ID])
  }
}
