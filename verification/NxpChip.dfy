/**
 The A5000 secure element and the bus in front of it: the environment of the seed store.
 Objects and attempt counters persist; a new secure channel only closes the user session.
 */
module NxpChip {
  import opened Bytes

  const PIN_ID := 0x4f534b01
  const SEED_ID := 0x4f534b02
  const SALT_ID := 0x4f534b03
  const RESET_ID := 0x7fff0205
  const PIN_LIMIT := 10

  datatype Object =
    | UserId(value: seq<byte>, limit: nat, failures: nat)
    | Binary(reader: nat, data: seq<byte>)

  type Objects = map<nat, Object>

  /** The user session the chip holds inside the secure channel. */
  datatype Session = NoSession | Opened(id: nat) | Authenticated(id: nat)

  datatype Chip = Chip(objects: Objects, session: Session, version: (nat, nat))

  datatype Command =
    | GetVersion
    | CheckExists(id: nat)
    | ReadObject(id: nat)
    | WriteBinary(id: nat, reader: nat, data: seq<byte>)
    | WriteUser(id: nat, value: seq<byte>, limit: nat)
    | CreateSession(id: nat)
    | VerifySession(value: seq<byte>)
    | DeleteAll

  datatype Reply = Done | Version(v: (nat, nat)) | Presence(exists_: bool) | Content(data: seq<byte>) | Refused | Rejected

  /** A UserID object whose attempts are used up. A limit of zero means no limit. */
  predicate Exhausted(o: Object) {
    o.UserId? && o.limit != 0 && o.failures >= o.limit
  }

  /** What one verification of `value` does to the attempt counter. */
  function AfterVerify(o: Object, value: seq<byte>): Object
    requires o.UserId?
  {
    if Exhausted(o) then o
    else if value == o.value then o.(failures := 0)
    else o.(failures := o.failures + 1)
  }

  predicate Readable(c: Chip, id: nat) {
    id in c.objects && c.objects[id].Binary? &&
    (c.objects[id].reader == 0 || c.session == Authenticated(c.objects[id].reader))
  }

  predicate Verifiable(c: Chip) {
    c.session.Opened? && c.session.id in c.objects && c.objects[c.session.id].UserId?
  }

  /** The chip's own, authenticated answer to a command that reaches it. */
  function Answer(c: Chip, cmd: Command): Reply {
    match cmd
    case GetVersion => Version(c.version)
    case CheckExists(id) => Presence(id in c.objects)
    case ReadObject(id) => if Readable(c, id) then Content(c.objects[id].data) else Refused
    case WriteBinary(id, _, _) => if id in c.objects then Refused else Done
    case WriteUser(id, _, _) => if id in c.objects then Refused else Done
    case CreateSession(id) => if id in c.objects && c.objects[id].UserId? then Done else Refused
    case VerifySession(value) =>
      if !Verifiable(c) then Refused
      else if Exhausted(c.objects[c.session.id]) || value != c.objects[c.session.id].value then Rejected
      else Done
    case DeleteAll => if c.session == Authenticated(RESET_ID) then Done else Refused
  }

  /** The chip after a command that reaches it. DeleteAll may or may not spare the reset object. */
  function Apply(c: Chip, cmd: Command, keepReset: bool): Chip {
    match cmd
    case GetVersion => c
    case CheckExists(_) => c
    case ReadObject(_) => c
    case WriteBinary(id, reader, data) =>
      if id in c.objects then c else c.(objects := c.objects[id := Binary(reader, data)])
    case WriteUser(id, value, limit) =>
      if id in c.objects then c else c.(objects := c.objects[id := UserId(value, limit, 0)])
    case CreateSession(id) => if Answer(c, cmd).Done? then c.(session := Opened(id)) else c
    case VerifySession(value) =>
      if !Verifiable(c) then c
      else
        var id := c.session.id;
        c.(objects := c.objects[id := AfterVerify(c.objects[id], value)],
           session := if Answer(c, cmd).Done? then Authenticated(id) else c.session)
    case DeleteAll =>
      if c.session != Authenticated(RESET_ID) then c
      else if keepReset && RESET_ID in c.objects then
        c.(objects := map[RESET_ID := c.objects[RESET_ID]], session := NoSession)
      else c.(objects := map[], session := NoSession)
  }

  /** What the host sees: an authenticated reply, a bare 9000 status, a 6985 status or any other failure. */
  datatype Outcome = Accepted(reply: Reply) | BareSuccess | Denied | Failed

  predicate Applied(before: Chip, cmd: Command, after: Chip) {
    after == Apply(before, cmd, true) || after == Apply(before, cmd, false)
  }

  /** One exchange under any fault: the command may be lost, or its reply lost or replaced by an
      unauthenticated status; only the chip can produce an authenticated reply. */
  predicate Exchanged(before: Chip, cmd: Command, after: Chip, outcome: Outcome) {
    && (after == before || Applied(before, cmd, after))
    && (outcome.Accepted? ==>
          Applied(before, cmd, after) && outcome.reply == Answer(before, cmd) &&
          outcome.reply != Refused && outcome.reply != Rejected)
  }

  /** An exchange on an undisturbed bus. */
  predicate Undisturbed(before: Chip, cmd: Command, after: Chip, outcome: Outcome) {
    && Applied(before, cmd, after)
    && outcome == match Answer(before, cmd)
                  case Refused => Failed
                  case Rejected => Denied
                  case reply => Accepted(reply)
  }

  /** What has crossed the bus, with the objects present when each command was sent. */
  datatype Event =
    | Connected
    | Sent(cmd: Command, accepted: bool, present: set<nat>)

  /** The host's channel as a reader of the bus trace reconstructs it, and whether every command
      so far was sent on a live channel with the right authority, and created nothing twice. */
  datatype Channel = Channel(up: bool, target: nat, auth: nat, pinVerifies: nat, disciplined: bool, newborn: bool)

  predicate Creates(cmd: Command) { cmd.WriteBinary? || cmd.WriteUser? }

  /** A command may be sent only on a live channel, and the seed read only as the PIN user. */
  predicate MaySend(c: Channel, e: Event) {
    e.Sent? ==> c.up && (e.cmd == ReadObject(SEED_ID) ==> c.auth == PIN_ID)
  }

  predicate CreatesFresh(e: Event) {
    e.Sent? && Creates(e.cmd) ==> e.cmd.id !in e.present
  }

  function Next(c: Channel, e: Event): Channel {
    var disciplined := c.disciplined && MaySend(c, e);
    var newborn := c.newborn && CreatesFresh(e);
    match e
    case Connected => Channel(true, 0, 0, c.pinVerifies, disciplined, newborn)
    case Sent(cmd, accepted, _) =>
      var verifies := c.pinVerifies + if cmd.VerifySession? && c.target == PIN_ID then 1 else 0;
      if !accepted then Channel(false, c.target, c.auth, verifies, disciplined, newborn)
      else if cmd.CreateSession? then Channel(c.up, cmd.id, 0, verifies, disciplined, newborn)
      else if cmd.VerifySession? then Channel(c.up, c.target, c.target, verifies, disciplined, newborn)
      else if cmd.DeleteAll? then Channel(c.up, 0, 0, verifies, disciplined, newborn)
      else Channel(c.up, c.target, c.auth, verifies, disciplined, newborn)
  }

  function Replay(log: seq<Event>): Channel {
    if log == [] then Channel(false, 0, 0, 0, true, true) else Next(Replay(log[..|log| - 1]), log[|log| - 1])
  }

  /** The user session the trace says the chip holds. */
  function SessionOf(c: Channel): Session {
    if c.target == 0 then NoSession else if c.auth == 0 then Opened(c.target) else Authenticated(c.auth)
  }

  lemma Extend(log: seq<Event>, e: Event)
    ensures Replay(log + [e]) == Next(Replay(log), e)
  {
  }

  predicate DisciplinedAt(log: seq<Event>, i: nat)
    requires i < |log|
  {
    MaySend(Replay(log[..i]), log[i])
  }

  /** What the folded verdict says of a whole trace: every command was sent on a channel that was live at
      that point, and the seed was read only after the PIN user was verified on that channel. */
  lemma {:induction false} DisciplineMeans(log: seq<Event>)
    ensures Replay(log).disciplined <==> forall i :: 0 <= i < |log| ==> DisciplinedAt(log, i)
  {
    if log != [] {
      var n := |log| - 1;
      var init := log[..n];
      DisciplineMeans(init);
      forall i | 0 <= i < n ensures DisciplinedAt(init, i) == DisciplinedAt(log, i) {
        assert init[..i] == log[..i];
      }
      assert Replay(log).disciplined == (Replay(init).disciplined && DisciplinedAt(log, n));
    }
  }

  /** The other verdict: no create was ever sent for an object the chip held. */
  lemma {:induction false} FreshMeans(log: seq<Event>)
    ensures Replay(log).newborn <==> forall i :: 0 <= i < |log| ==> CreatesFresh(log[i])
  {
    if log != [] {
      var n := |log| - 1;
      FreshMeans(log[..n]);
      assert Replay(log).newborn == (Replay(log[..n]).newborn && CreatesFresh(log[n]));
    }
  }

  /** After a failed exchange the channel is down until the next connection. */
  lemma {:induction false} DownUntilReconnected(log: seq<Event>, i: nat, j: nat)
    requires i < j <= |log| && log[i].Sent? && !log[i].accepted
    requires forall k :: i < k < j ==> log[k].Sent?
    ensures !Replay(log[..j]).up
  {
    assert log[..j][..j - 1] == log[..j - 1] && log[..j][j - 1] == log[j - 1];
    if j > i + 1 {
      DownUntilReconnected(log, i, j - 1);
    }
  }

  /** Fail closed, as a statement about positions of the trace. */
  lemma FailClosed(log: seq<Event>, i: nat, j: nat)
    requires Replay(log).disciplined
    requires i < j < |log| && log[i].Sent? && !log[i].accepted && log[j].Sent?
    ensures exists k :: i < k < j && log[k].Connected?
  {
    DisciplineMeans(log);
    assert DisciplinedAt(log, j);
    if forall k :: i < k < j ==> log[k].Sent? {
      DownUntilReconnected(log, i, j);
    }
  }

  /** The bus: the chip behind it, and how long it will stay undisturbed. The next `calm` exchanges
      reach the chip and are answered; after that anything may happen or, when `jammed`, nothing arrives. */
  class Bus {
    var chip: Chip
    var calm: nat
    var jammed: bool
    ghost var log: seq<Event>

    method Connect() returns (ok: bool)
      modifies this`chip, this`log
      ensures chip == old(chip) || chip == old(chip).(session := NoSession)
      ensures ok ==> chip == old(chip).(session := NoSession) && log == old(log) + [Connected]
      ensures !ok ==> log == old(log)
      ensures calm > 0 ==> ok
      ensures calm == 0 && jammed ==> !ok
    {
      ok := calm > 0;
      if calm == 0 && !jammed {
        ok := *;
      }
      if ok {
        chip := chip.(session := NoSession);
        log := log + [Connected];
      }
    }

    method Transceive(cmd: Command) returns (outcome: Outcome)
      modifies this`chip, this`calm, this`log
      ensures Exchanged(old(chip), cmd, chip, outcome)
      ensures log == old(log) + [Sent(cmd, outcome.Accepted?, old(chip).objects.Keys)]
      ensures calm == if old(calm) > 0 then old(calm) - 1 else 0
      ensures old(calm) > 0 ==> Undisturbed(old(chip), cmd, chip, outcome)
      ensures old(calm) == 0 && jammed ==> chip == old(chip) && outcome == Failed
    {
      var before := chip;
      var reaches: bool, keepReset: bool, disturbance: int := *, *, *;
      reaches := reaches || calm > 0;
      if calm == 0 && jammed {
        reaches, disturbance := false, 3;
      }
      var reply := Answer(before, cmd);
      if reaches {
        chip := Apply(before, cmd, keepReset);
      }
      if calm > 0 || (reaches && disturbance == 0) {
        outcome := match reply case Refused => Failed case Rejected => Denied case _ => Accepted(reply);
      } else if disturbance == 1 {
        outcome := BareSuccess;
      } else if disturbance == 2 {
        outcome := Denied;
      } else {
        outcome := Failed;
      }
      if calm > 0 {
        calm := calm - 1;
      }
      log := log + [Sent(cmd, outcome.Accepted?, before.objects.Keys)];
    }
  }
}
