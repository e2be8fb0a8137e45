/**
 One turn of the core thread from queue to wallet, after src/core.c: a command is fetched, its payload
 handed to the core as slices, the wallet asked, the effects drained, and what could not be announced rejected.
 */
module CoreLoop {
  import opened Bytes
  import opened CoreRequests
  import opened CoreEffects
  import opened BusPool
  import opened BusPayload

  /** The command a message of the command queue stands for; results travel on queues of their own. */
  function CommandOf(h: Header): Option<Command> {
    match h
    case Protocol(route) => Some(ProtocolCommand(route))
    case Local(kind, value, firstLen) => Some(LocalCommand(kind, value, firstLen))
    case Fido(kind, requestId, value, firstLen) => Some(FidoCommand(kind, requestId, value, firstLen))
    case Confirm(id, choice) => Some(ConfirmCommand(id, choice))
    case LocalResult(_, _, _) => None
    case FidoResult(_, _, _) => None
  }

  /** One turn: nothing to do, or the letter at a place of the queue refused with the error reply it gets, or
      executed with the answers the wallet had still to give and what was done. */
  datatype Turn =
    | Nothing
    | Refused(at: nat, header: Header, reply: Option<Effect>)
    | Executed(at: nat, header: Header, script: seq<Reply>, work: Execution)

  /** What the wallet is asked in a turn: for an executed command its conversation, and otherwise nothing. */
  function Said(turn: Turn): seq<Request> {
    if turn.Executed? then Conversation(turn.work) else []
  }

  function Routing(turn: Turn): seq<Routed> {
    if turn.Executed? then Flat(turn.work.drains) else []
  }

  /** A payload in one piece. */
  function Whole(payload: seq<byte>): seq<Slice> {
    [Slice(false, payload)]
  }

  lemma WholeJoined(payload: seq<byte>)
    ensures Joined(Whole(payload)) == payload
  {
    assert Whole(payload)[..0] == [];
  }

  /** A letter is executed exactly when it is well formed: the wallet is asked what its payload says, and then to
      reject exactly what each drain reports. */
  predicate Handled(utf8: seq<byte> -> bool, jammed: bool, letter: Letter, turn: Turn) {
    !turn.Nothing? && turn.header == letter.header &&
    match CommandOf(letter.header)
    case None => turn.Refused? && turn.reply == None
    case Some(command) =>
      && (turn.Executed? <==> Accepts(command, Whole(letter.payload)))
      && (turn.Refused? ==> turn.reply == ErrorReply(command))
      && (turn.Executed? ==> Performed(utf8, jammed, command, Whole(letter.payload), turn.script, turn.work))
  }

  /** Bytes without their sessions. */
  function Plain(bytes: seq<Tagged>): seq<byte> {
    seq(|bytes|, i requires 0 <= i < |bytes| => bytes[i].b)
  }

  /** What was done with a letter, kind by kind, in terms of the letter alone: a choice is put to the wallet as it
      was made, a request as its header and payload say or with a failure told to its author, and the frames of a
      protocol payload, with what was kept before and what is left, are its bytes. */
  predicate Means(utf8: seq<byte> -> bool, letter: Letter, turn: Turn) {
    match letter.header
    case Confirm(id, choice) => turn.Executed? && turn.work.requests == [Choice(id, choice)]
    case Local(kind, value, firstLen) =>
      if firstLen > |letter.payload| then turn.Refused? && turn.reply == Some(LocalReply(2, 1, 0, []))
      else
        var parsed := ParseLocal(utf8, Wire(kind, value, letter.payload[..firstLen], letter.payload[firstLen..]));
        if parsed.Some? then turn.Executed? && turn.work.requests == [LocalAsked(parsed.value)]
        else AnswersOnly(turn, LocalReply(2, 1, 0, []))
    case Fido(kind, id, value, firstLen) =>
      if firstLen > |letter.payload| then turn.Refused? && turn.reply == Some(FidoReply(id, 1, [], []))
      else
        var parsed := ParseFido(utf8, Wire(kind, value, letter.payload[..firstLen], letter.payload[firstLen..]));
        if parsed.Some? then turn.Executed? && turn.work.requests == [FidoAsked(id, parsed.value)]
        else AnswersOnly(turn, FidoReply(id, 1, [], []))
    case Protocol(route) =>
      && turn.Executed? && turn.work.requests == RequestsIn(turn.work.feed.pieces)
      && (forall x :: x in turn.work.requests ==> (x.Frame? || x.FrameError?) && x.route == route && x.received != [])
      && Plain(turn.work.feed.kept) + letter.payload
         == Plain(AllBytes(turn.work.feed.pieces)) + Plain(turn.work.feed.left)
    case _ => turn.Refused? && turn.reply == None
  }

  /** The wallet is asked nothing, and this effect is all there is. */
  predicate AnswersOnly(turn: Turn, effect: Effect) {
    turn.Executed? && turn.work.requests == [] && turn.work.drains != [] && EffectsOf(turn.work.drains[0]) == [effect]
  }

  /** After the requests of a letter nothing but rejections is put to the wallet. */
  predicate ThenRejects(turn: Turn) {
    turn.Executed? ==>
      var n := |turn.work.requests|;
      && n <= |Said(turn)| && Said(turn)[..n] == turn.work.requests
      && forall i :: n <= i < |Said(turn)| ==> Said(turn)[i].Choice? && Said(turn)[i].choice == 1
  }

  /** Every letter is dealt with as it reads. */
  lemma HandledMeans(utf8: seq<byte> -> bool, jammed: bool, letter: Letter, turn: Turn)
    requires Handled(utf8, jammed, letter, turn)
    ensures Means(utf8, letter, turn) && ThenRejects(turn)
  {
    WholeJoined(letter.payload);
    if turn.Executed? {
      OnlyRejections(turn.work.drains);
      if letter.header.Protocol? {
        FramesAre(turn.work.feed.pieces, letter.header.route, turn.work.feed.busy, turn.work.feed.script);
        PlainReceived(turn.work.feed.kept, letter.header.route, letter.payload);
        assert Plain(AllBytes(turn.work.feed.pieces)) + Plain(turn.work.feed.left)
               == Plain(AllBytes(turn.work.feed.pieces) + turn.work.feed.left);
      }
    }
  }

  lemma PlainReceived(kept: seq<Tagged>, route: Route, data: seq<byte>)
    ensures Plain(kept + Received(route, data)) == Plain(kept) + data
  {
  }

  lemma {:induction false} FramesAre(pieces: seq<Piece>, route: Route, busy: bool, script: seq<Reply>)
    requires Parsed(pieces, route, busy, script)
    ensures forall x :: x in RequestsIn(pieces) ==> (x.Frame? || x.FrameError?) && x.route == route && x.received != []
  {
    if pieces != [] {
      FramesAre(pieces[..|pieces| - 1], route, busy, script);
    }
  }

  /** However the payload is sliced, the core makes the same of it. */
  lemma SlicingIsInvisible(utf8: seq<byte> -> bool, jammed: bool, command: Command, fragments: seq<Slice>,
                           script: seq<Reply>, e: Execution)
    requires forall s :: s in fragments ==> CoreRequests.Readable(s)
    ensures Accepts(command, fragments) <==> Accepts(command, Whole(Joined(fragments)))
    ensures Performed(utf8, jammed, command, fragments, script, e) <==>
              Performed(utf8, jammed, command, Whole(Joined(fragments)), script, e)
  {
    WholeJoined(Joined(fragments));
  }

  /** The core thread's turn: one letter fetched and handled, or nothing done at all. */
  method TakeTurn(client: Client, thread: CoreThread) returns (ghost turn: Turn)
    requires client.Valid() && |client.m.queues| > 0 && client.m.held[client.me] == NOTHING
    requires thread.Valid() && thread.core.Idle()
    modifies client`m, client`mail, thread, thread.core
    ensures client.Valid() && SameShape(old(client.m), client.m) && client.m.held[client.me] == NOTHING
    ensures thread.Valid() && thread.core.Idle()
    ensures thread.core.asked == old(thread.core.asked) + Said(turn) && thread.log == old(thread.log) + Routing(turn)
    ensures thread.core.script == Dropped(old(thread.core.script), |Said(turn)|)
    ensures turn.Executed? ==>
              && turn.script == old(thread.core.script)
              && Fed(turn, old(thread.core.busy), old(thread.core.Parsers()), thread.core.Parsers())
    ensures !turn.Executed? ==> thread.core.Parsers() == old(thread.core.Parsers())
    ensures turn.Nothing? ==> Quiet(old(client.mail), client.mail, client.me, client.calm)
    ensures !turn.Nothing? ==>
              && turn.at < |client.mail.boxes[0].posted|
              && var letter := client.mail.boxes[0].posted[turn.at].letter;
                 && FetchedOne(old(client.mail), client.mail, 0, turn.at, letter, client.me)
                 && Handled(thread.core.utf8, thread.jammed, letter, turn)
                 && Means(thread.core.utf8, letter, turn) && ThenRejects(turn)
    ensures client.calm && old(client.m.queues[0].messages) != [] ==>
              && !turn.Nothing? && turn.at == old(client.mail.boxes[0].fetched)
              && client.mail.boxes[0].posted == old(client.mail.boxes[0].posted)
              && client.m.free == old(client.m.free) + old(client.m.queues[0].messages)[0].chain
              && client.m.queues[0].messages == old(client.m.queues[0].messages)[1..]
  {
    turn := Nothing;
    var next; ghost var at;
    next, at := client.NextCommand();
    if next.Some? {
      var header, slices := next.value.0, next.value.1;
      turn := ExecuteOne(thread, header, slices, at);
      HandledMeans(thread.core.utf8, thread.jammed, Letter(header, Joined(slices)), turn);
    }
  }

  /** Of the parsers a turn uses at most the one of its route, which starts with what it kept and ends with what
      is left. */
  predicate Fed(turn: Turn, busy: bool, before: (seq<Tagged>, seq<Tagged>, word),
                after: (seq<Tagged>, seq<Tagged>, word))
    requires turn.Executed?
  {
    match turn.header
    case Protocol(route) =>
      var feed := turn.work.feed;
      feed.busy == busy && feed.script == turn.script && feed.kept == KeptIn(before, route) && feed.left == KeptIn(after, route)
    case _ => after == before
  }

  function KeptIn(parsers: (seq<Tagged>, seq<Tagged>, word), route: Route): seq<Tagged> {
    if route.transport == Transport.Uart then parsers.0 else if parsers.2 == route.session then parsers.1 else []
  }

  /** execute, for a command in hand. */
  method ExecuteOne(thread: CoreThread, header: Header, slices: seq<Slice>, ghost at: nat) returns (ghost turn: Turn)
    requires thread.Valid() && thread.core.Idle() && forall s :: s in slices ==> CoreRequests.Readable(s)
    modifies thread, thread.core
    ensures thread.Valid() && thread.core.Idle()
    ensures thread.core.asked == old(thread.core.asked) + Said(turn) && thread.log == old(thread.log) + Routing(turn)
    ensures thread.core.script == Dropped(old(thread.core.script), |Said(turn)|)
    ensures turn.Executed? ==>
              && turn.script == old(thread.core.script)
              && Fed(turn, old(thread.core.busy), old(thread.core.Parsers()), thread.core.Parsers())
    ensures !turn.Executed? ==> thread.core.Parsers() == old(thread.core.Parsers())
    ensures !turn.Nothing? && turn.at == at
    ensures Handled(thread.core.utf8, thread.jammed, Letter(header, Joined(slices)), turn)
  {
    turn := Refused(at, header, None);
    var command := CommandOf(header);
    if command.Some? {
      turn := RunOne(thread, header, command.value, slices, at);
      RunIsHandled(thread.core.utf8, thread.jammed, header, slices, turn);
    }
  }

  /** The core's part of it. */
  method RunOne(thread: CoreThread, header: Header, command: Command, slices: seq<Slice>, ghost at: nat)
    returns (ghost turn: Turn)
    requires thread.Valid() && thread.core.Idle() && CommandOf(header) == Some(command)
    modifies thread, thread.core
    ensures thread.Valid() && thread.core.Idle()
    ensures thread.core.asked == old(thread.core.asked) + Said(turn) && thread.log == old(thread.log) + Routing(turn)
    ensures thread.core.script == Dropped(old(thread.core.script), |Said(turn)|)
    ensures turn.Executed? ==>
              && turn.script == old(thread.core.script)
              && Fed(turn, old(thread.core.busy), old(thread.core.Parsers()), thread.core.Parsers())
    ensures !turn.Executed? ==> thread.core.Parsers() == old(thread.core.Parsers())
    ensures !turn.Nothing? && turn.at == at && turn.header == header
    ensures turn.Executed? <==> Accepts(command, slices)
    ensures turn.Executed? ==>
              Performed(thread.core.utf8, thread.jammed, command, slices, old(thread.core.script), turn.work)
    ensures turn.Refused? ==> turn.reply == ErrorReply(command)
  {
    ghost var script := thread.core.script;
    var executed, reply, e := thread.Run(command, slices);
    turn := if executed then Executed(at, header, script, e) else Refused(at, header, reply);
  }

  lemma RunIsHandled(utf8: seq<byte> -> bool, jammed: bool, header: Header, slices: seq<Slice>, turn: Turn)
    requires CommandOf(header).Some? && forall s :: s in slices ==> CoreRequests.Readable(s)
    requires !turn.Nothing? && turn.header == header && (turn.Executed? <==> Accepts(CommandOf(header).value, slices))
    requires turn.Executed? ==> Performed(utf8, jammed, CommandOf(header).value, slices, turn.script, turn.work)
    requires turn.Refused? ==> turn.reply == ErrorReply(CommandOf(header).value)
    ensures Handled(utf8, jammed, Letter(header, Joined(slices)), turn)
  {
    var e := if turn.Executed? then turn.work else Execution([], NO_FEED, []);
    SlicingIsInvisible(utf8, jammed, CommandOf(header).value, slices, if turn.Executed? then turn.script else [], e);
  }

  /** Everything the wallet was asked over some turns. */
  function Asked(turns: seq<Turn>): seq<Request> {
    Flat(Parts(turns))
  }

  function Parts(turns: seq<Turn>): (parts: seq<seq<Request>>)
    ensures |parts| == |turns| && forall i :: 0 <= i < |turns| ==> parts[i] == Said(turns[i])
  {
    seq(|turns|, i requires 0 <= i < |turns| => Said(turns[i]))
  }

  /** A turn that fetched a letter did with it what the letter says. */
  predicate Faithful(utf8: seq<byte> -> bool, jammed: bool, posted: seq<Posting>, turn: Turn) {
    !turn.Nothing? ==> turn.at < |posted| && Handled(utf8, jammed, posted[turn.at].letter, turn)
  }

  /** Turns fetch ever later letters, so each at most once. */
  predicate InOrder(turns: seq<Turn>) {
    forall i, j :: 0 <= i < j < |turns| && !turns[i].Nothing? && !turns[j].Nothing? ==> turns[i].at < turns[j].at
  }

  /** The turns so far: each did what its letter says, and fetched a later one than those before. */
  predicate Sound(utf8: seq<byte> -> bool, jammed: bool, box: Box, turns: seq<Turn>) {
    && InOrder(turns)
    && (forall i :: 0 <= i < |turns| ==> Faithful(utf8, jammed, box.posted, turns[i]))
    && (forall i :: 0 <= i < |turns| && !turns[i].Nothing? ==> turns[i].at < box.fetched)
  }

  /** Each turn goes on with the wallet's answers where the one before left off. */
  predicate Consecutive(script: seq<Reply>, turns: seq<Turn>) {
    turns != [] ==>
      var n := |turns| - 1;
      Consecutive(script, turns[..n]) && (turns[n].Executed? ==> turns[n].script == Dropped(script, |Asked(turns[..n])|))
  }

  lemma OneMoreTurn(utf8: seq<byte> -> bool, jammed: bool, was: Box, now: Box, turns: seq<Turn>, turn: Turn)
    requires Sound(utf8, jammed, was, turns) && was.posted <= now.posted && was.fetched <= now.fetched
    requires Faithful(utf8, jammed, now.posted, turn) && (!turn.Nothing? ==> was.fetched <= turn.at < now.fetched)
    ensures Sound(utf8, jammed, now, turns + [turn])
  {
    forall i | 0 <= i < |turns| ensures Faithful(utf8, jammed, now.posted, turns[i]) {
      assert Faithful(utf8, jammed, was.posted, turns[i]);
    }
  }

  /** The turns so far, since the wallet had been asked `asked` and had `script` to answer. */
  ghost predicate Progress(client: Client, thread: CoreThread, asked: seq<Request>, script: seq<Reply>,
                           turns: seq<Turn>)
    reads client, thread, thread.core
  {
    && client.Valid() && |client.m.queues| > 0 && client.m.held[client.me] == NOTHING && |client.mail.boxes| > 0
    && thread.Valid() && thread.core.Idle() && Sound(thread.core.utf8, thread.jammed, client.mail.boxes[0], turns)
    && thread.core.asked == asked + Asked(turns)
    && Consecutive(script, turns) && thread.core.script == Dropped(script, |Asked(turns)|)
  }

  /** Any number of turns with anything in between: each letter fetched is a later one than those before and is
      handled as it was posted, and the wallet is asked exactly what these turns say, in order. */
  method TakeTurns(client: Client, thread: CoreThread, count: nat) returns (ghost turns: seq<Turn>)
    requires client.Valid() && |client.m.queues| > 0 && client.m.held[client.me] == NOTHING
    requires thread.Valid() && thread.core.Idle()
    modifies client`m, client`mail, thread, thread.core
    ensures Progress(client, thread, old(thread.core.asked), old(thread.core.script), turns) && |turns| == count
    ensures |client.mail.boxes| > 0 && old(client.mail.boxes)[0].posted <= client.mail.boxes[0].posted
  {
    turns := [];
    WaitingLetters(client.m, client.mail, 0);
    for n := 0 to count
      invariant Progress(client, thread, old(thread.core.asked), old(thread.core.script), turns) && |turns| == n
      invariant old(client.mail.boxes)[0].posted <= client.mail.boxes[0].posted
    {
      turns := TakeAnother(client, thread, old(thread.core.asked), old(thread.core.script), turns);
    }
  }

  method TakeAnother(client: Client, thread: CoreThread, ghost asked: seq<Request>, ghost script: seq<Reply>,
                     ghost turns: seq<Turn>)
    returns (ghost longer: seq<Turn>)
    requires Progress(client, thread, asked, script, turns)
    modifies client`m, client`mail, thread, thread.core
    ensures Progress(client, thread, asked, script, longer) && |longer| == |turns| + 1
    ensures |client.mail.boxes| > 0 && old(client.mail.boxes)[0].posted <= client.mail.boxes[0].posted
  {
    ghost var was := client.mail.boxes[0];
    ghost var turn := TakeNext(client, thread);
    AskedGrows(asked, script, turns, turn);
    OneMoreTurn(thread.core.utf8, thread.jammed, was, client.mail.boxes[0], turns, turn);
    longer := turns + [turn];
  }

  /** A turn, and what it means for the letters of the queue. */
  method TakeNext(client: Client, thread: CoreThread) returns (ghost turn: Turn)
    requires client.Valid() && |client.m.queues| > 0 && client.m.held[client.me] == NOTHING && |client.mail.boxes| > 0
    requires thread.Valid() && thread.core.Idle()
    modifies client`m, client`mail, thread, thread.core
    ensures client.Valid() && |client.m.queues| > 0 && client.m.held[client.me] == NOTHING && |client.mail.boxes| > 0
    ensures thread.Valid() && thread.core.Idle()
    ensures thread.core.asked == old(thread.core.asked) + Said(turn)
    ensures thread.core.script == Dropped(old(thread.core.script), |Said(turn)|)
    ensures turn.Executed? ==> turn.script == old(thread.core.script)
    ensures Faithful(thread.core.utf8, thread.jammed, client.mail.boxes[0].posted, turn)
    ensures old(client.mail.boxes)[0].posted <= client.mail.boxes[0].posted
    ensures old(client.mail.boxes)[0].fetched <= client.mail.boxes[0].fetched
    ensures !turn.Nothing? ==> old(client.mail.boxes)[0].fetched <= turn.at < client.mail.boxes[0].fetched
  {
    turn := TakeTurn(client, thread);
    WaitingLetters(client.m, client.mail, 0);
  }

  lemma OnePart(turns: seq<Turn>, turn: Turn)
    ensures Parts(turns + [turn]) == Parts(turns) + [Said(turn)]
  {
  }

  lemma AskedGrows(base: seq<Request>, script: seq<Reply>, turns: seq<Turn>, turn: Turn)
    ensures base + Asked(turns + [turn]) == base + Asked(turns) + Said(turn)
    ensures Dropped(Dropped(script, |Asked(turns)|), |Said(turn)|) == Dropped(script, |Asked(turns + [turn])|)
    ensures Consecutive(script, turns + [turn]) <==>
              Consecutive(script, turns) && (turn.Executed? ==> turn.script == Dropped(script, |Asked(turns)|))
  {
    assert (turns + [turn])[..|turns|] == turns;
    OnePart(turns, turn);
    FlatJoins(Parts(turns), [Said(turn)]);
    FlatOne(Said(turn));
    Associates(base, Asked(turns), Said(turn));
    DropTwice(script, |Asked(turns)|, |Said(turn)|);
  }

  /** What one turn says stands once in what all of them say. */
  lemma AskedSplits(turns: seq<Turn>, i: nat)
    requires i < |turns|
    ensures Asked(turns) == Asked(turns[..i]) + Said(turns[i]) + Asked(turns[i + 1..])
  {
    FlatSplits(Parts(turns), i);
    PartsSplit(turns, i);
  }

  lemma PartsSplit(turns: seq<Turn>, i: nat)
    requires i < |turns|
    ensures Parts(turns)[..i] == Parts(turns[..i])
    ensures Parts(turns)[i + 1..] == Parts(turns[i + 1..]) && Parts(turns)[i] == Said(turns[i])
  {
  }

  // --------------------------------------------------------------- from a submitter to the wallet

  predicate Fetches(turn: Turn, place: nat) {
    !turn.Nothing? && turn.at == place
  }

  /** The i-th turn deals with the letter, no other turn does, and in all that is asked its part stands once. */
  predicate DoneOnce(utf8: seq<byte> -> bool, letter: Letter, place: nat, turns: seq<Turn>, i: nat)
    requires i < |turns|
  {
    && Means(utf8, letter, turns[i]) && ThenRejects(turns[i])
    && (forall j :: 0 <= j < |turns| && j != i ==> !Fetches(turns[j], place))
    && Asked(turns) == Asked(turns[..i]) + Said(turns[i]) + Asked(turns[i + 1..])
  }

  /** Whatever turn fetches the letter at this place deals with it, and at most one does. */
  predicate DoneAtMostOnce(utf8: seq<byte> -> bool, letter: Letter, place: nat, turns: seq<Turn>) {
    forall i :: 0 <= i < |turns| && Fetches(turns[i], place) ==> DoneOnce(utf8, letter, place, turns, i)
  }

  lemma TurnsDeal(utf8: seq<byte> -> bool, jammed: bool, box: Box, letter: Letter, sent: nat, turns: seq<Turn>)
    requires Sound(utf8, jammed, box, turns) && sent < |box.posted| && box.posted[sent].letter == letter
    ensures DoneAtMostOnce(utf8, letter, sent, turns)
  {
    forall i | 0 <= i < |turns| && Fetches(turns[i], sent) ensures DoneOnce(utf8, letter, sent, turns, i) {
      assert Faithful(utf8, jammed, box.posted, turns[i]);
      HandledMeans(utf8, jammed, letter, turns[i]);
      AskedSplits(turns, i);
    }
  }

  /** Exactly this letter was posted, and this is its place in the queue. */
  predicate PostedAt(a: Mail, b: Mail, letter: Letter, t: nat, calm: bool, place: nat) {
    && PostedOne(a, b, 0, letter, t, calm)
    && place < |b.boxes[0].posted| && b.boxes[0].posted[place] == Posting(letter, t)
  }

  /** The core thread's turns once the letter is posted, on the same machine. */
  method TurnsAfter(submitter: Client, core: nat, thread: CoreThread, ghost letter: Letter, ghost sent: nat, count: nat)
    returns (ghost turns: seq<Turn>)
    requires submitter.Valid() && |submitter.m.queues| > 0 && core < |submitter.m.held|
    requires thread.Valid() && thread.core.Idle()
    requires |submitter.mail.boxes| > 0 && sent < |submitter.mail.boxes[0].posted|
    requires submitter.mail.boxes[0].posted[sent].letter == letter
    modifies thread, thread.core
    ensures thread.core.asked == old(thread.core.asked) + Asked(turns) && InOrder(turns)
    ensures DoneAtMostOnce(thread.core.utf8, letter, sent, turns)
    ensures submitter.m.held[core] == NOTHING ==> |turns| == count
  {
    turns := [];
    if submitter.m.held[core] == NOTHING {
      var client := new Client(submitter.m, submitter.mail, core, submitter.calm);
      turns := TakeTurns(client, thread, count);
      TurnsDeal(thread.core.utf8, thread.jammed, client.mail.boxes[0], letter, sent, turns);
    }
  }

  /** The last place of the queue, where a letter just posted stands. */
  ghost function LastPlace(mail: Mail): nat
    requires |mail.boxes| > 0 && mail.boxes[0].posted != []
  {
    |mail.boxes[0].posted| - 1
  }

  /** A choice made on the device, submitted while other threads do what they like: refused without an id or a
      core, and otherwise put to the wallet in the one turn that fetches it, as it was made. */
  method ChoiceToWallet(submitter: Client, core: nat, thread: CoreThread, id: word, choice: nat, count: nat)
    returns (rc: int, ghost sent: nat, ghost turns: seq<Turn>)
    requires submitter.Valid() && |submitter.m.queues| > 0 && submitter.m.held[submitter.me] == NOTHING
    requires core < |submitter.m.held| && core != submitter.me && thread.Valid() && thread.core.Idle()
    modifies submitter`m, submitter`mail, thread, thread.core
    ensures id == 0 ==> rc != OK
    ensures if rc == OK
            then PostedAt(old(submitter.mail), submitter.mail, ChoiceLetter(id, choice), submitter.me, submitter.calm, sent)
            else Quiet(old(submitter.mail), submitter.mail, submitter.me, submitter.calm) && turns == []
    ensures thread.core.asked == old(thread.core.asked) + Asked(turns) && InOrder(turns)
    ensures forall i :: 0 <= i < |turns| && Fetches(turns[i], sent) ==>
              DoneOnce(thread.core.utf8, ChoiceLetter(id, choice), sent, turns, i) && ServesChoice(id, choice, turns[i])
    ensures rc == OK && core < |submitter.m.held| && submitter.m.held[core] == NOTHING ==> |turns| == count
  {
    turns, sent := [], 0;
    rc := submitter.SubmitConfirmation(id, choice);
    if rc == OK {
      sent := LastPlace(submitter.mail);
      turns := TurnsAfter(submitter, core, thread, ChoiceLetter(id, choice), sent, count);
      ChoiceReads(thread.core.utf8, id, choice, sent, turns);
    }
  }

  function ChoiceLetter(id: word, choice: nat): Letter {
    Letter(Header.Confirm(id, choice), [])
  }

  /** The wallet is given this very choice. */
  predicate ServesChoice(id: word, choice: nat, turn: Turn) {
    turn.Executed? && turn.work.requests == [Choice(id, choice)]
  }

  lemma ChoiceReads(utf8: seq<byte> -> bool, id: word, choice: nat, sent: nat, turns: seq<Turn>)
    requires DoneAtMostOnce(utf8, ChoiceLetter(id, choice), sent, turns)
    ensures forall i :: 0 <= i < |turns| && Fetches(turns[i], sent) ==> ServesChoice(id, choice, turns[i])
  {
    forall i | 0 <= i < |turns| && Fetches(turns[i], sent) ensures ServesChoice(id, choice, turns[i]) {
      assert DoneOnce(utf8, ChoiceLetter(id, choice), sent, turns, i);
    }
  }

  /** A request of the FIDO code goes the same way: the wallet is asked this request under its id, if its parts
      fit, and otherwise its author is told that it failed. */
  method FidoToWallet(submitter: Client, core: nat, thread: CoreThread, id: word, r: FidoRequest, count: nat)
    returns (rc: int, ghost sent: nat, ghost turns: seq<Turn>)
    requires submitter.Valid() && |submitter.m.queues| > 0 && submitter.m.held[submitter.me] == NOTHING
    requires core < |submitter.m.held| && core != submitter.me && thread.Valid() && thread.core.Idle()
    modifies submitter`m, submitter`mail, thread, thread.core
    ensures if rc == OK
            then PostedAt(old(submitter.mail), submitter.mail, FidoLetter(id, r), submitter.me, submitter.calm, sent)
            else Quiet(old(submitter.mail), submitter.mail, submitter.me, submitter.calm) && turns == []
    ensures thread.core.asked == old(thread.core.asked) + Asked(turns) && InOrder(turns)
    ensures forall i :: 0 <= i < |turns| && Fetches(turns[i], sent) ==>
              DoneOnce(thread.core.utf8, FidoLetter(id, r), sent, turns, i) && ServesFido(thread.core.utf8, id, r, turns[i])
    ensures rc == OK && core < |submitter.m.held| && submitter.m.held[core] == NOTHING ==> |turns| == count
  {
    turns, sent := [], 0;
    var w := FidoWire(r);
    rc := submitter.SubmitFido(w.kind, id, w.value, w.data, w.auxiliary);
    if rc == OK {
      sent := LastPlace(submitter.mail);
      turns := TurnsAfter(submitter, core, thread, FidoLetter(id, r), sent, count);
      FidoLetterReads(thread.core.utf8, id, r, sent, turns);
    }
  }

  /** Bytes a transport received: whatever is put to the wallet for them carries their own route. */
  method BytesToWallet(submitter: Client, core: nat, thread: CoreThread, route: Route, data: seq<byte>, count: nat)
    returns (rc: int, ghost sent: nat, ghost turns: seq<Turn>)
    requires submitter.Valid() && |submitter.m.queues| > 0 && submitter.m.held[submitter.me] == NOTHING
    requires core < |submitter.m.held| && core != submitter.me && thread.Valid() && thread.core.Idle()
    modifies submitter`m, submitter`mail, thread, thread.core
    ensures if rc == OK
            then PostedAt(old(submitter.mail), submitter.mail, Letter(Protocol(route), data), submitter.me,
                          submitter.calm, sent)
            else Quiet(old(submitter.mail), submitter.mail, submitter.me, submitter.calm) && turns == []
    ensures thread.core.asked == old(thread.core.asked) + Asked(turns) && InOrder(turns)
    ensures forall i :: 0 <= i < |turns| && Fetches(turns[i], sent) ==>
              DoneOnce(thread.core.utf8, Letter(Protocol(route), data), sent, turns, i) && ServesBytes(route, turns[i])
    ensures rc == OK && core < |submitter.m.held| && submitter.m.held[core] == NOTHING ==> |turns| == count
  {
    turns, sent := [], 0;
    rc := submitter.SubmitProtocol(route, data);
    if rc == OK {
      sent := LastPlace(submitter.mail);
      turns := TurnsAfter(submitter, core, thread, Letter(Protocol(route), data), sent, count);
      BytesRead(thread.core.utf8, route, data, sent, turns);
    }
  }

  /** The wallet is given frames of this route. */
  predicate ServesBytes(route: Route, turn: Turn) {
    turn.Executed? && forall x :: x in turn.work.requests ==> (x.Frame? || x.FrameError?) && x.route == route
  }

  lemma BytesRead(utf8: seq<byte> -> bool, route: Route, data: seq<byte>, sent: nat, turns: seq<Turn>)
    requires DoneAtMostOnce(utf8, Letter(Protocol(route), data), sent, turns)
    ensures forall i :: 0 <= i < |turns| && Fetches(turns[i], sent) ==> ServesBytes(route, turns[i])
  {
    forall i | 0 <= i < |turns| && Fetches(turns[i], sent) ensures ServesBytes(route, turns[i]) {
      assert DoneOnce(utf8, Letter(Protocol(route), data), sent, turns, i);
    }
  }

  function FidoLetter(id: word, r: FidoRequest): Letter {
    var w := FidoWire(r);
    Letter(Fido(w.kind, id, w.value, |w.data|), w.data + w.auxiliary)
  }

  /** The wallet is asked this request under its id; if its parts do not fit, its author is told that it failed. */
  predicate ServesFido(utf8: seq<byte> -> bool, id: word, r: FidoRequest, turn: Turn) {
    if !HashesFit(utf8, r) then AnswersOnly(turn, FidoReply(id, 1, [], []))
    else turn.Executed? && ((r.AskSign? ==> |r.rpIdHash| == 32) ==> turn.work.requests == [FidoAsked(id, r)])
  }

  lemma FidoLetterReads(utf8: seq<byte> -> bool, id: word, r: FidoRequest, sent: nat, turns: seq<Turn>)
    requires DoneAtMostOnce(utf8, FidoLetter(id, r), sent, turns)
    ensures forall i :: 0 <= i < |turns| && Fetches(turns[i], sent) ==>
              ServesFido(utf8, id, r, turns[i])
  {
    var w, payload := FidoWire(r), FidoLetter(id, r).payload;
    assert payload[..|w.data|] == w.data && payload[|w.data|..] == w.auxiliary;
    FidoRoundTrip(utf8, r);
  }

  /** What the wallet is asked for a local request of the display: that very request, if its texts are texts. */
  function Due(utf8: seq<byte> -> bool, r: LocalRequest): seq<Request> {
    if TextIsUtf8(utf8, r) then [LocalAsked(r)] else []
  }

  function LetterOf(r: LocalRequest): Letter
    requires r.AskInitCustom? ==> |r.passphrase| < 0x1_0000_0000
  {
    var w := LocalWire(r);
    LocalLetter(w.kind, w.value, w.data, w.auxiliary)
  }

  /** The turn executes the request's letter: the wallet is asked this request and then only rejections. */
  predicate Serves(utf8: seq<byte> -> bool, r: LocalRequest, turn: Turn)
    requires r.AskInitCustom? ==> |r.passphrase| < 0x1_0000_0000
  {
    && turn.Executed? && Means(utf8, LetterOf(r), turn)
    && turn.work.requests == Due(utf8, r) && Said(turn) == Due(utf8, r) + Rejections(turn.work.drains)
    && forall x :: x in Rejections(turn.work.drains) ==> x.Choice? && x.choice == 1
  }

  lemma LetterReads(utf8: seq<byte> -> bool, r: LocalRequest, turn: Turn)
    requires r.AskInitCustom? ==> |r.passphrase| < 0x1_0000_0000
    requires Means(utf8, LetterOf(r), turn)
    ensures Serves(utf8, r, turn)
  {
    var w, payload := LocalWire(r), LetterOf(r).payload;
    assert payload[..|w.data|] == w.data && payload[|w.data|..] == w.auxiliary;
    LocalRoundTrip(utf8, r);
    OnlyRejections(turn.work.drains);
  }

  /** The i-th turn serves the request, no other turn does, and in all that is asked its part stands once. */
  predicate ServedOnce(utf8: seq<byte> -> bool, r: LocalRequest, place: nat, turns: seq<Turn>, i: nat)
    requires (r.AskInitCustom? ==> |r.passphrase| < 0x1_0000_0000) && i < |turns|
  {
    && Serves(utf8, r, turns[i]) && (forall j :: 0 <= j < |turns| && j != i ==> !Fetches(turns[j], place))
    && Asked(turns) == Asked(turns[..i]) + (Due(utf8, r) + Rejections(turns[i].work.drains)) + Asked(turns[i + 1..])
  }

  lemma TurnsServe(utf8: seq<byte> -> bool, r: LocalRequest, sent: nat, turns: seq<Turn>)
    requires r.AskInitCustom? ==> |r.passphrase| < 0x1_0000_0000
    requires DoneAtMostOnce(utf8, LetterOf(r), sent, turns)
    ensures forall i :: 0 <= i < |turns| && Fetches(turns[i], sent) ==> ServedOnce(utf8, r, sent, turns, i)
  {
    forall i | 0 <= i < |turns| && Fetches(turns[i], sent) ensures ServedOnce(utf8, r, sent, turns, i) {
      assert DoneOnce(utf8, LetterOf(r), sent, turns, i);
      LetterReads(utf8, r, turns[i]);
    }
  }

  /** The display submits a request and the core thread takes turns on the same machine, whatever other threads
      do meanwhile: exactly this letter was posted, and when a turn fetches it, which happens at most once, the
      wallet is asked exactly this request and then only rejections; what else it is asked comes from other letters. */
  method DisplayToWallet(submitter: Client, core: nat, thread: CoreThread, r: LocalRequest, count: nat)
    returns (rc: int, ghost sent: nat, ghost turns: seq<Turn>)
    requires r.AskInitCustom? ==> |r.passphrase| < 0x1_0000_0000
    requires submitter.Valid() && |submitter.m.queues| > 0 && submitter.m.held[submitter.me] == NOTHING
    requires core < |submitter.m.held| && core != submitter.me && thread.Valid() && thread.core.Idle()
    modifies submitter`m, submitter`mail, thread, thread.core
    ensures if rc == OK then PostedAt(old(submitter.mail), submitter.mail, LetterOf(r), submitter.me, submitter.calm, sent)
            else Quiet(old(submitter.mail), submitter.mail, submitter.me, submitter.calm) && turns == []
    ensures thread.core.asked == old(thread.core.asked) + Asked(turns) && InOrder(turns)
    ensures forall i :: 0 <= i < |turns| && Fetches(turns[i], sent) ==> ServedOnce(thread.core.utf8, r, sent, turns, i)
    ensures rc == OK && core < |submitter.m.held| && submitter.m.held[core] == NOTHING ==> |turns| == count
  {
    turns, sent := [], 0;
    var w := LocalWire(r);
    rc := submitter.SubmitLocal(w.kind, w.value, w.data, w.auxiliary);
    if rc == OK {
      sent := LastPlace(submitter.mail);
      turns := TurnsAfter(submitter, core, thread, LetterOf(r), sent, count);
      TurnsServe(thread.core.utf8, r, sent, turns);
    }
  }

  /** The same undisturbed: on an empty queue and with enough free buffers the letter is posted, and nothing
      else happens. */
  method SubmitUndisturbed(submitter: Client, r: LocalRequest) returns (rc: int)
    requires r.AskInitCustom? ==> |r.passphrase| < 0x1_0000_0000
    requires submitter.Valid() && |submitter.m.queues| > 0 && submitter.m.held[submitter.me] == NOTHING
    requires submitter.calm && submitter.coreReady && submitter.m.queues[0].messages == []
    requires |LetterOf(r).payload| <= Capacity(|submitter.m.free|, submitter.m.size)
    modifies submitter`m, submitter`mail
    ensures submitter.Valid() && Alongside(old(submitter.m), submitter.m, submitter.me, true) && rc == OK
    ensures |submitter.m.queues[0].messages| == 1
    ensures |submitter.m.free| + |submitter.m.queues[0].messages[0].chain| == |old(submitter.m.free)|
    ensures |submitter.mail.boxes| > 0 && submitter.mail.boxes[0].fetched < |submitter.mail.boxes[0].posted|
    ensures submitter.mail.boxes[0].posted[submitter.mail.boxes[0].fetched].letter == LetterOf(r)
  {
    WaitingLetters(submitter.m, submitter.mail, 0);
    var w := LocalWire(r);
    rc := submitter.SubmitLocal(w.kind, w.value, w.data, w.auxiliary);
  }

  /** An undisturbed turn with this request's letter in front. */
  method TurnFor(client: Client, thread: CoreThread, r: LocalRequest) returns (ghost turn: Turn)
    requires r.AskInitCustom? ==> |r.passphrase| < 0x1_0000_0000
    requires client.Valid() && client.calm && |client.m.queues| > 0 && client.m.held[client.me] == NOTHING
    requires |client.m.queues[0].messages| == 1 && thread.Valid() && thread.core.Idle()
    requires |client.mail.boxes| > 0 && client.mail.boxes[0].fetched < |client.mail.boxes[0].posted|
    requires client.mail.boxes[0].posted[client.mail.boxes[0].fetched].letter == LetterOf(r)
    modifies client`m, client`mail, thread, thread.core
    ensures Serves(thread.core.utf8, r, turn) && thread.core.asked == old(thread.core.asked) + Said(turn)
    ensures |client.m.queues| > 0 && client.m.queues[0].messages == []
    ensures client.m.free == old(client.m.free) + old(client.m.queues[0].messages[0].chain)
  {
    turn := TakeTurn(client, thread);
    LetterReads(thread.core.utf8, r, turn);
  }

  /** Undisturbed, on an empty queue and with enough free buffers: accepted, put to the wallet in the core's next
      turn with nothing but rejections after it, and every buffer free again. */
  method UndisturbedToWallet(submitter: Client, core: nat, thread: CoreThread, r: LocalRequest)
    returns (rc: int, end: Machine, ghost turn: Turn)
    requires r.AskInitCustom? ==> |r.passphrase| < 0x1_0000_0000
    requires submitter.Valid() && |submitter.m.queues| > 0 && submitter.m.held[submitter.me] == NOTHING
    requires core < |submitter.m.held| && core != submitter.me && submitter.m.held[core] == NOTHING
    requires thread.Valid() && thread.core.Idle()
    requires submitter.calm && submitter.coreReady && submitter.m.queues[0].messages == []
    requires |LetterOf(r).payload| <= Capacity(|submitter.m.free|, submitter.m.size)
    modifies submitter`m, submitter`mail, thread, thread.core
    ensures rc == OK && Serves(thread.core.utf8, r, turn)
    ensures thread.core.asked == old(thread.core.asked) + (Due(thread.core.utf8, r) + Rejections(turn.work.drains))
    ensures |end.queues| > 0 && end.queues[0].messages == [] && |end.free| == |old(submitter.m.free)|
  {
    rc := SubmitUndisturbed(submitter, r);
    var coreThread := new Client(submitter.m, submitter.mail, core, true);
    turn := TurnFor(coreThread, thread, r);
    end := coreThread.m;
  }
}
