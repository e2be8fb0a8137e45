/**
 The core's effect queue and the thread that drains it, after src/rs/ffi.rs and src/core.c. The wallet
 runtime is a script: the effects it will answer with, request by request, chosen beforehand.
 */
module CoreEffects {
  import opened Bytes
  import opened CoreRequests

  datatype Effect =
    | TransportFrame(route: Route, frame: seq<byte>)
    | LocalReply(action: nat, error: nat, value: word, text: seq<byte>)
    | FidoReply(requestId: word, status: nat, credential: seq<byte>, data: seq<byte>)
    | ConfirmationRequired(id: word)
    | ConfirmationCompleted(completed: word, outcome: nat)
    | WalletState(state: nat)

  /** What the runtime is asked to handle; a frame, or an unreadable one, comes with the bytes it is made of. */
  datatype Request =
    | Frame(route: Route, received: seq<Tagged>)
    | FrameError(route: Route, received: seq<Tagged>)
    | LocalAsked(local: LocalRequest)
    | FidoAsked(requestId: word, fido: FidoRequest)
    | Choice(id: word, choice: nat)

  const REJECT := 1

  /** The error reply to a request that could not be read: LocalAction_Error, AppError_Failed, FidoStatus_Failed. */
  const INVALID_LOCAL := LocalReply(2, 1, 0, [])

  function InvalidFido(id: word): Effect { FidoReply(id, 1, [], []) }

  datatype Command =
    | ProtocolCommand(route: Route)
    | LocalCommand(localKind: LocalKind, value: word, firstLen: nat)
    | FidoCommand(fidoKind: FidoKind, requestId: word, value: word, firstLen: nat)
    | ConfirmCommand(id: word, choice: nat)

  /** The commands the core takes when it is idle. */
  predicate Accepts(command: Command, fragments: seq<Slice>) {
    && (forall i :: 0 <= i < |fragments| ==> Readable(fragments[i]))
    && (command.LocalCommand? || command.FidoCommand? ==> command.firstLen <= |Joined(fragments)|)
  }

  /** One answer of the runtime: its effects, and whether it is busy afterwards. */
  datatype Reply = Reply(effects: seq<Effect>, busy: bool)

  /** A received byte and the session it came in. */
  datatype Tagged = Tagged(b: byte, session: word)

  /** Every Bluetooth frame handed to the wallet was received in the session it is answered in. */
  predicate WholeFrames(asked: seq<Request>) {
    forall i :: 0 <= i < |asked| && asked[i].Frame? && asked[i].route.transport == Bluetooth ==>
      OneSession(asked[i].received, asked[i].route.session)
  }

  predicate OneSession(bytes: seq<Tagged>, session: word) {
    forall i :: 0 <= i < |bytes| ==> bytes[i].session == session
  }

  /** A frame of some bytes received on this route. */
  predicate FromRoute(r: Request, route: Route) {
    (r.Frame? || r.FrameError?) && r.route == route && r.received != []
  }

  /** What becomes of received bytes: they are put to the wallet in a frame, or lost because it is busy. */
  datatype Piece = Took(request: Request) | Lost(bytes: seq<Tagged>)

  function AllBytes(pieces: seq<Piece>): seq<Tagged> {
    if pieces == [] then []
    else
      var last := pieces[|pieces| - 1];
      AllBytes(pieces[..|pieces| - 1])
      + (if last.Lost? then last.bytes else if last.request.Frame? || last.request.FrameError? then last.request.received else [])
  }

  function RequestsIn(pieces: seq<Piece>): seq<Request> {
    if pieces == [] then []
    else
      var last := pieces[|pieces| - 1];
      RequestsIn(pieces[..|pieces| - 1]) + if last.Took? then [last.request] else []
  }

  /** Whether the wallet is busy after n more answers. */
  predicate BusyAfter(busy: bool, script: seq<Reply>, n: nat) {
    if n == 0 then busy
    else if n <= |script| then script[n - 1].busy
    else BusyAfter(busy, script, n - 1)
  }

  /** Every frame is of this route, and bytes are lost only while the wallet is busy. */
  predicate Parsed(pieces: seq<Piece>, route: Route, busy: bool, script: seq<Reply>) {
    pieces != [] ==>
      var n := |pieces| - 1;
      && Parsed(pieces[..n], route, busy, script)
      && match pieces[n]
         case Took(request) => FromRoute(request, route)
         case Lost(_) => BusyAfter(busy, script, |RequestsIn(pieces[..n])|)
  }

  /** How the bytes of a protocol command were parsed: those kept from before and those left over, and the
      wallet's business when it began. */
  datatype Feed = Feed(kept: seq<Tagged>, pieces: seq<Piece>, left: seq<Tagged>, busy: bool, script: seq<Reply>)

  const NO_FEED := Feed([], [], [], false, [])

  /** The bytes of a chunk with their session. */
  function Received(route: Route, data: seq<byte>): seq<Tagged> {
    seq(|data|, i requires 0 <= i < |data| => Tagged(data[i], route.session))
  }

  /** The wallet's effects at its k-th answer; none when the script has run out. */
  function AnswerAt(script: seq<Reply>, k: nat): seq<Effect> {
    if k < |script| then script[k].effects else []
  }

  /** Its effects over the first n answers. */
  function Answers(script: seq<Reply>, n: nat): seq<Effect> {
    if n == 0 then [] else Answers(script, n - 1) + AnswerAt(script, n - 1)
  }

  function Dropped(script: seq<Reply>, n: nat): seq<Reply> {
    if n <= |script| then script[n..] else []
  }

  /** What the wallet is asked for a command with one request, read from the payload; nothing when it cannot be read. */
  function RequestOf(utf8: seq<byte> -> bool, command: Command, fragments: seq<Slice>): Option<Request>
    requires !command.ProtocolCommand? && Accepts(command, fragments)
  {
    var bytes := Joined(fragments);
    match command
    case ConfirmCommand(id, choice) => Some(Choice(id, choice))
    case LocalCommand(kind, value, firstLen) =>
      var parsed := ParseLocal(utf8, Wire(kind, value, bytes[..firstLen], bytes[firstLen..]));
      if parsed.Some? then Some(LocalAsked(parsed.value)) else None
    case FidoCommand(kind, requestId, value, firstLen) =>
      var parsed := ParseFido(utf8, Wire(kind, value, bytes[..firstLen], bytes[firstLen..]));
      if parsed.Some? then Some(FidoAsked(requestId, parsed.value)) else None
  }

  /** The reply that tells a requester of a failure; transports and confirmations get none. */
  function ErrorReply(command: Command): Option<Effect> {
    match command
    case LocalCommand(_, _, _) => Some(INVALID_LOCAL)
    case FidoCommand(_, requestId, _, _) => Some(InvalidFido(requestId))
    case _ => None
  }

  /** The requests a taken command puts to the wallet. Of a protocol command: frames that hold its bytes after
      those kept, each byte once and in order, up to what is left over or lost to a busy wallet. */
  predicate Asks(utf8: seq<byte> -> bool, command: Command, fragments: seq<Slice>, requests: seq<Request>, feed: Feed)
    requires Accepts(command, fragments)
  {
    if command.ProtocolCommand? then
      && requests == RequestsIn(feed.pieces) && Parsed(feed.pieces, command.route, feed.busy, feed.script)
      && feed.kept + Received(command.route, Joined(fragments)) == AllBytes(feed.pieces) + feed.left
    else requests == match RequestOf(utf8, command, fragments) case Some(request) => [request] case None => []
  }

  /** The effects of a command that was taken: the wallet's answers, or the error reply. */
  function Outcome(command: Command, script: seq<Reply>, requests: seq<Request>): seq<Effect> {
    if requests == [] && ErrorReply(command).Some? then [ErrorReply(command).value] else Answers(script, |requests|)
  }

  /** The core at some earlier moment. */
  datatype Base = Base(asked: seq<Request>, script: seq<Reply>, effects: seq<Effect>, busy: bool)

  class Core {
    const utf8: seq<byte> -> bool
    /** The answers still to come; when they run out the runtime answers nothing. */
    var script: seq<Reply>
    var busy: bool
    var uart: seq<Tagged>
    var bluetooth: seq<Tagged>
    var bluetoothSession: word
    var effects: seq<Effect>
    var current: Option<Effect>
    /** Everything the wallet was asked, every effect it ever had, and those already handed out. */
    ghost var asked: seq<Request>
    ghost var total: seq<Effect>
    ghost var taken: seq<Effect>

    ghost predicate Valid()
      reads this
    {
      OneSession(bluetooth, bluetoothSession) && WholeFrames(asked) && total == taken + effects
    }

    predicate Idle()
      reads this
    {
      effects == [] && current.None?
    }

    constructor (utf8: seq<byte> -> bool, script: seq<Reply>)
      ensures Valid() && Idle() && this.script == script && this.utf8 == utf8 && asked == [] && taken == []
      ensures !busy && Parsers() == ([], [], 0)
    {
      this.utf8, this.script := utf8, script;
      busy, uart, bluetooth, bluetoothSession, effects, current := false, [], [], 0, [], None;
      asked, total, taken := [], [], [];
    }

    /** WalletRuntime::handle, and the effects queued. */
    method Handle(request: Request)
      requires Valid()
      requires request.Frame? && request.route.transport == Bluetooth ==>
                 OneSession(request.received, request.route.session)
      modifies `script, `busy, `asked, `effects, `total
      ensures Valid() && asked == old(asked) + [request] && old(total) <= total
      ensures script == Dropped(old(script), 1) && effects == old(effects) + AnswerAt(old(script), 0)
      ensures busy == BusyAfter(old(busy), old(script), 1)
    {
      asked := asked + [request];
      if script != [] {
        effects, total, busy, script := effects + script[0].effects, total + script[0].effects, script[0].busy, script[1..];
      }
    }

    /** An effect of the boundary itself, for a request that could not be read. */
    method Queue(effect: Effect)
      requires Valid()
      modifies `effects, `total
      ensures Valid() && effects == old(effects) + [effect] && total == old(total) + [effect]
    {
      effects, total := effects + [effect], total + [effect];
    }

    function Buffered(route: Route): seq<Tagged>
      reads this
    {
      if route.transport == Uart then uart else bluetooth
    }

    /** What a parser keeps when it is selected for a route. */
    function Kept(route: Route): seq<Tagged>
      reads this
    {
      if route.transport == Bluetooth && bluetoothSession != route.session then [] else Buffered(route)
    }

    /** What the two parsers hold. */
    function Parsers(): (seq<Tagged>, seq<Tagged>, word)
      reads this
    {
      (uart, bluetooth, bluetoothSession)
    }

    /** protocol_parser: a new Bluetooth session clears what another one left. */
    method SelectParser(route: Route)
      requires Valid()
      modifies `bluetooth, `bluetoothSession
      ensures Valid() && (route.transport == Bluetooth ==> bluetoothSession == route.session)
      ensures Buffered(route) == old(Kept(route))
      ensures route.transport == Uart ==> bluetooth == old(bluetooth)
    {
      if route.transport == Bluetooth && bluetoothSession != route.session {
        bluetooth, bluetoothSession := [], route.session;
      }
    }

    method SetBuffered(route: Route, bytes: seq<Tagged>)
      requires Valid() && (route.transport == Bluetooth ==> OneSession(bytes, bluetoothSession))
      modifies `uart, `bluetooth
      ensures Valid() && Buffered(route) == bytes
      ensures if route.transport == Uart then bluetooth == old(bluetooth) else uart == old(uart)
    {
      if route.transport == Uart { uart := bytes; } else { bluetooth := bytes; }
    }

    /** FrameParser::unpack: some bytes from the front of the buffer, as a frame or an error, or nothing. */
    method Unpack(route: Route) returns (request: Option<Request>)
      requires Valid() && (route.transport == Bluetooth ==> bluetoothSession == route.session)
      modifies `uart, `bluetooth
      ensures Valid() && (request.None? ==> unchanged(this))
      ensures if route.transport == Uart then bluetooth == old(bluetooth) else uart == old(uart)
      ensures request.Some? ==> FromRoute(request.value, route) && WholeFrames([request.value])
      ensures request.Some? ==> old(Buffered(route)) == request.value.received + Buffered(route)
    {
      var n: int, whole: bool := *, *;
      var buffer := Buffered(route);
      if n <= 0 || n > |buffer| { return None; }
      SetBuffered(route, buffer[n..]);
      request := Some(if whole then Frame(route, buffer[..n]) else FrameError(route, buffer[..n]));
    }

    /** What feeding adds to the core: the frames put to the wallet, and its answers to them. */
    ghost predicate Fed(base: Base, pieces: seq<Piece>, route: Route)
      reads this
    {
      var n := |RequestsIn(pieces)|;
      && asked == base.asked + RequestsIn(pieces) && Parsed(pieces, route, base.busy, base.script)
      && script == Dropped(base.script, n) && effects == base.effects + Answers(base.script, n)
      && busy == BusyAfter(base.busy, base.script, n)
    }

    /** The core now. */
    ghost function Here(): Base
      reads this
    {
      Base(asked, script, effects, busy)
    }

    /** feed_protocol: every frame the parser finds is handled in order, and a busy wallet drops the rest. `all` and
        `before` are the bytes since an earlier moment and what became of those no longer kept. */
    method FeedProtocol(route: Route, data: seq<byte>, ghost base: Base, ghost all: seq<Tagged>,
                        ghost before: seq<Piece>)
      returns (ghost pieces: seq<Piece>)
      requires Valid() && Fed(base, before, route) && all == AllBytes(before) + Kept(route)
      modifies `script, `busy, `uart, `bluetooth, `bluetoothSession, `effects, `asked, `total
      ensures Valid() && Fed(base, pieces, route) && all + Received(route, data) == AllBytes(pieces) + Buffered(route)
      ensures Kept(route) == Buffered(route) && (busy ==> Buffered(route) == [])
      ensures if route.transport == Uart then bluetooth == old(bluetooth) else uart == old(uart)
    {
      ghost var whole := all + Received(route, data);
      Associates(AllBytes(before), Kept(route), Received(route, data));
      Push(route, data);
      pieces := before;
      var more := true;
      while more
        invariant Valid() && Fed(base, pieces, route) && whole == AllBytes(pieces) + Buffered(route)
        invariant if route.transport == Uart then bluetooth == old(bluetooth) else uart == old(uart)
        invariant route.transport == Bluetooth ==> bluetoothSession == route.session
        decreases |Buffered(route)|, more
      {
        more, pieces := HandleNext(route, base, whole, pieces);
      }
      if busy { pieces := DropRest(route, base, whole, pieces); }
    }

    /** FrameParser::push, on the parser of the route. */
    method Push(route: Route, data: seq<byte>)
      requires Valid()
      modifies `uart, `bluetooth, `bluetoothSession
      ensures Valid() && Buffered(route) == old(Kept(route)) + Received(route, data)
      ensures route.transport == Bluetooth ==> bluetoothSession == route.session
      ensures if route.transport == Uart then bluetooth == old(bluetooth) else uart == old(uart)
    {
      SelectParser(route);
      SetBuffered(route, Buffered(route) + Received(route, data));
    }

    /** FrameParser::clear, when the wallet is busy. */
    method DropRest(route: Route, ghost base: Base, ghost all: seq<Tagged>, ghost before: seq<Piece>)
      returns (ghost pieces: seq<Piece>)
      requires Valid() && busy && Fed(base, before, route) && all == AllBytes(before) + Buffered(route)
      modifies `uart, `bluetooth
      ensures Valid() && Fed(base, pieces, route) && all == AllBytes(pieces) && Buffered(route) == []
      ensures if route.transport == Uart then bluetooth == old(bluetooth) else uart == old(uart)
    {
      OnePiece(before, Lost(Buffered(route)));
      pieces := before + [Lost(Buffered(route))];
      SetBuffered(route, []);
    }

    /** One turn of the loop: the next frame the parser finds, if any, is handled. */
    method HandleNext(route: Route, ghost base: Base, ghost all: seq<Tagged>, ghost before: seq<Piece>)
      returns (more: bool, ghost pieces: seq<Piece>)
      requires Valid() && (route.transport == Bluetooth ==> bluetoothSession == route.session)
      requires Fed(base, before, route) && all == AllBytes(before) + Buffered(route)
      modifies `script, `busy, `uart, `bluetooth, `effects, `asked, `total
      ensures Valid() && Fed(base, pieces, route) && all == AllBytes(pieces) + Buffered(route)
      ensures if more then |Buffered(route)| < |old(Buffered(route))| else Buffered(route) == old(Buffered(route))
      ensures if route.transport == Uart then bluetooth == old(bluetooth) else uart == old(uart)
    {
      var request := Unpack(route);
      if request.None? {
        return false, before;
      }
      assert WholeFrames([request.value]) && [request.value][0] == request.value;
      MorePieces(all, before, request.value, Buffered(route));
      HandleFrame(request.value, route, base, before);
      more, pieces := true, before + [Took(request.value)];
    }

    /** A frame put to the wallet is one piece more. */
    method HandleFrame(request: Request, route: Route, ghost base: Base, ghost before: seq<Piece>)
      requires Valid() && Fed(base, before, route) && FromRoute(request, route)
      requires request.Frame? && route.transport == Bluetooth ==> OneSession(request.received, route.session)
      modifies `script, `busy, `asked, `effects, `total
      ensures Valid() && Fed(base, before + [Took(request)], route)
    {
      ghost var n := |RequestsIn(before)|;
      NextAnswer(base.script, n);
      NextBusy(base.busy, base.script, n);
      Associates(base.effects, Answers(base.script, n), AnswerAt(base.script, n));
      Associates(base.asked, RequestsIn(before), [request]);
      OnePiece(before, Took(request));
      Handle(request);
    }

    /** app_core_execute_rs: an idle core takes every well-formed command; a refused one leaves no trace. */
    method Execute(command: Command, fragments: seq<Slice>)
      returns (ok: bool, ghost requests: seq<Request>, ghost feed: Feed)
      requires Valid()
      modifies `script, `busy, `uart, `bluetooth, `bluetoothSession, `effects, `asked, `total
      ensures Valid()
      ensures ok <==> old(Idle()) && Accepts(command, fragments)
      ensures !ok ==> unchanged(this)
      ensures ok ==> asked == old(asked) + requests && Asks(utf8, command, fragments, requests, feed)
      ensures ok ==> script == Dropped(old(script), |requests|) && effects == Outcome(command, old(script), requests)
      ensures ok && command.ProtocolCommand? ==>
                && feed.kept == old(Kept(command.route)) && feed.left == Kept(command.route)
                && feed.busy == old(busy) && feed.script == old(script)
                && if command.route.transport == Uart then bluetooth == old(bluetooth) else uart == old(uart)
      ensures ok && !command.ProtocolCommand? ==> Parsers() == old(Parsers())
    {
      requests, feed := [], NO_FEED;
      if current.Some? || effects != [] { return false, [], feed; }
      var i := 0;
      while i < |fragments|
        invariant i <= |fragments| && forall k :: 0 <= k < i ==> Readable(fragments[k])
      {
        if fragments[i].isNull && fragments[i].bytes != [] { return false, [], feed; }
        i := i + 1;
      }
      match command {
      case ProtocolCommand(route) =>
        requests, feed := FeedFragments(route, fragments);
      case ConfirmCommand(id, choice) =>
        requests := HandleOne(Choice(id, choice));
      case LocalCommand(kind, value, firstLen) =>
        var bytes := Gather(fragments);
        if firstLen > |bytes| { return false, [], feed; }
        var parsed := ParseLocal(utf8, Wire(kind, value, bytes[..firstLen], bytes[firstLen..]));
        if parsed.Some? { requests := HandleOne(LocalAsked(parsed.value)); } else { Queue(INVALID_LOCAL); }
      case FidoCommand(kind, requestId, value, firstLen) =>
        var bytes := Gather(fragments);
        if firstLen > |bytes| { return false, [], feed; }
        var parsed := ParseFido(utf8, Wire(kind, value, bytes[..firstLen], bytes[firstLen..]));
        if parsed.Some? { requests := HandleOne(FidoAsked(requestId, parsed.value)); } else { Queue(InvalidFido(requestId)); }
      }
      ok := true;
    }

    /** The command that carries a choice. */
    method Confirm(id: word, choice: nat) returns (ok: bool)
      requires Valid()
      modifies `script, `busy, `uart, `bluetooth, `bluetoothSession, `effects, `asked, `total
      ensures Valid() && ok == old(Idle()) && Parsers() == old(Parsers())
      ensures ok ==>
                && asked == old(asked) + [Choice(id, choice)]
                && script == Dropped(old(script), 1)
                && effects == AnswerAt(old(script), 0)
    {
      OneAnswer(script);
      ghost var requests, feed;
      ok, requests, feed := Execute(ConfirmCommand(id, choice), []);
    }

    /** One request to an idle core. */
    method HandleOne(request: Request) returns (ghost requests: seq<Request>)
      requires Valid() && Idle() && !request.Frame?
      modifies `script, `busy, `asked, `effects, `total
      ensures Valid() && asked == old(asked) + requests && requests == [request]
      ensures script == Dropped(old(script), 1) && effects == Answers(old(script), 1)
    {
      Handle(request);
      requests := [request];
    }

    /** The fragments of a protocol command, one after another into the parser. */
    method FeedFragments(route: Route, fragments: seq<Slice>) returns (ghost requests: seq<Request>, ghost feed: Feed)
      requires Valid()
      modifies `script, `busy, `uart, `bluetooth, `bluetoothSession, `effects, `asked, `total
      ensures Valid() && Fed(old(Here()), feed.pieces, route) && requests == RequestsIn(feed.pieces)
      ensures feed == Feed(old(Kept(route)), feed.pieces, Kept(route), old(busy), old(script))
      ensures feed.kept + Received(route, Joined(fragments)) == AllBytes(feed.pieces) + feed.left
      ensures if route.transport == Uart then bluetooth == old(bluetooth) else uart == old(uart)
    {
      ghost var pieces: seq<Piece> := [];
      ghost var kept := Kept(route);
      ghost var all := kept;
      for k := 0 to |fragments|
        invariant Valid() && Fed(old(Here()), pieces, route)
        invariant all == kept + Received(route, Joined(fragments[..k])) == AllBytes(pieces) + Kept(route)
        invariant if route.transport == Uart then bluetooth == old(bluetooth) else uart == old(uart)
      {
        ReceivedJoins(route, kept, fragments, k);
        pieces := FeedProtocol(route, fragments[k].bytes, old(Here()), all, pieces);
        all := all + Received(route, fragments[k].bytes);
      }
      assert fragments[..|fragments|] == fragments;
      requests, feed := RequestsIn(pieces), Feed(kept, pieces, Kept(route), old(busy), old(script));
    }

    /** app_core_effect_next_rs. */
    method EffectNext() returns (effect: Option<Effect>)
      requires Valid()
      modifies `effects, `current, `taken
      ensures Valid() && total == old(total) && current == effect
      ensures effect == if old(effects) == [] then None else Some(old(effects)[0])
      ensures effect.None? ==> Idle() && taken == old(taken)
      ensures effect.Some? ==> taken == old(taken) + [effect.value] && effects == old(effects)[1..]
    {
      current := None;
      if effects == [] { return None; }
      effect := Some(effects[0]);
      taken := taken + [effects[0]];
      current, effects := effect, effects[1..];
    }
  }

  // --------------------------------------------------------------------------- the core thread

  /** An effect with what happened on its way: whether a confirmation was stored, and whether it was sent. */
  datatype Routed = Routed(effect: Effect, stored: bool, sent: bool) {
    predicate Succeeded() {
      match effect
      case ConfirmationRequired(id) => stored && sent && id != 0
      case ConfirmationCompleted(id, _) => sent && id != 0
      case _ => sent
    }
  }

  function EffectsOf(log: seq<Routed>): seq<Effect> {
    if log == [] then [] else EffectsOf(log[..|log| - 1]) + [log[|log| - 1].effect]
  }

  /** The confirmation on display after a history of routed effects; 0 for none. */
  function Shown(log: seq<Routed>): word {
    if log == [] then 0
    else
      var before, last := Shown(log[..|log| - 1]), log[|log| - 1];
      match last.effect
      case ConfirmationRequired(id) => if last.Succeeded() then id else 0
      case ConfirmationCompleted(id, _) => if last.Succeeded() && before == id then 0 else before
      case _ => before
  }

  /** The id of the last confirmation that could not be shown; 0 for none. */
  function LastReject(log: seq<Routed>): word {
    if log == [] then 0
    else
      var last := log[|log| - 1];
      if last.effect.ConfirmationRequired? && !last.Succeeded() then last.effect.id else LastReject(log[..|log| - 1])
  }

  predicate Closes(r: Routed, id: word) {
    r.effect.ConfirmationRequired? || (r.effect.ConfirmationCompleted? && r.effect.completed == id && r.Succeeded())
  }

  /** A confirmation is on display exactly from its successful announcement until it is completed or another one
      is announced. */
  lemma {:induction false} ShownMeans(log: seq<Routed>, id: word)
    requires id != 0
    ensures Shown(log) == id <==>
            exists k :: 0 <= k < |log| && log[k].effect == ConfirmationRequired(id) && log[k].Succeeded()
                        && forall j :: k < j < |log| ==> !Closes(log[j], id)
  {
    if log != [] {
      var n := |log| - 1;
      var front := log[..n];
      ShownMeans(front, id);
      assert forall j :: 0 <= j < n ==> front[j] == log[j];
      if Shown(log) == id {
        if log[n].effect.ConfirmationRequired? {
          assert log[n].effect == ConfirmationRequired(id) && log[n].Succeeded();
        } else {
          assert Shown(front) == id;
          var k :| 0 <= k < |front| && front[k].effect == ConfirmationRequired(id) && front[k].Succeeded()
                   && forall j :: k < j < |front| ==> !Closes(front[j], id);
          assert !Closes(log[n], id);
          assert log[k].effect == ConfirmationRequired(id) && log[k].Succeeded();
        }
      }
      if k :| 0 <= k < |log| && log[k].effect == ConfirmationRequired(id) && log[k].Succeeded()
              && forall j :: k < j < |log| ==> !Closes(log[j], id) {
        if k < n {
          assert front[k].effect == ConfirmationRequired(id) && front[k].Succeeded();
          assert !Closes(log[n], id);
        }
      }
    }
  }

  predicate Failing(r: Routed) {
    r.effect.ConfirmationRequired? && !r.Succeeded()
  }

  lemma {:induction false} LastRejectIsLastFailing(log: seq<Routed>) returns (at: nat)
    ensures LastReject(log) != 0 ==> at < |log| && Failing(log[at])
    ensures at < |log| ==>
              Failing(log[at]) && log[at].effect.id == LastReject(log) && forall k :: at < k < |log| ==> !Failing(log[k])
    ensures at >= |log| ==> forall k :: 0 <= k < |log| ==> !Failing(log[k])
  {
    if log == [] { return 0; }
    var n := |log| - 1;
    if Failing(log[n]) { return n; }
    at := LastRejectIsLastFailing(log[..n]);
    if at >= n { at := n + 1; }
  }

  // What the thread makes of a command that was taken: it drains, and as long as a drain reports a failed announcement it
  // rejects that one and drains again.

  function Flat<T>(parts: seq<seq<T>>): seq<T> {
    if parts == [] then [] else Flat(parts[..|parts| - 1]) + parts[|parts| - 1]
  }

  lemma {:induction false} FlatJoins<T>(a: seq<seq<T>>, b: seq<seq<T>>)
    ensures Flat(a + b) == Flat(a) + Flat(b)
    decreases |b|
  {
    if b == [] {
      assert a + b == a;
    } else {
      var n := |b| - 1;
      FlatJoins(a, b[..n]);
      assert (a + b)[..|a| + n] == a + b[..n];
      Associates(Flat(a), Flat(b[..n]), b[n]);
    }
  }

  lemma FlatSplits<T>(parts: seq<seq<T>>, i: nat)
    requires i < |parts|
    ensures Flat(parts) == Flat(parts[..i]) + parts[i] + Flat(parts[i + 1..])
  {
    var front, x, tail := parts[..i], [parts[i]], parts[i + 1..];
    Cut(parts, i);
    FlatJoins(front + x, tail);
    FlatJoins(front, x);
    FlatOne(parts[i]);
  }

  lemma Cut<T>(parts: seq<T>, i: nat)
    requires i < |parts|
    ensures parts == (parts[..i] + [parts[i]]) + parts[i + 1..]
  {
  }

  lemma FlatOne<T>(part: seq<T>)
    ensures Flat([part]) == part
  {
    assert [part][..0] == [];
  }

  /** The rejections sent between the drains: of what each but the last reported. */
  function Rejections(drains: seq<seq<Routed>>): seq<Request> {
    if |drains| <= 1 then []
    else Rejections(drains[..|drains| - 1]) + [Choice(LastReject(drains[|drains| - 2]), REJECT)]
  }

  /** Each drain but the first follows the rejection of what the one before reported, and drains the wallet's
      answer to it; when the thread is jammed nothing is sent. */
  predicate Unfolds(drains: seq<seq<Routed>>, script: seq<Reply>, jammed: bool) {
    var n := |drains| - 1;
    && n >= 0 && (jammed ==> Unsent(drains[n]))
    && (n > 0 ==>
          && Unfolds(drains[..n], script, jammed) && LastReject(drains[n - 1]) != 0
          && EffectsOf(drains[n]) == AnswerAt(script, n - 1))
  }

  /** The last drain reports nothing. */
  predicate Settled(drains: seq<seq<Routed>>, script: seq<Reply>, jammed: bool) {
    Unfolds(drains, script, jammed) && LastReject(drains[|drains| - 1]) == 0
  }

  predicate Unsent(log: seq<Routed>) {
    log != [] ==> !log[|log| - 1].sent && Unsent(log[..|log| - 1])
  }

  lemma {:induction false} UnfoldsAt(drains: seq<seq<Routed>>, script: seq<Reply>, jammed: bool, i: nat)
    requires Unfolds(drains, script, jammed) && i < |drains|
    ensures i < |drains| - 1 ==> LastReject(drains[i]) != 0
    ensures i >= 1 ==> EffectsOf(drains[i]) == AnswerAt(script, i - 1)
    ensures jammed ==> Unsent(drains[i])
  {
    var n := |drains| - 1;
    if i < n {
      UnfoldsAt(drains[..n], script, jammed, i);
    }
  }

  lemma {:induction false} RejectionAt(drains: seq<seq<Routed>>, i: nat)
    ensures |Rejections(drains)| == if drains == [] then 0 else |drains| - 1
    ensures i < |drains| - 1 ==> Rejections(drains)[i] == Choice(LastReject(drains[i]), REJECT)
  {
    if |drains| > 1 {
      RejectionAt(drains[..|drains| - 1], i);
    }
  }

  /** The last announcement that failed is of this confirmation. */
  predicate LastFailingIs(log: seq<Routed>, id: word) {
    exists m :: 0 <= m < |log| && Failing(log[m]) && log[m].effect.id == id && forall n :: m < n < |log| ==> !Failing(log[n])
  }

  lemma ReportMeans(log: seq<Routed>, id: word)
    requires id != 0
    ensures LastReject(log) == id <==> LastFailingIs(log, id)
  {
    var at := LastRejectIsLastFailing(log);
  }

  /** The request that follows drain i rejects this confirmation. */
  predicate RejectedAfter(drains: seq<seq<Routed>>, i: nat, id: word) {
    i < |Rejections(drains)| && Rejections(drains)[i] == Choice(id, REJECT)
  }

  /** The rejection after a drain is of the confirmation that failed last in it, and of no other. */
  lemma RejectedIff(drains: seq<seq<Routed>>, script: seq<Reply>, jammed: bool, i: nat, id: word)
    requires Settled(drains, script, jammed) && i < |drains|
    ensures RejectedAfter(drains, i, id) <==> id != 0 && LastFailingIs(drains[i], id)
  {
    RejectionAt(drains, i);
    UnfoldsAt(drains, script, jammed, i);
    if id != 0 {
      ReportMeans(drains[i], id);
    }
  }

  /** Whatever fails in drain i is rejected right after it. */
  predicate AllRejectedAfter(drains: seq<seq<Routed>>, i: nat)
    requires i < |drains|
  {
    forall k :: 0 <= k < |drains[i]| && Failing(drains[i][k]) ==> RejectedAfter(drains, i, drains[i][k].effect.id)
  }

  /** All failing announcements of a drain carry the same id, and it is not zero. */
  predicate OneConfirmation(log: seq<Routed>) {
    forall j, k :: 0 <= j < |log| && 0 <= k < |log| && Failing(log[j]) && Failing(log[k]) ==>
      log[j].effect.id == log[k].effect.id != 0
  }

  lemma RejectedInDrainIff(drains: seq<seq<Routed>>, script: seq<Reply>, jammed: bool, i: nat)
    requires Settled(drains, script, jammed) && i < |drains|
    ensures AllRejectedAfter(drains, i) <==> OneConfirmation(drains[i])
  {
    var log := drains[i];
    var at := LastRejectIsLastFailing(log);
    if at < |log| {
      forall k | 0 <= k < |log| && Failing(log[k])
        ensures RejectedAfter(drains, i, log[k].effect.id) <==> log[k].effect.id == log[at].effect.id != 0
      {
        RejectedIff(drains, script, jammed, i, log[k].effect.id);
      }
    }
  }

  /** Every announcement that fails is rejected after its drain exactly when in every drain those that fail are
      of one confirmation with an id. */
  lemma AllRejectedIff(drains: seq<seq<Routed>>, script: seq<Reply>, jammed: bool)
    requires Settled(drains, script, jammed)
    ensures (forall i :: 0 <= i < |drains| ==> AllRejectedAfter(drains, i)) <==>
              (forall i :: 0 <= i < |drains| ==> OneConfirmation(drains[i]))
  {
    forall i | 0 <= i < |drains| ensures AllRejectedAfter(drains, i) <==> OneConfirmation(drains[i]) {
      RejectedInDrainIff(drains, script, jammed, i);
    }
  }

  /** A confirmation is ever rejected in the run exactly when it is the last to fail in some drain. */
  lemma EverRejectedIff(drains: seq<seq<Routed>>, script: seq<Reply>, jammed: bool, id: word)
    requires Settled(drains, script, jammed) && id != 0
    ensures Choice(id, REJECT) in Rejections(drains) <==> exists i :: 0 <= i < |drains| && LastFailingIs(drains[i], id)
  {
    RejectionAt(drains, 0);
    forall i | 0 <= i < |drains| ensures RejectedAfter(drains, i, id) <==> LastFailingIs(drains[i], id) {
      RejectedIff(drains, script, jammed, i, id);
    }
    if Choice(id, REJECT) in Rejections(drains) {
      var i :| 0 <= i < |Rejections(drains)| && Rejections(drains)[i] == Choice(id, REJECT);
      assert RejectedAfter(drains, i, id);
    }
  }

  /** A command carried out: what the wallet was asked for it, how received bytes were parsed, and the drains. */
  datatype Execution = Execution(requests: seq<Request>, feed: Feed, drains: seq<seq<Routed>>)

  /** Everything the wallet is asked: the command's requests and then the rejections, each of what a drain reported. */
  function Conversation(e: Execution): seq<Request> {
    e.requests + Rejections(e.drains)
  }

  /** The requests are what the command says, the first drain has exactly its effects, and the drains unfold
      from there. */
  predicate Performed(utf8: seq<byte> -> bool, jammed: bool, command: Command, fragments: seq<Slice>,
                      script: seq<Reply>, e: Execution) {
    && Accepts(command, fragments) && Asks(utf8, command, fragments, e.requests, e.feed)
    && Settled(e.drains, Dropped(script, |e.requests|), jammed)
    && EffectsOf(e.drains[0]) == Outcome(command, script, e.requests)
  }

  lemma ConversationIs(asked: seq<Request>, script: seq<Reply>, e: Execution)
    requires e.drains != []
    ensures asked + e.requests + Rejections(e.drains) == asked + Conversation(e)
    ensures Dropped(Dropped(script, |e.requests|), |e.drains| - 1) == Dropped(script, |Conversation(e)|)
  {
    RejectionAt(e.drains, 0);
    Associates(asked, e.requests, Rejections(e.drains));
    DropTwice(script, |e.requests|, |e.drains| - 1);
  }

  /** Every rejection is a rejection. */
  lemma {:induction false} OnlyRejections(drains: seq<seq<Routed>>)
    ensures forall r :: r in Rejections(drains) ==> r.Choice? && r.choice == 1
  {
    if |drains| > 1 {
      OnlyRejections(drains[..|drains| - 1]);
    }
  }

  class CoreThread {
    const core: Core
    /** Nothing can be stored or sent. */
    const jammed: bool
    var confirmation: word
    ghost var log: seq<Routed>

    /** Every effect the core handed out was routed, once and in order; the display shows what that says. */
    ghost predicate Valid()
      reads this, core
    {
      core.Valid() && EffectsOf(log) == core.taken && confirmation == Shown(log)
    }

    constructor (core: Core, jammed: bool)
      requires core.Valid() && core.taken == []
      ensures Valid() && this.core == core && this.jammed == jammed && log == []
    {
      this.core, this.jammed := core, jammed;
      confirmation, log := 0, [];
    }

    /** confirmation_clear. */
    method ConfirmationClear(id: word)
      modifies `confirmation
      ensures confirmation == if old(confirmation) == id then 0 else old(confirmation)
    {
      if confirmation == id { confirmation := 0; }
    }

    /** app_core_confirmation_get: what another thread sees. */
    method ConfirmationGet(id: word) returns (found: bool)
      requires Valid()
      ensures found <==> id != 0 && Shown(log) == id
    {
      found := id != 0 && confirmation == id;
    }

    /** route_effect; storing and sending may fail at any time. */
    method RouteEffect(effect: Effect) returns (rc: int, ghost routed: Routed)
      modifies `confirmation
      ensures routed.effect == effect && (rc < 0 <==> !routed.Succeeded()) && (jammed ==> !routed.sent)
      ensures effect.ConfirmationRequired? ==> confirmation == if routed.stored then effect.id else 0
      ensures effect.ConfirmationCompleted? ==>
                confirmation == if routed.Succeeded() && old(confirmation) == effect.completed then 0
                                else old(confirmation)
      ensures !effect.ConfirmationRequired? && !effect.ConfirmationCompleted? ==> confirmation == old(confirmation)
    {
      var stored: bool, sent: bool := *, *;
      stored, sent := stored && !jammed, sent && !jammed;
      routed := Routed(effect, stored, sent);
      rc := if sent then 0 else -5;
      match effect
      case ConfirmationRequired(id) =>
        confirmation := if stored then id else 0;
        if !stored { return -122, routed; }
        if id == 0 { return -22, routed; }
      case ConfirmationCompleted(id, _) =>
        if id == 0 { return -22, routed; }
        if sent { ConfirmationClear(id); }
      case _ =>
    }

    /** drain_effects: the core is idle afterwards, and the last confirmation that failed is returned. */
    method DrainEffects() returns (reject: word, ghost drain: seq<Routed>)
      requires Valid()
      modifies this, core`effects, core`current, core`taken
      ensures Valid() && core.Idle() && core.total == old(core.total)
      ensures log == old(log) + drain && EffectsOf(drain) == old(core.effects) && reject == LastReject(drain)
      ensures jammed ==> Unsent(drain)
    {
      reject, drain := 0, [];
      var more := true;
      while more
        invariant Valid() && core.total == old(core.total)
        invariant log == old(log) + drain && EffectsOf(drain) + core.effects == old(core.effects)
        invariant reject == LastReject(drain)
        invariant (jammed ==> Unsent(drain)) && (!more ==> core.Idle())
        decreases |core.effects|, more
      {
        ghost var waiting := core.effects;
        var effect := core.EffectNext();
        if effect.None? {
          more := false;
        } else {
          var failed; ghost var routed;
          failed, routed := Deliver(effect.value);
          Lengthen(drain, routed);
          assert waiting == [effect.value] + core.effects;
          Associates(EffectsOf(drain), [effect.value], core.effects);
          Associates(old(log), drain, [routed]);
          drain := drain + [routed];
          if failed {
            reject := effect.value.id;
          }
        }
      }
    }

    /** Route one effect; an announcement that fails is taken off the display again. */
    method Deliver(effect: Effect) returns (failed: bool, ghost routed: Routed)
      requires core.Valid() && confirmation == Shown(log) && core.taken == EffectsOf(log) + [effect]
      modifies `confirmation, `log
      ensures Valid() && log == old(log) + [routed] && routed.effect == effect
      ensures failed == Failing(routed) && (jammed ==> !routed.sent)
    {
      var rc;
      rc, routed := RouteEffect(effect);
      Lengthen(log, routed);
      log := log + [routed];
      failed := rc < 0 && effect.ConfirmationRequired?;
      if failed {
        ConfirmationClear(effect.id);
      }
    }

    /** The drains since a point in the log, with the rejections between them. */
    ghost predicate Unfolded(drains: seq<seq<Routed>>, log0: seq<Routed>, asked0: seq<Request>, script0: seq<Reply>)
      reads this, core
    {
      && Unfolds(drains, script0, jammed) && log == log0 + Flat(drains)
      && core.asked == asked0 + Rejections(drains) && core.script == Dropped(script0, |drains| - 1)
    }

    /** reject_unpublished_confirmation after a first drain: the core takes every rejection, each of what the
        drain before it reported. */
    method RejectUnpublished(first: word, ghost drain: seq<Routed>, ghost log0: seq<Routed>)
      returns (ghost drains: seq<seq<Routed>>)
      requires Valid() && core.Idle() && log == log0 + drain && first == LastReject(drain) && (jammed ==> Unsent(drain))
      modifies this, core
      ensures Valid() && core.Idle() && Unfolded(drains, log0, old(core.asked), old(core.script))
      ensures drains[0] == drain && LastReject(drains[|drains| - 1]) == 0 && core.Parsers() == old(core.Parsers())
    {
      var id := first;
      drains := [drain];
      Single(drain);
      while id != 0
        invariant Valid() && core.Idle() && Unfolded(drains, log0, old(core.asked), old(core.script))
        invariant drains[0] == drain && id == LastReject(drains[|drains| - 1]) && core.Parsers() == old(core.Parsers())
        decreases |core.script|, id != 0
      {
        id, drains := RejectOne(id, drains, log0, old(core.asked), old(core.script));
      }
    }

    /** One rejection, and the drain after it. */
    method RejectOne(id: word, ghost drains: seq<seq<Routed>>, ghost log0: seq<Routed>, ghost asked0: seq<Request>,
                     ghost script0: seq<Reply>)
      returns (next: word, ghost longer: seq<seq<Routed>>)
      requires Valid() && core.Idle() && Unfolded(drains, log0, asked0, script0)
      requires id != 0 && id == LastReject(drains[|drains| - 1])
      modifies this, core
      ensures Valid() && core.Idle() && Unfolded(longer, log0, asked0, script0)
      ensures longer[0] == drains[0] && next == LastReject(longer[|longer| - 1])
      ensures core.Parsers() == old(core.Parsers())
      ensures if old(core.script) == [] then next == 0 && core.script == [] else |core.script| < |old(core.script)|
    {
      NextAnswer(script0, |drains| - 1);
      Associates(asked0, Rejections(drains), [Choice(id, REJECT)]);
      ghost var drain;
      next, drain := RejectAndDrain(id);
      Associates(log0, Flat(drains), drain);
      Longer(drains, drain, script0, jammed);
      longer := drains + [drain];
    }

    method RejectAndDrain(id: word) returns (next: word, ghost drain: seq<Routed>)
      requires Valid() && core.Idle()
      modifies this, core
      ensures Valid() && core.Idle() && log == old(log) + drain
      ensures next == LastReject(drain) && (jammed ==> Unsent(drain))
      ensures core.asked == old(core.asked) + [Choice(id, REJECT)] && core.script == Dropped(old(core.script), 1)
      ensures EffectsOf(drain) == AnswerAt(old(core.script), 0) && core.Parsers() == old(core.Parsers())
    {
      var ok := core.Confirm(id, REJECT);
      if !ok {
        // "Failed to reject unpublished confirmation" is never reported: the core is idle here.
        assert false;
      }
      next, drain := DrainEffects();
    }

    /** execute: a command is refused only if it is malformed; every other one is put to the wallet, and what
        could not be announced is rejected; the core is idle again afterwards. */
    method Run(command: Command, fragments: seq<Slice>)
      returns (executed: bool, reply: Option<Effect>, ghost e: Execution)
      requires Valid() && core.Idle()
      modifies this, core
      ensures Valid() && core.Idle()
      ensures executed <==> Accepts(command, fragments)
      ensures !executed ==> unchanged(this) && unchanged(core)
      ensures reply == if executed then None else ErrorReply(command)
      ensures executed ==> Performed(core.utf8, jammed, command, fragments, old(core.script), e)
      ensures executed ==> core.asked == old(core.asked) + Conversation(e) && log == old(log) + Flat(e.drains)
      ensures executed ==> core.script == Dropped(old(core.script), |Conversation(e)|)
      ensures executed && command.ProtocolCommand? ==>
                && e.feed.kept == old(core.Kept(command.route)) && e.feed.left == core.Kept(command.route)
                && e.feed.busy == old(core.busy) && e.feed.script == old(core.script)
      ensures executed && !command.ProtocolCommand? ==> core.Parsers() == old(core.Parsers())
    {
      reply, e := None, Execution([], NO_FEED, []);
      ghost var requests, feed;
      executed, requests, feed := core.Execute(command, fragments);
      if !executed {
        reply := ErrorReply(command);
      } else {
        ghost var drains := Settle();
        e := Execution(requests, feed, drains);
        ConversationIs(old(core.asked), old(core.script), e);
      }
    }

    /** reject_unpublished_confirmation(drain_effects()). */
    method Settle() returns (ghost drains: seq<seq<Routed>>)
      requires Valid()
      modifies this, core
      ensures Valid() && core.Idle() && Settled(drains, old(core.script), jammed) && log == old(log) + Flat(drains)
      ensures core.asked == old(core.asked) + Rejections(drains) && EffectsOf(drains[0]) == old(core.effects)
      ensures core.script == Dropped(old(core.script), |drains| - 1) && core.Parsers() == old(core.Parsers())
    {
      var id, drain := DrainEffects();
      drains := RejectUnpublished(id, drain, old(log));
    }

    /** Any number of commands: none is refused for what an earlier one left, and every effect of the wallet is
        routed once, in order. */
    method Serve(commands: seq<(Command, seq<Slice>)>) returns (executed: seq<bool>)
      requires Valid() && core.Idle()
      modifies this, core
      ensures Valid() && core.Idle() && EffectsOf(log) == core.total
      ensures |executed| == |commands|
      ensures forall i :: 0 <= i < |commands| ==> executed[i] == Accepts(commands[i].0, commands[i].1)
    {
      executed := [];
      for i := 0 to |commands|
        invariant Valid() && core.Idle()
        invariant |executed| == i && forall k :: 0 <= k < i ==> executed[k] == Accepts(commands[k].0, commands[k].1)
      {
        var ok, _, _ := Run(commands[i].0, commands[i].1);
        executed := executed + [ok];
      }
      assert core.total == core.taken;
    }
  }

  lemma Lengthen(log: seq<Routed>, r: Routed)
    ensures EffectsOf(log + [r]) == EffectsOf(log) + [r.effect]
    ensures Unsent(log + [r]) <==> Unsent(log) && !r.sent
    ensures LastReject(log + [r]) == if Failing(r) then r.effect.id else LastReject(log)
    ensures Shown(log + [r]) == match r.effect
                                case ConfirmationRequired(id) => if r.Succeeded() then id else 0
                                case ConfirmationCompleted(id, _) => if r.Succeeded() && Shown(log) == id then 0
                                                                     else Shown(log)
                                case _ => Shown(log)
  {
    assert (log + [r])[..|log|] == log;
  }

  lemma NextBusy(busy: bool, script: seq<Reply>, n: nat)
    ensures BusyAfter(busy, script, n + 1) == BusyAfter(BusyAfter(busy, script, n), Dropped(script, n), 1)
  {
  }

  lemma OnePiece(pieces: seq<Piece>, p: Piece)
    ensures (pieces + [p])[..|pieces|] == pieces
    ensures RequestsIn(pieces + [p]) == RequestsIn(pieces) + if p.Took? then [p.request] else []
    ensures AllBytes(pieces + [p]) == AllBytes(pieces) + AllBytes([p])
    ensures AllBytes([p]) == if p.Lost? then p.bytes
                             else if p.request.Frame? || p.request.FrameError? then p.request.received else []
  {
    assert (pieces + [p])[..|pieces|] == pieces && [p][..0] == [];
  }

  lemma MorePieces(all: seq<Tagged>, before: seq<Piece>, request: Request, rest: seq<Tagged>)
    requires (request.Frame? || request.FrameError?) && all == AllBytes(before) + (request.received + rest)
    ensures all == AllBytes(before + [Took(request)]) + rest
  {
    OnePiece(before, Took(request));
    Associates(AllBytes(before), request.received, rest);
  }

  lemma DropTwice(script: seq<Reply>, m: nat, n: nat)
    ensures Dropped(Dropped(script, m), n) == Dropped(script, m + n)
  {
  }

  lemma ReceivedJoins(route: Route, kept: seq<Tagged>, fragments: seq<Slice>, k: nat)
    requires k < |fragments|
    ensures kept + Received(route, Joined(fragments[..k + 1]))
            == kept + Received(route, Joined(fragments[..k])) + Received(route, fragments[k].bytes)
  {
    assert fragments[..k + 1][..k] == fragments[..k];
  }

  lemma OneAnswer(script: seq<Reply>)
    ensures Answers(script, 1) == AnswerAt(script, 0)
  {
    assert Answers(script, 0) == [];
  }

  lemma {:induction false} AnswersJoin(script: seq<Reply>, m: nat, n: nat)
    ensures Dropped(Dropped(script, m), n) == Dropped(script, m + n)
    ensures Answers(script, m + n) == Answers(script, m) + Answers(Dropped(script, m), n)
  {
    if n > 0 {
      AnswersJoin(script, m, n - 1);
      NextAnswer(Dropped(script, m), n - 1);
    }
  }

  lemma NextAnswer(script: seq<Reply>, n: nat)
    ensures Dropped(Dropped(script, n), 1) == Dropped(script, n + 1)
    ensures AnswerAt(Dropped(script, n), 0) == AnswerAt(script, n)
    ensures n < |script| ==> |Dropped(script, n + 1)| < |Dropped(script, n)|
  {
  }

  lemma Associates<T>(a: seq<T>, b: seq<T>, c: seq<T>)
    ensures (a + b) + c == a + (b + c)
  {
  }

  lemma Single(drain: seq<Routed>)
    ensures Flat([drain]) == drain && Rejections([drain]) == []
  {
    assert [drain][..0] == [];
  }

  lemma Longer(drains: seq<seq<Routed>>, drain: seq<Routed>, script: seq<Reply>, jammed: bool)
    requires Unfolds(drains, script, jammed) && LastReject(drains[|drains| - 1]) != 0
    requires EffectsOf(drain) == AnswerAt(script, |drains| - 1) && (jammed ==> Unsent(drain))
    ensures Unfolds(drains + [drain], script, jammed)
    ensures Flat(drains + [drain]) == Flat(drains) + drain
    ensures Rejections(drains + [drain]) == Rejections(drains) + [Choice(LastReject(drains[|drains| - 1]), REJECT)]
  {
    assert (drains + [drain])[..|drains|] == drains;
  }

  /** Two announcements fail in one drain: the wallet is asked to reject the second, and never the first. */
  method FirstNeverRejected(utf8: seq<byte> -> bool) returns (core: Core, thread: CoreThread)
    ensures thread.Valid() && thread.core == core
    ensures EffectsOf(thread.log) == [ConfirmationRequired(1), ConfirmationRequired(2)]
    ensures forall r :: r in thread.log ==> Failing(r)
    ensures core.asked == [Choice(7, 0), Choice(2, REJECT)]
  {
    core := new Core(utf8, [Reply([ConfirmationRequired(1), ConfirmationRequired(2)], false)]);
    thread := new CoreThread(core, true);
    var _, _, e := thread.Run(ConfirmCommand(7, 0), []);
    OneChoice(utf8, e.requests, e.feed);
    OneAnswer([Reply([ConfirmationRequired(1), ConfirmationRequired(2)], false)]);
    TwoDrains(e.drains);
    assert thread.log == e.drains[0];
  }

  lemma OneChoice(utf8: seq<byte> -> bool, requests: seq<Request>, feed: Feed)
    requires Accepts(ConfirmCommand(7, 0), []) && Asks(utf8, ConfirmCommand(7, 0), [], requests, feed)
    ensures requests == [Choice(7, 0)]
  {
  }

  lemma TwoDrains(drains: seq<seq<Routed>>)
    requires Settled(drains, [], true) && EffectsOf(drains[0]) == [ConfirmationRequired(1), ConfirmationRequired(2)]
    ensures Flat(drains) == drains[0] && Rejections(drains) == [Choice(2, REJECT)]
    ensures forall r :: r in drains[0] ==> Failing(r)
  {
    UnfoldsAt(drains, [], true, 0);
    TwoFailures(drains[0]);
    UnfoldsAt(drains, [], true, 1);
    EffectsAre(drains[1]);
    assert drains[1] == [] && |drains| == 2;
    PairOfDrains(drains);
  }

  lemma PairOfDrains(drains: seq<seq<Routed>>)
    requires |drains| == 2
    ensures Flat(drains) == drains[0] + drains[1] && Rejections(drains) == [Choice(LastReject(drains[0]), REJECT)]
  {
    Single(drains[0]);
    assert drains[..1] == [drains[0]];
  }

  lemma TwoFailures(two: seq<Routed>)
    requires EffectsOf(two) == [ConfirmationRequired(1), ConfirmationRequired(2)] && Unsent(two)
    ensures LastReject(two) == 2 && forall r :: r in two ==> Failing(r)
  {
    EffectsAre(two);
    assert !two[1].sent && Unsent(two[..1]) && !two[..1][0].sent;
    assert EffectsOf(two)[0] == two[0].effect && EffectsOf(two)[1] == two[1].effect;
    assert Failing(two[0]) && Failing(two[1]);
  }

  lemma {:induction false} EffectsAre(log: seq<Routed>)
    ensures |EffectsOf(log)| == |log| && forall i :: 0 <= i < |log| ==> EffectsOf(log)[i] == log[i].effect
  {
    if log != [] {
      EffectsAre(log[..|log| - 1]);
    }
  }
}
