/**
 UART reception, after src/uart.c: an interrupt handler that submits what it reads, and a delayed work
 item that retries what the core would not take.
 */
module UartReceive {
  import opened Bytes

  const CAPACITY := 32

  // ------------------------------------------------- every interleaving of handler and work

  /** The interrupt handler: not running, about to read, holding a chunk, and the steps after a refusal. */
  datatype Handler = Out | Reading | Got(chunk: seq<byte>) | Stashed | Disabled | Leaving

  /** The work item: not scheduled, scheduled, started, done submitting, and about to enable the interrupt. */
  datatype Work = Idle | Scheduled | Started | Submitted | Enabling

  /** `received` is all that ever arrived on the line, `queued` all that the core took. */
  datatype State = State(received: seq<byte>, fifo: seq<byte>, queued: seq<byte>, pending: seq<byte>,
                         irq: bool, handler: Handler, work: Work)

  datatype Move =
    | Arrive(b: byte)
    | Interrupt
    | Read(count: nat)
    | Offer(accepted: bool)
    | Disable
    | Schedule
    | Leave
    | Fire
    | Retry(taken: bool)
    | Clear
    | Enable

  predicate Enabled(s: State, move: Move) {
    match move
    case Arrive(_) => true
    case Interrupt => s.irq && s.handler == Out
    case Read(count) => s.handler == Reading && count <= |s.fifo| && count <= CAPACITY && (count == 0 ==> s.fifo == [])
    case Offer(_) => s.handler.Got?
    case Disable => s.handler == Stashed
    case Schedule => s.handler == Disabled
    case Leave => s.handler == Leaving
    case Fire => s.work == Scheduled
    case Retry(_) => s.work == Started
    case Clear => s.work == Submitted
    case Enable => s.work == Enabling
  }

  function Apply(s: State, move: Move): State
    requires Enabled(s, move)
  {
    match move
    case Arrive(b) => s.(received := s.received + [b], fifo := s.fifo + [b])
    case Interrupt => s.(handler := if s.fifo == [] then Out else Reading)
    case Read(count) =>
      if count == 0 then s.(handler := Out) else s.(handler := Got(s.fifo[..count]), fifo := s.fifo[count..])
    case Offer(accepted) =>
      if accepted then s.(queued := s.queued + s.handler.chunk, handler := Reading)
      else s.(pending := s.handler.chunk, handler := Stashed)
    case Disable => s.(irq := false, handler := Disabled)
    case Schedule => s.(work := Scheduled, handler := Leaving)
    case Leave => s.(handler := Out)
    case Fire => s.(work := Started)
    case Retry(taken) =>
      if s.pending == [] then s.(work := Enabling)
      else if taken then s.(queued := s.queued + s.pending, work := Submitted)
      else s.(work := Scheduled)
    case Clear => s.(pending := [], work := Enabling)
    case Enable => s.(irq := true, work := Idle)
  }

  /** The bytes on their way, oldest first: stashed and not yet taken, in the handler's hands, in the FIFO. */
  function InFlight(s: State): seq<byte> {
    (if s.work == Submitted then [] else s.pending) + (if s.handler.Got? then s.handler.chunk else []) + s.fifo
  }

  predicate Inv(s: State) {
    s.queued + InFlight(s) == s.received && Control(s)
  }

  predicate Control(s: State) {
    && |s.pending| <= CAPACITY && (s.handler.Got? ==> 0 < |s.handler.chunk| <= CAPACITY)
    // the work item owns the pending bytes from its scheduling until it enables the interrupt
    && (s.work != Idle ==> !s.irq && (s.handler == Out || s.handler == Leaving))
    && (s.handler == Reading || s.handler.Got? ==> s.irq && s.pending == [])
    && (s.handler == Stashed ==> s.irq)
    && (s.handler == Disabled ==> !s.irq)
    && (s.handler == Stashed || s.handler == Disabled ==> s.work == Idle)
    && (s.irq && s.handler != Stashed ==> s.pending == [])
    && (s.work == Enabling ==> s.pending == [])
    && (!s.irq ==> s.work != Idle || s.handler == Disabled)
  }

  lemma StepKeepsControl(s: State, move: Move)
    requires Control(s) && Enabled(s, move)
    ensures Control(Apply(s, move))
  {
  }

  /** What a step does to the bytes: one arrives, or none. */
  lemma StepMovesBytes(s: State, move: Move)
    requires Control(s) && Enabled(s, move)
    ensures var n := Apply(s, move);
            n.queued + InFlight(n) == s.queued + InFlight(s) + if move.Arrive? then [move.b] else []
  {
    match move
    case Read(count) => assert s.fifo == s.fifo[..count] + s.fifo[count..];
    case _ =>
  }

  /** No step of either loses, repeats or reorders a byte. */
  lemma StepKeeps(s: State, move: Move)
    requires Inv(s) && Enabled(s, move)
    ensures Inv(Apply(s, move))
  {
    StepKeepsControl(s, move);
    StepMovesBytes(s, move);
  }

  /** Outside the few instructions between stashing and disabling, stashed bytes keep the interrupt off. */
  lemma PendingMeansOff(s: State)
    requires Inv(s) && s.pending != [] && s.handler != Stashed
    ensures !s.irq && (s.work != Idle || s.handler == Disabled)
  {
  }

  /** Stashed bytes are never overwritten: when the handler stashes, nothing is stashed. */
  lemma NeverOverwritten(s: State)
    requires Inv(s) && Enabled(s, Offer(false))
    ensures s.pending == []
  {
  }

  ghost predicate Possible(s: State, moves: seq<Move>)
    decreases |moves|
  {
    moves == [] || (Enabled(s, moves[0]) && Possible(Apply(s, moves[0]), moves[1..]))
  }

  function Run(s: State, moves: seq<Move>): State
    requires Possible(s, moves)
    decreases |moves|
  {
    if moves == [] then s else Run(Apply(s, moves[0]), moves[1..])
  }

  /** app_uart_irq_register schedules the work item, which enables the interrupt. */
  const START := State([], [], [], [], false, Out, Scheduled)

  lemma {:induction false} RunKeeps(s: State, moves: seq<Move>)
    requires Inv(s) && Possible(s, moves)
    ensures Inv(Run(s, moves)) && s.received <= Run(s, moves).received && s.queued <= Run(s, moves).queued
    decreases |moves|
  {
    if moves != [] {
      StepKeeps(s, moves[0]);
      RunKeeps(Apply(s, moves[0]), moves[1..]);
    }
  }

  /** In every interleaving the core has the bytes that arrived, in order, up to those still in flight; and
      reception never dies. */
  lemma ExactlyOnce(moves: seq<Move>)
    requires Possible(START, moves)
    ensures var s := Run(START, moves);
            && s.received == s.queued + InFlight(s) && |s.pending| <= 32
            && (s.irq || s.work != Idle || s.handler == Disabled)
  {
    RunKeeps(START, moves);
  }

  /** A step while the line is quiet and the core takes what it is offered; an interrupt comes only for bytes. */
  predicate Willing(s: State, move: Move) {
    match move
    case Arrive(_) => false
    case Interrupt => s.fifo != []
    case Offer(accepted) => accepted
    case Retry(taken) => taken
    case _ => true
  }

  /** How many such steps are left at most. */
  function StepsLeft(s: State): nat {
    3 * |s.fifo|
    + (match s.handler
       case Out => if s.fifo == [] then 0 else 2
       case Reading => 1
       case Got(_) => 2
       case Stashed => 9
       case Disabled => 8
       case Leaving => 3)
    + match s.work
      case Idle => 0
      case Scheduled => 4
      case Started => 3
      case Submitted => 2
      case Enabling => 1
  }

  lemma StepApproaches(s: State, move: Move)
    requires Inv(s) && Enabled(s, move) && Willing(s, move)
    ensures StepsLeft(Apply(s, move)) < StepsLeft(s)
  {
  }

  ghost predicate AllWilling(s: State, moves: seq<Move>)
    requires Possible(s, moves)
    decreases |moves|
  {
    moves == [] || (Willing(s, moves[0]) && AllWilling(Apply(s, moves[0]), moves[1..]))
  }

  /** Nothing is stranded: from every reachable state every run of such steps is short, and where it cannot go on
      the core has every byte that arrived. */
  lemma {:induction false} Drains(s: State, moves: seq<Move>)
    requires Inv(s) && Possible(s, moves) && AllWilling(s, moves)
    ensures |moves| <= StepsLeft(s)
    ensures (forall move :: Enabled(Run(s, moves), move) ==> !Willing(Run(s, moves), move)) ==>
              Run(s, moves).queued == Run(s, moves).received
    ensures Run(s, moves).received == s.received
    decreases |moves|
  {
    if moves != [] {
      StepKeeps(s, moves[0]);
      StepApproaches(s, moves[0]);
      Drains(Apply(s, moves[0]), moves[1..]);
    } else {
      StuckIsDrained(s);
    }
  }

  lemma StuckIsDrained(s: State)
    requires Inv(s)
    ensures s.queued == s.received || exists move :: Enabled(s, move) && Willing(s, move)
  {
    var move :=
      match s.handler
      case Reading => Read(if |s.fifo| < CAPACITY then |s.fifo| else CAPACITY)
      case Got(_) => Offer(true)
      case Stashed => Disable
      case Disabled => Schedule
      case Leaving => Leave
      case Out =>
        match s.work
        case Idle => Interrupt
        case Scheduled => Fire
        case Started => Retry(true)
        case Submitted => Clear
        case Enabling => Enable;
    if s.queued != s.received {
      assert Enabled(s, move) && Willing(s, move);
    }
  }

  lemma {:induction false} Chained(s: State, first: seq<Move>, next: seq<Move>)
    requires Possible(s, first) && Possible(Run(s, first), next)
    ensures Possible(s, first + next) && Run(s, first + next) == Run(Run(s, first), next)
    decreases |first|
  {
    if first == [] {
      assert first + next == next;
    } else {
      Chained(Apply(s, first[0]), first[1..], next);
      assert (first + next)[1..] == first[1..] + next;
    }
  }

  /** One more move at the end of a run. */
  lemma OneMore(s: State, moves: seq<Move>, move: Move)
    requires Possible(s, moves) && Enabled(Run(s, moves), move)
    ensures Possible(s, moves + [move]) && Run(s, moves + [move]) == Apply(Run(s, moves), move)
  {
    assert [move][1..] == [];
    Chained(s, moves, [move]);
  }

  function Arriving(bytes: seq<byte>): seq<Move> {
    if bytes == [] then [] else Arriving(bytes[..|bytes| - 1]) + [Arrive(bytes[|bytes| - 1])]
  }

  lemma {:induction false} AllArrive(s: State, bytes: seq<byte>)
    ensures Possible(s, Arriving(bytes))
    ensures Run(s, Arriving(bytes)) == s.(received := s.received + bytes, fifo := s.fifo + bytes)
  {
    if bytes == [] {
      assert s.fifo + bytes == s.fifo && s.received + bytes == s.received;
    } else {
      var front, last := bytes[..|bytes| - 1], bytes[|bytes| - 1];
      AllArrive(s, front);
      OneMore(s, Arriving(front), Arrive(last));
      Longer(s.fifo, front, last, bytes);
      Longer(s.received, front, last, bytes);
    }
  }

  lemma ArriveAfter(s: State, moves: seq<Move>, bytes: seq<byte>)
    requires Possible(s, moves)
    ensures Possible(s, moves + Arriving(bytes))
    ensures var n := Run(s, moves); Run(s, moves + Arriving(bytes)) == n.(received := n.received + bytes, fifo := n.fifo + bytes)
  {
    AllArrive(Run(s, moves), bytes);
    Chained(s, moves, Arriving(bytes));
  }

  lemma Longer(a: seq<byte>, front: seq<byte>, last: byte, bytes: seq<byte>)
    requires bytes == front + [last]
    ensures a + bytes == a + front + [last]
  {
  }

  /** After stashing: the interrupt is disabled, the retry scheduled, and the handler left. */
  lemma StashRun(s: State, moves: seq<Move>)
    requires Possible(s, moves) && Run(s, moves).handler == Stashed
    ensures var longer := moves + [Disable] + [Schedule] + [Leave];
            Possible(s, longer) && Run(s, longer) == Run(s, moves).(irq := false, work := Scheduled, handler := Out)
  {
    OneMore(s, moves, Disable);
    OneMore(s, moves + [Disable], Schedule);
    OneMore(s, moves + [Disable] + [Schedule], Leave);
  }

  /** A retry that is refused leaves everything as it was. */
  lemma Refused(s: State) returns (moves: seq<Move>)
    requires s.work == Scheduled && s.pending != []
    ensures Possible(s, moves) && Run(s, moves) == s
  {
    OneMore(s, [], Fire);
    assert [] + [Fire] == [Fire];
    OneMore(s, [Fire], Retry(false));
    moves := [Fire] + [Retry(false)];
  }

  /** A retry that ends with the interrupt enabled. */
  lemma ResumeRun(s: State)
    requires s.work == Scheduled
    ensures s.pending == [] ==>
              var moves := [Fire] + [Retry(true)] + [Enable];
              Possible(s, moves) && Run(s, moves) == s.(irq := true, work := Idle)
    ensures s.pending != [] ==>
              var moves := [Fire] + [Retry(true)] + [Clear] + [Enable];
              Possible(s, moves) && Run(s, moves) == s.(queued := s.queued + s.pending, pending := [], irq := true, work := Idle)
  {
    OneMore(s, [], Fire);
    assert [] + [Fire] == [Fire];
    OneMore(s, [Fire], Retry(true));
    if s.pending == [] {
      OneMore(s, [Fire] + [Retry(true)], Enable);
    } else {
      OneMore(s, [Fire] + [Retry(true)], Clear);
      OneMore(s, [Fire] + [Retry(true)] + [Clear], Enable);
    }
  }

  // ---------------------------------------------------------------- the two functions in full

  /** The driver with its buffer. Its two functions in place: each makes a run of the machine above, one in which
      handler and work item do not interrupt one another. */
  class Uart {
    const pending: array<byte>
    var pendingLen: nat
    var irq: bool
    var scheduled: bool
    /** What has arrived and not been read, and what is still to arrive. */
    var fifo: seq<byte>
    var line: seq<byte>
    ghost var received: seq<byte>
    ghost var queued: seq<byte>

    /** The machine's state between two calls. */
    ghost function Now(): State
      requires pendingLen <= pending.Length
      reads this, pending
    {
      State(received, fifo, queued, pending[..pendingLen], irq, Out, if scheduled then Scheduled else Idle)
    }

    ghost predicate Valid()
      reads this, pending
    {
      && pending.Length == CAPACITY && pendingLen <= CAPACITY && Inv(Now())
      && (forall i :: pendingLen <= i < CAPACITY ==> pending[i] == 0)
    }

    constructor (line: seq<byte>)
      ensures Valid() && fresh(pending) && this.line == line && Now() == START
    {
      pending := new byte[CAPACITY](_ => 0);
      pendingLen, irq, scheduled, fifo, this.line, received, queued := 0, false, true, [], line, [], [];
    }

    /** More bytes arrive. */
    method Arrivals() returns (ghost bytes: seq<byte>)
      modifies `fifo, `line, `received
      ensures fifo == old(fifo) + bytes && received == old(received) + bytes && bytes + line == old(line)
    {
      var n: int := *;
      if n < 0 || n > |line| { n := 0; }
      bytes := line[..n];
      fifo, received, line := fifo + line[..n], received + line[..n], line[n..];
    }

    /** app_uart_rx_handler, entered only while its interrupt is enabled. */
    method RxHandler() returns (ghost moves: seq<Move>)
      requires Valid() && irq
      modifies this, pending
      ensures Valid() && received + line == old(received + line)
      ensures Possible(old(Now()), moves) && Now() == Run(old(Now()), moves)
      ensures if irq then fifo == [] && pendingLen == 0 else pendingLen > 0
    {
      ghost var start := Now();
      moves := [];
      OneMore(start, moves, Interrupt);
      moves := moves + [Interrupt];
      if fifo == [] { return; }
      while fifo != []
        invariant pending.Length == CAPACITY && pendingLen == 0 && (forall i :: 0 <= i < CAPACITY ==> pending[i] == 0)
        invariant irq && !scheduled && received + line == old(received + line)
        invariant Possible(start, moves) && Run(start, moves) == Now().(handler := Reading)
        decreases |fifo| + |line|
      {
        var len: int := *;
        if len < 1 || len > |fifo| || len > CAPACITY { len := 1; }
        var accepted: bool := *;
        moves := TakeChunk(len, accepted, start, moves);
        if !accepted { return; }
      }
      OneMore(start, moves, Read(0));
      moves := moves + [Read(0)];
      RunKeeps(start, moves);
    }

    /** One turn of the handler's loop: a chunk read, and taken by the core or stashed. */
    method TakeChunk(len: nat, accepted: bool, ghost start: State, ghost before: seq<Move>)
      returns (ghost moves: seq<Move>)
      requires pending.Length == CAPACITY && pendingLen == 0 && forall i :: 0 <= i < CAPACITY ==> pending[i] == 0
      requires irq && !scheduled && 1 <= len <= |fifo| && len <= CAPACITY
      requires Inv(start) && Possible(start, before) && Run(start, before) == Now().(handler := Reading)
      modifies this, pending
      ensures pendingLen <= CAPACITY && forall i :: pendingLen <= i < CAPACITY ==> pending[i] == 0
      ensures received + line == old(received + line) && |fifo| + |line| < old(|fifo| + |line|)
      ensures Possible(start, moves)
      ensures accepted ==> irq && !scheduled && pendingLen == 0 && Run(start, moves) == Now().(handler := Reading)
      ensures !accepted ==> !irq && pendingLen > 0 && Valid() && Run(start, moves) == Now()
    {
      var chunk := fifo[..len];
      OneMore(start, before, Read(len));
      moves := before + [Read(len)];
      fifo := fifo[len..];
      OneMore(start, moves, Offer(accepted));
      moves := moves + [Offer(accepted)];
      if accepted {
        queued := queued + chunk;
        ghost var bytes := Arrivals();
        ArriveAfter(start, moves, bytes);
        moves := moves + Arriving(bytes);
      } else {
        Stash(chunk);
        irq, scheduled := false, true;
        StashRun(start, moves);
        moves := moves + [Disable] + [Schedule] + [Leave];
        RunKeeps(start, moves);
      }
    }

    /** The refused bytes into `pending`. */
    method Stash(chunk: seq<byte>)
      requires pending.Length == CAPACITY && pendingLen == 0 && |chunk| <= CAPACITY
      requires forall i :: 0 <= i < CAPACITY ==> pending[i] == 0
      modifies `pendingLen, pending
      ensures pendingLen == |chunk| && pending[..pendingLen] == chunk
      ensures forall i :: pendingLen <= i < CAPACITY ==> pending[i] == 0
    {
      for i := 0 to |chunk|
        invariant forall k :: 0 <= k < i ==> pending[k] == chunk[k]
        invariant forall k :: i <= k < CAPACITY ==> pending[k] == 0
        modifies pending
      {
        pending[i] := chunk[i];
      }
      pendingLen := |chunk|;
    }

    /** app_uart_rx_resume, run when scheduled. */
    method RxResume() returns (ghost moves: seq<Move>)
      requires Valid() && scheduled
      modifies this, pending
      ensures Valid() && fifo == old(fifo) && line == old(line)
      ensures Possible(old(Now()), moves) && Now() == Run(old(Now()), moves)
      ensures if irq then pendingLen == 0 && queued == old(queued) + old(pending[..pendingLen])
              else scheduled && pendingLen == old(pendingLen) > 0
    {
      ghost var start := Now();
      ResumeRun(start);
      scheduled := false;
      if pendingLen > 0 {
        var accepted: bool := *;
        if !accepted {
          scheduled := true;
          moves := Refused(start);
          return;
        }
        moves := [Fire] + [Retry(true)] + [Clear] + [Enable];
        queued := queued + pending[..pendingLen];
        WipePending();
      } else {
        assert pending[..pendingLen] == [];
        moves := [Fire] + [Retry(true)] + [Enable];
      }
      irq := true;
      RunKeeps(start, moves);
    }

    /** The stash is wiped. */
    method WipePending()
      requires pending.Length == CAPACITY && pendingLen <= CAPACITY
      requires forall i :: pendingLen <= i < CAPACITY ==> pending[i] == 0
      modifies `pendingLen, pending
      ensures pendingLen == 0 && forall i :: 0 <= i < CAPACITY ==> pending[i] == 0
    {
      for i := 0 to pendingLen
        invariant forall k :: 0 <= k < i ==> pending[k] == 0
        invariant forall k :: pendingLen <= k < CAPACITY ==> pending[k] == 0
        modifies pending
      {
        pending[i] := 0;
      }
      pendingLen := 0;
    }
  }
}
