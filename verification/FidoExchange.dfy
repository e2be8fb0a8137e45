/**
 Requests of the FIDO thread and the core's replies, after src/usb/fido2.c: threads that draw request
 numbers, claim the one active slot, wait, receive or give up, while replies may arrive late.
 */
module FidoExchange {
  import opened Bytes

  const DEPTH := 4

  datatype Status = Success | Cancelled | Otherwise

  /** The request id on the wire for the n-th number drawn. */
  function Id(n: nat): word { n % 0x1_0000_0000 }

  /** A reply with the number of the request it answers, which only its id shows. */
  datatype Reply = Reply(serial: nat, id: word, status: Status, credentialLen: nat, payload: seq<byte>)

  datatype Phase = Out | Holding(serial: nat) | Active(serial: nat) | Waiting(serial: nat) | Answered(serial: nat, reply: Reply)

  /** A reply taken from the queue, and the number of the request that took it. */
  datatype Fetched = Fetched(reply: Reply, taker: nat)

  /** `answers` and `fetched` are the histories of the result queue. */
  datatype State = State(sequence: nat, active: word, phases: seq<Phase>, submitted: set<nat>,
                         results: seq<Reply>, answers: seq<Reply>, fetched: seq<Fetched>)

  datatype Move =
    | Draw(thread: nat)
    | Claim(thread: nat)
    | Submit(thread: nat, accepted: bool)
    | Answer(reply: Reply)
    | Fetch(thread: nat)
    | Finish(thread: nat)

  predicate Enabled(s: State, move: Move) {
    match move
    case Draw(t) => t < |s.phases| && s.phases[t].Out?
    case Claim(t) => t < |s.phases| && s.phases[t].Holding?
    case Submit(t, _) => t < |s.phases| && s.phases[t].Active?
    case Answer(r) => r.serial in s.submitted && r.id == Id(r.serial) && |s.results| < DEPTH
    case Fetch(t) => t < |s.phases| && s.phases[t].Waiting? && s.results != []
    case Finish(t) => t < |s.phases| && (s.phases[t].Waiting? || s.phases[t].Answered?)
  }

  function Apply(s: State, move: Move): State
    requires Enabled(s, move)
  {
    match move
    case Draw(t) =>
      var n := s.sequence + 1;
      s.(sequence := n, phases := if Id(n) == 0 then s.phases else s.phases[t := Holding(n)])
    case Claim(t) =>
      var n := s.phases[t].serial;
      if s.active == 0 then s.(active := Id(n), phases := s.phases[t := Active(n)])
      else s.(phases := s.phases[t := Out])
    case Submit(t, accepted) =>
      var n := s.phases[t].serial;
      if accepted then s.(submitted := s.submitted + {n}, phases := s.phases[t := Waiting(n)])
      else s.(active := 0, phases := s.phases[t := Out])
    case Answer(r) => s.(results := s.results + [r], answers := s.answers + [r])
    case Fetch(t) =>
      var n, r := s.phases[t].serial, s.results[0];
      s.(results := s.results[1..], fetched := s.fetched + [Fetched(r, n)],
         phases := if r.id == Id(n) then s.phases[t := Answered(n, r)] else s.phases)
    case Finish(t) => s.(active := 0, phases := s.phases[t := Out])
  }

  predicate Engaged(p: Phase) { p.Active? || p.Waiting? || p.Answered? }

  function Replies(log: seq<Fetched>): seq<Reply> {
    if log == [] then [] else Replies(log[..|log| - 1]) + [log[|log| - 1].reply]
  }

  predicate Numbered(s: State, n: nat) { 1 <= n <= s.sequence && Id(n) != 0 }

  predicate PhaseFits(s: State, p: Phase) {
    && (p.Out? || Numbered(s, p.serial))
    && (p.Waiting? || p.Answered? ==> p.serial in s.submitted)
    && (p.Answered? ==> p.reply.id == Id(p.serial) && Fetched(p.reply, p.serial) in s.fetched)
  }

  predicate ReplyFits(s: State, r: Reply) {
    r.serial in s.submitted && r.id == Id(r.serial)
  }

  ghost predicate Inv(s: State) {
    && (forall t :: 0 <= t < |s.phases| ==> PhaseFits(s, s.phases[t]))
    && (forall t :: 0 <= t < |s.phases| && Engaged(s.phases[t]) ==> s.active == Id(s.phases[t].serial))
    && (forall t, u :: 0 <= t < |s.phases| && 0 <= u < |s.phases| && Engaged(s.phases[t]) && Engaged(s.phases[u]) ==> t == u)
    && (s.active != 0 ==> exists t :: 0 <= t < |s.phases| && Engaged(s.phases[t]))
    && (forall n :: n in s.submitted ==> Numbered(s, n))
    && (forall i :: 0 <= i < |s.results| ==> ReplyFits(s, s.results[i]))
    && (forall i :: 0 <= i < |s.fetched| ==> ReplyFits(s, s.fetched[i].reply) && s.fetched[i].taker in s.submitted)
    && s.answers == Replies(s.fetched) + s.results && |s.results| <= DEPTH
    && NumbersDiffer(s)
  }

  predicate SameNumber(p: Phase, q: Phase) {
    !p.Out? && !q.Out? && p.serial == q.serial
  }

  /** No number is in two threads' hands. */
  predicate NumbersDiffer(s: State) {
    forall t, u :: 0 <= t < |s.phases| && 0 <= u < |s.phases| && SameNumber(s.phases[t], s.phases[u]) ==> t == u
  }

  lemma DrawKeeps(s: State, t: nat)
    requires Inv(s) && Enabled(s, Draw(t))
    ensures Inv(Apply(s, Draw(t)))
  {
    var n := Apply(s, Draw(t));
    forall u | 0 <= u < |n.phases| ensures PhaseFits(n, n.phases[u]) {
      assert PhaseFits(s, s.phases[u]);
    }
    assert s.active != 0 ==> exists u :: 0 <= u < |n.phases| && Engaged(n.phases[u]) by {
      if s.active != 0 {
        var u :| 0 <= u < |s.phases| && Engaged(s.phases[u]);
        assert Engaged(n.phases[u]);
      }
    }
  }

  lemma ClaimKeeps(s: State, t: nat)
    requires Inv(s) && Enabled(s, Claim(t))
    ensures Inv(Apply(s, Claim(t)))
  {
    var n := Apply(s, Claim(t));
    forall u | 0 <= u < |n.phases| ensures PhaseFits(n, n.phases[u]) {
      assert PhaseFits(s, s.phases[u]);
    }
    assert PhaseFits(s, s.phases[t]);
    if s.active == 0 {
      forall u | 0 <= u < |s.phases| ensures !Engaged(s.phases[u]) { assert PhaseFits(s, s.phases[u]); }
      assert Engaged(n.phases[t]);
    } else {
      var u :| 0 <= u < |s.phases| && Engaged(s.phases[u]);
      assert Engaged(n.phases[u]);
    }
  }

  lemma SubmitKeeps(s: State, t: nat, accepted: bool)
    requires Inv(s) && Enabled(s, Submit(t, accepted))
    ensures Inv(Apply(s, Submit(t, accepted)))
  {
    var n := Apply(s, Submit(t, accepted));
    assert PhaseFits(s, s.phases[t]) && Engaged(s.phases[t]);
    forall u | 0 <= u < |n.phases| ensures PhaseFits(n, n.phases[u]) {
      assert PhaseFits(s, s.phases[u]);
    }
    forall i | 0 <= i < |n.results| ensures ReplyFits(n, n.results[i]) { assert ReplyFits(s, s.results[i]); }
    forall i | 0 <= i < |n.fetched| ensures ReplyFits(n, n.fetched[i].reply) { assert ReplyFits(s, s.fetched[i].reply); }
    assert accepted ==> Engaged(n.phases[t]);
  }

  lemma AnswerKeeps(s: State, r: Reply)
    requires Inv(s) && Enabled(s, Answer(r))
    ensures Inv(Apply(s, Answer(r)))
  {
  }

  lemma FetchKeeps(s: State, t: nat)
    requires Inv(s) && Enabled(s, Fetch(t))
    ensures Inv(Apply(s, Fetch(t)))
  {
    var n := Apply(s, Fetch(t));
    var f := Fetched(s.results[0], s.phases[t].serial);
    assert n.fetched[|s.fetched|] == f;
    assert PhaseFits(s, s.phases[t]) && Engaged(s.phases[t]) && Engaged(n.phases[t]);
    assert ReplyFits(s, s.results[0]);
    forall u | 0 <= u < |n.phases| ensures PhaseFits(n, n.phases[u]) {
      assert PhaseFits(s, s.phases[u]);
    }
    forall i | 0 <= i < |n.results| ensures ReplyFits(n, n.results[i]) { assert ReplyFits(s, s.results[i + 1]); }
    forall i | 0 <= i < |n.fetched| ensures ReplyFits(n, n.fetched[i].reply) && n.fetched[i].taker in n.submitted {
      if i < |s.fetched| { assert ReplyFits(s, s.fetched[i].reply); }
    }
    assert n.fetched[..|s.fetched|] == s.fetched;
    assert s.results == [s.results[0]] + n.results;
  }

  lemma FinishKeeps(s: State, t: nat)
    requires Inv(s) && Enabled(s, Finish(t))
    ensures Inv(Apply(s, Finish(t)))
  {
  }

  /** Every step of the threads, and every reply at whatever time, keeps the invariant. */
  lemma StepKeeps(s: State, move: Move)
    requires Inv(s) && Enabled(s, move)
    ensures Inv(Apply(s, move))
  {
    match move
    case Draw(t) => DrawKeeps(s, t);
    case Claim(t) => ClaimKeeps(s, t);
    case Submit(t, accepted) => SubmitKeeps(s, t, accepted);
    case Answer(r) => AnswerKeeps(s, r);
    case Fetch(t) => FetchKeeps(s, t);
    case Finish(t) => FinishKeeps(s, t);
  }

  // ------------------------------------------------------------------------- what follows

  /** Two numbers share an id exactly when they are a multiple of 2^32 apart. */
  lemma SameIdMeans(a: nat, b: nat)
    ensures Id(a) == Id(b) <==> exists k: int :: a - b == k * 0x1_0000_0000
  {
    var m := 0x1_0000_0000;
    if Id(a) == Id(b) {
      assert a - b == (a / m - b / m) * m;
    }
    if k: int :| a - b == k * m {
      assert a == b + k * m;
      assert a % m == (b + k * m) % m == b % m by { ModShift(b, k); }
    }
  }

  lemma ModShift(b: int, k: int)
    ensures (b + k * 0x1_0000_0000) % 0x1_0000_0000 == b % 0x1_0000_0000
  {
  }

  /** The reply a thread returns carries its request's id; and within a window of 2^32 numbers it is
      the reply to that very request, never a late one to another. */
  lemma ReplyIsOurs(s: State, t: nat)
    requires Inv(s) && t < |s.phases| && s.phases[t].Answered?
    ensures Answers(s.phases[t].reply, s.phases[t].serial) && s.phases[t].reply.serial in s.submitted
    ensures Fetched(s.phases[t].reply, s.phases[t].serial) in s.fetched
  {
  }

  /** At most one request is active, its id is never zero, and it is the one in the slot. */
  lemma OneActive(s: State, t: nat, u: nat)
    requires Inv(s) && t < |s.phases| && u < |s.phases| && Engaged(s.phases[t])
    ensures s.active == Id(s.phases[t].serial) != 0
    ensures Engaged(s.phases[u]) ==> u == t
  {
  }

  ghost predicate Possible(s: State, moves: seq<Move>)
    decreases |moves|
  {
    moves == [] || (Enabled(s, moves[0]) && Possible(Apply(s, moves[0]), moves[1..]))
  }

  function Run(s: State, moves: seq<Move>): State
    requires Possible(s, moves)
    decreases |moves|
  {
    if moves == [] then s else Run(Apply(s, moves[0]), moves[1..])
  }

  function Start(threads: nat): State {
    State(0, 0, seq(threads, i => Out), {}, [], [], [])
  }

  lemma {:induction false} RunKeeps(s: State, moves: seq<Move>)
    requires Inv(s) && Possible(s, moves)
    ensures Inv(Run(s, moves))
    decreases |moves|
  {
    if moves != [] {
      StepKeeps(s, moves[0]);
      RunKeeps(Apply(s, moves[0]), moves[1..]);
    }
  }

  /** Every reply the core queued was fetched once, in order, or is one of at most four in the queue. */
  lemma RepliesConserved(threads: nat, moves: seq<Move>)
    requires Possible(Start(threads), moves)
    ensures var s := Run(Start(threads), moves);
            Inv(s) && s.answers == Replies(s.fetched) + s.results && |s.results| <= 4
  {
    RunKeeps(Start(threads), moves);
  }

  function Draws(moves: seq<Move>): nat {
    if moves == [] then 0 else (if moves[0].Draw? then 1 else 0) + Draws(moves[1..])
  }

  /** No number is left out: as many are in use as were drawn. */
  lemma {:induction false} NumbersAreDraws(s: State, moves: seq<Move>)
    requires Possible(s, moves)
    ensures Run(s, moves).sequence == s.sequence + Draws(moves)
    decreases |moves|
  {
    if moves != [] {
      NumbersAreDraws(Apply(s, moves[0]), moves[1..]);
    }
  }

  /** A reply fetched by a waiting thread ends its wait exactly when it carries the thread's id, and is dropped
      otherwise. */
  lemma FetchAnswers(s: State, t: nat)
    requires Enabled(s, Fetch(t))
    ensures var n, p := Apply(s, Fetch(t)), s.phases[t];
            && n.results == s.results[1..] && n.fetched == s.fetched + [Fetched(s.results[0], p.serial)]
            && n.phases == (if s.results[0].id == Id(p.serial) then s.phases[t := Answered(p.serial, s.results[0])]
                            else s.phases)
  {
  }

  // --------------------------------------------------------------------- what a reply says

  const OK := 0
  const EIO := -5
  const EACCES := -13
  const EBUSY := -16
  const ETIMEDOUT := -116
  const ECANCELED := -140

  /** What app_core_submit_fido answers when it takes no request: not supported yet, too long, no buffers, no room. */
  const REFUSALS := {-134, -122, -12, -11}

  /** The caller's response buffers: how much they hold. */
  datatype Limits = Limits(credential: nat, data: nat)

  datatype Response = Response(credential: seq<byte>, data: seq<byte>)

  const NO_RESPONSE := Response([], [])

  /** The lengths of a reply are usable; `limits` is absent when the caller wants no response. */
  predicate Usable(r: Reply, limits: Option<Limits>) {
    && r.credentialLen <= |r.payload|
    && (r.status.Success? && limits.Some? ==>
          r.credentialLen <= limits.value.credential && |r.payload| - r.credentialLen <= limits.value.data)
  }

  function Verdict(r: Reply, limits: Option<Limits>): int {
    if !Usable(r, limits) then EIO
    else match r.status
      case Success => OK
      case Cancelled => ECANCELED
      case Otherwise => EACCES
  }

  function Contents(r: Reply, limits: Option<Limits>): Response {
    if r.status.Success? && limits.Some? && Usable(r, limits)
    then Response(r.payload[..r.credentialLen], r.payload[r.credentialLen..])
    else NO_RESPONSE
  }

  /** What a caller is told of the reply taken: success exactly when it is one and both parts are usable, with the
      two parts; a refusal or a cancellation as such; and a length that does not fit as an error. */
  predicate Told(r: Reply, limits: Option<Limits>, rc: int, response: Response) {
    var split := r.credentialLen <= |r.payload|;
    var fits := limits.None? || (split && r.credentialLen <= limits.value.credential
                                 && |r.payload| - r.credentialLen <= limits.value.data);
    && (rc == 0 <==> r.status == Success && split && fits)
    && (rc == -140 <==> r.status == Cancelled && split)
    && (rc == -13 <==> r.status == Otherwise && split)
    && (rc == -5 <==> !split || (r.status == Success && !fits))
    && if rc == 0 && limits.Some?
       then response.credential + response.data == r.payload && |response.credential| == r.credentialLen
       else response == Response([], [])
  }

  /** app_fido_result_submit: a result as the core sends it. */
  function Sent(serial: nat, status: Status, credential: seq<byte>, data: seq<byte>): Reply {
    Reply(serial, Id(serial), status, |credential|, credential + data)
  }

  /** A success arrives whole exactly when both parts fit the caller's buffers. */
  lemma ResultRoundTrip(serial: nat, credential: seq<byte>, data: seq<byte>, limits: Limits)
    ensures var r := Sent(serial, Success, credential, data);
            if |credential| <= limits.credential && |data| <= limits.data
            then Verdict(r, Some(limits)) == 0 && Contents(r, Some(limits)) == Response(credential, data)
            else Verdict(r, Some(limits)) == -5 && Contents(r, Some(limits)) == Response([], [])
  {
  }

  // ------------------------------------------------------------------------ the code of a thread

  /** Numbers are drawn and replies fetched; neither is undone. */
  predicate Grown(a: State, b: State) {
    a.sequence <= b.sequence && a.fetched <= b.fetched
  }

  predicate FetchedSince(a: State, b: State, f: Fetched) {
    exists i :: |a.fetched| <= i < |b.fetched| && b.fetched[i] == f
  }

  /** No reply fetched since carries the number's id, though as many were fetched as there were looks and replies. */
  predicate Unanswered(a: State, b: State, n: nat, looks: nat) {
    && a.fetched <= b.fetched
    && (forall i :: |a.fetched| <= i < |b.fetched| ==> b.fetched[i].taker == n && b.fetched[i].reply.id != Id(n))
    && |b.fetched| >= |a.fetched| + (if looks < |a.results| then looks else |a.results|)
  }

  /** The reply carries the number's id, and is to this number or to one at least 2^32 away. */
  predicate Answers(r: Reply, n: nat) {
    r.id == Id(n) && (r.serial == n || r.serial - n >= 0x1_0000_0000 || n - r.serial >= 0x1_0000_0000)
  }

  /** What was taken under a number not yet drawn at an earlier moment was fetched since. */
  lemma LaterNumbers(a: State, b: State, f: Fetched)
    requires Inv(a) && Grown(a, b) && f in b.fetched && f.taker > a.sequence
    ensures FetchedSince(a, b, f)
  {
    assert forall i :: 0 <= i < |a.fetched| ==> a.fetched[i].taker in a.submitted && Numbered(a, a.fetched[i].taker);
    var i :| 0 <= i < |b.fetched| && b.fetched[i] == f;
  }

  lemma StaysFetched(a: State, b: State, c: State, f: Fetched)
    requires FetchedSince(a, b, f) && Grown(b, c)
    ensures FetchedSince(a, c, f)
  {
    var i :| |a.fetched| <= i < |b.fetched| && b.fetched[i] == f;
    assert c.fetched[i] == f;
  }

  class Client {
    const me: nat
    var s: State

    ghost predicate Valid()
      reads this
    {
      Inv(s) && me < |s.phases|
    }

    constructor (s: State, me: nat)
      requires Inv(s) && me < |s.phases|
      ensures this.s == s && this.me == me && Valid()
    {
      this.s, this.me := s, me;
    }

    predicate Mine(move: Move) {
      match move
      case Answer(_) => false
      case _ => move.thread == me
    }

    lemma OtherStep(move: Move)
      requires me < |s.phases| && Enabled(s, move) && !Mine(move)
      ensures var n := Apply(s, move); |n.phases| == |s.phases| && n.phases[me] == s.phases[me] && Grown(s, n)
      ensures Inv(s) && Engaged(s.phases[me]) ==>
                Apply(s, move).fetched == s.fetched && s.results <= Apply(s, move).results
    {
    }

    /** The other threads and the core take any number of steps; while the slot is ours nobody else fetches. */
    method Others()
      requires Valid()
      modifies this
      ensures Valid() && s.phases[me] == old(s.phases[me]) && |s.phases| == |old(s.phases)| && Grown(old(s), s)
      ensures Engaged(s.phases[me]) ==> s.fetched == old(s.fetched) && old(s.results) <= s.results
    {
      var turns: int := *;
      while turns > 0
        invariant Valid() && s.phases[me] == old(s.phases[me]) && |s.phases| == |old(s.phases)| && Grown(old(s), s)
        invariant Engaged(s.phases[me]) ==> s.fetched == old(s.fetched) && old(s.results) <= s.results
      {
        turns := turns - 1;
        var move: Move := *;
        if Enabled(s, move) && !Mine(move) {
          StepKeeps(s, move);
          OtherStep(move);
          s := Apply(s, move);
        }
      }
    }

    method Step(move: Move)
      requires Valid() && Enabled(s, move)
      modifies this
      ensures Valid() && s == Apply(old(s), move) && Grown(old(s), s)
    {
      StepKeeps(s, move);
      s := Apply(s, move);
    }

    /** From the moment the request was accepted until it gave up, no reply to it came. */
    ghost predicate TimedOut(asked: State, now: State, serial: nat, looks: nat) {
      me < |asked.phases| && asked.phases[me] == Waiting(serial) && Unanswered(asked, now, serial, looks)
    }

    /** request_id_next: one number, or another one as long as its id is zero; the other threads come between
        any finite number of tries. */
    method RequestIdNext()
      requires Valid() && s.phases[me].Out?
      modifies this
      ensures Valid() && s.phases[me].Holding? && |s.phases| == |old(s.phases)| && Grown(old(s), s)
      ensures s.phases[me].serial > old(s.sequence)
    {
      var patience: nat := *;
      Step(Draw(me));
      while s.phases[me].Out?
        invariant Valid() && |s.phases| == |old(s.phases)| && Grown(old(s), s)
        invariant (s.phases[me].Holding? && s.phases[me].serial > old(s.sequence)) || (s.phases[me].Out? && Id(s.sequence) == 0)
        decreases patience, s.phases[me].Out?
      {
        if patience > 0 {
          patience := patience - 1;
          Others();
        }
        Step(Draw(me));
      }
    }

    /** The wait for a reply: replies to other requests are dropped, until ours comes or time is up, after a number
        of looks at the queue. Without an answer nothing fetched was ours, and each look took the next reply there. */
    method Await(looks: nat)
      requires Valid() && s.phases[me].Waiting?
      modifies this
      ensures Valid() && |s.phases| == |old(s.phases)| && Grown(old(s), s)
      ensures s.phases[me] == old(s.phases[me]) || (s.phases[me].Answered? && s.phases[me].serial == old(s.phases[me].serial))
      ensures s.phases[me].Waiting? ==> Unanswered(old(s), s, old(s.phases[me].serial), looks)
    {
      ghost var serial := s.phases[me].serial;
      var look := 0;
      while look < looks && s.phases[me].Waiting?
        invariant Valid() && |s.phases| == |old(s.phases)| && Grown(old(s), s) && look <= looks
        invariant s.phases[me] == Waiting(serial) || (s.phases[me].Answered? && s.phases[me].serial == serial)
        invariant s.phases[me].Waiting? ==> Unanswered(old(s), s, serial, look)
        invariant s.phases[me].Waiting? ==> |s.fetched| + |s.results| >= |old(s.fetched)| + |old(s.results)|
      {
        look := look + 1;
        Others();
        if s.results != [] { Step(Fetch(me)); }
      }
    }

    /** request: whatever is returned comes from one reply fetched in this very call under the number drawn in
        it; that reply carries the number's id and, within 2^32 numbers, answers this request and no other. The
        slot is free again. A busy slot leaves the caller's response as it was; every other failure empties it. */
    method Request(limits: Option<Limits>, given: Response, looks: nat)
      returns (rc: int, response: Response, ghost serial: nat, ghost taken: Option<Fetched>, ghost asked: State)
      requires Valid() && s.phases[me].Out?
      modifies this
      ensures Valid() && s.phases[me].Out? && Grown(old(s), s)
      ensures serial > old(s.sequence) && Id(serial) != 0
      ensures taken.Some? ==>
                && FetchedSince(old(s), s, taken.value)
                && taken.value.taker == serial && Answers(taken.value.reply, serial)
                && Told(taken.value.reply, limits, rc, response)
      ensures rc == -116 ==> TimedOut(asked, s, serial, looks) && Grown(old(s), asked)
      ensures taken.None? ==> rc in {-134, -122, -12, -11, -16, -116} && response == if rc == -16 then given else Response([], [])
    {
      response, taken, asked := given, None, s;
      RequestIdNext();
      serial := s.phases[me].serial;
      assert PhaseFits(s, s.phases[me]);
      Others();
      Step(Claim(me));
      if s.phases[me].Out? { return EBUSY, response, serial, taken, asked; }
      rc, response, taken, asked := Exchange(limits, looks, serial, old(s));
    }

    /** What follows once the slot is ours. */
    method Exchange(limits: Option<Limits>, looks: nat, ghost serial: nat, ghost start: State)
      returns (rc: int, response: Response, ghost taken: Option<Fetched>, ghost asked: State)
      requires Valid() && s.phases[me] == Active(serial) && Inv(start) && Grown(start, s) && serial > start.sequence
      modifies this
      ensures Valid() && s.phases[me].Out? && Grown(start, s)
      ensures taken.Some? ==>
                && FetchedSince(start, s, taken.value) && taken.value.taker == serial
                && Answers(taken.value.reply, serial)
                && Told(taken.value.reply, limits, rc, response)
      ensures rc == -116 ==> TimedOut(asked, s, serial, looks) && Grown(start, asked)
      ensures taken.None? ==> rc in {-134, -122, -12, -11, -116} && response == Response([], [])
    {
      response, taken, asked := NO_RESPONSE, None, s;
      Others();
      var accepted: bool := *;
      Step(Submit(me, accepted));
      if !accepted {
        var error: int := *;
        return if error in REFUSALS then error else -11, response, taken, asked;
      }
      asked := s;
      Await(looks);
      if s.phases[me].Answered? {
        var reply := s.phases[me].reply;
        taken := Some(Fetched(reply, serial));
        ReplyIsOurs(s, me);
        LaterNumbers(start, s, taken.value);
        rc, response := Read(reply, limits);
      } else {
        rc := ETIMEDOUT;
      }
      LeaveSlot(start, taken);
    }

    /** The verdict on the reply taken. */
    method Read(reply: Reply, limits: Option<Limits>) returns (rc: int, response: Response)
      ensures Told(reply, limits, rc, response)
    {
      rc, response := Verdict(reply, limits), Contents(reply, limits);
    }

    /** request_finish, after whatever the others do. */
    method LeaveSlot(ghost start: State, ghost taken: Option<Fetched>)
      requires Valid() && (s.phases[me].Waiting? || s.phases[me].Answered?)
      requires Grown(start, s) && (taken.Some? ==> FetchedSince(start, s, taken.value))
      modifies this
      ensures Valid() && s.phases[me].Out? && Grown(start, s) && (taken.Some? ==> FetchedSince(start, s, taken.value))
      ensures s.fetched == old(s.fetched)
    {
      ghost var waited := s;
      Others();
      Step(Finish(me));
      if taken.Some? { StaysFetched(start, waited, s, taken.value); }
    }
  }
}
