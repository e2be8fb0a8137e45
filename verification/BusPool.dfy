/**
 The buffers and queues behind the core's bus, after src/bus.c, as a machine whose steps any thread
 may take at any time: take a buffer, append to it, queue a message, fetch one, wipe, give back.
 */
module BusPool {
  import opened Bytes
  import opened CoreRequests

  /** APP_BUS_QUEUE_DEPTH. */
  const DEPTH := 4

  /** What travels beside the payload. */
  datatype Header =
    | Protocol(route: Route)
    | Local(localKind: LocalKind, value: word, firstLen: nat)
    | Fido(fidoKind: FidoKind, requestId: word, value: word, firstLen: nat)
    | Confirm(id: word, choice: nat)
    | LocalResult(action: nat, error: nat, value: word)
    | FidoResult(requestId: word, credentialLen: nat, status: nat)

  /** A queued message: its payload is a chain of buffer numbers, empty for a null payload. */
  datatype Message = Message(header: Header, chain: seq<nat>)

  /** A message queue; its messages are numbered from `first` since the start. */
  datatype Queue = Queue(first: nat, messages: seq<Message>)

  /** The payload a thread has in hand; the first `wiped` buffers of it are already wiped. */
  datatype Hold = Hold(chain: seq<nat>, wiped: nat)

  const NOTHING := Hold([], 0)

  datatype Place = Free | Queued(queue: nat, serial: nat) | With(thread: nat)

  /** `raw` and `used` are the storage and fill level of each buffer, `owner` records where it is. */
  datatype Machine = Machine(size: nat, free: seq<nat>, raw: seq<seq<byte>>, used: seq<nat>,
                             owner: seq<Place>, queues: seq<Queue>, held: seq<Hold>)

  function At(m: Machine, place: Place): seq<nat> {
    match place
    case Free => m.free
    case Queued(q, s) =>
      if q < |m.queues| && m.queues[q].first <= s < m.queues[q].first + |m.queues[q].messages|
      then m.queues[q].messages[s - m.queues[q].first].chain
      else []
    case With(t) => if t < |m.held| then m.held[t].chain else []
  }

  predicate NoRepeat(s: seq<nat>) {
    forall i, j :: 0 <= i < j < |s| ==> s[i] != s[j]
  }

  predicate Shaped(m: Machine) {
    && m.size > 0 && |m.raw| == |m.used| == |m.owner|
    && (forall q :: 0 <= q < |m.queues| ==> |m.queues[q].messages| <= DEPTH)
    && (forall t :: 0 <= t < |m.held| ==> m.held[t].wiped <= |m.held[t].chain|)
  }

  /** Nothing is stored beyond the fill level of a buffer. */
  predicate CleanBuffer(raw: seq<byte>, used: nat, size: nat) {
    |raw| == size && used <= size && forall i :: used <= i < size ==> raw[i] == 0
  }

  predicate Clean(m: Machine)
    requires Shaped(m)
  {
    forall b :: 0 <= b < |m.raw| ==> CleanBuffer(m.raw[b], m.used[b], m.size)
  }

  predicate Marked(m: Machine, b: nat, p: Place) {
    b < |m.owner| && m.owner[b] == p
  }

  /** Every buffer is where its owner mark says, nowhere else, and only once. */
  ghost predicate Conserved(m: Machine)
    requires Shaped(m)
  {
    && (forall b: nat :: b < |m.owner| ==> b in At(m, m.owner[b]))
    && (forall p: Place, b: nat :: b in At(m, p) ==> Marked(m, b, p))
    && (forall p: Place :: NoRepeat(At(m, p)))
  }

  ghost predicate Inv(m: Machine) {
    && Shaped(m) && Clean(m) && Conserved(m)
    && (forall b :: b in m.free ==> b < |m.used| && m.used[b] == 0)
    && (forall t :: 0 <= t < |m.held| ==> Wiped(m, m.held[t]))
  }

  predicate Wiped(m: Machine, h: Hold)
    requires h.wiped <= |h.chain|
  {
    forall i :: 0 <= i < h.wiped ==> h.chain[i] < |m.used| && m.used[h.chain[i]] == 0
  }

  /** The bytes of a chain. */
  function Contents(m: Machine, chain: seq<nat>): seq<byte>
    requires Shaped(m)
  {
    if chain == [] then []
    else Contents(m, chain[..|chain| - 1]) + BytesOf(m, chain[|chain| - 1])
  }

  function BytesOf(m: Machine, b: nat): seq<byte>
    requires Shaped(m)
  {
    if b < |m.raw| && m.used[b] <= |m.raw[b]| then m.raw[b][..m.used[b]] else []
  }

  // ------------------------------------------------------------------------------- steps

  datatype Move =
    | Take(thread: nat)
    | Append(thread: nat, data: seq<byte>)
    | Put(thread: nat, queue: nat, header: Header)
    | Get(thread: nat, queue: nat)
    | Wipe(thread: nat)
    | GiveBack(thread: nat)

  predicate Enabled(m: Machine, move: Move)
    requires Shaped(m)
  {
    && move.thread < |m.held|
    && var h := m.held[move.thread];
    match move
    case Take(_) => m.free != [] && h.wiped == 0
    case Append(_, data) =>
      h.chain != [] && h.wiped == 0 && var b := h.chain[|h.chain| - 1]; b < |m.raw| && m.used[b] + |data| <= m.size == |m.raw[b]|
    case Put(_, q, _) => q < |m.queues| && |m.queues[q].messages| < DEPTH && h.wiped == 0
    case Get(_, q) => q < |m.queues| && m.queues[q].messages != [] && h.chain == []
    case Wipe(_) => h.wiped < |h.chain| && h.chain[h.wiped] < |m.raw| && m.used[h.chain[h.wiped]] <= |m.raw[h.chain[h.wiped]]|
    case GiveBack(_) => h.wiped == |h.chain| && forall i :: 0 <= i < |h.chain| ==> h.chain[i] < |m.owner|
  }

  function Mark(owner: seq<Place>, chain: seq<nat>, place: Place): (r: seq<Place>)
    ensures |r| == |owner|
    ensures forall b :: 0 <= b < |owner| ==> r[b] == if b in chain then place else owner[b]
  {
    seq(|owner|, b requires 0 <= b < |owner| => if b in chain then place else owner[b])
  }

  function TakeStep(m: Machine, t: nat): Machine
    requires Shaped(m) && Enabled(m, Take(t))
  {
    var b, h := m.free[|m.free| - 1], m.held[t];
    m.(free := m.free[..|m.free| - 1], owner := Mark(m.owner, [b], With(t)), held := m.held[t := Hold(h.chain + [b], 0)])
  }

  function AppendStep(m: Machine, t: nat, data: seq<byte>): Machine
    requires Shaped(m) && Enabled(m, Append(t, data))
  {
    var b := m.held[t].chain[|m.held[t].chain| - 1];
    m.(raw := m.raw[b := m.raw[b][..m.used[b]] + data + m.raw[b][m.used[b] + |data|..]], used := m.used[b := m.used[b] + |data|])
  }

  function PutStep(m: Machine, t: nat, q: nat, header: Header): Machine
    requires Shaped(m) && Enabled(m, Put(t, q, header))
  {
    var h, was := m.held[t], m.queues[q];
    m.(queues := m.queues[q := was.(messages := was.messages + [Message(header, h.chain)])],
       owner := Mark(m.owner, h.chain, Queued(q, was.first + |was.messages|)), held := m.held[t := NOTHING])
  }

  function GetStep(m: Machine, t: nat, q: nat): Machine
    requires Shaped(m) && Enabled(m, Get(t, q))
  {
    var was := m.queues[q];
    m.(queues := m.queues[q := Queue(was.first + 1, was.messages[1..])],
       owner := Mark(m.owner, was.messages[0].chain, With(t)), held := m.held[t := Hold(was.messages[0].chain, 0)])
  }

  /** explicit_bzero over the filled part; the rest is left as it is. */
  function WipeStep(m: Machine, t: nat): Machine
    requires Shaped(m) && Enabled(m, Wipe(t))
  {
    var h := m.held[t];
    var b := h.chain[h.wiped];
    m.(raw := m.raw[b := Zeros(m.used[b]) + m.raw[b][m.used[b]..]], used := m.used[b := 0],
       held := m.held[t := h.(wiped := h.wiped + 1)])
  }

  function GiveBackStep(m: Machine, t: nat): Machine
    requires Shaped(m) && Enabled(m, GiveBack(t))
  {
    var chain := m.held[t].chain;
    m.(free := m.free + chain, owner := Mark(m.owner, chain, Free), held := m.held[t := NOTHING])
  }

  function Apply(m: Machine, move: Move): Machine
    requires Shaped(m) && Enabled(m, move)
  {
    match move
    case Take(t) => TakeStep(m, t)
    case Append(t, data) => AppendStep(m, t, data)
    case Put(t, q, header) => PutStep(m, t, q, header)
    case Get(t, q) => GetStep(m, t, q)
    case Wipe(t) => WipeStep(m, t)
    case GiveBack(t) => GiveBackStep(m, t)
  }

  // --------------------------------------------------------------------------- invariants

  /** A chain of buffers moved from the end of one place to the end of another. */
  lemma Relocated(m: Machine, n: Machine, from: Place, to: Place, rest: seq<nat>, chain: seq<nat>)
    requires Shaped(m) && Shaped(n) && Conserved(m) && from != to
    requires At(m, from) == rest + chain && At(n, from) == rest
    requires At(n, to) == At(m, to) + chain
    requires forall p: Place :: p != from && p != to ==> At(n, p) == At(m, p)
    requires n.owner == Mark(m.owner, chain, to)
    ensures Conserved(n)
  {
    forall p: Place, b: nat | b in At(n, p) ensures Marked(n, b, p) {
      RelocatedOne(m, n, from, to, rest, chain, p, b);
    }
    forall b: nat | b < |n.owner| ensures b in At(n, n.owner[b]) {
      assert b in At(m, m.owner[b]);
    }
    forall p: Place ensures NoRepeat(At(n, p)) {
      assert NoRepeat(At(m, p));
      if p == to { RelocatedNoRepeat(m, from, to, rest, chain); }
      if p == from { assert forall k :: 0 <= k < |rest| ==> rest[k] == At(m, from)[k]; }
    }
  }

  lemma RelocatedOne(m: Machine, n: Machine, from: Place, to: Place, rest: seq<nat>, chain: seq<nat>, p: Place, b: nat)
    requires Shaped(m) && Shaped(n) && Conserved(m) && from != to
    requires At(m, from) == rest + chain && At(n, from) == rest
    requires At(n, to) == At(m, to) + chain
    requires p != from && p != to ==> At(n, p) == At(m, p)
    requires n.owner == Mark(m.owner, chain, to)
    requires b in At(n, p)
    ensures Marked(n, b, p)
  {
    if b in chain { assert b in At(m, from); }
    if p == from {
      assert b in At(m, from);
      assert NoRepeat(At(m, from));
      Apart(rest, chain, b);
    } else if p != to {
      assert b in At(m, p);
    } else {
      assert b in chain || b in At(m, to);
    }
  }

  lemma Apart(front: seq<nat>, back: seq<nat>, b: nat)
    requires NoRepeat(front + back) && b in front
    ensures b !in back
  {
    var all := front + back;
    var i :| 0 <= i < |front| && front[i] == b;
    assert all[i] == b;
    forall j | 0 <= j < |back| ensures back[j] != b {
      assert all[|front| + j] == back[j];
    }
  }

  lemma RelocatedNoRepeat(m: Machine, from: Place, to: Place, rest: seq<nat>, chain: seq<nat>)
    requires Shaped(m) && Conserved(m) && from != to
    requires At(m, from) == rest + chain
    ensures NoRepeat(At(m, to) + chain)
  {
    var all, k := At(m, to) + chain, |At(m, to)|;
    assert NoRepeat(At(m, from)) && NoRepeat(At(m, to));
    forall i, j | 0 <= i < j < |all| ensures all[i] != all[j] {
      if j >= k {
        assert all[j] == chain[j - k] == At(m, from)[|rest| + (j - k)];
        assert all[j] in At(m, from);
        if i < k {
          assert all[i] in At(m, to);
        } else {
          assert all[i] == chain[i - k] == At(m, from)[|rest| + (i - k)];
        }
      }
    }
  }

  /** A chain goes from the end of one place to the end of another; the other places stay as they are. */
  ghost predicate Rearranged(m: Machine, n: Machine, from: Place, to: Place, rest: seq<nat>, chain: seq<nat>) {
    && from != to && n.owner == Mark(m.owner, chain, to)
    && At(m, from) == rest + chain && At(n, from) == rest && At(n, to) == At(m, to) + chain
    && forall p: Place :: p != from && p != to ==> At(n, p) == At(m, p)
  }

  /** No byte changes, no thread but `t` is concerned, and the buffers freed are clean ones. */
  ghost predicate Steady(m: Machine, n: Machine, t: nat) {
    && n.raw == m.raw && n.used == m.used && n.size == m.size
    && (forall b :: b in n.free ==> b in m.free || (b < |m.used| && m.used[b] == 0))
    && t < |m.held| == |n.held| && n.held[t].wiped == 0
    && (forall u :: 0 <= u < |m.held| && u != t ==> n.held[u] == m.held[u])
  }

  lemma RearrangedKeeps(m: Machine, n: Machine, t: nat, from: Place, to: Place, rest: seq<nat>, chain: seq<nat>)
    requires Inv(m) && Shaped(n) && Rearranged(m, n, from, to, rest, chain) && Steady(m, n, t)
    ensures Inv(n)
  {
    Relocated(m, n, from, to, rest, chain);
    forall u | 0 <= u < |n.held| ensures Wiped(n, n.held[u]) {
      assert Wiped(m, m.held[u]);
    }
  }

  lemma TakeRearranges(m: Machine, t: nat)
    requires Shaped(m) && Enabled(m, Take(t))
    ensures Rearranged(m, TakeStep(m, t), Free, With(t), m.free[..|m.free| - 1], [m.free[|m.free| - 1]])
  {
    assert m.free == m.free[..|m.free| - 1] + [m.free[|m.free| - 1]];
  }

  lemma PutRearranges(m: Machine, t: nat, q: nat, header: Header)
    requires Shaped(m) && Enabled(m, Put(t, q, header))
    ensures Rearranged(m, PutStep(m, t, q, header), With(t),
                       Queued(q, m.queues[q].first + |m.queues[q].messages|), [], m.held[t].chain)
  {
    var n, to := PutStep(m, t, q, header), Queued(q, m.queues[q].first + |m.queues[q].messages|);
    assert At(m, to) == [] && At(n, to) == m.held[t].chain && At(n, With(t)) == [];
  }

  lemma GetRearranges(m: Machine, t: nat, q: nat)
    requires Shaped(m) && Enabled(m, Get(t, q))
    ensures Rearranged(m, GetStep(m, t, q), Queued(q, m.queues[q].first), With(t), [], m.queues[q].messages[0].chain)
  {
    var n, from := GetStep(m, t, q), Queued(q, m.queues[q].first);
    assert At(m, from) == m.queues[q].messages[0].chain && At(n, from) == [] && At(m, With(t)) == [];
  }

  lemma GiveBackRearranges(m: Machine, t: nat)
    requires Shaped(m) && Enabled(m, GiveBack(t))
    ensures Rearranged(m, GiveBackStep(m, t), With(t), Free, [], m.held[t].chain)
  {
    assert At(GiveBackStep(m, t), With(t)) == [];
  }

  lemma GiveBackIsSteady(m: Machine, t: nat)
    requires Shaped(m) && Enabled(m, GiveBack(t)) && Wiped(m, m.held[t])
    ensures Steady(m, GiveBackStep(m, t), t)
  {
  }

  lemma SameAt(m: Machine, n: Machine)
    requires Shaped(m) && Shaped(n) && Conserved(m)
    requires n.free == m.free && n.queues == m.queues && n.owner == m.owner
    requires |n.held| == |m.held| && forall t :: 0 <= t < |m.held| ==> n.held[t].chain == m.held[t].chain
    ensures Conserved(n)
  {
    assert forall p: Place :: At(n, p) == At(m, p);
    forall b: nat | b < |n.owner| ensures b in At(n, n.owner[b]) {
      assert b in At(m, m.owner[b]);
    }
    forall p: Place, b: nat | b in At(n, p) ensures Marked(n, b, p) {
      assert b in At(m, p);
    }
    forall p: Place ensures NoRepeat(At(n, p)) {
      assert NoRepeat(At(m, p));
    }
  }

  lemma AppendKeeps(m: Machine, t: nat, data: seq<byte>)
    requires Inv(m) && Enabled(m, Append(t, data))
    ensures Inv(AppendStep(m, t, data))
  {
    var n := AppendStep(m, t, data);
    var h := m.held[t];
    var b := h.chain[|h.chain| - 1];
    SameAt(m, n);
    assert CleanBuffer(m.raw[b], m.used[b], m.size);
    assert b in At(m, With(t));
    assert b in m.free ==> b in At(m, Free);
    forall u | 0 <= u < |n.held| ensures Wiped(n, n.held[u]) {
      assert Wiped(m, m.held[u]);
      forall i | 0 <= i < n.held[u].wiped ensures n.held[u].chain[i] != b {
        assert m.held[u].chain[i] in At(m, With(u));
      }
    }
  }

  lemma WipeKeeps(m: Machine, t: nat)
    requires Inv(m) && Enabled(m, Wipe(t))
    ensures Inv(WipeStep(m, t))
  {
    var n := WipeStep(m, t);
    var b := m.held[t].chain[m.held[t].wiped];
    SameAt(m, n);
    assert CleanBuffer(m.raw[b], m.used[b], m.size);
    forall u | 0 <= u < |n.held| ensures Wiped(n, n.held[u]) {
      assert Wiped(m, m.held[u]);
    }
  }

  lemma TakeKeeps(m: Machine, t: nat)
    requires Inv(m) && Enabled(m, Take(t))
    ensures Inv(TakeStep(m, t))
  {
    TakeRearranges(m, t);
    RearrangedKeeps(m, TakeStep(m, t), t, Free, With(t), m.free[..|m.free| - 1], [m.free[|m.free| - 1]]);
  }

  lemma PutKeeps(m: Machine, t: nat, q: nat, header: Header)
    requires Inv(m) && Enabled(m, Put(t, q, header))
    ensures Inv(PutStep(m, t, q, header))
  {
    PutRearranges(m, t, q, header);
    RearrangedKeeps(m, PutStep(m, t, q, header), t, With(t),
                    Queued(q, m.queues[q].first + |m.queues[q].messages|), [], m.held[t].chain);
  }

  lemma GetKeeps(m: Machine, t: nat, q: nat)
    requires Inv(m) && Enabled(m, Get(t, q))
    ensures Inv(GetStep(m, t, q))
  {
    GetRearranges(m, t, q);
    RearrangedKeeps(m, GetStep(m, t, q), t, Queued(q, m.queues[q].first), With(t), [], m.queues[q].messages[0].chain);
  }

  lemma GiveBackKeeps(m: Machine, t: nat)
    requires Inv(m) && Enabled(m, GiveBack(t))
    ensures Inv(GiveBackStep(m, t))
  {
    assert Wiped(m, m.held[t]);
    GiveBackRearranges(m, t);
    GiveBackIsSteady(m, t);
    RearrangedKeeps(m, GiveBackStep(m, t), t, With(t), Free, [], m.held[t].chain);
  }

  /** Every step of every thread keeps the invariant. */
  lemma StepKeeps(m: Machine, move: Move)
    requires Inv(m) && Enabled(m, move)
    ensures Inv(Apply(m, move))
  {
    match move
    case Take(t) => TakeKeeps(m, t);
    case Append(t, data) => AppendKeeps(m, t, data);
    case Put(t, q, header) => PutKeeps(m, t, q, header);
    case Get(t, q) => GetKeeps(m, t, q);
    case Wipe(t) => WipeKeeps(m, t);
    case GiveBack(t) => GiveBackKeeps(m, t);
  }

  // ----------------------------------------------------------------- what the invariant means

  /** A buffer is free, or in exactly one queued message, or in exactly one thread's hands; once. */
  lemma ExactlyOnePlace(m: Machine, b: nat) returns (p: Place)
    requires Inv(m) && b < |m.raw|
    ensures b in At(m, p) && NoRepeat(At(m, p)) && forall o: Place :: b in At(m, o) ==> o == p
    ensures p == Free ==> m.raw[b] == Zeros(m.size)
  {
    p := m.owner[b];
    assert b in At(m, p);
    assert NoRepeat(At(m, p));
    forall o: Place | b in At(m, o) ensures o == p { assert Marked(m, b, o); }
    assert CleanBuffer(m.raw[b], m.used[b], m.size);
  }

  function Below(n: nat): (s: set<nat>)
    ensures |s| == n
    ensures forall k: nat :: k in s <==> k < n
  {
    if n == 0 then {} else Below(n - 1) + {n - 1}
  }

  lemma {:induction false} Pigeonhole(s: seq<nat>, n: nat)
    requires NoRepeat(s) && forall b :: b in s ==> b < n
    ensures |s| <= n
  {
    var elements := set b | b in s;
    Cardinality(s, elements);
    assert elements <= Below(n);
    SubsetSize(elements, Below(n));
  }

  lemma {:induction false} Cardinality(s: seq<nat>, elements: set<nat>)
    requires NoRepeat(s) && elements == set b | b in s
    ensures |elements| == |s|
  {
    if s != [] {
      var front, last := s[..|s| - 1], s[|s| - 1];
      assert s == front + [last];
      Cardinality(front, elements - {last});
    }
  }

  lemma {:induction false} SubsetSize(a: set<nat>, b: set<nat>)
    requires a <= b
    ensures |a| <= |b|
  {
    if a != {} {
      var x :| x in a;
      SubsetSize(a - {x}, b - {x});
    }
  }

  /** No payload has more fragments than the pool has buffers. */
  lemma ChainFits(m: Machine, p: Place)
    requires Inv(m)
    ensures |At(m, p)| <= |m.raw|
  {
    assert NoRepeat(At(m, p));
    forall b | b in At(m, p) ensures b < |m.raw| { assert Marked(m, b, p); }
    Pigeonhole(At(m, p), |m.raw|);
  }

  // --------------------------------------------------- the machine behaves like plain queues

  datatype Letter = Letter(header: Header, payload: seq<byte>)

  /** A letter with the thread that posted it. */
  datatype Posting = Posting(letter: Letter, author: nat)

  /** A queue as its senders and readers see it: all letters ever put into it, how many were fetched, and by whom. */
  datatype Box = Box(posted: seq<Posting>, fetched: nat, readers: seq<nat>)

  /** The queues, and the payload each thread is writing or reading. */
  datatype Mail = Mail(boxes: seq<Box>, held: seq<seq<byte>>)

  predicate Fits(a: Mail, move: Move) {
    && move.thread < |a.held|
    && (move.Put? || move.Get? ==> move.queue < |a.boxes|)
    && (move.Get? ==> a.boxes[move.queue].fetched < |a.boxes[move.queue].posted|)
  }

  /** What a step means: a fetch takes the oldest letter not yet fetched. */
  function Deliver(a: Mail, move: Move): Mail
    requires Fits(a, move)
  {
    var t := move.thread;
    match move
    case Take(_) => a
    case Append(_, data) => a.(held := a.held[t := a.held[t] + data])
    case Put(_, q, header) =>
      var box := a.boxes[q];
      Mail(a.boxes[q := box.(posted := box.posted + [Posting(Letter(header, a.held[t]), t)])], a.held[t := []])
    case Get(_, q) =>
      var box := a.boxes[q];
      Mail(a.boxes[q := Box(box.posted, box.fetched + 1, box.readers + [t])], a.held[t := box.posted[box.fetched].letter.payload])
    case Wipe(_) => a.(held := a.held[t := []])
    case GiveBack(_) => a.(held := a.held[t := []])
  }

  /** The payload in a thread's hands; none once it is being wiped. */
  function InHand(m: Machine, h: Hold): seq<byte>
    requires Shaped(m)
  {
    if h.wiped > 0 then [] else Contents(m, h.chain)
  }

  /** The queue holds the letters posted and not yet fetched, in order. */
  predicate Carries(m: Machine, q: nat, box: Box)
    requires Shaped(m) && q < |m.queues|
  {
    var messages := m.queues[q].messages;
    |box.posted| == box.fetched + |messages| && |box.readers| == box.fetched &&
    forall i :: 0 <= i < |messages| ==>
      box.posted[box.fetched + i].letter == Letter(messages[i].header, Contents(m, messages[i].chain))
  }

  predicate Reads(m: Machine, a: Mail)
    requires Shaped(m)
  {
    && |a.boxes| == |m.queues| && (forall q :: 0 <= q < |m.queues| ==> Carries(m, q, a.boxes[q]))
    && |a.held| == |m.held| && (forall t :: 0 <= t < |m.held| ==> a.held[t] == InHand(m, m.held[t]))
  }

  lemma {:induction false} SameContents(m: Machine, n: Machine, chain: seq<nat>)
    requires Shaped(m) && Shaped(n)
    requires forall b :: b in chain ==> BytesOf(n, b) == BytesOf(m, b)
    ensures Contents(n, chain) == Contents(m, chain)
  {
    if chain != [] {
      SameContents(m, n, chain[..|chain| - 1]);
    }
  }

  /** A chain in one place is untouched by what is done to a buffer of another place. */
  lemma Elsewhere(m: Machine, n: Machine, p: Place, at: Place, b: nat)
    requires Inv(m) && Shaped(n) && b in At(m, at) && p != at
    requires |n.raw| == |m.raw|
    requires forall c :: 0 <= c < |m.raw| && c != b ==> n.raw[c] == m.raw[c] && n.used[c] == m.used[c]
    ensures Contents(n, At(m, p)) == Contents(m, At(m, p))
  {
    forall c | c in At(m, p) ensures BytesOf(n, c) == BytesOf(m, c) {
      assert Marked(m, c, p) && Marked(m, b, at);
    }
    SameContents(m, n, At(m, p));
  }

  lemma CarriesElsewhere(m: Machine, n: Machine, q: nat, box: Box, t: nat, b: nat)
    requires Inv(m) && Shaped(n) && b in At(m, With(t)) && q < |m.queues|
    requires |n.raw| == |m.raw|
    requires forall c :: 0 <= c < |m.raw| && c != b ==> n.raw[c] == m.raw[c] && n.used[c] == m.used[c]
    requires n.queues == m.queues && Carries(m, q, box)
    ensures Carries(n, q, box)
  {
    var queue := m.queues[q];
    forall i | 0 <= i < |queue.messages|
      ensures box.posted[box.fetched + i].letter == Letter(queue.messages[i].header, Contents(n, queue.messages[i].chain))
    {
      var p := Queued(q, queue.first + i);
      assert At(m, p) == queue.messages[i].chain;
      Elsewhere(m, n, p, With(t), b);
    }
  }

  /** Appending to the last buffer of a chain appends to what the chain holds. */
  lemma AppendedContents(m: Machine, t: nat, data: seq<byte>)
    requires Inv(m) && Enabled(m, Append(t, data))
    ensures var n := AppendStep(m, t, data);
            Shaped(n) && Contents(n, m.held[t].chain) == Contents(m, m.held[t].chain) + data
  {
    var chain := m.held[t].chain;
    var k := |chain| - 1;
    var b := chain[k];
    var n := AppendStep(m, t, data);
    assert At(m, With(t)) == chain && NoRepeat(At(m, With(t)));
    assert CleanBuffer(m.raw[b], m.used[b], m.size);
    assert BytesOf(n, b) == BytesOf(m, b) + data;
    SameContents(m, n, chain[..k]);
    assert Contents(m, chain[..k]) + (BytesOf(m, b) + data) == Contents(m, chain) + data;
  }

  /** What is done to a buffer in one thread's hands changes no queue and no other thread's payload. */
  lemma ReadsElsewhere(m: Machine, n: Machine, a: Mail, t: nat, b: nat)
    requires Inv(m) && Shaped(n) && b in At(m, With(t)) && Reads(m, a) && n.queues == m.queues
    requires |n.raw| == |m.raw|
    requires forall c :: 0 <= c < |m.raw| && c != b ==> n.raw[c] == m.raw[c] && n.used[c] == m.used[c]
    ensures forall q :: 0 <= q < |m.queues| ==> Carries(n, q, a.boxes[q])
    ensures forall u :: 0 <= u < |m.held| && u != t ==> InHand(n, m.held[u]) == InHand(m, m.held[u])
  {
    forall u | 0 <= u < |m.held| && u != t ensures InHand(n, m.held[u]) == InHand(m, m.held[u]) {
      assert At(m, With(u)) == m.held[u].chain;
      Elsewhere(m, n, With(u), With(t), b);
    }
    forall q | 0 <= q < |m.queues| ensures Carries(n, q, a.boxes[q]) {
      CarriesElsewhere(m, n, q, a.boxes[q], t, b);
    }
  }

  lemma AppendRefines(m: Machine, a: Mail, t: nat, data: seq<byte>)
    requires Inv(m) && Enabled(m, Append(t, data)) && Reads(m, a)
    ensures Fits(a, Append(t, data)) && Reads(AppendStep(m, t, data), Deliver(a, Append(t, data)))
  {
    var b := m.held[t].chain[|m.held[t].chain| - 1];
    assert b in At(m, With(t));
    AppendedContents(m, t, data);
    ReadsElsewhere(m, AppendStep(m, t, data), a, t, b);
  }

  lemma WipeRefines(m: Machine, a: Mail, t: nat)
    requires Inv(m) && Enabled(m, Wipe(t)) && Reads(m, a)
    ensures Fits(a, Wipe(t)) && Reads(WipeStep(m, t), Deliver(a, Wipe(t)))
  {
    var b := m.held[t].chain[m.held[t].wiped];
    assert b in At(m, With(t));
    ReadsElsewhere(m, WipeStep(m, t), a, t, b);
  }

  /** Steps that only move chains about leave every byte alone. */
  lemma SameBytes(m: Machine, n: Machine)
    requires Shaped(m) && Shaped(n) && n.raw == m.raw && n.used == m.used
    ensures forall chain :: Contents(n, chain) == Contents(m, chain)
  {
    forall chain ensures Contents(n, chain) == Contents(m, chain) {
      SameContents(m, n, chain);
    }
  }

  /** A freshly taken buffer adds nothing to the payload. */
  lemma TakenIsEmpty(m: Machine, chain: seq<nat>, b: nat)
    requires Shaped(m) && b < |m.used| && m.used[b] == 0
    ensures Contents(m, chain + [b]) == Contents(m, chain)
  {
  }

  /** An emptied chain has no contents. */
  lemma {:induction false} EmptyChain(m: Machine, chain: seq<nat>)
    requires Shaped(m) && forall i :: 0 <= i < |chain| ==> chain[i] < |m.used| && m.used[chain[i]] == 0
    ensures Contents(m, chain) == []
  {
    if chain != [] { EmptyChain(m, chain[..|chain| - 1]); }
  }

  lemma TakeRefines(m: Machine, a: Mail, t: nat)
    requires Inv(m) && Enabled(m, Take(t)) && Reads(m, a)
    ensures Fits(a, Take(t)) && Reads(TakeStep(m, t), Deliver(a, Take(t)))
  {
    var b := m.free[|m.free| - 1];
    SameBytes(m, TakeStep(m, t));
    assert b in m.free;
    TakenIsEmpty(m, m.held[t].chain, b);
    assert forall q :: 0 <= q < |m.queues| ==> Carries(m, q, a.boxes[q]);
  }

  /** A letter added at the end of a queue. */
  lemma PutCarries(m: Machine, n: Machine, q: nat, box: Box, header: Header, chain: seq<nat>, t: nat)
    requires Shaped(m) && Shaped(n) && n.raw == m.raw && n.used == m.used && q < |m.queues| == |n.queues|
    requires Carries(m, q, box) && n.queues[q].messages == m.queues[q].messages + [Message(header, chain)]
    ensures Carries(n, q, box.(posted := box.posted + [Posting(Letter(header, Contents(m, chain)), t)]))
  {
    SameBytes(m, n);
  }

  lemma PutRefines(m: Machine, a: Mail, t: nat, q: nat, header: Header)
    requires Inv(m) && Enabled(m, Put(t, q, header)) && Reads(m, a)
    ensures Fits(a, Put(t, q, header)) && Reads(PutStep(m, t, q, header), Deliver(a, Put(t, q, header)))
  {
    var n := PutStep(m, t, q, header);
    SameBytes(m, n);
    assert a.held[t] == InHand(m, m.held[t]);
    PutCarries(m, n, q, a.boxes[q], header, m.held[t].chain, t);
    forall r | 0 <= r < |m.queues| && r != q ensures Carries(n, r, a.boxes[r]) {
      assert Carries(m, r, a.boxes[r]);
    }
  }

  lemma GetRefines(m: Machine, a: Mail, t: nat, q: nat)
    requires Inv(m) && Enabled(m, Get(t, q)) && Reads(m, a)
    ensures Fits(a, Get(t, q)) && Reads(GetStep(m, t, q), Deliver(a, Get(t, q)))
  {
    SameBytes(m, GetStep(m, t, q));
    assert forall r :: 0 <= r < |m.queues| ==> Carries(m, r, a.boxes[r]);
  }

  lemma GiveBackRefines(m: Machine, a: Mail, t: nat)
    requires Inv(m) && Enabled(m, GiveBack(t)) && Reads(m, a)
    ensures Fits(a, GiveBack(t)) && Reads(GiveBackStep(m, t), Deliver(a, GiveBack(t)))
  {
    SameBytes(m, GiveBackStep(m, t));
    assert forall q :: 0 <= q < |m.queues| ==> Carries(m, q, a.boxes[q]);
  }

  /** Each step does to the letters what its name says, and nothing else to any queue or thread. */
  lemma StepRefines(m: Machine, a: Mail, move: Move)
    requires Inv(m) && Enabled(m, move) && Reads(m, a)
    ensures Fits(a, move) && Reads(Apply(m, move), Deliver(a, move))
  {
    match move
    case Append(t, data) => AppendRefines(m, a, t, data);
    case Wipe(t) => WipeRefines(m, a, t);
    case Take(t) => TakeRefines(m, a, t);
    case Put(t, q, header) => PutRefines(m, a, t, q, header);
    case Get(t, q) => GetRefines(m, a, t, q);
    case GiveBack(t) => GiveBackRefines(m, a, t);
  }

  // --------------------------------------------------------------------------- whole runs

  ghost predicate Possible(m: Machine, moves: seq<Move>)
    decreases |moves|
  {
    moves == [] || (Shaped(m) && Enabled(m, moves[0]) && Possible(Apply(m, moves[0]), moves[1..]))
  }

  function Run(m: Machine, moves: seq<Move>): Machine
    requires Possible(m, moves)
    decreases |moves|
  {
    if moves == [] then m else Run(Apply(m, moves[0]), moves[1..])
  }

  function DeliverAll(a: Mail, moves: seq<Move>): Mail
    decreases |moves|
  {
    if moves == [] || !Fits(a, moves[0]) then a else DeliverAll(Deliver(a, moves[0]), moves[1..])
  }

  /** In every interleaving of any threads, every buffer stays accounted for and every letter arrives as sent. */
  lemma {:induction false} RunRefines(m: Machine, a: Mail, moves: seq<Move>)
    requires Inv(m) && Reads(m, a) && Possible(m, moves)
    ensures Inv(Run(m, moves)) && Reads(Run(m, moves), DeliverAll(a, moves))
    decreases |moves|
  {
    if moves != [] {
      StepKeeps(m, moves[0]);
      StepRefines(m, a, moves[0]);
      RunRefines(Apply(m, moves[0]), Deliver(a, moves[0]), moves[1..]);
    }
  }

  /** The letters fetched from a queue over a run, in order. */
  function Fetches(a: Mail, moves: seq<Move>, q: nat): seq<Posting>
    decreases |moves|
  {
    if moves == [] || !Fits(a, moves[0]) then []
    else
      var rest := Fetches(Deliver(a, moves[0]), moves[1..], q);
      if moves[0].Get? && moves[0].queue == q then [a.boxes[q].posted[a.boxes[q].fetched]] + rest else rest
  }

  /** Over any run what is posted stays posted, and what is fetched is each posted letter once, in order. */
  lemma {:induction false} LettersConserved(a: Mail, moves: seq<Move>, q: nat)
    requires q < |a.boxes| && a.boxes[q].fetched <= |a.boxes[q].posted|
    ensures |DeliverAll(a, moves).boxes| == |a.boxes|
    ensures var was, now := a.boxes[q], DeliverAll(a, moves).boxes[q];
            && was.posted <= now.posted && was.fetched <= now.fetched <= |now.posted|
            && Fetches(a, moves, q) == now.posted[was.fetched..now.fetched]
    decreases |moves|
  {
    if moves != [] && Fits(a, moves[0]) {
      LettersConserved(Deliver(a, moves[0]), moves[1..], q);
    }
  }

  function Fresh(count: nat, size: nat, queues: nat, threads: nat): Machine
    requires size > 0
  {
    Machine(size, seq(count, i => i), seq(count, i => Zeros(size)), seq(count, i => 0), seq(count, i => Free),
            seq(queues, i => Queue(0, [])), seq(threads, i => NOTHING))
  }

  lemma FreshIsSound(count: nat, size: nat, queues: nat, threads: nat)
    requires size > 0
    ensures Inv(Fresh(count, size, queues, threads))
    ensures Reads(Fresh(count, size, queues, threads), Mail(seq(queues, i => Box([], 0, [])), seq(threads, i => [])))
  {
  }
}
