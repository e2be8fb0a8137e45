/**
 src/bus.c as the code of one thread: between any two of its steps the other threads take any number
 of theirs.
 */
module BusPayload {
  import opened Bytes
  import opened BusPool
  import opened CoreRequests

  const OK := 0
  const EAGAIN := -11
  const ENOMEM := -12
  const EINVAL := -22
  const EMSGSIZE := -122
  const ENOTSUP := -134

  // ------------------------------------------------------------- one thread's view of a step

  predicate SameShape(m: Machine, n: Machine) {
    n.size == m.size && |n.raw| == |m.raw| && |n.queues| == |m.queues| && |n.held| == |m.held|
  }

  /** The same pool; and when all is calm nothing happened in other threads' hands. */
  predicate Alongside(m: Machine, n: Machine, me: nat, calm: bool) {
    SameShape(m, n) && (calm ==> forall u :: 0 <= u < |m.held| && u != me ==> n.held[u] == m.held[u])
  }

  predicate SameBuffer(m: Machine, n: Machine, b: nat) {
    b < |m.raw| && b < |n.raw| && b < |m.used| && b < |n.used| && n.raw[b] == m.raw[b] && n.used[b] == m.used[b]
  }

  /** What the steps of other threads leave alone. */
  predicate Untouched(m: Machine, n: Machine, me: nat) {
    && SameShape(m, n) && me < |m.held| && n.held[me] == m.held[me]
    && forall b :: b in m.held[me].chain ==> SameBuffer(m, n, b)
  }

  lemma MineIsMarked(m: Machine, me: nat)
    requires Inv(m) && me < |m.held|
    ensures forall b :: b in m.held[me].chain ==> Marked(m, b, With(me))
  {
    assert At(m, With(me)) == m.held[me].chain;
  }

  /** The buffer another thread writes to. */
  lemma OthersWrite(m: Machine, move: Move, me: nat)
    requires Inv(m) && Enabled(m, move) && me < |m.held| && move.thread != me && (move.Append? || move.Wipe?)
    ensures Untouched(m, Apply(m, move), me)
  {
    MineIsMarked(m, me);
    var h := m.held[move.thread];
    var c := if move.Append? then h.chain[|h.chain| - 1] else h.chain[h.wiped];
    assert c in At(m, With(move.thread));
    assert Marked(m, c, With(move.thread));
  }

  lemma OthersLeaveMine(m: Machine, move: Move, me: nat)
    requires Inv(m) && Enabled(m, move) && me < |m.held| && move.thread != me
    ensures Untouched(m, Apply(m, move), me)
  {
    if move.Append? || move.Wipe? {
      OthersWrite(m, move, me);
    } else {
      MineIsMarked(m, me);
    }
  }

  lemma UntouchedChains(l: Machine, m: Machine, n: Machine, me: nat)
    requires Untouched(l, m, me) && Untouched(m, n, me)
    ensures Untouched(l, n, me)
  {
  }

  // --------------------------------------------------------------- payloads under construction

  /** The room of n buffers. */
  function Capacity(n: nat, size: nat): nat {
    if n == 0 then 0 else Capacity(n - 1, size) + size
  }

  lemma {:induction false} CapacityIsProduct(n: nat, size: nat)
    ensures Capacity(n, size) == n * size
  {
    if n > 0 {
      CapacityIsProduct(n - 1, size);
      assert n * size == (n - 1) * size + size;
    }
  }

  lemma {:induction false} CapacityGrows(a: nat, b: nat, size: nat)
    requires a <= b
    ensures Capacity(a, size) <= Capacity(b, size)
  {
    if a < b { CapacityGrows(a, b - 1, size); }
  }

  /** How full the last buffer is. */
  function Filled(m: Machine, chain: seq<nat>): nat {
    if chain == [] || chain[|chain| - 1] >= |m.used| then 0 else m.used[chain[|chain| - 1]]
  }

  /** Every buffer of the chain but the last is full. */
  predicate Packed(m: Machine, chain: seq<nat>)
    requires Shaped(m)
  {
    Filled(m, chain) <= m.size &&
    if chain == [] then true else |Contents(m, chain)| == Capacity(|chain| - 1, m.size) + Filled(m, chain)
  }

  ghost predicate Building(m: Machine, me: nat) {
    Inv(m) && me < |m.held| && m.held[me].wiped == 0 && Packed(m, m.held[me].chain)
  }

  lemma OthersKeepBuilding(m: Machine, n: Machine, me: nat)
    requires Inv(m) && Inv(n) && Untouched(m, n, me)
    ensures Contents(n, m.held[me].chain) == Contents(m, m.held[me].chain)
    ensures Filled(n, m.held[me].chain) == Filled(m, m.held[me].chain)
    ensures Building(m, me) ==> Building(n, me)
  {
    var chain := m.held[me].chain;
    assert forall b :: b in chain ==> SameBuffer(m, n, b);
    SameContents(m, n, chain);
    assert chain != [] ==> SameBuffer(m, n, chain[|chain| - 1]);
  }

  /** A full chain stays packed when an empty buffer is hung on. */
  lemma LongerPacked(m: Machine, n: Machine, chain: seq<nat>, b: nat)
    requires Shaped(m) && Shaped(n) && n.raw == m.raw && n.used == m.used && n.size == m.size
    requires b < |m.used| && m.used[b] == 0
    requires Packed(m, chain) && (chain != [] ==> Filled(m, chain) == m.size)
    ensures Packed(n, chain + [b]) && Filled(n, chain + [b]) == 0 && Contents(n, chain + [b]) == Contents(m, chain)
  {
    TakenIsEmpty(n, chain, b);
    SameContents(m, n, chain);
  }

  lemma TakeBuilds(m: Machine, me: nat)
    requires Building(m, me) && m.free != []
    requires m.held[me].chain != [] ==> Filled(m, m.held[me].chain) == m.size
    ensures Enabled(m, Take(me))
    ensures var n := TakeStep(m, me);
            && Building(n, me) && |n.held[me].chain| == |m.held[me].chain| + 1 && Filled(n, n.held[me].chain) == 0
            && Contents(n, n.held[me].chain) == Contents(m, m.held[me].chain)
  {
    var b := m.free[|m.free| - 1];
    assert b in m.free;
    TakeKeeps(m, me);
    LongerPacked(m, TakeStep(m, me), m.held[me].chain, b);
  }

  lemma AppendBuilds(m: Machine, me: nat, data: seq<byte>)
    requires Building(m, me) && m.held[me].chain != [] && Filled(m, m.held[me].chain) + |data| <= m.size
    ensures Enabled(m, Append(me, data))
    ensures var n, chain := AppendStep(m, me, data), m.held[me].chain;
            && Building(n, me) && Filled(n, chain) == Filled(m, chain) + |data|
            && Contents(n, chain) == Contents(m, chain) + data
  {
    var chain := m.held[me].chain;
    var b := chain[|chain| - 1];
    assert b in At(m, With(me));
    assert Marked(m, b, With(me));
    assert CleanBuffer(m.raw[b], m.used[b], m.size);
    AppendKeeps(m, me, data);
    AppendedContents(m, me, data);
  }

  lemma CanGiveBack(m: Machine, me: nat)
    requires Inv(m) && me < |m.held| && m.held[me].wiped == |m.held[me].chain|
    ensures Enabled(m, GiveBack(me))
  {
    assert At(m, With(me)) == m.held[me].chain;
    forall b | b in m.held[me].chain ensures b < |m.owner| { assert Marked(m, b, With(me)); }
  }

  lemma CanWipe(m: Machine, me: nat)
    requires Inv(m) && me < |m.held| && m.held[me].wiped < |m.held[me].chain|
    ensures Enabled(m, Wipe(me))
  {
    var b := m.held[me].chain[m.held[me].wiped];
    assert b in At(m, With(me));
    assert Marked(m, b, With(me));
    assert CleanBuffer(m.raw[b], m.used[b], m.size);
  }

  /** No queue changes, and what leaves the free list comes into this thread's hands. */
  predicate Balanced(was: Machine, now: Machine, me: nat) {
    && me < |was.held| && me < |now.held| && now.queues == was.queues
    && |now.free| + |now.held[me].chain| == |was.free| + |was.held[me].chain|
  }

  lemma Pieces(before: seq<byte>, data: seq<byte>, a: nat, count: nat)
    requires a + count <= |data|
    ensures before + data[..a] + data[a..][..count] == before + data[..a + count]
  {
  }

  function LocalLetter(kind: LocalKind, value: word, data: seq<byte>, auxiliary: seq<byte>): Letter {
    Letter(Local(kind, value, |data|), data + auxiliary)
  }

  /** The letters one thread has posted into a queue. */
  function Sent(posted: seq<Posting>, t: nat): seq<Letter> {
    if posted == [] then []
    else
      var n := |posted| - 1;
      Sent(posted[..n], t) + if posted[n].author == t then [posted[n].letter] else []
  }

  /** How many letters one thread has fetched. */
  function ReadBy(readers: seq<nat>, t: nat): nat {
    if readers == [] then 0
    else
      var n := |readers| - 1;
      ReadBy(readers[..n], t) + if readers[n] == t then 1 else 0
  }

  /** A queue to which the thread has posted and from which it has fetched nothing in between. */
  predicate Unsent(a: Box, b: Box, t: nat) {
    && a.posted <= b.posted && a.fetched <= b.fetched && Sent(b.posted, t) == Sent(a.posted, t)
    && a.readers <= b.readers && ReadBy(b.readers, t) == ReadBy(a.readers, t)
  }

  /** The thread has posted and fetched nothing in between. */
  predicate Silent(a: Mail, b: Mail, t: nat) {
    |a.boxes| == |b.boxes| && forall q :: 0 <= q < |a.boxes| ==> Unsent(a.boxes[q], b.boxes[q], t)
  }

  /** And when all is calm nobody has. */
  predicate Quiet(a: Mail, b: Mail, t: nat, calm: bool) {
    Silent(a, b, t) && (calm ==> b.boxes == a.boxes)
  }

  lemma LetterJoins(posted: seq<Posting>, p: Posting, t: nat)
    ensures Sent(posted + [p], t) == Sent(posted, t) + if p.author == t then [p.letter] else []
  {
    assert (posted + [p])[..|posted|] == posted;
  }

  lemma ReaderJoins(readers: seq<nat>, u: nat, t: nat)
    ensures ReadBy(readers + [u], t) == ReadBy(readers, t) + if u == t then 1 else 0
  {
    assert (readers + [u])[..|readers|] == readers;
  }

  lemma SilentTwice(a: Mail, b: Mail, c: Mail, t: nat)
    requires Silent(a, b, t) && Silent(b, c, t)
    ensures Silent(a, c, t)
  {
  }

  lemma OthersSend(a: Mail, move: Move, t: nat)
    requires Fits(a, move) && (move.Put? || move.Get? ==> move.thread != t)
    ensures Silent(a, Deliver(a, move), t)
  {
    if move.Put? {
      LetterJoins(a.boxes[move.queue].posted, Posting(Letter(move.header, a.held[move.thread]), move.thread), t);
    } else if move.Get? {
      ReaderJoins(a.boxes[move.queue].readers, move.thread, t);
    }
  }

  /** In between the thread has posted this one letter into this queue and none into any other; it is the last
      of those now posted, and when all is calm nothing else happened. */
  predicate PostedOne(a: Mail, b: Mail, q: nat, letter: Letter, t: nat, calm: bool) {
    && q < |a.boxes| == |b.boxes| && a.boxes[q].fetched <= b.boxes[q].fetched
    && a.boxes[q].readers <= b.boxes[q].readers && ReadBy(b.boxes[q].readers, t) == ReadBy(a.boxes[q].readers, t)
    && (forall r :: 0 <= r < |a.boxes| && r != q ==> Unsent(a.boxes[r], b.boxes[r], t))
    && var was, now := a.boxes[q].posted, b.boxes[q].posted;
       && |now| > |was| && was <= now[..|now| - 1] && now[|now| - 1] == Posting(letter, t)
       && Sent(now, t) == Sent(was, t) + [letter]
       && (calm ==> b.boxes == a.boxes[q := a.boxes[q].(posted := was + [Posting(letter, t)])])
  }

  lemma PutPosts(a: Mail, t: nat, q: nat, header: Header)
    requires Fits(a, Put(t, q, header))
    ensures PostedOne(a, Deliver(a, Put(t, q, header)), q, Letter(header, a.held[t]), t, true)
  {
    LetterJoins(a.boxes[q].posted, Posting(Letter(header, a.held[t]), t), t);
  }

  lemma QuietThenPosted(a: Mail, b: Mail, c: Mail, q: nat, letter: Letter, t: nat, calm: bool)
    requires Quiet(a, b, t, calm) && PostedOne(b, c, q, letter, t, calm)
    ensures PostedOne(a, c, q, letter, t, calm)
  {
  }

  /** In between the thread has fetched exactly one letter, the one at place `i` of this queue, and posted nothing. */
  predicate FetchedOne(a: Mail, b: Mail, q: nat, i: nat, letter: Letter, t: nat) {
    && q < |a.boxes| == |b.boxes|
    && (forall r :: 0 <= r < |a.boxes| && r != q ==> Unsent(a.boxes[r], b.boxes[r], t))
    && var was, now := a.boxes[q], b.boxes[q];
       && was.posted <= now.posted && Sent(now.posted, t) == Sent(was.posted, t)
       && was.readers <= now.readers && ReadBy(now.readers, t) == ReadBy(was.readers, t) + 1
       && was.fetched <= i < now.fetched <= |now.posted| && now.fetched == |now.readers|
       && now.posted[i].letter == letter && now.readers[i] == t
  }

  lemma GetFetches(a: Mail, t: nat, q: nat)
    requires Fits(a, Get(t, q)) && |a.boxes[q].readers| == a.boxes[q].fetched
    ensures FetchedOne(a, Deliver(a, Get(t, q)), q, a.boxes[q].fetched, a.boxes[q].posted[a.boxes[q].fetched].letter, t)
  {
    ReaderJoins(a.boxes[q].readers, t, t);
  }

  lemma QuietThenFetched(a: Mail, b: Mail, c: Mail, q: nat, i: nat, letter: Letter, t: nat)
    requires Silent(a, b, t) && FetchedOne(b, c, q, i, letter, t)
    ensures FetchedOne(a, c, q, i, letter, t)
  {
  }

  lemma StaysFetched(a: Mail, b: Mail, c: Mail, q: nat, i: nat, letter: Letter, t: nat)
    requires FetchedOne(a, b, q, i, letter, t) && Silent(b, c, t)
    requires q < |c.boxes| && |c.boxes[q].readers| == c.boxes[q].fetched <= |c.boxes[q].posted|
    ensures FetchedOne(a, c, q, i, letter, t)
  {
  }

  lemma WaitingLetters(m: Machine, a: Mail, q: nat)
    requires Shaped(m) && Reads(m, a) && q < |m.queues|
    ensures q < |a.boxes|
    ensures var box := a.boxes[q]; |box.posted| == box.fetched + |m.queues[q].messages| && |box.readers| == box.fetched
  {
    assert Carries(m, q, a.boxes[q]);
  }

  /** The queues with one message more. */
  function Lengthened(queues: seq<Queue>, q: nat, message: Message): seq<Queue> {
    if q < |queues| then queues[q := Queue(queues[q].first, queues[q].messages + [message])] else queues
  }

  /** A thread of the firmware and the pool it uses. In the contracts `base` is any earlier moment since which
      this thread has posted and fetched nothing. */
  class Client {
    const me: nat
    var m: Machine
    var coreReady: bool
    /** No other thread is at work. */
    var calm: bool
    /** The letters behind the machine: everything ever posted, and what was fetched of it. */
    ghost var mail: Mail

    constructor (m: Machine, ghost mail: Mail, me: nat, calm: bool)
      requires Inv(m) && Reads(m, mail) && me < |m.held|
      ensures this.m == m && this.mail == mail && this.me == me && this.calm == calm && Valid()
    {
      this.m, this.mail, this.me, this.calm, coreReady := m, mail, me, calm, true;
    }

    ghost predicate Valid()
      reads this
    {
      Inv(m) && me < |m.held| && Reads(m, mail)
    }

    /** The step of this thread, and what it means for the letters. */
    ghost method Tell(move: Move)
      requires Valid() && Enabled(m, move)
      modifies `mail
      ensures Reads(Apply(m, move), mail) && Fits(old(mail), move) && mail == Deliver(old(mail), move)
      ensures (!move.Put? && !move.Get?) || move.thread != me ==> Silent(old(mail), mail, me)
      ensures !move.Put? && !move.Get? ==> mail.boxes == old(mail.boxes)
    {
      StepRefines(m, mail, move);
      if (!move.Put? && !move.Get?) || move.thread != me { OthersSend(mail, move, me); }
      mail := Deliver(mail, move);
    }

    /** The chain this thread has in hand, and its bytes. */
    function Chain(): seq<nat>
      reads this
    {
      if me < |m.held| then m.held[me].chain else []
    }

    ghost function Mine(): seq<byte>
      requires Valid()
      reads this
    {
      Contents(m, Chain())
    }

    /** The other threads' turn. */
    method Others(ghost base: Mail)
      requires Valid() && Quiet(base, mail, me, calm)
      modifies `m, `mail
      ensures Valid() && Untouched(old(m), m, me) && Mine() == old(Mine()) && Quiet(base, mail, me, calm)
      ensures old(Building(m, me)) ==> Building(m, me) && Filled(m, Chain()) == old(Filled(m, Chain()))
      ensures calm ==> m == old(m) && mail == old(mail)
    {
      ghost var was := m;
      assert At(m, With(me)) == m.held[me].chain;
      forall b | b in m.held[me].chain ensures SameBuffer(m, m, b) { assert Marked(m, b, With(me)); }
      if !calm {
        var turns: int := *;
        while turns > 0
          invariant Valid() && Untouched(was, m, me) && Silent(base, mail, me)
        {
          turns := turns - 1;
          var move: Move := *;
          if move.thread != me && Enabled(m, move) {
            OthersLeaveMine(m, move, me);
            StepKeeps(m, move);
            UntouchedChains(was, m, Apply(m, move), me);
            ghost var before := mail;
            Tell(move);
            SilentTwice(base, before, mail, me);
            m := Apply(m, move);
          }
        }
      }
      OthersKeepBuilding(was, m, me);
    }

    /** payload_alloc: a buffer, if one is free. */
    method Alloc(ghost base: Mail) returns (ok: bool)
      requires Valid() && Building(m, me) && (Chain() != [] ==> Filled(m, Chain()) == m.size)
      requires Quiet(base, mail, me, calm)
      modifies `m, `mail
      ensures Valid() && Building(m, me) && Alongside(old(m), m, me, calm)
      ensures Quiet(base, mail, me, calm) && Mine() == old(Mine())
      ensures !ok ==> Chain() == old(Chain()) && Filled(m, Chain()) == old(Filled(m, Chain()))
      ensures ok ==> |Chain()| == |old(Chain())| + 1 && Filled(m, Chain()) == 0
      ensures calm ==>
                && (ok <==> old(m.free) != [])
                && |m.free| + |Chain()| == old(|m.free| + |Chain()|)
                && m.queues == old(m.queues)
    {
      Others(base);
      ok := m.free != [];
      if ok { TakeNow(base); }
    }

    method TakeNow(ghost base: Mail)
      requires Valid() && Building(m, me) && m.free != []
      requires (Chain() != [] ==> Filled(m, Chain()) == m.size) && Quiet(base, mail, me, calm)
      modifies `m, `mail
      ensures Valid() && Building(m, me) && Alongside(old(m), m, me, calm)
      ensures Quiet(base, mail, me, calm) && Mine() == old(Mine())
      ensures |Chain()| == |old(Chain())| + 1 && Filled(m, Chain()) == 0
      ensures |m.free| == |old(m.free)| - 1 && m.queues == old(m.queues)
    {
      TakeBuilds(m, me);
      Tell(Take(me));
      m := TakeStep(m, me);
    }

    /** net_buf_add_mem: as much as the last buffer has room for. */
    method AddMem(data: seq<byte>, ghost base: Mail) returns (count: nat)
      requires Valid() && Building(m, me) && Chain() != [] && Quiet(base, mail, me, calm)
      modifies `m, `mail
      ensures Valid() && Building(m, me) && Alongside(old(m), m, me, calm)
      ensures Quiet(base, mail, me, calm) && Chain() == old(Chain())
      ensures count <= |data| && Mine() == old(Mine()) + data[..count]
      ensures count < |data| ==> Filled(m, Chain()) == m.size
      ensures count == 0 ==> data == [] || old(Filled(m, Chain())) == m.size
      ensures m.queues == old(m.queues) && m.free == old(m.free)
    {
      var room := m.size - Filled(m, Chain());
      count := if |data| < room then |data| else room;
      AppendBuilds(m, me, data[..count]);
      Tell(Append(me, data[..count]));
      m := AppendStep(m, me, data[..count]);
    }

    /** One more buffer, filled as far as the data goes; nothing if there is none. */
    method AddBuffer(data: seq<byte>, ghost base: Mail) returns (count: nat)
      requires Valid() && Building(m, me) && Chain() != []
      requires Filled(m, Chain()) == m.size && data != [] && Quiet(base, mail, me, calm)
      modifies `m, `mail
      ensures Valid() && Building(m, me) && Chain() != []
      ensures Alongside(old(m), m, me, calm) && Quiet(base, mail, me, calm)
      ensures count <= |data| && Mine() == old(Mine()) + data[..count]
      ensures count < |data| ==> Filled(m, Chain()) == m.size
      ensures calm ==> Balanced(old(m), m, me)
      ensures calm && count == 0 ==> m.free == []
    {
      var ok := Alloc(base);
      if !ok { return 0; }
      count := AddMem(data, base);
    }

    /** net_buf_append_bytes on the payload in hand; it stops short when no buffer is to be had. */
    method AppendBytes(data: seq<byte>, ghost base: Mail) returns (added: nat)
      requires Valid() && Building(m, me) && Chain() != [] && Quiet(base, mail, me, calm)
      modifies `m, `mail
      ensures Valid() && Building(m, me) && Chain() != []
      ensures Alongside(old(m), m, me, calm) && Quiet(base, mail, me, calm)
      ensures added <= |data| && Mine() == old(Mine()) + data[..added]
      ensures added < |data| ==> Filled(m, Chain()) == m.size
      ensures calm ==> Balanced(old(m), m, me)
      ensures calm && added < |data| ==> m.free == []
    {
      added := AddMem(data, base);
      ghost var before := old(Mine());
      while added < |data|
        invariant Valid() && Building(m, me) && Chain() != []
        invariant Alongside(old(m), m, me, calm) && Quiet(base, mail, me, calm)
        invariant added <= |data| && Mine() == before + data[..added]
        invariant added < |data| ==> Filled(m, Chain()) == m.size
        invariant calm ==> Balanced(old(m), m, me)
      {
        var count := AddBuffer(data[added..], base);
        if count == 0 { return; }
        Pieces(before, data, added, count);
        added := added + count;
      }
    }

    /** The two parts of a payload, into the buffer in hand and as many more as it takes. */
    method AppendBoth(data: seq<byte>, auxiliary: seq<byte>, ghost base: Mail) returns (ok: bool)
      requires Valid() && Building(m, me) && |Chain()| == 1 && Mine() == [] && Quiet(base, mail, me, calm)
      modifies `m, `mail
      ensures Valid() && Building(m, me) && Chain() != []
      ensures Alongside(old(m), m, me, calm) && Quiet(base, mail, me, calm)
      ensures ok ==> Mine() == data + auxiliary
      ensures !ok ==> |Mine()| < |data| + |auxiliary| && Filled(m, Chain()) == m.size
      ensures calm ==> Balanced(old(m), m, me)
      ensures calm && !ok ==> m.free == []
    {
      var added := AppendBytes(data, base);
      assert Mine() == data[..added];
      if added < |data| { return false; }
      var more := AppendBytes(auxiliary, base);
      ok := more == |auxiliary|;
    }

    /** payload_create: all of the data and then all of the auxiliary data, or nothing at all. */
    method PayloadCreate(data: seq<byte>, auxiliary: seq<byte>, ghost base: Mail) returns (rc: int)
      requires Valid() && m.held[me] == NOTHING && Quiet(base, mail, me, calm)
      modifies `m, `mail
      ensures Valid() && Alongside(old(m), m, me, calm) && Quiet(base, mail, me, calm) && m.held[me].wiped == 0
      ensures rc == EMSGSIZE <==> |data| + |auxiliary| > Capacity(|m.raw|, m.size)
      ensures rc in {OK, EMSGSIZE, ENOMEM}
      ensures rc == OK ==> Mine() == data + auxiliary && (Chain() == [] <==> data + auxiliary == [])
      ensures rc != OK ==> m.held[me] == NOTHING
      ensures calm ==> m.queues == old(m.queues) && |m.free| + |Chain()| == |old(m.free)|
      ensures calm ==> (rc == OK <==> |data| + |auxiliary| <= Capacity(|old(m.free)|, m.size))
    {
      FreeFits();
      if |data| + |auxiliary| > Capacity(|m.raw|, m.size) { return EMSGSIZE; }
      if |data| + |auxiliary| == 0 { return OK; }
      rc := Fill(data, auxiliary, base);
    }

    /** A nonempty payload: a first buffer, and the rest. */
    method Fill(data: seq<byte>, auxiliary: seq<byte>, ghost base: Mail) returns (rc: int)
      requires Valid() && m.held[me] == NOTHING && data + auxiliary != [] && Quiet(base, mail, me, calm)
      modifies `m, `mail
      ensures Valid() && Alongside(old(m), m, me, calm) && Quiet(base, mail, me, calm) && m.held[me].wiped == 0
      ensures rc in {OK, ENOMEM}
      ensures if rc == OK then Mine() == data + auxiliary && Chain() != [] else m.held[me] == NOTHING
      ensures calm ==> m.queues == old(m.queues) && |m.free| + |Chain()| == |old(m.free)|
      ensures calm ==> (rc == OK <==> |data| + |auxiliary| <= Capacity(|old(m.free)|, m.size))
    {
      var ok := Alloc(base);
      if !ok { return ENOMEM; }
      rc := Complete(data, auxiliary, base);
      if calm { CapacityGrows(|Chain()|, |old(m.free)|, m.size); }
    }

    /** The rest of it, once there is a first buffer. */
    method Complete(data: seq<byte>, auxiliary: seq<byte>, ghost base: Mail) returns (rc: int)
      requires Valid() && Building(m, me) && |Chain()| == 1 && Mine() == [] && Quiet(base, mail, me, calm)
      modifies `m, `mail
      ensures Valid() && Alongside(old(m), m, me, calm) && Quiet(base, mail, me, calm) && m.held[me].wiped == 0
      ensures rc in {OK, ENOMEM}
      ensures rc == OK ==> Mine() == data + auxiliary && Chain() != [] && |Mine()| <= Capacity(|Chain()|, m.size)
      ensures rc != OK ==> m.held[me] == NOTHING
      ensures calm ==> m.queues == old(m.queues) && |m.free| + |Chain()| == |old(m.free)| + 1
      ensures calm && rc != OK ==> |data| + |auxiliary| > Capacity(|old(m.free)| + 1, m.size)
    {
      var ok := AppendBoth(data, auxiliary, base);
      Held();
      if ok { return OK; }
      PayloadRelease(base);
      rc := ENOMEM;
    }

    /** app_payload_release: wiped buffer by buffer, then given back. */
    method PayloadRelease(ghost base: Mail)
      requires Valid() && m.held[me].wiped == 0 && Quiet(base, mail, me, calm)
      modifies `m, `mail
      ensures Valid() && Alongside(old(m), m, me, calm) && Quiet(base, mail, me, calm) && m.held[me] == NOTHING
      ensures calm ==> m.queues == old(m.queues) && m.free == old(m.free) + old(Chain())
    {
      var i := 0;
      while i < |Chain()|
        invariant Valid() && Alongside(old(m), m, me, calm) && Quiet(base, mail, me, calm)
        invariant Chain() == old(Chain()) && m.held[me].wiped == i <= |Chain()|
        invariant calm ==> m.queues == old(m.queues) && m.free == old(m.free)
      {
        Others(base);
        WipeOne(base);
        i := i + 1;
      }
      Others(base);
      GiveBackAll(base);
    }

    method WipeOne(ghost base: Mail)
      requires Valid() && m.held[me].wiped < |Chain()| && Quiet(base, mail, me, calm)
      modifies `m, `mail
      ensures Valid() && Alongside(old(m), m, me, calm) && Quiet(base, mail, me, calm)
      ensures Chain() == old(Chain()) && m.held[me].wiped == old(m.held[me].wiped) + 1
      ensures m.queues == old(m.queues) && m.free == old(m.free)
    {
      CanWipe(m, me);
      WipeKeeps(m, me);
      Tell(Wipe(me));
      m := WipeStep(m, me);
    }

    method GiveBackAll(ghost base: Mail)
      requires Valid() && m.held[me].wiped == |Chain()| && Quiet(base, mail, me, calm)
      modifies `m, `mail
      ensures Valid() && Alongside(old(m), m, me, calm) && Quiet(base, mail, me, calm) && m.held[me] == NOTHING
      ensures m.queues == old(m.queues) && m.free == old(m.free) + old(Chain())
    {
      CanGiveBack(m, me);
      GiveBackKeeps(m, me);
      Tell(GiveBack(me));
      m := GiveBackStep(m, me);
    }

    /** queue_put: the message with the payload in hand, or the payload released. */
    method QueuePut(q: nat, header: Header, ghost base: Mail) returns (rc: int)
      requires Valid() && q < |m.queues| && m.held[me].wiped == 0 && Quiet(base, mail, me, calm)
      modifies `m, `mail
      ensures Valid() && Alongside(old(m), m, me, calm) && m.held[me] == NOTHING
      ensures rc in {OK, EAGAIN}
      ensures if rc == OK then PostedOne(base, mail, q, Letter(header, old(Mine())), me, calm)
              else Quiet(base, mail, me, calm)
      ensures calm ==> (rc == OK <==> |old(m.queues)[q].messages| < 4)
      ensures calm && rc == OK ==>
                m.free == old(m.free) && m.queues == Lengthened(old(m.queues), q, Message(header, old(Chain())))
      ensures calm && rc != OK ==> m.queues == old(m.queues) && m.free == old(m.free) + old(Chain())
    {
      Others(base);
      if |m.queues[q].messages| < DEPTH {
        PutNow(q, header, base);
        return OK;
      }
      PayloadRelease(base);
      rc := EAGAIN;
    }

    method PutNow(q: nat, header: Header, ghost base: Mail)
      requires Valid() && q < |m.queues| && |m.queues[q].messages| < 4
      requires m.held[me].wiped == 0 && Quiet(base, mail, me, calm)
      modifies `m, `mail
      ensures Valid() && Alongside(old(m), m, me, calm) && m.held[me] == NOTHING && m.free == old(m.free)
      ensures PostedOne(base, mail, q, Letter(header, old(Mine())), me, calm)
      ensures m.queues == Lengthened(old(m.queues), q, Message(header, old(Chain())))
    {
      PutKeeps(m, me, q, header);
      PutPosts(mail, me, q, header);
      assert mail.held[me] == InHand(m, m.held[me]);
      Tell(Put(me, q, header));
      m := PutStep(m, me, q, header);
      QuietThenPosted(base, old(mail), mail, q, Letter(header, old(Mine())), me, calm);
    }

    /** The submit functions: create the payload and queue it; nothing stays in hand either way. */
    method Submit(q: nat, header: Header, data: seq<byte>, auxiliary: seq<byte>) returns (rc: int)
      requires Valid() && q < |m.queues| && m.held[me] == NOTHING
      modifies `m, `mail
      ensures Valid() && Alongside(old(m), m, me, calm) && m.held[me] == NOTHING
      ensures rc in {OK, EMSGSIZE, ENOMEM, EAGAIN}
      ensures rc == EMSGSIZE <==> |data| + |auxiliary| > Capacity(|m.raw|, m.size)
      ensures if rc == OK then PostedOne(old(mail), mail, q, Letter(header, data + auxiliary), me, calm)
              else Quiet(old(mail), mail, me, calm)
      ensures calm ==> (rc == OK <==>
                          |data| + |auxiliary| <= Capacity(|old(m.free)|, m.size) && |old(m.queues)[q].messages| < 4)
      ensures calm && rc == OK ==>
                exists chain :: m.queues == Lengthened(old(m.queues), q, Message(header, chain))
                                && |m.free| + |chain| == |old(m.free)|
      ensures calm && rc != OK ==> m.queues == old(m.queues) && |m.free| == |old(m.free)|
    {
      rc := PayloadCreate(data, auxiliary, old(mail));
      if rc < 0 {
        return;
      }
      ghost var message := Message(header, Chain());
      rc := QueuePut(q, header, old(mail));
      assert calm && rc == OK ==>
          && m.queues == Lengthened(old(m.queues), q, message)
          && |m.free| + |message.chain| == |old(m.free)|;
    }

    /** app_core_submit_local. */
    method SubmitLocal(kind: LocalKind, value: word, data: seq<byte>, auxiliary: seq<byte>) returns (rc: int)
      requires Valid() && |m.queues| > 0 && m.held[me] == NOTHING
      modifies `m, `mail
      ensures Valid() && Alongside(old(m), m, me, calm) && m.held[me] == NOTHING
      ensures rc == ENOTSUP <==> !coreReady
      ensures if rc == OK then PostedOne(old(mail), mail, 0, LocalLetter(kind, value, data, auxiliary), me, calm)
              else Quiet(old(mail), mail, me, calm)
      ensures calm ==> (rc == OK <==> coreReady && |data| + |auxiliary| <= Capacity(|old(m.free)|, m.size)
                                      && |old(m.queues)[0].messages| < 4)
      ensures calm && rc == OK ==>
                exists chain :: m.queues == Lengthened(old(m.queues), 0, Message(Local(kind, value, |data|), chain))
                                && |m.free| + |chain| == |old(m.free)|
      ensures calm && rc != OK ==> m.queues == old(m.queues) && |m.free| == |old(m.free)|
    {
      if !coreReady { return ENOTSUP; }
      rc := Submit(0, Local(kind, value, |data|), data, auxiliary);
    }

    /** app_core_submit_fido. */
    method SubmitFido(kind: FidoKind, requestId: word, value: word, data: seq<byte>, auxiliary: seq<byte>)
      returns (rc: int)
      requires Valid() && |m.queues| > 0 && m.held[me] == NOTHING
      modifies `m, `mail
      ensures Valid() && Alongside(old(m), m, me, calm) && m.held[me] == NOTHING
      ensures rc == ENOTSUP <==> !coreReady
      ensures if rc == OK
              then PostedOne(old(mail), mail, 0, Letter(Fido(kind, requestId, value, |data|), data + auxiliary), me, calm)
              else Quiet(old(mail), mail, me, calm)
      ensures calm ==> (rc == OK <==> coreReady && |data| + |auxiliary| <= Capacity(|old(m.free)|, m.size)
                                      && |old(m.queues)[0].messages| < 4)
    {
      if !coreReady { return ENOTSUP; }
      rc := Submit(0, Fido(kind, requestId, value, |data|), data, auxiliary);
    }

    /** app_core_submit_protocol. */
    method SubmitProtocol(route: Route, data: seq<byte>) returns (rc: int)
      requires Valid() && |m.queues| > 0 && m.held[me] == NOTHING
      modifies `m, `mail
      ensures Valid() && Alongside(old(m), m, me, calm) && m.held[me] == NOTHING
      ensures rc == ENOTSUP <==> !coreReady
      ensures if rc == OK then PostedOne(old(mail), mail, 0, Letter(Protocol(route), data), me, calm)
              else Quiet(old(mail), mail, me, calm)
      ensures calm ==> (rc == OK <==> coreReady && |data| <= Capacity(|old(m.free)|, m.size)
                                      && |old(m.queues)[0].messages| < 4)
    {
      if !coreReady { return ENOTSUP; }
      assert data + [] == data;
      rc := Submit(0, Protocol(route), data, []);
    }

    /** app_core_submit_confirmation: an id of zero is refused, and there is no payload. */
    method SubmitConfirmation(id: word, choice: nat) returns (rc: int)
      requires Valid() && |m.queues| > 0 && m.held[me] == NOTHING
      modifies `m, `mail
      ensures Valid() && Alongside(old(m), m, me, calm) && m.held[me] == NOTHING
      ensures (rc == ENOTSUP <==> !coreReady) && (rc == EINVAL <==> coreReady && id == 0)
      ensures if rc == OK then PostedOne(old(mail), mail, 0, Letter(Header.Confirm(id, choice), []), me, calm)
              else Quiet(old(mail), mail, me, calm)
      ensures calm ==> (rc == OK <==> coreReady && id != 0 && |old(m.queues)[0].messages| < 4)
    {
      if !coreReady { return ENOTSUP; }
      if id == 0 { return EINVAL; }
      rc := QueuePut(0, Header.Confirm(id, choice), old(mail));
    }

    /** queue_get, the message's payload into this thread's hands. */
    method QueueGet(q: nat) returns (rc: int, header: Header, ghost at: nat)
      requires Valid() && q < |m.queues| && m.held[me] == NOTHING
      modifies `m, `mail
      ensures Valid() && Alongside(old(m), m, me, calm) && m.held[me].wiped == 0
      ensures rc in {OK, EAGAIN}
      ensures rc != OK ==> m.held[me] == NOTHING && Quiet(old(mail), mail, me, calm)
      ensures rc == OK ==> FetchedOne(old(mail), mail, q, at, Letter(header, Mine()), me)
      ensures calm && rc == OK ==> at == old(mail.boxes[q].fetched) && mail.boxes[q].posted == old(mail.boxes[q].posted)
      ensures calm ==> (rc == OK <==> old(m.queues[q].messages) != [])
      ensures calm && rc == OK ==>
                && header == old(m.queues[q].messages)[0].header
                && Mine() == old(Contents(m, m.queues[q].messages[0].chain))
                && Chain() == old(m.queues[q].messages)[0].chain
                && m.queues[q].messages == old(m.queues[q].messages)[1..] && m.free == old(m.free)
    {
      Others(old(mail));
      header, at := Header.Confirm(0, 0), 0;
      if m.queues[q].messages == [] { return EAGAIN, header, at; }
      ghost var before := mail;
      header, at := GetNow(q);
      QuietThenFetched(old(mail), before, mail, q, at, Letter(header, Mine()), me);
      rc := OK;
    }

    method GetNow(q: nat) returns (header: Header, ghost at: nat)
      requires Valid() && q < |m.queues| && m.queues[q].messages != [] && m.held[me] == NOTHING
      modifies `m, `mail
      ensures Valid() && Alongside(old(m), m, me, calm) && m.held[me].wiped == 0 && m.free == old(m.free)
      ensures at == old(mail.boxes[q].fetched) && FetchedOne(old(mail), mail, q, at, Letter(header, Mine()), me)
      ensures mail.boxes[q].posted == old(mail.boxes[q].posted)
      ensures header == old(m.queues[q].messages)[0].header && Chain() == old(m.queues[q].messages)[0].chain
      ensures Mine() == old(Contents(m, m.queues[q].messages[0].chain))
      ensures m.queues[q].messages == old(m.queues[q].messages)[1..]
    {
      header, at := m.queues[q].messages[0].header, mail.boxes[q].fetched;
      SameBytes(m, GetStep(m, me, q));
      GetKeeps(m, me, q);
      assert Carries(m, q, mail.boxes[q]);
      GetFetches(mail, me, q);
      Tell(Get(me, q));
      m := GetStep(m, me, q);
    }

    /** app_payload_slices: one slice a buffer, or none when they do not fit. */
    method Slices(capacity: nat) returns (slices: seq<Slice>)
      requires Valid()
      ensures |Chain()| <= capacity ==> |slices| == |Chain()| && Joined(slices) == Mine()
      ensures |Chain()| > capacity ==> slices == []
      ensures forall s :: s in slices ==> Readable(s)
    {
      slices := [];
      var chain := Chain();
      if capacity == 0 { return; }
      assert chain[..0] == [];
      for i := 0 to |chain|
        invariant i <= capacity && |slices| == i && Joined(slices) == Contents(m, chain[..i])
        invariant forall s :: s in slices ==> Readable(s)
      {
        if i == capacity { return []; }
        assert chain[..i + 1][..i] == chain[..i];
        ghost var before := slices;
        slices := slices + [Slice(false, BytesOf(m, chain[i]))];
        assert slices[..i] == before;
      }
      assert chain[..|chain|] == chain;
    }

    /** app_core_command_get, the slices of the payload, and its release: a command with its fragments. */
    method NextCommand() returns (next: Option<(Header, seq<Slice>)>, ghost at: nat)
      requires Valid() && |m.queues| > 0 && m.held[me] == NOTHING
      modifies `m, `mail
      ensures Valid() && SameShape(old(m), m) && m.held[me] == NOTHING
      ensures next.None? ==> Quiet(old(mail), mail, me, calm)
      ensures next.Some? ==> FetchedOne(old(mail), mail, 0, at, Letter(next.value.0, Joined(next.value.1)), me)
      ensures next.Some? ==> forall s :: s in next.value.1 ==> Readable(s)
      ensures calm ==> (next.None? <==> old(m.queues[0].messages) == [])
      ensures calm && next.Some? ==>
                && at == old(mail.boxes[0].fetched) && mail.boxes[0].posted == old(mail.boxes[0].posted)
                && m.free == old(m.free) + old(m.queues[0].messages)[0].chain
                && m.queues[0].messages == old(m.queues[0].messages)[1..]
    {
      var rc, header;
      rc, header, at := QueueGet(0);
      if rc < 0 { return None, at; }
      ChainFits(m, With(me));
      var slices := Slices(|m.raw|);
      if Chain() != [] && |slices| == 0 {
        // "Invalid core command payload" is never reported: the slices always fit.
        assert false;
      }
      ghost var fetched := mail;
      PayloadRelease(fetched);
      WaitingLetters(m, mail, 0);
      StaysFetched(old(mail), fetched, mail, 0, at, Letter(header, Joined(slices)), me);
      next := Some((header, slices));
    }

    /** What is held fits the chain that holds it, and fills it once the last buffer is full. */
    lemma Held()
      requires Valid() && Building(m, me) && Chain() != []
      ensures |Mine()| <= Capacity(|Chain()|, m.size)
      ensures Filled(m, Chain()) == m.size ==> |Mine()| == Capacity(|Chain()|, m.size)
    {
    }

    /** The free buffers are no more than the pool has. */
    lemma FreeFits()
      requires Valid()
      ensures Capacity(|m.free|, m.size) <= Capacity(|m.raw|, m.size)
    {
      assert At(m, Free) == m.free;
      ChainFits(m, Free);
      CapacityGrows(|m.free|, |m.raw|, m.size);
    }
  }
}
