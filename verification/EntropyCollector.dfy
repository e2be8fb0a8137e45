/**
 The entropy collector's state machine, after src/entropy/entropy.c: selected sources are captured one
 after another in bit order, each into its own hash, and the finished session is read out as a transcript.
 Every public operation runs under the collector's lock. The framework's rules are: the leaf state sees an
 event first and may pass it to its parent; a transition runs the old leaf's exit before the new leaf's entry.
 */
module EntropyCollector {
  import opened Bytes
  import opened EntropyTranscript

  const EIO := -5
  const EAGAIN := -11
  const EBUSY := -16
  const EINVAL := -22
  const ENOSPC := -28
  const ECANCELED := -140

  function Ascii(s: string): seq<byte> {
    seq(|s|, i requires 0 <= i < |s| => s[i] as int % 256)
  }

  const DOMAIN: seq<byte> := Ascii("OSKEY/ENTROPY-SOURCE/V1")

  function Target(s: Source): nat {
    match s
    case Touch => 64
    case Imu => 256
    case Camera => 8
    case Microphone => 48000
    case _ => 0
  }

  /** entropy_progress: thousandths of the target, nothing for what is not a source. */
  function Progress(s: Source, units: word): nat {
    if Target(s) == 0 then 0 else Min(units, Target(s)) * 1000 / Target(s)
  }

  function Min(a: nat, b: nat): nat { if a <= b then a else b }

  /** Progress is full exactly when the target is reached. */
  lemma ProgressFull(s: Source, units: word)
    requires IsAuxiliary(s)
    ensures Progress(s, units) <= 1000
    ensures Progress(s, units) == 1000 <==> units >= Target(s)
  {
  }

  // ------------------------------------------------------ what a digest stands for

  datatype Feed = Feed(durationMs: word, units: word, data: seq<byte>)

  /** A source's capture: the batches it was given. */
  datatype Capture = Capture(source: Source, feeds: seq<Feed>)

  /** The eight bytes hashed before a batch. */
  function Metadata(f: Feed): seq<byte> {
    Le32(f.durationMs) + Le32(f.units)
  }

  function Opening(s: Source): seq<byte> {
    DOMAIN + [VERSION, Bit(s)]
  }

  /** What is hashed: domain, version and source, then every batch with its time and count. */
  function Message(c: Capture): seq<byte>
    decreases |c.feeds|
  {
    if c.feeds == [] then Opening(c.source)
    else
      var last := c.feeds[|c.feeds| - 1];
      Message(c.(feeds := c.feeds[..|c.feeds| - 1])) + Metadata(last) + last.data
  }

  /** Where the k-th batch stands in the message: after 25 bytes and the batches before it. */
  function Place(feeds: seq<Feed>, k: nat): nat
    requires k <= |feeds|
  {
    if k == 0 then 25 else Place(feeds, k - 1) + 8 + |feeds[k - 1].data|
  }

  /** The batch stands at its place in the message: duration, units, then exactly its data. */
  predicate BatchAt(m: seq<byte>, at: nat, f: Feed) {
    && at + 8 + |f.data| <= |m|
    && FromLe32(m[at..at + 4]) == f.durationMs && FromLe32(m[at + 4..at + 8]) == f.units
    && m[at + 8..at + 8 + |f.data|] == f.data
  }

  /** What is hashed can be read: the domain, version 1 and the source's bit, then batch after batch. */
  lemma {:induction false} MessageReads(c: Capture)
    ensures OpeningReads(Message(c), c.source) && AllAt(Message(c), c.feeds)
    decreases |c.feeds|
  {
    if c.feeds == [] {
      OpeningIs(c.source);
    } else {
      var before, last := c.(feeds := c.feeds[..|c.feeds| - 1]), c.feeds[|c.feeds| - 1];
      MessageReads(before);
      assert Message(c) == Message(before) + (Metadata(last) + last.data);
      OpeningStays(Message(before), Metadata(last) + last.data, c.source);
      BatchesRead(c.feeds, Message(before));
    }
  }

  /** The k-th batch stands at its place. */
  predicate Stands(m: seq<byte>, feeds: seq<Feed>, k: nat)
    requires k < |feeds|
  {
    BatchAt(m, Place(feeds, k), feeds[k])
  }

  /** Every batch does, and the message ends with the last. */
  predicate AllAt(m: seq<byte>, feeds: seq<Feed>) {
    |m| == Place(feeds, |feeds|) && forall k :: 0 <= k < |feeds| ==> Stands(m, feeds, k)
  }

  /** One batch more leaves those before it where they are. */
  lemma BatchesRead(feeds: seq<Feed>, m: seq<byte>)
    requires feeds != [] && AllAt(m, feeds[..|feeds| - 1])
    ensures AllAt(m + (Metadata(feeds[|feeds| - 1]) + feeds[|feeds| - 1].data), feeds)
  {
    var n := |feeds| - 1;
    var more := Metadata(feeds[n]) + feeds[n].data;
    PlacesAgree(feeds, n, n);
    BatchEnds(m, feeds[n]);
    forall k | 0 <= k < |feeds| ensures Stands(m + more, feeds, k) {
      if k < n {
        assert Stands(m, feeds[..n], k);
        StandsOn(m, more, feeds, k);
      }
    }
  }

  lemma StandsOn(m: seq<byte>, more: seq<byte>, feeds: seq<Feed>, k: nat)
    requires k < |feeds| - 1 && Stands(m, feeds[..|feeds| - 1], k)
    ensures Stands(m + more, feeds, k)
  {
    PlacesAgree(feeds, |feeds| - 1, k);
    BatchStays(m, more, Place(feeds, k), feeds[k]);
  }

  lemma OpeningIs(s: Source)
    ensures OpeningReads(Opening(s), s) && |Opening(s)| == 25
  {
    assert |DOMAIN| == 23;
  }

  lemma OpeningStays(m: seq<byte>, more: seq<byte>, s: Source)
    requires OpeningReads(m, s)
    ensures OpeningReads(m + more, s)
  {
  }

  /** The message opens with the domain, version 1 and the source's bit. */
  predicate OpeningReads(m: seq<byte>, source: Source) {
    var domain := "OSKEY/ENTROPY-SOURCE/V1";
    && |m| >= 25 && (forall i :: 0 <= i < 23 ==> m[i] == domain[i] as int) && m[23] == 1
    && m[24] == match source case NoSource => 0 case HardwareRng => 1 case Touch => 2 case Imu => 4
                             case Camera => 8 case Microphone => 16
  }

  lemma BatchEnds(m: seq<byte>, f: Feed)
    ensures BatchAt(m + (Metadata(f) + f.data), |m|, f)
  {
    var all, at := m + (Metadata(f) + f.data), |m|;
    assert all[at..at + 4] == Le32(f.durationMs) && all[at + 4..at + 8] == Le32(f.units);
    Le32RoundTrip(f.durationMs);
    Le32RoundTrip(f.units);
  }

  lemma {:induction false} PlacesAgree(feeds: seq<Feed>, n: nat, k: nat)
    requires k <= n <= |feeds|
    ensures Place(feeds, k) == Place(feeds[..n], k)
  {
    if k > 0 {
      PlacesAgree(feeds, n, k - 1);
    }
  }

  lemma BatchStays(m: seq<byte>, more: seq<byte>, at: nat, f: Feed)
    requires BatchAt(m, at, f)
    ensures BatchAt(m + more, at, f)
  {
    var all := m + more;
    assert all[at..at + 4] == m[at..at + 4] && all[at + 4..at + 8] == m[at + 4..at + 8];
    assert all[at + 8..at + 8 + |f.data|] == m[at + 8..at + 8 + |f.data|];
  }

  /** Captures whose batches are as long hash the same message only when they are the same. */
  lemma {:induction false} MessagesDiffer(c: Capture, d: Capture)
    requires |c.feeds| == |d.feeds| && forall k :: 0 <= k < |c.feeds| ==> |c.feeds[k].data| == |d.feeds[k].data|
    requires Message(c) == Message(d)
    ensures c == d
  {
    MessageReads(c);
    MessageReads(d);
    SameOpening(Message(c), c.source, d.source);
    forall k | 0 <= k < |c.feeds| ensures c.feeds[k] == d.feeds[k] {
      SamePlaces(c.feeds, d.feeds, k);
      assert Stands(Message(c), c.feeds, k) && Stands(Message(d), d.feeds, k);
      SameBatch(Message(c), Place(c.feeds, k), c.feeds[k], d.feeds[k]);
    }
  }

  lemma SameOpening(m: seq<byte>, s: Source, t: Source)
    requires OpeningReads(m, s) && OpeningReads(m, t)
    ensures s == t
  {
  }

  lemma SameBatch(m: seq<byte>, at: nat, f: Feed, g: Feed)
    requires BatchAt(m, at, f) && BatchAt(m, at, g) && |f.data| == |g.data|
    ensures f == g
  {
  }

  lemma {:induction false} SamePlaces(a: seq<Feed>, b: seq<Feed>, k: nat)
    requires |a| == |b| && k <= |a| && forall i :: 0 <= i < |a| ==> |a[i].data| == |b[i].data|
    ensures Place(a, k) == Place(b, k)
  {
    if k > 0 {
      SamePlaces(a, b, k - 1);
    }
  }

  /** The milliseconds since a start, kept in 32 bits. */
  function Elapsed(nowMs: int, startedMs: int): word {
    (nowMs - startedMs) % 0x1_0000_0000
  }

  /** Addition as a 32-bit counter does it. */
  function Add32(a: word, b: word): word {
    if a + b < 0x1_0000_0000 then a + b else a + b - 0x1_0000_0000
  }

  function TotalUnits(feeds: seq<Feed>): word {
    if feeds == [] then 0
    else Add32(TotalUnits(feeds[..|feeds| - 1]), feeds[|feeds| - 1].units)
  }

  /** The record a finished capture deserves. */
  function RecordOf(c: Capture, sha256: seq<byte> -> seq<byte>): Record
    requires c.feeds != []
  {
    Record(c.source, TotalUnits(c.feeds), c.feeds[|c.feeds| - 1].durationMs, sha256(Message(c)))
  }

  /** The session's captures: the one under way, and the finished ones in order. */
  datatype Story = Story(open: Capture, done: seq<Capture>)

  function Extended(s: Story, batch: Feed): Story {
    s.(open := s.open.(feeds := s.open.feeds + [batch]))
  }

  /** A record wiped. */
  const BLANK := Record(NoSource, 0, 0, [])

  const UNTOLD := Story(Capture(NoSource, []), [])

  // -------------------------------------------------------------------- the machine

  datatype Leaf = Idle | Capturing(source: Source) | SourceError | Ready

  datatype Event =
    | Begin(session: word)
    | FeedEvent(session: word, source: Source, data: seq<byte>, units: word)
    | FailEvent(session: word, source: Source, error: int)
    | Retry(session: word)
    | Skip(session: word)
    | Cancel(session: word)

  /** What the hash library, the devices and the clock do while one event is dispatched. A start that
      reports success did take effect; a stop of the IMU is published and may not be delivered. */
  datatype Env = Env(nowMs: int, setup: bool, domain: bool, header: bool, startError: int, started: bool,
                     metadata: bool, batch: bool, finish: bool, stopDelivered: bool)

  predicate Sound(env: Env) {
    env.startError == 0 ==> env.started
  }

  /** Which devices are running for the collector. */
  datatype Devices = Devices(imu: bool, microphone: bool)

  /** The stop of a source's device; only the IMU's may fail to arrive. */
  function Stopped(d: Devices, s: Source, env: Env): Devices {
    match s
    case Imu => d.(imu := d.imu && !env.stopDelivered)
    case Microphone => d.(microphone := false)
    case _ => d
  }

  function Started(d: Devices, s: Source, env: Env): Devices {
    match s
    case Imu => d.(imu := d.imu || env.started)
    case Microphone => d.(microphone := d.microphone || env.started)
    case _ => d
  }

  /** The hash of a source opens. */
  predicate HashOpens(env: Env) {
    env.setup && env.domain && env.header
  }

  /** Where an entry into a source ends. */
  function Landing(s: Source, env: Env): Leaf {
    if HashOpens(env) && (s == Touch || env.startError == 0) then Capturing(s) else SourceError
  }

  /** The devices after leaving a leaf: a capture's device is stopped. */
  function Left(d: Devices, leaf: Leaf, env: Env): Devices {
    if leaf.Capturing? then Stopped(d, leaf.source, env) else d
  }

  /** The devices after entering a source, which stops again what does not come up. */
  function Entered(d: Devices, s: Source, env: Env): Devices {
    var running := if HashOpens(env) && s != Touch then Started(d, s, env) else d;
    if Landing(s, env) == SourceError then Stopped(running, s, env) else running
  }

  /** The devices after moving on from a leaf to another source, or to none. */
  function Moved(d: Devices, leaf: Leaf, next: Source, env: Env): Devices {
    if next == NoSource then Left(d, leaf, env) else Entered(Left(d, leaf, env), next, env)
  }

  /** The microphone runs exactly in its own state, and the IMU at least in its own. */
  predicate DevicesAgree(d: Devices, leaf: Leaf) {
    && (d.microphone <==> leaf == Capturing(Microphone))
    && (leaf == Capturing(Imu) ==> d.imu)
  }

  /** The collector's context, with the story its records tell. */
  datatype Context = Context(leaf: Leaf, hash: Option<seq<byte>>, records: seq<Record>,
                             session: word, units: word, startedMs: int,
                             lastError: int, words: byte, selected: Bits, completed: Bits, skipped: Bits, current: Source,
                             devices: Devices, story: Story)
  {
    function Pending(): Bits {
      PendingOf(selected, completed, skipped)
    }

    /** What holds in each leaf state. */
    predicate LeafAgrees() {
      match leaf
      case Idle =>
        selected == completed == skipped == NO_BITS && current == NoSource && units == 0 && startedMs == 0 && hash == None
      case Capturing(s) =>
        && Frontier(selected, completed, skipped, s) && current == s
        && story.open.source == s && hash == Some(Message(story.open))
        && units == TotalUnits(story.open.feeds) && units < Target(s)
      case SourceError => Frontier(selected, completed, skipped, current) && units == 0 && startedMs == 0 && hash == None
      case Ready => Pending() == NO_BITS && current == NoSource && units == 0 && startedMs == 0 && hash == None
    }

    /** Pending sources, then the units the current one still lacks. */
    function Measure(): (nat, nat) {
      (Pending().Count(), if leaf.Capturing? && units < Target(leaf.source) then Target(leaf.source) - units else 0)
    }
  }

  /** The invariant of every reachable context. */
  ghost predicate Sane(c: Context, sha256: seq<byte> -> seq<byte>) {
    && BitmapsAgree(c.selected, c.completed, c.skipped)
    && Ledger(sha256, c.records, c.completed, c.story.done)
    && DevicesAgree(c.devices, c.leaf)
    && (c.leaf != Idle ==> c.selected.hardware && WordCount(c.words))
    && c.LeafAgrees()
  }

  function PendingOf(selected: Bits, completed: Bits, skipped: Bits): Bits {
    selected.Auxiliary().Minus(completed.Or(skipped))
  }

  /** `s` is the lowest pending bit, and no handled bit is at or above it. */
  predicate Frontier(selected: Bits, completed: Bits, skipped: Bits, s: Source) {
    var pending, handled := PendingOf(selected, completed, skipped), completed.Or(skipped);
    IsAuxiliary(s) && pending.Has(s) && pending.Below(s) == NO_BITS && handled.Below(s) == handled
  }

  /** In terms of sources: the current one is pending, before every other pending one and after every handled one. */
  lemma FrontierMeans(selected: Bits, completed: Bits, skipped: Bits, s: Source)
    ensures Frontier(selected, completed, skipped, s) <==>
            && IsAuxiliary(s) && PendingOf(selected, completed, skipped).Has(s)
            && (forall t :: PendingOf(selected, completed, skipped).Has(t) && t != s ==> Bit(s) < Bit(t))
            && (forall t :: completed.Has(t) || skipped.Has(t) ==> Bit(t) < Bit(s))
  {
    var pending := PendingOf(selected, completed, skipped);
    assert pending.Has(Touch) == pending.touch && pending.Has(Imu) == pending.imu
           && pending.Has(Camera) == pending.camera && pending.Has(Microphone) == pending.microphone;
    assert completed.Has(HardwareRng) == completed.hardware && completed.Has(Touch) == completed.touch
           && completed.Has(Imu) == completed.imu
           && completed.Has(Camera) == completed.camera && completed.Has(Microphone) == completed.microphone;
    assert skipped.Has(HardwareRng) == skipped.hardware && skipped.Has(Touch) == skipped.touch
           && skipped.Has(Imu) == skipped.imu
           && skipped.Has(Camera) == skipped.camera && skipped.Has(Microphone) == skipped.microphone;
  }

  /** Completed and skipped are disjoint and inside the selected auxiliary sources. */
  predicate BitmapsAgree(selected: Bits, completed: Bits, skipped: Bits) {
    && completed.And(skipped) == NO_BITS
    && completed.Or(skipped).Minus(selected.Auxiliary()) == NO_BITS
  }

  /** Every pending source lies above every handled one. */
  predicate Ordered(selected: Bits, completed: Bits, skipped: Bits) {
    forall s :: PendingOf(selected, completed, skipped).Has(s) ==> completed.Or(skipped).Below(s) == completed.Or(skipped)
  }

  /** Completing the current source keeps the bitmaps in order and leaves one pending source fewer. */
  lemma AdvanceCompleted(selected: Bits, completed: Bits, skipped: Bits, s: Source)
    requires Frontier(selected, completed, skipped, s) && BitmapsAgree(selected, completed, skipped)
    ensures BitmapsAgree(selected, completed.With(s), skipped) && Ordered(selected, completed.With(s), skipped)
    ensures PendingOf(selected, completed.With(s), skipped).Count() == PendingOf(selected, completed, skipped).Count() - 1
  {
    match s
    case Touch =>
    case Imu =>
    case _ =>
  }

  /** And so does skipping it. */
  lemma AdvanceSkipped(selected: Bits, completed: Bits, skipped: Bits, s: Source)
    requires Frontier(selected, completed, skipped, s) && BitmapsAgree(selected, completed, skipped)
    ensures BitmapsAgree(selected, completed, skipped.With(s)) && Ordered(selected, completed, skipped.With(s))
    ensures PendingOf(selected, completed, skipped.With(s)).Count() == PendingOf(selected, completed, skipped).Count() - 1
  {
    match s
    case Touch =>
    case Imu =>
    case _ =>
  }

  /** The bitmap of a list of finished captures. */
  function MaskOf(done: seq<Capture>): Bits {
    if done == [] then NO_BITS else MaskOf(done[..|done| - 1]).With(done[|done| - 1].source)
  }

  predicate InBitOrder(done: seq<Capture>) {
    forall i, j :: 0 <= i < j < |done| ==> Bit(done[i].source) < Bit(done[j].source)
  }

  /** A finished capture has reached its target, and this is the record it deserves. */
  predicate Finished(c: Capture, r: Record, sha256: seq<byte> -> seq<byte>) {
    IsAuxiliary(c.source) && c.feeds != [] && r == RecordOf(c, sha256) && TotalUnits(c.feeds) >= Target(c.source)
  }

  /** The records in use are those the finished captures deserve, one per completed source, in bit order. */
  ghost predicate Ledger(sha256: seq<byte> -> seq<byte>, records: seq<Record>, completed: Bits, done: seq<Capture>) {
    && |done| == completed.Count() <= |records| == 4
    && completed == MaskOf(done) && InBitOrder(done)
    && (forall i :: 0 <= i < |done| ==> Finished(done[i], records[i], sha256))
  }

  /** Filing the record of a finished capture whose source lies above every completed one. */
  lemma LedgerExtends(sha256: seq<byte> -> seq<byte>, records: seq<Record>, completed: Bits, done: seq<Capture>,
                      c: Capture)
    requires Ledger(sha256, records, completed, done) && c.feeds != []
    requires IsAuxiliary(c.source) && completed.Below(c.source) == completed && !completed.hardware
    requires TotalUnits(c.feeds) >= Target(c.source)
    ensures |done| < 4
    ensures Ledger(sha256, records[|done| := RecordOf(c, sha256)], completed.With(c.source), done + [c])
  {
    forall i | 0 <= i < |done| ensures Bit(done[i].source) < Bit(c.source) {
      MaskHas(done, i);
      assert completed.Below(c.source).Has(done[i].source);
    }
    assert (done + [c])[..|done|] == done;
  }

  lemma {:induction false} MaskHas(done: seq<Capture>, i: nat)
    requires i < |done|
    ensures done[i].source != NoSource ==> MaskOf(done).Has(done[i].source)
  {
    if i < |done| - 1 {
      MaskHas(done[..|done| - 1], i);
    }
  }

  lemma {:induction false} MaskHasOnly(done: seq<Capture>, s: Source)
    requires MaskOf(done).Has(s)
    ensures exists i :: 0 <= i < |done| && done[i].source == s
  {
    if done[|done| - 1].source != s {
      MaskHasOnly(done[..|done| - 1], s);
    }
  }

  /** A slot not yet in use may hold anything. */
  lemma LedgerIgnoresSpare(sha256: seq<byte> -> seq<byte>, records: seq<Record>, completed: Bits, done: seq<Capture>,
                           r: Record)
    requires Ledger(sha256, records, completed, done) && |done| < 4
    ensures Ledger(sha256, records[|done| := r], completed, done)
  {
  }

  /** Taking a batch extends the message and the count. */
  lemma TakeBatch(c: Capture, f: Feed)
    ensures Message(c.(feeds := c.feeds + [f])) == Message(c) + Metadata(f) + f.data
    ensures TotalUnits(c.feeds + [f]) == Add32(TotalUnits(c.feeds), f.units)
  {
  }

  predicate WordCount(words: byte) {
    words == 12 || words == 18 || words == 24
  }

  /** The same session, with what was chosen for it. */
  predicate SameSession(c: Context, d: Context) {
    c.session == d.session && c.words == d.words && c.selected == d.selected
  }

  predicate SameWork(c: Context, d: Context) {
    c.records == d.records && c.completed == d.completed && c.skipped == d.skipped
  }

  predicate Lexicographic(a: (nat, nat), b: (nat, nat)) {
    a.0 < b.0 || (a.0 == b.0 && a.1 < b.1)
  }

  class Collector {
    const sha256: seq<byte> -> seq<byte>
    var entropy: Context

    ghost predicate Valid()
      reads this
    {
      (forall m :: |sha256(m)| == 32) && Sane(entropy, sha256)
    }

    constructor (sha256: seq<byte> -> seq<byte>)
      requires forall m :: |sha256(m)| == 32
      ensures Valid() && this.sha256 == sha256
      ensures entropy.leaf == Idle && entropy.session == 0
      ensures entropy.devices == Devices(false, false) && entropy.story == UNTOLD
    {
      this.sha256 := sha256;
      entropy := Context(Idle, None, seq(4, i => BLANK), 0, 0, 0, 0, 0, NO_BITS, NO_BITS, NO_BITS, NoSource,
                         Devices(false, false), UNTOLD);
    }

    /** The first pending source in bit order. */
    method NextSource() returns (next: Source)
      ensures next == NoSource ==> entropy.Pending() == NO_BITS
      ensures next != NoSource ==>
                IsAuxiliary(next) && entropy.Pending().Has(next) && entropy.Pending().Below(next) == NO_BITS
    {
      var pending := entropy.Pending();
      var bit: nat := Bit(Touch);
      while bit <= Bit(Microphone)
        invariant bit in {2, 4, 8, 16, 32}
        invariant forall t :: pending.Has(t) ==> Bit(t) >= bit
      {
        var source := SourceFromByte(bit);
        if pending.Has(source) {
          assert pending.touch ==> pending.Has(Touch);
          assert pending.imu ==> pending.Has(Imu);
          assert pending.camera ==> pending.Has(Camera);
          return source;
        }
        bit := bit * 2;
      }
      assert !pending.Has(Touch) && !pending.Has(Imu) && !pending.Has(Camera) && !pending.Has(Microphone);
      next := NoSource;
    }

    /** entropy_source_exit: stop the device and drop the hash. */
    method ExitSource(env: Env)
      requires entropy.leaf.Capturing?
      modifies this
      ensures entropy == old(entropy).(hash := None, units := 0, startedMs := 0,
                                       devices := Stopped(old(entropy).devices, old(entropy).leaf.source, env))
    {
      entropy := entropy.(devices := Stopped(entropy.devices, entropy.leaf.source, env));
      entropy := entropy.(hash := None, units := 0, startedMs := 0);
    }

    /** A fresh hash, fed the domain and the header. */
    method SetUpHash(s: Source, env: Env) returns (error: int)
      modifies this
      ensures error == 0 <==> env.setup && env.domain && env.header
      ensures entropy == old(entropy).(hash := entropy.hash)
      ensures error == 0 ==> entropy.hash == Some(Opening(s))
      ensures !env.setup ==> entropy.hash == None
    {
      entropy := entropy.(hash := None);
      if !env.setup {
        return EIO;
      }
      entropy := entropy.(hash := Some([]));
      if !env.domain {
        return EIO;
      }
      entropy := entropy.(hash := Some(entropy.hash.value + DOMAIN));
      if !env.header {
        return EIO;
      }
      entropy := entropy.(hash := Some(entropy.hash.value + [VERSION, Bit(s)]));
      assert [] + DOMAIN == DOMAIN;
      error := 0;
    }

    /** entropy_source_entry, and the fall into the error state when the hash or the device does not start. */
    method EnterSource(s: Source, env: Env)
      requires Sound(env) && Frontier(entropy.selected, entropy.completed, entropy.skipped, s)
      requires !entropy.devices.microphone
      modifies this
      ensures entropy.LeafAgrees() && DevicesAgree(entropy.devices, entropy.leaf) && entropy.current == s
      ensures entropy.leaf == Landing(s, env) && entropy.devices == Entered(old(entropy).devices, s, env)
      ensures entropy.story == Story(Capture(s, []), old(entropy).story.done)
      ensures (entropy.leaf.Capturing? ==> entropy.startedMs == env.nowMs)
      ensures SameSession(old(entropy), entropy) && SameWork(old(entropy), entropy)
    {
      entropy := entropy.(leaf := Capturing(s), story := Story(Capture(s, []), entropy.story.done));
      entropy := entropy.(current := s, units := 0, startedMs := env.nowMs);
      var error := SetUpHash(s, env);
      if error == 0 && s != Touch {
        entropy := entropy.(devices := Started(entropy.devices, s, env));
        error := env.startError;
      }
      if error != 0 {
        LoseCapture(error, env);
      }
    }

    /** The fall into the error state from a capture. */
    method LoseCapture(error: int, env: Env)
      requires entropy.leaf.Capturing?
      modifies this
      ensures entropy == old(entropy).(hash := None, units := 0, startedMs := 0, lastError := error, leaf := SourceError,
                                       devices := Stopped(old(entropy).devices, old(entropy).leaf.source, env))
      ensures old(DevicesAgree(entropy.devices, entropy.leaf)) ==> DevicesAgree(entropy.devices, SourceError)
    {
      entropy := entropy.(lastError := error);
      ExitSource(env);
      entropy := entropy.(leaf := SourceError);
    }

    /** entropy_transition_next_locked: leave the current leaf for the first pending source, or finish. */
    method TransitionNext(env: Env)
      requires Sound(env) && DevicesAgree(entropy.devices, entropy.leaf)
      requires entropy.leaf.Capturing? || entropy.hash == None
      requires Ordered(entropy.selected, entropy.completed, entropy.skipped)
      modifies this
      ensures entropy.LeafAgrees() && DevicesAgree(entropy.devices, entropy.leaf) && entropy.leaf != Idle
      ensures entropy.Pending() == NO_BITS <==> entropy.leaf == Ready
      ensures entropy.leaf == (if entropy.current == NoSource then Ready else Landing(entropy.current, env))
      ensures entropy.devices == Moved(old(entropy).devices, old(entropy).leaf, entropy.current, env)
      ensures entropy.leaf.Capturing? ==> entropy.startedMs == env.nowMs
      ensures entropy.story == if entropy.leaf == Ready then old(entropy).story
                               else Story(Capture(entropy.current, []), old(entropy).story.done)
      ensures SameSession(old(entropy), entropy) && SameWork(old(entropy), entropy)
    {
      var next := NextSource();
      if entropy.leaf.Capturing? {
        ExitSource(env);
      }
      if next == NoSource {
        entropy := entropy.(leaf := Ready, current := NoSource, units := 0, startedMs := 0);
      } else {
        EnterSource(next, env);
      }
    }

    /** entropy_complete_source_locked: 0 while the target is not reached, 1 when the record is filed. */
    method CompleteSource(durationMs: word, env: Env) returns (result: int)
      requires Ledger(sha256, entropy.records, entropy.completed, entropy.story.done)
      requires Frontier(entropy.selected, entropy.completed, entropy.skipped, entropy.current)
      requires BitmapsAgree(entropy.selected, entropy.completed, entropy.skipped)
      requires entropy.story.open.source == entropy.current && entropy.story.open.feeds != []
      requires entropy.hash == Some(Message(entropy.story.open))
      requires entropy.units == TotalUnits(entropy.story.open.feeds)
      requires durationMs == entropy.story.open.feeds[|entropy.story.open.feeds| - 1].durationMs
      modifies this
      ensures Ledger(sha256, entropy.records, entropy.completed, entropy.story.done)
      ensures result == if entropy.units < Target(entropy.current) then 0 else if env.finish then 1 else EIO
      ensures result == 0 ==> entropy == old(entropy)
      ensures result == 1 ==> entropy == old(entropy).(hash := None, records := entropy.records,
                                                       completed := old(entropy).completed.With(entropy.current),
                                                       story := Story(Capture(NoSource, []),
                                                                     old(entropy).story.done + [old(entropy).story.open]))
      ensures result < 0 ==>
                && |old(entropy).story.done| < 4
                && entropy == old(entropy).(hash := None,
                                            records := old(entropy).records[|old(entropy).story.done| := BLANK])
    {
      ProgressFull(entropy.current, entropy.units);
      if Progress(entropy.current, entropy.units) != 1000 {
        return 0;
      }
      LedgerExtends(sha256, entropy.records, entropy.completed, entropy.story.done, entropy.story.open);
      var slot := entropy.completed.Count();
      var message := entropy.hash.value;
      entropy := entropy.(hash := None);
      if !env.finish {
        LedgerIgnoresSpare(sha256, entropy.records, entropy.completed, entropy.story.done, BLANK);
        entropy := entropy.(records := entropy.records[slot := BLANK]);
        return EIO;
      }
      var record := Record(entropy.current, entropy.units, durationMs, sha256(message));
      entropy := entropy.(records := entropy.records[slot := record]);
      entropy := entropy.(completed := entropy.completed.With(entropy.current),
                          story := Story(Capture(NoSource, []), entropy.story.done + [entropy.story.open]));
      result := 1;
    }

    /** Hash a batch with its time and count, and file the record if that reaches the target. */
    method TakeAndComplete(batch: Feed, env: Env) returns (result: int)
      requires Valid() && entropy.leaf.Capturing?
      modifies this
      ensures Ledger(sha256, entropy.records, entropy.completed, entropy.story.done)
      ensures SameSession(old(entropy), entropy) && entropy.skipped == old(entropy).skipped
      ensures entropy.current == old(entropy).current
      ensures entropy.leaf == old(entropy).leaf && entropy.devices == old(entropy).devices
      ensures entropy.startedMs == old(entropy).startedMs
      ensures var units := Add32(old(entropy).units, batch.units);
              result == if !env.metadata || !env.batch then EIO
                        else if units < Target(old(entropy).current) then 0
                        else if env.finish then 1 else EIO
      ensures result == 0 ==>
                && entropy.units == Add32(old(entropy).units, batch.units)
                && entropy.story == Extended(old(entropy).story, batch)
                && entropy.hash == Some(Message(entropy.story.open))
                && entropy.units == TotalUnits(entropy.story.open.feeds)
      ensures result == 1 ==>
                && entropy.completed == old(entropy).completed.With(old(entropy).current)
                && entropy.story.done == old(entropy).story.done + [Extended(old(entropy).story, batch).open]
      ensures result <= 0 ==> entropy.completed == old(entropy).completed
      ensures result < 0 ==> entropy.story.done == old(entropy).story.done
    {
      if !env.metadata {
        return EIO;
      }
      TakeBatch(entropy.story.open, batch);
      entropy := entropy.(hash := Some(entropy.hash.value + Metadata(batch)));
      if !env.batch {
        return EIO;
      }
      entropy := entropy.(hash := Some(entropy.hash.value + batch.data), story := Extended(entropy.story, batch));
      entropy := entropy.(units := Add32(entropy.units, batch.units));
      result := CompleteSource(batch.durationMs, env);
    }

    /** After a batch: fall into the error state, stay, or move on. */
    method Conclude(result: int, env: Env)
      requires Sound(env) && entropy.leaf.Capturing? && entropy.current == entropy.leaf.source
      requires BitmapsAgree(entropy.selected, entropy.completed, entropy.skipped)
      requires Ledger(sha256, entropy.records, entropy.completed, entropy.story.done)
      requires DevicesAgree(entropy.devices, entropy.leaf) && entropy.selected.hardware && WordCount(entropy.words)
      requires result == 0 ==> entropy.LeafAgrees()
      requires result < 0 ==> Frontier(entropy.selected, entropy.completed, entropy.skipped, entropy.current)
      requires result > 0 ==> Ordered(entropy.selected, entropy.completed, entropy.skipped)
      modifies this
      ensures Sane(entropy, sha256)
      ensures result == 0 ==> entropy == old(entropy)
      ensures result < 0 ==> entropy.leaf == SourceError && entropy.current == old(entropy).current
      ensures result < 0 ==> entropy.devices == Left(old(entropy).devices, old(entropy).leaf, env)
      ensures result > 0 ==> MovesOn(old(entropy), env, entropy)
      ensures SameSession(old(entropy), entropy) && SameWork(old(entropy), entropy)
      ensures entropy.story.done == old(entropy).story.done
    {
      if result < 0 {
        LoseCapture(result, env);
      } else if result > 0 {
        TransitionNext(env);
      }
    }

    /** A batch for the current source: into the hash, and on to the next source or to the error state. */
    method AcceptBatch(batch: Feed, env: Env) returns (result: int)
      requires Valid() && entropy.leaf.Capturing? && Sound(env)
      modifies this
      ensures Valid()
      ensures BatchOutcome(old(entropy), batch, env, result, entropy)
    {
      AdvanceCompleted(entropy.selected, entropy.completed, entropy.skipped, entropy.current);
      result := TakeAndComplete(batch, env);
      Conclude(result, env);
    }

    /** entropy_source_run on a feed. */
    method SourceRun(e: Event, env: Env) returns (result: int)
      requires Valid() && entropy.leaf.Capturing? && e.FeedEvent? && Sound(env)
      modifies this
      ensures Valid()
      ensures FeedOutcome(old(entropy), e, env, result, entropy)
    {
      if e.session != entropy.session || e.source != entropy.current {
        return ECANCELED;
      }
      result := AcceptBatch(Feed(Elapsed(env.nowMs, entropy.startedMs), e.units, e.data), env);
    }

    /** entropy_error_run on a retry. */
    method ErrorRun(e: Event, env: Env) returns (result: int)
      requires Valid() && entropy.leaf == SourceError && e.Retry? && Sound(env)
      modifies this
      ensures Valid() && Outcome(old(entropy), e, env, result, entropy)
    {
      if e.session != entropy.session {
        return EINVAL;
      }
      EnterSource(entropy.current, env);
      result := 0;
    }

    /** entropy_active_run, the parent of the capturing and error states. */
    method ActiveRun(e: Event, env: Env) returns (result: int)
      requires Valid() && (entropy.leaf.Capturing? || entropy.leaf == SourceError) && Sound(env)
      requires !e.Begin? && !(entropy.leaf.Capturing? && e.FeedEvent?) && !(entropy.leaf == SourceError && e.Retry?)
      modifies this
      ensures Valid() && Outcome(old(entropy), e, env, result, entropy)
    {
      result := Default(e);
      if e.session != entropy.session {
        return;
      }
      match e {
        case FailEvent(_, source, error) =>
          if entropy.leaf.Capturing? && source == entropy.current {
            LoseCapture(error, env);
            result := 0;
          }
        case Skip(_) =>
          AdvanceSkipped(entropy.selected, entropy.completed, entropy.skipped, entropy.current);
          entropy := entropy.(skipped := entropy.skipped.With(entropy.current));
          result := 0;
          TransitionNext(env);
        case Cancel(_) =>
          result := 0;
          EnterIdle(env);
        case _ =>
      }
    }

    /** Leave for the idle state: stop what is running and forget the session's work. */
    method EnterIdle(env: Env)
      requires DevicesAgree(entropy.devices, entropy.leaf)
      modifies this
      ensures Sane(entropy, sha256) && entropy.leaf == Idle && entropy.session == old(entropy).session
      ensures entropy.devices == Left(old(entropy).devices, old(entropy).leaf, env) && entropy.story == UNTOLD
      ensures entropy.records == [BLANK, BLANK, BLANK, BLANK]
    {
      if entropy.leaf.Capturing? {
        ExitSource(env);
      }
      entropy := Context(Idle, None, seq(4, i => BLANK), entropy.session, 0, 0, 0, 0,
                         NO_BITS, NO_BITS, NO_BITS, NoSource, entropy.devices, UNTOLD);
    }

    /** entropy_dispatch: the leaf sees the event first, then its parent. */
    method Dispatch(e: Event, env: Env) returns (result: int)
      requires Valid() && !e.Begin? && Sound(env)
      modifies this
      ensures Valid() && Outcome(old(entropy), e, env, result, entropy)
    {
      match entropy.leaf {
        case Idle => result := Default(e);
        case Ready =>
          result := Default(e);
          if e.Cancel? && e.session == entropy.session {
            result := 0;
            EnterIdle(env);
          }
        case SourceError =>
          if e.Retry? {
            result := ErrorRun(e, env);
          } else {
            result := ActiveRun(e, env);
          }
        case Capturing(_) =>
          if e.FeedEvent? {
            result := SourceRun(e, env);
          } else {
            result := ActiveRun(e, env);
          }
      }
    }

    /** app_entropy_begin. `available` is what the hardware offers, `cryptoReady` what the library answers. */
    method Begin(words: byte, sources: byte, available: Bits, cryptoReady: bool, env: Env)
      returns (result: int, granted: Option<word>)
      requires Valid() && Sound(env)
      modifies this
      ensures Valid()
      ensures BeginOutcome(old(entropy), words, sources, available, cryptoReady, env, result, granted, entropy)
    {
      if !WordCount(words) || !Offered(sources, available) {
        return EINVAL, None;
      }
      if !cryptoReady {
        return EIO, None;
      }
      if entropy.leaf != Idle {
        return EBUSY, None;
      }
      OpenSession(words, sources, env);
      result, granted := 0, Some(entropy.session);
    }

    /** A new session over the offered sources. */
    method OpenSession(words: byte, sources: byte, env: Env)
      requires Valid() && Sound(env) && entropy.leaf == Idle
      requires WordCount(words) && FromByte(sources).Some?
      requires FromByte(sources).value != NO_BITS && !FromByte(sources).value.hardware
      modifies this
      ensures Valid() && Opened(old(entropy), words, sources, env, entropy)
    {
      var next := if entropy.session + 1 == 0x1_0000_0000 then 1 else entropy.session + 1;
      entropy := entropy.(session := next, words := words, selected := FromByte(sources).value.With(HardwareRng));
      TransitionNext(env);
    }

    /** app_entropy_feed refuses empty batches before it takes the lock. */
    method Submit(session: word, source: Source, data: Option<seq<byte>>, units: word, env: Env) returns (result: int)
      requires Valid() && Sound(env)
      modifies this
      ensures Valid()
      ensures data.None? || data.value == [] || units == 0 ==> result == EINVAL && entropy == old(entropy)
      ensures data.Some? && data.value != [] && units > 0 ==>
                Outcome(old(entropy), FeedEvent(session, source, data.value, units), env, result, entropy)
    {
      if data.None? || data.value == [] || units == 0 {
        return EINVAL;
      }
      result := Dispatch(FeedEvent(session, source, data.value, units), env);
    }

    /** app_entropy_transcript_get: the transcript goes into the caller's buffer, field by field. */
    method TranscriptGet(session: word, buffer: array?<byte>) returns (result: int, written: nat)
      requires Valid()
      modifies (if buffer == null then {} else {buffer})
      ensures buffer == null ==> result == EINVAL
      ensures buffer != null ==>
                var ready := entropy.session == session && entropy.leaf == Ready;
                && (result == EAGAIN <==> !ready)
                && (result == ENOSPC <==> ready && buffer.Length < TranscriptSize(entropy))
                && (result == 0 <==> ready && buffer.Length >= TranscriptSize(entropy))
      ensures result == 0 ==>
                && Wellformed(TranscriptOf(entropy)) && |TranscriptOf(entropy).records| <= 4
                && written == TranscriptSize(entropy) <= MAX_SIZE
                && buffer[..written] == Encode(TranscriptOf(entropy))
                && (forall k :: written <= k < buffer.Length ==> buffer[k] == old(buffer[k]))
      ensures result != 0 && buffer != null ==> buffer[..] == old(buffer[..])
    {
      written := 0;
      if buffer == null {
        return EINVAL, 0;
      }
      var count := entropy.completed.Count();
      var required := HEADER_SIZE + count * RECORD_SIZE;
      if entropy.session != session || entropy.leaf != Ready {
        return EAGAIN, 0;
      }
      if buffer.Length < required {
        return ENOSPC, 0;
      }
      ReadyIsWellformed(entropy, sha256);
      RecordCount(TranscriptOf(entropy));
      WriteTranscript(buffer, TranscriptOf(entropy));
      result, written := 0, required;
    }
  }

  /** The header, then the records one after another. */
  method WriteTranscript(buffer: array<byte>, t: Transcript)
    requires |t.records| <= 4 && (forall r :: r in t.records ==> |r.digest| == 32)
    requires buffer.Length >= HEADER_SIZE + RECORD_SIZE * |t.records|
    modifies buffer
    ensures buffer[..HEADER_SIZE + RECORD_SIZE * |t.records|] == Encode(t)
    ensures forall k :: HEADER_SIZE + RECORD_SIZE * |t.records| <= k < buffer.Length ==> buffer[k] == old(buffer[k])
  {
    PutBytes(buffer, 0, EncodeHeader(t, |t.records|));
    for i := 0 to |t.records|
      invariant buffer[..HEADER_SIZE + RECORD_SIZE * i] == Prefix(t, i)
      invariant forall k :: HEADER_SIZE + RECORD_SIZE * i <= k < buffer.Length ==> buffer[k] == old(buffer[k])
    {
      PrefixExtends(t, i);
      PutBytes(buffer, HEADER_SIZE + RECORD_SIZE * i, EncodeRecord(t.records[i]));
    }
    assert t.records[..|t.records|] == t.records;
  }

  /** The transcript up to and without record i. */
  function Prefix(t: Transcript, i: nat): (b: seq<byte>)
    requires i <= |t.records| <= 4 && (forall r :: r in t.records ==> |r.digest| == 32)
    ensures |b| == HEADER_SIZE + RECORD_SIZE * i
  {
    EncodeHeader(t, |t.records|) + EncodeRecords(t.records[..i])
  }

  lemma PrefixExtends(t: Transcript, i: nat)
    requires i < |t.records| <= 4 && (forall r :: r in t.records ==> |r.digest| == 32)
    ensures Prefix(t, i + 1) == Prefix(t, i) + EncodeRecord(t.records[i])
  {
    assert t.records[..i + 1][..i] == t.records[..i];
  }

  /** Write bytes at an offset. */
  method PutBytes(buffer: array<byte>, at: nat, s: seq<byte>)
    requires at + |s| <= buffer.Length
    modifies buffer
    ensures buffer[..at + |s|] == old(buffer[..at]) + s
    ensures forall k :: at + |s| <= k < buffer.Length ==> buffer[k] == old(buffer[k])
  {
    for i := 0 to |s|
      invariant buffer[..at + i] == old(buffer[..at]) + s[..i]
      invariant forall k :: at + i <= k < buffer.Length ==> buffer[k] == old(buffer[k])
    {
      buffer[at + i] := s[i];
    }
  }

  function Default(e: Event): int {
    if e.FeedEvent? || e.FailEvent? then ECANCELED else EINVAL
  }

  /** Auxiliary sources, at least one, all available, on hardware with a random generator. */
  predicate Offered(sources: byte, available: Bits) {
    && FromByte(sources).Some?
    && FromByte(sources).value != NO_BITS && !FromByte(sources).value.hardware
    && available.hardware && FromByte(sources).value.Minus(available) == NO_BITS
  }

  predicate BeginOutcome(s: Context, words: byte, sources: byte, available: Bits, cryptoReady: bool, env: Env,
                         result: int, granted: Option<word>, t: Context) {
    if !WordCount(words) || !Offered(sources, available) then result == EINVAL && granted == None && t == s
    else if !cryptoReady then result == EIO && granted == None && t == s
    else if s.leaf != Idle then result == EBUSY && granted == None && t == s
    else result == 0 && granted == Some(t.session) && Opened(s, words, sources, env, t)
  }

  /** A session under a new number, at its first source, with nothing left of the one before. */
  predicate Opened(s: Context, words: byte, sources: byte, env: Env, t: Context) {
    && t.session != 0 && t.session == (if s.session == 0xffff_ffff then 1 else s.session + 1)
    && t.words == words && FromByte(sources).Some? && t.selected == FromByte(sources).value.With(HardwareRng)
    && t.completed == NO_BITS && t.skipped == NO_BITS && t.story == Story(Capture(t.current, []), [])
    && t.current != NoSource && MovesOn(s, env, t)
  }

  /** A capture has just begun: it is empty, and its time counts from the entry. */
  predicate Begun(env: Env, t: Context) {
    t.startedMs == env.nowMs && t.story.open == Capture(t.current, [])
  }

  /** The leaf, the devices and the capture after moving on to the current source, or to none. */
  predicate MovesOn(s: Context, env: Env, t: Context) {
    && t.leaf == (if t.current == NoSource then Ready else Landing(t.current, env))
    && t.devices == Moved(s.devices, s.leaf, t.current, env)
    && (t.leaf.Capturing? ==> Begun(env, t))
  }

  /** What each event but a begin does to a context: the collector's contract. */
  predicate Outcome(s: Context, e: Event, env: Env, result: int, t: Context)
    requires !e.Begin?
  {
    match e
    case FeedEvent(_, _, _, _) =>
      if s.leaf.Capturing? then FeedOutcome(s, e, env, result, t) else result == ECANCELED && t == s
    case FailEvent(session, source, error) =>
      if s.leaf.Capturing? && session == s.session && source == s.current then
        && result == 0 && t.leaf == SourceError && t.lastError == error && t.current == s.current
        && SameSession(s, t) && SameWork(s, t) && t.story.done == s.story.done
        && t.devices == Left(s.devices, s.leaf, env)
      else result == ECANCELED && t == s
    case Retry(session) =>
      if s.leaf == SourceError && session == s.session then
        && result == 0 && t.leaf == Landing(s.current, env)
        && t.current == s.current && t.devices == Entered(s.devices, s.current, env)
        && SameSession(s, t) && SameWork(s, t) && t.story == Story(Capture(s.current, []), s.story.done)
        && (t.leaf.Capturing? ==> Begun(env, t))
      else result == EINVAL && t == s
    case Skip(session) =>
      if (s.leaf.Capturing? || s.leaf == SourceError) && session == s.session then
        && result == 0 && t.skipped == s.skipped.With(s.current) && t.completed == s.completed
        && SameSession(s, t) && t.records == s.records && t.story.done == s.story.done && MovesOn(s, env, t)
      else result == EINVAL && t == s
    case Cancel(session) =>
      if s.leaf != Idle && session == s.session then
        && result == 0 && t.leaf == Idle && t.session == s.session && t.devices == Left(s.devices, s.leaf, env)
        && t.story == UNTOLD && t.records == [BLANK, BLANK, BLANK, BLANK]
      else result == EINVAL && t == s
  }

  /** What a feed to a capturing collector does: nothing for another session or source. */
  predicate FeedOutcome(s: Context, e: Event, env: Env, result: int, t: Context)
    requires e.FeedEvent? && s.leaf.Capturing?
  {
    if e.session != s.session || e.source != s.current then result == ECANCELED && t == s
    else BatchOutcome(s, Feed(Elapsed(env.nowMs, s.startedMs), e.units, e.data), env, result, t)
  }

  /** A hash failure loses the capture; otherwise the batch joins it, and completes it at the target. */
  predicate BatchOutcome(s: Context, batch: Feed, env: Env, result: int, t: Context)
    requires s.leaf.Capturing?
  {
    var story := Extended(s.story, batch);
    var units := Add32(s.units, batch.units);
    var full := units >= Target(s.current);
    && SameSession(s, t) && t.skipped == s.skipped
    && (if !env.metadata || !env.batch || (full && !env.finish) then
          && result == EIO && t.leaf == SourceError && t.completed == s.completed && t.current == s.current
          && t.story.done == s.story.done && t.devices == Left(s.devices, s.leaf, env)
        else if full then
          && result == 1 && t.completed == s.completed.With(s.current) && t.story.done == s.story.done + [story.open]
          && MovesOn(s, env, t)
        else
          result == 0 && t.leaf == s.leaf && t.completed == s.completed && t.current == s.current
          && t.units == units && t.story == story && t.devices == s.devices && t.startedMs == s.startedMs)
  }

  // ------------------------------------------------------------------------- theorems

  function TranscriptOf(c: Context): Transcript
    requires c.completed.Count() <= |c.records|
  {
    Transcript(c.words, c.selected, c.completed, c.skipped, c.records[..c.completed.Count()])
  }

  function TranscriptSize(c: Context): nat {
    HEADER_SIZE + RECORD_SIZE * c.completed.Count()
  }

  /** The sources of the records in use are exactly the completed ones, in bit order. */
  lemma LedgerSources(sha256: seq<byte> -> seq<byte>, records: seq<Record>, completed: Bits, done: seq<Capture>)
    requires Ledger(sha256, records, completed, done)
    ensures Ascending(SourcesOf(records[..|done|]))
    ensures forall s :: s in SourcesOf(records[..|done|]) <==> completed.Has(s)
  {
    var sources := SourcesOf(records[..|done|]);
    assert forall i :: 0 <= i < |done| ==> sources[i] == done[i].source;
    forall s ensures s in sources <==> completed.Has(s) {
      if s in sources {
        var i :| 0 <= i < |done| && sources[i] == s;
        MaskHas(done, i);
      }
      if completed.Has(s) {
        MaskHasOnly(done, s);
        var i :| 0 <= i < |done| && done[i].source == s;
        assert sources[i] == s;
      }
    }
  }

  /** When nothing is pending, completed and skipped together are the selected auxiliary sources. */
  lemma NothingPending(selected: Bits, completed: Bits, skipped: Bits)
    requires BitmapsAgree(selected, completed, skipped) && PendingOf(selected, completed, skipped) == NO_BITS
    ensures !completed.hardware && !skipped.hardware
    ensures forall s :: !(completed.Has(s) && skipped.Has(s))
    ensures forall s :: IsAuxiliary(s) ==> (selected.Has(s) <==> completed.Has(s) || skipped.Has(s))
  {
  }

  /** What a ready collector has gathered obeys every rule of the transcript format. */
  lemma ReadyIsWellformed(c: Context, sha256: seq<byte> -> seq<byte>)
    requires Sane(c, sha256) && c.leaf == Ready && forall m :: |sha256(m)| == 32
    ensures Wellformed(TranscriptOf(c))
  {
    LedgerSources(sha256, c.records, c.completed, c.story.done);
    NothingPending(c.selected, c.completed, c.skipped);
  }

  /** Progress: a feed that is taken shortens the work exactly when the 32-bit unit counter does not wrap. */
  lemma FeedProgress(s: Context, e: Event, env: Env, result: int, t: Context, sha256: seq<byte> -> seq<byte>)
    requires Sane(s, sha256) && Sane(t, sha256) && e.FeedEvent? && e.units > 0
    requires Outcome(s, e, env, result, t) && result >= 0
    ensures Lexicographic(t.Measure(), s.Measure()) <==> s.units + e.units < 0x1_0000_0000
  {
    AdvanceCompleted(s.selected, s.completed, s.skipped, s.current);
  }

  /** A skip always shortens it. */
  lemma SkipProgress(s: Context, e: Event, env: Env, t: Context, sha256: seq<byte> -> seq<byte>)
    requires Sane(s, sha256) && e.Skip? && Outcome(s, e, env, 0, t)
    ensures Lexicographic(t.Measure(), s.Measure())
  {
  }

  /** An event for another session changes nothing. */
  lemma StaleEvent(s: Context, e: Event, env: Env, result: int, t: Context)
    requires !e.Begin? && Outcome(s, e, env, result, t) && e.session != s.session
    ensures t == s && result == Default(e)
  {
  }

  // ----------------------------------------------------------------------- runs of calls

  datatype Call =
    | BeginCall(words: byte, sources: byte, available: Bits, cryptoReady: bool)
    | EventCall(event: Event)

  datatype Turn = Turn(s: Context, call: Call, env: Env, result: int, granted: Option<word>, t: Context)

  /** One public call, by the collector's contract. */
  predicate Lawful(x: Turn) {
    && Sound(x.env)
    && match x.call
       case BeginCall(words, sources, available, cryptoReady) =>
         BeginOutcome(x.s, words, sources, available, cryptoReady, x.env, x.result, x.granted, x.t)
       case EventCall(e) => !e.Begin? && Outcome(x.s, e, x.env, x.result, x.t)
  }

  predicate AtRest(c: Context) {
    c.leaf == Idle && !c.devices.imu && c.story == UNTOLD
  }

  /** Calls one after another, from a collector with nothing running and nothing recorded. */
  predicate IsRun(run: seq<Turn>) {
    run != [] ==>
      var n := |run| - 1;
      && IsRun(run[..n]) && Lawful(run[n])
      && (if n == 0 then AtRest(run[n].s) else run[n].s == run[n - 1].t)
  }

  /** The call enters a source: it begins, retries, skips on or completes the one before. */
  predicate Enters(x: Turn, s: Source) {
    && x.t.current == s && x.result >= 0
    && (x.call.BeginCall? || x.call.event.Retry? || x.call.event.Skip? || (x.call.event.FeedEvent? && x.result == 1))
  }

  /** A start command took effect on the IMU. */
  predicate StartsImu(x: Turn) {
    Enters(x, Imu) && HashOpens(x.env) && x.env.started
  }

  /** The call leaves the IMU's state, or fails to come up in it: a stop command is sent. */
  predicate StopsImu(x: Turn) {
    (x.s.leaf == Capturing(Imu) && x.t.leaf != Capturing(Imu)) || (Enters(x, Imu) && x.t.leaf == SourceError)
  }

  /** One call's effect on the IMU, from the commands it sends. */
  lemma ImuStep(x: Turn)
    requires Lawful(x)
    ensures x.t.devices.imu <==> (x.s.devices.imu || StartsImu(x)) && !(StopsImu(x) && x.env.stopDelivered)
  {
    match x.call {
      case BeginCall(_, _, _, _) =>
      case EventCall(FeedEvent(_, _, _, _)) =>
      case EventCall(_) =>
    }
  }

  /** Some start took effect, and no stop sent since has arrived. */
  predicate LeftOn(run: seq<Turn>) {
    exists j :: 0 <= j < |run| && StartsImu(run[j]) && NoStopArrives(run, j)
  }

  predicate NoStopArrives(run: seq<Turn>, j: nat) {
    forall k :: j <= k < |run| && StopsImu(run[k]) ==> !run[k].env.stopDelivered
  }

  /** After any run the IMU is on exactly when some start took effect and every stop sent since was lost. */
  lemma {:induction false} ImuOnIff(run: seq<Turn>)
    requires IsRun(run) && run != []
    ensures run[|run| - 1].t.devices.imu <==> LeftOn(run)
  {
    var n := |run| - 1;
    var x := run[n];
    ImuStep(x);
    if n > 0 {
      ImuOnIff(run[..n]);
      LeftOnStep(run);
    } else {
      assert LeftOn(run) <==> StartsImu(x) && NoStopArrives(run, 0);
    }
  }

  /** One more call: a start counts at once, a stop that arrives ends it. */
  lemma LeftOnStep(run: seq<Turn>)
    requires run != []
    ensures var n := |run| - 1;
            LeftOn(run) <==> (LeftOn(run[..n]) || StartsImu(run[n])) && !(StopsImu(run[n]) && run[n].env.stopDelivered)
  {
    var n := |run| - 1;
    if LeftOn(run) {
      var j :| 0 <= j < |run| && StartsImu(run[j]) && NoStopArrives(run, j);
      if j < n { assert run[..n][j] == run[j] && NoStopArrives(run[..n], j); }
    }
    if (LeftOn(run[..n]) || StartsImu(run[n])) && !(StopsImu(run[n]) && run[n].env.stopDelivered) {
      if LeftOn(run[..n]) {
        var j :| 0 <= j < n && StartsImu(run[..n][j]) && NoStopArrives(run[..n], j);
        forall k | j <= k < |run| && StopsImu(run[k]) ensures !run[k].env.stopDelivered {
          if k < n { assert run[..n][k] == run[k]; }
        }
        assert NoStopArrives(run, j);
      } else {
        assert NoStopArrives(run, n);
      }
    }
  }

  /** So the IMU is active only in its own state as long as no stop command is lost, and in general exactly
      when after some start that took effect every stop has been lost. */
  lemma ImuOutsideItsState(run: seq<Turn>)
    requires IsRun(run) && run != [] && run[|run| - 1].t.leaf != Capturing(Imu)
    ensures run[|run| - 1].t.devices.imu <==> LeftOn(run)
    ensures (forall k :: 0 <= k < |run| && StopsImu(run[k]) ==> run[k].env.stopDelivered) ==>
              !run[|run| - 1].t.devices.imu
  {
    ImuOnIff(run);
    if LeftOn(run) {
      var j :| 0 <= j < |run| && StartsImu(run[j]) && NoStopArrives(run, j);
      StopAfterStart(run, j);
    }
  }

  /** A started IMU that is no longer in its state has been sent a stop. */
  lemma {:induction false} StopAfterStart(run: seq<Turn>, j: nat)
    requires IsRun(run) && j < |run| && StartsImu(run[j]) && run[|run| - 1].t.leaf != Capturing(Imu)
    ensures exists k :: j <= k < |run| && StopsImu(run[k])
  {
    var n := |run| - 1;
    if j < n && !StopsImu(run[n]) {
      StopAfterStart(run[..n], j);
      var k :| j <= k < n && StopsImu(run[..n][k]);
      assert StopsImu(run[k]);
    } else if j == n {
      assert StopsImu(run[n]);
    }
  }

  // ------------------------------------------------------- what the records stand for, over runs

  /** The call opens a capture: it enters a source, and hash and device come up. */
  predicate Opens(x: Turn) {
    x.t.leaf.Capturing? && Enters(x, x.t.current)
  }

  /** The call adds a batch to the open capture. */
  predicate Adds(x: Turn) {
    x.call.EventCall? && x.call.event.FeedEvent? && x.result >= 0
  }

  /** That batch, its time counted from the entry. */
  function BatchOf(x: Turn, enteredMs: int): Feed
    requires Adds(x)
  {
    Feed((x.env.nowMs - enteredMs) % 0x1_0000_0000, x.call.event.units, x.call.event.data)
  }

  /** The batches accepted after call j and before call m. */
  function Batches(run: seq<Turn>, j: nat, m: nat): seq<Feed>
    requires j < m <= |run|
  {
    if m == j + 1 then []
    else Batches(run, j, m - 1) + if Adds(run[m - 1]) then [BatchOf(run[m - 1], run[j].env.nowMs)] else []
  }

  /** Call j opens a capture of the source, and the collector is in that very capture until call m. */
  predicate Stays(run: seq<Turn>, j: nat, m: nat, s: Source) {
    && j < m <= |run| && Opens(run[j]) && run[j].t.leaf == Capturing(s)
    && forall i :: j < i < m ==> run[i].t.leaf == Capturing(s) && !Opens(run[i])
  }

  /** No session has begun after call j. */
  predicate SameSessionSince(run: seq<Turn>, j: nat) {
    forall i :: j < i < |run| && run[i].call.BeginCall? ==> run[i].result != 0
  }

  /** The capture that call j opened and call e completed, in the session still under way. */
  predicate Filed(run: seq<Turn>, j: nat, e: nat, c: Capture) {
    && e < |run| && Stays(run, j, e, c.source) && SameSessionSince(run, j)
    && Adds(run[e]) && run[e].result == 1 && c.feeds == Batches(run, j, e + 1)
  }

  /** The capture that call j opened is the one under way. */
  predicate OpenSince(run: seq<Turn>, j: nat, t: Context) {
    && Stays(run, j, |run|, t.current) && SameSessionSince(run, j)
    && t.startedMs == run[j].env.nowMs && t.story.open == Capture(t.current, Batches(run, j, |run|))
  }

  lemma {:induction false} BatchesOfPrefix(run: seq<Turn>, n: nat, j: nat, m: nat)
    requires j < m <= n <= |run|
    ensures Batches(run[..n], j, m) == Batches(run, j, m)
  {
    if m > j + 1 {
      BatchesOfPrefix(run, n, j, m - 1);
    }
  }

  /** A filed capture stays filed until another session begins. */
  lemma StaysFiled(run: seq<Turn>, j: nat, e: nat, c: Capture)
    requires run != [] && Filed(run[..|run| - 1], j, e, c)
    requires run[|run| - 1].call.BeginCall? ==> run[|run| - 1].result != 0
    ensures Filed(run, j, e, c)
  {
    var n := |run| - 1;
    assert forall i :: 0 <= i < n ==> run[..n][i] == run[i];
    BatchesOfPrefix(run, n, j, e + 1);
  }

  /** A call that neither opens nor leaves: the capture goes on, with the batch if it adds one. */
  lemma StaysOpen(run: seq<Turn>, j: nat, s: Context)
    requires run != [] && OpenSince(run[..|run| - 1], j, s)
    ensures var x := run[|run| - 1];
            !x.call.BeginCall? || x.result != 0 ==>
              && SameSessionSince(run, j)
              && (x.t.leaf == Capturing(s.current) && !Opens(x) ==> Stays(run, j, |run|, s.current))
              && Stays(run, j, |run| - 1, s.current)
              && Batches(run, j, |run|) == s.story.open.feeds + if Adds(x) then [BatchOf(x, s.startedMs)] else []
  {
    var n := |run| - 1;
    assert forall i :: 0 <= i < n ==> run[..n][i] == run[i];
    BatchesOfPrefix(run, n, j, n);
  }

  /** The capture under way after a run. */
  ghost predicate OpenKnown(run: seq<Turn>, t: Context) {
    t.leaf.Capturing? ==> t.leaf == Capturing(t.current) && exists j: nat :: OpenSince(run, j, t)
  }

  ghost predicate Known(run: seq<Turn>, c: Capture) {
    exists j: nat, e: nat :: Filed(run, j, e, c)
  }

  /** Every capture of the story was opened and completed by calls of the run. */
  ghost predicate DoneKnown(run: seq<Turn>, done: seq<Capture>) {
    forall k :: 0 <= k < |done| ==> Known(run, done[k])
  }

  lemma {:induction false} StoryIsOfTheRun(run: seq<Turn>)
    requires IsRun(run) && run != []
    ensures OpenKnown(run, run[|run| - 1].t) && DoneKnown(run, run[|run| - 1].t.story.done)
  {
    var n := |run| - 1;
    var x := run[n];
    if n > 0 { StoryIsOfTheRun(run[..n]); }
    OpenStep(run);
    DoneStep(run);
  }

  lemma OpenStep(run: seq<Turn>)
    requires run != [] && Lawful(run[|run| - 1]) && OpenKnown(run[..|run| - 1], run[|run| - 1].s)
    ensures OpenKnown(run, run[|run| - 1].t)
  {
    var n := |run| - 1;
    var x := run[n];
    if Opens(x) {
      OpeningCall(x);
      assert OpenSince(run, n, x.t);
    } else if x.t.leaf.Capturing? {
      StayingCall(x);
      var j: nat :| OpenSince(run[..n], j, x.s);
      StaysOpen(run, j, x.s);
      assert OpenSince(run, j, x.t);
    }
  }

  lemma OpeningCall(x: Turn)
    requires Lawful(x) && Opens(x)
    ensures x.t.leaf == Capturing(x.t.current) && Begun(x.env, x.t)
  {
  }

  lemma StayingCall(x: Turn)
    requires Lawful(x) && !Opens(x) && x.t.leaf.Capturing?
    requires x.s.leaf.Capturing? ==> x.s.leaf == Capturing(x.s.current)
    ensures x.s.leaf == x.t.leaf && x.t.current == x.s.current && x.t.startedMs == x.s.startedMs
    ensures !x.call.BeginCall? || x.result != 0
    ensures x.t.story.open == if Adds(x) then Extended(x.s.story, BatchOf(x, x.s.startedMs)).open else x.s.story.open
  {
  }

  lemma DoneStep(run: seq<Turn>)
    requires run != [] && Lawful(run[|run| - 1])
    requires OpenKnown(run[..|run| - 1], run[|run| - 1].s) && DoneKnown(run[..|run| - 1], run[|run| - 1].s.story.done)
    ensures DoneKnown(run, run[|run| - 1].t.story.done)
  {
    var n := |run| - 1;
    var x := run[n];
    var was, now := x.s.story.done, x.t.story.done;
    DoneCall(x);
    forall k | 0 <= k < |now| ensures Known(run, now[k]) {
      if k < |was| {
        var j: nat, e: nat :| Filed(run[..n], j, e, was[k]);
        StaysFiled(run, j, e, was[k]);
      } else {
        var j: nat :| OpenSince(run[..n], j, x.s);
        StaysOpen(run, j, x.s);
        assert Filed(run, j, n, now[k]);
      }
    }
  }

  /** What a call does to the finished captures: nothing, forget them all, or add the one it completes. */
  lemma DoneCall(x: Turn)
    requires Lawful(x)
    ensures var was, now := x.s.story.done, x.t.story.done;
            if Adds(x) && x.result == 1
            then x.s.leaf.Capturing? && now == was + [Extended(x.s.story, BatchOf(x, x.s.startedMs)).open]
            else now == [] || (now == was && (!x.call.BeginCall? || x.result != 0))
  {
  }

  function Sum(feeds: seq<Feed>): nat {
    if feeds == [] then 0 else Sum(feeds[..|feeds| - 1]) + feeds[|feeds| - 1].units
  }

  lemma {:induction false} TotalIsSum(feeds: seq<Feed>)
    ensures TotalUnits(feeds) == Sum(feeds) % 0x1_0000_0000
  {
    if feeds != [] {
      TotalIsSum(feeds[..|feeds| - 1]);
    }
  }

  /** The record tells of the capture: its source and last time, its units modulo 2^32, which reach the source's
      target, and the hash of a message in which every batch can be read. */
  ghost predicate Tells(r: Record, c: Capture, sha256: seq<byte> -> seq<byte>) {
    && c.feeds != [] && r.source == c.source && r.durationMs == c.feeds[|c.feeds| - 1].durationMs
    && r.units == Sum(c.feeds) % 0x1_0000_0000
    && (match r.source case Touch => r.units >= 64 case Imu => r.units >= 256 case Camera => r.units >= 8
                       case Microphone => r.units >= 48000 case _ => false)
    && exists m :: OpeningReads(m, c.source) && AllAt(m, c.feeds) && r.digest == sha256(m)
  }

  lemma RecordTells(c: Capture, sha256: seq<byte> -> seq<byte>)
    requires c.feeds != [] && IsAuxiliary(c.source) && TotalUnits(c.feeds) >= Target(c.source)
    ensures Tells(RecordOf(c, sha256), c, sha256)
  {
    MessageReads(c);
    TotalIsSum(c.feeds);
  }

  /** Over any run of calls: every record in use is the one deserved by exactly the batches accepted between the
      call that last entered its source and the call that completed it, with durations counted from that entry,
      whatever failures and retries came before. */
  lemma DigestProvenance(run: seq<Turn>, sha256: seq<byte> -> seq<byte>, k: nat)
    requires IsRun(run) && run != [] && Sane(run[|run| - 1].t, sha256) && k < run[|run| - 1].t.completed.Count()
    ensures var t := run[|run| - 1].t;
            && k < |t.records| && k < |t.story.done|
            && Tells(t.records[k], t.story.done[k], sha256)
            && exists j: nat, e: nat :: Filed(run, j, e, t.story.done[k])
  {
    StoryIsOfTheRun(run);
    RecordTells(run[|run| - 1].t.story.done[k], sha256);
  }

  // ----------------------------------------------------------------- the code makes such runs

  predicate Callable(call: Call, env: Env) {
    Sound(env) && (call.EventCall? ==> !call.event.Begin?)
  }

  /** The collector is where the run leaves it. */
  predicate At(run: seq<Turn>, c: Context) {
    if run == [] then AtRest(c) else run[|run| - 1].t == c
  }

  function Calls(run: seq<Turn>): seq<(Call, Env)> {
    if run == [] then []
    else Calls(run[..|run| - 1]) + [(run[|run| - 1].call, run[|run| - 1].env)]
  }

  /** The code, given any calls in any circumstances, produces such runs. */
  method Drive(sha256: seq<byte> -> seq<byte>, calls: seq<(Call, Env)>)
    returns (collector: Collector, ghost run: seq<Turn>)
    requires (forall m :: |sha256(m)| == 32) && forall i :: 0 <= i < |calls| ==> Callable(calls[i].0, calls[i].1)
    ensures fresh(collector) && collector.Valid() && collector.sha256 == sha256
    ensures IsRun(run) && At(run, collector.entropy) && Calls(run) == calls
  {
    collector := new Collector(sha256);
    run := [];
    for i := 0 to |calls|
      invariant collector.Valid() && collector.sha256 == sha256
      invariant IsRun(run) && At(run, collector.entropy) && Calls(run) == calls[..i]
    {
      ghost var turn := Make(collector, calls[i].0, calls[i].1);
      run := Extend(run, turn);
      assert calls[..i + 1] == calls[..i] + [calls[i]];
    }
    assert calls[..|calls|] == calls;
  }

  function Extend(run: seq<Turn>, x: Turn): (longer: seq<Turn>)
    requires IsRun(run) && Lawful(x) && At(run, x.s)
    ensures IsRun(longer) && At(longer, x.t) && Calls(longer) == Calls(run) + [(x.call, x.env)]
  {
    assert (run + [x])[..|run|] == run;
    run + [x]
  }

  /** One call. */
  method Make(collector: Collector, call: Call, env: Env) returns (ghost x: Turn)
    requires collector.Valid() && Callable(call, env)
    modifies collector
    ensures collector.Valid() && Lawful(x)
    ensures x.s == old(collector.entropy) && x.t == collector.entropy && (x.call, x.env) == (call, env)
  {
    ghost var before := collector.entropy;
    match call {
      case BeginCall(words, sources, available, cryptoReady) =>
        var result, granted := collector.Begin(words, sources, available, cryptoReady, env);
        x := Turn(before, call, env, result, granted, collector.entropy);
      case EventCall(e) =>
        var result := collector.Dispatch(e, env);
        x := Turn(before, call, env, result, None, collector.entropy);
    }
  }

  const FINE := Env(0, true, true, true, 0, true, true, true, true, true)

  /** The IMU can stay on after the session is over: when the stop command is not delivered. */
  method ImuLeftRunning(sha256: seq<byte> -> seq<byte>) returns (collector: Collector)
    requires forall m :: |sha256(m)| == 32
    ensures collector.Valid() && collector.entropy.leaf == Idle && collector.entropy.devices.imu
  {
    collector := new Collector(sha256);
    var _, session := collector.Begin(12, Bit(Imu), Bits(true, false, true, false, false), true, FINE);
    var _ := collector.Dispatch(Cancel(collector.entropy.session), FINE.(stopDelivered := false));
  }

  /** A touch session with 63 of its 64 units. */
  method AlmostTouched(sha256: seq<byte> -> seq<byte>) returns (collector: Collector)
    requires forall m :: |sha256(m)| == 32
    ensures fresh(collector) && collector.Valid()
    ensures collector.entropy.leaf == Capturing(Touch) && collector.entropy.units == 63
  {
    collector := new Collector(sha256);
    var _, _ := collector.Begin(12, Bit(Touch), Bits(true, true, false, false, false), true, FINE);
    var _ := collector.Dispatch(FeedEvent(collector.entropy.session, Touch, [0], 63), FINE);
  }

  /** An accepted feed can lengthen the work: units that wrap the counter back to three. */
  method WrappingFeed(sha256: seq<byte> -> seq<byte>) returns (result: int, before: (nat, nat), after: (nat, nat))
    requires forall m :: |sha256(m)| == 32
    ensures result == 0 && Lexicographic(before, after)
  {
    var collector := AlmostTouched(sha256);
    before := collector.entropy.Measure();
    result := collector.Dispatch(FeedEvent(collector.entropy.session, Touch, [0], 0x1_0000_0000 - 60), FINE);
    after := collector.entropy.Measure();
  }
}
