/**
 The Wi-Fi scan list, after src/net/wifi.c: at most twelve networks gathered while a scan is active,
 one per SSID, weakest evicted first, then sorted in place.
 */
module WifiScan {
  import opened Bytes

  const SSID_MAX := 32
  const MAX_NETWORKS := 12

  type rssi = r: int | -128 <= r < 128

  /** The security types of the Wi-Fi driver; `Other` stands for all that the station cannot use. */
  datatype DriverSecurity = NoSecurity | Sae | SaeH2e | SaeAuto | Psk | PskSha256 | WpaPsk | WpaAutoPersonal | Other

  datatype Security = OpenNetwork | SaeNetwork | Personal | Unsupported

  function AppSecurity(security: DriverSecurity): Security {
    match security
    case NoSecurity => OpenNetwork
    case Sae | SaeH2e | SaeAuto => SaeNetwork
    case Psk | PskSha256 | WpaPsk | WpaAutoPersonal => Personal
    case Other => Unsupported
  }

  /** A scan result as the driver reports it: the SSID is the first `ssid_length` bytes. */
  datatype Sighting = Sighting(ssid: seq<byte>, rssi: rssi, security: DriverSecurity)

  /** A stored network: the SSID field is 33 bytes, zero after the name. */
  datatype Network = Network(field: seq<byte>, rssi: rssi, security: Security) {
    function Name(): seq<byte> { CString(field) }
  }

  /** The C string in a field: everything before the first zero. */
  function CString(field: seq<byte>): seq<byte> {
    if field == [] || field[0] == 0 then [] else [field[0]] + CString(field[1..])
  }

  function Pad(ssid: seq<byte>): seq<byte>
    requires |ssid| <= SSID_MAX
  {
    ssid + Zeros(SSID_MAX + 1 - |ssid|)
  }

  predicate NulFree(ssid: seq<byte>) {
    forall i :: 0 <= i < |ssid| ==> ssid[i] != 0
  }

  lemma {:induction false} CStringOf(ssid: seq<byte>, zeros: seq<byte>)
    requires NulFree(ssid) && zeros != [] && zeros[0] == 0
    ensures CString(ssid + zeros) == ssid
  {
    if ssid != [] {
      assert (ssid + zeros)[1..] == ssid[1..] + zeros;
      CStringOf(ssid[1..], zeros);
    } else {
      assert ssid + zeros == zeros;
    }
  }

  lemma PadRoundTrip(ssid: seq<byte>)
    requires NulFree(ssid) && |ssid| <= SSID_MAX
    ensures CString(Pad(ssid)) == ssid
  {
    CStringOf(ssid, Zeros(SSID_MAX + 1 - |ssid|));
  }

  predicate Acceptable(s: Sighting) {
    1 <= |s.ssid| <= SSID_MAX
  }

  function Store(s: Sighting): Network
    requires Acceptable(s)
  {
    Network(Pad(s.ssid), s.rssi, AppSecurity(s.security))
  }

  // --------------------------------------------------- the list as a reader may think of it

  /** Where a name is in the list, or its length. */
  function Find(list: seq<Network>, ssid: seq<byte>): (i: nat)
    ensures i <= |list|
    ensures forall k :: 0 <= k < i ==> list[k].Name() != ssid
    ensures i < |list| ==> list[i].Name() == ssid
  {
    if list == [] then 0
    else if list[0].Name() == ssid then 0
    else
      var i := Find(list[1..], ssid);
      assert forall k :: 1 <= k < i + 1 ==> list[k] == list[1..][k - 1];
      i + 1
  }

  /** The first weakest entry. */
  function Weakest(list: seq<Network>): (i: nat)
    requires list != []
    ensures i < |list|
    ensures forall k :: 0 <= k < |list| ==> list[i].rssi <= list[k].rssi
    ensures forall k :: 0 <= k < i ==> list[i].rssi < list[k].rssi
  {
    if |list| == 1 then 0
    else
      var i := Weakest(list[..|list| - 1]);
      if list[|list| - 1].rssi < list[i].rssi then |list| - 1 else i
  }

  /** One sighting taken into the list. */
  function Take(list: seq<Network>, s: Sighting): seq<Network> {
    if !Acceptable(s) then list
    else
      var i := Find(list, s.ssid);
      if i < |list| then (if s.rssi <= list[i].rssi then list else list[i := Store(s)])
      else if |list| < MAX_NETWORKS then list + [Store(s)]
      else
        var w := Weakest(list);
        if s.rssi <= list[w].rssi then list else list[w := Store(s)]
  }

  function Gather(history: seq<Sighting>): seq<Network> {
    if history == [] then [] else Take(Gather(history[..|history| - 1]), history[|history| - 1])
  }

  lemma GatherOneMore(history: seq<Sighting>, s: Sighting)
    ensures Gather(history + [s]) == Take(Gather(history), s)
  {
    assert (history + [s])[..|history|] == history;
  }

  // ------------------------------------------------------------- what the list should be

  /** A sighting of this name; those without a usable name count for nothing. */
  predicate Names(s: Sighting, ssid: seq<byte>) {
    1 <= |s.ssid| <= 32 && s.ssid == ssid
  }

  /** What the station may use of a network is told by what the driver says of it. */
  predicate SecurityFits(security: Security, driver: DriverSecurity) {
    match security
    case OpenNetwork => driver == NoSecurity
    case SaeNetwork => driver in {Sae, SaeH2e, SaeAuto}
    case Personal => driver in {Psk, PskSha256, WpaPsk, WpaAutoPersonal}
    case Unsupported => driver == Other
  }

  /** The earliest of the strongest sightings of a name. */
  function Best(history: seq<Sighting>, ssid: seq<byte>): Option<Sighting> {
    if history == [] then None
    else
      var best, last := Best(history[..|history| - 1], ssid), history[|history| - 1];
      if Names(last, ssid) && (best.None? || last.rssi > best.value.rssi) then Some(last) else best
  }

  lemma {:induction false} BestIsEarliestStrongest(history: seq<Sighting>, ssid: seq<byte>) returns (at: nat)
    ensures Best(history, ssid).None? <==> forall i :: 0 <= i < |history| ==> !Names(history[i], ssid)
    ensures Best(history, ssid).Some? ==>
              && at < |history| && history[at] == Best(history, ssid).value && Names(history[at], ssid)
              && (forall i :: 0 <= i < |history| && Names(history[i], ssid) ==> history[i].rssi <= history[at].rssi)
              && (forall i :: 0 <= i < at && Names(history[i], ssid) ==> history[i].rssi < history[at].rssi)
  {
    at := 0;
    if history != [] {
      var n := |history| - 1;
      at := BestIsEarliestStrongest(history[..n], ssid);
      if Names(history[n], ssid) && (Best(history[..n], ssid).None? || history[n].rssi > history[..n][at].rssi) {
        at := n;
      }
    }
  }

  predicate Distinct(list: seq<Network>) {
    forall i, j :: 0 <= i < j < |list| ==> list[i].Name() != list[j].Name()
  }

  /** Each entry is the best sighting of its name. */
  predicate EntriesAreBest(list: seq<Network>, history: seq<Sighting>) {
    forall n :: n in list ==> IsBest(n, history)
  }

  predicate IsBest(n: Network, history: seq<Sighting>) {
    var best := Best(history, n.Name());
    best.Some? && |n.field| == 33 && n.rssi == best.value.rssi && SecurityFits(n.security, best.value.security)
  }

  predicate Lists(list: seq<Network>, ssid: seq<byte>) {
    exists n :: n in list && n.Name() == ssid
  }

  /** A name that was seen but is missing is no stronger than any of twelve entries. */
  ghost predicate MissingAreWeak(list: seq<Network>, history: seq<Sighting>) {
    forall ssid :: Best(history, ssid).Some? && !Lists(list, ssid) ==> IsWeak(list, Best(history, ssid).value.rssi)
  }

  predicate IsWeak(list: seq<Network>, strength: rssi) {
    |list| == 12 && forall n :: n in list ==> strength <= n.rssi
  }

  predicate Nameable(history: seq<Sighting>) {
    forall i :: 0 <= i < |history| ==> Acceptable(history[i]) ==> NulFree(history[i].ssid)
  }

  /** The simple specification: the best sighting of each name, the twelve strongest kept. */
  ghost predicate TopTwelve(list: seq<Network>, history: seq<Sighting>) {
    && |list| <= 12
    && Distinct(list)
    && EntriesAreBest(list, history)
    && MissingAreWeak(list, history)
  }

  /** For names without embedded zeros the bounded list meets the simple specification. */
  lemma {:induction false} GatherIsTopTwelve(history: seq<Sighting>)
    requires Nameable(history)
    ensures TopTwelve(Gather(history), history)
  {
    if history != [] {
      var n := |history| - 1;
      GatherIsTopTwelve(history[..n]);
      TakeKeepsTopTwelve(Gather(history[..n]), history[..n], history[n]);
      assert history == history[..n] + [history[n]];
    }
  }

  lemma BestOfOneMore(history: seq<Sighting>, s: Sighting, ssid: seq<byte>)
    ensures Best(history + [s], ssid) ==
            if Names(s, ssid) && (Best(history, ssid).None? || s.rssi > Best(history, ssid).value.rssi) then Some(s)
            else Best(history, ssid)
    ensures Best(history, ssid).Some? ==> Names(Best(history, ssid).value, ssid)
  {
  }

  /** A sighting no better than the entry of its name, or than every entry of a full list, changes nothing. */
  lemma IgnoringKeeps(list: seq<Network>, history: seq<Sighting>, s: Sighting)
    requires TopTwelve(list, history)
    requires Acceptable(s) ==> (exists n :: n in list && n.Name() == s.ssid && s.rssi <= n.rssi)
                               || (!Lists(list, s.ssid) && IsWeak(list, s.rssi))
    ensures TopTwelve(list, history + [s])
  {
  }

  /** The names of a list in which one entry gives way to another. */
  lemma ListsAfter(list: seq<Network>, i: nat, n: Network, ssid: seq<byte>)
    requires i < |list| && Lists(list, ssid) && ssid != list[i].Name()
    ensures Lists(list[i := n], ssid)
  {
    var m :| m in list && m.Name() == ssid;
    var k :| 0 <= k < |list| && list[k] == m;
    assert list[i := n][k] in list[i := n];
  }

  lemma ReplacedDistinct(list: seq<Network>, i: nat, n: Network)
    requires Distinct(list) && i < |list|
    requires n.Name() == list[i].Name() || !Lists(list, n.Name())
    ensures Distinct(list[i := n])
  {
  }

  lemma ReplacedBest(list: seq<Network>, history: seq<Sighting>, s: Sighting, i: nat)
    requires Acceptable(s) && NulFree(s.ssid) && Distinct(list) && EntriesAreBest(list, history) && i < |list|
    requires s.rssi > list[i].rssi
    requires list[i].Name() == s.ssid
             || (!Lists(list, s.ssid) && (Best(history, s.ssid).Some? ==> IsWeak(list, Best(history, s.ssid).value.rssi)))
    ensures EntriesAreBest(list[i := Store(s)], history + [s])
  {
    PadRoundTrip(s.ssid);
    var after := list[i := Store(s)];
    assert list[i] in list && IsBest(list[i], history);
    BestOfOneMore(history, s, s.ssid);
    forall n | n in after ensures IsBest(n, history + [s]) {
      var k :| 0 <= k < |after| && after[k] == n;
      if k != i {
        assert list[k] in list && IsBest(list[k], history);
        BestOfOneMore(history, s, n.Name());
      }
    }
  }

  /** Storing the stronger sighting over its own entry, or over the weakest of twelve. */
  lemma ReplacingKeeps(list: seq<Network>, history: seq<Sighting>, s: Sighting, i: nat)
    requires Acceptable(s) && NulFree(s.ssid) && TopTwelve(list, history)
    requires i < |list| && s.rssi > list[i].rssi
    requires list[i].Name() == s.ssid || (|list| == MAX_NETWORKS && !Lists(list, s.ssid) && i == Weakest(list))
    ensures TopTwelve(list[i := Store(s)], history + [s])
  {
    PadRoundTrip(s.ssid);
    var after := list[i := Store(s)];
    ReplacedDistinct(list, i, Store(s));
    ReplacedBest(list, history, s, i);
    assert list[i] in list && IsBest(list[i], history);
    forall ssid | Best(history + [s], ssid).Some? && !Lists(after, ssid)
      ensures IsWeak(after, Best(history + [s], ssid).value.rssi)
    {
      BestOfOneMore(history, s, ssid);
      assert after[i] in after;
      if ssid != list[i].Name() {
        if Lists(list, ssid) { ListsAfter(list, i, Store(s), ssid); }
        assert IsWeak(list, Best(history, ssid).value.rssi);
      } else {
        assert forall k :: 0 <= k < |list| ==> list[i].rssi <= after[k].rssi;
      }
    }
  }

  lemma AppendedBest(list: seq<Network>, history: seq<Sighting>, s: Sighting)
    requires Acceptable(s) && NulFree(s.ssid) && EntriesAreBest(list, history)
    requires !Lists(list, s.ssid) && Best(history, s.ssid).None?
    ensures EntriesAreBest(list + [Store(s)], history + [s])
  {
    PadRoundTrip(s.ssid);
    BestOfOneMore(history, s, s.ssid);
    forall n | n in list + [Store(s)] ensures IsBest(n, history + [s]) {
      if n in list {
        assert IsBest(n, history);
        BestOfOneMore(history, s, n.Name());
      }
    }
  }

  lemma AppendingKeeps(list: seq<Network>, history: seq<Sighting>, s: Sighting)
    requires Acceptable(s) && NulFree(s.ssid) && TopTwelve(list, history)
    requires |list| < MAX_NETWORKS && !Lists(list, s.ssid)
    ensures TopTwelve(list + [Store(s)], history + [s])
  {
    PadRoundTrip(s.ssid);
    var after := list + [Store(s)];
    DistinctAtEnd(list, Store(s));
    AppendedBest(list, history, s);
    forall ssid | Best(history + [s], ssid).Some? ensures Lists(after, ssid) {
      BestOfOneMore(history, s, ssid);
      if ssid == s.ssid {
        assert Store(s) in after;
      } else {
        assert Lists(list, ssid);
        var n :| n in list && n.Name() == ssid;
        assert n in after;
      }
    }
  }

  lemma TakeKeepsTopTwelve(list: seq<Network>, history: seq<Sighting>, s: Sighting)
    requires Acceptable(s) ==> NulFree(s.ssid)
    requires TopTwelve(list, history)
    ensures TopTwelve(Take(list, s), history + [s])
  {
    var i := Find(list, s.ssid);
    if !Acceptable(s) {
      IgnoringKeeps(list, history, s);
    } else if i < |list| {
      assert list[i] in list;
      if s.rssi <= list[i].rssi { IgnoringKeeps(list, history, s); } else { ReplacingKeeps(list, history, s, i); }
    } else {
      assert !Lists(list, s.ssid);
      if |list| < MAX_NETWORKS {
        AppendingKeeps(list, history, s);
      } else if s.rssi <= list[Weakest(list)].rssi {
        IgnoringKeeps(list, history, s);
      } else {
        ReplacingKeeps(list, history, s, Weakest(list));
      }
    }
  }

  /** A name with an embedded zero is cut short when it is read back, and so is listed twice. */
  lemma EmbeddedZeroIsListedTwice()
    ensures var s := Sighting([65, 0], -40, Psk);
            !Distinct(Gather([s, s]))
  {
    var s := Sighting([65, 0], -40, Psk);
    var field := Pad([65, 0]);
    assert CString(field) == [65] by {
      assert field[0] == 65 && field[1] == 0 && field[1..][0] == 0;
    }
    assert Gather([s]) == [Store(s)] by {
      assert [s][..0] == [];
      assert Gather([]) == [];
    }
    assert Find([Store(s)], [65, 0]) == 1 by { assert [Store(s)][0].Name() == [65]; }
    assert [s, s][..1] == [s];
    var twice := Gather([s, s]);
    assert twice == [Store(s), Store(s)];
    assert twice[0].Name() == twice[1].Name();
  }

  // --------------------------------------------------------------------- the final order

  /** Insertion behind every entry at least as strong. */
  function Insert(sorted: seq<Network>, n: Network): (r: seq<Network>)
    ensures |r| == |sorted| + 1
  {
    if sorted != [] && sorted[|sorted| - 1].rssi < n.rssi then Insert(sorted[..|sorted| - 1], n) + [sorted[|sorted| - 1]]
    else sorted + [n]
  }

  function Sort(list: seq<Network>): (r: seq<Network>)
    ensures |r| == |list|
  {
    if list == [] then [] else Insert(Sort(list[..|list| - 1]), list[|list| - 1])
  }

  predicate Descending(list: seq<Network>) {
    forall i, j :: 0 <= i < j < |list| ==> list[i].rssi >= list[j].rssi
  }

  /** The entries of one strength, in order. */
  function Level(list: seq<Network>, strength: rssi): seq<Network> {
    if list == [] then []
    else
      var front, last := Level(list[..|list| - 1], strength), list[|list| - 1];
      if last.rssi == strength then front + [last] else front
  }

  lemma {:induction false} InsertMembers(sorted: seq<Network>, n: Network)
    ensures forall m :: m in Insert(sorted, n) <==> m in sorted || m == n
  {
    if sorted != [] && sorted[|sorted| - 1].rssi < n.rssi {
      var front, last := sorted[..|sorted| - 1], sorted[|sorted| - 1];
      InsertMembers(front, n);
      assert sorted == front + [last];
    }
  }

  lemma {:induction false} InsertDescends(sorted: seq<Network>, n: Network)
    requires Descending(sorted)
    ensures Descending(Insert(sorted, n))
    ensures forall m :: m in Insert(sorted, n) <==> m in sorted || m == n
  {
    InsertMembers(sorted, n);
    if sorted != [] && sorted[|sorted| - 1].rssi < n.rssi {
      var front, last := sorted[..|sorted| - 1], sorted[|sorted| - 1];
      InsertDescends(front, n);
      forall k | 0 <= k < |sorted| ensures Insert(front, n)[k].rssi >= last.rssi {
        assert Insert(front, n)[k] in Insert(front, n);
      }
    }
  }

  lemma {:induction false} InsertLevels(sorted: seq<Network>, n: Network, strength: rssi)
    requires Descending(sorted)
    ensures Level(Insert(sorted, n), strength) == Level(sorted, strength) + if n.rssi == strength then [n] else []
  {
    if sorted != [] && sorted[|sorted| - 1].rssi < n.rssi {
      var front, last := sorted[..|sorted| - 1], sorted[|sorted| - 1];
      InsertLevels(front, n, strength);
      assert Insert(sorted, n)[..|sorted|] == Insert(front, n);
      if last.rssi == strength { assert n.rssi != strength; }
    } else {
      assert (sorted + [n])[..|sorted|] == sorted;
    }
  }

  /** Adding a new name at the end of a list. */
  lemma DistinctAtEnd(front: seq<Network>, last: Network)
    ensures Distinct(front + [last]) <==> Distinct(front) && !Lists(front, last.Name())
  {
    var all := front + [last];
    assert forall k :: 0 <= k < |front| ==> all[k] == front[k] && front[k] in front;
    if Distinct(all) {
      assert forall k :: 0 <= k < |front| ==> all[k].Name() != all[|front|].Name();
    }
  }

  lemma {:induction false} InsertDistinct(sorted: seq<Network>, n: Network)
    requires Distinct(sorted) && !Lists(sorted, n.Name())
    ensures Distinct(Insert(sorted, n))
    ensures forall m :: m in Insert(sorted, n) <==> m in sorted || m == n
  {
    if sorted != [] && sorted[|sorted| - 1].rssi < n.rssi {
      var front, last := sorted[..|sorted| - 1], sorted[|sorted| - 1];
      assert sorted == front + [last];
      assert last in sorted;
      DistinctAtEnd(front, last);
      InsertDistinct(front, n);
      DistinctAtEnd(Insert(front, n), last);
    } else {
      DistinctAtEnd(sorted, n);
    }
  }

  /** Insertion puts the entry where everything behind it is weaker and what is in front is not. */
  lemma {:induction false} InsertAt(sorted: seq<Network>, position: nat, n: Network)
    requires position <= |sorted|
    requires forall k :: position <= k < |sorted| ==> sorted[k].rssi < n.rssi
    requires position > 0 ==> sorted[position - 1].rssi >= n.rssi
    ensures Insert(sorted, n) == sorted[..position] + [n] + sorted[position..]
  {
    if position < |sorted| {
      var front := sorted[..|sorted| - 1];
      InsertAt(front, position, n);
      assert sorted[..position] == front[..position];
      assert sorted[position..] == front[position..] + [sorted[|sorted| - 1]];
    } else {
      assert sorted[..position] == sorted && sorted[position..] == [];
    }
  }

  /** An entry moved from `i` to `position`, the ones between shifted by one, is inserted there. */
  lemma Sunk(before: seq<Network>, after: seq<Network>, i: nat, position: nat)
    requires |after| == |before| && position <= i < |before|
    requires forall k :: 0 <= k < position ==> after[k] == before[k]
    requires after[position] == before[i]
    requires forall k :: position < k <= i ==> after[k] == before[k - 1]
    requires forall k :: i < k < |before| ==> after[k] == before[k]
    requires forall k :: position <= k < i ==> before[k].rssi < before[i].rssi
    requires position > 0 ==> before[position - 1].rssi >= before[i].rssi
    ensures after[..i + 1] == Insert(before[..i], before[i])
    ensures after[i + 1..] == before[i..][1..]
  {
    var sorted := before[..i];
    InsertAt(sorted, position, before[i]);
    assert after[..i + 1] == sorted[..position] + [before[i]] + sorted[position..];
  }

  /** The final order is strongest first, and a stable rearrangement: each strength keeps its order. */
  lemma {:induction false} SortIsStable(list: seq<Network>)
    ensures Descending(Sort(list))
    ensures forall m :: m in Sort(list) <==> m in list
    ensures forall strength :: Level(Sort(list), strength) == Level(list, strength)
  {
    if list != [] {
      var n := |list| - 1;
      SortIsStable(list[..n]);
      InsertDescends(Sort(list[..n]), list[n]);
      forall strength ensures Level(Sort(list), strength) == Level(list, strength) {
        InsertLevels(Sort(list[..n]), list[n], strength);
      }
      assert list == list[..n] + [list[n]];
    }
  }

  lemma {:induction false} SortKeepsDistinct(list: seq<Network>)
    requires Distinct(list)
    ensures Distinct(Sort(list))
  {
    if list != [] {
      var n := |list| - 1;
      SortKeepsDistinct(list[..n]);
      SortIsStable(list[..n]);
      assert !Lists(Sort(list[..n]), list[n].Name());
      InsertDistinct(Sort(list[..n]), list[n]);
    }
  }

  ghost predicate StrongestFirst(list: seq<Network>, history: seq<Sighting>) {
    Nameable(history) ==> TopTwelve(list, history) && Descending(list)
  }

  /** What a finished scan publishes: the twelve strongest names, strongest first. */
  lemma SortedListIsTopTwelve(history: seq<Sighting>)
    ensures StrongestFirst(Sort(Gather(history)), history)
  {
    if !Nameable(history) { return; }
    var list := Gather(history);
    GatherIsTopTwelve(history);
    SortIsStable(list);
    SortKeepsDistinct(list);
    forall ssid | Best(history, ssid).Some? && !Lists(Sort(list), ssid)
      ensures IsWeak(Sort(list), Best(history, ssid).value.rssi)
    {
      assert !Lists(list, ssid);
      assert IsWeak(list, Best(history, ssid).value.rssi);
    }
  }

  // ---------------------------------------------------------------------- the static list

  datatype ScanState = Idle | Scanning | Ready | Failed

  datatype View = View(state: ScanState, generation: word, networks: seq<Network>)

  const BLANK := Network(Zeros(SSID_MAX + 1), 0, OpenNetwork)

  const OK := 0
  const EBUSY := -16

  /** The 32-bit counter of published lists. */
  function NextGeneration(generation: word): word { (generation + 1) % 0x1_0000_0000 }

  /** Every list published has the next number, modulo 2^32, and this is that of the last. */
  predicate Numbered(published: seq<View>, generation: word) {
    && generation == |published| % 0x1_0000_0000
    && forall i :: 0 <= i < |published| ==> published[i].generation == (i + 1) % 0x1_0000_0000
  }

  lemma OneMoreNumbered(published: seq<View>, generation: word, view: View)
    requires Numbered(published, generation) && view.generation == NextGeneration(generation)
    ensures Numbered(published + [view], view.generation)
  {
  }

  class ScanList {
    const networks: array<Network>
    var count: nat
    var state: ScanState
    var generation: word
    var active: bool
    /** Every list handed to scan_publish. */
    var published: seq<View>
    /** The sightings delivered since the latest start. */
    ghost var history: seq<Sighting>

    ghost function List(): seq<Network>
      requires count <= networks.Length
      reads this, networks
    {
      networks[..count]
    }

    ghost predicate Valid()
      reads this, networks
    {
      && networks.Length == MAX_NETWORKS && count <= MAX_NETWORKS
      && (active ==> state == Scanning && List() == Gather(history))
      && (state == Ready ==> !active && List() == Sort(Gather(history)))
      && (published != [] ==>
            published[|published| - 1] == View(state, generation, if active then [] else List()))
      && Numbered(published, generation)
    }

    constructor ()
      ensures Valid() && fresh(networks) && !active && state == Idle && published == [] && List() == []
    {
      networks := new Network[MAX_NETWORKS](_ => BLANK);
      count, state, generation, active, published, history := 0, Idle, 0, false, [], [];
    }

    /** The next number, and scan_publish. */
    method Publish()
      requires count <= networks.Length && Numbered(published, generation)
      modifies `published, `generation
      ensures Numbered(published, generation) && generation == NextGeneration(old(generation))
      ensures published == old(published) + [View(state, generation, List())]
    {
      generation := NextGeneration(generation);
      OneMoreNumbered(published, old(generation), View(state, generation, networks[..count]));
      published := published + [View(state, generation, networks[..count])];
    }

    /** `requested` is the answer of the Wi-Fi driver to the scan request. */
    method StartScan(requested: int) returns (rc: int)
      requires Valid()
      modifies this, networks
      ensures Valid()
      ensures old(active) ==>
                rc == EBUSY && published == old(published) && List() == old(List()) && history == old(history) && active
      ensures !old(active) ==> forall i :: 0 <= i < 12 ==> networks[i] == Network(Zeros(33), 0, OpenNetwork)
      ensures !old(active) ==>
                && rc == requested && active == (requested >= 0) && history == [] && List() == []
                && state == (if requested >= 0 then Scanning else Failed)
                && published == old(published) + [View(Scanning, NextGeneration(old(generation)), [])]
                              + (if requested >= 0 then [] else [View(Failed, generation, [])])
    {
      if active { return EBUSY; }
      active := true;
      Clear();
      state, history := Scanning, [];
      Publish();
      rc := requested;
      if rc < 0 {
        state, active := Failed, false;
        Publish();
      }
    }

    /** The list as it was at first. */
    method Clear()
      requires networks.Length == MAX_NETWORKS
      modifies `count, networks
      ensures count == 0 && forall i :: 0 <= i < 12 ==> networks[i] == Network(Zeros(33), 0, OpenNetwork)
    {
      for i := 0 to networks.Length
        invariant forall k :: 0 <= k < i ==> networks[k] == BLANK
        modifies networks
      {
        networks[i] := BLANK;
      }
      count := 0;
    }

    /** scan_result_add. */
    method Add(s: Sighting)
      requires networks.Length == MAX_NETWORKS && count <= MAX_NETWORKS
      modifies `count, networks
      ensures count <= MAX_NETWORKS && List() == Take(old(List()), s)
    {
      if |s.ssid| == 0 || |s.ssid| > SSID_MAX { return; }
      var index := IndexOf(s.ssid);
      if index < count {
        if s.rssi <= networks[index].rssi { return; }
      } else if count >= networks.Length {
        index := FirstWeakest();
        if s.rssi <= networks[index].rssi { return; }
      } else {
        count := count + 1;
      }
      networks[index] := Store(s);
      assert List() == if old(count) < count then old(List()) + [Store(s)] else old(List())[index := Store(s)];
    }

    /** The search for an entry of this name. */
    method IndexOf(ssid: seq<byte>) returns (index: nat)
      requires count <= networks.Length
      ensures index == Find(List(), ssid)
    {
      index := 0;
      while index < count
        invariant index <= count
        invariant forall k :: 0 <= k < index ==> List()[k].Name() != ssid
      {
        if networks[index].Name() == ssid { return; }
        index := index + 1;
      }
    }

    method FirstWeakest() returns (index: nat)
      requires 0 < count <= networks.Length
      ensures index == Weakest(List())
    {
      index := 0;
      var i := 1;
      while i < count
        invariant index < i <= count
        invariant index == Weakest(List()[..i])
      {
        assert List()[..i + 1][..i] == List()[..i];
        if networks[i].rssi < networks[index].rssi { index := i; }
        i := i + 1;
      }
      assert List()[..count] == List();
    }

    /** scan_sort. */
    method SortInPlace()
      requires count <= networks.Length
      modifies networks
      ensures List() == Sort(old(List()))
    {
      ghost var was := networks[..];
      var i := 1;
      if count == 0 { return; }
      assert was[..1] == [was[0]] && was[..1][..0] == [];
      while i < count
        invariant 1 <= i <= count
        invariant networks[..i] == Sort(was[..i])
        invariant networks[i..] == was[i..]
        modifies networks
      {
        assert networks[i] == networks[i..][0] == was[i];
        SinkEntry(i);
        assert was[..i + 1][..i] == was[..i];
        assert networks[i + 1..] == was[i..][1..] == was[i + 1..];
        i := i + 1;
      }
    }

    /** The inner loop of scan_sort: entry `i` moves in front of the weaker ones just before it. */
    method SinkEntry(i: nat)
      requires i < count <= networks.Length
      modifies networks
      ensures networks[..i + 1] == Insert(old(networks[..i]), old(networks[i]))
      ensures networks[i + 1..] == old(networks[i..])[1..]
    {
      var network := networks[i];
      var position := i;
      while position > 0 && networks[position - 1].rssi < network.rssi
        invariant position <= i
        invariant forall k :: 0 <= k < position ==> networks[k] == old(networks[k])
        invariant forall k :: position < k <= i ==> networks[k] == old(networks[k - 1])
        invariant forall k :: i < k < networks.Length ==> networks[k] == old(networks[k])
        invariant forall k :: position <= k < i ==> old(networks[k]).rssi < network.rssi
        modifies networks
      {
        networks[position] := networks[position - 1];
        position := position - 1;
      }
      networks[position] := network;
      Sunk(old(networks[..]), networks[..], i, position);
      assert old(networks[..])[..i] == old(networks[..i]);
    }

    /** NET_EVENT_WIFI_SCAN_RESULT; `None` stands for an event of another interface or without a result. */
    method OnResult(result: Option<Sighting>)
      requires Valid()
      modifies this, networks
      ensures Valid() && active == old(active) && state == old(state) && published == old(published)
      ensures history == if active && result.Some? then old(history) + [result.value] else old(history)
      ensures !active ==> List() == old(List())
    {
      if active && result.Some? {
        GatherOneMore(history, result.value);
        Add(result.value);
        history := history + [result.value];
      }
    }

    /** NET_EVENT_WIFI_SCAN_DONE. */
    method OnDone(station: bool, status: int)
      requires Valid()
      modifies this, networks
      ensures Valid() && !(station && active) && history == old(history)
      ensures !(station && old(active)) ==> published == old(published) && List() == old(List()) && state == old(state)
      ensures station && old(active) ==>
                && state == (if status == 0 then Ready else Failed)
                && published == old(published) + [View(state, generation, Sort(Gather(history)))]
    {
      if !station || !active { return; }
      active := false;
      Settle(status, Gather(history));
    }

    /** The list sorted and its final state announced. */
    method Settle(status: int, ghost gathered: seq<Network>)
      requires networks.Length == MAX_NETWORKS && count <= MAX_NETWORKS && Numbered(published, generation)
      requires List() == gathered
      modifies `state, `generation, `published, networks
      ensures List() == Sort(gathered) && state == (if status == 0 then Ready else Failed)
      ensures Numbered(published, generation)
      ensures published == old(published) + [View(state, generation, Sort(gathered))]
      ensures published[|published| - 1] == View(state, generation, List())
    {
      SortInPlace();
      state := if status == 0 then Ready else Failed;
      Publish();
    }
  }
}
