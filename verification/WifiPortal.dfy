/**
 The Wi-Fi portal's POST requests, after src/net/wifi_portal.c: chunks gathered in one shared buffer
 until a request is complete, and the credentials read from it.
 */
module WifiPortal {
  import opened Bytes

  /** WIFI_PORTAL_REQUEST_SIZE: an SSID, a colon and a password. */
  const SIZE := 96
  const SSID_MAX := 32
  const PASSWORD_MAX := 63
  const COLON: byte := 58

  const OK := 0
  const ENOMEM := -12

  datatype Header = Header(name: string, value: string)

  /** What a chunk brings of the request's headers: nothing, the captured ones, or an error. */
  datatype Headers = NoHeaders | Captured(headers: seq<Header>) | HeadersLost

  datatype Ending = Aborted | Complete

  /** A call of the HTTP server. */
  datatype Event = Chunk(headers: Headers, data: seq<byte>, final: bool) | Closed(ending: Ending)

  /** A call of the endpoint's handler. */
  datatype Call = Final(body: seq<byte>) | Told(ending: Ending, partial: seq<byte>)

  /** The shared buffer and the authorisation of the request it belongs to. */
  datatype Portal = Portal(body: seq<byte>, authorized: bool)

  // ------------------------------------------------------------------------- authorisation

  function Lower(c: char): char {
    if 'A' <= c <= 'Z' then c + ('a' - 'A') else c
  }

  predicate SameName(a: string, b: string) {
    |a| == |b| && forall i :: 0 <= i < |a| ==> Lower(a[i]) == Lower(b[i])
  }

  const AUTHORIZATION := "X-OSKey-Request"

  predicate Grants(h: Header) { SameName(h.name, AUTHORIZATION) && h.value == "1" }

  /** The name in letters of either case. */
  predicate Spells(name: string) {
    var small, large := "x-oskey-request", "X-OSKEY-REQUEST";
    |name| == 15 && forall i :: 0 <= i < 15 ==> name[i] == small[i] || name[i] == large[i]
  }

  lemma GrantsSpells(h: Header)
    ensures Grants(h) <==> Spells(h.name) && h.value == "1"
  {
    var small, large := "x-oskey-request", "X-OSKEY-REQUEST";
    assert forall i :: 0 <= i < 15 ==> Lower(AUTHORIZATION[i]) == small[i] == Lower(small[i]) == Lower(large[i]);
    if SameName(h.name, AUTHORIZATION) {
      forall i | 0 <= i < 15 ensures h.name[i] == small[i] || h.name[i] == large[i] {
        assert Lower(h.name[i]) == small[i];
      }
    }
  }

  predicate Authorizes(h: Headers) {
    h.Captured? && exists i :: 0 <= i < |h.headers| && Grants(h.headers[i])
  }

  /** request_has_authorization. */
  method HasAuthorization(h: Headers) returns (r: bool)
    ensures r <==> Authorizes(h)
    ensures r <==> h.Captured? && exists i :: 0 <= i < |h.headers| && Spells(h.headers[i].name) && h.headers[i].value == "1"
  {
    if !h.Captured? { return false; }
    forall i | 0 <= i < |h.headers|
      ensures Grants(h.headers[i]) <==> Spells(h.headers[i].name) && h.headers[i].value == "1"
    {
      GrantsSpells(h.headers[i]);
    }
    for i := 0 to |h.headers|
      invariant forall k :: 0 <= k < i ==> !Grants(h.headers[k])
    {
      if Grants(h.headers[i]) { return true; }
    }
    r := false;
  }

  // ---------------------------------------------------------------------- the state machine

  /** What a completed request is answered: 403, or the status its handler gives for the body. */
  datatype Reply = Forbidden | OfHandler(body: seq<byte>)

  datatype Outcome = Outcome(portal: Portal, calls: seq<Call>, rc: int, reply: Option<Reply>)

  function Step(p: Portal, e: Event): Outcome {
    match e
    case Closed(ending) => Outcome(Portal([], false), if p.authorized then [Told(ending, p.body)] else [], OK, None)
    case Chunk(headers, data, final) =>
      var authorized := if headers == NoHeaders then p.authorized else Authorizes(headers);
      var body := p.body + data;
      if |body| > SIZE then Outcome(Portal([], false), [Told(Aborted, p.body)], ENOMEM, None)
      else if !final then Outcome(Portal(body, authorized), [], OK, None)
      else if authorized then Outcome(Portal([], true), [Final(body)], OK, Some(OfHandler(body)))
      else Outcome(Portal([], false), [], OK, Some(Forbidden))
  }

  /** All handler calls of a run, and the portal it leaves behind. */
  function Drive(p: Portal, events: seq<Event>): (Portal, seq<Call>)
    decreases |events|
  {
    if events == [] then (p, [])
    else
      var first := Step(p, events[0]);
      var rest := Drive(first.portal, events[1..]);
      (rest.0, first.calls + rest.1)
  }

  /** The answers to completed requests over a run. */
  function Replies(p: Portal, events: seq<Event>): seq<Reply>
    decreases |events|
  {
    if events == [] then []
    else
      var first := Step(p, events[0]);
      (if first.reply.Some? then [first.reply.value] else []) + Replies(first.portal, events[1..])
  }

  /** The completed bodies that reached the handler. */
  function Finals(calls: seq<Call>): seq<seq<byte>> {
    if calls == [] then []
    else (if calls[0].Final? then [calls[0].body] else []) + Finals(calls[1..])
  }

  lemma {:induction false} FinalsJoin(a: seq<Call>, b: seq<Call>)
    ensures Finals(a + b) == Finals(a) + Finals(b)
  {
    if a == [] {
      assert a + b == b;
    } else {
      var head := if a[0].Final? then [a[0].body] else [];
      assert (a + b)[1..] == a[1..] + b;
      assert Finals(a + b) == head + Finals(a[1..] + b) && Finals(a) == head + Finals(a[1..]);
      FinalsJoin(a[1..], b);
    }
  }

  // -------------------------------------------------------------------------------- requests

  /** The chunks after the first, which carry no headers; the last one is final. */
  function Rest(chunks: seq<seq<byte>>): seq<Event> {
    if chunks == [] then [] else [Chunk(NoHeaders, chunks[0], |chunks| == 1)] + Rest(chunks[1..])
  }

  /** A request in chunks: headers with the first one. */
  function Request(headers: Headers, chunks: seq<seq<byte>>): seq<Event>
    requires chunks != []
  {
    [Chunk(headers, chunks[0], |chunks| == 1)] + Rest(chunks[1..])
  }

  function Concat(chunks: seq<seq<byte>>): seq<byte> {
    if chunks == [] then [] else chunks[0] + Concat(chunks[1..])
  }

  /** Whatever is left of a request that lost or never had its authorisation completes nothing. */
  lemma {:induction false} UnauthorizedRest(p: Portal, chunks: seq<seq<byte>>)
    requires !p.authorized
    ensures Finals(Drive(p, Rest(chunks)).1) == []
    ensures chunks != [] ==> Drive(p, Rest(chunks)).0 == Portal([], false)
    ensures chunks == [] ==> Drive(p, Rest(chunks)).0 == p
    decreases |chunks|
  {
    if chunks != [] {
      var events := Rest(chunks);
      var first := Step(p, events[0]);
      assert events[1..] == Rest(chunks[1..]);
      UnauthorizedRest(first.portal, chunks[1..]);
      FinalsJoin(first.calls, Drive(first.portal, events[1..]).1);
    }
  }

  lemma LastChunk(calls: seq<Call>, chunks: seq<seq<byte>>)
    requires |chunks| == 1 && |calls| == 1 && calls[0].Final?
    ensures chunks[1..] == [] && Concat(chunks) == chunks[0] && Finals(calls) == [calls[0].body]
  {
  }

  lemma {:induction false} AuthorizedRest(p: Portal, chunks: seq<seq<byte>>)
    requires p.authorized && chunks != [] && |p.body| <= SIZE
    ensures var whole := p.body + Concat(chunks);
            && Finals(Drive(p, Rest(chunks)).1) == (if |whole| <= SIZE then [whole] else [])
            && Drive(p, Rest(chunks)).0 == Portal([], |whole| <= SIZE)
    decreases |chunks|
  {
    var events := Rest(chunks);
    var first := Step(p, events[0]);
    assert events[1..] == Rest(chunks[1..]);
    FinalsJoin(first.calls, Drive(first.portal, events[1..]).1);
    assert p.body + Concat(chunks) == (p.body + chunks[0]) + Concat(chunks[1..]);
    if |p.body + chunks[0]| > SIZE {
      UnauthorizedRest(first.portal, chunks[1..]);
    } else if |chunks| > 1 {
      AuthorizedRest(first.portal, chunks[1..]);
    } else {
      LastChunk(first.calls, chunks);
    }
  }

  /** However a body is cut into chunks: the handler sees FINAL once, with the whole body, exactly when the
      request is authorised and the body fits; otherwise never. The buffer is empty again. */
  lemma ChunkingIndependent(p: Portal, headers: Headers, chunks: seq<seq<byte>>)
    requires p.body == [] && headers != NoHeaders && chunks != []
    ensures var whole := Concat(chunks);
            && Finals(Drive(p, Request(headers, chunks)).1) == (if Authorizes(headers) && |whole| <= 96 then [whole] else [])
            && Drive(p, Request(headers, chunks)).0 == Portal([], Authorizes(headers) && |whole| <= 96)
  {
    var events := Request(headers, chunks);
    var first := Step(p, events[0]);
    assert events[1..] == Rest(chunks[1..]);
    FinalsJoin(first.calls, Drive(first.portal, events[1..]).1);
    assert p.body + chunks[0] == chunks[0];
    if |chunks[0]| > SIZE || !Authorizes(headers) {
      UnauthorizedRest(first.portal, chunks[1..]);
    } else if |chunks| > 1 {
      AuthorizedRest(first.portal, chunks[1..]);
    } else {
      LastChunk(first.calls, chunks);
    }
  }

  lemma {:induction false} FittingRest(p: Portal, chunks: seq<seq<byte>>)
    requires chunks != [] && |p.body + Concat(chunks)| <= SIZE
    ensures Replies(p, Rest(chunks)) == [if p.authorized then OfHandler(p.body + Concat(chunks)) else Forbidden]
    decreases |chunks|
  {
    var events := Rest(chunks);
    var first := Step(p, events[0]);
    assert events[1..] == Rest(chunks[1..]);
    assert p.body + Concat(chunks) == (p.body + chunks[0]) + Concat(chunks[1..]);
    if |chunks| > 1 {
      FittingRest(first.portal, chunks[1..]);
    } else {
      assert chunks[1..] == [] && Concat(chunks) == chunks[0] && events[1..] == [];
    }
  }

  /** A request that fits is answered once: by its handler for the whole body if authorised, and 403 if not. */
  lemma AnsweredOnce(p: Portal, headers: Headers, chunks: seq<seq<byte>>)
    requires p.body == [] && headers != NoHeaders && chunks != [] && |Concat(chunks)| <= SIZE
    ensures Replies(p, Request(headers, chunks)) == [if Authorizes(headers) then OfHandler(Concat(chunks)) else Forbidden]
  {
    var events := Request(headers, chunks);
    var first := Step(p, events[0]);
    assert events[1..] == Rest(chunks[1..]);
    assert p.body + chunks[0] == chunks[0];
    if |chunks| > 1 {
      FittingRest(first.portal, chunks[1..]);
    } else {
      assert chunks[1..] == [] && Concat(chunks) == chunks[0];
    }
  }

  /** Requests after one another: whole, and then closed or not by the server before the next; or cut off by it
      before the last chunk, or before any, and closed as aborted. */
  datatype Visit =
    | Whole(headers: Headers, chunks: seq<seq<byte>>, closing: Option<Ending>)
    | Cut(headers: Headers, chunks: seq<seq<byte>>)

  /** The headers come with the first chunk, and a whole request has one. */
  predicate Proper(v: Visit) {
    && (v.chunks != [] ==> v.headers != NoHeaders)
    && (v.Whole? ==> v.chunks != [])
  }

  /** Chunks none of which is final; headers with the first. */
  function Begun(headers: Headers, chunks: seq<seq<byte>>): (events: seq<Event>)
    ensures |events| == |chunks| && forall i :: 0 <= i < |events| ==> events[i].Chunk? && !events[i].final
    decreases |chunks|
  {
    if chunks == [] then [] else [Chunk(headers, chunks[0], false)] + Begun(NoHeaders, chunks[1..])
  }

  function Events(v: Visit): seq<Event>
    requires Proper(v)
  {
    match v
    case Whole(headers, chunks, closing) => Request(headers, chunks) + (if closing.Some? then [Closed(closing.value)] else [])
    case Cut(headers, chunks) => Begun(headers, chunks) + [Closed(Aborted)]
  }

  function AllEvents(visits: seq<Visit>): seq<Event>
    requires forall i :: 0 <= i < |visits| ==> Proper(visits[i])
  {
    if visits == [] then [] else Events(visits[0]) + AllEvents(visits[1..])
  }

  /** The body the handler should see complete, if any. */
  function DueOf(v: Visit): seq<seq<byte>> {
    if v.Whole? && Authorizes(v.headers) && |Concat(v.chunks)| <= SIZE then [Concat(v.chunks)] else []
  }

  function Due(visits: seq<Visit>): seq<seq<byte>> {
    if visits == [] then [] else DueOf(visits[0]) + Due(visits[1..])
  }

  /** Without a final chunk nothing is completed. */
  lemma {:induction false} NoFinals(p: Portal, events: seq<Event>)
    requires forall i :: 0 <= i < |events| ==> events[i].Closed? || !events[i].final
    ensures Finals(Drive(p, events).1) == []
    decreases |events|
  {
    if events != [] {
      var first := Step(p, events[0]);
      NoFinals(first.portal, events[1..]);
      FinalsJoin(first.calls, Drive(first.portal, events[1..]).1);
      assert first.calls != [] ==> first.calls[1..] == [];
    }
  }

  /** Once closed the portal is as new. */
  lemma ClosedIsFresh(p: Portal, events: seq<Event>, ending: Ending)
    ensures Drive(p, events + [Closed(ending)]).0 == Portal([], false)
  {
    DriveJoin(p, events, [Closed(ending)]);
    assert [Closed(ending)][1..] == [];
  }

  lemma {:induction false} DriveJoin(p: Portal, a: seq<Event>, b: seq<Event>)
    ensures var mid := Drive(p, a);
            Drive(p, a + b) == (Drive(mid.0, b).0, mid.1 + Drive(mid.0, b).1)
    decreases |a|
  {
    if a == [] {
      assert a + b == b;
      assert [] + Drive(p, b).1 == Drive(p, b).1;
    } else {
      var first := Step(p, a[0]);
      DriveJoin(first.portal, a[1..], b);
      assert (a + b)[1..] == a[1..] + b;
      var tail := Drive(first.portal, a[1..]);
      assert first.calls + (tail.1 + Drive(tail.0, b).1) == (first.calls + tail.1) + Drive(tail.0, b).1;
    }
  }

  lemma OneVisit(p: Portal, v: Visit)
    requires p.body == [] && Proper(v)
    ensures Drive(p, Events(v)).0.body == []
    ensures Finals(Drive(p, Events(v)).1) == DueOf(v)
  {
    match v
    case Cut(headers, chunks) =>
      NoFinals(p, Events(v));
      ClosedIsFresh(p, Begun(headers, chunks), Aborted);
    case Whole(headers, chunks, closing) =>
      var request := Request(headers, chunks);
      ChunkingIndependent(p, headers, chunks);
      if closing.Some? {
        var closed := [Closed(closing.value)];
        var mid := Drive(p, request);
        ClosedIsFresh(p, request, closing.value);
        DriveJoin(p, request, closed);
        FinalsJoin(mid.1, Drive(mid.0, closed).1);
        NoFinals(mid.0, closed);
      } else {
        assert request + [] == request;
      }
  }

  /** Over any sequence of requests, cut up in any way, completed or aborted part-way, the bodies the handler sees
      complete are those of the authorised requests that fit, each whole and its own. */
  lemma {:induction false} RequestsIndependent(p: Portal, visits: seq<Visit>)
    requires p.body == [] && forall i :: 0 <= i < |visits| ==> Proper(visits[i])
    ensures Finals(Drive(p, AllEvents(visits)).1) == Due(visits)
    decreases |visits|
  {
    if visits != [] {
      var first := Events(visits[0]);
      var mid := Drive(p, first);
      OneVisit(p, visits[0]);
      RequestsIndependent(mid.0, visits[1..]);
      DriveJoin(p, first, AllEvents(visits[1..]));
      FinalsJoin(mid.1, Drive(mid.0, AllEvents(visits[1..])).1);
    }
  }

  // The handler is also told of the ends of requests, and of requests too large. Those notices can pass from
  // one request to the next in one case.

  const FRESH := Portal([], false)

  /** The calls a request causes on a fresh portal. */
  function Alone(v: Visit): seq<Call>
    requires Proper(v)
  {
    Drive(FRESH, Events(v)).1
  }

  function AllAlone(visits: seq<Visit>): seq<Call>
    requires forall i :: 0 <= i < |visits| ==> Proper(visits[i])
  {
    if visits == [] then [] else Alone(visits[0]) + AllAlone(visits[1..])
  }

  /** An authorised request that fitted and was not closed leaves its authorisation behind. */
  predicate LeavesAuthorized(v: Visit) {
    v.Whole? && v.closing.None? && Authorizes(v.headers) && |Concat(v.chunks)| <= 96
  }

  /** No request that is aborted before its first chunk finds an authorisation left behind. */
  predicate Clean(authorized: bool, visits: seq<Visit>)
    decreases |visits|
  {
    visits == [] || (!(authorized && visits[0].chunks == []) && Clean(LeavesAuthorized(visits[0]), visits[1..]))
  }

  /** A request with a chunk makes of any portal with an empty buffer what it makes of a fresh one; without one
      it only tells of its abort, if an authorisation is left. */
  lemma VisitAlone(p: Portal, v: Visit)
    requires p.body == [] && Proper(v)
    ensures Drive(p, Events(v)).0 == Portal([], LeavesAuthorized(v))
    ensures Drive(p, Events(v)).1 == if p.authorized && v.chunks == [] then [Told(Aborted, [])] else Alone(v)
    ensures v.chunks == [] ==> Alone(v) == []
  {
    var events := Events(v);
    match v
    case Cut(headers, chunks) =>
      ClosedIsFresh(p, Begun(headers, chunks), Aborted);
      if chunks == [] { assert events == [Closed(Aborted)] && events[1..] == []; }
    case Whole(headers, chunks, closing) =>
      ChunkingIndependent(p, headers, chunks);
      if closing.Some? {
        ClosedIsFresh(p, Request(headers, chunks), closing.value);
      } else {
        assert Request(headers, chunks) + [] == Request(headers, chunks);
      }
    if v.chunks != [] { assert Step(p, events[0]) == Step(FRESH, events[0]); }
  }

  /** Over any sequence of requests every call of the handler is one that its request causes by itself, exactly
      unless a request aborted before its first chunk follows an authorised one that was never closed. */
  lemma {:induction false} CallsIndependentIff(p: Portal, visits: seq<Visit>)
    requires p.body == [] && forall i :: 0 <= i < |visits| ==> Proper(visits[i])
    ensures |Drive(p, AllEvents(visits)).1| >= |AllAlone(visits)|
    ensures Drive(p, AllEvents(visits)).1 == AllAlone(visits) <==> Clean(p.authorized, visits)
    decreases |visits|
  {
    if visits != [] {
      var mid := Drive(p, Events(visits[0]));
      VisitAlone(p, visits[0]);
      DriveJoin(p, Events(visits[0]), AllEvents(visits[1..]));
      CallsIndependentIff(mid.0, visits[1..]);
      var rest := Drive(mid.0, AllEvents(visits[1..])).1;
      if |mid.1| == |Alone(visits[0])| {
        assert (mid.1 + rest)[|mid.1|..] == rest && (mid.1 + AllAlone(visits[1..]))[|mid.1|..] == AllAlone(visits[1..]);
      }
    }
  }

  /** Such a sequence: the handler of the second request, which nobody authorised, is told of its abort. */
  lemma StaleNotice()
    ensures var visits := [Whole(Captured([Header(AUTHORIZATION, "1")]), [[65]], None), Cut(NoHeaders, [])];
            && Proper(visits[0]) && Proper(visits[1])
            && Drive(FRESH, AllEvents(visits)).1 == AllAlone(visits) + [Told(Aborted, [])]
  {
    var whole, cut := Whole(Captured([Header(AUTHORIZATION, "1")]), [[65]], None), Cut(NoHeaders, []);
    var visits := [whole, cut];
    assert Grants(whole.headers.headers[0]);
    assert Concat(whole.chunks) == [65];
    assert visits[1..] == [cut] && [cut][1..] == [];
    VisitAlone(FRESH, whole);
    VisitAlone(Portal([], true), cut);
    DriveJoin(FRESH, Events(whole), AllEvents([cut]));
    assert AllEvents([cut]) == Events(cut) && AllAlone([cut]) == [];
  }

  // ------------------------------------------------------------------------------ in place

  class Endpoint {
    const body: array<byte>
    var len: nat
    var authorized: bool
    ghost var calls: seq<Call>

    /** Nothing is kept beyond the length. */
    ghost predicate Valid()
      reads this, body
    {
      body.Length == SIZE && len <= SIZE && forall i :: len <= i < SIZE ==> body[i] == 0
    }

    ghost function State(): Portal
      requires Valid()
      reads this, body
    {
      Portal(body[..len], authorized)
    }

    constructor ()
      ensures Valid() && fresh(body) && State() == Portal([], false) && calls == []
    {
      body := new byte[SIZE](_ => 0);
      len, authorized, calls := 0, false, [];
    }

    /** request_body_reset: byte by byte from the end. */
    method Reset()
      requires Valid()
      modifies `len, body
      ensures Valid() && len == 0
    {
      while len > 0
        invariant Valid()
      {
        len := len - 1;
        body[len] := 0;
      }
    }

    /** The chunk behind what is already there. */
    method Append(data: seq<byte>)
      requires Valid() && len + |data| <= SIZE
      modifies `len, body
      ensures Valid() && body[..len] == old(body[..len]) + data
    {
      for i := 0 to |data|
        invariant body[..len] == old(body[..len])
        invariant body[len..len + i] == data[..i]
        invariant forall k :: len + i <= k < SIZE ==> body[k] == 0
        modifies body
      {
        body[len + i] := data[i];
        assert body[len..len + i + 1] == body[len..len + i] + [data[i]];
      }
      assert body[..len + |data|] == body[..len] + body[len..len + |data|];
      len := len + |data|;
    }

    /** post_handler. */
    method PostHandler(e: Event) returns (rc: int, reply: Option<Reply>)
      requires Valid()
      modifies this, body
      ensures Valid()
      ensures old(calls) <= calls && Outcome(State(), calls[|old(calls)|..], rc, reply) == Step(old(State()), e)
    {
      reply := None;
      match e {
      case Closed(ending) =>
        if authorized { calls := calls + [Told(ending, body[..len])]; }
        Reset();
        authorized := false;
        rc := OK;
      case Chunk(headers, data, final) =>
        if headers != NoHeaders { authorized := HasAuthorization(headers); }
        if |data| > SIZE - len {
          calls := calls + [Told(Aborted, body[..len])];
          Reset();
          authorized := false;
          return ENOMEM, None;
        }
        Append(data);
        rc := OK;
        if final {
          if authorized {
            calls := calls + [Final(body[..len])];
            reply := Some(OfHandler(body[..len]));
          } else {
            reply := Some(Forbidden);
          }
          Reset();
        }
      }
    }
  }

  // ---------------------------------------------------------------------- Wi-Fi credentials

  datatype Credentials = Credentials(ssid: seq<byte>, password: seq<byte>)

  /** Where the first colon is, or the length. */
  function FirstColon(body: seq<byte>): (i: nat)
    ensures i <= |body| && COLON !in body[..i] && (i < |body| ==> body[i] == COLON)
  {
    if body == [] || body[0] == COLON then 0
    else
      var i := FirstColon(body[1..]);
      assert body[..i + 1] == [body[0]] + body[1..][..i];
      i + 1
  }

  predicate Plausible(c: Credentials) {
    1 <= |c.ssid| <= SSID_MAX && (|c.password| == 0 || 8 <= |c.password| <= PASSWORD_MAX)
  }

  /** wifi_post: what a completed body submits, if it is not refused. */
  function WifiPost(body: seq<byte>): Option<Credentials> {
    var i := FirstColon(body);
    if i == |body| then None
    else
      var c := Credentials(body[..i], body[i + 1..]);
      if Plausible(c) then Some(c) else None
  }

  function Body(c: Credentials): seq<byte> { c.ssid + [COLON] + c.password }

  lemma {:induction false} FirstColonAfter(front: seq<byte>, back: seq<byte>)
    requires COLON !in front
    ensures FirstColon(front + [COLON] + back) == |front|
  {
    var body := front + [COLON] + back;
    if front != [] {
      FirstColonAfter(front[1..], back);
      assert body[0] == front[0] && body[1..] == front[1..] + [COLON] + back;
    }
  }

  /** Credentials come back as entered exactly when they have plausible lengths and no colon in the SSID;
      they then always fit the buffer. */
  lemma CredentialsRoundTrip(c: Credentials)
    ensures WifiPost(Body(c)) == Some(c) <==> Plausible(c) && COLON !in c.ssid
    ensures Plausible(c) ==> |Body(c)| <= SIZE
  {
    var body, n := Body(c), |c.ssid|;
    assert body[n] == COLON && body[..n] == c.ssid && body[n + 1..] == c.password;
    if COLON !in c.ssid { FirstColonAfter(c.ssid, c.password); }
  }

  /** Whatever is submitted is what the body says: nothing is lost but the first colon. */
  lemma SubmittedIsTheBody(body: seq<byte>)
    ensures WifiPost(body).Some? ==> Body(WifiPost(body).value) == body && COLON !in WifiPost(body).value.ssid
  {
  }
}
