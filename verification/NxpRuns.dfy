/** Whole runs of the seed store: any sequence of public calls under any bus faults. */
module NxpRuns {
  import opened Bytes
  import opened NxpChip
  import opened NxpDevice
  import opened NxpStore

  type Kdf = (seq<byte>, seq<byte>) -> seq<byte>

  /** A run: call i takes trace[i] to trace[i + 1] within the store's contract. */
  predicate IsRun(derive: Kdf, key: seq<byte>, trace: seq<Snapshot>, calls: seq<Call>) {
    && |trace| == |calls| + 1
    && forall i :: 0 <= i < |calls| ==> Allowed(derive, key, trace[i], calls[i], trace[i + 1])
  }

  lemma RunPrefix(derive: Kdf, key: seq<byte>, trace: seq<Snapshot>, calls: seq<Call>, n: nat)
    requires IsRun(derive, key, trace, calls) && n <= |calls|
    ensures IsRun(derive, key, trace[..n + 1], calls[..n])
  {
  }

  // ---------------------------------------------------------------- lockout

  /** The PIN object, where there is one, carries the limit of ten and no more failures than that. */
  predicate PinFits(objects: Objects) {
    PIN_ID in objects ==> objects[PIN_ID].UserId? && objects[PIN_ID].limit == PIN_LIMIT && objects[PIN_ID].failures <= PIN_LIMIT
  }

  /** An unlock of a complete chip whose PIN key is right or not, and whose verification the chip has counted. */
  predicate Verified(derive: Kdf, s: Snapshot, call: Call, t: Snapshot, right: bool) {
    && call.Unlock? && call.pinKey.Some? && Complete(s.objects) && s.objects[PIN_ID].UserId?
    && (right <==> Credential(s.objects, derive, call.pinKey.value) == s.objects[PIN_ID].value)
    && t.objects == Counted(s.objects, derive, call.pinKey.value)
  }

  /** Wrong verifications that reached the chip among the first n calls, since the PIN was written or a right
      verification reached the chip that it still accepted. */
  function WrongSince(derive: Kdf, trace: seq<Snapshot>, calls: seq<Call>, n: nat): nat
    requires |trace| == |calls| + 1 && n <= |calls|
  {
    if PIN_ID !in trace[n].objects then 0
    else if n == 0 then (if trace[0].objects[PIN_ID].UserId? then trace[0].objects[PIN_ID].failures else 0)
    else
      var before := WrongSince(derive, trace, calls, n - 1);
      if Verified(derive, trace[n - 1], calls[n - 1], trace[n], false) then before + 1
      else if Verified(derive, trace[n - 1], calls[n - 1], trace[n], true) && before < PIN_LIMIT then 0
      else before
  }

  /** The failures on the chip after one more call. */
  lemma PinStep(derive: Kdf, key: seq<byte>, s: Snapshot, call: Call, t: Snapshot)
    requires Allowed(derive, key, s, call, t) && PinFits(s.objects) && PIN_ID in t.objects
    ensures PinFits(t.objects)
    ensures PIN_ID !in s.objects ==> t.objects[PIN_ID].failures == 0 && !call.Unlock?
    ensures PIN_ID in s.objects ==>
              var was, now := s.objects[PIN_ID].failures, t.objects[PIN_ID].failures;
              now == if Verified(derive, s, call, t, false) then (if was < PIN_LIMIT then was + 1 else was)
                     else if Verified(derive, s, call, t, true) && was < PIN_LIMIT then 0
                     else was
  {
    if call.Erase? {
      assert PIN_ID in Wallet(t.objects) && Wallet(t.objects)[PIN_ID] == t.objects[PIN_ID];
      assert PIN_ID in Wallet(s.objects);
    }
  }

  /** In every run the chip's counter stands at the wrong verifications that reached it since the last right
      one, up to ten; so the PIN is used up exactly from the tenth on. */
  lemma {:induction false} TenWrongExhaust(derive: Kdf, key: seq<byte>, trace: seq<Snapshot>, calls: seq<Call>, n: nat)
    requires IsRun(derive, key, trace, calls) && n <= |calls| && PinFits(trace[0].objects)
    ensures PinFits(trace[n].objects)
    ensures var wrong := WrongSince(derive, trace, calls, n);
            && (PIN_ID in trace[n].objects ==>
                  trace[n].objects[PIN_ID].failures == if wrong < PIN_LIMIT then wrong else PIN_LIMIT)
            && (Locked(trace[n].objects) <==> wrong >= PIN_LIMIT)
  {
    if n > 0 {
      TenWrongExhaust(derive, key, trace, calls, n - 1);
      assert Allowed(derive, key, trace[n - 1], calls[n - 1], trace[n]);
      if PIN_ID in trace[n].objects {
        PinStep(derive, key, trace[n - 1], calls[n - 1], trace[n]);
      }
    }
  }

  /** So an unlock succeeds only after fewer than ten, with fewer than ten failures on the chip. */
  lemma UnlockNeedsFewerThanTen(derive: Kdf, key: seq<byte>, trace: seq<Snapshot>, calls: seq<Call>, n: nat)
    requires IsRun(derive, key, trace, calls) && PinFits(trace[0].objects)
    requires n < |calls| && calls[n].Unlock? && calls[n].rc == OK
    ensures WrongSince(derive, trace, calls, n) < PIN_LIMIT
    ensures PIN_ID in trace[n].objects && trace[n].objects[PIN_ID].UserId?
    ensures trace[n].objects[PIN_ID].failures < PIN_LIMIT
    ensures PIN_ID in trace[n + 1].objects && trace[n + 1].objects[PIN_ID].UserId?
    ensures trace[n + 1].objects[PIN_ID].failures == 0
  {
    TenWrongExhaust(derive, key, trace, calls, n);
    assert Allowed(derive, key, trace[n], calls[n], trace[n + 1]);
  }

  predicate Locked(objects: Objects) {
    PIN_ID in objects && Exhausted(objects[PIN_ID])
  }

  /** Once the PIN is exhausted, no call but Erase changes any stored object, and none unlocks or provisions. */
  lemma {:induction false} LockoutIsPermanent(derive: Kdf, key: seq<byte>, trace: seq<Snapshot>, calls: seq<Call>)
    requires IsRun(derive, key, trace, calls) && Locked(trace[0].objects)
    requires forall i :: 0 <= i < |calls| ==> !calls[i].Erase?
    ensures forall i :: 0 <= i < |trace| ==> trace[i].objects == trace[0].objects
    ensures forall i :: 0 <= i < |calls| && calls[i].Unlock? ==> calls[i].rc != OK
    ensures forall i :: 0 <= i < |calls| && calls[i].Initialize? ==> calls[i].rc != OK
    decreases |calls|
  {
    if calls != [] {
      var n := |calls| - 1;
      RunPrefix(derive, key, trace, calls, n);
      LockoutIsPermanent(derive, key, trace[..n + 1], calls[..n]);
      assert trace[n].objects == trace[..n + 1][n].objects == trace[0].objects;
      LockedStep(derive, key, trace[n], calls[n], trace[n + 1]);
      forall i | 0 <= i < |trace| ensures trace[i].objects == trace[0].objects {
        if i <= n {
          assert trace[..n + 1][i] == trace[i];
        }
      }
      forall i | 0 <= i < n ensures calls[i] == calls[..n][i] {}
    }
  }

  lemma LockedStep(derive: Kdf, key: seq<byte>, s: Snapshot, call: Call, t: Snapshot)
    requires Allowed(derive, key, s, call, t) && Locked(s.objects) && !call.Erase?
    ensures t.objects == s.objects
    ensures call.Unlock? || call.Initialize? ==> call.rc != OK
  {
    if call.Unlock? && call.pinKey.Some? {
      assert Counted(s.objects, derive, call.pinKey.value) == s.objects;
    }
  }

  // ------------------------------------------------------- verification count

  function UnlockCount(calls: seq<Call>): nat {
    if calls == [] then 0 else UnlockCount(calls[..|calls| - 1]) + if calls[|calls| - 1].Unlock? then 1 else 0
  }

  /** While anything of the wallet is on the chip and it is not erased, the PIN is verified at most once
      per unlock call and never otherwise. */
  lemma {:induction false} OneVerificationPerUnlock(derive: Kdf, key: seq<byte>, trace: seq<Snapshot>, calls: seq<Call>)
    requires IsRun(derive, key, trace, calls) && !Blank(trace[0].objects)
    requires forall i :: 0 <= i < |calls| ==> !calls[i].Erase?
    ensures trace[|calls|].verifies <= trace[0].verifies + UnlockCount(calls)
    ensures !Blank(trace[|calls|].objects)
    decreases |calls|
  {
    if calls != [] {
      var n := |calls| - 1;
      RunPrefix(derive, key, trace, calls, n);
      OneVerificationPerUnlock(derive, key, trace[..n + 1], calls[..n]);
      assert Allowed(derive, key, trace[n], calls[n], trace[n + 1]);
    }
  }

  // ---------------------------------------------------------- crash consistency

  /** Whatever happened before, a state that was ever cached is true of the chip when the mutex is released. */
  lemma {:induction false} AnswersAreTrue(derive: Kdf, key: seq<byte>, trace: seq<Snapshot>, calls: seq<Call>, i: nat)
    requires IsRun(derive, key, trace, calls) && i < |calls|
    ensures Consistent(trace[i + 1].state, trace[i + 1].objects)
    ensures calls[i] == Call.SeedExists(0) ==> Blank(trace[i].objects)
    ensures calls[i] == Call.SeedExists(1) ==> Complete(trace[i].objects)
    ensures calls[i] == Call.Erase(OK) ==> Blank(trace[i + 1].objects)
    ensures calls[i].Initialize? && calls[i].rc == OK ==> Blank(trace[i].objects) && Complete(trace[i + 1].objects)
  {
    assert Allowed(derive, key, trace[i], calls[i], trace[i + 1]);
  }

  // ------------------------------------------------------------ seed provenance

  /** Call i stored a seed: an initialization that found the chip blank and left a seed on it. */
  predicate StoresSeed(trace: seq<Snapshot>, calls: seq<Call>, i: nat)
    requires |trace| == |calls| + 1 && i < |calls|
  {
    && calls[i].Initialize? && calls[i].pinKey.Some? && calls[i].newSeed.Some?
    && Blank(trace[i].objects) && SEED_ID in trace[i + 1].objects
  }

  /** The call whose seed is on the chip after the first n calls. */
  function Author(trace: seq<Snapshot>, calls: seq<Call>, n: nat): (author: Option<nat>)
    requires |trace| == |calls| + 1 && n <= |calls|
    ensures author.Some? ==> author.value < n && StoresSeed(trace, calls, author.value)
  {
    if n == 0 || SEED_ID !in trace[n].objects then None
    else if StoresSeed(trace, calls, n - 1) then Some(n - 1)
    else Author(trace, calls, n - 1)
  }

  /** The last initialization among the first n calls that returned OK. */
  function LastSuccess(calls: seq<Call>, n: nat): (last: Option<nat>)
    requires n <= |calls|
    ensures last.Some? ==> last.value < n && calls[last.value].Initialize? && calls[last.value].rc == OK
    ensures last.None? ==> forall i :: 0 <= i < n ==> !(calls[i].Initialize? && calls[i].rc == OK)
    ensures last.Some? ==> forall i :: last.value < i < n ==> !(calls[i].Initialize? && calls[i].rc == OK)
  {
    if n == 0 then None
    else if calls[n - 1].Initialize? && calls[n - 1].rc == OK then Some(n - 1)
    else LastSuccess(calls, n - 1)
  }

  /** Only an initialization that finds a blank chip brings a seed onto it; nothing alters it there. */
  lemma SeedStep(derive: Kdf, key: seq<byte>, s: Snapshot, call: Call, t: Snapshot)
    requires Allowed(derive, key, s, call, t) && SEED_ID in t.objects
    ensures SEED_ID in s.objects ==> t.objects[SEED_ID] == s.objects[SEED_ID]
    ensures SEED_ID !in s.objects ==>
              call.Initialize? && call.pinKey.Some? && call.newSeed.Some? && Blank(s.objects)
    ensures SEED_ID !in s.objects ==> t.objects[SEED_ID] == Binary(PIN_ID, call.newSeed.value)
  {
    if call.Erase? {
      assert SEED_ID in Wallet(t.objects) && Wallet(t.objects)[SEED_ID] == t.objects[SEED_ID];
      assert SEED_ID in Wallet(s.objects);
    }
  }

  /** A seed on the chip is the one its author was asked to store. */
  lemma {:induction false} SeedIsAuthors(derive: Kdf, key: seq<byte>, trace: seq<Snapshot>, calls: seq<Call>, n: nat)
    requires IsRun(derive, key, trace, calls) && n <= |calls| && Blank(trace[0].objects) && SEED_ID in trace[n].objects
    ensures Author(trace, calls, n).Some?
    ensures trace[n].objects[SEED_ID] == Binary(PIN_ID, calls[Author(trace, calls, n).value].newSeed.value)
    ensures forall i :: Author(trace, calls, n).value < i <= n ==> SEED_ID in trace[i].objects
  {
    if n > 0 {
      assert Allowed(derive, key, trace[n - 1], calls[n - 1], trace[n]);
      SeedStep(derive, key, trace[n - 1], calls[n - 1], trace[n]);
      if !StoresSeed(trace, calls, n - 1) {
        SeedIsAuthors(derive, key, trace, calls, n - 1);
      }
    }
  }

  /** A successful unlock returns the seed of the call that stored it. */
  lemma UnlockReturnsStoredSeed(derive: Kdf, key: seq<byte>, trace: seq<Snapshot>, calls: seq<Call>, n: nat)
    requires IsRun(derive, key, trace, calls) && Blank(trace[0].objects)
    requires n < |calls| && calls[n].Unlock? && calls[n].rc == OK
    ensures Author(trace, calls, n).Some?
    ensures calls[n].output == calls[Author(trace, calls, n).value].newSeed
  {
    assert Allowed(derive, key, trace[n], calls[n], trace[n + 1]);
    SeedIsAuthors(derive, key, trace, calls, n);
  }

  /** That call is the last successful initialization exactly when it returned OK itself. */
  lemma AuthorIsLastSuccessIff(derive: Kdf, key: seq<byte>, trace: seq<Snapshot>, calls: seq<Call>, n: nat)
    requires IsRun(derive, key, trace, calls) && n <= |calls| && Blank(trace[0].objects) && SEED_ID in trace[n].objects
    ensures Author(trace, calls, n).Some?
    ensures LastSuccess(calls, n) == Author(trace, calls, n) <==> calls[Author(trace, calls, n).value].rc == OK
  {
    SeedIsAuthors(derive, key, trace, calls, n);
    var author := Author(trace, calls, n).value;
    forall i | author < i < n ensures !(calls[i].Initialize? && calls[i].rc == OK) {
      assert SEED_ID in trace[i].objects;
      assert Allowed(derive, key, trace[i], calls[i], trace[i + 1]);
    }
  }

  /** So when nothing was initialized after an erase since the last successful initialization, a successful
      unlock returns its seed. */
  lemma UnlockReturnsLastSuccess(derive: Kdf, key: seq<byte>, trace: seq<Snapshot>, calls: seq<Call>, n: nat)
    requires IsRun(derive, key, trace, calls) && Blank(trace[0].objects)
    requires n < |calls| && calls[n].Unlock? && calls[n].rc == OK
    requires LastSuccess(calls, n).Some?
    requires forall i, j :: LastSuccess(calls, n).value < i < j < n && calls[i].Erase? ==> !calls[j].Initialize?
    ensures calls[n].output == calls[LastSuccess(calls, n).value].newSeed
  {
    var k := LastSuccess(calls, n).value;
    assert Allowed(derive, key, trace[k], calls[k], trace[k + 1]);
    AuthorSince(derive, key, trace, calls, k, n);
    UnlockReturnsStoredSeed(derive, key, trace, calls, n);
  }

  /** From a call that stored a seed on, it is there, or an erase has taken it. */
  lemma {:induction false} AuthorSince(derive: Kdf, key: seq<byte>, trace: seq<Snapshot>, calls: seq<Call>, k: nat,
                                       n: nat)
    requires IsRun(derive, key, trace, calls) && k < n <= |calls| && StoresSeed(trace, calls, k)
    requires forall i, j :: k < i < j < n && calls[i].Erase? ==> !calls[j].Initialize?
    ensures if SEED_ID in trace[n].objects then Author(trace, calls, n) == Some(k)
            else exists i :: k < i < n && calls[i].Erase?
  {
    if n > k + 1 {
      AuthorSince(derive, key, trace, calls, k, n - 1);
      assert Allowed(derive, key, trace[n - 1], calls[n - 1], trace[n]);
      if SEED_ID in trace[n].objects {
        SeedStep(derive, key, trace[n - 1], calls[n - 1], trace[n]);
      }
    }
  }

  /** Without that condition it fails: a first initialization that reports an error can still have stored
      everything, and a later unlock then returns the seed of a call that never succeeded. */
  lemma UnlockAfterFailedInitialize(derive: Kdf, key: seq<byte>, pinKey: seq<byte>, seed: seq<byte>)
    returns (trace: seq<Snapshot>, calls: seq<Call>)
    requires |seed| == 64
    ensures IsRun(derive, key, trace, calls) && |calls| == 3 && Blank(trace[0].objects)
    ensures calls == [Call.Initialize(Some(pinKey), Some(seed), ERROR), Call.Refresh(OK),
                      Call.Unlock(Some(pinKey), Some(seed), OK)]
    ensures LastSuccess(calls, 2) == None
  {
    var salt := Zeros(16);
    var full := map[SALT_ID := Binary(0, salt), PIN_ID := UserId(derive(pinKey, salt), PIN_LIMIT, 0),
                    SEED_ID := Binary(PIN_ID, seed)];
    trace := [Snapshot(map[], Unavailable, 0), Snapshot(full, Incomplete, 0), Snapshot(full, Ready, 0), Snapshot(full, Ready, 1)];
    calls := [Call.Initialize(Some(pinKey), Some(seed), ERROR), Call.Refresh(OK),
              Call.Unlock(Some(pinKey), Some(seed), OK)];
    assert Elsewhere(full) == map[] == Elsewhere(map[]);
    assert Counted(full, derive, pinKey) == full;
    assert LastSuccess(calls, 0) == None && LastSuccess(calls, 1) == None;
  }

  // ------------------------------------------------------- the store's own runs

  datatype Request =
    | DoRefresh
    | DoSeedExists
    | DoInitialize(pinKey: Option<seq<byte>>, seed: Option<seq<byte>>)
    | DoUnlock(pinKey: Option<seq<byte>>)
    | DoErase

  predicate Answers(request: Request, call: Call) {
    match request
    case DoRefresh => call.Refresh?
    case DoSeedExists => call.SeedExists?
    case DoInitialize(pinKey, seed) => call.Initialize? && call.pinKey == pinKey && call.newSeed == seed
    case DoUnlock(pinKey) => call.Unlock? && call.pinKey == pinKey && call.output.Some?
    case DoErase => call.Erase?
  }

  /** The store's code, driven by any requests on a bus whose behaviour may change before every call,
      produces runs in the sense above; so every theorem about runs holds of it. */
  method Drive(store: Store, requests: seq<Request>) returns (calls: seq<Call>, ghost trace: seq<Snapshot>)
    requires store.Valid()
    requires forall r :: r in requests && r.DoInitialize? && r.seed.Some? ==> |r.seed.value| == 64
    modifies store, store.device, store.device.bus
    ensures store.Valid()
    ensures IsRun(store.derive, store.device.resetKey, trace, calls)
    ensures trace[0] == old(store.Now()) && trace[|calls|] == store.Now()
    ensures |calls| == |requests| && forall i :: 0 <= i < |calls| ==> Answers(requests[i], calls[i])
    ensures store.device.bus.chip.version == old(store.device.bus.chip.version)
  {
    calls, trace := [], [store.Now()];
    for k := 0 to |requests|
      invariant store.Valid() && |calls| == k && store.device.bus.chip.version == old(store.device.bus.chip.version)
      invariant IsRun(store.derive, store.device.resetKey, trace, calls)
      invariant trace[0] == old(store.Now()) && trace[k] == store.Now()
      invariant forall i :: 0 <= i < k ==> Answers(requests[i], calls[i])
    {
      store.device.bus.calm := *;
      store.device.bus.jammed := *;
      store.device.configured := *;
      assert store.Valid() && trace[k] == store.Now();
      var call := Serve(store, requests[k]);
      calls := calls + [call];
      trace := trace + [store.Now()];
    }
  }

  method Serve(store: Store, request: Request) returns (call: Call)
    requires store.Valid()
    requires request.DoInitialize? && request.seed.Some? ==> |request.seed.value| == 64
    modifies store, store.device, store.device.bus
    ensures store.Valid() && Answers(request, call)
    ensures store.device.bus.chip.version == old(store.device.bus.chip.version)
    ensures Allowed(store.derive, store.device.resetKey, old(store.Now()), call, store.Now())
  {
    var rc: int;
    match request {
      case DoRefresh =>
        rc := store.Refresh();
        call := Call.Refresh(rc);
      case DoSeedExists =>
        rc := store.SeedExists();
        call := Call.SeedExists(rc);
      case DoInitialize(pinKey, seed) =>
        rc := store.Initialize(pinKey, seed);
        call := Call.Initialize(pinKey, seed, rc);
      case DoUnlock(pinKey) =>
        var out := new byte[64];
        rc := store.Unlock(pinKey, out);
        call := Call.Unlock(pinKey, Some(out[..]), rc);
      case DoErase =>
        rc := store.Erase();
        call := Call.Erase(rc);
    }
  }

  /** The failing run is one the code takes: cut the bus right after the first seed write, restore it. */
  method InterruptedProvisioning(store: Store, pinKey: seq<byte>, seed: seq<byte>)
    returns (first: int, last: int, output: seq<byte>)
    requires store.Valid() && |seed| == 64
    requires Blank(store.device.bus.chip.objects) && ResetUsable(store.device.bus.chip.objects, store.device.resetKey)
    requires store.device.configured && store.device.bus.chip.version == (7, 2)
    modifies store, store.device, store.device.bus
    ensures first == ERROR && last == OK && output == seed
  {
    first := CutAfterSeedWrite(store, pinKey, seed);
    last, output := RefreshAndUnlock(store, pinKey, seed);
  }

  method CutAfterSeedWrite(store: Store, pinKey: seq<byte>, seed: seq<byte>) returns (rc: int)
    requires store.Valid() && |seed| == 64
    requires Blank(store.device.bus.chip.objects) && ResetUsable(store.device.bus.chip.objects, store.device.resetKey)
    requires store.device.configured && store.device.bus.chip.version == (7, 2)
    modifies store, store.device, store.device.bus
    ensures store.Valid() && rc == ERROR && store.device.configured && store.device.bus.chip.version == (7, 2)
    ensures Complete(store.device.bus.chip.objects)
    ensures ProvisionedBy(store.device.bus.chip.objects, store.derive, pinKey, seed)
  {
    var bus := store.device.bus;
    bus.jammed := true;
    bus.calm := ExchangesToSeedWrite(bus.chip.objects);
    rc := store.Initialize(Some(pinKey), Some(seed));
  }

  method RefreshAndUnlock(store: Store, pinKey: seq<byte>, seed: seq<byte>) returns (rc: int, output: seq<byte>)
    requires store.Valid() && |seed| == 64 && store.device.configured && store.device.bus.chip.version == (7, 2)
    requires Complete(store.device.bus.chip.objects)
    requires ProvisionedBy(store.device.bus.chip.objects, store.derive, pinKey, seed)
    modifies store, store.device, store.device.bus
    ensures rc == OK && output == seed
  {
    store.device.bus.calm := 100;
    var _ := store.Refresh();
    assert WellFormed(store.device.bus.chip.objects);
    store.device.bus.calm := 100;
    var out := new byte[64];
    rc := store.Unlock(Some(pinKey), out);
    output := out[..];
  }

  /** Recovery: on an undisturbed bus, erasing and provisioning again succeed from any state of the chip,
      however it was left, exactly when the reset user is usable. */
  method EraseThenInitialize(store: Store, pinKey: seq<byte>, seed: seq<byte>) returns (erased: int, initialized: int)
    requires store.Valid() && |seed| == 64
    requires store.device.bus.calm >= 40 && store.device.configured && store.device.bus.chip.version == (7, 2)
    modifies store, store.device, store.device.bus
    ensures erased == OK <==> ResetUsable(old(store.device.bus.chip.objects), store.device.resetKey)
    ensures erased == OK ==> initialized == OK && Complete(store.device.bus.chip.objects)
    ensures erased == OK ==> ProvisionedBy(store.device.bus.chip.objects, store.derive, pinKey, seed)
  {
    erased := store.Erase();
    initialized := ERROR;
    if erased == OK {
      initialized := store.Initialize(Some(pinKey), Some(seed));
    }
  }

  /** A reset user the key opens is never lost: it survives every call, whatever fails in it. */
  lemma {:induction false} ResetStaysUsable(derive: Kdf, key: seq<byte>, trace: seq<Snapshot>, calls: seq<Call>, n: nat)
    requires IsRun(derive, key, trace, calls) && n <= |calls| && ResetUsable(trace[0].objects, key)
    ensures ResetUsable(trace[n].objects, key)
  {
    if n > 0 {
      ResetStaysUsable(derive, key, trace, calls, n - 1);
      assert Allowed(derive, key, trace[n - 1], calls[n - 1], trace[n]);
    }
  }

  /** So recovery always works in the end: after any requests under any faults at any of their steps, once the
      bus is undisturbed again, an erase and an initialization succeed. */
  method RecoverAfterAnyRun(store: Store, requests: seq<Request>, pinKey: seq<byte>, seed: seq<byte>)
    returns (erased: int, initialized: int)
    requires store.Valid() && |seed| == 64 && store.device.bus.chip.version == (7, 2)
    requires ResetUsable(store.device.bus.chip.objects, store.device.resetKey)
    requires forall r :: r in requests && r.DoInitialize? && r.seed.Some? ==> |r.seed.value| == 64
    modifies store, store.device, store.device.bus
    ensures erased == OK && initialized == OK && Complete(store.device.bus.chip.objects)
    ensures ProvisionedBy(store.device.bus.chip.objects, store.derive, pinKey, seed)
  {
    var calls; ghost var trace;
    calls, trace := Drive(store, requests);
    ResetStaysUsable(store.derive, store.device.resetKey, trace, calls, |calls|);
    store.device.bus.calm, store.device.configured := 40, true;
    erased, initialized := EraseThenInitialize(store, pinKey, seed);
  }
}
