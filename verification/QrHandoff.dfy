/**
 The QR scanner's threads, after src/camera/qr_scanner.c and src/camera/qr_decoder.c: the camera thread,
 the decoder thread and a caller step in any order over one snapshot, one result and a few atomics.
 Every access to shared data is a step of its own.
 */
module QrHandoff {
  import opened Bytes

  type Row = seq<byte>
  type Frame = seq<Row>

  datatype SnapshotState = SnapshotIdle | SnapshotReady | SnapshotDecoding

  datatype ScanState = Stopped | Starting | Running | Stopping | ResultReady | Failed

  /** Where the camera thread is; `s` is the session it works for. */
  datatype Camera =
    | Waiting | Woken
    | Chosen(s: nat) | Preparing(s: nat) | Looping(s: nat) | StillOurs(s: nat) | Framing(s: nat)
    | Copying(s: nat, frame: Frame, row: nat) | Giving(s: nat)
    | Ending(s: nat, error: bool) | Checking(s: nat) | Publishing(s: nat, verdict: ScanState)

  /** The stages of scanner_qr_found: two unlocked tests, the lock, the same tests again, the writes. */
  datatype Stage = TestSession | TestRequested | Locking | RetestSession | RetestRequested | Recording | Clearing | Unlocking

  datatype Decoder =
    | Asleep | Awake | Beginning
    | Converting(s: nat, image: Frame) | Searching(s: nat, image: Frame) | Found(s: nat, image: Frame, stage: Stage)

  /** A call of app_qr_scanner_start or stop; their lock lets one run at a time. */
  datatype Caller = NoCall | Start1 | Start2 | Start3 | Start4 | Start5 | Stop1(seen: ScanState) | Stop2(seen: ScanState)

  /** A frame with its session. */
  datatype Tagged = Tagged(frame: Frame, session: nat)

  /** What became of an accepted frame: its image, or nothing when the decoder could not begin. */
  datatype Consumed = Consumed(image: Option<Frame>, session: nat)

  /** The snapshot, its state and semaphore, the session it belongs to, and the history of frames. */
  datatype Snapshot = Snapshot(rows: Frame, state: SnapshotState, ready: bool, session: nat,
                               accepted: seq<Tagged>, consumed: seq<Consumed>)

  /** The scanner's atomics and the semaphore that wakes the camera thread. */
  datatype Scanner = Scanner(session: nat, requested: bool, state: ScanState, control: bool)

  /** The result under its lock, and the history of results. */
  datatype Result = Result(locked: bool, session: nat, code: Option<Tagged>, recorded: seq<Tagged>)

  datatype State = State(snap: Snapshot, scan: Scanner, result: Result, camera: Camera, decoder: Decoder, caller: Caller)

  datatype Move =
    // the camera thread
    | TakeControl | ReadSession | CheckRequested | Prepare(ok: bool) | CheckLoop | CheckOurs
    | NoFrame | BadFrame | Submit(frame: Frame, due: bool) | CopyRow | Give(released: bool)
    | End(stopped: bool) | CheckResult | Publish
    // the decoder thread
    | TakeReady | Claim | Begin(ok: bool) | Convert | Report | Finish | FoundStep
    // a caller
    | StartCall | StartStep | StopCall | StopStep

  predicate Terminal(scan: ScanState) { scan == Stopped || scan == ResultReady || scan == Failed }

  predicate Starts(c: Caller) { c.Start1? || c.Start2? || c.Start3? || c.Start4? || c.Start5? }

  /** The session number is drawn and its start not finished. */
  predicate Fresh(c: Caller) { c.Start2? || c.Start3? || c.Start4? || c.Start5? }

  predicate Enabled(v: State, move: Move) {
    match move
    case TakeControl => v.camera == Waiting && v.scan.control
    case ReadSession => v.camera == Woken
    case CheckRequested => v.camera.Chosen?
    case Prepare(_) => v.camera.Preparing?
    case CheckLoop => v.camera.Looping?
    case CheckOurs => v.camera.StillOurs?
    case NoFrame => v.camera.Framing?
    case BadFrame => v.camera.Framing?
    case Submit(frame, _) => v.camera.Framing? && |frame| == |v.snap.rows|
    case CopyRow => v.camera.Copying?
    case Give(_) => v.camera.Giving?
    case End(_) => v.camera.Ending?
    case CheckResult => v.camera.Checking? && !v.result.locked
    case Publish => v.camera.Publishing?
    case TakeReady => v.decoder == Asleep && v.snap.ready
    case Claim => v.decoder == Awake
    case Begin(_) => v.decoder == Beginning
    case Convert => v.decoder.Converting?
    case Report => v.decoder.Searching?
    case Finish => v.decoder.Searching?
    case FoundStep => v.decoder.Found? && (v.decoder.stage == Locking ==> !v.result.locked)
    case StartCall => v.caller == NoCall
    case StartStep => Starts(v.caller) && (v.caller == Start2 ==> !v.result.locked)
    case StopCall => v.caller == NoCall
    case StopStep => v.caller.Stop1? || v.caller.Stop2?
  }

  predicate OfCamera(move: Move) {
    move.TakeControl? || move.ReadSession? || move.CheckRequested? || move.Prepare? || move.CheckLoop? || move.CheckOurs? ||
    move.NoFrame? || move.BadFrame? || move.Submit? || move.CopyRow? || move.Give? ||
    move.End? || move.CheckResult? || move.Publish?
  }

  predicate OfDecoder(move: Move) {
    move.TakeReady? || move.Claim? || move.Begin? || move.Convert? || move.Report? || move.Finish? || move.FoundStep?
  }

  function CameraStep(v: State, move: Move): State
    requires Enabled(v, move) && OfCamera(move)
  {
    match move
    case TakeControl => v.(scan := v.scan.(control := false), camera := Woken)
    case ReadSession => v.(camera := Chosen(v.scan.session))
    case CheckRequested => v.(camera := if v.scan.requested then Preparing(v.camera.s) else Publishing(v.camera.s, Stopped))
    case Prepare(ok) =>
      if ok then v.(scan := v.scan.(state := Running), camera := Looping(v.camera.s))
      else v.(camera := Ending(v.camera.s, true))
    case CheckLoop => v.(camera := if v.scan.requested then StillOurs(v.camera.s) else Ending(v.camera.s, false))
    case CheckOurs => v.(camera := if v.scan.session == v.camera.s then Framing(v.camera.s) else Ending(v.camera.s, false))
    case NoFrame => v.(camera := Looping(v.camera.s))
    case BadFrame => v.(camera := Ending(v.camera.s, true))
    case Submit(frame, due) =>
      if due && v.snap.state == SnapshotIdle then
        v.(snap := v.snap.(state := SnapshotReady, accepted := v.snap.accepted + [Tagged(frame, v.camera.s)]),
           camera := Copying(v.camera.s, frame, 0))
      else v.(camera := Looping(v.camera.s))
    case CopyRow =>
      var y := v.camera.row;
      if y < |v.snap.rows| && y < |v.camera.frame| then
        v.(snap := v.snap.(rows := v.snap.rows[y := v.camera.frame[y]]), camera := Copying(v.camera.s, v.camera.frame, y + 1))
      else v.(snap := v.snap.(session := v.camera.s), camera := Giving(v.camera.s))
    case Give(released) =>
      v.(snap := v.snap.(ready := true), camera := if released then Looping(v.camera.s) else Ending(v.camera.s, true))
    case End(stopped) =>
      v.(scan := v.scan.(requested := false),
         camera := if v.camera.error || !stopped then Publishing(v.camera.s, Failed) else Checking(v.camera.s))
    case CheckResult => v.(camera := Publishing(v.camera.s, if v.result.session == v.camera.s then ResultReady else Stopped))
    case Publish => v.(scan := v.scan.(state := v.camera.verdict), camera := Waiting)
  }

  function DecoderStep(v: State, move: Move): State
    requires Enabled(v, move) && OfDecoder(move)
  {
    match move
    case TakeReady => v.(snap := v.snap.(ready := false), decoder := Awake)
    case Claim =>
      if v.snap.state == SnapshotReady then v.(snap := v.snap.(state := SnapshotDecoding), decoder := Beginning)
      else v.(decoder := Asleep)
    case Begin(ok) =>
      if ok then v.(decoder := Converting(v.snap.session, []))
      else v.(snap := v.snap.(state := SnapshotIdle, consumed := v.snap.consumed + [Consumed(None, v.snap.session)]),
              decoder := Asleep)
    case Convert =>
      var y := |v.decoder.image|;
      v.(decoder := if y < |v.snap.rows| then Converting(v.decoder.s, v.decoder.image + [v.snap.rows[y]])
                    else Searching(v.decoder.s, v.decoder.image))
    case Report => v.(decoder := Found(v.decoder.s, v.decoder.image, TestSession))
    case Finish =>
      v.(snap := v.snap.(state := SnapshotIdle, consumed := v.snap.consumed + [Consumed(Some(v.decoder.image), v.decoder.s)]),
         decoder := Asleep)
    case FoundStep => FoundApply(v)
  }

  function FoundApply(v: State): State
    requires v.decoder.Found?
  {
    var s, image := v.decoder.s, v.decoder.image;
    match v.decoder.stage
    case TestSession => v.(decoder := if s == v.scan.session then Found(s, image, TestRequested) else Searching(s, image))
    case TestRequested => v.(decoder := if v.scan.requested then Found(s, image, Locking) else Searching(s, image))
    case Locking => v.(result := v.result.(locked := true), decoder := Found(s, image, RetestSession))
    case RetestSession => v.(decoder := Found(s, image, if s == v.scan.session then RetestRequested else Unlocking))
    case RetestRequested => v.(decoder := Found(s, image, if v.scan.requested then Recording else Unlocking))
    case Recording =>
      v.(result := Result(v.result.locked, s, Some(Tagged(image, s)), v.result.recorded + [Tagged(image, s)]),
         decoder := Found(s, image, Clearing))
    case Clearing => v.(scan := v.scan.(requested := false), decoder := Found(s, image, Unlocking))
    case Unlocking => v.(result := v.result.(locked := false), decoder := Searching(s, image))
  }

  function CallerStep(v: State, move: Move): State
    requires Enabled(v, move) && !OfCamera(move) && !OfDecoder(move)
  {
    match move
    case StartCall => if Terminal(v.scan.state) then v.(caller := Start1) else v
    case StartStep =>
      (match v.caller
       case Start1 => v.(scan := v.scan.(session := v.scan.session + 1), caller := Start2)
       case Start2 => v.(result := v.result.(session := 0, code := None), caller := Start3)
       case Start3 => v.(scan := v.scan.(requested := true), caller := Start4)
       case Start4 => v.(scan := v.scan.(state := Starting), caller := Start5)
       case _ => v.(scan := v.scan.(control := true), caller := NoCall))
    case StopCall => if v.scan.state == Stopped || v.scan.state == Failed then v else v.(caller := Stop1(v.scan.state))
    case StopStep =>
      if v.caller.Stop1? then v.(scan := v.scan.(requested := false), caller := Stop2(v.caller.seen))
      else if v.caller.seen == Starting || v.caller.seen == Running then v.(scan := v.scan.(state := Stopping), caller := NoCall)
      else v.(caller := NoCall)
    case _ => v
  }

  function Apply(v: State, move: Move): State
    requires Enabled(v, move)
  {
    if OfCamera(move) then CameraStep(v, move)
    else if OfDecoder(move) then DecoderStep(v, move) else CallerStep(v, move)
  }

  // -------------------------------------------------------------------- the snapshot invariant

  function Last(s: seq<Tagged>): Tagged
    requires s != []
  {
    s[|s| - 1]
  }

  /** Writing belongs to the camera thread, reading to the decoder thread, never to both. */
  predicate Exclusive(v: State) {
    && (v.camera.Copying? || v.camera.Giving? ==> v.snap.state == SnapshotReady && !v.snap.ready && v.decoder == Asleep)
    && (v.snap.ready ==> v.snap.state == SnapshotReady && v.decoder == Asleep)
    && (v.decoder == Awake ==> v.snap.state == SnapshotReady && !v.snap.ready)
    && (v.snap.state == SnapshotDecoding <==> v.decoder != Asleep && v.decoder != Awake)
    && (v.snap.state == SnapshotReady ==> v.snap.ready || v.decoder == Awake || v.camera.Copying? || v.camera.Giving?)
  }

  /** The snapshot holds the latest accepted frame as far as it is copied, and the image what was read of it. */
  predicate Faithful(v: State) {
    && (v.snap.state != SnapshotIdle ==> v.snap.accepted != [] && |Last(v.snap.accepted).frame| == |v.snap.rows|)
    && (v.camera.Copying? ==>
          && v.snap.accepted != [] && Last(v.snap.accepted) == Tagged(v.camera.frame, v.camera.s)
          && |v.camera.frame| == |v.snap.rows| && v.camera.row <= |v.snap.rows|
          && forall k :: 0 <= k < v.camera.row ==> v.snap.rows[k] == v.camera.frame[k])
    && (v.snap.state != SnapshotIdle && !v.camera.Copying? ==>
          v.snap.accepted != [] && Last(v.snap.accepted) == Tagged(v.snap.rows, v.snap.session))
    && (v.camera.Giving? ==> v.snap.session == v.camera.s)
    && (v.decoder.Converting? ==>
          && |v.decoder.image| <= |v.snap.rows| && v.decoder.image == v.snap.rows[..|v.decoder.image|]
          && v.decoder.s == v.snap.session)
    && (v.decoder.Searching? || v.decoder.Found? ==> v.decoder.image == v.snap.rows && v.decoder.s == v.snap.session)
  }

  predicate Consumes(t: Tagged, c: Consumed) {
    c.session == t.session && (c.image.Some? ==> c.image.value == t.frame)
  }

  /** Accepted frames are consumed once each, in order; one may still be on its way. */
  predicate Ledger(v: State) {
    && |v.snap.accepted| == |v.snap.consumed| + (if v.snap.state == SnapshotIdle then 0 else 1)
    && forall i :: 0 <= i < |v.snap.consumed| ==> Consumes(v.snap.accepted[i], v.snap.consumed[i])
  }

  predicate Handoff(v: State) { Exclusive(v) && Faithful(v) && Ledger(v) }

  lemma CameraKeepsExclusive(v: State, move: Move)
    requires Exclusive(v) && Enabled(v, move) && OfCamera(move)
    ensures Exclusive(CameraStep(v, move))
  {
  }

  lemma CameraKeepsFaithful(v: State, move: Move)
    requires Exclusive(v) && Faithful(v) && Enabled(v, move) && OfCamera(move)
    ensures Faithful(CameraStep(v, move))
  {
    if move == CopyRow && v.camera.row == |v.snap.rows| { assert v.snap.rows == v.camera.frame; }
  }

  lemma CameraKeepsLedger(v: State, move: Move)
    requires Exclusive(v) && Ledger(v) && Enabled(v, move) && OfCamera(move)
    ensures Ledger(CameraStep(v, move))
  {
  }

  lemma DecoderKeepsHandoff(v: State, move: Move)
    requires Handoff(v) && Enabled(v, move) && OfDecoder(move) && move != FoundStep
    ensures Handoff(DecoderStep(v, move))
  {
  }

  lemma FoundKeepsHandoff(v: State)
    requires Handoff(v) && Enabled(v, FoundStep)
    ensures Handoff(FoundApply(v))
  {
  }

  lemma CallerKeepsHandoff(v: State, move: Move)
    requires Handoff(v) && Enabled(v, move) && !OfCamera(move) && !OfDecoder(move)
    ensures Handoff(CallerStep(v, move))
  {
  }

  // --------------------------------------------------------------------- the session invariant

  predicate InLock(stage: Stage) { stage.RetestSession? || Confirmed(stage) || stage.Unlocking? }

  predicate Confirmed(stage: Stage) { stage.RetestRequested? || stage.Recording? || stage.Clearing? }

  predicate Busy(c: Camera) { c != Waiting && c != Woken }

  function LastRecorded(v: State): nat {
    if v.result.recorded == [] then 0 else Last(v.result.recorded).session
  }

  /** The camera thread works for the current session only, and no session starts while it does. */
  predicate OneSession(v: State) {
    && (v.camera != Waiting ==> !v.scan.control)
    && (v.camera != Waiting || v.scan.control ==> !Terminal(v.scan.state) && !Starts(v.caller))
    && (Busy(v.camera) ==> v.camera.s == v.scan.session)
    && (v.caller == Start1 || v.caller == Start2 || v.caller == Start3 ==> Terminal(v.scan.state) && !v.scan.requested)
    && (v.caller == Start4 ==> Terminal(v.scan.state))
    && (v.caller == Start5 ==> !Terminal(v.scan.state))
    && (Terminal(v.scan.state) && v.caller != Start4 ==> !v.scan.requested)
    && (v.camera.Checking? || v.camera.Publishing? ==> !v.scan.requested)
    && (v.camera.Publishing? ==> Terminal(v.camera.verdict))
    && (v.snap.accepted != [] ==> Last(v.snap.accepted).session + (if Fresh(v.caller) then 1 else 0) <= v.scan.session)
  }

  /** What a call in progress knows of the announced state, and who will announce the next. */
  predicate Answerable(v: State) {
    && (v.camera == Waiting && !v.scan.control && !Starts(v.caller) ==> Terminal(v.scan.state) || v.scan.state == Stopping)
    && (v.caller == Start5 ==> v.scan.state == Starting)
    && (v.caller.Stop1? || v.caller.Stop2? ==>
          && v.caller.seen != Stopped && v.caller.seen != Failed
          && (SawItRun(v.caller) ==> v.scan.state != Stopping)
          && (v.caller.seen == ResultReady ==> v.scan.state == ResultReady))
  }

  /** A stop that has seen the scanner starting or running; it will announce that it is stopping. */
  predicate SawItRun(c: Caller) {
    (c.Stop1? || c.Stop2?) && (c.seen == Starting || c.seen == Running)
  }

  /** The decoder past its locked test belongs to the current session, or to the one before while the next start
      waits for the lock. */
  predicate Locked(v: State) {
    && (v.result.locked <==> v.decoder.Found? && InLock(v.decoder.stage))
    && (v.decoder.Found? && Confirmed(v.decoder.stage) ==>
          (v.scan.session == v.decoder.s && !Fresh(v.caller)) || (v.scan.session == v.decoder.s + 1 && v.caller == Start2))
  }

  /** Results are recorded for ever later sessions, from frames that were accepted. */
  predicate RecordsFit(recorded: seq<Tagged>, accepted: seq<Tagged>) {
    && (forall i, j :: 0 <= i < j < |recorded| ==> recorded[i].session < recorded[j].session)
    && (forall i :: 0 <= i < |recorded| ==> recorded[i] in accepted)
  }

  /** The stored result is one of the accepted frames, of the session it is stored for. */
  predicate ResultFits(v: State) {
    && (v.result.code.Some? ==> v.result.code.value in v.snap.accepted)
    && (v.result.session != 0 ==> v.result.code.Some? && v.result.code.value.session == v.result.session)
  }

  /** Whoever may record next is of a later session than the last record. */
  predicate Pace(v: State) {
    && LastRecorded(v) <= v.scan.session
    && (v.scan.requested && !(v.decoder.Found? && v.decoder.stage == Clearing) ==> LastRecorded(v) < v.scan.session)
    && (v.decoder.Found? && v.decoder.stage == Recording ==> LastRecorded(v) < v.decoder.s)
    && (Fresh(v.caller) ==> LastRecorded(v) < v.scan.session)
  }

  /** When a result is announced it can be fetched. */
  predicate Announced(v: State) {
    && (v.camera.Publishing? && v.camera.verdict == ResultReady ==> v.result.session == v.scan.session)
    && (v.scan.state == ResultReady && !Fresh(v.caller) ==> v.result.session == v.scan.session)
  }

  /** The camera thread has not yet taken a frame of the current session. */
  predicate Early(v: State) {
    Fresh(v.caller) || v.scan.control || v.camera.Woken? || v.camera.Chosen? || v.camera.Preparing?
  }

  /** The stored result is the last one recorded, unless a start has cleared it; sessions are numbered from one. */
  predicate Stored(v: State) {
    && (v.result.session != 0 ==> v.result.session == LastRecorded(v) && v.result.code == Some(Last(v.result.recorded)))
    && (LastRecorded(v) == v.scan.session ==> v.result.session == v.scan.session)
    && (v.result.recorded != [] ==> LastRecorded(v) > 0)
    && (v.result.recorded == [] || (LastRecorded(v) < v.scan.session && !v.caller.Start2?) ==>
          v.result.session == 0 && v.result.code.None?)
    && (v.camera != Waiting || v.scan.control || Fresh(v.caller) || v.scan.state != Stopped ==> v.scan.session > 0)
    && (v.caller.Stop1? || v.caller.Stop2? ==> v.scan.session > 0)
  }

  /** A session that is announced as ended without error is announced with a result exactly when one was recorded
      for it; before its first frame none can be. */
  predicate Candid(v: State) {
    && (Early(v) && v.snap.accepted != [] ==> Last(v.snap.accepted).session < v.scan.session)
    && (Early(v) ==> LastRecorded(v) < v.scan.session)
    && (v.camera.Publishing? && v.camera.verdict != Failed ==>
          && (v.camera.verdict == ResultReady <==> LastRecorded(v) == v.camera.s)
          && !(v.decoder.Found? && v.decoder.stage == Recording && v.decoder.s == v.camera.s))
  }

  predicate Honest(v: State) { Stored(v) && Candid(v) }

  predicate Sessions(v: State) { OneSession(v) && Answerable(v) && Locked(v) && Pace(v) && Announced(v) }

  predicate Inv(v: State) {
    Handoff(v) && Sessions(v) && RecordsFit(v.result.recorded, v.snap.accepted) && ResultFits(v) && Honest(v)
  }

  lemma CameraKeepsStored(v: State, move: Move)
    requires Stored(v) && OneSession(v) && Enabled(v, move) && OfCamera(move)
    ensures Stored(CameraStep(v, move))
  {
  }

  lemma CameraKeepsCandid(v: State, move: Move)
    requires Exclusive(v) && Faithful(v) && OneSession(v) && Locked(v) && Pace(v) && Honest(v)
    requires Enabled(v, move) && OfCamera(move)
    ensures Candid(CameraStep(v, move))
  {
  }

  lemma DecoderKeepsHonest(v: State, move: Move)
    requires Honest(v) && Enabled(v, move) && OfDecoder(move) && move != FoundStep
    ensures Honest(DecoderStep(v, move))
  {
  }

  lemma FoundKeepsHonest(v: State)
    requires Faithful(v) && Exclusive(v) && OneSession(v) && Locked(v) && Pace(v) && Honest(v) && Enabled(v, FoundStep)
    ensures Honest(FoundApply(v))
  {
  }

  lemma CallerKeepsHonest(v: State, move: Move)
    requires OneSession(v) && Locked(v) && Pace(v) && Honest(v) && Enabled(v, move) && !OfCamera(move) && !OfDecoder(move)
    ensures Honest(CallerStep(v, move))
  {
  }

  lemma CameraKeepsOneSession(v: State, move: Move)
    requires OneSession(v) && Enabled(v, move) && OfCamera(move)
    ensures OneSession(CameraStep(v, move))
  {
  }

  lemma CameraKeepsAnswerable(v: State, move: Move)
    requires OneSession(v) && Answerable(v) && Enabled(v, move) && OfCamera(move)
    ensures Answerable(CameraStep(v, move))
  {
  }

  lemma CallerKeepsAnswerable(v: State, move: Move)
    requires OneSession(v) && Answerable(v) && Enabled(v, move) && !OfCamera(move) && !OfDecoder(move)
    ensures Answerable(CallerStep(v, move))
  {
  }

  lemma CameraKeepsRest(v: State, move: Move)
    requires OneSession(v) && Locked(v) && Pace(v) && Enabled(v, move) && OfCamera(move)
    ensures Locked(CameraStep(v, move)) && Pace(CameraStep(v, move))
  {
  }

  lemma CameraKeepsAnnounced(v: State, move: Move)
    requires OneSession(v) && Announced(v) && Enabled(v, move) && OfCamera(move)
    ensures Announced(CameraStep(v, move))
  {
  }

  /** A step of the decoder thread outside scanner_qr_found. */
  lemma SameSessions(v: State, n: State)
    requires Sessions(v)
    requires n.scan == v.scan && n.result == v.result && n.camera == v.camera
    requires n.caller == v.caller && n.snap.accepted == v.snap.accepted
    requires !(v.decoder.Found? && InLock(v.decoder.stage)) && !(n.decoder.Found? && InLock(n.decoder.stage))
    ensures Sessions(n)
  {
  }

  lemma DecoderKeepsSessions(v: State, move: Move)
    requires Sessions(v) && Enabled(v, move) && OfDecoder(move) && move != FoundStep
    ensures Sessions(DecoderStep(v, move))
  {
    SameSessions(v, DecoderStep(v, move));
  }

  lemma FoundKeepsOneSession(v: State)
    requires OneSession(v) && Enabled(v, FoundStep)
    ensures OneSession(FoundApply(v))
  {
  }

  lemma FoundKeepsAnswerable(v: State)
    requires Answerable(v) && Enabled(v, FoundStep)
    ensures Answerable(FoundApply(v))
  {
  }

  lemma FoundKeepsLocked(v: State)
    requires OneSession(v) && Faithful(v) && Exclusive(v) && Locked(v) && Enabled(v, FoundStep)
    ensures Locked(FoundApply(v))
  {
  }

  /** The locked test that lets a result be recorded: no later session has started, and none is recorded for
      this one. */
  lemma RetestKeepsPace(v: State)
    requires OneSession(v) && Locked(v) && Pace(v) && v.decoder.Found? && v.decoder.stage == RetestRequested
    ensures Pace(FoundApply(v))
  {
  }

  lemma RecordingKeepsPace(v: State)
    requires OneSession(v) && Locked(v) && Pace(v) && v.decoder.Found? && v.decoder.stage == Recording
    ensures Pace(FoundApply(v))
  {
  }

  lemma FoundKeepsPace(v: State)
    requires OneSession(v) && Locked(v) && Pace(v) && Enabled(v, FoundStep)
    ensures Pace(FoundApply(v))
  {
    if v.decoder.stage == RetestRequested {
      RetestKeepsPace(v);
    } else if v.decoder.stage == Recording {
      RecordingKeepsPace(v);
    } else {
      assert FoundApply(v).result.recorded == v.result.recorded;
    }
  }

  lemma FoundKeepsAnnounced(v: State)
    requires Locked(v) && Announced(v) && OneSession(v) && Enabled(v, FoundStep)
    ensures Announced(FoundApply(v))
  {
  }

  lemma CallerKeepsOneSession(v: State, move: Move)
    requires OneSession(v) && Enabled(v, move) && !OfCamera(move) && !OfDecoder(move)
    ensures OneSession(CallerStep(v, move))
  {
  }

  lemma CallerKeepsRest(v: State, move: Move)
    requires OneSession(v) && Locked(v) && Pace(v) && Enabled(v, move) && !OfCamera(move) && !OfDecoder(move)
    ensures Locked(CallerStep(v, move)) && Pace(CallerStep(v, move))
  {
  }

  lemma CallerKeepsAnnounced(v: State, move: Move)
    requires OneSession(v) && Announced(v) && Enabled(v, move) && !OfCamera(move) && !OfDecoder(move)
    ensures Announced(CallerStep(v, move))
  {
  }

  lemma CameraKeepsRecords(v: State, move: Move)
    requires RecordsFit(v.result.recorded, v.snap.accepted) && ResultFits(v) && Enabled(v, move) && OfCamera(move)
    ensures var n := CameraStep(v, move); RecordsFit(n.result.recorded, n.snap.accepted) && ResultFits(n)
  {
  }

  lemma DecoderKeepsRecords(v: State, move: Move)
    requires RecordsFit(v.result.recorded, v.snap.accepted) && ResultFits(v)
    requires Enabled(v, move) && OfDecoder(move) && move != FoundStep
    ensures var n := DecoderStep(v, move); RecordsFit(n.result.recorded, n.snap.accepted) && ResultFits(n)
  {
  }

  lemma FoundKeepsRecords(v: State)
    requires Faithful(v) && Exclusive(v) && Pace(v) && RecordsFit(v.result.recorded, v.snap.accepted)
    requires ResultFits(v) && Enabled(v, FoundStep)
    ensures var n := FoundApply(v); RecordsFit(n.result.recorded, n.snap.accepted) && ResultFits(n)
  {
  }

  lemma CallerKeepsRecords(v: State, move: Move)
    requires RecordsFit(v.result.recorded, v.snap.accepted) && ResultFits(v)
    requires Enabled(v, move) && !OfCamera(move) && !OfDecoder(move)
    ensures var n := CallerStep(v, move); RecordsFit(n.result.recorded, n.snap.accepted) && ResultFits(n)
  {
  }

  lemma CameraKeeps(v: State, move: Move)
    requires Inv(v) && Enabled(v, move) && OfCamera(move)
    ensures Inv(CameraStep(v, move))
  {
    CameraKeepsExclusive(v, move);
    CameraKeepsFaithful(v, move);
    CameraKeepsLedger(v, move);
    CameraKeepsOneSession(v, move);
    CameraKeepsAnswerable(v, move);
    CameraKeepsRest(v, move);
    CameraKeepsAnnounced(v, move);
    CameraKeepsRecords(v, move);
    CameraKeepsStored(v, move);
    CameraKeepsCandid(v, move);
  }

  lemma DecoderKeeps(v: State, move: Move)
    requires Inv(v) && Enabled(v, move) && OfDecoder(move) && move != FoundStep
    ensures Inv(DecoderStep(v, move))
  {
    DecoderKeepsHandoff(v, move);
    DecoderKeepsSessions(v, move);
    DecoderKeepsRecords(v, move);
    DecoderKeepsHonest(v, move);
  }

  lemma FoundKeepsSessions(v: State)
    requires Faithful(v) && Exclusive(v) && Sessions(v) && Enabled(v, FoundStep)
    ensures Sessions(FoundApply(v))
  {
    FoundKeepsOneSession(v);
    FoundKeepsAnswerable(v);
    FoundKeepsLocked(v);
    FoundKeepsPace(v);
    FoundKeepsAnnounced(v);
  }

  lemma FoundKeeps(v: State)
    requires Inv(v) && Enabled(v, FoundStep)
    ensures Inv(FoundApply(v))
  {
    FoundKeepsHandoff(v);
    FoundKeepsSessions(v);
    FoundKeepsRecords(v);
    FoundKeepsHonest(v);
  }

  lemma CallerKeeps(v: State, move: Move)
    requires Inv(v) && Enabled(v, move) && !OfCamera(move) && !OfDecoder(move)
    ensures Inv(CallerStep(v, move))
  {
    CallerKeepsHandoff(v, move);
    CallerKeepsOneSession(v, move);
    CallerKeepsAnswerable(v, move);
    CallerKeepsRest(v, move);
    CallerKeepsAnnounced(v, move);
    CallerKeepsRecords(v, move);
    CallerKeepsHonest(v, move);
  }

  /** Every step of every thread keeps the invariant. */
  lemma StepKeeps(v: State, move: Move)
    requires Inv(v) && Enabled(v, move)
    ensures Inv(Apply(v, move))
  {
    if OfCamera(move) {
      CameraKeeps(v, move);
    } else if move == FoundStep {
      FoundKeeps(v);
    } else if OfDecoder(move) {
      DecoderKeeps(v, move);
    } else {
      CallerKeeps(v, move);
    }
  }

  // ------------------------------------------------------------------------------ whole runs

  ghost predicate Possible(v: State, moves: seq<Move>)
    decreases |moves|
  {
    moves == [] || (Enabled(v, moves[0]) && Possible(Apply(v, moves[0]), moves[1..]))
  }

  function Run(v: State, moves: seq<Move>): State
    requires Possible(v, moves)
    decreases |moves|
  {
    if moves == [] then v else Run(Apply(v, moves[0]), moves[1..])
  }

  /** The histories of frames and results only grow. */
  lemma StepExtends(v: State, move: Move)
    requires Enabled(v, move)
    ensures v.snap.accepted <= Apply(v, move).snap.accepted && v.result.recorded <= Apply(v, move).result.recorded
  {
  }

  lemma {:induction false} RunKeeps(v: State, moves: seq<Move>)
    requires Inv(v) && Possible(v, moves)
    ensures Inv(Run(v, moves)) && v.snap.accepted <= Run(v, moves).snap.accepted
    ensures v.result.recorded <= Run(v, moves).result.recorded
    decreases |moves|
  {
    if moves != [] {
      StepKeeps(v, moves[0]);
      StepExtends(v, moves[0]);
      RunKeeps(Apply(v, moves[0]), moves[1..]);
    }
  }

  /** The state after initialisation, for a snapshot of some number of rows. */
  function Start(blank: Frame): State {
    State(Snapshot(blank, SnapshotIdle, false, 0, [], []), Scanner(0, false, Stopped, false), Result(false, 0, None, []),
          Waiting, Asleep, NoCall)
  }

  lemma StartIsSound(blank: Frame)
    ensures Inv(Start(blank))
  {
  }

  /** While a frame is being decoded no step of any thread changes the snapshot or its session. */
  lemma SnapshotStable(v: State, move: Move)
    requires Inv(v) && Enabled(v, move) && v.snap.state == SnapshotDecoding
    ensures Apply(v, move).snap.rows == v.snap.rows && Apply(v, move).snap.session == v.snap.session
  {
  }

  /** In every run, accepted frames are consumed once each and in order: decoded whole from their own rows
      under their own session, or dropped when the decoder cannot begin; all but at most one already were. */
  lemma FramesDecodedOnce(blank: Frame, moves: seq<Move>)
    requires Possible(Start(blank), moves)
    ensures var snap := Run(Start(blank), moves).snap;
            && |snap.consumed| <= |snap.accepted| <= |snap.consumed| + 1
            && forall i :: 0 <= i < |snap.consumed| ==> Consumes(snap.accepted[i], snap.consumed[i])
  {
    StartIsSound(blank);
    RunKeeps(Start(blank), moves);
  }

  function Dropped(consumed: seq<Consumed>): nat {
    if consumed == [] then 0
    else
      var n := |consumed| - 1;
      Dropped(consumed[..n]) + if consumed[n].image.None? then 1 else 0
  }

  function Failures(moves: seq<Move>): nat {
    if moves == [] then 0 else (if moves[0] == Begin(false) then 1 else 0) + Failures(moves[1..])
  }

  /** Frames are dropped exactly as often as the decoder could not begin. */
  lemma {:induction false} DroppedWhenItFails(v: State, moves: seq<Move>)
    requires Possible(v, moves)
    ensures Dropped(Run(v, moves).snap.consumed) == Dropped(v.snap.consumed) + Failures(moves)
    decreases |moves|
  {
    if moves != [] {
      var n := Apply(v, moves[0]);
      assert n.snap.consumed == v.snap.consumed || n.snap.consumed[..|v.snap.consumed|] == v.snap.consumed;
      DroppedWhenItFails(n, moves[1..]);
    }
  }

  /** In every run results are recorded for ever later sessions, so at most one for each, and each is of a
      frame accepted in that session. */
  lemma OneResultPerSession(blank: Frame, moves: seq<Move>)
    requires Possible(Start(blank), moves)
    ensures var v := Run(Start(blank), moves);
            && (forall i, j :: 0 <= i < j < |v.result.recorded| ==> v.result.recorded[i].session < v.result.recorded[j].session)
            && (forall i :: 0 <= i < |v.result.recorded| ==> v.result.recorded[i] in v.snap.accepted)
  {
    StartIsSound(blank);
    RunKeeps(Start(blank), moves);
  }

  /** app_qr_scanner_result_copy, a step under the result lock. */
  function ResultCopy(v: State, session: nat): Option<Option<Tagged>>
    requires !v.result.locked
  {
    if session != v.result.session || v.scan.state != ResultReady then None else Some(v.result.code)
  }

  /** A copy that succeeds for a session other than zero is of a frame accepted in that very session. */
  lemma CopyIsOurs(v: State, session: nat)
    requires Inv(v) && !v.result.locked && session != 0 && ResultCopy(v, session).Some?
    ensures ResultCopy(v, session).value.Some?
    ensures var code := ResultCopy(v, session).value.value; code.session == session && code in v.snap.accepted
  {
  }

  /** Once a result is announced it can be copied, until the next start has drawn its session: it is the last one
      recorded, and of the current session. */
  lemma AnnouncedCanBeCopied(v: State)
    requires Inv(v) && !v.result.locked && v.scan.state == ResultReady && !Fresh(v.caller)
    ensures v.result.recorded != [] && Last(v.result.recorded).session == v.scan.session
    ensures ResultCopy(v, v.scan.session) == Some(Some(Last(v.result.recorded)))
  {
  }

  /** Once a start has got past clearing, no result of an earlier session is left, only that of the current one. */
  lemma NothingStale(v: State)
    requires Inv(v) && !v.caller.Start2? && v.result.code.Some?
    ensures v.result.recorded != [] && v.result.code.value == Last(v.result.recorded)
    ensures v.result.code.value.session == v.result.session == v.scan.session
  {
  }

  predicate RecordedFor(v: State, session: nat) {
    exists i :: 0 <= i < |v.result.recorded| && v.result.recorded[i].session == session
  }

  /** Whether the camera thread's session has met an error after a move: the camera or the decoder did not come up,
      a frame could not be fetched or returned, or the camera did not stop. */
  predicate TroubleAfter(before: bool, move: Move) {
    match move
    case ReadSession => false
    case Prepare(ok) => before || !ok
    case BadFrame => true
    case Give(released) => before || !released
    case End(stopped) => before || !stopped
    case _ => before
  }

  predicate Troubled(before: bool, moves: seq<Move>)
    decreases |moves|
  {
    if moves == [] then before else Troubled(TroubleAfter(before, moves[0]), moves[1..])
  }

  /** What the camera thread knows of the errors of its session. */
  predicate TroubleFits(v: State, trouble: bool) {
    && (v.camera.Ending? ==> v.camera.error == trouble)
    && (v.camera.Publishing? ==> (v.camera.verdict == Failed <==> trouble))
    && (trouble ==> v.camera == Waiting || v.camera == Woken || v.camera.Ending? || v.camera.Publishing?)
  }

  lemma {:induction false} TroubleIsKnown(v: State, moves: seq<Move>, trouble: bool)
    requires Possible(v, moves) && TroubleFits(v, trouble)
    ensures TroubleFits(Run(v, moves), Troubled(trouble, moves))
    decreases |moves|
  {
    if moves != [] {
      TroubleIsKnown(Apply(v, moves[0]), moves[1..], TroubleAfter(trouble, moves[0]));
    }
  }

  /** In every run the end of a session is announced as what it was: failed exactly when it met an error, and
      otherwise with a result exactly when one was recorded for it, which can then be copied and is that record. */
  lemma EndIsAnnounced(blank: Frame, moves: seq<Move>)
    requires Possible(Start(blank), moves) && Run(Start(blank), moves).camera.Publishing?
    ensures var v := Run(Start(blank), moves);
            var s, end := v.camera.s, Apply(v, Publish);
            && s == v.scan.session > 0
            && end.scan.state == (if Troubled(false, moves) then Failed
                                  else if RecordedFor(v, s) then ResultReady else Stopped)
            && (end.scan.state == ResultReady && !end.result.locked ==>
                  && ResultCopy(end, s) == Some(Some(Last(v.result.recorded)))
                  && Last(v.result.recorded).session == s)
  {
    var v := Run(Start(blank), moves);
    StartIsSound(blank);
    RunKeeps(Start(blank), moves);
    TroubleIsKnown(Start(blank), moves, false);
    if RecordedFor(v, v.camera.s) {
      var i :| 0 <= i < |v.result.recorded| && v.result.recorded[i].session == v.camera.s;
      assert v.result.recorded[i].session <= LastRecorded(v);
    }
  }

  /** The decoder's next n steps, with nothing else happening. */
  function FoundSteps(n: nat): seq<Move> {
    seq(n, i => FoundStep)
  }

  /** A code found in an image is recorded when its session is the current one and still wants it, and then wants
      no more; otherwise the image is let go. */
  lemma FoundIsRecorded(v: State, s: nat, image: Frame)
    requires v.decoder == Found(s, image, TestSession) && !v.result.locked
    ensures var n := if s == v.scan.session then if v.scan.requested then 8 else 2 else 1;
            && Possible(v, FoundSteps(n))
            && Run(v, FoundSteps(n)) ==
               if s == v.scan.session && v.scan.requested
               then v.(decoder := Searching(s, image), scan := v.scan.(requested := false),
                       result := Result(false, s, Some(Tagged(image, s)), v.result.recorded + [Tagged(image, s)]))
               else v.(decoder := Searching(s, image))
  {
    var v1 := FoundApply(v);
    assert FoundSteps(0) == [];
    if s != v.scan.session {
      NextFound(v, 1);
    } else if !v.scan.requested {
      NextFound(v1, 1);
      NextFound(v, 2);
    } else {
      var v2 := FoundApply(v1);
      var v3 := FoundApply(v2);
      RecordsInLock(v3);
      NextFound(v2, 6);
      NextFound(v1, 7);
      NextFound(v, 8);
    }
  }

  /** The part under the lock. */
  lemma RecordsInLock(v: State)
    requires v.decoder.Found? && v.decoder.stage == RetestSession && v.decoder.s == v.scan.session && v.scan.requested
    ensures Possible(v, FoundSteps(5))
    ensures var s, image := v.decoder.s, v.decoder.image;
            Run(v, FoundSteps(5)) ==
            v.(decoder := Searching(s, image), scan := v.scan.(requested := false),
               result := Result(false, s, Some(Tagged(image, s)), v.result.recorded + [Tagged(image, s)]))
  {
    var v1 := FoundApply(v);
    var v2 := FoundApply(v1);
    var v3 := FoundApply(v2);
    var v4 := FoundApply(v3);
    NextFound(v4, 1);
    NextFound(v3, 2);
    NextFound(v2, 3);
    NextFound(v1, 4);
    NextFound(v, 5);
  }

  lemma NextFound(v: State, n: nat)
    requires Enabled(v, FoundStep) && n > 0 && Possible(FoundApply(v), FoundSteps(n - 1))
    ensures Possible(v, FoundSteps(n)) && Run(v, FoundSteps(n)) == Run(FoundApply(v), FoundSteps(n - 1))
  {
    assert FoundSteps(n)[1..] == FoundSteps(n - 1);
  }

  // ------------------------------------------------------------ a stop that comes too late

  /** The scanner says it is stopping, but nothing is left that could stop. */
  predicate Stranded(v: State) {
    && v.scan.state == Stopping && v.camera == Waiting && !v.scan.control
    && (v.caller == NoCall || v.caller == Stop1(Stopping) || v.caller == Stop2(Stopping))
  }

  /** Stranded, or about to be: a stop that saw the scanner run, after the camera thread has announced its end. */
  predicate Doomed(v: State) {
    Stranded(v) || (SawItRun(v.caller) && Terminal(v.scan.state))
  }

  lemma DoomedStays(v: State, move: Move)
    requires Inv(v) && Doomed(v) && Enabled(v, move)
    ensures Doomed(Apply(v, move))
  {
  }

  /** From there no run ever starts the scanner again. */
  lemma {:induction false} DoomedForever(v: State, moves: seq<Move>)
    requires Inv(v) && Doomed(v) && Possible(v, moves)
    ensures Doomed(Run(v, moves))
    decreases |moves|
  {
    if moves != [] {
      StepKeeps(v, moves[0]);
      DoomedStays(v, moves[0]);
      DoomedForever(Apply(v, moves[0]), moves[1..]);
    }
  }

  /** From everywhere else one goes on like this: finish the call under way, let the camera thread end, start. */
  function Onward(v: State): Move {
    if v.caller.Stop1? || v.caller.Stop2? then StopStep
    else if Starts(v.caller) then (if v.caller == Start2 && v.result.locked then FoundStep else StartStep)
    else if Terminal(v.scan.state) then StartCall
    else
      match v.camera
      case Waiting => TakeControl
      case Woken => ReadSession
      case Chosen(_) => CheckRequested
      case Preparing(_) => Prepare(false)
      case Looping(_) => CheckLoop
      case StillOurs(_) => CheckOurs
      case Framing(_) => BadFrame
      case Copying(_, _, _) => CopyRow
      case Giving(_) => Give(false)
      case Ending(_, _) => End(true)
      case Checking(_) => if v.result.locked then FoundStep else CheckResult
      case Publishing(_, _) => Publish
  }

  /** How far the call, the camera thread and the holder of the result lock are from being done. */
  function CallLeft(c: Caller): nat {
    match c
    case Start1 => 5
    case Start2 => 4
    case Start3 => 3
    case Start4 => 2
    case Start5 => 1
    case Stop1(_) => 2
    case Stop2(_) => 1
    case NoCall => 0
  }

  function CameraLeft(v: State): nat {
    match v.camera
    case Waiting => if v.scan.control then 9 else 0
    case Woken => 8
    case Chosen(_) => 7
    case Preparing(_) => 6
    case Looping(_) => 6
    case StillOurs(_) => 5
    case Framing(_) => 4
    case Copying(_, _, row) => 5 + (if row < |v.snap.rows| then |v.snap.rows| - row else 0)
    case Giving(_) => 4
    case Ending(_, _) => 3
    case Checking(_) => 2
    case Publishing(_, _) => 1
  }

  function LockLeft(d: Decoder): nat {
    if !d.Found? then 0
    else
      match d.stage
      case RetestSession => 5
      case RetestRequested => 4
      case Recording => 3
      case Clearing => 2
      case Unlocking => 1
      case _ => 0
  }

  predicate Nearer(n: State, v: State) {
    || CallLeft(n.caller) < CallLeft(v.caller)
    || (CallLeft(n.caller) == CallLeft(v.caller) &&
        (CameraLeft(n) < CameraLeft(v) || (CameraLeft(n) == CameraLeft(v) && LockLeft(n.decoder) < LockLeft(v.decoder))))
  }

  lemma OnwardEnabled(v: State)
    requires Inv(v) && !Doomed(v) && v.caller != Start1
    ensures Enabled(v, Onward(v))
  {
  }

  predicate Gained(n: State, v: State) {
    !Doomed(n) && (n.caller == Start1 || Nearer(n, v))
  }

  lemma CallerGains(v: State)
    requires OneSession(v) && Answerable(v) && !Doomed(v) && v.caller != Start1 && Enabled(v, Onward(v))
    requires !OfCamera(Onward(v)) && !OfDecoder(Onward(v))
    ensures Gained(CallerStep(v, Onward(v)), v)
  {
  }

  lemma CameraGains(v: State)
    requires OneSession(v) && Faithful(v) && !Doomed(v) && v.caller == NoCall
    requires Enabled(v, Onward(v)) && OfCamera(Onward(v))
    ensures Gained(CameraStep(v, Onward(v)), v)
  {
  }

  lemma FoundGains(v: State)
    requires Locked(v) && !Doomed(v) && Enabled(v, Onward(v)) && Onward(v) == FoundStep
    ensures Gained(FoundApply(v), v)
  {
  }

  lemma OnwardGains(v: State)
    requires Inv(v) && !Doomed(v) && v.caller != Start1 && Enabled(v, Onward(v))
    ensures Gained(Apply(v, Onward(v)), v)
  {
    if OfCamera(Onward(v)) {
      CameraGains(v);
    } else if Onward(v) == FoundStep {
      FoundGains(v);
    } else {
      CallerGains(v);
    }
  }

  /** A run to the next start that is accepted. */
  lemma {:induction false} CanReachStart(v: State) returns (moves: seq<Move>)
    requires Inv(v) && !Doomed(v)
    ensures Possible(v, moves) && Run(v, moves).caller == Start1
    decreases CallLeft(v.caller), CameraLeft(v), LockLeft(v.decoder)
  {
    if v.caller == Start1 { return []; }
    OnwardEnabled(v);
    OnwardGains(v);
    var n := Apply(v, Onward(v));
    if n.caller == Start1 {
      moves := [Onward(v)];
      assert moves[1..] == [];
    } else {
      StepKeeps(v, Onward(v));
      moves := CanReachStart(n);
      moves := [Onward(v)] + moves;
    }
  }

  ghost predicate Startable(v: State) {
    exists moves :: Possible(v, moves) && Run(v, moves).caller == Start1
  }

  /** In every reachable state: some run leads to a start that is accepted, exactly unless the scanner is doomed. */
  lemma StartableIff(v: State)
    requires Inv(v)
    ensures Startable(v) <==> !Doomed(v)
  {
    if Doomed(v) {
      forall moves | Possible(v, moves) ensures Run(v, moves).caller != Start1 {
        DoomedForever(v, moves);
      }
    } else {
      var moves := CanReachStart(v);
    }
  }

  /** So after the last step of a stop that saw the scanner run, it can be started again exactly when the camera
      thread has not announced its end since the stop looked. */
  lemma StartableAfterStopIff(v: State)
    requires Inv(v) && v.caller.Stop2? && SawItRun(v.caller)
    ensures Startable(Apply(v, StopStep)) <==> !Terminal(v.scan.state)
  {
    StepKeeps(v, StopStep);
    StartableIff(Apply(v, StopStep));
  }

  // Not only some run leads on: once a stop has taken the request back, every run in which the camera thread takes
  // enough steps brings the session to its end, whatever camera, decoder and callers do.

  /** The camera thread has announced its end; a start would be accepted as soon as no call is in progress. */
  predicate Ended(v: State) {
    v.camera == Waiting && !v.scan.control && Terminal(v.scan.state)
  }

  /** A session that nobody wants any more and that has not ended. */
  predicate Winding(v: State) {
    !v.scan.requested && (v.camera != Waiting || v.scan.control)
  }

  /** It was withdrawn before the camera thread looked. */
  predicate Unstarted(v: State) {
    && Winding(v)
    && (v.camera == Waiting || v.camera == Woken || v.camera.Chosen? || (v.camera.Publishing? && v.camera.verdict == Stopped))
  }

  /** How many steps the camera thread can take at most. */
  function StepsLeft(v: State): (n: nat)
    ensures n <= |v.snap.rows| + 12
  {
    var rows := |v.snap.rows|;
    match v.camera
    case Waiting => if v.scan.control then rows + 12 else 0
    case Woken => rows + 11
    case Chosen(_) => rows + 10
    case Preparing(_) => rows + 9
    case StillOurs(_) => rows + 8
    case Framing(_) => rows + 7
    case Copying(_, _, row) => 6 + (if row < rows then rows - row else 0)
    case Giving(_) => 5
    case Looping(_) => 4
    case Ending(_, _) => 3
    case Checking(_) => 2
    case Publishing(_, _) => 1
  }

  /** Every stop of a session that has not ended, unless it is doomed, takes the request back and so winds it up. */
  lemma StopWinds(v: State)
    requires Inv(v) && v.caller.Stop1? && !Doomed(v) && !Terminal(v.scan.state)
    ensures Winding(Apply(v, StopStep))
  {
  }

  lemma CameraWinds(v: State, move: Move)
    requires OneSession(v) && Faithful(v) && Winding(v) && Enabled(v, move) && OfCamera(move)
    ensures var n := CameraStep(v, move); Ended(n) || (Winding(n) && StepsLeft(n) < StepsLeft(v))
    ensures var n := CameraStep(v, move);
            Unstarted(v) ==> n.snap == v.snap && (Unstarted(n) || (Ended(n) && n.scan.state == Stopped))
  {
  }

  lemma DecoderWinds(v: State, move: Move)
    requires Winding(v) && Enabled(v, move) && OfDecoder(move)
    ensures var n := DecoderStep(v, move); Winding(n) && StepsLeft(n) == StepsLeft(v)
    ensures Unstarted(v) ==> Unstarted(DecoderStep(v, move)) && DecoderStep(v, move).snap.accepted == v.snap.accepted
  {
  }

  lemma CallerWinds(v: State, move: Move)
    requires OneSession(v) && Winding(v) && Enabled(v, move) && !OfCamera(move) && !OfDecoder(move)
    ensures var n := CallerStep(v, move); Winding(n) && StepsLeft(n) == StepsLeft(v)
    ensures Unstarted(v) ==> Unstarted(CallerStep(v, move)) && CallerStep(v, move).snap == v.snap
  {
  }

  /** In one: a step of the camera thread lowers what it has left or ends the session, no other raises it. */
  lemma StepWinds(v: State, move: Move)
    requires Inv(v) && Winding(v) && Enabled(v, move)
    ensures var n := Apply(v, move);
            || (OfCamera(move) && Ended(n))
            || (Winding(n) && StepsLeft(n) <= StepsLeft(v) - if OfCamera(move) then 1 else 0)
    ensures var n := Apply(v, move);
            Unstarted(v) ==> n.snap.accepted == v.snap.accepted && (Unstarted(n) || (Ended(n) && n.scan.state == Stopped))
  {
    if OfCamera(move) {
      CameraWinds(v, move);
    } else if OfDecoder(move) {
      DecoderWinds(v, move);
    } else {
      CallerWinds(v, move);
    }
  }

  function CameraSteps(moves: seq<Move>): nat {
    if moves == [] then 0 else (if OfCamera(moves[0]) then 1 else 0) + CameraSteps(moves[1..])
  }

  /** After n moves the session has ended; if it was withdrawn before the camera thread looked, it is announced as
      stopped and no frame was taken for it. */
  ghost predicate EndsAfter(v: State, moves: seq<Move>, n: nat) {
    && n <= |moves| && Possible(v, moves[..n]) && Ended(Run(v, moves[..n]))
    && (Unstarted(v) ==>
          var end := Run(v, moves[..n]); end.scan.state == Stopped && end.snap.accepted == v.snap.accepted)
  }

  lemma EndsAtOnce(v: State, moves: seq<Move>)
    requires moves != [] && Enabled(v, moves[0]) && Ended(Apply(v, moves[0]))
    requires var next := Apply(v, moves[0]);
             Unstarted(v) ==> next.scan.state == Stopped && next.snap.accepted == v.snap.accepted
    ensures EndsAfter(v, moves, 1)
  {
    assert moves[..1][1..] == [];
  }

  lemma EndsLater(v: State, moves: seq<Move>, n: nat)
    requires moves != [] && Enabled(v, moves[0]) && EndsAfter(Apply(v, moves[0]), moves[1..], n)
    requires var next := Apply(v, moves[0]);
             Unstarted(v) ==> Unstarted(next) && next.snap.accepted == v.snap.accepted
    ensures EndsAfter(v, moves, n + 1)
  {
    assert moves[..n + 1][1..] == moves[1..][..n];
  }

  /** Every run in which the camera thread takes that many steps passes through the session's end. */
  lemma {:induction false} StopEnds(v: State, moves: seq<Move>) returns (n: nat)
    requires Inv(v) && Winding(v) && Possible(v, moves) && CameraSteps(moves) >= StepsLeft(v)
    ensures EndsAfter(v, moves, n)
    decreases |moves|
  {
    StepKeeps(v, moves[0]);
    StepWinds(v, moves[0]);
    if Ended(Apply(v, moves[0])) {
      n := 1;
      EndsAtOnce(v, moves);
    } else {
      n := StopEnds(Apply(v, moves[0]), moves[1..]);
      EndsLater(v, moves, n);
      n := n + 1;
    }
  }

  /** And it is never stuck on the way: it can take a step, or waits for the result lock, whose holder can. */
  lemma NeverStuck(v: State)
    requires Inv(v) && Winding(v)
    ensures (exists move :: OfCamera(move) && Enabled(v, move))
            || (v.result.locked && Enabled(v, FoundStep) && LockLeft(v.decoder) > 0)
    ensures v.result.locked && Enabled(v, FoundStep) ==> LockLeft(FoundApply(v).decoder) < LockLeft(v.decoder)
  {
    var move :=
      match v.camera
      case Waiting => TakeControl
      case Woken => ReadSession
      case Chosen(_) => CheckRequested
      case Preparing(_) => Prepare(true)
      case Looping(_) => CheckLoop
      case StillOurs(_) => CheckOurs
      case Framing(_) => NoFrame
      case Copying(_, _, _) => CopyRow
      case Giving(_) => Give(true)
      case Ending(_, _) => End(true)
      case Checking(_) => CheckResult
      case Publishing(_, _) => Publish;
    if !(v.camera.Checking? && v.result.locked) { assert OfCamera(move) && Enabled(v, move); }
  }

  lemma {:induction false} Chained(v: State, first: seq<Move>, next: seq<Move>)
    requires Possible(v, first) && Possible(Run(v, first), next)
    ensures Possible(v, first + next) && Run(v, first + next) == Run(Run(v, first), next)
    decreases |first|
  {
    if first == [] {
      assert first + next == next;
    } else {
      Chained(Apply(v, first[0]), first[1..], next);
      assert (first + next)[1..] == first[1..] + next;
    }
  }

  /** One more move at the end of a run. */
  lemma More(v: State, moves: seq<Move>, move: Move) returns (longer: seq<Move>)
    requires Possible(v, moves) && Enabled(Run(v, moves), move)
    ensures longer == moves + [move] && Possible(v, longer) && Run(v, longer) == Apply(Run(v, moves), move)
  {
    longer := moves + [move];
    assert [move][1..] == [];
    Chained(v, moves, [move]);
  }

  /** A whole start. */
  lemma CanStart(blank: Frame) returns (moves: seq<Move>)
    ensures Possible(Start(blank), moves)
    ensures Run(Start(blank), moves) == Start(blank).(scan := Scanner(1, true, Starting, true))
  {
    var v := Start(blank);
    moves := More(v, [], StartCall);
    moves := More(v, moves, StartStep);
    moves := More(v, moves, StartStep);
    moves := More(v, moves, StartStep);
    moves := More(v, moves, StartStep);
    moves := More(v, moves, StartStep);
  }

  /** The camera thread running. */
  lemma CanRun(blank: Frame) returns (moves: seq<Move>)
    ensures Possible(Start(blank), moves)
    ensures Run(Start(blank), moves) == Start(blank).(scan := Scanner(1, true, Running, false), camera := Looping(1))
  {
    var v := Start(blank);
    moves := CanStart(blank);
    moves := More(v, moves, TakeControl);
    moves := More(v, moves, ReadSession);
    moves := More(v, moves, CheckRequested);
    moves := More(v, moves, Prepare(true));
  }

  /** The camera failing after a stop has looked at the state. */
  lemma CanFail(blank: Frame) returns (moves: seq<Move>)
    ensures Possible(Start(blank), moves)
    ensures Run(Start(blank), moves) == Start(blank).(scan := Scanner(1, false, Failed, false), caller := Stop1(Running))
  {
    var v := Start(blank);
    moves := CanRun(blank);
    moves := More(v, moves, StopCall);
    moves := More(v, moves, CheckLoop);
    moves := More(v, moves, CheckOurs);
    moves := More(v, moves, BadFrame);
    moves := More(v, moves, End(true));
    moves := More(v, moves, Publish);
  }

  /** Such a run: the camera fails between stop's look at the state and its announcement. */
  lemma StopCanStrand(blank: Frame) returns (moves: seq<Move>)
    ensures Possible(Start(blank), moves) && Stranded(Run(Start(blank), moves))
  {
    var v := Start(blank);
    moves := CanFail(blank);
    moves := More(v, moves, StopStep);
    moves := More(v, moves, StopStep);
  }

  // ---------------------------------------------------------------- a scan that succeeds

  /** Copying the rest of a frame into the snapshot. */
  lemma {:induction false} CanCopy(v: State) returns (moves: seq<Move>)
    requires v.camera.Copying? && |v.camera.frame| == |v.snap.rows| && v.camera.row <= |v.snap.rows|
    requires v.snap.rows[..v.camera.row] == v.camera.frame[..v.camera.row]
    ensures Possible(v, moves)
    ensures Run(v, moves) == v.(snap := v.snap.(rows := v.camera.frame, session := v.camera.s), camera := Giving(v.camera.s))
    decreases |v.snap.rows| - v.camera.row
  {
    var n := Apply(v, CopyRow);
    if v.camera.row == |v.snap.rows| {
      assert v.snap.rows == v.camera.frame;
      moves := [CopyRow];
      assert moves[1..] == [];
    } else {
      var y := v.camera.row;
      assert n.snap.rows[..y + 1] == v.snap.rows[..y] + [v.camera.frame[y]] == v.camera.frame[..y + 1];
      moves := CanCopy(n);
      moves := [CopyRow] + moves;
    }
  }

  /** Converting the rest of the snapshot into the image. */
  lemma {:induction false} CanConvert(v: State) returns (moves: seq<Move>)
    requires v.decoder.Converting? && v.decoder.image <= v.snap.rows
    ensures Possible(v, moves) && Run(v, moves) == v.(decoder := Searching(v.decoder.s, v.snap.rows))
    decreases |v.snap.rows| - |v.decoder.image|
  {
    if v.decoder.image == v.snap.rows {
      moves := [Convert];
      assert moves[1..] == [];
    } else {
      moves := CanConvert(Apply(v, Convert));
      moves := [Convert] + moves;
    }
  }

  /** A frame in the snapshot, ready to be decoded, and the camera thread in its loop. */
  lemma CanTake(blank: Frame, frame: Frame) returns (moves: seq<Move>)
    requires |frame| == |blank|
    ensures Possible(Start(blank), moves)
    ensures Run(Start(blank), moves) ==
            Start(blank).(snap := Snapshot(frame, SnapshotReady, true, 1, [Tagged(frame, 1)], []),
                          scan := Scanner(1, true, Running, false), camera := Looping(1))
  {
    var v := Start(blank);
    moves := CanRun(blank);
    moves := More(v, moves, CheckLoop);
    moves := More(v, moves, CheckOurs);
    moves := More(v, moves, Submit(frame, true));
    var copying := CanCopy(Run(v, moves));
    Chained(v, moves, copying);
    moves := More(v, moves + copying, Give(true));
  }

  /** The frame decoded, and the code found in it recorded. */
  lemma CanDecode(blank: Frame, frame: Frame) returns (moves: seq<Move>)
    requires |frame| == |blank|
    ensures Possible(Start(blank), moves)
    ensures Run(Start(blank), moves) ==
            Start(blank).(snap := Snapshot(frame, SnapshotIdle, false, 1, [Tagged(frame, 1)], [Consumed(Some(frame), 1)]),
                          scan := Scanner(1, false, Running, false), camera := Looping(1),
                          result := Result(false, 1, Some(Tagged(frame, 1)), [Tagged(frame, 1)]))
  {
    var v := Start(blank);
    moves := CanTake(blank, frame);
    moves := More(v, moves, TakeReady);
    moves := More(v, moves, Claim);
    moves := More(v, moves, Begin(true));
    var converting := CanConvert(Run(v, moves));
    Chained(v, moves, converting);
    moves := More(v, moves + converting, Report);
    FoundIsRecorded(Run(v, moves), 1, frame);
    Chained(v, moves, FoundSteps(8));
    moves := More(v, moves + FoundSteps(8), Finish);
  }

  /** Every frame can be scanned: there is a run that ends with the code found in it announced and copied. */
  lemma CanDeliver(blank: Frame, frame: Frame) returns (moves: seq<Move>)
    requires |frame| == |blank|
    ensures Possible(Start(blank), moves)
    ensures var end := Run(Start(blank), moves);
            end.scan.state == ResultReady && !end.result.locked && ResultCopy(end, 1) == Some(Some(Tagged(frame, 1)))
  {
    var v := Start(blank);
    moves := CanDecode(blank, frame);
    moves := More(v, moves, CheckLoop);
    moves := More(v, moves, End(true));
    moves := More(v, moves, CheckResult);
    moves := More(v, moves, Publish);
  }
}
