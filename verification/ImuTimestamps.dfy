/**
 The time stamps of the motion sensor, after drivers/sensor/qmi8658a_fifo/qmi8658a_fifo.c, which
 makes them up from a FIFO count and a clock reading, and src/imu/imu.c, which checks them.
 */
module ImuTimestamps {
  import opened Bytes

  const MAX_BATCH := 16
  const FRAME_BYTES := 12
  const COUNTS_PER_AXIS := 32768

  const EACCES := -13
  const EOVERFLOW := -139
  const EBADMSG := -77
  const EINVAL := -22

  datatype Sample = Sample(timestamp: nat, discontinuity: bool, accel: seq<int>, gyro: seq<int>)

  // ------------------------------------------------------------------ the output data rate

  datatype Rate = Rate(hz: nat, millihz: nat)

  const RATES := [Rate(7174, 7174400), Rate(3587, 3587200), Rate(1793, 1793600), Rate(896, 896800),
                  Rate(448, 448400), Rate(224, 224200), Rate(112, 112100), Rate(56, 56050), Rate(28, 28025)]

  function Distance(a: int, b: int): nat {
    if a > b then a - b else b - a
  }

  /** qmi8658a_select_odr: the nearest rate, the faster one of two that are equally near. */
  method SelectRate(requested: nat) returns (rc: int, rate: Rate)
    requires requested < 0x1_0000
    ensures rc == 0 <==> requested != 0
    ensures rate in RATES
    ensures rc == 0 ==> forall r :: r in RATES ==> Distance(rate.hz, requested) <= Distance(r.hz, requested)
    ensures rc == 0 ==>
              forall r :: r in RATES && r.hz > rate.hz ==> Distance(rate.hz, requested) < Distance(r.hz, requested)
  {
    rate := RATES[0];
    if requested == 0 { return EINVAL, rate; }
    var best, bestDelta, i := 0, 0xffff_ffff, 0;
    while i < |RATES|
      invariant i <= |RATES| && best < |RATES|
      invariant i == 0 ==> bestDelta == 0xffff_ffff
      invariant i > 0 ==> best < i && bestDelta == Distance(RATES[best].hz, requested)
      invariant forall k :: 0 <= k < i ==> bestDelta <= Distance(RATES[k].hz, requested)
      invariant forall k :: 0 <= k < best && k < i ==> bestDelta < Distance(RATES[k].hz, requested)
    {
      var delta := Distance(RATES[i].hz, requested);
      if delta < bestDelta { bestDelta, best := delta, i; }
      i := i + 1;
    }
    rc, rate := 0, RATES[best];
    assert forall k :: 0 <= k < |RATES| && RATES[k].hz > rate.hz ==> k < best;
  }

  function Period(millihz: nat): nat
    requires millihz > 0
  {
    1_000_000_000_000 / millihz
  }

  /** Every rate has a period of at least one nanosecond, and a full batch spans less than a second. */
  lemma PeriodsAreUsable(rate: Rate)
    requires rate in RATES
    ensures rate.millihz > 0 && 1 <= Period(rate.millihz) && MAX_BATCH * Period(rate.millihz) < 1_000_000_000
  {
  }

  // --------------------------------------------------------------------- unit conversions

  /** C division, which truncates toward zero. */
  function Quotient(a: int, b: nat): int
    requires b > 0
  {
    if a < 0 then -((-a) / b) else a / b
  }

  type raw = r: int | -COUNTS_PER_AXIS <= r < COUNTS_PER_AXIS

  function Convert(r: raw, fullScale: nat, units: nat): int {
    Quotient(r * fullScale * units, COUNTS_PER_AXIS)
  }

  predicate Scales(fullScale: nat, units: nat) {
    (units == 1_000_000 && fullScale in {2, 4, 8, 16})
    || (units == 100_000 && fullScale in {16, 32, 64, 128, 256, 512, 1024, 2048})
  }

  /** A reading converts to within one unit, rounded toward zero, never beyond full scale or 32 bits. */
  lemma ConvertIsFaithful(r: raw, fullScale: nat, units: nat)
    requires Scales(fullScale, units)
    ensures var c, exact := Convert(r, fullScale, units), r * fullScale * units;
            && (r >= 0 ==> c * COUNTS_PER_AXIS <= exact < (c + 1) * COUNTS_PER_AXIS)
            && (r <= 0 ==> (c - 1) * COUNTS_PER_AXIS < exact <= c * COUNTS_PER_AXIS)
            && -(fullScale * units) <= c <= fullScale * units
            && -0x8000_0000 <= c < 0x8000_0000
  {
  }

  /** Turning the sensor round turns the sign round, whenever the opposite reading exists. */
  lemma ConvertIsOdd(r: int, fullScale: nat, units: nat)
    requires -COUNTS_PER_AXIS < r < COUNTS_PER_AXIS
    ensures Convert(-r, fullScale, units) == -Convert(r, fullScale, units)
  {
  }

  /** Two bytes of the FIFO, least significant first, as a signed number. */
  function Signed(low: byte, high: byte): raw {
    var u := low + 256 * high;
    if u < 0x8000 then u else u - 0x1_0000
  }

  // ------------------------------------------------------------------------- the FIFO read

  /** What the bus answers during one poll: return codes, the two count registers, the clock, the FIFO bytes. */
  datatype Poll = Poll(countRc: int, count0: byte, count1: byte, snapshot: nat,
                       requestRc: int, dataRc: int, releaseRc: int, fifo: nat -> byte)
  {
    /** The number of 16-bit words: ten bits over two registers. */
    function Words(): (n: nat)
      ensures n < 1024
    {
      count0 + 256 * (count1 % 4)
    }

    predicate Overflowed() { count1 / 32 % 2 == 1 }

    /** The frames a poll can deliver; a count that is not a whole number of frames delivers none. */
    function Frames(): (n: nat)
      ensures n * FRAME_BYTES <= Words() * 2
    {
      if Words() * 2 % FRAME_BYTES != 0 then 0 else Words() * 2 / FRAME_BYTES
    }

    /** The error of the read, 0 if it went through. */
    function Status(): int {
      if countRc < 0 then countRc
      else if Frames() == 0 then 0
      else if Frames() > MAX_BATCH then EOVERFLOW
      else if requestRc < 0 then requestRc
      else if dataRc < 0 then dataRc
      else if releaseRc < 0 then releaseRc
      else 0
    }

    function Delivered(): nat {
      if countRc >= 0 && Status() == 0 then Frames() else 0
    }

    /** The clock reading exceeds the span of the batch that is delivered. */
    predicate ClockCovers(period: nat) {
      Delivered() > 0 && snapshot > (Delivered() - 1) * period
    }
  }

  // --------------------------------------------------------------- time stamps for a batch

  datatype Plan = Plan(base: nat, step: nat, discontinuity: bool) {
    function Time(i: nat): nat { base + i * step }
  }

  /** The oldest time of a batch that ends at the clock reading. */
  function Ideal(period: nat, snapshot: nat, count: nat): nat
    requires count > 0
  {
    var span := (count - 1) * period;
    if snapshot > span then snapshot - span else 1
  }

  /** The ideal times would not follow the previous batch. */
  predicate Overlaps(last: nat, period: nat, snapshot: nat, count: nat)
    requires count > 0
  {
    last != 0 && Ideal(period, snapshot, count) <= last
  }

  /** The clock has moved on by at least a nanosecond for each frame. */
  predicate HasRoom(last: nat, snapshot: nat, count: nat) {
    snapshot >= last + count
  }

  function PlanOf(last: nat, period: nat, snapshot: nat, count: nat, overflow: bool): Plan
    requires count > 0
  {
    if Overlaps(last, period, snapshot, count) then
      if HasRoom(last, snapshot, count) then
        var step := (snapshot - last) / count;
        Plan(last + step, step, overflow)
      else
        Plan(Ideal(period, snapshot, count), period, true)
    else
      Plan(Ideal(period, snapshot, count), period, overflow)
  }

  /** The plan of any poll: positive times, rising after the previous batch unless flagged. */
  lemma PlanRises(last: nat, period: nat, snapshot: nat, count: nat, overflow: bool)
    requires count > 0 && period > 0
    ensures var p := PlanOf(last, period, snapshot, count, overflow);
            && p.base > 0 && p.step > 0
            && (last == 0 || p.discontinuity || last < p.base)
  {
  }

  /**
   The newest time lies at or before the clock reading exactly when the reading exceeds the span of
   the batch or the times were squeezed in after the previous batch; then it is the reading itself,
   or short of it by less than one nanosecond a frame. Otherwise it is one more than the span.
   */
  lemma NewestAgainstClock(last: nat, period: nat, snapshot: nat, count: nat, overflow: bool)
    requires count > 0
    ensures var newest := PlanOf(last, period, snapshot, count, overflow).Time(count - 1);
            var span := (count - 1) * period;
            var squeezed := Overlaps(last, period, snapshot, count) && HasRoom(last, snapshot, count);
            && (newest <= snapshot <==> snapshot > span || squeezed)
            && (newest <= snapshot ==> snapshot < newest + count)
            && (newest <= snapshot && !squeezed ==> newest == snapshot)
            && (newest > snapshot ==> newest == span + 1)
  {
  }

  /** All time arithmetic fits 64 bits while the clock does. */
  lemma PlanFits(last: nat, period: nat, snapshot: nat, count: nat, overflow: bool)
    requires 0 < count <= MAX_BATCH && period < 0x1_0000_0000 && snapshot < 0x1_0000_0000_0000_0000
    ensures (count - 1) * period < 0x1_0000_0000_0000_0000
    ensures PlanOf(last, period, snapshot, count, overflow).Time(count - 1) < 0x1_0000_0000_0000_0000
  {
    NewestAgainstClock(last, period, snapshot, count, overflow);
    SpanFits(count, period);
  }

  lemma SpanFits(count: nat, period: nat)
    requires 0 < count <= MAX_BATCH
    ensures (count - 1) * period <= 15 * period
  {
  }

  // ---------------------------------------------------------------------------- the driver

  function Axes(fifo: nat -> byte, at: nat, fullScale: nat, units: nat): seq<int> {
    [Convert(Signed(fifo(at), fifo(at + 1)), fullScale, units),
     Convert(Signed(fifo(at + 2), fifo(at + 3)), fullScale, units),
     Convert(Signed(fifo(at + 4), fifo(at + 5)), fullScale, units)]
  }

  class Driver {
    const period: nat
    const accelScale: nat
    const gyroScale: nat
    var last: nat
    var running: bool

    ghost predicate Valid()
      reads this
    {
      period > 0 && (!running ==> last == 0)
    }

    constructor (rate: Rate, accelScale: nat, gyroScale: nat)
      requires rate in RATES
      ensures Valid() && !running
    {
      PeriodsAreUsable(rate);
      this.period, this.accelScale, this.gyroScale := Period(rate.millihz), accelScale, gyroScale;
      last, running := 0, false;
    }

    /** `bus` is the outcome of the register sequence. */
    method Start(bus: int) returns (rc: int)
      requires Valid() && bus <= 0
      modifies this
      ensures Valid()
      ensures old(running) ==> rc == 0 && running && last == old(last)
      ensures !old(running) ==> rc == bus && running == (bus == 0) && last == 0
    {
      if running { return 0; }
      if bus < 0 { return bus; }
      last, running := 0, true;
      rc := 0;
    }

    method Stop(bus: int) returns (rc: int)
      requires Valid() && bus <= 0
      modifies this
      ensures Valid() && !running && last == 0
      ensures rc == if old(running) then bus else 0
    {
      if !running { return 0; }
      last, running := 0, false;
      rc := bus;
    }

    /** The sample at one place of a batch. */
    function SampleAt(poll: Poll, plan: Plan, i: nat): Sample {
      Sample(plan.Time(i), plan.discontinuity && i == 0,
             Axes(poll.fifo, i * FRAME_BYTES, accelScale, 1_000_000),
             Axes(poll.fifo, i * FRAME_BYTES + 6, gyroScale, 100_000))
    }

    method ReadBatch(poll: Poll, batch: array<Sample>) returns (rc: int, count: nat)
      requires Valid() && batch.Length == MAX_BATCH
      modifies `last, batch
      ensures Valid() && count <= MAX_BATCH
      ensures !running ==> rc == EACCES && count == 0
      ensures running ==> rc == poll.Status() && count == poll.Delivered()
      ensures count == 0 ==> last == old(last)
      ensures count > 0 ==>
                var plan := PlanOf(old(last), period, poll.snapshot, count, poll.Overflowed());
                && last == plan.Time(count - 1)
                && forall i :: 0 <= i < count ==> batch[i] == SampleAt(poll, plan, i)
    {
      count := 0;
      if !running { return EACCES, 0; }
      rc := poll.Status();
      count := poll.Delivered();
      if rc < 0 || count == 0 { return; }
      var base, step, discontinuity := Stamp(poll, count);
      Fill(poll, Plan(base, step, discontinuity), count, batch);
    }

    /** The time arithmetic of a batch. */
    method Stamp(poll: Poll, count: nat) returns (base: nat, step: nat, discontinuity: bool)
      requires count > 0
      modifies `last
      ensures Plan(base, step, discontinuity) == PlanOf(old(last), period, poll.snapshot, count, poll.Overflowed())
      ensures last == Plan(base, step, discontinuity).Time(count - 1)
    {
      var span := (count - 1) * period;
      base := if poll.snapshot > span then poll.snapshot - span else 1;
      step := period;
      discontinuity := poll.Overflowed();
      if last != 0 && base <= last {
        var available := if poll.snapshot > last then poll.snapshot - last else 0;
        if available >= count {
          step := available / count;
          base := last + step;
        } else {
          discontinuity := true;
        }
      }
      last := base + (count - 1) * step;
    }

    /** The loop over the frames. */
    method Fill(poll: Poll, plan: Plan, count: nat, batch: array<Sample>)
      requires count <= batch.Length
      modifies batch
      ensures forall i :: 0 <= i < count ==> batch[i] == SampleAt(poll, plan, i)
    {
      for i := 0 to count
        invariant forall k :: 0 <= k < i ==> batch[k] == SampleAt(poll, plan, k)
      {
        batch[i] := Sample(plan.base + i * plan.step, plan.discontinuity && i == 0,
                           Axes(poll.fifo, i * FRAME_BYTES, accelScale, 1_000_000),
                           Axes(poll.fifo, i * FRAME_BYTES + 6, gyroScale, 100_000));
      }
    }
  }

  // -------------------------------------------------------------------------- the consumer

  /** The time before sample `i` of a batch that follows `last`; 0 when there was none. */
  function Previous(last: nat, samples: seq<Sample>, i: nat): nat
    requires i <= |samples|
  {
    if i == 0 then last else samples[i - 1].timestamp
  }

  /** What the consumer asks of a batch. */
  predicate Acceptable(last: nat, samples: seq<Sample>) {
    forall i :: 0 <= i < |samples| ==>
      && samples[i].timestamp != 0
      && (Previous(last, samples, i) == 0 || samples[i].discontinuity || samples[i].timestamp > Previous(last, samples, i))
  }

  /** What a reader of the stream may rely on. */
  predicate Rising(stream: seq<Sample>) {
    && (forall i :: 0 <= i < |stream| ==> stream[i].timestamp > 0)
    && (forall i :: 0 < i < |stream| && !stream[i].discontinuity ==> stream[i - 1].timestamp < stream[i].timestamp)
  }

  lemma AcceptableExtends(stream: seq<Sample>, last: nat, samples: seq<Sample>)
    requires Rising(stream) && Acceptable(last, samples)
    requires stream != [] ==> last == stream[|stream| - 1].timestamp
    ensures Rising(stream + samples)
  {
    var all := stream + samples;
    forall i | 0 < i < |all| && !all[i].discontinuity ensures all[i - 1].timestamp < all[i].timestamp {
      if i >= |stream| {
        assert all[i] == samples[i - |stream|];
        assert Previous(last, samples, i - |stream|) == all[i - 1].timestamp;
      }
    }
  }

  lemma TimeRises(p: Plan, i: nat)
    requires p.step > 0
    ensures p.Time(i) < p.Time(i + 1)
  {
  }

  /** Whatever the clock reads, the consumer accepts what the driver stamps after the same last time. */
  lemma DriverMeetsConsumer(last: nat, period: nat, snapshot: nat, count: nat, overflow: bool, samples: seq<Sample>)
    requires |samples| == count > 0 && period > 0
    requires var plan := PlanOf(last, period, snapshot, count, overflow);
             forall i :: 0 <= i < count ==>
               samples[i].timestamp == plan.Time(i) && samples[i].discontinuity == (plan.discontinuity && i == 0)
    ensures Acceptable(last, samples)
    ensures forall i :: 0 < i < count ==> samples[i - 1].timestamp < samples[i].timestamp
  {
    var plan := PlanOf(last, period, snapshot, count, overflow);
    PlanRises(last, period, snapshot, count, overflow);
    forall i | 0 <= i < count
      ensures samples[i].timestamp > 0 && (i > 0 ==> samples[i - 1].timestamp < samples[i].timestamp)
    {
      if i > 0 { TimeRises(plan, i - 1); }
    }
  }

  const ERROR_THRESHOLD := 5

  /** The failures in a row after one more: they are counted up to five, and what is reported is marked. */
  function FailuresAfter(errors: nat): nat {
    if errors < 4 then errors + 1 else 6
  }

  /** The fifth in a row is reported. */
  function ReportsAfter(errors: nat): nat {
    if errors == 4 then 1 else 0
  }

  /** The IMU thread with the driver it owns. */
  class Acquisition {
    const driver: Driver
    var last: nat
    var running: bool
    var errors: nat
    /** How often imu_report_error was called. */
    var reports: nat
    /** The samples handed on since the source was started. */
    ghost var stream: seq<Sample>

    /** The stream let through rises, and the last time is that of its last sample. */
    ghost predicate Following()
      reads this
    {
      Rising(stream) && last == if stream == [] then 0 else stream[|stream| - 1].timestamp
    }

    /** The consumer's last time is the driver's, which the stream let through rises to. */
    ghost predicate Valid()
      reads this, driver
    {
      && driver.Valid()
      && running == driver.running
      && (running ==> last == driver.last && Following())
      && (errors < ERROR_THRESHOLD || errors == ERROR_THRESHOLD + 1)
    }

    constructor (driver: Driver)
      requires driver.Valid() && !driver.running
      ensures Valid() && this.driver == driver && !running && errors == 0 && reports == 0
    {
      this.driver := driver;
      last, running, errors, reports, stream := 0, false, 0, 0, [];
    }

    /** imu_process_batch: nothing is handed on unless the whole batch passes. */
    method ProcessBatch(batch: array<Sample>, count: nat) returns (rc: int)
      requires count <= batch.Length && Following()
      modifies `last, `stream
      ensures Following()
      ensures rc == 0 <==> count <= MAX_BATCH && Acceptable(old(last), batch[..count])
      ensures rc == 0 ==> stream == old(stream) + batch[..count] && last == Previous(old(last), batch[..count], count)
      ensures rc != 0 ==> rc in {EOVERFLOW, EBADMSG} && stream == old(stream) && last == old(last)
    {
      if count > MAX_BATCH { return EOVERFLOW; }
      var passes, latest := CheckBatch(batch, count);
      if !passes { return EBADMSG; }
      AcceptableExtends(stream, last, batch[..count]);
      stream := stream + batch[..count];
      last := latest;
      rc := 0;
    }

    /** Its loop over the samples. */
    method CheckBatch(batch: array<Sample>, count: nat) returns (passes: bool, latest: nat)
      requires count <= batch.Length
      ensures passes <==> Acceptable(last, batch[..count])
      ensures passes ==> latest == Previous(last, batch[..count], count)
    {
      latest := last;
      var i := 0;
      while i < count
        invariant i <= count && latest == Previous(last, batch[..count], i)
        invariant forall k :: 0 <= k < i ==>
          && batch[k].timestamp != 0
          && (Previous(last, batch[..count], k) == 0 || batch[k].discontinuity
              || batch[k].timestamp > Previous(last, batch[..count], k))
      {
        if batch[i].timestamp == 0 || (latest != 0 && !batch[i].discontinuity && batch[i].timestamp <= latest) {
          assert Previous(last, batch[..count], i) == latest && batch[..count][i] == batch[i];
          return false, latest;
        }
        latest := batch[i].timestamp;
        i := i + 1;
      }
      passes := true;
    }

    method StartSource(bus: int) returns (rc: int)
      requires Valid() && !running && bus <= 0
      modifies this, driver
      ensures Valid() && rc == bus && running == (bus == 0)
      ensures running ==> stream == [] && errors == 0
      ensures !running ==> errors == old(errors)
      ensures reports == old(reports)
    {
      rc := driver.Start(bus);
      if rc < 0 { return; }
      running, last, errors, stream := true, 0, 0, [];
    }

    method StopSource(bus: int)
      requires Valid() && bus <= 0
      modifies this, driver
      ensures Valid() && !running && errors == old(errors) && reports == old(reports)
    {
      if !running { return; }
      var _ := driver.Stop(bus);
      running := false;
    }

    /** Failures are reported once, when the fifth in a row arrives, and stop the source from then on. */
    method HandleFailure(bus: int)
      requires Valid() && bus <= 0
      modifies this, driver
      ensures Valid()
      ensures errors == FailuresAfter(old(errors)) && reports == old(reports) + ReportsAfter(old(errors))
      ensures running == (old(running) && old(errors) < 4)
      ensures running ==> stream == old(stream)
    {
      if errors < ERROR_THRESHOLD { errors := errors + 1; }
      if errors < ERROR_THRESHOLD { return; }
      if errors == ERROR_THRESHOLD {
        reports := reports + 1;
        errors := errors + 1;
      }
      StopSource(bus);
    }

    /** The driver's batch as the consumer sees it. */
    method ReadSource(poll: Poll, batch: array<Sample>) returns (rc: int, count: nat)
      requires Valid() && running && batch.Length == MAX_BATCH
      modifies driver, batch
      ensures driver.Valid() && driver.running && rc == poll.Status() && count == poll.Delivered() <= MAX_BATCH
      ensures Acceptable(last, batch[..count]) && driver.last == Previous(last, batch[..count], count)
      ensures poll.ClockCovers(driver.period) ==> driver.last <= poll.snapshot
    {
      rc, count := driver.ReadBatch(poll, batch);
      if count > 0 {
        DriverMeetsConsumer(last, driver.period, poll.snapshot, count, poll.Overflowed(), batch[..count]);
        NewestAgainstClock(last, driver.period, poll.snapshot, count, poll.Overflowed());
      }
    }

    /** Reading and checking one batch: the consumer never rejects what the driver delivers. */
    method Deliver(poll: Poll) returns (rc: int)
      requires Valid() && running
      modifies `last, `stream, driver
      ensures Valid() && running && rc == poll.Status()
      ensures old(stream) <= stream && |stream| == |old(stream)| + poll.Delivered()
      ensures poll.ClockCovers(driver.period) ==> last <= poll.snapshot
    {
      var batch := new Sample[MAX_BATCH];
      var count;
      rc, count := ReadSource(poll, batch);
      if rc < 0 { return; }
      rc := ProcessBatch(batch, count);
    }

    /** One poll of a running source. */
    method Acquire(poll: Poll, bus: int) returns (rc: int)
      requires Valid() && running && bus <= 0
      modifies this, driver
      ensures Valid() && rc == poll.Status()
      ensures rc >= 0 ==> running && errors == 0 && reports == old(reports)
      ensures running ==> old(stream) <= stream && |stream| == |old(stream)| + poll.Delivered()
      ensures running && poll.ClockCovers(driver.period) ==> last <= poll.snapshot
      ensures rc < 0 ==>
                && errors == FailuresAfter(old(errors)) && reports == old(reports) + ReportsAfter(old(errors))
                && running == (old(errors) < 4)
    {
      rc := Deliver(poll);
      if rc < 0 {
        HandleFailure(bus);
        return;
      }
      errors := 0;
    }

    /** One turn of the thread; `wanted` and `still` say whether there are clients before and after the wait. Nobody
        wants it: it ends stopped. Stopped and wanted: it starts afresh, or counts a failure. Running and still
        wanted: the whole batch polled joins the stream, or a failure counts, the fifth in a row being the last. */
    method Turn(wanted: bool, still: bool, startRc: int, poll: Poll, stopRc: int)
      requires Valid() && startRc <= 0 && stopRc <= 0
      modifies this, driver
      ensures Valid()
      ensures !wanted ==> !running && errors == old(errors) && reports == old(reports)
      ensures wanted && !old(running) && startRc == 0 ==> running && stream == [] && errors == 0 && reports == old(reports)
      ensures wanted && !old(running) && startRc < 0 ==>
                !running && errors == FailuresAfter(old(errors)) && reports == old(reports) + ReportsAfter(old(errors))
      ensures wanted && old(running) && !still ==> unchanged(this) && unchanged(driver)
      ensures wanted && old(running) && still && poll.Status() >= 0 ==>
                && running && errors == 0 && reports == old(reports)
                && old(stream) <= stream && |stream| == |old(stream)| + poll.Delivered()
      ensures wanted && old(running) && still && poll.Status() < 0 ==>
                && errors == FailuresAfter(old(errors)) && reports == old(reports) + ReportsAfter(old(errors))
                && running == (old(errors) < 4)
    {
      if !wanted {
        StopSource(stopRc);
      } else if !running {
        var rc := StartSource(startRc);
        if rc < 0 { HandleFailure(stopRc); }
      } else if still {
        var _ := Acquire(poll, stopRc);
      }
    }
  }
}
