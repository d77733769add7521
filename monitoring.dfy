/**
 * The monitoring run: one object owns the ledger of recorded track ids, the
 * telemetry log and the per-cycle figures, and advances one video frame at a time.
 */
module Monitoring {
  import opened Wrappers
  import opened Text
  import opened Morphology
  import Weather
  import opened Risk
  import opened Metrics
  import opened Telemetry

  datatype Mode = Live | Simulation

  /** The run-mode text written to every row. */
  function ModeName(mode: Mode): string {
    match mode
    case Live => "AO VIVO"
    case Simulation => "SIMULACAO"
  }

  /** The settings the pipeline reads: frame sampling interval and the two risk thresholds. */
  datatype Config = Config(frameSkip: int, rainThreshold: real, vehicleThreshold: int)

  function DefaultConfig(): Config {
    Config(2, 10.0, 15)
  }

  /** One frame as the run loop sees it: the tracker's answer, the wall-clock text and time. */
  datatype Frame = Frame(result: FrameResult, timestamp: string, clock: real)

  /** The clock reading after `frames`: the last frame's, or `clock` when there is none. */
  function RunClock(frames: seq<Frame>, clock: real): real {
    if frames == [] then clock else frames[|frames| - 1].clock
  }

  /** The displayed rate after `frames`: smoothed once per frame with that frame's elapsed time. */
  function RunRate(frames: seq<Frame>, rate: real, clock: real): real {
    if frames == [] then rate
    else
      var prefix := frames[..|frames| - 1];
      SmoothRate(RunRate(prefix, rate, clock), frames[|frames| - 1].clock - RunClock(prefix, clock))
  }

  /** One more frame smooths the rate with its own elapsed time and moves the clock to it. */
  lemma RunRateNext(frames: seq<Frame>, i: nat, rate: real, clock: real)
    requires i < |frames|
    ensures RunClock(frames[..i + 1], clock) == frames[i].clock
    ensures RunRate(frames[..i + 1], rate, clock) ==
      SmoothRate(RunRate(frames[..i], rate, clock), frames[i].clock - RunClock(frames[..i], clock))
  {
    assert frames[..i + 1][..i] == frames[..i];
  }

  /**
   * Starting from a positive rate, the displayed rate stays positive and, starting at
   * most 100000, stays at most 100000 whatever the clock readings are.
   */
  lemma {:induction false} RunRateBounds(frames: seq<Frame>, rate: real, clock: real)
    requires 0.0 < rate <= 100000.0
    ensures 0.0 < RunRate(frames, rate, clock) <= 100000.0
  {
    if frames != [] {
      var prefix := frames[..|frames| - 1];
      RunRateBounds(prefix, rate, clock);
      var previous, elapsed := RunRate(prefix, rate, clock), frames[|frames| - 1].clock - RunClock(prefix, clock);
      InstantRateBounds(elapsed);
      SmoothRateBetween(previous, elapsed);
    }
  }

  class Monitor {
    const mode: Mode
    const config: Config
    const weather: Weather.Snapshot
    /** The class envelope table detections are validated against. */
    const profiles: map<string, Profile>

    /** Track ids already written to the log in this run. */
    var ids: set<int>
    /** Telemetry rows written in this run, oldest first. */
    var log: seq<Event>

    var frameCount: nat
    var lastBoxes: seq<Kept>
    var vehicleCount: nat
    var meanConfidence: real
    /** Risk of the last sampled frame; none before the first frame. */
    var risk: Option<Level>
    var rate: real
    var lastClock: real

    /**
     * Every recorded id has exactly one row, every row belongs to a recorded id, and
     * every row carries this run's mode and weather and a profiled class name; once a
     * frame has been processed there is a risk level (frame 0 is always sampled).
     */
    ghost predicate Valid()
      reads this`frameCount, this`risk, this`ids, this`log, this`lastBoxes, this`vehicleCount, this`meanConfidence
    {
      && config.frameSkip > 0
      && (frameCount > 0 ==> risk.Some?)
      && Recorded()
      && Figures()
    }

    /**
     * The figures on display are those of the kept boxes: their number, their mean
     * confidence and, once a frame was processed, the risk level for that number.
     */
    ghost predicate Figures()
      reads this`lastBoxes, this`vehicleCount, this`meanConfidence, this`risk
    {
      && vehicleCount == |lastBoxes|
      && meanConfidence == MeanConfidence(ConfSum(lastBoxes), |lastBoxes|)
      && (risk.Some? ==> risk.value == Classify(weather.rainMm, config.rainThreshold, |lastBoxes|, config.vehicleThreshold))
    }

    /** The ledger invariant over the recorded ids and the rows alone. */
    ghost predicate Recorded()
      reads this`ids, this`log
    {
      Ledger(profiles, log, ids, ModeName(mode), weather.status, weather.rainMm)
    }

    function Context(timestamp: string): RowContext {
      RowContext(timestamp, ModeName(mode), weather.status, weather.rainMm)
    }

    /** Start a run: choose the weather for the mode, start with no recorded ids and no rows. */
    constructor (mode: Mode, response: Option<Weather.Reading>, config: Config, clock: real)
      requires config.frameSkip > 0
      ensures Valid()
      ensures this.mode == mode && this.config == config
      ensures weather == Weather.ForRun(mode == Simulation, response) && profiles == Profiles()
      ensures ids == {} && log == []
      ensures frameCount == 0 && lastBoxes == [] && vehicleCount == 0 && meanConfidence == 0.0
      ensures risk == None && rate == 30.0 && lastClock == clock
    {
      this.mode := mode;
      this.config := config;
      weather := Weather.ForRun(mode == Simulation, response);
      profiles := Profiles();
      ids := {};
      log := [];
      frameCount := 0;
      lastBoxes := [];
      vehicleCount := 0;
      meanConfidence := 0.0;
      risk := None;
      rate := 30.0;
      lastClock := clock;
    }

    /**
     * Record one kept detection in the ledger: the first time its track id is seen
     * the id joins the recorded set and one row is appended; afterwards nothing changes.
     */
    method RecordSighting(k: Kept, timestamp: string)
      requires Recorded()
      requires Lower(k.className) in profiles
      modifies this`ids, this`log
      ensures Recorded()
      ensures ids == old(ids) + {k.trackId}
      ensures log == if k.trackId in old(ids) then old(log) else old(log) + [RowOf(k, Context(timestamp))]
    {
      if k.trackId !in ids {
        var row := RowOf(k, Context(timestamp));
        LedgerRecord(profiles, log, ids, row);
        ids := ids + {k.trackId};
        log := log + [row];
      }
    }

    /**
     * Keep one detection that passed: record its sighting, which adds a row exactly
     * when its id is new to the run.
     */
    method Keep(k: Kept, timestamp: string, ghost known: set<int>, ghost start: seq<Event>, ghost kept: seq<Kept>)
      requires Recorded() && Lower(k.className) in profiles
      requires ids == known + TrackIds(kept)
      requires log == start + RowsOf(FirstSightings(known, kept), Context(timestamp))
      modifies this`ids, this`log
      ensures Recorded()
      ensures ids == known + TrackIds(kept + [k])
      ensures log == start + RowsOf(FirstSightings(known, kept + [k]), Context(timestamp))
    {
      LedgerAfterKeeping(known, start, kept, k, Context(timestamp), ids, log);
      RecordSighting(k, timestamp);
    }

    /**
     * Validate detection i of a sampled frame against the box of the first detection
     * with its track id, and when it passes keep it and record its sighting.
     */
    method Consider(ds: seq<Detection>, i: nat, trackIds: seq<int>, timestamp: string,
                    ghost known: set<int>, ghost start: seq<Event>, kept: seq<Kept>, sum: real)
      returns (kept': seq<Kept>, sum': real)
      requires Recorded()
      requires i < |ds| && trackIds == TrackIdList(ds)
      requires kept == Accepted(profiles, ds, i) && sum == ConfSum(kept)
      requires ids == known + TrackIds(kept)
      requires log == start + RowsOf(FirstSightings(known, kept), Context(timestamp))
      modifies this`ids, this`log
      ensures Recorded()
      ensures kept' == Accepted(profiles, ds, i + 1) && sum' == ConfSum(kept')
      ensures ids == known + TrackIds(kept')
      ensures log == start + RowsOf(FirstSightings(known, kept'), Context(timestamp))
    {
      kept', sum' := kept, sum;
      AcceptedNext(profiles, ds, i);
      var d := ds[i];
      var name := Lower(d.className);
      var ok := Validate(profiles, ds[FirstIndexOf(trackIds, d.trackId)].box, name);
      if ok {
        var k := KeptOf(d);
        LowerIdempotent(d.className);
        Keep(k, timestamp, known, start, kept);
        kept', sum' := kept + [k], sum + k.conf;
        assert kept'[..|kept|] == kept;
      } else {
        assert kept + [] == kept;
      }
    }

    /**
     * Validate the detections of one sampled frame in order, keep those that pass,
     * and write one row for each kept detection whose id was not recorded yet.
     */
    method RecordDetections(ds: seq<Detection>, timestamp: string) returns (kept: seq<Kept>, sum: real)
      requires Recorded()
      modifies this`ids, this`log
      ensures Recorded()
      ensures kept == Accepted(profiles, ds, |ds|) && sum == ConfSum(kept)
      ensures ids == old(ids) + TrackIds(kept)
      ensures log == old(log) + RowsOf(FirstSightings(old(ids), kept), Context(timestamp))
    {
      kept, sum := [], 0.0;
      var trackIds := TrackIdList(ds);
      ghost var known, start := ids, log;
      for i := 0 to |ds|
        invariant Recorded()
        invariant kept == Accepted(profiles, ds, i) && sum == ConfSum(kept)
        invariant ids == known + TrackIds(kept)
        invariant log == start + RowsOf(FirstSightings(known, kept), Context(timestamp))
      {
        kept, sum := Consider(ds, i, trackIds, timestamp, known, start, kept, sum);
      }
    }

    /**
     * What a sampled frame leaves behind, given the ledger before it: the kept boxes,
     * their count, their mean confidence and the risk level for that count are this
     * frame's, the frame's ids are recorded, and one row was appended per first sighting.
     */
    ghost predicate ShowsFrame(frame: Frame, idsBefore: set<int>, logBefore: seq<Event>)
      reads this`lastBoxes, this`vehicleCount, this`meanConfidence, this`risk, this`ids, this`log
    {
      var kept := AcceptedOf(profiles, frame.result);
      && lastBoxes == kept
      && vehicleCount == |kept|
      && meanConfidence == MeanConfidence(ConfSum(kept), |kept|)
      && risk == Some(Classify(weather.rainMm, config.rainThreshold, |kept|, config.vehicleThreshold))
      && ids == idsBefore + TrackIds(kept)
      && log == logBefore + RowsOf(FirstSightings(idsBefore, kept), Context(frame.timestamp))
    }

    /**
     * The work done on a sampled frame: the kept boxes, the vehicle count, the mean
     * confidence and the risk level are replaced by those of this frame, and the
     * first sightings among its kept detections are recorded.
     */
    method Sample(frame: Frame)
      requires Recorded()
      modifies this`ids, this`log, this`lastBoxes, this`vehicleCount, this`meanConfidence, this`risk
      ensures Recorded() && Figures() && risk.Some?
      ensures ShowsFrame(frame, old(ids), old(log))
    {
      var kept: seq<Kept> := [];
      var sum := 0.0;
      if frame.result.Tracked? {
        kept, sum := RecordDetections(frame.result.detections, frame.timestamp);
      } else {
        assert log == old(log) + [];
      }
      lastBoxes := kept;
      vehicleCount := |kept|;
      meanConfidence := MeanConfidence(sum, vehicleCount);
      risk := Some(Classify(weather.rainMm, config.rainThreshold, vehicleCount, config.vehicleThreshold));
    }

    /**
     * Advance one frame. A sampled frame (one in every frameSkip) replaces the kept
     * boxes, the vehicle count, the mean confidence and the risk level; any other
     * frame keeps the previous ones. The displayed rate is smoothed on every frame.
     */
    method Step(frame: Frame)
      requires Valid()
      modifies this`ids, this`log, this`lastBoxes, this`vehicleCount, this`meanConfidence, this`risk
      modifies this`rate, this`lastClock, this`frameCount
      ensures Valid()
      ensures frameCount == old(frameCount) + 1
      ensures rate == SmoothRate(old(rate), frame.clock - old(lastClock)) && lastClock == frame.clock
      ensures old(ids) <= ids && old(log) <= log
      ensures Sampled(old(frameCount), config.frameSkip) ==> ShowsFrame(frame, old(ids), old(log))
      ensures !Sampled(old(frameCount), config.frameSkip) ==>
        && lastBoxes == old(lastBoxes) && vehicleCount == old(vehicleCount)
        && meanConfidence == old(meanConfidence) && risk == old(risk)
        && ids == old(ids) && log == old(log)
    {
      // The frame is sampled by its number before counting it; the rate, the clock and
      // the counter are disjoint from what sampling updates.
      var sampled := Sampled(frameCount, config.frameSkip);
      Tick(frame.clock);
      if sampled {
        Sample(frame);
      }
    }

    /** End of a frame: smooth the displayed rate with this frame's time and count the frame. */
    method Tick(clock: real)
      modifies this`rate, this`lastClock, this`frameCount
      ensures rate == SmoothRate(old(rate), clock - old(lastClock)) && lastClock == clock
      ensures frameCount == old(frameCount) + 1
    {
      rate := SmoothRate(rate, clock - lastClock);
      lastClock := clock;
      frameCount := frameCount + 1;
    }

    /** The detections frame number n shows: its kept ones when it is sampled, none otherwise. */
    function Shown(frame: Frame, n: nat): Option<seq<Kept>>
      requires config.frameSkip > 0
    {
      if Sampled(n, config.frameSkip) then Some(AcceptedOf(profiles, frame.result)) else None
    }

    /** The recorded ids after `frames`, numbered from `first`, starting from the ids `ids`. */
    ghost function RunIds(frames: seq<Frame>, first: nat, ids: set<int>): set<int>
      requires config.frameSkip > 0
    {
      if frames == [] then ids
      else
        var prev := RunIds(frames[..|frames| - 1], first, ids);
        match Shown(frames[|frames| - 1], first + |frames| - 1)
        case None => prev
        case Some(kept) => prev + TrackIds(kept)
    }

    /** The rows after `frames`: each sampled frame appends the rows of its first sightings. */
    ghost function RunLog(frames: seq<Frame>, first: nat, ids: set<int>, log: seq<Event>): seq<Event>
      requires config.frameSkip > 0
    {
      if frames == [] then log
      else
        var prefix, frame := frames[..|frames| - 1], frames[|frames| - 1];
        var prev := RunLog(prefix, first, ids, log);
        match Shown(frame, first + |frames| - 1)
        case None => prev
        case Some(kept) => prev + RowsOf(FirstSightings(RunIds(prefix, first, ids), kept), Context(frame.timestamp))
    }

    /** The boxes on display after `frames`: those of the last sampled frame, if any. */
    ghost function RunBoxes(frames: seq<Frame>, first: nat, boxes: seq<Kept>): seq<Kept>
      requires config.frameSkip > 0
    {
      if frames == [] then boxes
      else
        match Shown(frames[|frames| - 1], first + |frames| - 1)
        case None => RunBoxes(frames[..|frames| - 1], first, boxes)
        case Some(kept) => kept
    }

    /** Replaying a frame that is not sampled changes neither the ids, the rows nor the boxes. */
    lemma ReplaySkipped(frames: seq<Frame>, i: nat, first: nat, ids: set<int>, log: seq<Event>, boxes: seq<Kept>)
      requires config.frameSkip > 0
      requires i < |frames| && !Sampled(first + i, config.frameSkip)
      ensures RunIds(frames[..i + 1], first, ids) == RunIds(frames[..i], first, ids)
      ensures RunLog(frames[..i + 1], first, ids, log) == RunLog(frames[..i], first, ids, log)
      ensures RunBoxes(frames[..i + 1], first, boxes) == RunBoxes(frames[..i], first, boxes)
    {
      assert frames[..i + 1][..i] == frames[..i];
    }

    /**
     * Replaying a sampled frame adds the ids of its kept detections, appends the rows of
     * its first sightings and puts its kept detections on display.
     */
    lemma ReplaySampled(frames: seq<Frame>, i: nat, first: nat, ids: set<int>, log: seq<Event>, boxes: seq<Kept>)
      requires config.frameSkip > 0
      requires i < |frames| && Sampled(first + i, config.frameSkip)
      ensures Shown(frames[i], first + i) == Some(AcceptedOf(profiles, frames[i].result))
      ensures var kept := AcceptedOf(profiles, frames[i].result);
        && RunIds(frames[..i + 1], first, ids) == RunIds(frames[..i], first, ids) + TrackIds(kept)
        && RunLog(frames[..i + 1], first, ids, log) == RunLog(frames[..i], first, ids, log)
             + RowsOf(FirstSightings(RunIds(frames[..i], first, ids), kept), Context(frames[i].timestamp))
        && RunBoxes(frames[..i + 1], first, boxes) == kept
    {
      assert frames[..i + 1][..i] == frames[..i];
    }

    /**
     * An id recorded during a run was kept, that is validated, in some sampled frame
     * of it.
     */
    lemma {:induction false} RunIdsComeFromFrames(frames: seq<Frame>, first: nat, ids: set<int>, t: int)
      requires config.frameSkip > 0
      requires t in RunIds(frames, first, ids) && t !in ids
      ensures exists j :: 0 <= j < |frames| && Shown(frames[j], first + j).Some? && t in TrackIds(Shown(frames[j], first + j).value)
    {
      var prefix, j := frames[..|frames| - 1], |frames| - 1;
      if t in RunIds(prefix, first, ids) {
        RunIdsComeFromFrames(prefix, first, ids, t);
        var i :| 0 <= i < |prefix| && Shown(prefix[i], first + i).Some? && t in TrackIds(Shown(prefix[i], first + i).value);
        assert frames[i] == prefix[i];
      } else {
        assert Shown(frames[j], first + j).Some?;
      }
    }

    /** Frame i of a run: after it the ledger and the boxes are those of the first i + 1 frames. */
    method Advance(frames: seq<Frame>, i: nat, ghost first: nat, ghost ids0: set<int>, ghost log0: seq<Event>, ghost boxes0: seq<Kept>)
      requires Valid()
      requires i < |frames| && frameCount == first + i
      requires ids == RunIds(frames[..i], first, ids0)
      requires log == RunLog(frames[..i], first, ids0, log0)
      requires lastBoxes == RunBoxes(frames[..i], first, boxes0)
      modifies this`ids, this`log, this`lastBoxes, this`vehicleCount, this`meanConfidence, this`risk
      modifies this`rate, this`lastClock, this`frameCount
      ensures Valid()
      ensures frameCount == first + i + 1
      ensures ids == RunIds(frames[..i + 1], first, ids0)
      ensures log == RunLog(frames[..i + 1], first, ids0, log0)
      ensures lastBoxes == RunBoxes(frames[..i + 1], first, boxes0)
      ensures rate == SmoothRate(old(rate), frames[i].clock - old(lastClock)) && lastClock == frames[i].clock
      ensures old(ids) <= ids && old(log) <= log
    {
      ghost var sampled, before := Sampled(frameCount, config.frameSkip), log;
      Step(frames[i]);
      if sampled {
        ReplaySampled(frames, i, first, ids0, log0, boxes0);
        ghost var kept := AcceptedOf(profiles, frames[i].result);
        assert log == before + RowsOf(FirstSightings(old(ids), kept), Context(frames[i].timestamp));
      } else {
        ReplaySkipped(frames, i, first, ids0, log0, boxes0);
      }
    }

    /**
     * Process frames until the video ends. The recorded ids, the rows and the boxes on
     * display are those the frames produce one after the other; every recorded id keeps
     * exactly one row throughout.
     */
    method Run(frames: seq<Frame>)
      requires Valid()
      modifies this
      ensures Valid()
      ensures frameCount == old(frameCount) + |frames|
      ensures ids == RunIds(frames, old(frameCount), old(ids))
      ensures log == RunLog(frames, old(frameCount), old(ids), old(log))
      ensures lastBoxes == RunBoxes(frames, old(frameCount), old(lastBoxes))
      ensures rate == RunRate(frames, old(rate), old(lastClock)) && lastClock == RunClock(frames, old(lastClock))
      ensures old(ids) <= ids && old(log) <= log
      ensures frameCount > 0 ==> risk.Some?
    {
      var i := 0;
      while i < |frames|
        invariant 0 <= i <= |frames|
        invariant Valid()
        invariant frameCount == old(frameCount) + i
        invariant ids == RunIds(frames[..i], old(frameCount), old(ids))
        invariant log == RunLog(frames[..i], old(frameCount), old(ids), old(log))
        invariant lastBoxes == RunBoxes(frames[..i], old(frameCount), old(lastBoxes))
        invariant rate == RunRate(frames[..i], old(rate), old(lastClock)) && lastClock == RunClock(frames[..i], old(lastClock))
        invariant old(ids) <= ids && old(log) <= log
      {
        Advance(frames, i, old(frameCount), old(ids), old(log), old(lastBoxes));
        RunRateNext(frames, i, old(rate), old(lastClock));
        i := i + 1;
      }
      assert frames[..i] == frames;
    }
  }

  /** A 40 by 50 light vehicle tracked as id 7. */
  function Car(): Detection {
    Detection(Box(100.0, 100.0, 140.0, 150.0), "Leve", 0.9, 7)
  }

  /** A frame holding only the car is kept whole. */
  lemma CarIsKept()
    ensures AcceptedOf(Profiles(), Tracked([Car()])) == [KeptOf(Car())]
    ensures KeptOf(Car()).trackId == 7
  {
    LightVehicleBoxAccepted();
    assert Lower("Leve") == "leve";
    assert TrackIdList([Car()]) == [7];
    assert FirstIndexOf(TrackIdList([Car()]), 7) == 0;
    assert Passes(Profiles(), [Car()], 0);
  }

  /** A 1 by 200 sliver labelled as a light vehicle that reuses the car's id 7. */
  function Sliver(): Detection {
    Detection(Box(100.0, 100.0, 101.0, 300.0), "Leve", 0.8, 7)
  }

  /**
   * A detection is validated with the box of the first detection sharing its id, but
   * keeps its own box: after the car, the sliver is kept with its 1 by 200 sides even
   * though its own box fails validation.
   */
  lemma RepeatedIdKeepsUnvalidatedBox()
    ensures !Validate(Profiles(), Sliver().box, Lower(Sliver().className))
    ensures KeptOf(Sliver()) in AcceptedOf(Profiles(), Tracked([Car(), Sliver()]))
    ensures KeptOf(Sliver()).x2 - KeptOf(Sliver()).x1 == 1 && KeptOf(Sliver()).y2 - KeptOf(Sliver()).y1 == 200
  {
    var ds := [Car(), Sliver()];
    LightVehicleBoxAccepted();
    ThinBoxRejected();
    assert Lower("Leve") == "leve";
    assert TrackIdList(ds) == [7, 7];
    assert FirstIndexOf(TrackIdList(ds), 7) == 0;
    assert Passes(Profiles(), ds, 1);
    AcceptedExactly(Profiles(), ds);
    assert Width(Sliver().box) == 1 && Height(Sliver().box) == 200;
  }

  /** A lone kept detection is a first sighting once, and not after its id is recorded. */
  lemma LoneSightings(k: Kept, ctx: RowContext)
    ensures |RowsOf(FirstSightings({}, [k]), ctx)| == 1
    ensures TrackIds([k]) == {k.trackId}
    ensures FirstSightings({k.trackId}, [k]) == []
  {
    assert [k][..0] == [];
    assert FirstSightings({}, [k]) == [k];
    assert TrackIds([k]) == {k.trackId};
    assert FirstSightings({k.trackId}, [k]) == [];
  }

  /**
   * Track 7 is kept in frame 0 and again in frame 2 (frame 1 is not sampled): the run
   * writes one row for it, not two.
   */
  method TrackSeenTwiceIsRecordedOnce() returns (rows: nat)
    ensures rows == 1
  {
    var monitor := new Monitor(Simulation, None, DefaultConfig(), 0.0);
    CarIsKept();
    LoneSightings(KeptOf(Car()), monitor.Context("2024-01-01 10:00:00"));
    monitor.Step(Frame(Tracked([Car()]), "2024-01-01 10:00:00", 0.04));
    assert monitor.ids == {7} && |monitor.log| == 1;
    monitor.Step(Frame(Tracked([Car()]), "2024-01-01 10:00:00", 0.08));
    assert monitor.ids == {7} && |monitor.log| == 1;
    monitor.Step(Frame(Tracked([Car()]), "2024-01-01 10:00:01", 0.12));
    rows := |monitor.log|;
  }
}
