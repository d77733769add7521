# Sentinela Rondon — verified model of the detection pipeline

Sentinela Rondon is a traffic and flood-risk monitor. It reads a road video, and
a detector with a tracker labels each vehicle with a class and a track id. Each
detection is checked against the size and shape profile of its class. The first
time a track id passes that check, the monitor writes one telemetry row with the
time, the run mode and the weather. Every sampled frame it also computes the
vehicle count, the mean confidence and a risk level from the rain and the traffic.

This project models that core in Dafny and proves properties of it:

- `Morphology` holds the class profile table and the morphological validator.
  That validator truncates the box corners, rejects unknown classes and zero
  sides, and checks the area and the long-over-short ratio against closed
  intervals.
- `Weather` maps a weather code to a status text. It also gives the fixed
  fallback snapshot used when the provider cannot be read, and the fixed storm
  snapshot used in simulation mode.
- `Risk` is the memoryless first-match classification: critical, wet-road alert
  or safe.
- `Metrics` covers the mean confidence, the one-decimal confidence percentage, the
  smoothed frames-per-second figure and the frame-sampling rule.
- `Telemetry` covers the following, as values:
  - which detections of a frame are kept;
  - the quirk that a detection is validated with the box of the first detection
    sharing its track id;
  - which kept detections are first sightings of their id;
  - the rows those sightings produce.
- `Monitoring` holds the `Monitor` class. It owns the set of recorded ids, the
  append-only telemetry log and the per-cycle figures. Its `Step` method advances
  one video frame, and its detection loop is a `for` loop proved against the
  `Telemetry` functions. The class invariant says the following:
  - every recorded id has exactly one row;
  - every row belongs to a recorded id;
  - every row carries the run's mode and weather;
  - every row holds the capitalized class name (for example "Leve"), and its
    lower-cased form is a key of the profile table;
  - the sampling interval is positive;
  - the vehicle count and the mean confidence are those of the boxes on display;
  - once a frame was processed there is a risk level, and it is the level for that
    count.
  A run is also replayed frame by frame by ghost functions (`RunIds`, `RunLog`,
  `RunBoxes`) and by the rate and clock folds `RunRate` and `RunClock`. `Run` is
  proved to end in exactly the state they describe.
  Within a step, the rate, the clock and the frame counter are updated before the
  detections. Those fields are disjoint from the ones the detections change, and
  the sampling decision uses the frame number from before the step, so the
  outcome is the same as in the program's order.
- `Text` holds the ASCII lower-casing and capitalizing of class names.
- `Wrappers` holds `Option`.

Floats are modelled as exact reals. Python's `int()` on a float is truncation
toward zero. `round(x, 1)` is rounding half to even on the exact value.

## Model

| member | source | states |
|---|---|---|
| Morphology.Profiles | sentinela.py:28-33 | the four class envelopes (leve, pesado, moto, bicicleta) with positive area bounds and ratio bounds of at least 1 |
| Morphology.Truncate | sentinela.py:40 | `int()` of a coordinate is its integer part, rounded toward zero, for both signs |
| Morphology.Admits | sentinela.py:37-51 | an unknown class, or a zero side, is rejected; an accepted box has its area within the class's closed area interval |
| Morphology.Validate | sentinela.py:35-51 | the same guarantees for a detector box after its corners are truncated |
| Morphology.ValidateWithinEnvelope | sentinela.py:44-51 | for positive sides, a box is accepted iff the class is known, the area is in [areaMin, areaMax] and the long side is between ratioMin and ratioMax times the short side |
| Morphology.AdmitsWithinEnvelope | sentinela.py:44-51 | the same iff on the integer sides |
| Morphology.InvertedBoxAcceptedOnlyIfSquare | sentinela.py:41-51 | the zero-side guard lets inverted boxes through, but with sane profiles such a box is accepted only when both sides are negative and equal |
| Morphology.LightVehicleBoxAccepted | sentinela.py:28-51 | a 40 by 50 box of class leve (area 2000, ratio 1.25) is accepted |
| Morphology.ThinBoxRejected | sentinela.py:28-51 | a 1 by 200 box of class leve (ratio 200) is rejected |
| Morphology.Width | sentinela.py:40-41 | the box width after truncating both x corners (no contract of its own; used by Validate and KeptOf) |
| Morphology.Height | sentinela.py:40-41 | the box height after truncating both y corners (no contract of its own; used by Validate and KeptOf) |
| Morphology.OrderedBoxSides | sentinela.py:40-41 | corners given in order yield non-negative truncated sides |
| Weather.Status | sentinela.py:59-63 | the status is clear iff the code is 0, cloudy iff the code is nonzero and below 50, rain iff it is 50 to 79, storm iff it is 80 or above; it is never the no-data text |
| Weather.Obtain | sentinela.py:56-66 | a failed request gives exactly the fallback {0.0 mm, 22.0 C, "Sem Dados"}; otherwise the rain, the temperature and the code's status come from the reading, and the status is no-data iff the request failed |
| Weather.Fallback | sentinela.py:66 | the fixed snapshot {0.0 mm, 22.0 C, "Sem Dados"} (a constant; Obtain states when it is used) |
| Weather.Simulated | sentinela.py:176 | the fixed snapshot {20.0 mm, 18.0 C, "Tempestade"} (a constant; ForRun states when it is used) |
| Weather.ForRun | sentinela.py:176 | simulation mode always uses {20.0 mm, 18.0 C, "Tempestade"}; live mode uses exactly what Obtain gives for the provider's answer, with status no-data iff the request failed |
| Risk.Classify | sentinela.py:247-255 | critical iff rain and count both reach their thresholds; wet-road alert iff rain reaches its threshold and the count does not; safe iff rain is below its threshold, whatever the count |
| Risk.ClassifyMonotone | sentinela.py:247-255 | more rain or more vehicles never lowers the level |
| Metrics.MeanConfidence | sentinela.py:245 | no kept detection gives a mean confidence of exactly 0.0 |
| Metrics.MeanConfidenceScales | sentinela.py:245 | with at least one kept detection, the mean times the count is the confidence sum times 100 |
| Metrics.MeanConfidenceBounded | sentinela.py:245 | a sum of confidences between 0 and the count gives a mean between 0 and 100 |
| Metrics.RoundHalfEven | sentinela.py:233 | the result is within one half of the input, and a tie goes to the even neighbour |
| Metrics.ConfidencePct | sentinela.py:233 | the stored percentage has one decimal, lies within 0.05 of conf times 100, and lies in [0, 100] for a confidence in [0, 1] |
| Metrics.InstantRate | sentinela.py:261 | `1.0 / max(elapsed, 1e-5)` (its bounds are stated by InstantRateBounds) |
| Metrics.InstantRateBounds | sentinela.py:261 | the instantaneous rate is positive and at most 100000; for an elapsed time at or above the floor it is the reciprocal of that time |
| Metrics.SmoothRate | sentinela.py:261 | the new displayed rate's distance to the instantaneous rate is 0.85 times the previous rate's distance |
| Metrics.SmoothRateBetween | sentinela.py:261 | the new displayed rate lies between the previous rate and the instantaneous rate |
| Metrics.Sampled | sentinela.py:204 | frame n is sampled when n is 0, skip, 2 * skip and so on (SampledIsMultiple ties it to the modulo test) |
| Metrics.SampledIsMultiple | sentinela.py:204 | a frame is sampled iff its number modulo the interval is 0, both directions |
| Metrics.FirstFrameSampled | sentinela.py:204 | frame 0 is always sampled, so an unsampled frame is never the first |
| Metrics.SampledCountIsCeiling | sentinela.py:204 | of the first n frames, exactly ceil(n / frameSkip) are sampled |
| Text.UpperChar | sentinela.py:239 | a lower-case ASCII letter becomes the upper-case letter 32 code points below it; any other character is kept |
| Text.Lower | sentinela.py:218 | every character is mapped to its lower-case form (upper-case ASCII letters shifted by 32, everything else kept), so the length is kept and no upper-case letter is left |
| Text.LowerIdempotent | sentinela.py:218 | lower-casing twice is lower-casing once |
| Text.Capitalize | sentinela.py:239 | the first letter is upper-cased and the rest lower-cased, and the length is kept |
| Text.CapitalizeIdempotent | sentinela.py:239 | capitalizing a capitalized name changes nothing, so a row's class name is in capitalized form |
| Text.CapitalizeLowersBack | sentinela.py:218-239 | the capitalized name in a row lower-cases back to the profile key |
| Telemetry.TrackIdList | sentinela.py:214 | the frame's id list has one entry per detection, in order |
| Telemetry.FirstIndexOf | sentinela.py:220 | `list.index` returns the position of the first occurrence of the id |
| Telemetry.Passes | sentinela.py:217-220 | detection i passes when the box of the first detection with its track id validates under its own lower-cased class name (no contract of its own; VerdictsArePasses and AcceptedExactly use it) |
| Telemetry.VerdictsArePasses | sentinela.py:216-221 | the per-detection verdicts are exactly the validation outcomes, with each detection judged by the box of the first detection with its id |
| Telemetry.SelectKeepsEveryPass | sentinela.py:220-226 | every detection whose verdict is true is kept |
| Telemetry.SelectOnlyPasses | sentinela.py:220-226 | every kept entry comes from a detection whose verdict is true |
| Telemetry.KeptOf | sentinela.py:223-226 | the kept entry has the detection's truncated corners, so its sides are the detection's own truncated width and height (validation may have used an earlier box with the same id), plus the lower-cased class, the confidence and the track id |
| Telemetry.Accepted | sentinela.py:207-226 | the kept detections among the first n, at most n of them (AcceptedNext and AcceptedExactly state which) |
| Telemetry.AcceptedOf | sentinela.py:207-226 | a frame without track ids keeps nothing; otherwise the kept detections of the whole frame (no contract of its own) |
| Telemetry.AcceptedNext | sentinela.py:216-226 | walking the frame, detection i is appended to the kept list exactly when it passes validation |
| Telemetry.AcceptedExactly | sentinela.py:216-226 | a detection that passes is kept, and every kept entry is a passing detection whose class is in the profile table |
| Telemetry.ConfSum | sentinela.py:208-227 | the sum of the kept confidences in order, from 0.0 (no contract of its own; KeepOneMore and ConfSumBounds state its behaviour) |
| Telemetry.ConfSumBounds | sentinela.py:227 | confidences in [0, 1] sum to a value between 0 and the count |
| Telemetry.MeanConfidenceIsPercentage | sentinela.py:227-245 | with confidences in [0, 1] the frame's mean confidence is in [0, 100] |
| Telemetry.TrackIdsMembers | sentinela.py:231 | an id is in the kept list's id set iff some kept entry carries it |
| Telemetry.FirstSightings | sentinela.py:230-231 | the kept detections whose id is neither recorded nor kept earlier in the frame (no contract of its own; the lemmas below state its properties) |
| Telemetry.ClaimInOrder | sentinela.py:230-231 | the program's check-then-add walk over the kept detections, front to back (no contract of its own; the reference FirstSightings is proved equal to it) |
| Telemetry.FirstSightingsAreClaimedInOrder | sentinela.py:230-231 | checking and adding ids one detection at a time, front to back, yields exactly the first sightings, in first-validated order |
| Telemetry.FirstSightingsClaimNewIds | sentinela.py:230-231 | the first sightings cover exactly the frame's kept ids that were not recorded before |
| Telemetry.FirstSightingsDistinct | sentinela.py:230-231 | the first sightings have pairwise distinct ids, none recorded before |
| Telemetry.NothingNewNoSightings | sentinela.py:230 | a frame whose kept ids are all recorded produces no row |
| Telemetry.RowsOf | sentinela.py:235-239 | the rows written for a list of first sightings, one row per sighting (same count); RowsOfSnoc and KeepOneMore state the order |
| Telemetry.RowsOfSnoc | sentinela.py:235-241 | one more first sighting appends exactly its row at the end of the rows |
| Telemetry.RowOf | sentinela.py:232-239 | a row carries the track id and a class name in capitalized form that lower-cases to the kept class name |
| Telemetry.KeepOneMore | sentinela.py:226-239 | keeping one more detection adds its id and its confidence, and adds a row iff its id is neither recorded nor already kept |
| Telemetry.LedgerAfterKeeping | sentinela.py:230-239 | adding an id and appending a row only for an unrecorded id keeps the ids and rows equal to those of the first sightings so far |
| Telemetry.Ledger | sentinela.py:230-241 | the ledger invariant: distinct row ids, row ids equal to the recorded set, the run's mode and weather on every row, class names in capitalized form that lower-case to a key of the table (a predicate; LedgerRecord proves it is kept) |
| Telemetry.LedgerRecord | sentinela.py:230-241 | appending a row for an unrecorded id keeps the ids distinct, keeps the row ids equal to the recorded set, and keeps the run's mode and weather and a capitalized, profiled class name on every row |
| Monitoring.RunClock | sentinela.py:260-262 | the clock after a sequence of frames: the last frame's reading, or the start value (no contract of its own) |
| Monitoring.RunRate | sentinela.py:260-262 | the displayed rate after a sequence of frames: smoothed once per frame with that frame's elapsed time (no contract of its own; RunRateNext and RunRateBounds state its behaviour) |
| Monitoring.RunRateNext | sentinela.py:260-262 | one more frame smooths the rate with the time elapsed since the previous frame's clock and moves the clock to its own reading |
| Monitoring.RunRateBounds | sentinela.py:260-262 | starting from a rate in (0, 100000], the displayed rate stays in (0, 100000] whatever the clock readings |
| Monitoring.ModeName | sentinela.py:175 | the run-mode text "AO VIVO" or "SIMULACAO" (a constant table; no contract) |
| Monitoring.DefaultConfig | sentinela.py:18-22 | a sampling interval of 2, a rain threshold of 10.0 mm and a vehicle threshold of 15 (a constant; no contract) |
| Monitoring.Monitor.constructor | sentinela.py:173-196 | a run starts with the mode's weather, no recorded ids, no rows, no risk level and a displayed rate of 30 |
| Monitoring.Monitor.RecordSighting | sentinela.py:230-241 | the id joins the recorded set; a row is appended iff the id was not recorded before, and an already recorded id leaves the set and the log unchanged |
| Monitoring.Monitor.Keep | sentinela.py:226-241 | keeping one more detection records its sighting, and the ids and rows stay those of the first sightings of the kept list extended by it |
| Monitoring.Monitor.Consider | sentinela.py:216-241 | one loop iteration extends the kept list, the confidence sum, the recorded ids and the rows exactly as the first-sighting functions say |
| Monitoring.Monitor.RecordDetections | sentinela.py:210-241 | after a frame's loop, the kept list is the validated detections in order, the sum is their confidences, the recorded ids gained exactly their ids, and one row was appended per first sighting, in order |
| Monitoring.Monitor.Sample | sentinela.py:204-255 | a sampled frame sets the kept boxes, count = number kept, mean confidence, and the risk level for that count; a frame without ids keeps nothing and writes no row |
| Monitoring.Monitor.Tick | sentinela.py:260-266 | the displayed rate is smoothed with the frame's elapsed time and the frame counter advances by one |
| Monitoring.Monitor.Step | sentinela.py:198-266 | one frame keeps the ledger invariant, only grows the ids and the log, and on a sampled frame shows that frame's figures; any other frame keeps the previous figures, ids and rows |
| Monitoring.Monitor.Figures | sentinela.py:243-255 | the count is the number of boxes on display, the mean confidence is theirs, and any risk level is the one for that count (a predicate, part of the class invariant) |
| Monitoring.Monitor.Shown | sentinela.py:204-226 | what frame number n shows: its kept detections when it is sampled, nothing otherwise (no contract of its own) |
| Monitoring.Monitor.RunIds | sentinela.py:198-231 | the recorded ids after a sequence of frames: each sampled frame adds the ids of its kept detections (no contract of its own) |
| Monitoring.Monitor.RunLog | sentinela.py:198-241 | the rows after a sequence of frames: each sampled frame appends the rows of its first sightings (no contract of its own) |
| Monitoring.Monitor.RunBoxes | sentinela.py:198-243 | the boxes on display after a sequence of frames: those of the last sampled frame, or the earlier ones (no contract of its own) |
| Monitoring.Monitor.ReplaySkipped | sentinela.py:204 | a frame that is not sampled changes neither the ids, the rows nor the boxes on display |
| Monitoring.Monitor.ReplaySampled | sentinela.py:204-243 | a sampled frame adds the ids of its kept detections, appends the rows of its first sightings, and puts its kept detections on display |
| Monitoring.Monitor.RunIdsComeFromFrames | sentinela.py:216-231 | an id recorded during a run was kept, and so validated, in some sampled frame of that run |
| Monitoring.Monitor.Advance | sentinela.py:198-266 | after frame i of a run, the ids, the rows and the boxes on display are exactly the replay of the first i + 1 frames, the displayed rate is smoothed once with frame i's elapsed time and the clock is frame i's |
| Monitoring.Monitor.Run | sentinela.py:198-266 | after any sequence of frames, the recorded ids, the rows and the boxes on display are exactly those the frames produce one after the other (RunIds, RunLog, RunBoxes); the displayed rate and the clock are those RunRate and RunClock give; count, mean confidence and risk are those of those boxes; each recorded id keeps exactly one row, and ids and rows only grow |
| Monitoring.CarIsKept | sentinela.py:216-226 | a frame holding one 40 by 50 "Leve" detection keeps it |
| Monitoring.RepeatedIdKeepsUnvalidatedBox | sentinela.py:216-226 | after a 40 by 50 "Leve" car with id 7, a 1 by 200 "Leve" box with the same id is kept with its own 1 by 200 sides, although that box on its own fails validation |
| Monitoring.LoneSightings | sentinela.py:230-231 | a lone kept detection writes one row when its id is new and none once its id is recorded |
| Monitoring.TrackSeenTwiceIsRecordedOnce | sentinela.py:204-241 | a car with track id 7 kept in frames 0 and 2 of a run leaves exactly one row |

## Left out

- Video capture, resizing, recording and display, and the `q` key that stops the
  loop (sentinela.py:182-202, 264-272). These are I/O. A run is a finite sequence
  of frames.
- The YOLO detector and the ByteTrack tracker (sentinela.py:181, 205-214). These
  are foreign library calls. Their answer for a frame is an input: either no
  track ids, or a list of detections with box, class name, confidence and id.
- The lookup of the class name from the class index in the model's names
  (sentinela.py:217-218). The detection carries the detector's class name.
- The HTTP request and JSON parsing of the weather provider (sentinela.py:55-58).
  This is network I/O. Its outcome is an `Option<Reading>` parameter, and `None`
  stands for every failure.
- SQLite setup, commit and close (sentinela.py:68-86, 241, 272). The table is the
  append-only sequence `log`. The id set and the log last for one run, as
  `ids_registrados` does. The database file shared by the two runs at
  sentinela.py:274-277 is not modelled. A track id seen in both runs therefore
  gets one row per run.
- A failing INSERT or commit (sentinela.py:235-241). The program adds the id to
  `ids_registrados` at line 231, before the insert, so an insert that raises ends
  the run with the id recorded and no row. In the model the append always succeeds.
- Drawing, colours, banner texts and the status text of each risk level
  (sentinela.py:89-171, 251-258). These are rendering. The risk level is an
  enumeration.
- Wall-clock time. The row timestamp is one string per frame. The program reads
  `datetime.now()` per row, so rows of one frame could differ by a second. The
  `time.time()` clock is a per-frame parameter.
- Settings other than the sampling interval and the two thresholds (video source,
  model file, detector confidence, frame size, latitude, longitude, city). They
  only feed the left-out I/O.
- Text.Lower: only ASCII letters are converted. Python's `str.lower` and
  `str.capitalize` also convert other Unicode letters.
- Metrics.ConfidencePct: rounding is on exact reals. Python rounds the
  binary-float product, which can differ at a tie.
- Morphology.Validate: box corners and ratios are exact reals rather than 32-bit
  and 64-bit floats.
- extrair_frames.py is not part of this model. It is a standalone frame-export
  script.
