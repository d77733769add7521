/**
 * What one sampled frame contributes: which tracked detections pass validation,
 * which of those are first sightings of their track id, and the telemetry rows
 * written for the first sightings.
 */
module Telemetry {
  import opened Text
  import opened Morphology
  import opened Metrics

  /** One tracked box of a frame: box, the detector's class name, confidence, track id. */
  datatype Detection = Detection(box: Box, className: string, conf: real, trackId: int)

  /** The tracker's answer for a frame: no track ids at all, or one detection per tracked box. */
  datatype FrameResult = NoIds | Tracked(detections: seq<Detection>)

  /** A validated detection as the monitor keeps it: truncated corners, lower-case class name. */
  datatype Kept = Kept(x1: int, y1: int, x2: int, y2: int, className: string, conf: real, trackId: int)

  /** One telemetry row. */
  datatype Event = Event(
    timestamp: string,
    mode: string,
    trackId: int,
    className: string,
    confidencePct: real,
    weatherStatus: string,
    rainMm: real)

  /** The values every row of one frame shares: time, run mode and weather. */
  datatype RowContext = RowContext(timestamp: string, mode: string, weatherStatus: string, rainMm: real)

  /** The frame's track ids in detection order. */
  function TrackIdList(ds: seq<Detection>): (ids: seq<int>)
    ensures |ids| == |ds|
    ensures forall i | 0 <= i < |ds| :: ids[i] == ds[i].trackId
  {
    if ds == [] then [] else [ds[0].trackId] + TrackIdList(ds[1..])
  }

  /** Python's `list.index`: the position of the first occurrence of `t`. */
  function FirstIndexOf(ids: seq<int>, t: int): (k: nat)
    requires t in ids
    ensures k < |ids| && ids[k] == t
    ensures forall j | 0 <= j < k :: ids[j] != t
  {
    if ids[0] == t then 0 else 1 + FirstIndexOf(ids[1..], t)
  }

  /**
   * Whether detection i passes validation as the monitor tests it: its own lower-cased
   * class name, but the box of the first detection in the frame with the same track id.
   */
  predicate Passes(table: map<string, Profile>, ds: seq<Detection>, i: nat)
    requires i < |ds|
  {
    var first := FirstIndexOf(TrackIdList(ds), ds[i].trackId);
    Validate(table, ds[first].box, Lower(ds[i].className))
  }

  function KeptOf(d: Detection): (k: Kept)
    ensures k.x2 - k.x1 == Width(d.box) && k.y2 - k.y1 == Height(d.box)
    ensures k.className == Lower(d.className) && k.conf == d.conf && k.trackId == d.trackId
  {
    Kept(Truncate(d.box.x1), Truncate(d.box.y1), Truncate(d.box.x2), Truncate(d.box.y2),
         Lower(d.className), d.conf, d.trackId)
  }

  /** The validation verdicts of the first n detections of a frame, in order. */
  function Verdicts(table: map<string, Profile>, ds: seq<Detection>, n: nat): (v: seq<bool>)
    requires n <= |ds|
    ensures |v| == n
  {
    if n == 0 then [] else Verdicts(table, ds, n - 1) + [Passes(table, ds, n - 1)]
  }

  lemma {:induction false} VerdictsArePasses(table: map<string, Profile>, ds: seq<Detection>, n: nat)
    requires n <= |ds|
    ensures forall i | 0 <= i < n :: Verdicts(table, ds, n)[i] == Passes(table, ds, i)
  {
    if n > 0 {
      VerdictsArePasses(table, ds, n - 1);
    }
  }

  /** The first n detections whose verdict is true, as the monitor keeps them, in frame order. */
  function Select(ds: seq<Detection>, v: seq<bool>, n: nat): (ks: seq<Kept>)
    requires n <= |ds| && n <= |v|
    ensures |ks| <= n
  {
    if n == 0 then []
    else Select(ds, v, n - 1) + (if v[n - 1] then [KeptOf(ds[n - 1])] else [])
  }

  /** Every detection among the first n with a true verdict is selected. */
  lemma {:induction false} SelectKeepsEveryPass(ds: seq<Detection>, v: seq<bool>, n: nat)
    requires n <= |ds| && n <= |v|
    ensures forall i | 0 <= i < n && v[i] :: KeptOf(ds[i]) in Select(ds, v, n)
  {
    if n > 0 {
      SelectKeepsEveryPass(ds, v, n - 1);
      forall i | 0 <= i < n && v[i]
        ensures KeptOf(ds[i]) in Select(ds, v, n)
      {
        if i < n - 1 {
          assert KeptOf(ds[i]) in Select(ds, v, n - 1);
        }
      }
    }
  }

  /** Only detections with a true verdict are selected. */
  lemma {:induction false} SelectOnlyPasses(ds: seq<Detection>, v: seq<bool>, n: nat)
    requires n <= |ds| && n <= |v|
    ensures forall k | k in Select(ds, v, n) :: exists i :: 0 <= i < n && v[i] && k == KeptOf(ds[i])
  {
    if n > 0 {
      SelectOnlyPasses(ds, v, n - 1);
      var last := if v[n - 1] then [KeptOf(ds[n - 1])] else [];
      forall k | k in Select(ds, v, n)
        ensures exists i :: 0 <= i < n && v[i] && k == KeptOf(ds[i])
      {
        if k in Select(ds, v, n - 1) {
          var i :| 0 <= i < n - 1 && v[i] && k == KeptOf(ds[i]);
          assert 0 <= i < n;
        } else {
          assert k in last;
          assert v[n - 1] && k == KeptOf(ds[n - 1]);
        }
      }
    }
  }

  /** The kept detections among the first n of a frame, in frame order. */
  function Accepted(table: map<string, Profile>, ds: seq<Detection>, n: nat): (ks: seq<Kept>)
    requires n <= |ds|
    ensures |ks| <= n
  {
    Select(ds, Verdicts(table, ds, |ds|), n)
  }

  /** Walking the frame: detection i is appended to what is kept exactly when it passes. */
  lemma AcceptedNext(table: map<string, Profile>, ds: seq<Detection>, i: nat)
    requires i < |ds|
    ensures Accepted(table, ds, i + 1) ==
      Accepted(table, ds, i) + (if Passes(table, ds, i) then [KeptOf(ds[i])] else [])
  {
    VerdictsArePasses(table, ds, |ds|);
  }

  /** The kept detections of a whole frame; a frame without track ids keeps none. */
  function AcceptedOf(table: map<string, Profile>, result: FrameResult): (ks: seq<Kept>)
  {
    match result
    case NoIds => []
    case Tracked(ds) => Accepted(table, ds, |ds|)
  }

  /**
   * A detection of the frame is kept when it passes validation, and every kept entry is
   * a detection that passed, so its class is in the table.
   */
  lemma AcceptedExactly(table: map<string, Profile>, ds: seq<Detection>)
    ensures forall i | 0 <= i < |ds| && Passes(table, ds, i) :: KeptOf(ds[i]) in Accepted(table, ds, |ds|)
    ensures forall k | k in Accepted(table, ds, |ds|) ::
      k.className in table && exists i :: 0 <= i < |ds| && Passes(table, ds, i) && k == KeptOf(ds[i])
  {
    var v := Verdicts(table, ds, |ds|);
    VerdictsArePasses(table, ds, |ds|);
    SelectKeepsEveryPass(ds, v, |ds|);
    SelectOnlyPasses(ds, v, |ds|);
  }

  /** Sum of the confidences of kept detections, in order. */
  function ConfSum(ks: seq<Kept>): real {
    if ks == [] then 0.0 else ConfSum(ks[..|ks| - 1]) + ks[|ks| - 1].conf
  }

  /** With confidences in [0, 1], the sum lies in [0, count]. */
  lemma {:induction false} ConfSumBounds(ks: seq<Kept>)
    requires forall k | k in ks :: 0.0 <= k.conf <= 1.0
    ensures 0.0 <= ConfSum(ks) <= |ks| as real
  {
    if ks != [] {
      assert forall k | k in ks[..|ks| - 1] :: k in ks;
      ConfSumBounds(ks[..|ks| - 1]);
    }
  }

  /** With confidences in [0, 1], the mean confidence is a percentage in [0, 100]. */
  lemma MeanConfidenceIsPercentage(ks: seq<Kept>)
    requires forall k | k in ks :: 0.0 <= k.conf <= 1.0
    ensures 0.0 <= MeanConfidence(ConfSum(ks), |ks|) <= 100.0
  {
    ConfSumBounds(ks);
    MeanConfidenceBounded(ConfSum(ks), |ks|);
  }

  /** The track ids of kept detections. */
  function TrackIds(ks: seq<Kept>): set<int> {
    if ks == [] then {} else TrackIds(ks[..|ks| - 1]) + {ks[|ks| - 1].trackId}
  }

  /** The track ids of telemetry rows. */
  function EventIds(es: seq<Event>): set<int> {
    if es == [] then {} else EventIds(es[..|es| - 1]) + {es[|es| - 1].trackId}
  }

  lemma TrackIdsSnoc(ks: seq<Kept>, k: Kept)
    ensures TrackIds(ks + [k]) == TrackIds(ks) + {k.trackId}
  {
    assert (ks + [k])[..|ks|] == ks;
  }

  lemma EventIdsSnoc(es: seq<Event>, e: Event)
    ensures EventIds(es + [e]) == EventIds(es) + {e.trackId}
  {
    assert (es + [e])[..|es|] == es;
  }

  /** An id is among the ids of a sequence exactly when some entry carries it. */
  lemma {:induction false} TrackIdsMembers(ks: seq<Kept>)
    ensures forall i | 0 <= i < |ks| :: ks[i].trackId in TrackIds(ks)
    ensures forall t | t in TrackIds(ks) :: exists i :: 0 <= i < |ks| && ks[i].trackId == t
  {
    if ks != [] {
      var prefix := ks[..|ks| - 1];
      TrackIdsMembers(prefix);
      forall t | t in TrackIds(ks)
        ensures exists i :: 0 <= i < |ks| && ks[i].trackId == t
      {
        if t in TrackIds(prefix) {
          var i :| 0 <= i < |prefix| && prefix[i].trackId == t;
          assert ks[i] == prefix[i];
        } else {
          assert ks[|ks| - 1].trackId == t;
        }
      }
    }
  }

  lemma {:induction false} EventIdsMembers(es: seq<Event>)
    ensures forall i | 0 <= i < |es| :: es[i].trackId in EventIds(es)
  {
    if es != [] {
      EventIdsMembers(es[..|es| - 1]);
    }
  }

  /** Claiming from the front: the ids of `[k] + ks`. */
  lemma {:induction false} TrackIdsCons(k: Kept, ks: seq<Kept>)
    ensures TrackIds([k] + ks) == {k.trackId} + TrackIds(ks)
  {
    if ks == [] {
      assert [k] + ks == [] + [k];
      TrackIdsSnoc([], k);
    } else {
      var prefix, last := ks[..|ks| - 1], ks[|ks| - 1];
      TrackIdsCons(k, prefix);
      assert [k] + ks == ([k] + prefix) + [last];
      TrackIdsSnoc([k] + prefix, last);
      TrackIdsSnoc(prefix, last);
      assert prefix + [last] == ks;
    }
  }

  predicate DistinctTrackIds(ks: seq<Kept>) {
    forall i, j | 0 <= i < j < |ks| :: ks[i].trackId != ks[j].trackId
  }

  predicate DistinctEventIds(es: seq<Event>) {
    forall i, j | 0 <= i < j < |es| :: es[i].trackId != es[j].trackId
  }

  /**
   * The kept detections whose track id is neither in `known` nor earlier in `ks`:
   * what the ledger claims while it walks the frame.
   */
  function FirstSightings(known: set<int>, ks: seq<Kept>): (fs: seq<Kept>)
    decreases |ks|
  {
    if ks == [] then []
    else
      var prefix, k := ks[..|ks| - 1], ks[|ks| - 1];
      FirstSightings(known, prefix) + (if k.trackId in known + TrackIds(prefix) then [] else [k])
  }

  /** Claiming one detection at a time from the front, as a ledger of seen ids does. */
  function ClaimInOrder(known: set<int>, ks: seq<Kept>): (cs: seq<Kept>)
    decreases |ks|
  {
    if ks == [] then []
    else if ks[0].trackId in known then ClaimInOrder(known, ks[1..])
    else [ks[0]] + ClaimInOrder(known + {ks[0].trackId}, ks[1..])
  }

  lemma {:induction false} ClaimInOrderSnoc(known: set<int>, ks: seq<Kept>, k: Kept)
    ensures ClaimInOrder(known, ks + [k]) ==
      ClaimInOrder(known, ks) + (if k.trackId in known + TrackIds(ks) then [] else [k])
    decreases |ks|
  {
    if ks != [] {
      var head, rest := ks[0], ks[1..];
      assert (ks + [k])[0] == head && (ks + [k])[1..] == rest + [k];
      assert ks == [head] + rest;
      TrackIdsCons(head, rest);
      if head.trackId in known {
        ClaimInOrderSnoc(known, rest, k);
      } else {
        ClaimInOrderSnoc(known + {head.trackId}, rest, k);
      }
    }
  }

  lemma FirstSightingsSnoc(known: set<int>, ks: seq<Kept>, k: Kept)
    ensures FirstSightings(known, ks + [k]) ==
      FirstSightings(known, ks) + (if k.trackId in known + TrackIds(ks) then [] else [k])
  {
    assert (ks + [k])[..|ks|] == ks;
  }

  /** Walking the frame front to back and claiming each new id gives the first sightings, in order. */
  lemma {:induction false} FirstSightingsAreClaimedInOrder(known: set<int>, ks: seq<Kept>)
    ensures FirstSightings(known, ks) == ClaimInOrder(known, ks)
  {
    if ks != [] {
      var prefix, k := ks[..|ks| - 1], ks[|ks| - 1];
      FirstSightingsAreClaimedInOrder(known, prefix);
      ClaimInOrderSnoc(known, prefix, k);
      assert prefix + [k] == ks;
    }
  }

  /** Together the first sightings claim exactly the ids of the frame that were not known. */
  lemma {:induction false} FirstSightingsClaimNewIds(known: set<int>, ks: seq<Kept>)
    ensures TrackIds(FirstSightings(known, ks)) == TrackIds(ks) - known
  {
    if ks != [] {
      var prefix, k := ks[..|ks| - 1], ks[|ks| - 1];
      FirstSightingsClaimNewIds(known, prefix);
      assert ks == prefix + [k];
      TrackIdsSnoc(prefix, k);
      var before := FirstSightings(known, prefix);
      if k.trackId !in known + TrackIds(prefix) {
        assert FirstSightings(known, ks) == before + [k];
        TrackIdsSnoc(before, k);
      } else {
        assert FirstSightings(known, ks) == before;
      }
    }
  }

  /** The first sightings carry pairwise distinct ids, none of them known before. */
  lemma {:induction false} FirstSightingsDistinct(known: set<int>, ks: seq<Kept>)
    ensures DistinctTrackIds(FirstSightings(known, ks))
    ensures forall k | k in FirstSightings(known, ks) :: k.trackId !in known
  {
    if ks != [] {
      var prefix, k := ks[..|ks| - 1], ks[|ks| - 1];
      FirstSightingsDistinct(known, prefix);
      FirstSightingsClaimNewIds(known, prefix);
      var before := FirstSightings(known, prefix);
      if k.trackId !in known + TrackIds(prefix) {
        var after := before + [k];
        assert FirstSightings(known, ks) == after;
        forall i | 0 <= i < |before|
          ensures before[i].trackId != k.trackId
        {
          TrackIdsMembers(before);
        }
      }
    }
  }

  /** A frame whose ids are all known yields no first sighting. */
  lemma NothingNewNoSightings(known: set<int>, ks: seq<Kept>)
    requires TrackIds(ks) <= known
    ensures FirstSightings(known, ks) == []
  {
    FirstSightingsClaimNewIds(known, ks);
    var fs := FirstSightings(known, ks);
    TrackIdsMembers(fs);
    assert forall k | k in fs :: k.trackId in TrackIds(fs);
  }

  /** The row written for the first sighting of `k`. */
  function RowOf(k: Kept, ctx: RowContext): (e: Event)
    ensures e.trackId == k.trackId && Lower(e.className) == Lower(k.className)
    ensures Capitalize(e.className) == e.className
  {
    CapitalizeLowersBack(k.className);
    CapitalizeIdempotent(k.className);
    Event(ctx.timestamp, ctx.mode, k.trackId, Capitalize(k.className), ConfidencePct(k.conf),
          ctx.weatherStatus, ctx.rainMm)
  }

  function RowsOf(ks: seq<Kept>, ctx: RowContext): (es: seq<Event>)
    ensures |es| == |ks|
  {
    if ks == [] then [] else RowsOf(ks[..|ks| - 1], ctx) + [RowOf(ks[|ks| - 1], ctx)]
  }

  lemma RowsOfSnoc(ks: seq<Kept>, k: Kept, ctx: RowContext)
    ensures RowsOf(ks + [k], ctx) == RowsOf(ks, ctx) + [RowOf(k, ctx)]
  {
    assert (ks + [k])[..|ks|] == ks;
  }

  /**
   * Keeping one more detection: its id joins the frame's ids, its confidence the sum,
   * and it adds a row exactly when its id is neither known nor already kept.
   */
  lemma KeepOneMore(known: set<int>, ks: seq<Kept>, k: Kept, ctx: RowContext)
    ensures TrackIds(ks + [k]) == TrackIds(ks) + {k.trackId}
    ensures ConfSum(ks + [k]) == ConfSum(ks) + k.conf
    ensures k.trackId in known + TrackIds(ks) ==>
      RowsOf(FirstSightings(known, ks + [k]), ctx) == RowsOf(FirstSightings(known, ks), ctx)
    ensures k.trackId !in known + TrackIds(ks) ==>
      RowsOf(FirstSightings(known, ks + [k]), ctx) == RowsOf(FirstSightings(known, ks), ctx) + [RowOf(k, ctx)]
  {
    assert (ks + [k])[..|ks|] == ks;
    FirstSightingsSnoc(known, ks, k);
    var before := FirstSightings(known, ks);
    if k.trackId !in known + TrackIds(ks) {
      assert FirstSightings(known, ks + [k]) == before + [k];
      RowsOfSnoc(before, k, ctx);
    } else {
      assert FirstSightings(known, ks + [k]) == before;
    }
  }

  /**
   * If the ledger so far holds the known ids plus those of `ks`, and the rows so far are
   * `start` plus the rows of the first sightings, then recording `k` as the ledger does
   * (add its id; add a row only if the id is new) keeps that description true for `ks + [k]`.
   */
  lemma LedgerAfterKeeping(known: set<int>, start: seq<Event>, ks: seq<Kept>, k: Kept, ctx: RowContext,
                           ids: set<int>, log: seq<Event>)
    requires ids == known + TrackIds(ks)
    requires log == start + RowsOf(FirstSightings(known, ks), ctx)
    ensures ids + {k.trackId} == known + TrackIds(ks + [k])
    ensures k.trackId in ids ==> log == start + RowsOf(FirstSightings(known, ks + [k]), ctx)
    ensures k.trackId !in ids ==> log + [RowOf(k, ctx)] == start + RowsOf(FirstSightings(known, ks + [k]), ctx)
  {
    KeepOneMore(known, ks, k, ctx);
    var rows := RowsOf(FirstSightings(known, ks), ctx);
    if k.trackId !in ids {
      assert (start + rows) + [RowOf(k, ctx)] == start + (rows + [RowOf(k, ctx)]);
    }
  }

  /**
   * The ledger invariant of a run: the rows carry pairwise distinct ids, exactly the
   * recorded ones, each with the run's mode and weather and a profiled class name
   * in capitalized form.
   */
  ghost predicate Ledger(table: map<string, Profile>, log: seq<Event>, ids: set<int>, mode: string, status: string, rainMm: real) {
    && DistinctEventIds(log)
    && EventIds(log) == ids
    && forall j | 0 <= j < |log| ::
         log[j].mode == mode && log[j].weatherStatus == status && log[j].rainMm == rainMm
         && Lower(log[j].className) in table && Capitalize(log[j].className) == log[j].className
  }

  /** Recording a row for an id not yet recorded keeps the ledger invariant. */
  lemma LedgerRecord(table: map<string, Profile>, log: seq<Event>, ids: set<int>, row: Event)
    requires Ledger(table, log, ids, row.mode, row.weatherStatus, row.rainMm)
    requires row.trackId !in ids && Lower(row.className) in table
    requires Capitalize(row.className) == row.className
    ensures Ledger(table, log + [row], ids + {row.trackId}, row.mode, row.weatherStatus, row.rainMm)
  {
    EventIdsMembers(log);
    EventIdsSnoc(log, row);
  }
}
