/**
 * The time-weighted SNR statistics kept by HaInterferenceStatus, as values:
 * the status fields, the update step, and the closed-form definitions
 * (time integral, mean, minimum, maximum) the update step is proved against.
 */
module SnrStatistics {
  import opened Spectrum

  /** One SNR sample: the value pushed into a status at a time (in ticks). */
  datatype Sample = Sample(time: int, snr: real)

  /** The seven fields of an HaInterferenceStatus. */
  datatype StatusState = StatusState(
    minSnr: real,
    maxSnr: real,
    meanSnr: real,
    startTime: int,
    lastTime: int,
    lastSnr: real,
    discreteSum: real)

  function Min(a: real, b: real): real { if b < a then b else a }
  function Max(a: real, b: real): real { if b > a then b else a }

  /** The integral of an SNR held constant from `from` to `to`. */
  function Held(snr: real, from: int, to: int): real {
    snr * (to - from) as real
  }

  /** The state a status is constructed in, from its first sample. */
  function Initial(startSnr: real, now: int): (s: StatusState)
    ensures s.minSnr == s.maxSnr == s.meanSnr == s.lastSnr == startSnr
    ensures s.startTime == s.lastTime == now
    ensures s.discreteSum == 0.0
  {
    StatusState(startSnr, startSnr, startSnr, now, now, startSnr, 0.0)
  }

  /** UpdateNewSnr(snrNow) at time `now`: widen min and max with the PREVIOUS
      sample, integrate the previous plateau up to now, recompute the mean,
      then remember the new sample. */
  function Push(s: StatusState, snrNow: real, now: int): (r: StatusState)
    ensures r.minSnr <= s.minSnr && r.minSnr <= s.lastSnr
    ensures r.maxSnr >= s.maxSnr && r.maxSnr >= s.lastSnr
    ensures r.minSnr == s.minSnr || r.minSnr == s.lastSnr
    ensures r.maxSnr == s.maxSnr || r.maxSnr == s.lastSnr
    ensures s.minSnr <= s.maxSnr ==> r.minSnr <= r.maxSnr
    ensures r.startTime == s.startTime && r.lastTime == now && r.lastSnr == snrNow
  {
    var sum := s.discreteSum + s.lastSnr * (now - s.lastTime) as real;
    StatusState(Min(s.minSnr, s.lastSnr), Max(s.maxSnr, s.lastSnr),
                Divide(sum, (now - s.startTime) as real),
                s.startTime, now, snrNow, sum)
  }

  /** What a getter does before reading a field: integrate the last sample
      up to now, unless the status was already updated at this time. */
  function CatchUp(s: StatusState, now: int): (r: StatusState)
    ensures r.lastTime == now && r.lastSnr == s.lastSnr
    ensures s.lastTime == now ==> r == s
  {
    if s.lastTime != now then Push(s, s.lastSnr, now) else s
  }

  /** A second query at the same time changes nothing. */
  lemma CatchUpIdempotent(s: StatusState, now: int)
    ensures CatchUp(CatchUp(s, now), now) == CatchUp(s, now)
  {
  }

  function Last(h: seq<Sample>): Sample
    requires |h| > 0
  {
    h[|h| - 1]
  }

  /** Samples in non-decreasing time order, as the event clock delivers them. */
  ghost predicate Chronological(h: seq<Sample>) {
    forall i, j :: 0 <= i < j < |h| ==> h[i].time <= h[j].time
  }

  /** The status after constructing it with h[0] and pushing h[1..] in order. */
  function Replay(h: seq<Sample>): StatusState
    requires |h| > 0
    decreases |h|
  {
    if |h| == 1 then Initial(h[0].snr, h[0].time)
    else Push(Replay(h[..|h| - 1]), Last(h).snr, Last(h).time)
  }

  /** The documented integral: the sum over i = 1..n-1 of
      SNR_{i-1} * (t_i - t_{i-1}), each sample held until the next one. */
  function Area(h: seq<Sample>): real
    decreases |h|
  {
    if |h| < 2 then 0.0
    else Held(h[0].snr, h[0].time, h[1].time) + Area(h[1..])
  }

  /** The documented mean: SNR_0 at t_0, afterwards the integral divided by
      t_n - t_0. */
  function ClosedFormMean(h: seq<Sample>): real
    requires |h| > 0
  {
    if |h| == 1 then h[0].snr
    else Divide(Area(h), (Last(h).time - h[0].time) as real)
  }

  /** The smallest SNR of a history: it bounds every sample and is one of
      them. */
  function MinSnrOf(h: seq<Sample>): (r: real)
    requires |h| > 0
    ensures forall i :: 0 <= i < |h| ==> r <= h[i].snr
    ensures exists i :: 0 <= i < |h| && h[i].snr == r
    decreases |h|
  {
    if |h| == 1 then h[0].snr
    else
      var rest := MinSnrOf(h[1..]);
      assert forall i :: 0 < i < |h| ==> h[i] == h[1..][i - 1];
      assert exists i :: 0 < i < |h| && h[i].snr == rest by {
        var k :| 0 <= k < |h[1..]| && h[1..][k].snr == rest;
        assert h[k + 1].snr == rest;
      }
      Min(h[0].snr, rest)
  }

  /** The largest SNR of a history: it bounds every sample and is one of
      them. */
  function MaxSnrOf(h: seq<Sample>): (r: real)
    requires |h| > 0
    ensures forall i :: 0 <= i < |h| ==> h[i].snr <= r
    ensures exists i :: 0 <= i < |h| && h[i].snr == r
    decreases |h|
  {
    if |h| == 1 then h[0].snr
    else
      var rest := MaxSnrOf(h[1..]);
      assert forall i :: 0 < i < |h| ==> h[i] == h[1..][i - 1];
      assert exists i :: 0 < i < |h| && h[i].snr == rest by {
        var k :| 0 <= k < |h[1..]| && h[1..][k].snr == rest;
        assert h[k + 1].snr == rest;
      }
      Max(h[0].snr, rest)
  }

  /** The samples whose plateau has begun to be integrated: all but the most
      recent one (or the start sample alone). */
  function Integrated(h: seq<Sample>): (r: seq<Sample>)
    requires |h| > 0
    ensures 0 < |r| <= |h| && r == h[..|r|]
  {
    if |h| == 1 then h else h[..|h| - 1]
  }

  lemma {:induction false} AreaSnoc(h: seq<Sample>, s: Sample)
    requires |h| > 0
    ensures Area(h + [s]) == Area(h) + Held(Last(h).snr, Last(h).time, s.time)
    decreases |h|
  {
    if |h| > 1 {
      assert (h + [s])[1..] == h[1..] + [s];
      AreaSnoc(h[1..], s);
    }
  }

  lemma {:induction false} MinMaxSnoc(h: seq<Sample>, s: Sample)
    requires |h| > 0
    ensures MinSnrOf(h + [s]) == Min(MinSnrOf(h), s.snr)
    ensures MaxSnrOf(h + [s]) == Max(MaxSnrOf(h), s.snr)
    decreases |h|
  {
    assert (h + [s])[1..] == h[1..] + [s];
    if |h| > 1 {
      MinMaxSnoc(h[1..], s);
    }
  }

  /** The incremental status equals the closed form after every step:
      discreteSum is the integral so far, meanSnr the documented mean, and
      min/max range over the samples integrated so far. */
  lemma ReplayClosedForm(h: seq<Sample>)
    requires |h| > 0
    ensures Replay(h) == StatusState(MinSnrOf(Integrated(h)), MaxSnrOf(Integrated(h)),
                                     ClosedFormMean(h), h[0].time, Last(h).time,
                                     Last(h).snr, Area(h))
  {
    ReplayIntegral(h);
    ReplayExtremes(h);
    if |h| > 1 {
      ReplayMean(h);
    }
  }

  /** Once a second sample is in, the replayed mean is the integral over the
      elapsed time. */
  lemma ReplayMean(h: seq<Sample>)
    requires |h| > 1
    ensures Replay(h).meanSnr == Divide(Area(h), (Last(h).time - h[0].time) as real)
  {
    var p := h[..|h| - 1];
    ReplayIntegral(p);
    ReplayIntegral(h);
    assert p[0] == h[0];
    assert Replay(h) == Push(Replay(p), Last(h).snr, Last(h).time);
  }

  /** The replayed status remembers the first and the last sample, and its
      sum is the integral of the history. */
  lemma {:induction false} ReplayIntegral(h: seq<Sample>)
    requires |h| > 0
    ensures Replay(h).startTime == h[0].time
    ensures Replay(h).lastTime == Last(h).time && Replay(h).lastSnr == Last(h).snr
    ensures Replay(h).discreteSum == Area(h)
    decreases |h|
  {
    if |h| > 1 {
      var p, s := h[..|h| - 1], Last(h);
      ReplayIntegral(p);
      PushIntegrates(Replay(p), s.snr, s.time);
      assert h == p + [s] && p[0] == h[0];
      AreaSnoc(p, s);
    }
  }

  /** One update integrates the previous sample's plateau into the sum. */
  lemma PushIntegrates(s: StatusState, snrNow: real, now: int)
    ensures Push(s, snrNow, now).discreteSum == s.discreteSum + Held(s.lastSnr, s.lastTime, now)
  {
  }

  /** The replayed minimum and maximum range over the integrated samples. */
  lemma {:induction false} ReplayExtremes(h: seq<Sample>)
    requires |h| > 0
    ensures Replay(h).minSnr == MinSnrOf(Integrated(h))
    ensures Replay(h).maxSnr == MaxSnrOf(Integrated(h))
    decreases |h|
  {
    if |h| > 1 {
      var p := h[..|h| - 1];
      ReplayExtremes(p);
      ReplayIntegral(p);
      MinMaxExtend(p);
    }
  }

  /** A history's extremes are those of its integrated samples widened with
      its most recent one. */
  lemma MinMaxExtend(p: seq<Sample>)
    requires |p| > 0
    ensures MinSnrOf(p) == Min(MinSnrOf(Integrated(p)), Last(p).snr)
    ensures MaxSnrOf(p) == Max(MaxSnrOf(Integrated(p)), Last(p).snr)
  {
    if |p| > 1 {
      assert p == Integrated(p) + [Last(p)];
      MinMaxSnoc(Integrated(p), Last(p));
    }
  }

  /** A sample taken no earlier than the last update replayed from the
      history keeps the history chronological. */
  lemma ChronologicalSnoc(h: seq<Sample>, s: Sample)
    requires |h| > 0 && Chronological(h) && Replay(h).lastTime <= s.time
    ensures Chronological(h + [s])
  {
    ReplayIntegral(h);
    var g := h + [s];
    forall i, j | 0 <= i < j < |g| ensures g[i].time <= g[j].time {
      if j < |h| {
        assert g[i] == h[i] && g[j] == h[j];
      } else {
        assert g[i] == h[i] && h[i].time <= Last(h).time;
      }
    }
  }

  /** Pushing one more sample extends the replayed history by that sample. */
  lemma ReplaySnoc(h: seq<Sample>, s: Sample)
    requires |h| > 0
    ensures Replay(h + [s]) == Push(Replay(h), s.snr, s.time)
  {
    assert (h + [s])[..|h|] == h;
  }

  /** A higher SNR held over the same forward interval integrates to more. */
  lemma HeldMono(a: real, b: real, from: int, to: int)
    requires a <= b && from <= to
    ensures Held(a, from, to) <= Held(b, from, to)
  {
    assert Held(b, from, to) - Held(a, from, to) == (b - a) * (to - from) as real;
  }

  /** Holding one SNR over two adjacent intervals is holding it over their union. */
  lemma HeldSplit(c: real, t0: int, t1: int, t2: int)
    ensures Held(c, t0, t2) == Held(c, t0, t1) + Held(c, t1, t2)
  {
    assert (t2 - t0) as real == (t1 - t0) as real + (t2 - t1) as real;
  }

  lemma MulStrict(a: real, b: real, d: real)
    requires a < b && 0.0 < d
    ensures a * d < b * d
  {
    assert (b - a) * d > 0.0;
  }

  /** A lower bound of every integrated sample, held over the whole span,
      bounds the integral from below (chronological samples). */
  lemma {:induction false} AreaAtLeast(h: seq<Sample>, c: real)
    requires |h| >= 2 && Chronological(h)
    requires forall i :: 0 <= i < |h| - 1 ==> c <= h[i].snr
    ensures Held(c, h[0].time, Last(h).time) <= Area(h)
    decreases |h|
  {
    HeldMono(c, h[0].snr, h[0].time, h[1].time);
    var t := h[1..];
    assert Area(h) == Held(h[0].snr, h[0].time, h[1].time) + Area(t);
    if |h| > 2 {
      AreaAtLeast(t, c);
      assert Last(t) == Last(h) && t[0] == h[1];
      HeldSplit(c, h[0].time, h[1].time, Last(h).time);
    }
  }

  /** An upper bound of every integrated sample, held over the whole span,
      bounds the integral from above (chronological samples). */
  lemma {:induction false} AreaAtMost(h: seq<Sample>, c: real)
    requires |h| >= 2 && Chronological(h)
    requires forall i :: 0 <= i < |h| - 1 ==> h[i].snr <= c
    ensures Area(h) <= Held(c, h[0].time, Last(h).time)
    decreases |h|
  {
    HeldMono(h[0].snr, c, h[0].time, h[1].time);
    var t := h[1..];
    assert Area(h) == Held(h[0].snr, h[0].time, h[1].time) + Area(t);
    if |h| > 2 {
      AreaAtMost(t, c);
      assert Last(t) == Last(h) && t[0] == h[1];
      HeldSplit(c, h[0].time, h[1].time, Last(h).time);
    }
  }

  /** Once time has advanced past the start, the mean lies between the
      minimum and the maximum of the integrated samples. */
  lemma MeanWithinBounds(h: seq<Sample>)
    requires |h| >= 2 && Chronological(h) && Last(h).time > h[0].time
    ensures MinSnrOf(Integrated(h)) <= ClosedFormMean(h) <= MaxSnrOf(Integrated(h))
  {
    var g := h[..|h| - 1];
    var lo, hi := MinSnrOf(g), MaxSnrOf(g);
    forall i | 0 <= i < |h| - 1
      ensures lo <= h[i].snr <= hi
    {
      assert g[i] == h[i];
    }
    AreaAtLeast(h, lo);
    AreaAtMost(h, hi);
    QuotientBounds(Area(h), lo, hi, h[0].time, Last(h).time);
    assert Integrated(h) == g;
  }

  /** An integral between lo and hi held over a forward span gives a mean
      between lo and hi. */
  lemma QuotientBounds(area: real, lo: real, hi: real, from: int, to: int)
    requires from < to && Held(lo, from, to) <= area <= Held(hi, from, to)
    ensures lo <= Divide(area, (to - from) as real) <= hi
  {
    var span := (to - from) as real;
    var m := Divide(area, span);
    assert lo * span <= area <= hi * span;
    if m < lo {
      MulStrict(m, lo, span);
    }
    if m > hi {
      MulStrict(hi, m, span);
    }
  }
}
