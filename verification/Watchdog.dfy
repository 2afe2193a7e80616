/** The idle watchdog: which CPU samples a claim keeps, when they are evidence
    that the worker did nothing, and how a tool start voids them. Instants are
    whole seconds, CPU totals are real numbers. */
module Watchdog {
  import opened Values

  /** Ceiling on the list, a growth guard only; retention is by age. */
  const SAMPLE_CAP := 200

  /** A sample whose stamp does not parse has no instant. */
  datatype Sample = Sample(ts: Option<int>, cpu: real)

  // ----- retention ----------------------------------------------------------------------

  predicate Fresh(s: Sample, cutoff: int) {
    s.ts.Some? && s.ts.value >= cutoff
  }

  function Kept(samples: seq<Sample>, cutoff: int): seq<Sample> {
    if samples == [] then []
    else
      var rest := Kept(samples[..|samples| - 1], cutoff);
      if Fresh(samples[|samples| - 1], cutoff) then rest + [samples[|samples| - 1]] else rest
  }

  function Newest(samples: seq<Sample>, cap: nat): seq<Sample> {
    if |samples| > cap then samples[|samples| - cap..] else samples
  }

  /** The history after one more sample. */
  function Appended(samples: seq<Sample>, cpu: real, now: int, retain: int, cap: nat): seq<Sample> {
    Newest(Kept(samples + [Sample(Some(now), cpu)], now - retain), cap)
  }

  method AppendCpuSample(samples: seq<Sample>, cpu: real, now: int, retain: int) returns (kept: seq<Sample>)
    ensures kept == Appended(samples, cpu, now, retain, 200)
  {
    var all := samples + [Sample(Some(now), cpu)];
    var cutoff := now - retain;
    kept := [];
    for i := 0 to |all|
      invariant kept == Kept(all[..i], cutoff)
    {
      assert all[..i + 1][..i] == all[..i];
      if all[i].ts.Some? && all[i].ts.value >= cutoff { kept := kept + [all[i]]; }
    }
    assert all[..|all|] == all;
    if |kept| > SAMPLE_CAP { kept := kept[|kept| - SAMPLE_CAP..]; }
  }

  lemma {:induction false} KeptAllFresh(samples: seq<Sample>, cutoff: int)
    ensures forall s :: s in Kept(samples, cutoff) ==> s in samples && Fresh(s, cutoff)
  {
    if samples != [] {
      KeptAllFresh(samples[..|samples| - 1], cutoff);
    }
  }

  /** When the stamps rise, what is kept is a tail of the history. */
  lemma {:induction false} KeptIsTail(samples: seq<Sample>, cutoff: int, k: nat)
    requires k <= |samples|
    requires forall i :: 0 <= i < k ==> !Fresh(samples[i], cutoff)
    requires forall i :: k <= i < |samples| ==> Fresh(samples[i], cutoff)
    ensures Kept(samples, cutoff) == samples[k..]
  {
    if samples != [] {
      var init := samples[..|samples| - 1];
      if k < |samples| {
        KeptIsTail(init, cutoff, k);
        assert samples[k..] == init[k..] + [samples[|samples| - 1]];
      } else {
        KeptIsTail(init, cutoff, k - 1);
      }
    }
  }

  // ----- evidence ---------------------------------------------------------------------------

  predicate Stamped(samples: seq<Sample>) {
    forall i :: 0 <= i < |samples| ==> samples[i].ts.Some?
  }

  /** Span, contiguity, recency and quiet; `window` and `gap` in seconds. */
  predicate IdleWindow(samples: seq<Sample>, now: int, minSamples: int, window: int, gap: int, threshold: real) {
    if samples == [] || |samples| < minSamples || !Stamped(samples) then false
    else
      var first, last := samples[0], samples[|samples| - 1];
      && last.ts.value - first.ts.value >= window
      && (forall i :: 0 <= i < |samples| - 1 ==> samples[i + 1].ts.value - samples[i].ts.value <= gap)
      && now - last.ts.value <= gap
      && 0.0 <= last.cpu - first.cpu <= threshold
  }

  /** What speaks against reporting a worker on this history. */
  datatype Objection =
    | TooFew
    | Undated(i: nat)
    | TooShort
    | Hole(i: nat)
    | TooOld
    | Busy
    | Shrunk

  predicate Objects(o: Objection, samples: seq<Sample>, now: int, minSamples: int, window: int, gap: int, threshold: real) {
    match o
    case TooFew => |samples| == 0 || |samples| < minSamples
    case Undated(i) => i < |samples| && samples[i].ts == None
    case TooShort => Spans(samples) && samples[|samples| - 1].ts.value < samples[0].ts.value + window
    case Hole(i) => i + 1 < |samples| && samples[i].ts.Some? && samples[i + 1].ts.Some?
                    && samples[i + 1].ts.value > samples[i].ts.value + gap
    case TooOld => Spans(samples) && now > samples[|samples| - 1].ts.value + gap
    case Busy => Spans(samples) && samples[|samples| - 1].cpu > samples[0].cpu + threshold
    case Shrunk => Spans(samples) && samples[|samples| - 1].cpu < samples[0].cpu
  }

  predicate Spans(samples: seq<Sample>) {
    |samples| > 0 && samples[0].ts.Some? && samples[|samples| - 1].ts.Some?
  }

  /** A worker is reported exactly when nothing speaks against it: samples
      enough, all dated, over the whole window, without a hole, up to date, and
      a CPU total that neither fell nor rose by more than the threshold. */
  lemma ReportedIffNothingObjects(samples: seq<Sample>, now: int, minSamples: int, window: int, gap: int, threshold: real)
    ensures IdleWindow(samples, now, minSamples, window, gap, threshold)
            <==> forall o :: !Objects(o, samples, now, minSamples, window, gap, threshold)
  {
    if forall o :: !Objects(o, samples, now, minSamples, window, gap, threshold) {
      assert !Objects(TooFew, samples, now, minSamples, window, gap, threshold);
      forall i | 0 <= i < |samples|
        ensures samples[i].ts.Some?
      {
        assert !Objects(Undated(i), samples, now, minSamples, window, gap, threshold);
      }
      forall i | 0 <= i < |samples| - 1
        ensures samples[i + 1].ts.value - samples[i].ts.value <= gap
      {
        assert !Objects(Hole(i), samples, now, minSamples, window, gap, threshold);
      }
      assert !Objects(TooShort, samples, now, minSamples, window, gap, threshold);
      assert !Objects(TooOld, samples, now, minSamples, window, gap, threshold);
      assert !Objects(Busy, samples, now, minSamples, window, gap, threshold);
      assert !Objects(Shrunk, samples, now, minSamples, window, gap, threshold);
    }
  }

  /** The samples read a running CPU total. */
  ghost predicate ReadOff(samples: seq<Sample>, total: int -> real) {
    forall i :: 0 <= i < |samples| ==> samples[i].ts.Some? && samples[i].cpu == total(samples[i].ts.value)
  }

  predicate InOrder(samples: seq<Sample>) {
    forall i, j :: 0 <= i < j < |samples| && samples[i].ts.Some? && samples[j].ts.Some? ==>
      samples[i].ts.value <= samples[j].ts.value
  }

  /** A worker whose total rose by more than the threshold between any two of
      the samples is never reported: the total never falls, so the rise is still
      there at the end. */
  lemma BusyWorkerIsNotReported(samples: seq<Sample>, total: int -> real, i: nat, j: nat, now: int, minSamples: int,
                                window: int, gap: int, threshold: real)
    requires ReadOff(samples, total) && InOrder(samples) && forall s, t :: s <= t ==> total(s) <= total(t)
    requires i <= j < |samples| && samples[j].cpu > samples[i].cpu + threshold
    ensures !IdleWindow(samples, now, minSamples, window, gap, threshold)
  {
    var last := |samples| - 1;
    assert total(samples[0].ts.value) <= total(samples[i].ts.value);
    assert total(samples[j].ts.value) <= total(samples[last].ts.value);
    assert Objects(Busy, samples, now, minSamples, window, gap, threshold);
    ReportedIffNothingObjects(samples, now, minSamples, window, gap, threshold);
  }

  // ----- steady sampling of a flat worker ------------------------------------------------------

  /** `m` samples, `d` seconds apart, the newest at `last`. */
  function Every(d: nat, m: nat, last: int, cpu: real): seq<Sample> {
    seq(m, i requires 0 <= i < m => Sample(Some(last - d * (m - 1 - i)), cpu))
  }

  function Sampled(d: nat, n: nat, first: int, cpu: real, retain: int, cap: nat): seq<Sample> {
    if n == 0 then [] else Appended(Sampled(d, n - 1, first, cpu, retain, cap), cpu, first + d * (n - 1), retain, cap)
  }

  function Min(a: int, b: int): int {
    if a < b then a else b
  }

  /** How many of the samples fit in the retention span. */
  function Settled(d: nat, retain: nat, cap: nat): nat
    requires d > 0
  {
    Min(retain / d + 1, cap)
  }

  lemma WithinIff(d: nat, k: nat, retain: nat)
    requires d > 0
    ensures d * k <= retain <==> k <= retain / d
  {
    var q := retain / d;
    assert d * q <= retain < d * (q + 1);
    if k <= q {
      assert d * k <= d * q;
    } else {
      assert d * k >= d * (q + 1);
    }
  }

  lemma EveryOneMore(d: nat, m: nat, last: int, cpu: real)
    ensures Every(d, m, last, cpu) + [Sample(Some(last + d), cpu)] == Every(d, m + 1, last + d, cpu)
  {
    forall i | 0 <= i < m
      ensures Every(d, m, last, cpu)[i] == Every(d, m + 1, last + d, cpu)[i]
    {
      assert last + d - d * (m - i) == last - d * (m - 1 - i);
    }
  }

  lemma EveryTail(d: nat, m: nat, k: nat, last: int, cpu: real)
    requires k <= m
    ensures Every(d, m, last, cpu)[m - k..] == Every(d, k, last, cpu)
  {
    forall i | 0 <= i < k
      ensures Every(d, m, last, cpu)[m - k..][i] == Every(d, k, last, cpu)[i]
    {
      assert m - 1 - (m - k + i) == k - 1 - i;
    }
  }

  /** Age drops exactly the samples more than the retention span old. */
  lemma KeptEvery(d: nat, m: nat, last: int, cpu: real, retain: nat)
    requires d > 0
    ensures Kept(Every(d, m, last, cpu), last - retain) == Every(d, Min(m, retain / d + 1), last, cpu)
  {
    var all, k := Every(d, m, last, cpu), Min(m, retain / d + 1);
    forall i | 0 <= i < m
      ensures Fresh(all[i], last - retain) <==> i >= m - k
    {
      WithinIff(d, m - 1 - i, retain);
    }
    KeptIsTail(all, last - retain, m - k);
    EveryTail(d, m, k, last, cpu);
  }

  lemma OneMoreSample(d: nat, m: nat, last: int, cpu: real, retain: nat, cap: nat)
    requires d > 0 && cap > 0
    ensures Appended(Every(d, m, last - d, cpu), cpu, last, retain, cap)
        == Every(d, Min(m + 1, Settled(d, retain, cap)), last, cpu)
  {
    EveryOneMore(d, m, last - d, cpu);
    KeptEvery(d, m + 1, last, cpu, retain);
    var k := Min(m + 1, retain / d + 1);
    if k > cap {
      EveryTail(d, k, cap, last, cpu);
    }
  }

  /** Sampled every `d` seconds, the history is the last `retain / d + 1`
      samples, or as many as there have been, or the cap. */
  lemma {:induction false} SteadyHistory(d: nat, n: nat, first: int, cpu: real, retain: nat, cap: nat)
    requires d > 0 && n > 0 && cap > 0
    ensures Sampled(d, n, first, cpu, retain, cap)
         == Every(d, Min(n, Settled(d, retain, cap)), first + d * (n - 1), cpu)
  {
    var last, settled := first + d * (n - 1), Settled(d, retain, cap);
    if n > 1 {
      SteadyHistory(d, n - 1, first, cpu, retain, cap);
      assert last - d == first + d * (n - 2);
      OneMoreSample(d, Min(n - 1, settled), last, cpu, retain, cap);
    } else {
      OneMoreSample(d, 0, last, cpu, retain, cap);
    }
    hide Appended, Every, Settled;
  }

  lemma EverySpan(d: nat, m: nat, last: int, cpu: real)
    requires m > 0
    ensures var s := Every(d, m, last, cpu);
            && Stamped(s) && s[m - 1].ts.value - s[0].ts.value == d * (m - 1)
            && forall i :: 0 <= i < m - 1 ==> s[i + 1].ts.value - s[i].ts.value == d
  {
    var s := Every(d, m, last, cpu);
    forall i | 0 <= i < m - 1
      ensures s[i + 1].ts.value - s[i].ts.value == d
    {
      assert d * (m - 1 - i) == d * (m - 1 - (i + 1)) + d;
    }
  }

  /** Once the history has settled it spans exactly d * min(retain / d, cap - 1)
      seconds, and a flat worker is reported if and only if that span covers
      the window and the history the sample minimum. */
  lemma FlatWorkerIsReportedIff(d: nat, n: nat, first: int, cpu: real, retain: nat, cap: nat,
                                minSamples: int, window: int, gap: int, threshold: real)
    requires 0 < d <= gap && cap > 0 && n >= Settled(d, retain, cap) && threshold >= 0.0
    ensures var s, last := Sampled(d, n, first, cpu, retain, cap), first + d * (n - 1);
            && |s| == Settled(d, retain, cap) && s[|s| - 1].ts.Some? && s[0].ts.Some?
            && s[|s| - 1].ts.value - s[0].ts.value == d * Min(retain / d, cap - 1)
            && (IdleWindow(s, last, minSamples, window, gap, threshold) <==>
                  d * Min(retain / d, cap - 1) >= window && Min(retain / d + 1, cap) >= minSamples)
  {
    SteadyHistory(d, n, first, cpu, retain, cap);
    EverySpan(d, Settled(d, retain, cap), first + d * (n - 1), cpu);
    var s := Sampled(d, n, first, cpu, retain, cap);
    var m := |s|;
    assert s[m - 1].ts.value == first + d * (n - 1) - d * 0;
    assert forall i :: 0 <= i < m - 1 ==> s[i + 1].ts.value - s[i].ts.value <= gap;
  }

  /** The shipped retention (window plus gap) always covers the window, as long
      as the cap does not bite. */
  lemma ShippedRetentionCoversWindow(d: nat, window: nat, gap: nat)
    requires 0 < d <= gap && d * 199 >= window
    ensures d * Min((window + gap) / d, 199) >= window
  {
    var q := (window + gap) / d;
    assert window + gap < d * (q + 1) == d * q + d;
  }

  /** The cap of 20 that was once the retention rule: at a 30 second cadence a
      ten-minute window could never be covered, whatever the retention. */
  lemma OldCapWasDeaf(n: nat, first: int, cpu: real, retain: nat, minSamples: int, gap: int, threshold: real)
    requires n >= Settled(30, retain, 20) && gap >= 30 && threshold >= 0.0
    ensures !IdleWindow(Sampled(30, n, first, cpu, retain, 20), first + 30 * (n - 1), minSamples, 600, gap, threshold)
  {
    FlatWorkerIsReportedIff(30, n, first, cpu, retain, 20, minSamples, 600, gap, threshold);
  }

  // ----- the active-tool marker -----------------------------------------------------------------

  const FALLBACK_BOUND := 300

  /** A marker suppresses while it is fresher than the bound; with the stuck
      tool detector off the bound is the fallback, never none. */
  predicate Suppresses(marker: Option<int>, now: int, maxAge: int) {
    marker.Some? && now - marker.value < (if maxAge <= 0 then FALLBACK_BOUND else maxAge)
  }

  /** A marker silences the watchdog for exactly its bound - the detector's
      threshold, or five minutes when that is switched off - and no marker, or
      one in the future, counts for nothing or as just set. */
  lemma MarkerExpires(marker: int, now: int, maxAge: int)
    ensures Suppresses(Some(marker), now, maxAge) <==> now < marker + (if maxAge > 0 then maxAge else 300)
    ensures !Suppresses(None, now, maxAge)
  {
  }
}
