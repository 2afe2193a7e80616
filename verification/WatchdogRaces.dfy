/** The idle watchdog as a protocol: ticks read a claim, judge it and apply
    later, while the worker starts and ends tools and declares quiet spans. When
    can a report come within the window of the last tool start? */
module WatchdogRaces {
  import opened Values
  import opened Watchdog

  /** Window and gap in seconds. */
  datatype Params = Params(window: nat, gap: nat, minSamples: nat, threshold: real, maxAge: int)

  /** What the configuration loader demands of the four. */
  predicate Configured(c: Params) {
    c.window > 0 && c.gap > 0 && c.minSamples > 0 && c.threshold > 0.0
  }

  /** A tick between its snapshot and its apply: the four claim fields it read,
      the second it judged, and the tree's CPU total - None when `ps` could not
      be read and no sample is taken. */
  datatype Tick = Tick(seen: Option<seq<Sample>>, marker: Option<int>, notified: Option<bool>, quiet: Option<int>,
                       at: int, cpu: Option<real>)

  /** One claim: the stored samples (None until the first write; a tool start
      stores the empty list, which is not the same), the tool marker, the
      notified flag, the declared quiet span, and the ticks in flight. The last
      second sampled and the clock are kept for the record; no decision reads
      them. */
  datatype Watch = Watch(samples: Option<seq<Sample>>, marker: Option<int>, notified: Option<bool>, quiet: Option<int>,
                         ticks: map<nat, Tick>, sampled: int, clock: int)

  datatype Move =
    | ToolStart(at: int)
    | ToolEnd
    | Declare(until: Option<int>)
    | Observe(tick: nat, at: int, cpu: Option<real>)
    | Apply(tick: nat, at: int)

  function Known(t: Tick): seq<Sample> {
    if t.seen.Some? then t.seen.value else []
  }

  /** The history the tick judges, its own sample included when it took one. */
  function Judged(t: Tick, c: Params): seq<Sample> {
    if t.cpu.Some? then Appended(Known(t), t.cpu.value, t.at, c.window + c.gap, SAMPLE_CAP) else Known(t)
  }

  /** The tick decides to report the worker idle. */
  predicate Wants(t: Tick, c: Params) {
    && !(t.quiet.Some? && t.at < t.quiet.value)
    && IdleWindow(Judged(t, c), t.at, c.minSamples, c.window, c.gap, c.threshold)
    && t.notified != Some(true)
  }

  /** Its preconditions still hold: a sample re-asserts the samples it read, a
      report the marker, the notified flag and the quiet span. */
  predicate Commits(w: Watch, id: nat, c: Params) {
    && id in w.ticks
    && var t := w.ticks[id];
       && (t.cpu.Some? ==> t.seen == w.samples)
       && (Wants(t, c) ==> t.marker == w.marker && t.notified == w.notified && t.quiet == w.quiet)
  }

  predicate Alarms(w: Watch, id: nat, c: Params) {
    Commits(w, id, c) && Wants(w.ticks[id], c)
  }

  function Next(w: Watch, m: Move, c: Params): Watch {
    match m
    case ToolStart(at) => w.(samples := Some([]), marker := Some(at), notified := Some(false), clock := at)
    case ToolEnd => w.(marker := None)
    case Declare(until) => w.(quiet := until)
    case Observe(id, at, cpu) =>
      if Suppresses(w.marker, at, c.maxAge) then w.(clock := at)
      else w.(ticks := w.ticks[id := Tick(w.samples, w.marker, w.notified, w.quiet, at, cpu)],
              sampled := if cpu.Some? then at else w.sampled, clock := at)
    case Apply(id, at) =>
      var rest := w.(ticks := w.ticks - {id}, clock := at);
      if !Commits(w, id, c) then rest
      else
        var t := w.ticks[id];
        rest.(samples := if t.cpu.Some? then Some(Judged(t, c)) else w.samples,
              notified := if Wants(t, c) then Some(true) else w.notified)
  }

  function Run(w: Watch, ms: seq<Move>, c: Params): Watch
    decreases |ms|
  {
    if ms == [] then w else Run(Next(w, ms[0], c), ms[1..], c)
  }

  /** The clock does not run back, no two ticks sample in one second, a new tick
      has a new name, and no span ends before its declaration. */
  predicate Admissible(w: Watch, m: Move, c: Params) {
    match m
    case ToolStart(at) => at >= w.clock
    case ToolEnd => true
    case Declare(until) => until.Some? ==> until.value >= w.clock
    case Observe(id, at, cpu) =>
      at >= w.clock && id !in w.ticks && (cpu.Some? && !Suppresses(w.marker, at, c.maxAge) ==> at > w.sampled)
    case Apply(_, at) => at >= w.clock
  }

  predicate Timely(w: Watch, ms: seq<Move>, c: Params)
    decreases |ms|
  {
    ms == [] || (Admissible(w, ms[0], c) && Timely(Next(w, ms[0], c), ms[1..], c))
  }

  // ----- what every reachable state keeps ------------------------------------------------------------

  /** Samples somebody wrote: stamped, no later than the last second sampled,
      and not by a tick still in flight. */
  predicate Written(samples: seq<Sample>, w: Watch) {
    forall s :: s in samples ==>
      s.ts.Some? && s.ts.value <= w.sampled
      && forall id :: id in w.ticks && w.ticks[id].cpu.Some? ==> w.ticks[id].at != s.ts.value
  }

  function Stored(w: Watch): seq<Sample> {
    if w.samples.Some? then w.samples.value else []
  }

  predicate TickClean(w: Watch, t: Tick, c: Params) {
    && Written(Known(t), w) && t.at <= w.clock && (t.cpu.Some? ==> t.at <= w.sampled)
    && !Suppresses(t.marker, t.at, c.maxAge)
  }

  predicate Clean(w: Watch, c: Params) {
    && w.sampled <= w.clock && Written(Stored(w), w)
    && (forall id :: id in w.ticks ==> TickClean(w, w.ticks[id], c))
    && (forall i, j :: i in w.ticks && j in w.ticks && i != j && w.ticks[i].cpu.Some? && w.ticks[j].cpu.Some? ==>
          w.ticks[i].at != w.ticks[j].at)
  }

  /** A claim nobody has sampled yet. */
  function NewClaim(clock: int): Watch {
    Watch(None, None, None, None, map[], clock - 1, clock)
  }

  lemma JudgedFrom(t: Tick, c: Params)
    requires t.cpu.Some?
    ensures forall s :: s in Judged(t, c) ==> s in Known(t) || s == Sample(Some(t.at), t.cpu.value)
  {
    var all := Known(t) + [Sample(Some(t.at), t.cpu.value)];
    KeptAllFresh(all, t.at - (c.window + c.gap));
    var kept := Kept(all, t.at - (c.window + c.gap));
    forall s | s in Judged(t, c)
      ensures s in Known(t) || s == Sample(Some(t.at), t.cpu.value)
    {
      assert s in kept && s in all;
    }
  }

  lemma ApplyKeepsClean(w: Watch, id: nat, at: int, c: Params)
    requires Clean(w, c) && at >= w.clock
    ensures Clean(Next(w, Apply(id, at), c), c)
  {
    var u := Next(w, Apply(id, at), c);
    if Commits(w, id, c) && w.ticks[id].cpu.Some? {
      JudgedFrom(w.ticks[id], c);
      assert TickClean(w, w.ticks[id], c);
    }
    forall j | j in u.ticks
      ensures TickClean(u, u.ticks[j], c)
    {
      assert TickClean(w, w.ticks[j], c);
    }
    hide Judged, Wants, Suppresses;
  }

  lemma WrittenStays(samples: seq<Sample>, w: Watch, u: Watch)
    requires Written(samples, w) && w.sampled <= u.sampled
    requires forall id :: id in u.ticks && u.ticks[id].cpu.Some? ==>
               (id in w.ticks && u.ticks[id] == w.ticks[id]) || u.ticks[id].at > w.sampled
    ensures Written(samples, u)
  {
  }

  lemma ObserveKeepsClean(w: Watch, id: nat, at: int, cpu: Option<real>, c: Params)
    requires Clean(w, c) && Admissible(w, Observe(id, at, cpu), c)
    ensures Clean(Next(w, Observe(id, at, cpu), c), c)
  {
    var u := Next(w, Observe(id, at, cpu), c);
    WrittenStays(Stored(w), w, u);
    forall j | j in u.ticks
      ensures TickClean(u, u.ticks[j], c)
    {
      if j in w.ticks {
        assert TickClean(w, w.ticks[j], c);
        WrittenStays(Known(w.ticks[j]), w, u);
      }
    }
    hide TickClean, Written, Suppresses;
  }

  lemma NextKeepsClean(w: Watch, m: Move, c: Params)
    requires Clean(w, c) && Admissible(w, m, c)
    ensures Clean(Next(w, m, c), c)
  {
    match m {
      case Apply(id, at) => ApplyKeepsClean(w, id, at, c);
      case Observe(id, at, cpu) => ObserveKeepsClean(w, id, at, cpu, c);
      case _ =>
        var u := Next(w, m, c);
        forall j | j in u.ticks
          ensures TickClean(u, u.ticks[j], c)
        {
          assert TickClean(w, w.ticks[j], c);
        }
    }
    hide TickClean, Suppresses, Commits;
  }

  lemma {:induction false} RunKeepsClean(w: Watch, ms: seq<Move>, c: Params)
    requires Clean(w, c) && Timely(w, ms, c)
    ensures Clean(Run(w, ms, c), c)
    decreases |ms|
  {
    if ms != [] {
      NextKeepsClean(w, ms[0], c);
      RunKeepsClean(Next(w, ms[0], c), ms[1..], c);
    }
  }

  // ----- what an alarm says about the worker ---------------------------------------------------------

  /** Every sample taken reads the worker's CPU total at that second. */
  ghost predicate Reads(ms: seq<Move>, total: int -> real) {
    forall i :: 0 <= i < |ms| && ms[i].Observe? && ms[i].cpu.Some? ==> ms[i].cpu.value == total(ms[i].at)
  }

  ghost predicate AllReadOff(w: Watch, total: int -> real) {
    && ReadOff(Stored(w), total)
    && forall id :: id in w.ticks ==>
         ReadOff(Known(w.ticks[id]), total) && (w.ticks[id].cpu.Some? ==> w.ticks[id].cpu.value == total(w.ticks[id].at))
  }

  lemma JudgedReadsOff(t: Tick, c: Params, total: int -> real)
    requires ReadOff(Known(t), total) && (t.cpu.Some? ==> t.cpu.value == total(t.at))
    ensures ReadOff(Judged(t, c), total)
  {
    if t.cpu.Some? {
      JudgedFrom(t, c);
      forall i | 0 <= i < |Judged(t, c)|
        ensures Judged(t, c)[i].ts.Some? && Judged(t, c)[i].cpu == total(Judged(t, c)[i].ts.value)
      {
        assert Judged(t, c)[i] in Judged(t, c);
      }
    }
  }

  lemma NextReadsOff(w: Watch, m: Move, c: Params, total: int -> real)
    requires AllReadOff(w, total) && (m.Observe? && m.cpu.Some? ==> m.cpu.value == total(m.at))
    ensures AllReadOff(Next(w, m, c), total)
  {
    if m.Apply? && Commits(w, m.tick, c) {
      JudgedReadsOff(w.ticks[m.tick], c, total);
    }
    hide Judged, Wants, Suppresses;
  }

  lemma {:induction false} RunReadsOff(w: Watch, ms: seq<Move>, c: Params, total: int -> real)
    requires AllReadOff(w, total) && Reads(ms, total)
    ensures AllReadOff(Run(w, ms, c), total)
    decreases |ms|
  {
    if ms != [] {
      assert Reads(ms[1..], total);
      NextReadsOff(w, ms[0], c, total);
      hide AllReadOff;
      RunReadsOff(Next(w, ms[0], c), ms[1..], c, total);
    }
  }

  /** In every run an alarm is about an idle worker: from `first` to `last`, a
      whole window, its CPU total rose by at most the threshold and did not fall,
      `last` is no staler than the gap, and when the alarm commits the claim
      holds no tool marker younger than its bound, no span still running and no
      earlier report. */
  lemma AlarmMeansIdle(clock: int, ms: seq<Move>, id: nat, c: Params, total: int -> real) returns (first: int, last: int)
    requires Timely(NewClaim(clock), ms, c) && Reads(ms, total) && Alarms(Run(NewClaim(clock), ms, c), id, c)
    ensures var u := Run(NewClaim(clock), ms, c);
            var at := u.ticks[id].at;
            && last >= first + c.window && at <= last + c.gap
            && total(first) <= total(last) <= total(first) + c.threshold
            && (u.marker.Some? ==> at >= u.marker.value + if c.maxAge > 0 then c.maxAge else 300)
            && (u.quiet.Some? ==> at >= u.quiet.value) && u.notified != Some(true)
  {
    var w := NewClaim(clock);
    var u := Run(w, ms, c);
    RunKeepsClean(w, ms, c);
    RunReadsOff(w, ms, c, total);
    var t := u.ticks[id];
    assert TickClean(u, t, c);
    JudgedReadsOff(t, c, total);
    var g := Judged(t, c);
    if t.marker.Some? { MarkerExpires(t.marker.value, t.at, c.maxAge); }
    ReportedIffNothingObjects(g, t.at, c.minSamples, c.window, c.gap, c.threshold);
    hide Run, Timely, Judged, IdleWindow, Clean, AllReadOff, Suppresses;
    assert !Objects(TooFew, g, t.at, c.minSamples, c.window, c.gap, c.threshold);
    first, last := g[0].ts.value, g[|g| - 1].ts.value;
    assert !Objects(TooShort, g, t.at, c.minSamples, c.window, c.gap, c.threshold);
    assert !Objects(TooOld, g, t.at, c.minSamples, c.window, c.gap, c.threshold);
    assert !Objects(Busy, g, t.at, c.minSamples, c.window, c.gap, c.threshold);
    assert !Objects(Shrunk, g, t.at, c.minSamples, c.window, c.gap, c.threshold);
  }

  // ----- one tool start and what follows it ---------------------------------------------------------

  /** A sampling tick that saw the empty history, in flight at the start. */
  predicate Straddles(w: Watch, id: nat, at: int) {
    id in w.ticks && w.ticks[id].cpu.Some? && w.ticks[id].seen == Some([]) && w.ticks[id].at == at
  }

  ghost predicate Straddled(w: Watch, at: int) {
    exists id :: Straddles(w, id, at)
  }

  predicate Rising(samples: seq<Sample>) {
    Stamped(samples) && forall i, j :: 0 <= i < j < |samples| ==> samples[i].ts.value < samples[j].ts.value
  }

  /** The first second a tick can sample after the start. */
  function Resumes(w: Watch, start: int): int {
    if w.sampled < start then start else w.sampled + 1
  }

  predicate After(w: Watch, start: int, at: int) {
    at >= Resumes(w, start)
  }

  /** A history since the start: rising, within the cap, and every sample taken
      after it, save perhaps the first, by a tick the start caught in flight. */
  ghost predicate SinceStart(w: Watch, start: int, samples: seq<Sample>) {
    && Rising(samples) && |samples| <= SAMPLE_CAP
    && (forall i :: 1 <= i < |samples| ==> After(w, start, samples[i].ts.value))
    && (samples != [] ==> After(w, start, samples[0].ts.value) || Straddled(w, samples[0].ts.value))
  }

  predicate EndsBy(samples: seq<Sample>, t: int) {
    samples != [] && samples[|samples| - 1].ts.Some? ==> samples[|samples| - 1].ts.value <= t
  }

  /** A tick observed since the start. */
  ghost predicate FreshTick(w: Watch, start: int, t: Tick) {
    && t.at >= start && (t.cpu.Some? ==> t.at > w.sampled)
    && t.seen.Some? && SinceStart(w, start, t.seen.value)
    && EndsBy(t.seen.value, if t.cpu.Some? then t.at - 1 else t.at)
  }

  predicate StaleTick(w: Watch, id: nat, t: Tick) {
    id in w.ticks && t == w.ticks[id]
  }

  /** What every state `u` keeps until the next start, the last one having come
      at `start` in state `w`. */
  ghost predicate InEpoch(w: Watch, start: int, u: Watch) {
    && u.samples.Some? && SinceStart(w, start, u.samples.value) && EndsBy(u.samples.value, u.sampled)
    && (forall id :: id in u.ticks ==>
          && (StaleTick(w, id, u.ticks[id]) || FreshTick(w, start, u.ticks[id]))
          && (u.ticks[id].cpu.Some? ==> u.ticks[id].at <= u.sampled))
    && w.sampled <= u.sampled <= u.clock && w.clock <= start <= u.clock
    && (u.marker == None || u.marker == Some(start))
    && u.notified.Some?
    && (u.quiet == w.quiet || Declarable(u.quiet, start))
  }

  /** A span, or its end, that can be declared at or after the start. */
  predicate Declarable(quiet: Option<int>, start: int) {
    quiet == None || quiet.value >= start
  }

  /** On a rising history the kept part is a tail that ends in the new sample. */
  lemma JudgedIsTail(t: Tick, c: Params) returns (k: nat)
    requires t.cpu.Some? && Rising(Known(t)) && EndsBy(Known(t), t.at - 1)
    ensures var all := Known(t) + [Sample(Some(t.at), t.cpu.value)];
            k < |all| && Rising(all) && Judged(t, c) == all[k..] && |Judged(t, c)| <= SAMPLE_CAP
  {
    var all := Known(t) + [Sample(Some(t.at), t.cpu.value)];
    var cutoff := t.at - (c.window + c.gap);
    assert Rising(all);
    k := FirstFresh(all, cutoff);
    KeptIsTail(all, cutoff, k);
    hide Rising, Fresh, EndsBy;
    if |all| - k > SAMPLE_CAP {
      assert all[k..][|all| - k - SAMPLE_CAP..] == all[|all| - SAMPLE_CAP..];
      k := |all| - SAMPLE_CAP;
    }
  }

  /** Where a rising history that ends fresh begins to be. */
  lemma FirstFresh(samples: seq<Sample>, cutoff: int) returns (k: nat)
    requires Rising(samples) && samples != [] && Fresh(samples[|samples| - 1], cutoff)
    ensures k < |samples| && forall i :: 0 <= i < |samples| ==> (Fresh(samples[i], cutoff) <==> i >= k)
  {
    k := 0;
    while !Fresh(samples[k], cutoff)
      invariant k < |samples| && forall i :: 0 <= i < k ==> !Fresh(samples[i], cutoff)
      decreases |samples| - k
    {
      k := k + 1;
    }
  }

  lemma TailSinceStart(w: Watch, start: int, samples: seq<Sample>, k: nat)
    requires k <= |samples| <= k + SAMPLE_CAP && Rising(samples)
    requires forall i :: 1 <= i < |samples| ==> After(w, start, samples[i].ts.value)
    requires samples != [] ==> After(w, start, samples[0].ts.value) || Straddled(w, samples[0].ts.value)
    ensures SinceStart(w, start, samples[k..])
  {
    hide After, Straddled;
  }

  lemma FreshJudged(w: Watch, start: int, t: Tick, c: Params)
    requires FreshTick(w, start, t)
    ensures SinceStart(w, start, Judged(t, c)) && EndsBy(Judged(t, c), t.at)
  {
    if t.cpu.Some? {
      assert After(w, start, t.at);
      hide After, Straddled;
      var k := JudgedIsTail(t, c);
      TailSinceStart(w, start, Known(t) + [Sample(Some(t.at), t.cpu.value)], k);
      hide Judged;
    }
  }

  /** What a straddling tick writes: its own sample alone. */
  lemma StraddlerJudged(t: Tick, c: Params)
    requires t.cpu.Some? && t.seen == Some([]) && Configured(c)
    ensures Judged(t, c) == [Sample(Some(t.at), t.cpu.value)] && !Wants(t, c)
  {
    var k := JudgedIsTail(t, c);
    assert [] + [Sample(Some(t.at), t.cpu.value)] == [Sample(Some(t.at), t.cpu.value)];
  }

  /** A tick in flight at the start has seen nothing a later tick could write. */
  lemma SeenIsOld(w: Watch, start: int, t: Tick, c: Params)
    requires TickClean(w, t, c)
    ensures Known(t) != [] ==>
              Known(t)[0].ts.Some? && !After(w, start, Known(t)[0].ts.value) && !Straddled(w, Known(t)[0].ts.value)
  {
    if Known(t) != [] {
      assert Known(t)[0] in Known(t);
    }
  }

  /** A sampling tick from before the start commits after it only if it saw the
      empty history. */
  lemma StaleMeansStraddles(w: Watch, start: int, u: Watch, id: nat, c: Params)
    requires Clean(w, c) && InEpoch(w, start, u)
    requires id in u.ticks && StaleTick(w, id, u.ticks[id])
    requires u.ticks[id].cpu.Some? && u.ticks[id].seen == u.samples
    ensures Straddles(w, id, u.ticks[id].at)
  {
    assert TickClean(w, u.ticks[id], c);
    SeenIsOld(w, start, u.ticks[id], c);
  }

  lemma ApplyInEpoch(w: Watch, start: int, u: Watch, id: nat, at: int, c: Params)
    requires Clean(w, c) && Configured(c) && InEpoch(w, start, u) && at >= u.clock
    ensures InEpoch(w, start, Next(u, Apply(id, at), c))
  {
    if Commits(u, id, c) && u.ticks[id].cpu.Some? {
      var t := u.ticks[id];
      if StaleTick(w, id, t) {
        StaleMeansStraddles(w, start, u, id, c);
        StraddlerJudged(t, c);
        assert SinceStart(w, start, Judged(t, c)) && EndsBy(Judged(t, c), u.sampled);
      } else {
        FreshJudged(w, start, t, c);
        assert EndsBy(Judged(t, c), u.sampled);
      }
    }
    hide After, Judged, Wants, SinceStart, FreshTick, EndsBy, Clean;
  }

  predicate NoStarts(ms: seq<Move>) {
    forall m :: m in ms ==> !m.ToolStart?
  }

  lemma ObserveInEpoch(w: Watch, start: int, u: Watch, m: Move, c: Params)
    requires m.Observe? && InEpoch(w, start, u) && Admissible(u, m, c)
    ensures InEpoch(w, start, Next(u, m, c))
  {
    var t := Tick(u.samples, u.marker, u.notified, u.quiet, m.at, m.cpu);
    if !Suppresses(u.marker, m.at, c.maxAge) {
      assert FreshTick(w, start, t);
      hide FreshTick, SinceStart, EndsBy;
      assert Next(u, m, c).ticks == u.ticks[m.tick := t];
    }
    hide FreshTick, SinceStart, EndsBy, Suppresses;
  }

  lemma NextInEpoch(w: Watch, start: int, u: Watch, m: Move, c: Params)
    requires Clean(w, c) && Configured(c) && InEpoch(w, start, u) && Admissible(u, m, c) && !m.ToolStart?
    ensures InEpoch(w, start, Next(u, m, c))
  {
    match m {
      case Apply(id, at) => ApplyInEpoch(w, start, u, id, at, c);
      case Observe(_, _, _) => ObserveInEpoch(w, start, u, m, c);
      case _ =>
        hide SinceStart, FreshTick, StaleTick, EndsBy, Clean;
    }
  }

  lemma {:induction false} RunInEpoch(w: Watch, start: int, u: Watch, ms: seq<Move>, c: Params)
    requires Clean(w, c) && Configured(c) && InEpoch(w, start, u) && Timely(u, ms, c) && NoStarts(ms)
    ensures InEpoch(w, start, Run(u, ms, c))
    decreases |ms|
  {
    if ms != [] {
      assert ms[0] in ms;
      NextInEpoch(w, start, u, ms[0], c);
      RunInEpoch(w, start, Next(u, ms[0], c), ms[1..], c);
    }
  }

  lemma StartOpensEpoch(w: Watch, start: int, c: Params)
    requires Clean(w, c) && Admissible(w, ToolStart(start), c)
    ensures InEpoch(w, start, Next(w, ToolStart(start), c))
  {
    forall id | id in w.ticks
      ensures w.ticks[id].cpu.Some? ==> w.ticks[id].at <= w.sampled
    {
      assert TickClean(w, w.ticks[id], c);
    }
  }

  // ----- how early a report can come -------------------------------------------------------------------

  /** A tick the start caught in flight without a sample of its own (`ps` could
      not be read) that wants to report, and whose three report preconditions
      can still be met after the start. */
  predicate Held(w: Watch, id: nat, start: int, c: Params) {
    && id in w.ticks && w.ticks[id].cpu.None? && Wants(w.ticks[id], c)
    && w.ticks[id].marker == None && w.ticks[id].notified == Some(false)
    && (w.ticks[id].quiet == w.quiet || Declarable(w.ticks[id].quiet, start))
  }

  /** A report since the start comes from a held tick, or it judged a history
      since the start. */
  lemma AlarmJudges(w: Watch, start: int, u: Watch, id: nat, c: Params)
    requires Clean(w, c) && Configured(c) && InEpoch(w, start, u) && Alarms(u, id, c)
    ensures var t := u.ticks[id];
            && (StaleTick(w, id, t) ==> Held(w, id, start, c) && t.at <= start)
            && (!StaleTick(w, id, t) ==> SinceStart(w, start, Judged(t, c)) && EndsBy(Judged(t, c), t.at))
  {
    var t := u.ticks[id];
    if StaleTick(w, id, t) {
      assert TickClean(w, t, c);
      if t.cpu.Some? {
        StaleMeansStraddles(w, start, u, id, c);
        StraddlerJudged(t, c);
      }
      assert u.notified == Some(if u.notified.value then true else false);
    } else {
      FreshJudged(w, start, t, c);
    }
  }

  lemma HistoryReachesBack(w: Watch, start: int, t: Tick, c: Params)
    requires Configured(c) && SinceStart(w, start, Judged(t, c)) && EndsBy(Judged(t, c), t.at) && Wants(t, c)
    ensures var g := Judged(t, c);
            && |g| > 1 && g[0].ts.value + c.window <= t.at && After(w, start, g[1].ts.value)
            && g[0].ts.value >= g[1].ts.value - c.gap
            && (g[0].ts.value < start ==> Straddled(w, g[0].ts.value))
  {
    hide Judged;
  }

  /** However ticks, tool calls and quiet spans interleave and however long a
      tick takes, a report judged after the last tool start comes at least
      window minus gap after it. The one exception is a held tick. */
  lemma NoEarlyAlarm(clock: int, before: seq<Move>, start: int, ms: seq<Move>, id: nat, c: Params)
    requires Configured(c) && Timely(NewClaim(clock), before, c)
    requires var w := Run(NewClaim(clock), before, c);
             && Admissible(w, ToolStart(start), c)
             && Timely(Next(w, ToolStart(start), c), ms, c) && NoStarts(ms)
             && Alarms(Run(Next(w, ToolStart(start), c), ms, c), id, c)
    ensures var w := Run(NewClaim(clock), before, c);
            var t := Run(Next(w, ToolStart(start), c), ms, c).ticks[id];
            t.at >= start + c.window - c.gap || (StaleTick(w, id, t) && Held(w, id, start, c))
  {
    RunKeepsClean(NewClaim(clock), before, c);
    var w := Run(NewClaim(clock), before, c);
    StartOpensEpoch(w, start, c);
    RunInEpoch(w, start, Next(w, ToolStart(start), c), ms, c);
    var u := Run(Next(w, ToolStart(start), c), ms, c);
    AlarmJudges(w, start, u, id, c);
    if !StaleTick(w, id, u.ticks[id]) {
      HistoryReachesBack(w, start, u.ticks[id], c);
    }
    hide *;
  }

  // ----- exactly which starts can be followed by an early report ------------------------------------------

  /** A report less than the window after the tool start that opened the epoch. */
  predicate EarlyAlarm(w: Watch, start: int, ms: seq<Move>, id: nat, c: Params) {
    var u := Next(w, ToolStart(start), c);
    && Timely(u, ms, c) && NoStarts(ms) && Alarms(Run(u, ms, c), id, c)
    && Run(u, ms, c).ticks[id].at < start + c.window
  }

  /** How many samples can follow the start before its window is over. */
  function Room(w: Watch, start: int, c: Params): int {
    Min(SAMPLE_CAP - 1, start + c.window - Resumes(w, start))
  }

  /** A tick that saw the empty history and sampled before the start, no more
      than `gap` before the next sample there can be, when the samples that can
      follow in time can span the window and make up the sample minimum. */
  predicate Caught(w: Watch, id: nat, start: int, c: Params) {
    && id in w.ticks && Straddles(w, id, w.ticks[id].at)
    && w.ticks[id].at < start && Resumes(w, start) - w.ticks[id].at <= c.gap
    && Room(w, start, c) * c.gap >= c.window && Room(w, start, c) + 1 >= c.minSamples
  }

  predicate Exposed(w: Watch, start: int, c: Params) {
    exists id :: id in w.ticks && (Caught(w, id, start, c) || Held(w, id, start, c))
  }

  /** Stamps that rise by 1 to `gap` a step. */
  lemma {:induction false} Spread(samples: seq<Sample>, gap: nat, i: nat, j: nat)
    requires i <= j < |samples| && Rising(samples)
    requires forall k :: 0 <= k < |samples| - 1 ==> samples[k + 1].ts.value - samples[k].ts.value <= gap
    ensures j - i <= samples[j].ts.value - samples[i].ts.value <= (j - i) * gap
  {
    if i < j {
      Spread(samples, gap, i, j - 1);
      assert samples[(j - 1) + 1].ts.value - samples[j - 1].ts.value <= gap;
      assert (j - i) * gap == (j - 1 - i) * gap + gap;
    }
  }

  lemma ScaleUp(n: nat, m: nat, gap: nat)
    requires n <= m
    ensures n * gap <= m * gap
  {
  }

  /** A history that began before the start and is reported within the window
      after it holds no more samples than fit. */
  lemma EarlyMeansRoom(w: Watch, start: int, t: Tick, c: Params)
    requires w.sampled <= start && Configured(c)
    requires SinceStart(w, start, Judged(t, c)) && EndsBy(Judged(t, c), t.at) && Wants(t, c)
    requires t.at < start + c.window
    ensures Room(w, start, c) * c.gap >= c.window && Room(w, start, c) + 1 >= c.minSamples
  {
    HistoryReachesBack(w, start, t, c);
    var g := Judged(t, c);
    var n := |g| - 1;
    Spread(g, c.gap, 0, n);
    Spread(g, c.gap, 1, n);
    assert n <= Room(w, start, c);
    ScaleUp(n, Room(w, start, c), c.gap);
    hide Judged;
  }

  lemma EarlyAlarmIsExposed(w: Watch, start: int, ms: seq<Move>, id: nat, c: Params)
    requires Clean(w, c) && Configured(c) && Admissible(w, ToolStart(start), c) && EarlyAlarm(w, start, ms, id, c)
    ensures Exposed(w, start, c)
  {
    StartOpensEpoch(w, start, c);
    RunInEpoch(w, start, Next(w, ToolStart(start), c), ms, c);
    var u := Run(Next(w, ToolStart(start), c), ms, c);
    var t := u.ticks[id];
    AlarmJudges(w, start, u, id, c);
    if StaleTick(w, id, t) {
      assert Held(w, id, start, c);
    } else {
      HistoryReachesBack(w, start, t, c);
      EarlyMeansRoom(w, start, t, c);
      var first := Judged(t, c)[0].ts.value;
      assert Straddled(w, first);
      var s :| Straddles(w, s, first);
      assert Caught(w, s, start, c);
    }
    hide Judged, Held, InEpoch, SinceStart, Run, Timely, Clean, Wants, Commits;
  }

  /** The least number of samples after the caught one that makes a history
      reportable; it fits in the window. */
  lemma LeastFill(room: nat, c: Params) returns (n: nat)
    requires Configured(c) && room * c.gap >= c.window && room + 1 >= c.minSamples
    ensures 1 <= n <= room && n * c.gap >= c.window && n + 1 >= c.minSamples
    ensures (n - 1) * c.gap < c.window || n < c.minSamples
  {
    n := room;
    while n > 1 && (n - 1) * c.gap >= c.window && n >= c.minSamples
      invariant 1 <= n <= room && n * c.gap >= c.window && n + 1 >= c.minSamples
    {
      n := n - 1;
    }
  }

  /** A caught tick, and `n` samples to follow its own, the last of them the
      first to make a reportable history. */
  datatype Fill = Fill(w: Watch, id: nat, start: int, c: Params, n: nat)

  predicate Fits(f: Fill) {
    && Configured(f.c) && Caught(f.w, f.id, f.start, f.c) && f.w.sampled <= f.w.clock <= f.start
    && 1 <= f.n <= Room(f.w, f.start, f.c) && f.n * f.c.gap >= f.c.window && f.n + 1 >= f.c.minSamples
    && ((f.n - 1) * f.c.gap < f.c.window || f.n < f.c.minSamples)
  }

  /** Seconds from the caught sample to the next there can be. */
  function Lead(f: Fill): int
    requires Fits(f)
  {
    Resumes(f.w, f.start) - f.w.ticks[f.id].at
  }

  /** Seconds from the caught sample to the reporting one. */
  function Reach(f: Fill): int
    requires Fits(f)
  {
    if f.c.window < Lead(f) + f.n - 1 then Lead(f) + f.n - 1 else f.c.window
  }

  /** Seconds from the caught sample to the `i`-th after it: as late as the gap
      allows, while the rest still fit. */
  function Offset(f: Fill, i: nat): int
    requires Fits(f)
  {
    Min(i * f.c.gap, Reach(f) - (f.n - i))
  }

  lemma OffsetRises(f: Fill, i: nat)
    requires Fits(f) && i < f.n
    ensures 1 <= Offset(f, i + 1) - Offset(f, i) <= f.c.gap
    ensures Offset(f, i + 1) >= Lead(f)
    ensures Offset(f, i) < f.c.window || i + 1 < f.c.minSamples
  {
    assert (i + 1) * f.c.gap == i * f.c.gap + f.c.gap;
    ScaleUp(1, i + 1, f.c.gap);
    ScaleUp(i, f.n - 1, f.c.gap);
    hide Caught;
  }

  lemma StepsCover(n: nat, gap: nat)
    requires n > 0 && gap > 0
    ensures n * gap >= gap + n - 1
  {
    ScaleUp(1, gap, n - 1);
    assert n * gap == gap * (n - 1) + gap;
  }

  lemma OffsetBounds(f: Fill, i: nat)
    requires Fits(f) && i <= f.n
    ensures 0 <= Offset(f, i) <= Reach(f) <= f.c.window + f.c.gap && f.w.ticks[f.id].at + Reach(f) < f.start + f.c.window
    ensures Offset(f, 0) == 0 && Offset(f, f.n) == Reach(f)
  {
    StepsCover(f.n, f.c.gap);
    ScaleUp(0, i, f.c.gap);
    hide Straddles;
  }

  /** The caught sample and the `i` after it. */
  function Filled(f: Fill, i: nat): seq<Sample>
    requires Fits(f)
  {
    seq(i + 1, j requires 0 <= j <= i => Sample(Some(f.w.ticks[f.id].at + Offset(f, j)), f.w.ticks[f.id].cpu.value))
  }

  /** The claim with `i` samples after the caught one. */
  function Stage(f: Fill, i: nat): Watch
    requires Fits(f)
  {
    Watch(Some(Filled(f, i)), None, Some(false), None, f.w.ticks - {f.id},
          if i == 0 then f.w.sampled else f.w.ticks[f.id].at + Offset(f, i),
          if i == 0 then f.start else f.w.ticks[f.id].at + Offset(f, i))
  }

  /** The tick that takes the next sample. */
  function NextTick(f: Fill, i: nat): Tick
    requires Fits(f)
  {
    Tick(Some(Filled(f, i)), None, Some(false), None, f.w.ticks[f.id].at + Offset(f, i + 1), Some(f.w.ticks[f.id].cpu.value))
  }

  /** While nothing ages out and the cap does not bite, the history just grows. */
  lemma WholeJudged(seen: seq<Sample>, s: Sample, retain: nat)
    requires s.ts.Some? && |seen| < SAMPLE_CAP && forall x :: x in seen ==> Fresh(x, s.ts.value - retain)
    ensures Appended(seen, s.cpu, s.ts.value, retain, SAMPLE_CAP) == seen + [s]
  {
    var all := seen + [s];
    forall i | 0 <= i < |all|
      ensures Fresh(all[i], s.ts.value - retain)
    {
      assert i < |seen| ==> all[i] in seen;
    }
    KeptIsTail(all, s.ts.value - retain, 0);
  }

  lemma NextTickJudges(f: Fill, i: nat)
    requires Fits(f) && i < f.n
    ensures Judged(NextTick(f, i), f.c) == Filled(f, i + 1)
  {
    var seen, t := Filled(f, i), NextTick(f, i);
    assert seen + [Sample(Some(t.at), t.cpu.value)] == Filled(f, i + 1);
    OffsetBounds(f, i + 1);
    forall j | 0 <= j < |seen|
      ensures Fresh(seen[j], t.at - (f.c.window + f.c.gap))
    {
      OffsetBounds(f, j);
    }
    WholeJudged(seen, Sample(Some(t.at), t.cpu.value), f.c.window + f.c.gap);
    hide Offset, Fits;
  }

  /** The tick that takes the last sample wants to report, and none before it. */
  lemma OnlyTheLastWants(f: Fill, i: nat)
    requires Fits(f) && i < f.n
    ensures Wants(NextTick(f, i), f.c) <==> i + 1 == f.n
  {
    NextTickJudges(f, i);
    var g := Filled(f, i + 1);
    OffsetBounds(f, i + 1);
    assert g[0].ts == Some(f.w.ticks[f.id].at) && g[i + 1].ts.value == f.w.ticks[f.id].at + Offset(f, i + 1);
    if i + 1 < f.n {
      OffsetRises(f, i + 1);
    } else {
      forall j | 0 <= j < |g| - 1
        ensures g[j + 1].ts.value - g[j].ts.value <= f.c.gap
      {
        OffsetRises(f, j);
      }
    }
    hide Offset, Judged;
  }

  function Take(f: Fill, i: nat): Move
    requires Fits(f)
  {
    Observe(f.id, f.w.ticks[f.id].at + Offset(f, i + 1), f.w.ticks[f.id].cpu)
  }

  /** The claim with the next tick in flight. */
  function Pending(f: Fill, i: nat): Watch
    requires Fits(f)
  {
    Next(Stage(f, i), Take(f, i), f.c)
  }

  lemma StageClock(f: Fill, i: nat)
    requires Fits(f) && i < f.n
    ensures Take(f, i).at >= Stage(f, i).clock && Take(f, i).at > Stage(f, i).sampled
  {
    OffsetRises(f, i);
    hide Offset, Filled, Straddles, Configured;
  }

  lemma StageTakes(f: Fill, i: nat)
    requires Fits(f) && i < f.n
    ensures Admissible(Stage(f, i), Take(f, i), f.c)
    ensures var at := Take(f, i).at;
            Pending(f, i) == Stage(f, i).(ticks := f.w.ticks[f.id := NextTick(f, i)], sampled := at, clock := at)
  {
    StageClock(f, i);
    var stage := Stage(f, i);
    assert f.w.ticks[f.id].cpu.Some?;
    assert stage.ticks[f.id := NextTick(f, i)] == f.w.ticks[f.id := NextTick(f, i)];
    hide Offset, Filled, Fits;
  }

  /** One more sample after the start: the last one reports, the others commit. */
  lemma PendingSettles(f: Fill, i: nat)
    requires Fits(f) && i < f.n
    ensures f.id in Pending(f, i).ticks && Pending(f, i).ticks[f.id].at == Take(f, i).at
    ensures i + 1 == f.n ==> Alarms(Pending(f, i), f.id, f.c)
    ensures i + 1 < f.n ==>
              var apply := Apply(f.id, Take(f, i).at);
              Admissible(Pending(f, i), apply, f.c) && Next(Pending(f, i), apply, f.c) == Stage(f, i + 1)
  {
    StageTakes(f, i);
    NextTickJudges(f, i);
    OnlyTheLastWants(f, i);
    assert Pending(f, i).ticks - {f.id} == f.w.ticks - {f.id};
    hide Offset, Judged, Wants, Filled, Fits;
  }

  lemma RunCons(w: Watch, m: Move, ms: seq<Move>, c: Params)
    ensures Run(w, [m] + ms, c) == Run(Next(w, m, c), ms, c)
    ensures Timely(w, [m] + ms, c) <==> Admissible(w, m, c) && Timely(Next(w, m, c), ms, c)
    ensures NoStarts([m] + ms) <==> !m.ToolStart? && NoStarts(ms)
  {
    assert ([m] + ms)[1..] == ms;
  }

  lemma {:induction false} RunOver(w: Watch, a: seq<Move>, b: seq<Move>, c: Params)
    ensures Run(w, a + b, c) == Run(Run(w, a, c), b, c)
    ensures Timely(w, a + b, c) <==> Timely(w, a, c) && Timely(Run(w, a, c), b, c)
    decreases |a|
  {
    if a == [] {
      assert a + b == b;
    } else {
      assert (a + b)[1..] == a[1..] + b;
      RunOver(Next(w, a[0], c), a[1..], b, c);
    }
  }

  lemma {:induction false} FillRun(f: Fill, i: nat) returns (ms: seq<Move>)
    requires Fits(f) && i < f.n
    ensures Timely(Stage(f, i), ms, f.c) && NoStarts(ms)
    ensures var u := Run(Stage(f, i), ms, f.c);
            Alarms(u, f.id, f.c) && u.ticks[f.id].at == f.w.ticks[f.id].at + Reach(f)
    decreases f.n - i
  {
    hide Fits, Offset, Stage, NextTick, Alarms, Admissible, Reach, Next, Filled;
    StageTakes(f, i);
    PendingSettles(f, i);
    var take, apply := Take(f, i), Apply(f.id, Take(f, i).at);
    assert Next(Stage(f, i), take, f.c) == Pending(f, i);
    if i + 1 == f.n {
      OffsetBounds(f, f.n);
      ms := [take] + [];
      RunCons(Stage(f, i), take, [], f.c);
    } else {
      var more := FillRun(f, i + 1);
      RunCons(Pending(f, i), apply, more, f.c);
      RunCons(Stage(f, i), take, [apply] + more, f.c);
      ms := [take] + ([apply] + more);
    }
  }

  /** After the start the caught tick applies, the empty history being empty again. */
  lemma CaughtApplies(f: Fill, u: Watch)
    requires Fits(f)
    requires u == Next(f.w, ToolStart(f.start), f.c).(marker := None, quiet := None)
    ensures Next(u, Apply(f.id, f.start), f.c) == Stage(f, 0)
  {
    StraddlerJudged(f.w.ticks[f.id], f.c);
    OffsetBounds(f, 0);
    assert Filled(f, 0) == [Sample(Some(f.w.ticks[f.id].at), f.w.ticks[f.id].cpu.value)];
    hide Judged, Wants, Offset, Filled, Fits;
  }

  lemma CaughtCommits(f: Fill) returns (opening: seq<Move>)
    requires Fits(f)
    ensures var u := Next(f.w, ToolStart(f.start), f.c);
            Timely(u, opening, f.c) && Run(u, opening, f.c) == Stage(f, 0) && NoStarts(opening)
  {
    var u := Next(f.w, ToolStart(f.start), f.c);
    var ended := Next(u, ToolEnd, f.c);
    var apply := Apply(f.id, f.start);
    CaughtApplies(f, Next(ended, Declare(None), f.c));
    RunCons(Next(ended, Declare(None), f.c), apply, [], f.c);
    RunCons(ended, Declare(None), [apply] + [], f.c);
    RunCons(u, ToolEnd, [Declare(None)] + ([apply] + []), f.c);
    opening := [ToolEnd] + ([Declare(None)] + ([apply] + []));
    hide Fits, Stage, Commits, Wants, Judged;
  }

  lemma CaughtGivesEarlyAlarm(w: Watch, start: int, id: nat, c: Params) returns (ms: seq<Move>)
    requires Clean(w, c) && Configured(c) && Admissible(w, ToolStart(start), c) && Caught(w, id, start, c)
    ensures EarlyAlarm(w, start, ms, id, c)
  {
    assert TickClean(w, w.ticks[id], c);
    var n := LeastFill(Room(w, start, c), c);
    var f := Fill(w, id, start, c, n);
    var opening := CaughtCommits(f);
    var more := FillRun(f, 0);
    RunOver(Next(w, ToolStart(start), c), opening, more, c);
    OffsetBounds(f, n);
    ms := opening + more;
    hide Run, Timely, Alarms, Fits, Stage, Reach, Clean;
  }

  lemma HeldGivesEarlyAlarm(w: Watch, start: int, id: nat, c: Params) returns (ms: seq<Move>)
    requires Clean(w, c) && Configured(c) && Admissible(w, ToolStart(start), c) && Held(w, id, start, c)
    ensures EarlyAlarm(w, start, ms, id, c)
  {
    assert TickClean(w, w.ticks[id], c);
    var u := Next(w, ToolStart(start), c);
    var ended, again := Next(u, ToolEnd, c), Declare(w.ticks[id].quiet);
    if w.ticks[id].quiet == w.quiet {
      ms := [ToolEnd] + [];
      RunCons(u, ToolEnd, [], c);
    } else {
      ms := [ToolEnd] + ([again] + []);
      RunCons(ended, again, [], c);
      RunCons(u, ToolEnd, [again] + [], c);
    }
    hide Judged, Wants, Clean;
  }

  /** In a claim's life, a tool start can be followed by a report less than the
      window later, before any other start, if and only if at that moment a tick
      is in flight that either saw the empty history and sampled within `gap`
      before, or took no sample and already wants to report. */
  lemma EarlyReportIff(clock: int, before: seq<Move>, start: int, c: Params)
    requires Configured(c) && Timely(NewClaim(clock), before, c)
    requires Admissible(Run(NewClaim(clock), before, c), ToolStart(start), c)
    ensures var w := Run(NewClaim(clock), before, c);
            (exists ms, id :: EarlyAlarm(w, start, ms, id, c)) <==> Exposed(w, start, c)
  {
    RunKeepsClean(NewClaim(clock), before, c);
    var w := Run(NewClaim(clock), before, c);
    forall ms, id | EarlyAlarm(w, start, ms, id, c)
      ensures Exposed(w, start, c)
    {
      EarlyAlarmIsExposed(w, start, ms, id, c);
    }
    if Exposed(w, start, c) {
      var id :| id in w.ticks && (Caught(w, id, start, c) || Held(w, id, start, c));
      if Caught(w, id, start, c) {
        var ms := CaughtGivesEarlyAlarm(w, start, id, c);
      } else {
        var ms := HeldGivesEarlyAlarm(w, start, id, c);
      }
    }
    hide *;
  }

  const SHIPPED := Params(600, 60, 3, 1.0, 300)

  /** With the shipped settings: a tick samples at 0, seeing the empty history
      an earlier tool start stored, a tool starts at 5 while it is in flight, and
      a report can come less than 600 seconds later. On a claim no tool has run
      under, the same tick saw no history at all, and the start voids it. */
  lemma StraddlingAlarmIsEarly(cpu: real)
    ensures var before := [ToolStart(-10), ToolEnd, Observe(0, 0, Some(cpu))];
            && Timely(NewClaim(-20), before, SHIPPED) && Admissible(Run(NewClaim(-20), before, SHIPPED), ToolStart(5), SHIPPED)
            && exists ms, id :: EarlyAlarm(Run(NewClaim(-20), before, SHIPPED), 5, ms, id, SHIPPED)
    ensures !Exposed(Run(NewClaim(-20), [Observe(0, 0, Some(cpu))], SHIPPED), 5, SHIPPED)
  {
    var w := NewClaim(-20);
    var cleared := Next(Next(w, ToolStart(-10), SHIPPED), ToolEnd, SHIPPED);
    var observe := Observe(0, 0, Some(cpu));
    RunCons(cleared, observe, [], SHIPPED);
    RunCons(Next(w, ToolStart(-10), SHIPPED), ToolEnd, [observe] + [], SHIPPED);
    RunCons(w, ToolStart(-10), [ToolEnd] + ([observe] + []), SHIPPED);
    RunCons(w, observe, [], SHIPPED);
    var before := [ToolStart(-10), ToolEnd, observe];
    assert before == [ToolStart(-10)] + ([ToolEnd] + ([observe] + [])) && [observe] == [observe] + [];
    assert Caught(Next(cleared, observe, SHIPPED), 0, 5, SHIPPED);
    EarlyReportIff(-20, before, 5, SHIPPED);
  }

  /** A sampling tick whose history is short of the window commits, and only its
      samples land. */
  lemma CommitsQuietly(u: Watch, id: nat, at: int, c: Params, g: seq<Sample>)
    requires id in u.ticks && u.ticks[id].cpu.Some? && u.ticks[id].seen == u.samples
    requires Judged(u.ticks[id], c) == g && g != [] && Stamped(g) && g[|g| - 1].ts.value - g[0].ts.value < c.window
    ensures Next(u, Apply(id, at), c) == u.(ticks := u.ticks - {id}, clock := at, samples := Some(g))
  {
    hide Judged;
  }

  /** Why two ticks in one second are excluded: the second of them rewrites the
      very sample a third tick saw, which then commits across the start, and the
      report comes 1 second after it, not window minus gap. */
  lemma SharedSecondBreaksTheBound(cpu: real)
    ensures var c := Params(4, 2, 1, 1.0, 300);
            var w := Next(Next(NewClaim(-5), ToolStart(-1), c), ToolEnd, c);
            var two := Next(Next(w, Observe(0, 0, Some(cpu)), c), Observe(1, 0, Some(cpu)), c);
            var third := Next(Next(two, Apply(0, 0), c), Observe(2, 2, Some(cpu)), c);
            var start := Next(Next(third, ToolStart(3), c), ToolEnd, c);
            var u := Next(Next(Next(start, Apply(1, 3), c), Apply(2, 3), c), Observe(3, 4, Some(cpu)), c);
            Alarms(u, 3, c) && u.ticks[3].at == 4 < 3 + c.window - c.gap
  {
    var c := Params(4, 2, 1, 1.0, 300);
    var s0, s2, s4 := Sample(Some(0), cpu), Sample(Some(2), cpu), Sample(Some(4), cpu);
    assert Appended([], cpu, 0, 6, SAMPLE_CAP) == [s0] by { WholeJudged([], s0, 6); }
    assert Appended([s0], cpu, 2, 6, SAMPLE_CAP) == [s0, s2] by { WholeJudged([s0], s2, 6); }
    assert Appended([s0, s2], cpu, 4, 6, SAMPLE_CAP) == [s0, s2, s4] by { WholeJudged([s0, s2], s4, 6); }
    var w := Next(Next(NewClaim(-5), ToolStart(-1), c), ToolEnd, c);
    var two := Next(Next(w, Observe(0, 0, Some(cpu)), c), Observe(1, 0, Some(cpu)), c);
    assert two.ticks == map[0 := two.ticks[0], 1 := two.ticks[0]];
    assert two.ticks[0] == Tick(Some([]), None, Some(false), None, 0, Some(cpu));
    CommitsQuietly(two, 0, 0, c, [s0]);
    var third := Next(Next(two, Apply(0, 0), c), Observe(2, 2, Some(cpu)), c);
    assert third.ticks[2] == Tick(Some([s0]), None, Some(false), None, 2, Some(cpu));
    var start := Next(Next(third, ToolStart(3), c), ToolEnd, c);
    CommitsQuietly(start, 1, 3, c, [s0]);
    var again := Next(start, Apply(1, 3), c);
    CommitsQuietly(again, 2, 3, c, [s0, s2]);
    var u := Next(Next(again, Apply(2, 3), c), Observe(3, 4, Some(cpu)), c);
    assert u.ticks[3] == Tick(Some([s0, s2]), None, Some(false), None, 4, Some(cpu));
    assert Judged(u.ticks[3], c) == [s0, s2, s4];
    hide Appended, Judged, Suppresses;
  }
}
