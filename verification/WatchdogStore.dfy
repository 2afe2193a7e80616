/** The watchdog's races happen on the plan store: each move of the protocol is
    one call, or none, and a run of moves is a run of calls. */
module WatchdogStore {
  import opened Values
  import opened PlanDoc
  import opened PlanOps
  import opened EventLog
  import opened Watchdog
  import RoundTrip
  import W = WatchdogRaces

  const QuietSpan := Named("quiet_span")

  // ----- the four claim fields ----------------------------------------------------------------

  function OptNum(n: Option<int>): Json {
    if n.Some? then Num(n.value) else Null
  }

  function OptBool(b: Option<bool>): Json {
    if b.Some? then Bool(b.value) else Null
  }

  function SampleJson(s: Sample): Json {
    Obj(map[Ts := OptNum(s.ts), Named("cpu") := Real(s.cpu)])
  }

  function SamplesJson(samples: seq<Sample>): Json {
    Arr(seq(|samples|, i requires 0 <= i < |samples| => SampleJson(samples[i])))
  }

  function OptSamples(samples: Option<seq<Sample>>): Json {
    if samples.Some? then SamplesJson(samples.value) else Null
  }

  function SpanJson(until: Option<int>): Json {
    if until.Some? then Obj(map[Named("expires_at") := Num(until.value)]) else Null
  }

  /** The claim's fields are what the protocol's state says. */
  predicate Shows(claim: Doc, w: W.Watch) {
    && Get(claim, CpuSamples) == OptSamples(w.samples)
    && Get(claim, ActiveToolStartedAt) == OptNum(w.marker)
    && Get(claim, WorkerIdleNotified) == OptBool(w.notified)
    && Get(claim, QuietSpan) == SpanJson(w.quiet)
  }

  lemma SampleReads(s: Sample, t: Sample)
    ensures SampleJson(s) == SampleJson(t) <==> s == t
  {
    if SampleJson(s) == SampleJson(t) {
      assert SampleJson(s).fields[Ts] == SampleJson(t).fields[Ts];
      assert SampleJson(s).fields[Named("cpu")] == SampleJson(t).fields[Named("cpu")];
    }
  }

  lemma SamplesRead(a: Option<seq<Sample>>, b: Option<seq<Sample>>)
    ensures OptSamples(a) == OptSamples(b) <==> a == b
  {
    if OptSamples(a) == OptSamples(b) && a.Some? && b.Some? {
      var xs, ys := SamplesJson(a.value).items, SamplesJson(b.value).items;
      assert |a.value| == |xs| == |ys| == |b.value|;
      forall i | 0 <= i < |a.value|
        ensures a.value[i] == b.value[i]
      {
        assert xs[i] == ys[i];
        SampleReads(a.value[i], b.value[i]);
      }
      assert a.value == b.value;
    }
  }

  lemma SpanReads(a: Option<int>, b: Option<int>)
    ensures SpanJson(a) == SpanJson(b) <==> a == b
  {
    if SpanJson(a) == SpanJson(b) && a.Some? && b.Some? {
      assert SpanJson(a).fields[Named("expires_at")] == SpanJson(b).fields[Named("expires_at")];
    }
  }

  // ----- a tick's preconditions and delta -------------------------------------------------------

  function PreOf(t: W.Tick, c: W.Params): TickPreconditions {
    var sampled := if t.cpu.Some? then map[CpuSamples := OptSamples(t.seen)] else map[];
    var judged :=
      if W.Wants(t, c)
      then map[ActiveToolStartedAt := OptNum(t.marker), QuietSpan := SpanJson(t.quiet),
        WorkerIdleNotified := OptBool(t.notified)]
      else map[];
    TickPreconditions(Unchecked, None, sampled + judged, map[], Null)
  }

  function UpdatesOf(t: W.Tick, c: W.Params): Doc {
    (if t.cpu.Some? then map[CpuSamples := SamplesJson(W.Judged(t, c))] else map[])
    + (if W.Wants(t, c) then map[WorkerIdleNotified := Bool(true), WorkerIdleNotifiedAt := Num(t.at)] else map[])
  }

  function IdleEvent(at: int): NewEvent {
    NewEvent(at, OtherKind("worker_idle"), map[])
  }

  function ReportOf(t: W.Tick, c: W.Params): seq<NewEvent> {
    if W.Wants(t, c) then [IdleEvent(t.at)] else []
  }

  function DeltaOf(t: W.Tick, c: W.Params, token: string): TickDelta {
    TickDelta(UpdatesOf(t, c), Some(token), [], false, None, ReportOf(t, c), None, 0, None)
  }

  /** A tick that took no sample and reports nothing opens no transaction. */
  predicate Idles(t: W.Tick, c: W.Params) {
    t.cpu.None? && !W.Wants(t, c)
  }

  // ----- moves as operations ------------------------------------------------------------------------

  /** The operation a move runs, if it runs one. */
  function OpOf(w: W.Watch, m: W.Move, c: W.Params, token: string, phase: string): Option<Op> {
    match m
    case ToolStart(at) => Some(Activity(token, phase, "start", at))
    case ToolEnd => Some(Activity(token, phase, "end", w.clock))
    case Declare(until) => Some(StampClaimFields(token, map[QuietSpan := SpanJson(until)], Some(phase), None, []))
    case Observe(_, _, _) => None
    case Apply(id, at) =>
      if id !in w.ticks || Idles(w.ticks[id], c) then None
      else Some(ApplyTick(PreOf(w.ticks[id], c), DeltaOf(w.ticks[id], c, token), at, ""))
  }

  /** The plan's claim is held by this worker and shows the protocol's state. */
  predicate Carries(p: Plan, w: W.Watch, token: string, phase: string) {
    Holds(p, token, Some(phase)) && Shows(p.claim.value, w)
  }

  /** What a move logs: one report when it alarms, and nothing otherwise. */
  function LoggedBy(w: W.Watch, m: W.Move, c: W.Params): seq<NewEvent> {
    if m.Apply? && W.Alarms(w, m.tick, c) then [IdleEvent(w.ticks[m.tick].at)] else []
  }

  /** `q` carries the next state, and logged what the move logs. */
  predicate Plays(p: Plan, last: int, q: Plan, w: W.Watch, m: W.Move, c: W.Params, token: string, phase: string) {
    && Carries(q, W.Next(w, m, c), token, phase)
    && q.archive == p.archive && q.events == p.events + Stamp(last, LoggedBy(w, m, c))
  }

  lemma SetReads(p: Plan, fields: Doc, k: Key)
    requires p.claim.Some?
    ensures SetClaim(p, fields).claim.Some?
    ensures Get(SetClaim(p, fields).claim.value, k) == if k in fields then fields[k] else Get(p.claim.value, k)
  {
    RoundTrip.NormalClaimKeeps(p.claim.value + fields, k);
    hide NormalClaim;
  }

  /** Setting fields that are not the holder's keeps the claim's holder. */
  lemma SetKeepsHolder(p: Plan, fields: Doc, token: string, phase: string)
    requires Holds(p, token, Some(phase)) && ClaimedBy !in fields && PhaseId !in fields
    ensures Holds(SetClaim(p, fields), token, Some(phase))
  {
    SetReads(p, fields, ClaimedBy);
    SetReads(p, fields, PhaseId);
    hide SetClaim;
  }

  /** A claim with these fields set shows the state they say. */
  lemma SetShows(p: Plan, fields: Doc, w: W.Watch, v: W.Watch, token: string, phase: string)
    requires Carries(p, w, token, phase) && ClaimedBy !in fields && PhaseId !in fields
    requires OptSamples(v.samples) == if CpuSamples in fields then fields[CpuSamples] else OptSamples(w.samples)
    requires OptNum(v.marker) == if ActiveToolStartedAt in fields then fields[ActiveToolStartedAt] else OptNum(w.marker)
    requires OptBool(v.notified) == if WorkerIdleNotified in fields then fields[WorkerIdleNotified] else OptBool(w.notified)
    requires SpanJson(v.quiet) == if QuietSpan in fields then fields[QuietSpan] else SpanJson(w.quiet)
    ensures Carries(SetClaim(p, fields), v, token, phase)
  {
    SetKeepsHolder(p, fields, token, phase);
    SetReads(p, fields, CpuSamples);
    SetReads(p, fields, ActiveToolStartedAt);
    SetReads(p, fields, WorkerIdleNotified);
    SetReads(p, fields, QuietSpan);
    hide SetClaim, OptSamples, OptNum, OptBool, SpanJson, Holds;
  }

  // ----- each operation plays its move ---------------------------------------------------------------

  lemma ToolPlays(p: Plan, last: int, w: W.Watch, m: W.Move, c: W.Params, token: string, phase: string)
    requires Carries(p, w, token, phase) && (m.ToolStart? || m.ToolEnd?)
    ensures var e := PlanEffect(p, last, OpOf(w, m, c, token, phase).value);
            e.Commit? && Plays(p, last, e.plan, w, m, c, token, phase)
  {
    var fields := if m.ToolStart? then ActivityFields("start", m.at) else ActivityFields("end", w.clock);
    assert SamplesJson([]) == Arr([]);
    SetShows(p, fields, w, W.Next(w, m, c), token, phase);
    assert p.events + [] == p.events;
    hide SetClaim, Shows, OptSamples;
  }

  lemma DeclarePlays(p: Plan, last: int, w: W.Watch, m: W.Move, c: W.Params, token: string, phase: string)
    requires Carries(p, w, token, phase) && m.Declare?
    ensures var e := PlanEffect(p, last, OpOf(w, m, c, token, phase).value);
            e.Commit? && e.last == last && Plays(p, last, e.plan, w, m, c, token, phase)
  {
    SetShows(p, map[QuietSpan := SpanJson(m.until)], w, W.Next(w, m, c), token, phase);
    hide SetClaim, Shows, OptSamples, SpanJson;
  }

  /** What the preconditions ask of a claim, field by field. */
  lemma PreReads(p: Plan, t: W.Tick, c: W.Params)
    requires p.claim.Some?
    ensures Preconditions(p, PreOf(t, c)) <==>
              && (t.cpu.Some? ==> Get(p.claim.value, CpuSamples) == OptSamples(t.seen))
              && (W.Wants(t, c) ==>
                    && Get(p.claim.value, ActiveToolStartedAt) == OptNum(t.marker)
                    && Get(p.claim.value, QuietSpan) == SpanJson(t.quiet)
                    && Get(p.claim.value, WorkerIdleNotified) == OptBool(t.notified))
  {
    hide OptSamples, OptNum, OptBool, SpanJson, W.Wants, Get;
    var fields := PreOf(t, c).expectClaimFields;
    assert t.cpu.Some? ==> CpuSamples in fields && fields[CpuSamples] == OptSamples(t.seen);
    assert W.Wants(t, c) ==>
        && ActiveToolStartedAt in fields && fields[ActiveToolStartedAt] == OptNum(t.marker)
        && QuietSpan in fields && fields[QuietSpan] == SpanJson(t.quiet)
        && WorkerIdleNotified in fields && fields[WorkerIdleNotified] == OptBool(t.notified);
  }

  /** The tick's preconditions pass on the claim exactly when the protocol says
      it commits. */
  lemma PassesIffCommits(p: Plan, w: W.Watch, id: nat, c: W.Params, token: string, phase: string)
    requires Carries(p, w, token, phase) && id in w.ticks
    ensures Preconditions(p, PreOf(w.ticks[id], c)) <==> W.Commits(w, id, c)
  {
    var t := w.ticks[id];
    PreReads(p, t, c);
    SamplesRead(t.seen, w.samples);
    SpanReads(t.quiet, w.quiet);
    assert OptNum(t.marker) == OptNum(w.marker) <==> t.marker == w.marker;
    assert OptBool(t.notified) == OptBool(w.notified) <==> t.notified == w.notified;
    hide OptSamples, OptNum, OptBool, SpanJson, W.Wants, Holds, Preconditions, PreOf;
  }

  lemma UpdatesShow(p: Plan, w: W.Watch, id: nat, at: int, c: W.Params, token: string, phase: string)
    requires Carries(p, w, token, phase) && W.Commits(w, id, c)
    ensures Carries(SetClaim(p, UpdatesOf(w.ticks[id], c)), W.Next(w, W.Apply(id, at), c), token, phase)
  {
    var fields := UpdatesOf(w.ticks[id], c);
    hide W.Wants, W.Judged, OptSamples, SpanJson, SetClaim, Holds;
    OptSome(W.Judged(w.ticks[id], c));
    SetShows(p, fields, w, W.Next(w, W.Apply(id, at), c), token, phase);
  }

  /** A delta that only updates the claim it saw, and logs. */
  lemma ClaimOnlyTick(p: Plan, last: int, pre: TickPreconditions, d: TickDelta, now: int, minted: string)
    requires p.claim.Some? && d.claimToken.Some? && Get(p.claim.value, ClaimedBy) == Str(d.claimToken.value)
    requires d == TickDelta(d.claimUpdates, d.claimToken, [], false, None, d.events, None, 0, None) && d.claimUpdates != map[]
    ensures PlanEffect(p, last, ApplyTick(pre, d, now, minted)) ==
              if Preconditions(p, pre) then Log(SetClaim(p, d.claimUpdates), last, d.events, Null) else Raise(TickConflict)
  {
    hide Preconditions, NormalClaim, Stamp;
  }

  lemma ApplyPlays(p: Plan, last: int, w: W.Watch, m: W.Move, c: W.Params, token: string, phase: string)
    requires Carries(p, w, token, phase) && m.Apply? && OpOf(w, m, c, token, phase).Some?
    ensures var e := PlanEffect(p, last, OpOf(w, m, c, token, phase).value);
            if W.Commits(w, m.tick, c) then e.Commit? && Plays(p, last, e.plan, w, m, c, token, phase)
            else e == Raise(TickConflict)
  {
    var t := w.ticks[m.tick];
    PassesIffCommits(p, w, m.tick, c, token, phase);
    var fields := UpdatesOf(t, c);
    assert fields != map[] by { assert (if t.cpu.Some? then CpuSamples else WorkerIdleNotified) in fields; }
    ClaimOnlyTick(p, last, PreOf(t, c), DeltaOf(t, c, token), m.at, "");
    hide PlanEffect, PreOf, UpdatesOf, SetClaim, Preconditions, W.Wants, W.Judged, Shows;
    if W.Commits(w, m.tick, c) {
      UpdatesShow(p, w, m.tick, m.at, c, token, phase);
      SetKeepsLog(p, fields);
      assert W.Apply(m.tick, m.at) == m;
    }
    hide W.Next;
  }

  lemma SetKeepsLog(p: Plan, fields: Doc)
    requires p.claim.Some?
    ensures SetClaim(p, fields).events == p.events && SetClaim(p, fields).archive == p.archive
  {
  }

  lemma OptSome(samples: seq<Sample>)
    ensures OptSamples(Some(samples)) == SamplesJson(samples)
  {
  }

  // ----- runs ---------------------------------------------------------------------------------------

  /** The calls of one move: one, or none. */
  function CallsOf(w: W.Watch, m: W.Move, c: W.Params, slug: string, token: string, phase: string): seq<Call> {
    var op := OpOf(w, m, c, token, phase);
    if op.Some? then [Call(slug, op.value)] else []
  }

  function Calls(w: W.Watch, ms: seq<W.Move>, c: W.Params, slug: string, token: string, phase: string): seq<Call>
    decreases |ms|
  {
    if ms == [] then []
    else CallsOf(w, ms[0], c, slug, token, phase) + Calls(W.Next(w, ms[0], c), ms[1..], c, slug, token, phase)
  }

  function AlarmTime(w: W.Watch, m: W.Move, c: W.Params): seq<int> {
    if m.Apply? && W.Alarms(w, m.tick, c) then [w.ticks[m.tick].at] else []
  }

  /** When a run of moves alarms, by the second its ticks judged. */
  function AlarmTimes(w: W.Watch, ms: seq<W.Move>, c: W.Params): seq<int>
    decreases |ms|
  {
    if ms == [] then [] else AlarmTime(w, ms[0], c) + AlarmTimes(W.Next(w, ms[0], c), ms[1..], c)
  }

  function ReportTimes(evs: seq<Event>): seq<int> {
    if evs == [] then []
    else
      var e := evs[|evs| - 1];
      ReportTimes(evs[..|evs| - 1]) + (if e.kind == OtherKind("worker_idle") then [e.ts] else [])
  }

  lemma {:induction false} ReportsConcat(xs: seq<Event>, ys: seq<Event>)
    ensures ReportTimes(xs + ys) == ReportTimes(xs) + ReportTimes(ys)
    decreases |ys|
  {
    if ys == [] {
      assert xs + ys == xs;
    } else {
      assert (xs + ys)[..|xs + ys| - 1] == xs + ys[..|ys| - 1];
      ReportsConcat(xs, ys[..|ys| - 1]);
    }
  }

  lemma OneReport(p: Plan, last: int, q: Plan, evs: seq<NewEvent>)
    requires q.archive == p.archive && q.events == p.events + Stamp(last, evs)
    requires |evs| <= 1 && forall e :: e in evs ==> e == IdleEvent(e.ts)
    ensures ReportTimes(History(q)) == ReportTimes(History(p)) + (if evs == [] then [] else [evs[0].ts])
  {
    Associative(p.archive, p.events, Stamp(last, evs));
    ReportsConcat(History(p), Stamp(last, evs));
    if evs != [] {
      assert evs[0] in evs;
      assert Stamp(last, evs)[..0] == [];
    }
  }

  lemma OpPlays(p: Plan, last: int, w: W.Watch, m: W.Move, c: W.Params, token: string, phase: string)
    requires Carries(p, w, token, phase) && OpOf(w, m, c, token, phase).Some?
    ensures var e := PlanEffect(p, last, OpOf(w, m, c, token, phase).value);
            if m.Apply? && !W.Commits(w, m.tick, c) then e == Raise(TickConflict)
            else e.Commit? && Plays(p, last, e.plan, w, m, c, token, phase)
  {
    match m {
      case ToolStart(_) => ToolPlays(p, last, w, m, c, token, phase);
      case ToolEnd => ToolPlays(p, last, w, m, c, token, phase);
      case Declare(_) => DeclarePlays(p, last, w, m, c, token, phase);
      case Apply(_, _) => ApplyPlays(p, last, w, m, c, token, phase);
      case Observe(_, _, _) =>
    }
  }

  /** A move that runs no operation changes nothing the claim shows, and does
      not alarm; nor does a tick that conflicts. */
  lemma IdleMoveShows(p: Plan, w: W.Watch, m: W.Move, c: W.Params, token: string, phase: string)
    requires Carries(p, w, token, phase)
    requires OpOf(w, m, c, token, phase).None? || (m.Apply? && !W.Commits(w, m.tick, c))
    ensures Carries(p, W.Next(w, m, c), token, phase) && LoggedBy(w, m, c) == []
  {
    hide W.Wants, W.Judged, Holds, OptSamples, SpanJson;
  }

  lemma MoveIsCall(db: Db, w: W.Watch, m: W.Move, c: W.Params, slug: string, token: string, phase: string)
    requires AcceptedSlug(slug) && slug in db.plans && Carries(db.plans[slug], w, token, phase)
    ensures var later := Run(db, CallsOf(w, m, c, slug, token, phase));
            && slug in later.plans && Carries(later.plans[slug], W.Next(w, m, c), token, phase)
            && ReportTimes(History(later.plans[slug])) == ReportTimes(History(db.plans[slug])) + AlarmTime(w, m, c)
  {
    var p, op := db.plans[slug], OpOf(w, m, c, token, phase);
    if op.Some? {
      var call := Call(slug, op.value);
      assert [call][1..] == [] && Run(db, [call]) == Run(After(db, call), []);
      assert Carries(Bumped(p), w, token, phase);
      OpPlays(Bumped(p), db.last, w, m, c, token, phase);
      OpAdmitted(w, m, c, slug, token, phase);
    }
    hide PlanEffect, OpOf, W.Next, W.Commits, Carries;
    if op.None? || (m.Apply? && !W.Commits(w, m.tick, c)) {
      IdleMoveShows(p, w, m, c, token, phase);
    } else {
      OneReport(Bumped(p), db.last, After(db, Call(slug, op.value)).plans[slug], LoggedBy(w, m, c));
      BumpedSameLog(p);
    }
  }

  lemma OpAdmitted(w: W.Watch, m: W.Move, c: W.Params, slug: string, token: string, phase: string)
    requires AcceptedSlug(slug) && OpOf(w, m, c, token, phase).Some?
    ensures var op := OpOf(w, m, c, token, phase).value;
            Refused(slug, op).None? && !op.Create?
  {
  }

  /** The protocol is the store's: a run of moves is a run of calls. After it the
      claim shows the state the protocol reached, and the reports in the log are
      its alarms, in order, each once. */
  lemma {:induction false} RacesRunOnTheStore(db: Db, w: W.Watch, ms: seq<W.Move>, c: W.Params, slug: string, token: string,
          phase: string)
    requires AcceptedSlug(slug) && slug in db.plans && Carries(db.plans[slug], w, token, phase)
    ensures var later := Run(db, Calls(w, ms, c, slug, token, phase));
            && slug in later.plans && Carries(later.plans[slug], W.Run(w, ms, c), token, phase)
            && ReportTimes(History(later.plans[slug])) == ReportTimes(History(db.plans[slug])) + AlarmTimes(w, ms, c)
    decreases |ms|
  {
    if ms != [] {
      MoveIsCall(db, w, ms[0], c, slug, token, phase);
      var first := CallsOf(w, ms[0], c, slug, token, phase);
      var next := Run(db, first);
      hide Carries, CallsOf, W.Next, ReportTimes, History, AcceptedSlug, AlarmTime;
      var v := W.Next(w, ms[0], c);
      RacesRunOnTheStore(next, v, ms[1..], c, slug, token, phase);
      RunSplit(db, first, Calls(v, ms[1..], c, slug, token, phase));
      Associative(ReportTimes(History(db.plans[slug])), AlarmTime(w, ms[0], c), AlarmTimes(v, ms[1..], c));
    }
  }

  /** A claim fresh from a dispatch shows the protocol's first state. */
  lemma DispatchShowsNewClaim(phase: string, minted: string, now: int, lease: int, attempts: Option<int>, clock: int)
    ensures Shows(NormalClaim(MintedClaim(phase, minted, now, lease, attempts)), W.NewClaim(clock))
  {
  }
}
