/** The event log over whole runs: what the hot table and the archive hold,
    when two hot logs are the same, and what a polling reader sees. */
module EventLog {
  import opened Values
  import opened PlanDoc
  import opened PlanOps

  // ----- runs -------------------------------------------------------------------

  datatype Call = Call(slug: string, op: Op)

  function After(db: Db, c: Call): Db {
    Step(db, c.slug, c.op).db
  }

  predicate Commits(db: Db, c: Call) {
    Step(db, c.slug, c.op).result.Ok?
  }

  function Run(db: Db, calls: seq<Call>): Db
    decreases |calls|
  {
    if calls == [] then db else Run(After(db, calls[0]), calls[1..])
  }

  lemma {:induction false} RunSplit(db: Db, xs: seq<Call>, ys: seq<Call>)
    ensures Run(db, xs + ys) == Run(Run(db, xs), ys)
    decreases |xs|
  {
    if xs == [] {
      assert xs + ys == ys;
    } else {
      assert (xs + ys)[1..] == xs[1..] + ys;
      RunSplit(After(db, xs[0]), xs[1..], ys);
    }
  }

  // ----- the log of a plan --------------------------------------------------------

  /** Archived rows, then hot rows. */
  function History(p: Plan): seq<Event> {
    p.archive + p.events
  }

  /** Ids are positive, never above the counter, and strictly increase from
      the oldest archived row to the newest hot one. */
  predicate Logged(p: Plan, last: int) {
    && (forall i :: 0 <= i < |History(p)| ==> 0 < History(p)[i].id <= last)
    && (forall i, j :: 0 <= i < j < |History(p)| ==> History(p)[i].id < History(p)[j].id)
  }

  predicate WellLogged(db: Db) {
    db.last >= 0 && forall s :: s in db.plans ==> Logged(db.plans[s], db.last)
  }

  /** `q` is a later state of the same plan: its history extends, and what
      left the hot table left it whole. */
  predicate Follows(p: Plan, q: Plan) {
    && History(p) <= History(q)
    && (|q.archive| == |p.archive| || |q.archive| >= |History(p)|)
    && |p.archive| <= |q.archive|
  }

  lemma FollowsTransitive(p: Plan, q: Plan, r: Plan)
    requires Follows(p, q) && Follows(q, r)
    ensures Follows(p, r)
  {
  }

  /** What a committed call adds to its plan's log, read off its arguments. */
  function EventsOf(p: Plan, op: Op): seq<NewEvent> {
    match op
    case Create(doc) => doc.events
    case StampClaimFields(_, _, _, ifUnset, events) =>
      if ifUnset.Some? && p.claim.Some? && Truthy(GuardValue(p.claim.value, ifUnset.value)) then [] else events
    case AppendEvents(events, _, _) => events
    case ReleaseClaim(_, _, events) => events
    case StampAttestation(_, _, _, _, _, events) => events
    case AddBlocker(phase, question, _, _, _, _, _, ts) =>
      [BlockedEvent(ts, phase, MintId("q-", |p.blockers| + 1), question)]
    case AnswerBlocker(blocker, answer, ts) =>
      var i := Find(p.blockers, Str(blocker));
      if i == |p.blockers| then []
      else match ResolveAnswer(Get(p.blockers[i], Options), answer) {
        case None => []
        case Some(resolved) => [NewEvent(ts, BlockerAnswered, map[BlockerId := Str(blocker), Answer := resolved])]
      }
    case SpawnTask(task, _, _, _, ts) =>
      [NewEvent(ts, TaskSpawned, map[Task := MintId("task-", |p.tasks| + 1), Source := Get(task, Source),
                                     SpawnedByPhase := Get(task, SpawnedByPhase)])]
    case CompleteTask(taskId, _, _, _, events) =>
      var i := Find(p.tasks, Str(taskId));
      if i < |p.tasks| && Get(p.tasks[i], Status) == Str("done") then [] else events
    case SetStatus(_, events, _, _) => events
    case RefuseAttestation(phase, gate, headSha, ts) =>
      (match AsObject(if p.claim.Some? then p.claim.value else map[], Attestations)
       case None => []
       case Some(a) =>
         var stamped := StampedSha(a, Named(gate));
         if stamped.None? || stamped.value == Str(headSha) then []
         else [NewEvent(ts, AttestationRefused, map[Phase := Str(phase), Gate := Str(gate),
                                                    StampedAt := stamped.value, HeadSha := Str(headSha)])])
    case SetFields(_, _, events) => events
    case ExtendLease(phase, minutes, now) =>
      var expires := Num(LeaseBase(if p.claim.None? then Null else Get(p.claim.value, LeaseExpires), now) + 60 * minutes);
      [NewEvent(now, LeaseExtended, map[Phase := Str(phase), ExtendedBy := Num(minutes), NewExpires := expires,
        Operator := Bool(true)])]
    case ApplyTick(_, delta, now, minted) =>
      delta.events + (if delta.claimPhase.None? then [] else [StartedEvent(now, delta.claimPhase.value, minted)])
    case _ => []
  }

  /** `e` appends exactly `evs` to the hot log, and archives nothing. */
  predicate Appends(p: Plan, last: int, e: Effect, evs: seq<NewEvent>) {
    e.Commit? ==>
      && e.last == last + |evs|
      && e.plan.archive == p.archive
      && e.plan.events == p.events + Stamp(last, evs)
  }

  lemma ClaimOpsAppend(p: Plan, last: int, op: Op)
    requires op.Heartbeat? || op.Activity? || op.StampClaimFields? || op.StampAttestation? || op.ExtendLease?
        || op.RefuseAttestation?
    ensures Appends(p, last, PlanEffect(p, last, op), EventsOf(p, op))
  {
  }

  lemma AddBlockerAppends(p: Plan, last: int, op: Op)
    requires op.AddBlocker?
    ensures Appends(p, last, PlanEffect(p, last, op), EventsOf(p, op))
  {
    hide NormalBlocker, FreshBlocker, BlockedEvent, Collides, MintId, Stamp;
  }

  lemma BlockerOpsAppend(p: Plan, last: int, op: Op)
    requires op.AnswerBlocker? || op.StampBlockerMetadata?
    ensures Appends(p, last, PlanEffect(p, last, op), EventsOf(p, op))
  {
  }

  lemma PlainOpsAppend(p: Plan, last: int, op: Op)
    requires op.AppendEvents? || op.ReleaseClaim? || op.SpawnTask? || op.CompleteTask? || op.SetStatus? || op.SetFields?
        || op.Create?
    ensures Appends(p, last, PlanEffect(p, last, op), EventsOf(p, op))
  {
  }

  lemma TickAppends(p: Plan, last: int, op: Op)
    requires op.ApplyTick?
    ensures Appends(p, last, PlanEffect(p, last, op), EventsOf(p, op))
  {
    if op.delta.claimPhase.None? {
      assert EventsOf(p, op) == op.delta.events;
    }
  }

  /** A transaction body that commits either appends exactly `EventsOf` to the
      hot log, or moves the whole hot log into the archive. */
  lemma EffectLogs(p: Plan, last: int, op: Op)
    requires PlanEffect(p, last, op).Commit?
    ensures op.ArchiveEvents? ==> PlanEffect(p, last, op) == ArchiveEventsEffect(p, last)
    ensures !op.ArchiveEvents? ==> Appends(p, last, PlanEffect(p, last, op), EventsOf(p, op))
  {
    match op {
      case Heartbeat(_, _, _) => ClaimOpsAppend(p, last, op);
      case Activity(_, _, _, _) => ClaimOpsAppend(p, last, op);
      case StampClaimFields(_, _, _, _, _) => ClaimOpsAppend(p, last, op);
      case StampAttestation(_, _, _, _, _, _) => ClaimOpsAppend(p, last, op);
      case ExtendLease(_, _, _) => ClaimOpsAppend(p, last, op);
      case RefuseAttestation(_, _, _, _) => ClaimOpsAppend(p, last, op);
      case AddBlocker(_, _, _, _, _, _, _, _) => AddBlockerAppends(p, last, op);
      case AnswerBlocker(_, _, _) => BlockerOpsAppend(p, last, op);
      case StampBlockerMetadata(_, _, _) => BlockerOpsAppend(p, last, op);
      case ApplyTick(_, _, _, _) => TickAppends(p, last, op);
      case ArchiveEvents =>
      case _ => PlainOpsAppend(p, last, op);
    }
  }

  // ----- every step, every run -------------------------------------------------------

  lemma StampIds(last: int, evs: seq<NewEvent>, i: nat)
    requires i < |evs|
    ensures Stamp(last, evs)[i].id == last + 1 + i
  {
  }

  lemma AppendLogged(p: Plan, last: int, evs: seq<NewEvent>, q: Plan)
    requires Logged(p, last) && last >= 0
    requires q.archive == p.archive && q.events == p.events + Stamp(last, evs)
    ensures Logged(q, last + |evs|) && Follows(p, q)
  {
    var n := |History(p)|;
    assert History(q) == History(p) + Stamp(last, evs);
    forall i | n <= i < |History(q)|
      ensures History(q)[i].id == last + 1 + (i - n)
    {
      StampIds(last, evs, i - n);
    }
  }

  /** One transaction body keeps the log well formed and only extends it. */
  lemma EffectFollows(p: Plan, last: int, op: Op)
    requires Logged(p, last) && last >= 0
    requires PlanEffect(p, last, op).Commit?
    ensures var e := PlanEffect(p, last, op);
            e.last >= last && Logged(e.plan, e.last) && Follows(p, e.plan)
  {
    EffectLogs(p, last, op);
    var e := PlanEffect(p, last, op);
    if op.ArchiveEvents? {
      assert History(e.plan) == History(p);
    } else {
      AppendLogged(p, last, EventsOf(p, op), e.plan);
    }
  }

  lemma CreateLogged(last: int, doc: NewPlan)
    requires last >= 0 && CreateEffect(last, doc).Commit?
    ensures var e := CreateEffect(last, doc);
            && e.last == last + |doc.events| && Logged(e.plan, e.last)
            && e.plan.archive == [] && e.plan.events == Stamp(last, doc.events)
  {
    var e := CreateEffect(last, doc);
    var empty := e.plan.(events := [], archive := []);
    assert [] + Stamp(last, doc.events) == Stamp(last, doc.events);
    AppendLogged(empty, last, doc.events, e.plan);
  }

  lemma BumpedSameLog(p: Plan)
    ensures History(Bumped(p)) == History(p)
    ensures forall last :: Logged(p, last) ==> Logged(Bumped(p), last)
    ensures forall q :: Follows(Bumped(p), q) ==> Follows(p, q)
  {
  }

  /** One call keeps every log well formed, never lowers the counter, and
      leaves every plan at a state that follows its own. */
  lemma StepFollows(db: Db, c: Call)
    requires WellLogged(db)
    ensures WellLogged(After(db, c)) && After(db, c).last >= db.last
    ensures forall s :: s in db.plans ==> s in After(db, c).plans && Follows(db.plans[s], After(db, c).plans[s])
  {
    var o := Step(db, c.slug, c.op);
    if o.result.Ok? {
      if c.op.Create? {
        CreateLogged(db.last, c.op.doc);
      } else {
        BumpedSameLog(db.plans[c.slug]);
        EffectFollows(Bumped(db.plans[c.slug]), db.last, c.op);
      }
    }
  }

  lemma {:induction false} RunFollows(db: Db, calls: seq<Call>)
    requires WellLogged(db)
    ensures WellLogged(Run(db, calls)) && Run(db, calls).last >= db.last
    ensures forall s :: s in db.plans ==> s in Run(db, calls).plans && Follows(db.plans[s], Run(db, calls).plans[s])
    decreases |calls|
  {
    if calls != [] {
      var next := After(db, calls[0]);
      StepFollows(db, calls[0]);
      RunFollows(next, calls[1..]);
      forall s | s in db.plans
        ensures Follows(db.plans[s], Run(db, calls).plans[s])
      {
        FollowsTransitive(db.plans[s], next.plans[s], Run(db, calls).plans[s]);
      }
    }
  }

  // ----- the ghost list of everything ever appended -------------------------------------

  /** What one call appended to this plan's log. */
  function AppendedBy(db: Db, c: Call, slug: string): seq<Event> {
    if c.slug != slug || !Commits(db, c) then []
    else if slug in db.plans then Stamp(db.last, EventsOf(db.plans[slug], c.op))
    else Stamp(db.last, EventsOf(Plan(0, map[], None, [], [], [], []), c.op))
  }

  function Appended(db: Db, calls: seq<Call>, slug: string): seq<Event>
    decreases |calls|
  {
    if calls == [] then []
    else AppendedBy(db, calls[0], slug) + Appended(After(db, calls[0]), calls[1..], slug)
  }

  function HistoryOf(db: Db, slug: string): seq<Event> {
    if slug in db.plans then History(db.plans[slug]) else []
  }

  /** The version bump does not change what a call logs. */
  lemma BumpedSameEvents(p: Plan, op: Op)
    ensures EventsOf(Bumped(p), op) == EventsOf(p, op)
  {
  }

  lemma StepHistory(db: Db, c: Call, slug: string)
    requires WellLogged(db)
    ensures HistoryOf(After(db, c), slug) == HistoryOf(db, slug) + AppendedBy(db, c, slug)
  {
    if c.slug == slug && Commits(db, c) {
      if c.op.Create? {
        CreateLogged(db.last, c.op.doc);
      } else {
        var p := db.plans[slug];
        EffectLogs(Bumped(p), db.last, c.op);
        BumpedSameEvents(p, c.op);
        BumpedSameLog(p);
        if c.op.ArchiveEvents? {
          assert AppendedBy(db, c, slug) == [];
        }
      }
    }
  }

  lemma Associative<T>(a: seq<T>, b: seq<T>, c: seq<T>)
    ensures (a + b) + c == a + (b + c)
  {
  }

  /** Archive followed by hot is exactly every event ever appended, in order. */
  lemma {:induction false} HistoryIsEverythingAppended(db: Db, calls: seq<Call>, slug: string)
    requires WellLogged(db)
    ensures HistoryOf(Run(db, calls), slug) == HistoryOf(db, slug) + Appended(db, calls, slug)
    decreases |calls|
  {
    if calls != [] {
      StepFollows(db, calls[0]);
      StepHistory(db, calls[0], slug);
      var next := After(db, calls[0]);
      HistoryIsEverythingAppended(next, calls[1..], slug);
      Associative(HistoryOf(db, slug), AppendedBy(db, calls[0], slug), Appended(next, calls[1..], slug));
    }
  }

  // ----- the dump ------------------------------------------------------------------------

  function InsertById(e: Event, sorted: seq<Event>): seq<Event> {
    if sorted == [] || e.id <= sorted[0].id then [e] + sorted
    else [sorted[0]] + InsertById(e, sorted[1..])
  }

  /** Stable sort on the row id. */
  function SortById(evs: seq<Event>): seq<Event> {
    if evs == [] then [] else InsertById(evs[0], SortById(evs[1..]))
  }

  /** `dump_json`'s events: the hot table alone, or both tables sorted by id. */
  function DumpEvents(p: Plan): seq<Event> {
    if p.archive == [] then p.events else SortById(p.archive + p.events)
  }

  lemma {:induction false} SortedStays(evs: seq<Event>)
    requires forall i, j :: 0 <= i < j < |evs| ==> evs[i].id < evs[j].id
    ensures SortById(evs) == evs
  {
    if evs != [] {
      SortedStays(evs[1..]);
      assert evs == [evs[0]] + evs[1..];
    }
  }

  /** What the operator dumps is the log the plan lived through, whatever was
      archived in between. */
  lemma DumpIsEverythingAppended(db: Db, calls: seq<Call>, slug: string)
    requires WellLogged(db) && slug !in db.plans && slug in Run(db, calls).plans
    ensures DumpEvents(Run(db, calls).plans[slug]) == Appended(db, calls, slug)
  {
    HistoryIsEverythingAppended(db, calls, slug);
    RunFollows(db, calls);
    var p := Run(db, calls).plans[slug];
    SortedStays(History(p));
    assert [] + p.events == p.events;
    assert [] + Appended(db, calls, slug) == Appended(db, calls, slug);
  }

  // ----- the high-water mark ------------------------------------------------------------------

  lemma PrefixParts<T>(a: seq<T>, b: seq<T>, c: seq<T>, d: seq<T>)
    requires a + b <= c + d && |a| == |c|
    ensures a == c && b <= d
  {
    assert forall i :: 0 <= i < |a| ==> a[i] == (a + b)[i] == (c + d)[i] == c[i];
    assert forall i :: 0 <= i < |b| ==> b[i] == (a + b)[|a| + i] == (c + d)[|a| + i] == d[i];
  }

  /** A later hot log extends the earlier one, or shares no row with it. */
  lemma LaterHot(p: Plan, q: Plan)
    requires Follows(p, q)
    ensures |q.archive| == |p.archive| ==> p.archive == q.archive && p.events <= q.events
    ensures |q.archive| != |p.archive| && q.events != [] ==> |History(q)| > |History(p)|
  {
    if |q.archive| == |p.archive| {
      PrefixParts(p.archive, p.events, q.archive, q.events);
    }
  }

  lemma MaxIdInHistory(p: Plan, last: int)
    requires Logged(p, last)
    ensures p.events == [] ==> MaxId(p.events) == 0
    ensures p.events != [] ==>
              0 < MaxId(p.events) <= last && History(p) != [] && MaxId(p.events) == History(p)[|History(p)| - 1].id
    ensures forall i :: 0 <= i < |p.events| ==> 0 < p.events[i].id <= MaxId(p.events)
  {
    HotIncreasing(p, last);
    forall i | 0 <= i < |p.events|
      ensures p.events[i] == History(p)[|p.archive| + i]
    {
    }
  }

  /** Two states of one plan with the same highest hot id have the same hot
      log: the single number a tick re-asserts stands for the whole log. */
  lemma SameHighWaterSameLog(p: Plan, q: Plan, last: int, last': int)
    requires Follows(p, q) && Logged(p, last) && Logged(q, last')
    ensures MaxId(p.events) == MaxId(q.events) <==> p.events == q.events
  {
    LaterHot(p, q);
    MaxIdInHistory(p, last);
    MaxIdInHistory(q, last');
    HotIncreasing(q, last');
    if |q.archive| == |p.archive| && |p.events| < |q.events| && p.events != [] {
      assert p.events[|p.events| - 1] == q.events[|p.events| - 1];
    }
    if |q.archive| != |p.archive| && q.events != [] && p.events != [] {
      var n := |History(p)|;
      assert History(p)[n - 1] == History(q)[n - 1];
    }
  }

  /** The same statement over any two states of one run. */
  lemma SameHighWaterInRun(db: Db, xs: seq<Call>, ys: seq<Call>, slug: string)
    requires WellLogged(db) && slug in Run(db, xs).plans
    ensures slug in Run(db, xs + ys).plans
    ensures var p, q := Run(db, xs).plans[slug], Run(db, xs + ys).plans[slug];
            MaxId(p.events) == MaxId(q.events) <==> p.events == q.events
  {
    RunSplit(db, xs, ys);
    RunFollows(db, xs);
    RunFollows(Run(db, xs), ys);
    var p, q := Run(db, xs).plans[slug], Run(db, xs + ys).plans[slug];
    SameHighWaterSameLog(p, q, Run(db, xs).last, Run(db, xs + ys).last);
  }

  // ----- the watcher -----------------------------------------------------------------------------

  /** `events_after`: the hot rows past the cursor. */
  function EventsAfter(evs: seq<Event>, cursor: int): seq<Event> {
    if evs == [] then []
    else if evs[0].id > cursor then [evs[0]] + EventsAfter(evs[1..], cursor)
    else EventsAfter(evs[1..], cursor)
  }

  function NextCursor(seen: seq<Event>, cursor: int): int {
    if seen == [] then cursor else seen[|seen| - 1].id
  }

  /** Everything a watcher receives, polling once after each batch of calls. */
  function Watched(db: Db, batches: seq<seq<Call>>, slug: string, cursor: int): seq<Event>
    decreases |batches|
  {
    if batches == [] then []
    else
      var now := Run(db, batches[0]);
      var seen := if slug in now.plans then EventsAfter(now.plans[slug].events, cursor) else [];
      seen + Watched(now, batches[1..], slug, NextCursor(seen, cursor))
  }

  predicate IncreasingAbove(evs: seq<Event>, cursor: int) {
    && (forall i :: 0 <= i < |evs| ==> evs[i].id > cursor)
    && (forall i, j :: 0 <= i < j < |evs| ==> evs[i].id < evs[j].id)
  }

  predicate Increasing(evs: seq<Event>) {
    forall i, j :: 0 <= i < j < |evs| ==> evs[i].id < evs[j].id
  }

  /** On an ordered log, past-the-cursor is a suffix. */
  lemma {:induction false} AfterIsSuffix(evs: seq<Event>, cursor: int) returns (k: nat)
    requires Increasing(evs)
    ensures k <= |evs| && EventsAfter(evs, cursor) == evs[k..]
    ensures forall i :: 0 <= i < k ==> evs[i].id <= cursor
    ensures forall i :: k <= i < |evs| ==> evs[i].id > cursor
  {
    k := 0;
    if evs != [] {
      var r := AfterIsSuffix(evs[1..], cursor);
      if evs[0].id > cursor {
        assert forall i :: 0 < i < |evs| ==> evs[i] == evs[1..][i - 1];
        assert r == 0;
        assert [evs[0]] + evs[1..] == evs;
      } else {
        assert forall i :: 0 < i < |evs| ==> evs[i] == evs[1..][i - 1];
        k := r + 1;
      }
    }
  }

  function Flatten(batches: seq<seq<Call>>): seq<Call> {
    if batches == [] then [] else batches[0] + Flatten(batches[1..])
  }

  lemma HotIncreasing(p: Plan, last: int)
    requires Logged(p, last)
    ensures Increasing(p.events)
  {
    assert forall i :: 0 <= i < |p.events| ==> p.events[i] == History(p)[|p.archive| + i];
  }

  lemma IncreasingTogether(seen: seq<Event>, rest: seq<Event>, cursor: int)
    requires IncreasingAbove(seen, cursor) && IncreasingAbove(rest, NextCursor(seen, cursor))
    ensures IncreasingAbove(seen + rest, cursor)
  {
  }

  /** A watcher never sees an event twice, never out of order, and its cursor
      never rewinds, whatever is archived under it. */
  lemma {:induction false} WatcherNeverRepeats(db: Db, batches: seq<seq<Call>>, slug: string, cursor: int)
    requires WellLogged(db)
    ensures IncreasingAbove(Watched(db, batches, slug, cursor), cursor)
    decreases |batches|
  {
    if batches != [] {
      var now := Run(db, batches[0]);
      RunFollows(db, batches[0]);
      var seen: seq<Event> := [];
      if slug in now.plans {
        HotIncreasing(now.plans[slug], now.last);
        var k := AfterIsSuffix(now.plans[slug].events, cursor);
        seen := EventsAfter(now.plans[slug].events, cursor);
      }
      WatcherNeverRepeats(now, batches[1..], slug, NextCursor(seen, cursor));
      IncreasingTogether(seen, Watched(now, batches[1..], slug, NextCursor(seen, cursor)), cursor);
    }
  }

  /** Reading a prefix and then the rest past its last id is reading it all. */
  lemma AfterInTwoReads(evs: seq<Event>, m: nat, cursor: int)
    requires m <= |evs| && Increasing(evs)
    ensures EventsAfter(evs, cursor)
         == EventsAfter(evs[..m], cursor) + EventsAfter(evs, NextCursor(EventsAfter(evs[..m], cursor), cursor))
  {
    var seen := EventsAfter(evs[..m], cursor);
    var k := AfterIsSuffix(evs[..m], cursor);
    var all := AfterIsSuffix(evs, cursor);
    var rest := AfterIsSuffix(evs, NextCursor(seen, cursor));
    assert forall i :: 0 <= i < m ==> evs[..m][i] == evs[i];
    if seen != [] {
      assert evs[all].id > cursor && evs[k].id > cursor;
      assert all == k;
      assert seen[|seen| - 1] == evs[m - 1];
      assert rest >= m && (rest < |evs| ==> evs[rest].id > evs[m - 1].id);
      assert rest == m by {
        assert m < |evs| ==> evs[m].id > evs[m - 1].id;
      }
      assert evs[k..] == evs[..m][k..] + evs[m..];
    }
  }

  lemma ReadInTwo(p: Plan, q: Plan, cursor: int)
    requires Follows(p, q) && |p.archive| == |q.archive| && Increasing(q.events)
    ensures EventsAfter(q.events, cursor)
         == EventsAfter(p.events, cursor) + EventsAfter(q.events, NextCursor(EventsAfter(p.events, cursor), cursor))
  {
    LaterHot(p, q);
    assert p.events == q.events[..|p.events|];
    AfterInTwoReads(q.events, |p.events|, cursor);
  }

  /** With no archival in between, a watcher misses nothing. */
  lemma {:induction false} WatcherMissesNothing(db: Db, batches: seq<seq<Call>>, slug: string, cursor: int)
    requires WellLogged(db) && slug in db.plans && batches != []
    requires slug in Run(db, Flatten(batches)).plans
    requires |Run(db, Flatten(batches)).plans[slug].archive| == |db.plans[slug].archive|
    ensures Watched(db, batches, slug, cursor) == EventsAfter(Run(db, Flatten(batches)).plans[slug].events, cursor)
    decreases |batches|
  {
    var now, end := Run(db, batches[0]), Run(db, Flatten(batches));
    RunSplit(db, batches[0], Flatten(batches[1..]));
    RunFollows(db, batches[0]);
    RunFollows(now, Flatten(batches[1..]));
    HotIncreasing(end.plans[slug], end.last);
    var seen := EventsAfter(now.plans[slug].events, cursor);
    if |batches| == 1 {
      assert seen + [] == seen;
    } else {
      var p, q := now.plans[slug], end.plans[slug];
      WatcherMissesNothing(now, batches[1..], slug, NextCursor(seen, cursor));
      ReadInTwo(p, q, cursor);
    }
  }
}
