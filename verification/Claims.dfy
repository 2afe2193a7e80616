/** Who holds a plan over whole runs: every live claim is named in the log, a
    token that lost its claim never works again, and a high-water mark admits
    one dispatch. */
module Claims {
  import opened Values
  import opened PlanDoc
  import opened PlanOps
  import opened EventLog
  import opened Ticks
  import opened HotWrites

  predicate Starts(e: Event, token: Json, phase: Json) {
    e.kind.PhaseStarted? && Get(e.payload, ClaimedBy) == token && Get(e.payload, Phase) == phase
  }

  /** Some start event, hot or archived, names this token for this phase. */
  predicate StartLogged(p: Plan, token: Json, phase: Json) {
    exists i :: 0 <= i < |History(p)| && Starts(History(p)[i], token, phase)
  }

  predicate UsedToken(p: Plan, token: Json) {
    exists i :: 0 <= i < |History(p)| && History(p)[i].kind.PhaseStarted? && Get(History(p)[i].payload, ClaimedBy) == token
  }

  predicate Live(p: Plan, token: string) {
    p.claim.Some? && Get(p.claim.value, ClaimedBy) == Str(token)
  }

  /** The claim row and the log agree on who is at work. */
  predicate ClaimLogged(p: Plan) {
    p.claim.Some? ==> StartLogged(p, Get(p.claim.value, ClaimedBy), Get(p.claim.value, PhaseId))
  }

  predicate IdentityFree(fields: Doc) {
    ClaimedBy !in fields && PhaseId !in fields
  }

  /** What the callers keep to: field writes leave the claim's identity alone,
      plans are created unclaimed, and a minted token is one no start event of
      the plan has named. */
  predicate Disciplined(p: Option<Plan>, op: Op) {
    match op
    case Create(doc) => doc.claim.None?
    case StampClaimFields(_, fields, _, _, _) => IdentityFree(fields)
    case ApplyTick(_, delta, _, minted) =>
      IdentityFree(delta.claimUpdates) && (delta.claimPhase.Some? && p.Some? ==> !UsedToken(p.value, Str(minted)))
    case _ => true
  }

  function PlanAt(db: Db, slug: string): Option<Plan> {
    if slug in db.plans then Some(db.plans[slug]) else None
  }

  predicate DisciplinedRun(db: Db, calls: seq<Call>)
    decreases |calls|
  {
    calls == [] ||
    (Disciplined(PlanAt(db, calls[0].slug), calls[0].op) && DisciplinedRun(After(db, calls[0]), calls[1..]))
  }

  predicate Dispatches(op: Op) {
    op.ApplyTick? && op.delta.claimPhase.Some?
  }

  // ----- what one step does to the claim --------------------------------------------------

  lemma MintedReads(op: Op)
    requires Dispatches(op)
    ensures var c := NormalClaim(MintedClaim(op.delta.claimPhase.value, op.minted, op.now, op.delta.leaseMinutes,
        op.delta.claimAttempts));
            Get(c, ClaimedBy) == Str(op.minted) && Get(c, PhaseId) == Str(op.delta.claimPhase.value)
  {
  }

  lemma TickClaim(p: Plan, last: int, op: Op)
    requires op.ApplyTick? && PlanEffect(p, last, op).Commit? && IdentityFree(op.delta.claimUpdates)
    ensures var q := PlanEffect(p, last, op).plan;
            if Dispatches(op) then ClaimIdentity(q) == Some((Str(op.minted), Str(op.delta.claimPhase.value)))
            else q.claim.Some? ==> ClaimIdentity(q) == ClaimIdentity(p)
  {
    hide UpdateBlockers, Stamp, Preconditions, StartedEvent;
    if Dispatches(op) { MintedReads(op); }
    hide NormalClaim, MintedClaim;
    if op.delta.claimUpdates != map[] {
      IdentityKept(p, op.delta.claimUpdates);
    }
  }

  /** A committed transaction keeps the claim's identity, drops the claim, or
      is a dispatch that mints a new one. */
  lemma ClaimAfter(p: Plan, last: int, op: Op)
    requires PlanEffect(p, last, op).Commit? && Disciplined(Some(p), op)
    ensures var q := PlanEffect(p, last, op).plan;
            if Dispatches(op) then ClaimIdentity(q) == Some((Str(op.minted), Str(op.delta.claimPhase.value)))
            else q.claim.Some? ==> ClaimIdentity(q) == ClaimIdentity(p)
  {
    hide IdentityFree, PlanEffect, SetClaim;
    match op {
      case ApplyTick(_, _, _, _) => TickClaim(p, last, op);
      case Heartbeat(_, _, _) => HotEffect(p, last, op); IdentityKept(p, HotFields(op));
      case Activity(_, _, _, _) => HotEffect(p, last, op); IdentityKept(p, HotFields(op));
      case StampClaimFields(_, _, _, _, _) => StampKeepsIdentity(p, last, op);
      case StampAttestation(_, _, _, _, _, _) => AttestationKeepsIdentity(p, last, op);
      case ExtendLease(_, _, _) => LeaseKeepsIdentity(p, last, op);
      case _ => OtherOpsKeepClaim(p, last, op);
    }
  }

  lemma StampKeepsIdentity(p: Plan, last: int, op: Op)
    requires op.StampClaimFields? && IdentityFree(op.fields) && PlanEffect(p, last, op).Commit?
    ensures ClaimIdentity(PlanEffect(p, last, op).plan) == ClaimIdentity(p)
  {
    hide NormalClaim, Stamp;
    IdentityKept(p, op.fields);
  }

  predicate FieldWrite(op: Op) {
    op.Heartbeat? || op.Activity? || op.StampClaimFields? || op.StampAttestation? || op.ExtendLease?
  }

  /** Every other transaction leaves the claim row as it is, or deletes it. */
  lemma OtherOpsKeepClaim(p: Plan, last: int, op: Op)
    requires PlanEffect(p, last, op).Commit? && !FieldWrite(op) && !op.ApplyTick?
    ensures var q := PlanEffect(p, last, op).plan; q.claim.Some? ==> q.claim == p.claim
  {
    hide Stamp, NormalBlocker, NormalTask, ResolveAnswer, MintId, Find, AsObject, Strings, FreshBlocker, StampedSha;
  }

  lemma AttestationKeepsIdentity(p: Plan, last: int, op: Op)
    requires op.StampAttestation? && PlanEffect(p, last, op).Commit?
    ensures ClaimIdentity(PlanEffect(p, last, op).plan) == ClaimIdentity(p)
  {
    var a := AsObject(p.claim.value, Attestations).value;
    IdentityKept(p, map[Attestations := Obj(a[Named(op.kind) := Obj(map[At := Num(op.ts), CommitSha := Str(op.sha)])])]);
  }

  lemma LeaseKeepsIdentity(p: Plan, last: int, op: Op)
    requires op.ExtendLease? && PlanEffect(p, last, op).Commit?
    ensures ClaimIdentity(PlanEffect(p, last, op).plan) == ClaimIdentity(p)
  {
    var expires := LeaseBase(Get(p.claim.value, LeaseExpires), op.now) + 60 * op.minutes;
    IdentityKept(p, map[LeaseExpires := Num(expires)]);
  }

  lemma HistoryKeeps(p: Plan, q: Plan, token: Json, phase: Json)
    requires History(p) <= History(q)
    ensures StartLogged(p, token, phase) ==> StartLogged(q, token, phase)
    ensures UsedToken(p, token) ==> UsedToken(q, token)
  {
    if StartLogged(p, token, phase) {
      var i :| 0 <= i < |History(p)| && Starts(History(p)[i], token, phase);
      assert History(q)[i] == History(p)[i];
    }
    if UsedToken(p, token) {
      var i :| 0 <= i < |History(p)| && History(p)[i].kind.PhaseStarted? && Get(History(p)[i].payload, ClaimedBy) == token;
      assert History(q)[i] == History(p)[i];
    }
  }

  /** A dispatch logs the start event that names its token. */
  lemma DispatchLogsStart(p: Plan, last: int, op: Op)
    requires Dispatches(op) && PlanEffect(p, last, op).Commit?
    ensures StartLogged(PlanEffect(p, last, op).plan, Str(op.minted), Str(op.delta.claimPhase.value))
  {
    TickAppends(p, last, op);
    EndsWithStart(p, op);
    var q, evs := PlanEffect(p, last, op).plan, EventsOf(p, op);
    StampedStart(last, evs, op.now, op.delta.claimPhase.value, op.minted);
    LastInHistory(p.archive, p.events, Stamp(last, evs));
    assert History(q) == p.archive + (p.events + Stamp(last, evs));
  }

  lemma EndsWithStart(p: Plan, op: Op)
    requires Dispatches(op)
    ensures var evs := EventsOf(p, op);
            evs != [] && evs[|evs| - 1] == StartedEvent(op.now, op.delta.claimPhase.value, op.minted)
  {
  }

  lemma StampedStart(last: int, evs: seq<NewEvent>, now: int, phase: string, minted: string)
    requires evs != [] && evs[|evs| - 1] == StartedEvent(now, phase, minted)
    ensures Starts(Stamp(last, evs)[|evs| - 1], Str(minted), Str(phase))
  {
    assert Stamp(last, evs)[|evs| - 1] == StampOne(last + |evs|, evs[|evs| - 1]);
  }

  lemma LastInHistory(a: seq<Event>, b: seq<Event>, c: seq<Event>)
    requires c != []
    ensures var h := a + (b + c); h[|h| - 1] == c[|c| - 1]
  {
  }

  predicate ClaimsLogged(db: Db) {
    WellLogged(db) && forall s :: s in db.plans ==> ClaimLogged(db.plans[s])
  }

  lemma BumpedSameClaim(p: Plan, op: Op)
    ensures ClaimIdentity(Bumped(p)) == ClaimIdentity(p)
    ensures Disciplined(Some(Bumped(p)), op) <==> Disciplined(Some(p), op)
  {
    assert History(Bumped(p)) == History(p);
  }

  lemma EffectKeepsClaimLogged(p: Plan, last: int, op: Op)
    requires PlanEffect(p, last, op).Commit? && Disciplined(Some(p), op)
    requires Logged(p, last) && last >= 0 && ClaimLogged(p)
    ensures ClaimLogged(PlanEffect(p, last, op).plan)
  {
    var q := PlanEffect(p, last, op).plan;
    ClaimAfter(p, last, op);
    EffectFollows(p, last, op);
    if Dispatches(op) {
      DispatchLogsStart(p, last, op);
    } else if q.claim.Some? {
      HistoryKeeps(p, q, Get(p.claim.value, ClaimedBy), Get(p.claim.value, PhaseId));
    }
  }

  lemma CreatedUnclaimed(last: int, doc: NewPlan)
    requires doc.claim.None? && CreateEffect(last, doc).Commit?
    ensures CreateEffect(last, doc).plan.claim.None?
  {
  }

  lemma StepKeepsClaimsLogged(db: Db, c: Call)
    requires ClaimsLogged(db) && Disciplined(PlanAt(db, c.slug), c.op)
    ensures ClaimsLogged(After(db, c))
  {
    StepFollows(db, c);
    if Commits(db, c) {
      if c.op.Create? {
        CreatedUnclaimed(db.last, c.op.doc);
      } else {
        var p := Bumped(db.plans[c.slug]);
        BumpedSameClaim(db.plans[c.slug], c.op);
        BumpedSameLog(db.plans[c.slug]);
        EffectKeepsClaimLogged(p, db.last, c.op);
      }
    }
  }

  /** In every reachable state each live claim's token and phase are named by
      a start event, hot or archived. */
  lemma {:induction false} LiveClaimsAreLogged(db: Db, calls: seq<Call>)
    requires ClaimsLogged(db) && DisciplinedRun(db, calls)
    ensures ClaimsLogged(Run(db, calls))
    decreases |calls|
  {
    if calls != [] {
      StepKeepsClaimsLogged(db, calls[0]);
      LiveClaimsAreLogged(After(db, calls[0]), calls[1..]);
    }
  }

  // ----- fencing -------------------------------------------------------------------------

  /** The token held this plan once and does not now. */
  predicate Retired(p: Plan, token: string) {
    UsedToken(p, Str(token)) && !Live(p, token)
  }

  /** A live token whose claim is released, expired or replaced is retired. */
  lemma LosingTheClaimRetires(db: Db, c: Call, slug: string, token: string)
    requires ClaimsLogged(db) && slug in db.plans && Live(db.plans[slug], token)
    requires slug in After(db, c).plans && !Live(After(db, c).plans[slug], token)
    ensures Retired(After(db, c).plans[slug], token)
  {
    StepFollows(db, c);
    var p := db.plans[slug];
    var i :| 0 <= i < |History(p)| && Starts(History(p)[i], Str(token), Get(p.claim.value, PhaseId));
    assert UsedToken(p, Str(token));
    HistoryKeeps(p, After(db, c).plans[slug], Str(token), Null);
  }

  lemma RetiredStays(db: Db, c: Call, slug: string, token: string)
    requires WellLogged(db) && slug in db.plans && Retired(db.plans[slug], token)
    requires Disciplined(PlanAt(db, c.slug), c.op)
    ensures slug in After(db, c).plans && Retired(After(db, c).plans[slug], token)
  {
    StepFollows(db, c);
    var p, q := db.plans[slug], After(db, c).plans[slug];
    HistoryKeeps(p, q, Str(token), Null);
    if c.slug == slug && Commits(db, c) {
      BumpedSameClaim(p, c.op);
      ClaimAfter(Bumped(p), db.last, c.op);
      assert Dispatches(c.op) ==> Str(c.op.minted) != Str(token);
    } else if c.slug != slug {
      OtherPlanUntouched(db, c, slug);
    } else {
      FailedCallChangesNothing(db, c);
    }
  }

  lemma {:induction false} RetiredForever(db: Db, calls: seq<Call>, slug: string, token: string)
    requires WellLogged(db) && slug in db.plans && Retired(db.plans[slug], token)
    requires DisciplinedRun(db, calls)
    ensures slug in Run(db, calls).plans && Retired(Run(db, calls).plans[slug], token)
    decreases |calls|
  {
    if calls != [] {
      StepFollows(db, calls[0]);
      RetiredStays(db, calls[0], slug, token);
      RetiredForever(After(db, calls[0]), calls[1..], slug, token);
    }
  }

  /** The token an operation is fenced by, and whether its release arguments
      come in the pair the store demands. */
  function FencedBy(op: Op): Option<string> {
    match op
    case Heartbeat(token, _, _) => Some(token)
    case Activity(token, _, _, _) => Some(token)
    case StampClaimFields(token, _, _, _, _) => Some(token)
    case AppendEvents(_, byToken, _) => byToken
    case ReleaseClaim(byToken, _, _) => byToken
    case StampAttestation(byToken, _, _, _, _, _) => byToken
    case SpawnTask(_, _, byToken, _, _) => byToken
    case CompleteTask(_, byToken, _, _, _) => byToken
    case _ => None
  }

  /** The token of an operation that releases on the way. */
  function ReleasesWith(op: Op): Option<string> {
    match op
    case AddBlocker(_, _, _, _, _, releaseToken, _, _) => releaseToken
    case SetStatus(_, _, releaseToken, _) => releaseToken
    case _ => None
  }

  function BearsToken(op: Op): Option<string> {
    if FencedBy(op).Some? then FencedBy(op) else ReleasesWith(op)
  }

  predicate PairedRelease(op: Op) {
    match op
    case ReleaseClaim(byToken, narrow, _) => byToken.Some? == narrow.Some?
    case AddBlocker(_, _, _, _, _, releaseToken, releasePhase, _) => releaseToken.Some? == releasePhase.Some?
    case SetStatus(_, _, releaseToken, releasePhase) => releaseToken.Some? == releasePhase.Some?
    case _ => true
  }

  lemma DeadTokenRefused(p: Plan, last: int, op: Op, token: string)
    requires BearsToken(op) == Some(token) && !Live(p, token) && PairedRelease(op)
    ensures PlanEffect(p, last, op) == Raise(ClaimMismatch)
  {
    assert forall phase :: !Holds(p, token, phase);
    match op {
      case AddBlocker(_, _, _, _, _, _, _, _) =>
      case SetStatus(_, _, _, _) =>
      case _ =>
    }
  }

  /** Token fencing over whole runs: once a token has lost its claim, every
      later operation that bears it raises `ClaimMismatch` and leaves the
      database exactly as it was, the version bump included. */
  lemma TokenFencing(db: Db, calls: seq<Call>, slug: string, op: Op, token: string)
    requires WellLogged(db) && slug in db.plans && Retired(db.plans[slug], token)
    requires DisciplinedRun(db, calls)
    requires BearsToken(op) == Some(token) && PairedRelease(op) && Refused(slug, op).None?
    ensures Step(Run(db, calls), slug, op) == Outcome(Run(db, calls), Err(ClaimMismatch))
  {
    RetiredForever(db, calls, slug, token);
    var p := Run(db, calls).plans[slug];
    DeadTokenRefused(Bumped(p), Run(db, calls).last, op, token);
  }

  function Renaming(token: string, to: string): Op {
    StampClaimFields(token, map[ClaimedBy := Str(to)], None, None, [])
  }

  lemma RenameStep(db: Db, slug: string, token: string, to: string, phase: string)
    requires AcceptedSlug(slug) && slug in db.plans && Holds(db.plans[slug], token, Some(phase))
    ensures var db' := After(db, Call(slug, Renaming(token, to)));
            slug in db'.plans && Holds(db'.plans[slug], to, Some(phase))
  {
    UntouchedReads(db.plans[slug].claim.value, map[ClaimedBy := Str(to)], PhaseId);
  }

  /** The discipline is what fencing rests on: the store itself lets a field
      write rename the holder, and then a token that was replaced comes back. */
  lemma RenamingTheHolderBreaksFencing(db: Db, slug: string, token: string, other: string, phase: string, ts: int)
    requires ClaimsLogged(db) && AcceptedSlug(slug) && slug in db.plans
    requires Holds(db.plans[slug], token, Some(phase)) && token != other
    ensures var replaced := After(db, Call(slug, Renaming(token, other)));
            && slug in replaced.plans && Retired(replaced.plans[slug], token)
            && Step(After(replaced, Call(slug, Renaming(other, token))), slug, Heartbeat(token, phase, ts)).result
              == Ok(Num(ts))
  {
    var rename := Call(slug, Renaming(token, other));
    var replaced := After(db, rename);
    RenameStep(db, slug, token, other, phase);
    LosingTheClaimRetires(db, rename, slug, token);
    RenameStep(replaced, slug, other, token, phase);
  }

  // ----- at-most-once dispatch ----------------------------------------------------------------

  /** A dispatch that judged "no claim" displaces nobody, although its write
      replaces the row; the new claim is the minted one and its start event is
      in the log. */
  lemma DispatchDisplacesNobody(db: Db, c: Call)
    requires Dispatches(c.op) && IdentityFree(c.op.delta.claimUpdates) && c.op.pre.expectClaim == Expected(None)
    requires Commits(db, c)
    ensures c.slug in db.plans && db.plans[c.slug].claim.None?
    ensures var q := After(db, c).plans[c.slug];
            && ClaimIdentity(q) == Some((Str(c.op.minted), Str(c.op.delta.claimPhase.value)))
            && StartLogged(q, Str(c.op.minted), Str(c.op.delta.claimPhase.value))
  {
    CommitMeansHeld(db, c);
    var p := Bumped(db.plans[c.slug]);
    TickClaim(p, db.last, c.op);
    DispatchLogsStart(p, db.last, c.op);
  }

  lemma CommitSawHighWater(db: Db, c: Call, m: int)
    requires c.op.ApplyTick? && c.op.pre.expectMaxEventId == Some(m) && Commits(db, c)
    ensures c.slug in db.plans && MaxId(db.plans[c.slug].events) == m
  {
    CommitMeansHeld(db, c);
  }

  lemma DispatchGrowsLog(db: Db, c: Call)
    requires WellLogged(db) && Dispatches(c.op) && Commits(db, c)
    ensures c.slug in db.plans && c.slug in After(db, c).plans
    ensures var p, q := db.plans[c.slug], After(db, c).plans[c.slug];
            q.archive == p.archive && q.events != [] && |History(q)| > |History(p)|
  {
    var p := Bumped(db.plans[c.slug]);
    TickAppends(p, db.last, c.op);
    EndsWithStart(p, c.op);
  }

  /** Of any number of dispatches declaring the same event high-water, at most
      one commits between archivals: if two do, an archival emptied the log in
      between and the mark was the empty log's. */
  lemma AtMostOneDispatch(db: Db, first: Call, between: seq<Call>, second: Call, m: int)
    requires WellLogged(db) && Dispatches(first.op) && Dispatches(second.op) && first.slug == second.slug
    requires first.op.pre.expectMaxEventId == Some(m) && second.op.pre.expectMaxEventId == Some(m)
    requires Commits(db, first) && Commits(Run(After(db, first), between), second)
    ensures first.slug in After(db, first).plans && first.slug in Run(After(db, first), between).plans
    ensures m == 0
    ensures var after, later := After(db, first).plans[first.slug], Run(After(db, first), between).plans[first.slug];
            |later.archive| >= |History(after)| > |after.archive|
  {
    var slug := first.slug;
    var mid, end := After(db, first), Run(After(db, first), between);
    CommitSawHighWater(db, first, m);
    DispatchGrowsLog(db, first);
    StepFollows(db, first);
    RunFollows(mid, between);
    CommitSawHighWater(end, second, m);
    var p, q, r := db.plans[slug], mid.plans[slug], end.plans[slug];
    FollowsTransitive(p, q, r);
    SameHighWaterSameLog(p, r, db.last, end.last);
    SameHighWaterSameLog(p, q, db.last, mid.last);
    SameLogMeansArchived(p, q, r, end.last);
  }

  lemma SameLogMeansArchived(p: Plan, q: Plan, r: Plan, last: int)
    requires Follows(p, q) && Follows(q, r) && Logged(r, last)
    requires q.archive == p.archive && |History(q)| > |History(p)| && r.events == p.events
    ensures |r.archive| >= |History(q)| && r.events == []
  {
    var first := if p.events == [] then 0 else p.events[0].id;
    FollowsTransitive(p, q, r);
    HotIndex(p);
    HotIndex(r);
  }

  lemma HotIndex(p: Plan)
    ensures forall i :: 0 <= i < |p.events| ==> p.events[i] == History(p)[|p.archive| + i]
  {
  }

  predicate DispatchesAt(db: Db, c: Call, slug: string, m: int) {
    c.slug == slug && Dispatches(c.op) && c.op.pre.expectMaxEventId == Some(m) && Commits(db, c)
  }

  /** How many dispatches declaring this high-water mark commit in a run. */
  function DispatchCount(db: Db, calls: seq<Call>, slug: string, m: int): nat
    decreases |calls|
  {
    if calls == [] then 0
    else (if DispatchesAt(db, calls[0], slug, m) then 1 else 0) + DispatchCount(After(db, calls[0]), calls[1..], slug, m)
  }

  predicate SameArchive(db: Db, calls: seq<Call>, slug: string) {
    && slug in db.plans && slug in Run(db, calls).plans
    && |Run(db, calls).plans[slug].archive| == |db.plans[slug].archive|
  }

  /** With no archival, the highest hot id never falls. */
  lemma HighWaterRises(p: Plan, q: Plan, last: int)
    requires Follows(p, q) && Logged(q, last) && |p.archive| == |q.archive|
    ensures MaxId(p.events) <= MaxId(q.events)
    ensures |p.events| < |q.events| ==> MaxId(p.events) < MaxId(q.events)
  {
    LaterHot(p, q);
    HotIncreasing(q, last);
    MaxIdInHistory(q, last);
    if p.events != [] {
      assert p.events[|p.events| - 1] == q.events[|p.events| - 1];
    }
  }

  lemma ArchiveStays(db: Db, calls: seq<Call>, slug: string)
    requires WellLogged(db) && calls != [] && SameArchive(db, calls, slug)
    ensures var next := After(db, calls[0]);
            && WellLogged(next) && SameArchive(next, calls[1..], slug)
            && |next.plans[slug].archive| == |db.plans[slug].archive| && Follows(db.plans[slug], next.plans[slug])
  {
    StepFollows(db, calls[0]);
    RunFollows(After(db, calls[0]), calls[1..]);
  }

  lemma {:induction false} NoneOnceRisen(db: Db, calls: seq<Call>, slug: string, m: int)
    requires WellLogged(db) && SameArchive(db, calls, slug) && MaxId(db.plans[slug].events) > m
    ensures DispatchCount(db, calls, slug, m) == 0
    decreases |calls|
  {
    if calls != [] {
      var next := After(db, calls[0]);
      ArchiveStays(db, calls, slug);
      if DispatchesAt(db, calls[0], slug, m) {
        CommitSawHighWater(db, calls[0], m);
      }
      hide SameArchive, Commits, After, DispatchesAt, Follows;
      HighWaterRises(db.plans[slug], next.plans[slug], next.last);
      NoneOnceRisen(next, calls[1..], slug, m);
    }
  }

  /** Of any number of dispatches declaring one high-water mark, in any run, at
      most one commits between two archivals. */
  lemma {:induction false} AtMostOneBetweenArchivals(db: Db, calls: seq<Call>, slug: string, m: int)
    requires WellLogged(db) && SameArchive(db, calls, slug)
    ensures DispatchCount(db, calls, slug, m) <= 1
    decreases |calls|
  {
    if calls != [] {
      var next := After(db, calls[0]);
      ArchiveStays(db, calls, slug);
      if DispatchesAt(db, calls[0], slug, m) {
        CommitSawHighWater(db, calls[0], m);
        DispatchGrowsLog(db, calls[0]);
        HighWaterRises(db.plans[slug], next.plans[slug], next.last);
        NoneOnceRisen(next, calls[1..], slug, m);
      } else {
        AtMostOneBetweenArchivals(next, calls[1..], slug, m);
      }
    }
  }
}
