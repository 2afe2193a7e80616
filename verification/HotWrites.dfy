/** The two highest-frequency writers, heartbeats and activity stamps, against
    a tick in flight: they do not abort it and they are not lost to it. */
module HotWrites {
  import opened Values
  import opened PlanDoc
  import opened PlanOps
  import opened EventLog
  import opened Ticks

  predicate HotWrite(op: Op) {
    op.Heartbeat? || op.Activity?
  }

  /** The claim fields a hot write can touch. */
  function Touched(op: Op): set<Key> {
    match op
    case Heartbeat(_, _, _) => {LastHeartbeatAt}
    case Activity(_, _, action, _) =>
      if action == "start"
      then {ActiveToolStartedAt, CpuSamples, WorkerIdleNotified, WorkerIdleNotifiedAt}
      else {ActiveToolStartedAt}
    case _ => {}
  }

  /** What it writes into them. */
  function HotFields(op: Op): Doc
    requires HotWrite(op)
    ensures HotFields(op).Keys == Touched(op)
  {
    match op
    case Heartbeat(_, _, ts) => map[LastHeartbeatAt := Num(ts)]
    case Activity(_, _, action, ts) => ActivityFields(action, ts)
  }

  predicate HotHolds(p: Plan, op: Op)
    requires HotWrite(op)
  {
    Holds(p, op.token, Some(op.phase))
  }

  /** A hot write is a claim update, or nothing at all. */
  lemma HotEffect(p: Plan, last: int, op: Op)
    requires HotWrite(op)
    ensures PlanEffect(p, last, op).Commit? <==> HotHolds(p, op)
    ensures HotHolds(p, op) ==>
              PlanEffect(p, last, op).plan == SetClaim(p, HotFields(op)) && PlanEffect(p, last, op).last == last
  {
  }

  /** Fields that are not written read as before. */
  lemma UntouchedReads(c: Doc, fields: Doc, k: Key)
    requires k !in fields
    ensures Get(NormalClaim(c + fields), k) == Get(c, k)
  {
  }

  ghost predicate SameButTouched(p: Plan, q: Plan, touched: set<Key>) {
    && q == p.(version := q.version, claim := q.claim)
    && q.claim.Some? == p.claim.Some?
    && (p.claim.Some? ==> forall k :: k !in touched ==> Get(q.claim.value, k) == Get(p.claim.value, k))
  }

  /** A hot write changes nothing but the version and the fields it touches. */
  lemma HotStep(db: Db, slug: string, op: Op)
    requires HotWrite(op) && slug in db.plans
    ensures var db' := After(db, Call(slug, op));
            && slug in db'.plans && db'.last == db.last
            && SameButTouched(db.plans[slug], db'.plans[slug], Touched(op))
  {
    var p := db.plans[slug];
    HotEffect(Bumped(p), db.last, op);
    if Refused(slug, op).None? && HotHolds(Bumped(p), op) {
      forall k | k !in Touched(op)
        ensures Get(SetClaim(Bumped(p), HotFields(op)).claim.value, k) == Get(p.claim.value, k)
      {
        UntouchedReads(p.claim.value, HotFields(op), k);
      }
    }
  }

  lemma SameButTouchedVerdict(p: Plan, q: Plan, touched: set<Key>, pre: TickPreconditions)
    requires SameButTouched(p, q, touched)
    requires ClaimedBy !in touched && PhaseId !in touched && pre.expectClaimFields.Keys !! touched
    ensures Preconditions(q, pre) <==> Preconditions(p, pre)
  {
    assert ClaimIdentity(q) == ClaimIdentity(p);
    assert forall id :: BlockerState(q, id) == BlockerState(p, id);
    assert ClaimFieldsHold(q, pre.expectClaimFields) <==> ClaimFieldsHold(p, pre.expectClaimFields) by {
      assert forall k :: k in pre.expectClaimFields ==> k !in touched;
    }
  }

  /** Hot calls on one plan; other plans may do anything. */
  predicate HotCalls(calls: seq<Call>, slug: string, touched: set<Key>) {
    forall c :: c in calls && c.slug == slug ==> HotWrite(c.op) && Touched(c.op) <= touched
  }

  lemma OtherPlanUntouched(db: Db, c: Call, slug: string)
    requires c.slug != slug
    ensures slug in After(db, c).plans <==> slug in db.plans
    ensures slug in db.plans ==> After(db, c).plans[slug] == db.plans[slug]
  {
  }

  lemma SameButTouchedTransitive(p: Plan, q: Plan, r: Plan, touched: set<Key>)
    requires SameButTouched(p, q, touched) && SameButTouched(q, r, touched)
    ensures SameButTouched(p, r, touched)
  {
  }

  /** However many heartbeats and activity stamps land between a tick's
      snapshot and its apply, and whatever other plans do meanwhile, every
      precondition set that names none of the touched fields gives the same
      verdict as before. */
  lemma {:induction false} HotWritersDoNotAbortTicks(db: Db, calls: seq<Call>, slug: string, touched: set<Key>,
          pre: TickPreconditions)
    requires slug in db.plans && HotCalls(calls, slug, touched)
    requires ClaimedBy !in touched && PhaseId !in touched && pre.expectClaimFields.Keys !! touched
    ensures slug in Run(db, calls).plans
    ensures SameButTouched(db.plans[slug], Run(db, calls).plans[slug], touched)
    ensures Preconditions(Run(db, calls).plans[slug], pre) <==> Preconditions(db.plans[slug], pre)
    decreases |calls|
  {
    if calls != [] {
      var next := After(db, calls[0]);
      assert calls[0] in calls;
      if calls[0].slug == slug {
        HotStep(db, slug, calls[0].op);
      } else {
        OtherPlanUntouched(db, calls[0], slug);
      }
      assert SameButTouched(db.plans[slug], next.plans[slug], touched);
      assert HotCalls(calls[1..], slug, touched);
      HotWritersDoNotAbortTicks(next, calls[1..], slug, touched, pre);
      SameButTouchedTransitive(db.plans[slug], next.plans[slug], Run(next, calls[1..]).plans[slug], touched);
    }
    SameButTouchedVerdict(db.plans[slug], Run(db, calls).plans[slug], touched, pre);
  }

  // ----- commuting ---------------------------------------------------------------------

  /** The tick keeps the claim and writes none of the touched fields, nor the
      claim's identity. */
  predicate KeepsClaim(delta: TickDelta, touched: set<Key>) {
    && !delta.releaseClaim && delta.claimPhase.None?
    && delta.claimUpdates.Keys !! touched
    && ClaimedBy !in delta.claimUpdates && PhaseId !in delta.claimUpdates
  }

  lemma WritesCommute(c: Doc, x: Doc, y: Doc)
    requires x.Keys !! y.Keys
    ensures NormalClaim(NormalClaim(c + x) + y) == NormalClaim(NormalClaim(c + y) + x)
  {
    NormalAbsorbs(c + x, y);
    NormalAbsorbs(c + y, x);
    UpdatesCommute(c, x, y);
  }

  lemma UpdatesCommute(c: Doc, x: Doc, y: Doc)
    requires x.Keys !! y.Keys
    ensures (c + x) + y == (c + y) + x
  {
  }

  lemma NullsAbsorbUpdate(c: Doc, y: Doc, keys: set<Key>)
    ensures WithoutNulls(WithoutNulls(c, keys) + y, keys) == WithoutNulls(c + y, keys)
  {
  }

  lemma NormalAbsorbs(c: Doc, y: Doc)
    ensures NormalClaim(NormalClaim(c) + y) == NormalClaim(c + y)
  {
    hide WithoutNulls;
    NullsAbsorbUpdate(c, y, CLAIM_SCALARS);
  }

  lemma SetClaimsCommute(p: Plan, x: Doc, y: Doc)
    requires p.claim.Some? && x.Keys !! y.Keys
    ensures SetClaim(SetClaim(p, x), y) == SetClaim(SetClaim(p, y), x)
  {
    WritesCommute(p.claim.value, x, y);
  }

  /** A field write that leaves the identity alone leaves every token check
      alone. */
  lemma IdentityKept(p: Plan, fields: Doc)
    requires p.claim.Some? && ClaimedBy !in fields && PhaseId !in fields
    ensures ClaimIdentity(SetClaim(p, fields)) == ClaimIdentity(p)
    ensures forall token, phase :: Holds(SetClaim(p, fields), token, phase) <==> Holds(p, token, phase)
  {
    UntouchedReads(p.claim.value, fields, ClaimedBy);
    UntouchedReads(p.claim.value, fields, PhaseId);
  }

  /** The delta's effect on a plan whose claim it keeps: some of the claim's
      fields, and parts a hot write never looks at. */
  lemma ApplyAfterHot(p: Plan, last: int, delta: TickDelta, now: int, minted: string, hot: Doc)
    requires p.claim.Some? && KeepsClaim(delta, hot.Keys)
    requires ClaimedBy !in hot && PhaseId !in hot
    ensures var before, after := ApplyDelta(p, last, delta, now, minted),
        ApplyDelta(SetClaim(p, hot), last, delta, now, minted);
            && (before.Raise? ==> after == before)
            && (before.Commit? ==>
                 && before.plan.claim.Some? && ClaimIdentity(before.plan) == ClaimIdentity(p)
                 && after == Commit(SetClaim(before.plan, hot), before.last, before.reply))
  {
    hide UpdateBlockers, NormalClaim, Stamp, StartedEvent, MintedClaim;
    IdentityKept(p, hot);
    if delta.claimUpdates != map[] {
      IdentityKept(p, delta.claimUpdates);
      SetClaimsCommute(p, delta.claimUpdates, hot);
    }
  }

  /** The version bump commutes with everything a delta does. */
  lemma ApplyBumped(p: Plan, last: int, delta: TickDelta, now: int, minted: string)
    ensures var e, e' := ApplyDelta(p, last, delta, now, minted), ApplyDelta(Bumped(p), last, delta, now, minted);
            if e.Raise? then e' == e else e' == Commit(Bumped(e.plan), e.last, e.reply)
  {
    hide UpdateBlockers, NormalClaim, Stamp, StartedEvent, MintedClaim;
  }

  lemma ApplyWithoutClaim(p: Plan, last: int, delta: TickDelta, now: int, minted: string, touched: set<Key>)
    requires p.claim.None? && KeepsClaim(delta, touched)
    ensures ApplyDelta(p, last, delta, now, minted).Commit? ==> ApplyDelta(p, last, delta, now, minted).plan.claim.None?
  {
  }

  lemma ApplyKeepsIdentity(p: Plan, last: int, delta: TickDelta, now: int, minted: string, touched: set<Key>)
    requires p.claim.Some? && KeepsClaim(delta, touched)
    requires ApplyDelta(p, last, delta, now, minted).Commit?
    ensures var q := ApplyDelta(p, last, delta, now, minted).plan;
            q.claim.Some? && ClaimIdentity(q) == ClaimIdentity(p)
  {
    if delta.claimUpdates != map[] {
      IdentityKept(p, delta.claimUpdates);
    }
  }

  /** Whether a hot write would be accepted is not changed by such a tick. */
  lemma TickKeepsHolder(p: Plan, last: int, delta: TickDelta, now: int, minted: string, hot: Op)
    requires HotWrite(hot) && KeepsClaim(delta, Touched(hot))
    requires ApplyDelta(p, last, delta, now, minted).Commit?
    ensures HotHolds(ApplyDelta(p, last, delta, now, minted).plan, hot) <==> HotHolds(p, hot)
  {
    hide UpdateBlockers, NormalClaim, Stamp, ApplyDelta;
    if p.claim.None? {
      ApplyWithoutClaim(p, last, delta, now, minted, Touched(hot));
    } else {
      ApplyKeepsIdentity(p, last, delta, now, minted, Touched(hot));
    }
  }

  lemma HotTouches(q: Plan, hot: Op)
    requires HotWrite(hot) && HotHolds(q, hot)
    ensures SameButTouched(q, Bumped(SetClaim(q, HotFields(hot))), Touched(hot))
  {
    hide NormalClaim;
    forall k | k !in Touched(hot)
      ensures Get(NormalClaim(q.claim.value + HotFields(hot)), k) == Get(q.claim.value, k)
    {
      UntouchedReads(q.claim.value, HotFields(hot), k);
    }
  }

  lemma HotVerdict(q: Plan, hot: Op, pre: TickPreconditions)
    requires HotWrite(hot) && HotHolds(q, hot) && pre.expectClaimFields.Keys !! Touched(hot)
    ensures Preconditions(q, pre) <==> Preconditions(Bumped(SetClaim(q, HotFields(hot))), pre)
  {
    hide SameButTouched, SetClaim, Preconditions;
    HotTouches(q, hot);
    SameButTouchedVerdict(q, Bumped(SetClaim(q, HotFields(hot))), Touched(hot), pre);
  }

  lemma ApplyBumpedAfterHot(q: Plan, last: int, delta: TickDelta, now: int, minted: string, h: Doc)
    requires q.claim.Some? && KeepsClaim(delta, h.Keys) && ClaimedBy !in h && PhaseId !in h
    ensures var e, e' := ApplyDelta(q, last, delta, now, minted), ApplyDelta(Bumped(SetClaim(q, h)), last, delta, now, minted);
            && (e.Raise? ==> e' == e)
            && (e.Commit? ==> e.plan.claim.Some? && e' == Commit(SetClaim(Bumped(e.plan), h), e.last, e.reply))
  {
    BumpedSet(q, h);
    hide ApplyDelta, SetClaim, KeepsClaim;
    ApplyBumped(q, last, delta, now, minted);
    ApplyAfterHot(Bumped(q), last, delta, now, minted, h);
  }

  lemma TickEffect(p: Plan, last: int, tick: Op)
    requires tick.ApplyTick?
    ensures PlanEffect(p, last, tick) == ApplyTickEffect(p, last, tick.pre, tick.delta, tick.now, tick.minted)
  {
  }

  lemma BumpedSet(p: Plan, fields: Doc)
    requires p.claim.Some?
    ensures Bumped(SetClaim(p, fields)) == SetClaim(Bumped(p), fields)
  {
  }

  lemma HotNames(hot: Op)
    requires HotWrite(hot)
    ensures HotFields(hot).Keys == Touched(hot) && ClaimedBy !in Touched(hot) && PhaseId !in Touched(hot)
  {
  }

  /** The same tick on a plan the hot write was applied to first. */
  lemma TickAfterHot(p: Plan, last: int, tick: Op, hot: Op)
    requires HotWrite(hot) && HotHolds(p, hot)
    requires tick.ApplyTick? && KeepsClaim(tick.delta, Touched(hot)) && tick.pre.expectClaimFields.Keys !! Touched(hot)
    ensures var e, e' := PlanEffect(Bumped(p), last, tick), PlanEffect(Bumped(SetClaim(Bumped(p), HotFields(hot))), last, tick);
            && (e.Raise? ==> e' == e)
            && (e.Commit? ==> e.plan.claim.Some? && e' == Commit(SetClaim(Bumped(e.plan), HotFields(hot)), e.last, e.reply))
  {
    var q := Bumped(p);
    TickEffect(q, last, tick);
    TickEffect(Bumped(SetClaim(q, HotFields(hot))), last, tick);
    HotVerdict(q, hot, tick.pre);
    HotNames(hot);
    hide ApplyDelta, Preconditions, SetClaim, PlanEffect, KeepsClaim, HotFields, Touched;
    ApplyBumpedAfterHot(q, last, tick.delta, tick.now, tick.minted, HotFields(hot));
  }

  /** A heartbeat or activity stamp commutes with a tick that keeps the claim
      and names other fields: either order leaves the same database and gives
      both callers the same answers. */
  lemma HotWriteCommutesWithTick(db: Db, slug: string, hot: Op, tick: Op)
    requires HotWrite(hot) && tick.ApplyTick?
    requires KeepsClaim(tick.delta, Touched(hot)) && tick.pre.expectClaimFields.Keys !! Touched(hot)
    ensures var first, second := Step(db, slug, hot), Step(db, slug, tick);
            && Step(first.db, slug, tick).db == Step(second.db, slug, hot).db
            && Step(first.db, slug, tick).result == second.result
            && Step(second.db, slug, hot).result == first.result
  {
    if Refused(slug, hot).None? && slug in db.plans {
      var p := db.plans[slug];
      var e := PlanEffect(Bumped(p), db.last, tick);
      HotEffect(Bumped(p), db.last, hot);
      if HotHolds(p, hot) {
        TickAfterHot(p, db.last, tick, hot);
        if e.Commit? {
          TickKeepsHolder(Bumped(p), db.last, tick.delta, tick.now, tick.minted, hot);
          HotEffect(Bumped(e.plan), e.last, hot);
          MapPutTwice(db.plans, slug, SetClaim(Bumped(p), HotFields(hot)), SetClaim(Bumped(e.plan), HotFields(hot)));
          MapPutTwice(db.plans, slug, e.plan, SetClaim(Bumped(e.plan), HotFields(hot)));
        }
      } else if e.Commit? {
        TickKeepsHolder(Bumped(p), db.last, tick.delta, tick.now, tick.minted, hot);
        HotEffect(Bumped(e.plan), e.last, hot);
      }
    }
  }

  lemma MapPutTwice<K, V>(m: map<K, V>, k: K, v: V, w: V)
    ensures m[k := v][k := w] == m[k := w]
  {
  }

  /** No hot write is lost: a tick that applies after any number of them leaves
      what it would have left had they all come after it. */
  lemma {:induction false} NoHotWriteIsLost(db: Db, slug: string, hots: seq<Op>, tick: Op)
    requires tick.ApplyTick?
    requires forall op :: op in hots ==>
               HotWrite(op) && KeepsClaim(tick.delta, Touched(op)) && tick.pre.expectClaimFields.Keys !! Touched(op)
    ensures After(RunOn(db, slug, hots), Call(slug, tick)) == RunOn(After(db, Call(slug, tick)), slug, hots)
    ensures Step(RunOn(db, slug, hots), slug, tick).result == Step(db, slug, tick).result
    decreases |hots|
  {
    if hots != [] {
      assert hots[0] in hots;
      assert forall op :: op in hots[1..] ==> op in hots;
      NoHotWriteIsLost(After(db, Call(slug, hots[0])), slug, hots[1..], tick);
      HotWriteCommutesWithTick(db, slug, hots[0], tick);
    }
  }

  function RunOn(db: Db, slug: string, ops: seq<Op>): Db
    decreases |ops|
  {
    if ops == [] then db else RunOn(After(db, Call(slug, ops[0])), slug, ops[1..])
  }
}
