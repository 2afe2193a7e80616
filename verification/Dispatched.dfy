/** What a committed tick leaves, read off the stored documents: the facts it
    re-checked, the fields it set, and the claim a dispatch mints - and how long
    that claim's lease stands. */
module Dispatched {
  import opened Values
  import opened PlanDoc
  import opened PlanOps
  import opened PlanRows
  import opened EventLog
  import opened Observed

  // ----- the facts re-checked -----------------------------------------------------------------

  /** The blocker first found under this id is in this state: still to be
      answered, and consumed. */
  predicate InState(bs: seq<Doc>, id: string, open: bool, consumed: bool) {
    exists i :: 0 <= i < |bs| && Get(bs[i], Id) == Str(id) && (forall j :: 0 <= j < i ==> Get(bs[j], Id) != Str(id))
      && (Get(bs[i], Answer) == Null <==> open) && (Truthy(Get(bs[i], Consumed)) <==> consumed)
  }

  predicate Identified(p: Plan, who: Option<(Json, Json)>) {
    if who.None? then p.claim.None?
    else p.claim.Some? && Get(p.claim.value, ClaimedBy) == who.value.0 && Get(p.claim.value, PhaseId) == who.value.1
  }

  predicate NewestIs(evs: seq<Event>, id: int) {
    if evs == [] then id == 0 else evs[|evs| - 1].id == id
  }

  lemma StateIs(p: Plan, id: string, open: bool, consumed: bool)
    ensures BlockerState(p, id) == Some((open, consumed)) <==> InState(p.blockers, id, open, consumed)
  {
    var i := Find(p.blockers, Str(id));
    hide Find, Truthy;
    if i < |p.blockers| {
      assert InState(p.blockers, id, Get(p.blockers[i], Answer) == Null, Truthy(Get(p.blockers[i], Consumed)));
    }
    if InState(p.blockers, id, open, consumed) {
      var j :| 0 <= j < |p.blockers| && Get(p.blockers[j], Id) == Str(id)
        && (forall k :: 0 <= k < j ==> Get(p.blockers[k], Id) != Str(id))
        && (Get(p.blockers[j], Answer) == Null <==> open) && (Truthy(Get(p.blockers[j], Consumed)) <==> consumed);
      assert FirstWith(p.blockers, id, j);
      FindsFirst(p.blockers, id, j);
    }
  }

  /** The preconditions, fact by fact, on the documents themselves. */
  lemma PreconditionsRead(p: Plan, pre: TickPreconditions)
    ensures Preconditions(p, pre) <==>
              && (pre.expectClaim.Expected? ==> Identified(p, pre.expectClaim.value))
              && (pre.expectClaimFields != map[] ==>
                    p.claim.Some?
                    && forall k :: k in pre.expectClaimFields ==> Get(p.claim.value, k) == pre.expectClaimFields[k])
              && (pre.expectMaxEventId.Some? ==> NewestIs(p.events, pre.expectMaxEventId.value))
              && (forall id :: id in pre.expectBlockerState ==>
                    InState(p.blockers, id, pre.expectBlockerState[id].0, pre.expectBlockerState[id].1))
              && (pre.expectStatus != Null ==> Get(p.head, Status) == pre.expectStatus)
  {
    forall id | id in pre.expectBlockerState
      ensures BlockerState(p, id) == Some(pre.expectBlockerState[id]) <==>
                InState(p.blockers, id, pre.expectBlockerState[id].0, pre.expectBlockerState[id].1)
    {
      StateIs(p, id, pre.expectBlockerState[id].0, pre.expectBlockerState[id].1);
    }
    hide BlockerState, InState, Get;
  }

  // ----- the blockers it set --------------------------------------------------------------------

  /** The value a key of this blocker has after the updates, in order. */
  function LastSet(updates: seq<(string, Doc)>, id: Json, k: Key, before: Json): Json
    decreases |updates|
  {
    if updates == [] then before
    else
      var u := updates[0];
      LastSet(updates[1..], id, k, if Str(u.0) == id && k in u.1 then u.1[k] else before)
  }

  predicate KeepsIds(updates: seq<(string, Doc)>) {
    forall i :: 0 <= i < |updates| ==> Id !in updates[i].1
  }

  predicate DistinctRows(bs: seq<Doc>) {
    forall i, j :: 0 <= i < j < |bs| ==> Get(bs[i], Id) != Get(bs[j], Id)
  }

  /** One key of one row, after a write to row `i`. */
  lemma RowAt(bs: seq<Doc>, cs: seq<Doc>, i: nat, fields: Doc, j: nat, k: Key)
    requires RowWrites(bs, cs, i, fields) && j < |bs| && RowKey(k)
    ensures Get(cs[j], k) == if i == j && k in fields then fields[k] else Get(bs[j], k)
  {
    hide RowKey, Get, Truthy;
  }

  lemma RowsStayDistinct(bs: seq<Doc>, cs: seq<Doc>, i: nat, fields: Doc)
    requires RowWrites(bs, cs, i, fields) && Id !in fields && DistinctRows(bs)
    ensures DistinctRows(cs)
  {
    assert RowKey(Id);
    forall j | 0 <= j < |bs|
      ensures Get(cs[j], Id) == Get(bs[j], Id)
    {
      RowAt(bs, cs, i, fields, j, Id);
    }
    hide Get, RowKey, RowWrites;
    forall a, b | 0 <= a < b < |cs|
      ensures Get(cs[a], Id) != Get(cs[b], Id)
    {
      assert Get(bs[a], Id) != Get(bs[b], Id);
    }
  }

  /** Of every blocker exactly the keys named under its id change, to the last
      value given. */
  lemma {:induction false} UpdatesLeave(bs: seq<Doc>, updates: seq<(string, Doc)>, j: nat, k: Key)
    requires UpdateBlockers(bs, updates).Ok? && KeepsIds(updates) && DistinctRows(bs) && j < |bs| && RowKey(k)
    ensures var cs := UpdateBlockers(bs, updates).value;
            |cs| == |bs| && Get(cs[j], k) == LastSet(updates, Get(bs[j], Id), k, Get(bs[j], k))
    decreases |updates|
  {
    if updates != [] {
      var id, fields := updates[0].0, updates[0].1;
      UpdateRow(bs, id, fields, j, k);
      assert KeepsIds(updates[1..]);
      hide UpdateBlocker, RowKey, Get, DistinctRows, KeepsIds;
      UpdatesLeave(UpdateBlocker(bs, id, fields).value, updates[1..], j, k);
    }
  }

  lemma UpdateRow(bs: seq<Doc>, id: string, fields: Doc, j: nat, k: Key)
    requires UpdateBlocker(bs, id, fields).Ok? && Id !in fields && DistinctRows(bs) && j < |bs| && RowKey(k)
    ensures var cs := UpdateBlocker(bs, id, fields).value;
            && |cs| == |bs| && DistinctRows(cs) && Get(cs[j], Id) == Get(bs[j], Id)
            && Get(cs[j], k) == if Str(id) == Get(bs[j], Id) && k in fields then fields[k] else Get(bs[j], k)
  {
    var i := Find(bs, Str(id));
    var cs := UpdateBlocker(bs, id, fields).value;
    assert i < |bs| && cs == bs[i := NormalBlocker(bs[i] + fields)] by { hide NormalBlocker, Find; }
    assert Get(bs[i], Id) == Str(id);
    assert j != i ==> Get(bs[j], Id) != Str(id);
    RowWritten(bs, i, fields);
    assert RowKey(Id);
    hide UpdateBlocker, NormalBlocker, RowWrites, RowKey, Find, Get, DistinctRows;
    RowsStayDistinct(bs, cs, i, fields);
    RowAt(bs, cs, i, fields, j, k);
    RowAt(bs, cs, i, fields, j, Id);
  }

  // ----- the claim it minted ---------------------------------------------------------------------

  /** A claim as a dispatch at `now` must leave it, and not one key more. */
  predicate Minted(claim: Doc, phase: string, token: string, now: int, minutes: int, attempts: int) {
    && claim.Keys == {PhaseId, ClaimedBy, LeaseExpires, StartedAt, LastHeartbeatAt, Attempts}
    && claim[PhaseId] == Str(phase) && claim[ClaimedBy] == Str(token) && claim[LeaseExpires] == Num(now + 60 * minutes)
    && claim[StartedAt] == Num(now) && claim[LastHeartbeatAt] == Num(now) && claim[Attempts] == Num(attempts)
  }

  lemma MintReads(phase: string, token: string, now: int, minutes: int, attempts: Option<int>)
    ensures Minted(NormalClaim(MintedClaim(phase, token, now, minutes, attempts)), phase, token, now, minutes,
                   if attempts.Some? then attempts.value else 1)
  {
    var d := MintedClaim(phase, token, now, minutes, attempts);
    assert d.Keys == {PhaseId, ClaimedBy, LeaseExpires, StartedAt, LastHeartbeatAt, Attempts};
    assert forall k :: k in d ==> d[k] != Null;
    assert NormalClaim(d) == d;
  }

  /** The start event as it is logged. */
  function Started(now: int, phase: string, token: string): NewEvent {
    NewEvent(now, PhaseStarted, map[Phase := Str(phase), ClaimedBy := Str(token)])
  }

  /** The holder a tick's claim fields are meant for; without one it is null. */
  function Holder(d: TickDelta): Json {
    if d.claimToken.Some? then Str(d.claimToken.value) else Null
  }

  /** What any committed tick did to its plan before a dispatch: the holder is
      the one it looked at, the fields it set are set, the claim is gone if it
      released, and the status is the one it decided. */
  ghost predicate TickLeft(p: Plan, q: Plan, d: TickDelta) {
    && (d.claimUpdates != map[] ==> p.claim.Some? && Get(p.claim.value, ClaimedBy) == Holder(d))
    && (d.claimPhase.None? ==>
          if d.releaseClaim then q.claim == None
          else if d.claimUpdates == map[] then q.claim == p.claim else Writes(p, q, d.claimUpdates))
    && HeadWrites(p, q, if d.status.Some? then map[Status := Str(d.status.value)] else map[], {})
    && q.tasks == p.tasks
    && UpdateBlockers(p.blockers, d.blockerUpdates) == Ok(q.blockers)
  }

  lemma TickEffectIs(p: Plan, last: int, op: Op)
    requires op.ApplyTick? && PlanEffect(p, last, op).Commit?
    ensures var q := PlanEffect(p, last, op).plan;
            Preconditions(p, op.pre) && TickLeft(p, q, op.delta) && q.version == p.version && q.archive == p.archive
  {
    hide Preconditions, UpdateBlockers, Stamp, NormalClaim, MintedClaim, StartedEvent, SetClaim;
    if op.delta.claimUpdates != map[] && p.claim.Some? {
      SetWrites(p, op.delta.claimUpdates);
    }
  }

  lemma TickLogs(p: Plan, last: int, op: Op)
    requires op.ApplyTick? && PlanEffect(p, last, op).Commit?
    ensures var e, d := PlanEffect(p, last, op), op.delta;
            if d.claimPhase.None? then
              e.reply == Null && e.last == last + |d.events| && e.plan.events == p.events + Stamp(last, d.events)
            else
              var phase := d.claimPhase.value;
              && e.reply == Str(op.minted) && e.last == last + |d.events| + 1
              && e.plan.events == p.events + Stamp(last, d.events + [Started(op.now, phase, op.minted)])
              && e.plan.claim == Some(NormalClaim(MintedClaim(phase, op.minted, op.now, d.leaseMinutes, d.claimAttempts)))
  {
    if op.delta.claimPhase.Some? {
      var phase := op.delta.claimPhase.value;
      assert StartedEvent(op.now, phase, op.minted) == Started(op.now, phase, op.minted);
    }
    hide Preconditions, UpdateBlockers, Stamp, NormalClaim, MintedClaim, StartedEvent, Started;
  }

  lemma TickLands(db: Db, slug: string, q: Plan, evs: seq<NewEvent>, reply: Json)
    requires slug in db.plans
    requires var p := PlanOf(db, slug);
             q.version == p.version + 1 && q.archive == p.archive && q.events == p.events + Stamp(db.last, evs)
    ensures var o := Settle(db, slug, Commit(q, db.last + |evs|, reply));
            Landed(db, slug, o, |evs|) && o.result == Ok(reply) && PlanOf(o.db, slug) == q && Adds(PlanOf(db, slug), q, evs)
  {
    var before := PlanOf(db, slug).events;
    LoggedAfter(before, db.last, evs);
    hide Stamp, Carries;
    assert q.events == before + Stamp(db.last, evs);
  }

  /** A tick without a dispatch: its fields, its release, its status, its blocker
      updates and its events, and nothing else. */
  lemma TickLeaves(db: Db, slug: string, op: Op)
    requires slug in db.plans && AcceptedSlug(slug) && op.ApplyTick? && op.delta.claimPhase.None?
    requires ErrorOf(Step(db, slug, op)).None?
    ensures var o, p, q := Step(db, slug, op), PlanOf(db, slug), PlanOf(Step(db, slug, op).db, slug);
            && Landed(db, slug, o, |op.delta.events|) && o.result == Ok(Null)
            && Adds(p, q, op.delta.events) && TickLeft(p, q, op.delta)
  {
    var p := Bumped(PlanOf(db, slug));
    StepIs(db, slug, op);
    TickEffectIs(p, db.last, op);
    TickLogs(p, db.last, op);
    SameTick(PlanOf(db, slug), p, PlanEffect(p, db.last, op).plan, op.delta);
    hide Step, PlanEffect, Landed, Adds, AcceptedSlug, TickLeft, Preconditions, Stamp;
    TickLands(db, slug, Settle(db, slug, PlanEffect(p, db.last, op)).db.plans[slug], op.delta.events, Null);
  }

  lemma SameTick(a: Plan, p: Plan, q: Plan, d: TickDelta)
    requires TickLeft(p, q, d) && a == p.(version := a.version)
    ensures TickLeft(a, q, d)
  {
    hide UpdateBlockers;
  }

  /** A dispatch: the plan's claim afterwards is the one minted, good for the
      lease from now and with not one key more, and the start event that names
      it follows the tick's own events. */
  lemma DispatchLeaves(db: Db, slug: string, op: Op)
    requires slug in db.plans && AcceptedSlug(slug) && op.ApplyTick? && op.delta.claimPhase.Some?
    requires ErrorOf(Step(db, slug, op)).None?
    ensures var o, p, q := Step(db, slug, op), PlanOf(db, slug), PlanOf(Step(db, slug, op).db, slug);
            var d, phase := op.delta, op.delta.claimPhase.value;
            && Landed(db, slug, o, |d.events| + 1) && o.result == Ok(Str(op.minted))
            && Adds(p, q, d.events + [NewEvent(op.now, PhaseStarted, map[Phase := Str(phase), ClaimedBy := Str(op.minted)])])
            && q.claim.Some? && TickLeft(p, q, d)
            && Minted(q.claim.value, phase, op.minted, op.now, d.leaseMinutes,
                      if d.claimAttempts.Some? then d.claimAttempts.value else 1)
  {
    var p := Bumped(PlanOf(db, slug));
    StepIs(db, slug, op);
    TickEffectIs(p, db.last, op);
    TickLogs(p, db.last, op);
    MintReads(op.delta.claimPhase.value, op.minted, op.now, op.delta.leaseMinutes, op.delta.claimAttempts);
    SameTick(PlanOf(db, slug), p, PlanEffect(p, db.last, op).plan, op.delta);
    hide Step, PlanEffect, Landed, Adds, AcceptedSlug, TickLeft, Preconditions, Stamp, Minted, NormalClaim, MintedClaim;
    TickLands(db, slug, Settle(db, slug, PlanEffect(p, db.last, op)).db.plans[slug],
              op.delta.events + [Started(op.now, op.delta.claimPhase.value, op.minted)], Str(op.minted));
  }

  /** A tick commits exactly when its facts hold, the claim it would write is
      still the one it looked at, and its blocker updates go through. */
  lemma TickErrors(db: Db, slug: string, op: Op)
    requires slug in db.plans && AcceptedSlug(slug) && op.ApplyTick?
    ensures var p, d := PlanOf(db, slug), op.delta;
            var updated := UpdateBlockers(p.blockers, d.blockerUpdates);
            ErrorOf(Step(db, slug, op)) ==
              if !Preconditions(p, op.pre) then Some(TickConflict)
              else if d.claimUpdates != map[] && (p.claim.None? || Get(p.claim.value, ClaimedBy) != Holder(d))
              then Some(TickConflict)
              else if updated.Err? then Some(updated.error) else None
  {
    StepIs(db, slug, op);
    assert Preconditions(Bumped(PlanOf(db, slug)), op.pre) <==> Preconditions(PlanOf(db, slug), op.pre);
    hide Step, AcceptedSlug, Preconditions, UpdateBlockers, Stamp, NormalClaim, MintedClaim, StartedEvent;
  }

  // ----- how long a field stands ------------------------------------------------------------------

  /** The call deletes the claim or mints another. */
  predicate Ends(op: Op) {
    match op
    case ReleaseClaim(_, _, _) => true
    case AddBlocker(_, _, _, _, _, token, phase, _) => token.Some? || phase.Some?
    case SetStatus(_, _, token, phase) => token.Some? || phase.Some?
    case ApplyTick(_, delta, _, _) => delta.releaseClaim || delta.claimPhase.Some?
    case _ => false
  }

  /** The call writes this field of the claim. */
  predicate Names(op: Op, k: Key) {
    match op
    case Heartbeat(_, _, _) => k == LastHeartbeatAt
    case Activity(_, _, _, _) =>
      k == ActiveToolStartedAt || k == CpuSamples || k == WorkerIdleNotified || k == WorkerIdleNotifiedAt
    case StampClaimFields(_, fields, _, _, _) => k in fields
    case StampAttestation(_, _, _, _, _, _) => k == Attestations
    case ExtendLease(_, _, _) => k == LeaseExpires
    case ApplyTick(_, delta, _, _) => k in delta.claimUpdates
    case _ => false
  }

  /** The claim is there and the field reads so. */
  predicate Reads(db: Db, slug: string, k: Key, v: Json) {
    slug in db.plans && db.plans[slug].claim.Some? && Get(db.plans[slug].claim.value, k) == v
  }

  predicate KeepsField(p: Plan, e: Effect, k: Key) {
    e.Commit? && p.claim.Some? ==> e.plan.claim.Some? && Get(e.plan.claim.value, k) == Get(p.claim.value, k)
  }

  lemma SetSpares(p: Plan, fields: Doc, k: Key)
    requires p.claim.Some? && k !in fields
    ensures var q := SetClaim(p, fields); q.claim.Some? && Get(q.claim.value, k) == Get(p.claim.value, k)
  {
    SetWrites(p, fields);
    hide SetClaim;
  }

  lemma StampsKeepField(p: Plan, last: int, op: Op, k: Key)
    requires (op.Heartbeat? || op.Activity? || op.StampClaimFields?) && !Names(op, k)
    ensures KeepsField(p, PlanEffect(p, last, op), k)
  {
    if p.claim.Some? {
      SetSpares(p, if op.Heartbeat? then map[LastHeartbeatAt := Num(op.ts)]
                   else if op.Activity? then ActivityFields(op.action, op.ts) else op.fields, k);
    }
    hide SetClaim, Stamp, Truthy;
  }

  lemma AttestationKeepsField(p: Plan, last: int, op: Op, k: Key)
    requires op.StampAttestation? && !Names(op, k)
    ensures KeepsField(p, PlanEffect(p, last, op), k)
  {
    if p.claim.Some? && AsObject(p.claim.value, Attestations).Some? {
      var a := AsObject(p.claim.value, Attestations).value;
      SetWrites(p, map[Attestations := Obj(a[Named(op.kind) := Obj(map[At := Num(op.ts), CommitSha := Str(op.sha)])])]);
    }
    hide SetClaim, Stamp;
  }

  lemma LeaseKeepsField(p: Plan, last: int, op: Op, k: Key)
    requires op.ExtendLease? && !Names(op, k)
    ensures KeepsField(p, PlanEffect(p, last, op), k)
  {
    if p.claim.Some? {
      var fields := map[LeaseExpires := Num(LeaseBase(Get(p.claim.value, LeaseExpires), op.now) + 60 * op.minutes)];
      assert PlanEffect(p, last, op).Commit? ==> PlanEffect(p, last, op).plan.claim == SetClaim(p, fields).claim by {
        hide SetClaim, Stamp, LeaseBase;
      }
      hide PlanEffect, SetClaim, LeaseBase, Get;
      SetSpares(p, fields, k);
    }
  }

  lemma TickKeepsField(p: Plan, last: int, op: Op, k: Key)
    requires op.ApplyTick? && !Names(op, k) && !Ends(op)
    ensures KeepsField(p, PlanEffect(p, last, op), k)
  {
    if PlanEffect(p, last, op).Commit? {
      TickEffectIs(p, last, op);
    }
    hide PlanEffect, UpdateBlockers, Preconditions;
  }

  lemma OthersKeepField(p: Plan, last: int, op: Op, k: Key)
    requires !Ends(op) && !op.Heartbeat? && !op.Activity? && !op.StampClaimFields? && !op.StampAttestation? && !op.ExtendLease?
    requires !op.ApplyTick?
    ensures KeepsField(p, PlanEffect(p, last, op), k)
  {
    hide Stamp, NormalBlocker, FreshBlocker, NormalTask, Find, MintId, Strings, ResolveAnswer, StampedSha, AsObject, Get;
  }

  lemma EffectKeepsField(p: Plan, last: int, op: Op, k: Key)
    requires !Ends(op) && !Names(op, k)
    ensures KeepsField(p, PlanEffect(p, last, op), k)
  {
    hide PlanEffect, KeepsField, Ends, Names;
    match op {
      case Heartbeat(_, _, _) => StampsKeepField(p, last, op, k);
      case Activity(_, _, _, _) => StampsKeepField(p, last, op, k);
      case StampClaimFields(_, _, _, _, _) => StampsKeepField(p, last, op, k);
      case StampAttestation(_, _, _, _, _, _) => AttestationKeepsField(p, last, op, k);
      case ExtendLease(_, _, _) => LeaseKeepsField(p, last, op, k);
      case ApplyTick(_, _, _, _) => TickKeepsField(p, last, op, k);
      case _ => OthersKeepField(p, last, op, k);
    }
  }

  /** The calls leave this plan's claim in place and this field of it alone. */
  predicate Spares(calls: seq<Call>, slug: string, k: Key) {
    forall i :: 0 <= i < |calls| && calls[i].slug == slug ==> !Ends(calls[i].op) && !Names(calls[i].op, k)
  }

  lemma StepSpares(db: Db, c: Call, slug: string, k: Key, v: Json)
    requires Reads(db, slug, k, v) && (c.slug == slug ==> !Ends(c.op) && !Names(c.op, k))
    ensures Reads(After(db, c), slug, k, v)
  {
    if c.slug == slug && Commits(db, c) && !c.op.Create? {
      EffectKeepsField(Bumped(db.plans[slug]), db.last, c.op, k);
    }
    hide PlanEffect, CreateEffect, Ends, Names;
  }

  /** A field stands until a call names it or the claim goes, whatever else runs. */
  lemma {:induction false} FieldStands(db: Db, calls: seq<Call>, slug: string, k: Key, v: Json)
    requires Reads(db, slug, k, v) && Spares(calls, slug, k)
    ensures Reads(Run(db, calls), slug, k, v)
    decreases |calls|
  {
    if calls != [] {
      StepSpares(db, calls[0], slug, k, v);
      hide Reads, Ends, Names;
      FieldStands(After(db, calls[0]), calls[1..], slug, k, v);
    }
  }

  /** A dispatched worker has its lease: the claim it starts under expires
      `leaseMinutes` after the tick's clock, and it still does after any run of
      calls that neither end the claim nor name the expiry - any number of
      heartbeats and tool calls in particular. */
  lemma LeaseStands(db: Db, slug: string, op: Op, calls: seq<Call>)
    requires slug in db.plans && AcceptedSlug(slug) && op.ApplyTick? && op.delta.claimPhase.Some?
    requires ErrorOf(Step(db, slug, op)).None? && Spares(calls, slug, LeaseExpires)
    ensures Reads(Run(After(db, Call(slug, op)), calls), slug, LeaseExpires, Num(op.now + 60 * op.delta.leaseMinutes))
  {
    DispatchLeaves(db, slug, op);
    var later := After(db, Call(slug, op));
    assert PlanOf(later, slug) == later.plans[slug];
    hide Step, TickLeft, Adds, AcceptedSlug, Run;
    FieldStands(later, calls, slug, LeaseExpires, Num(op.now + 60 * op.delta.leaseMinutes));
  }

  lemma HotCallsSpareTheLease(calls: seq<Call>, slug: string)
    requires forall i :: 0 <= i < |calls| ==> calls[i].op.Heartbeat? || calls[i].op.Activity?
    ensures Spares(calls, slug, LeaseExpires)
  {
  }
}
