/** What each call leaves in the database, read key by key off the stored
    documents: who may write, what is written, what is logged, what is
    answered, and that nothing else moves. */
module Observed {
  import opened Values
  import opened PlanDoc
  import opened PlanOps
  import opened EventLog
  import opened PlanRows
  import Decimals
  import RoundTrip

  // ----- how to read a state ------------------------------------------------------------------

  function PlanOf(db: Db, slug: string): Plan {
    if slug in db.plans then db.plans[slug] else Plan(0, map[], None, [], [], [], [])
  }

  function Nth(evs: seq<Event>, i: int): Event {
    if 0 <= i < |evs| then evs[i] else Event(0, 0, OtherKind(""), map[])
  }

  function ClaimOf(p: Plan): Doc {
    if p.claim.Some? then p.claim.value else map[]
  }

  predicate HeldBy(p: Plan, token: string) {
    p.claim.Some? && Get(p.claim.value, ClaimedBy) == Str(token)
  }

  predicate HeldFor(p: Plan, token: string, phase: string) {
    HeldBy(p, token) && Get(p.claim.value, PhaseId) == Str(phase)
  }

  /** A check on the token alone, or on token and phase. */
  predicate Matches(p: Plan, token: string, narrow: Option<string>) {
    if narrow.Some? then HeldFor(p, token, narrow.value) else HeldBy(p, token)
  }

  /** One stored event: its id, time and kind, and its payload key by key. */
  ghost predicate IsEvent(e: Event, id: int, ts: int, kind: Kind, payload: Doc) {
    e.id == id && e.ts == ts && e.kind == kind && forall k :: Get(e.payload, k) == Get(payload, k)
  }

  /** The call committed: the plan's version went up by one, `n` events were
      added after its hot log with the next ids, and no other plan moved. */
  predicate Landed(db: Db, slug: string, o: Outcome, n: nat) {
    && o.result.Ok? && slug in db.plans && slug in o.db.plans
    && o.db == Db(db.plans[slug := o.db.plans[slug]], db.last + n)
    && var p, q := db.plans[slug], o.db.plans[slug];
       && q.version == p.version + 1 && q.archive == p.archive
       && |q.events| == |p.events| + n && q.events[..|p.events|] == p.events
       && forall i :: |p.events| <= i < |q.events| ==> q.events[i].id == db.last + 1 + (i - |p.events|)
  }

  /** The payload leaves time, type and id to the columns. */
  predicate NoColumns(payload: Doc) {
    Ts !in payload && Type !in payload && Id !in payload
  }

  /** The stored event is the one handed in. */
  ghost predicate Carries(e: Event, n: NewEvent) {
    && e.ts == n.ts && e.kind == n.kind && NoColumns(e.payload)
    && forall k :: k != Ts && k != Type && k != Id ==> Get(e.payload, k) == Get(n.payload, k)
  }

  /** The events added are the caller's. */
  ghost predicate Adds(p: Plan, q: Plan, evs: seq<NewEvent>) {
    && |q.events| == |p.events| + |evs|
    && forall i :: 0 <= i < |evs| ==> Carries(q.events[|p.events| + i], evs[i])
  }

  /** Of the claim exactly these fields changed. */
  ghost predicate Writes(p: Plan, q: Plan, fields: Doc) {
    && p.claim.Some? && q.claim.Some?
    && forall k :: Get(q.claim.value, k) == if k in fields then fields[k] else Get(p.claim.value, k)
  }

  predicate SameButClaim(p: Plan, q: Plan) {
    q.head == p.head && q.blockers == p.blockers && q.tasks == p.tasks
  }

  predicate SameButBlockers(p: Plan, q: Plan) {
    q.head == p.head && q.claim == p.claim && q.tasks == p.tasks
  }

  predicate SameButTasks(p: Plan, q: Plan) {
    q.head == p.head && q.claim == p.claim && q.blockers == p.blockers
  }

  /** Of the head exactly these keys changed. */
  ghost predicate HeadWrites(p: Plan, q: Plan, fields: Doc, removed: set<Key>) {
    forall k :: (k in q.head <==> k !in removed && (k in fields || k in p.head))
      && (k in q.head ==> q.head[k] == if k in fields then fields[k] else p.head[k])
  }

  /** The error a call raised, if it did. */
  function ErrorOf(o: Outcome): Option<Error> {
    if o.result.Err? then Some(o.result.error) else None
  }

  /** A call that raises leaves the database exactly as it was. */
  lemma ErrorsLeaveNothing(db: Db, slug: string, op: Op)
    ensures ErrorOf(Step(db, slug, op)).Some? ==> Step(db, slug, op).db == db
  {
    hide PlanEffect, CreateEffect;
  }

  /** Which plan a call is for, and whether it is there, is settled first. */
  lemma PlanMustBeThere(db: Db, slug: string, op: Op)
    requires !op.Activity?
    ensures !AcceptedSlug(slug) ==> ErrorOf(Step(db, slug, op)) == Some(InvalidSlug)
    ensures AcceptedSlug(slug) && !op.Create? && slug !in db.plans ==> ErrorOf(Step(db, slug, op)) == Some(FileNotFound)
    ensures AcceptedSlug(slug) && op.Create? && slug in db.plans ==> ErrorOf(Step(db, slug, op)) == Some(FileExists)
  {
    hide PlanEffect, CreateEffect;
  }

  // ----- the log ----------------------------------------------------------------------------------

  lemma StampedAre(last: int, evs: seq<NewEvent>, i: nat)
    requires i < |evs|
    ensures var e := Stamp(last, evs)[i];
            e.id == last + 1 + i && Carries(e, evs[i])
  {
  }

  lemma StepIs(db: Db, slug: string, op: Op)
    requires slug in db.plans && AcceptedSlug(slug) && !op.Create?
    requires op.Activity? ==> op.action == "start" || op.action == "end"
    ensures Step(db, slug, op) == Settle(db, slug, PlanEffect(Bumped(PlanOf(db, slug)), db.last, op))
  {
    hide PlanEffect, AcceptedSlug;
  }

  lemma CommitOf(db: Db, slug: string, op: Op, reply: Json)
    requires slug in db.plans && AcceptedSlug(slug) && !op.Create? && !op.Activity? && Step(db, slug, op).result == Ok(reply)
    ensures var e := PlanEffect(Bumped(PlanOf(db, slug)), db.last, op);
            e.Commit? && e.reply == reply && Step(db, slug, op) == Settle(db, slug, e)
  {
    StepIs(db, slug, op);
    hide PlanEffect, AcceptedSlug, Step;
  }

  lemma LoggedAfter(before: seq<Event>, last: int, evs: seq<NewEvent>)
    ensures var after := before + Stamp(last, evs);
            && |after| == |before| + |evs| && after[..|before|] == before
            && (forall i :: |before| <= i < |after| ==> after[i].id == last + 1 + (i - |before|))
            && forall i :: 0 <= i < |evs| ==> Carries(after[|before| + i], evs[i])
  {
    hide Stamp, Carries;
    var after := before + Stamp(last, evs);
    forall i | |before| <= i < |after|
      ensures after[i] == Stamp(last, evs)[i - |before|] && after[i].id == last + 1 + (i - |before|)
    {
      StampedAre(last, evs, i - |before|);
    }
    forall i | 0 <= i < |evs|
      ensures Carries(after[|before| + i], evs[i])
    {
      StampedAre(last, evs, i);
    }
  }

  lemma LogLands(db: Db, slug: string, q: Plan, evs: seq<NewEvent>, reply: Json)
    requires slug in db.plans
    requires var p := PlanOf(db, slug);
             q.version == p.version + 1 && q.archive == p.archive && q.events == p.events
    ensures var o := Settle(db, slug, Log(q, db.last, evs, reply));
            && Landed(db, slug, o, |evs|) && o.result == Ok(reply)
            && PlanOf(o.db, slug) == q.(events := PlanOf(o.db, slug).events) && Adds(PlanOf(db, slug), PlanOf(o.db, slug), evs)
  {
    LoggedAfter(PlanOf(db, slug).events, db.last, evs);
    hide Stamp, Get;
  }

  lemma QuietLands(db: Db, slug: string, q: Plan, reply: Json)
    requires slug in db.plans
    requires var p := PlanOf(db, slug);
             q.version == p.version + 1 && q.archive == p.archive && q.events == p.events
    ensures var o := Settle(db, slug, Commit(q, db.last, reply));
            Landed(db, slug, o, 0) && o.result == Ok(reply) && PlanOf(o.db, slug) == q
  {
  }

  // ----- the claim ---------------------------------------------------------------------------------

  lemma SetWrites(p: Plan, fields: Doc)
    requires p.claim.Some?
    ensures Writes(p, SetClaim(p, fields), fields) && SetClaim(p, fields) == p.(claim := SetClaim(p, fields).claim)
  {
  }

  /** A heartbeat needs token and phase, stamps one field and logs nothing. */
  lemma HeartbeatLeaves(db: Db, slug: string, token: string, phase: string, ts: int)
    requires slug in db.plans && AcceptedSlug(slug)
    ensures var o := Step(db, slug, Heartbeat(token, phase, ts));
            if !HeldFor(PlanOf(db, slug), token, phase) then o == Outcome(db, Err(ClaimMismatch))
            else
              && Landed(db, slug, o, 0) && o.result == Ok(Num(ts)) && SameButClaim(PlanOf(db, slug), PlanOf(o.db, slug))
              && Writes(PlanOf(db, slug), PlanOf(o.db, slug), map[LastHeartbeatAt := Num(ts)])
  {
    var p := Bumped(PlanOf(db, slug));
    if HeldFor(p, token, phase) {
      SetWrites(p, map[LastHeartbeatAt := Num(ts)]);
      QuietLands(db, slug, SetClaim(p, map[LastHeartbeatAt := Num(ts)]), Num(ts));
    }
    hide SetClaim, AcceptedSlug;
  }

  /** A tool start stamps its second and voids the idle window; an end clears
      the marker and nothing else; any other action is refused. */
  lemma ActivityLeaves(db: Db, slug: string, token: string, phase: string, action: string, ts: int)
    requires slug in db.plans && AcceptedSlug(slug)
    ensures var o := Step(db, slug, Activity(token, phase, action, ts));
            if action != "start" && action != "end" then o == Outcome(db, Err(InvalidValue))
            else if !HeldFor(PlanOf(db, slug), token, phase) then o == Outcome(db, Err(ClaimMismatch))
            else
              && Landed(db, slug, o, 0) && o.result == Ok(Bool(true)) && SameButClaim(PlanOf(db, slug), PlanOf(o.db, slug))
              && Writes(PlanOf(db, slug), PlanOf(o.db, slug),
                        if action == "start"
                        then map[ActiveToolStartedAt := Num(ts), CpuSamples := Arr([]),
                                 WorkerIdleNotified := Bool(false), WorkerIdleNotifiedAt := Null]
                        else map[ActiveToolStartedAt := Null])
  {
    var p := Bumped(PlanOf(db, slug));
    if HeldFor(p, token, phase) && (action == "start" || action == "end") {
      SetWrites(p, ActivityFields(action, ts));
      QuietLands(db, slug, SetClaim(p, ActivityFields(action, ts)), Bool(true));
    }
    hide SetClaim, AcceptedSlug;
  }

  lemma StampEffectIs(p: Plan, last: int, token: string, fields: Doc, narrow: Option<string>, ifUnset: Option<Key>,
          events: seq<NewEvent>)
    ensures PlanEffect(p, last, StampClaimFields(token, fields, narrow, ifUnset, events)) ==
              if !Matches(p, token, narrow) then Raise(ClaimMismatch)
              else if ifUnset.Some? && ifUnset.value != Attestations && ifUnset.value != CpuSamples
                      && Truthy(Get(ClaimOf(p), ifUnset.value))
              then Commit(p, last, Bool(false))
              else Log(SetClaim(p, fields), last, events, Bool(true))
  {
    hide SetClaim, Log;
  }

  /** The holder's fields set and the events logged, or nothing but the version
      moved behind a guard that is truthy and not a JSON column. */
  ghost predicate FieldsStamped(db: Db, slug: string, o: Outcome, token: string, fields: Doc, narrow: Option<string>,
                                ifUnset: Option<Key>, events: seq<NewEvent>) {
    var p, q := PlanOf(db, slug), PlanOf(o.db, slug);
    if !Matches(p, token, narrow) then o == Outcome(db, Err(ClaimMismatch))
    else if ifUnset.Some? && ifUnset.value != Attestations && ifUnset.value != CpuSamples
            && Truthy(Get(ClaimOf(p), ifUnset.value))
    then Landed(db, slug, o, 0) && o.result == Ok(Bool(false)) && q == p.(version := p.version + 1)
    else
      && Landed(db, slug, o, |events|) && o.result == Ok(Bool(true)) && SameButClaim(p, q)
      && Adds(p, q, events) && Writes(p, q, fields)
  }

  /** A field stamp checks the token, and the phase when one is given; a truthy
      guard field that is not a JSON column makes it a no-op. */
  lemma StampLeaves(db: Db, slug: string, token: string, fields: Doc, narrow: Option<string>, ifUnset: Option<Key>,
          events: seq<NewEvent>)
    requires slug in db.plans && AcceptedSlug(slug)
    ensures var o := Step(db, slug, StampClaimFields(token, fields, narrow, ifUnset, events));
            FieldsStamped(db, slug, o, token, fields, narrow, ifUnset, events)
  {
    var p := Bumped(PlanOf(db, slug));
    StepIs(db, slug, StampClaimFields(token, fields, narrow, ifUnset, events));
    StampEffectIs(p, db.last, token, fields, narrow, ifUnset, events);
    hide PlanEffect, Step, SetClaim, AcceptedSlug, Log, Landed, Truthy, Adds, Writes, SameButClaim, Get;
    if Matches(p, token, narrow) {
      SetWrites(p, fields);
      LogLands(db, slug, SetClaim(p, fields), events, Bool(true));
      QuietLands(db, slug, p, Bool(false));
    }
  }

  /** Releasing takes token and phase together or neither, deletes the claim,
      logs, and answers with the claim that was there. */
  lemma ReleaseLeaves(db: Db, slug: string, token: Option<string>, phase: Option<string>, events: seq<NewEvent>)
    requires slug in db.plans && AcceptedSlug(slug)
    ensures var o, p := Step(db, slug, ReleaseClaim(token, phase, events)), PlanOf(db, slug);
            if token.Some? != phase.Some? then o == Outcome(db, Err(InvalidValue))
            else if token.Some? && !HeldFor(p, token.value, phase.value) then o == Outcome(db, Err(ClaimMismatch))
            else
              && Landed(db, slug, o, |events|) && o.result == Ok(if p.claim.Some? then Obj(ClaimOf(p)) else Null)
              && SameButClaim(p, PlanOf(o.db, slug)) && PlanOf(o.db, slug).claim == None && Adds(p, PlanOf(o.db, slug), events)
  {
    var p := Bumped(PlanOf(db, slug));
    LogLands(db, slug, p.(claim := None), events, if p.claim.Some? then Obj(ClaimOf(p)) else Null);
    hide AcceptedSlug, Log, Landed;
  }

  /** Appending checks the token only when one is given. */
  lemma AppendLeaves(db: Db, slug: string, events: seq<NewEvent>, token: Option<string>, narrow: Option<string>)
    requires slug in db.plans && AcceptedSlug(slug)
    ensures var o, p := Step(db, slug, AppendEvents(events, token, narrow)), PlanOf(db, slug);
            if token.Some? && !Matches(p, token.value, narrow) then o == Outcome(db, Err(ClaimMismatch))
            else
              && Landed(db, slug, o, |events|) && o.result == Ok(Null)
              && SameButClaim(p, PlanOf(o.db, slug)) && PlanOf(o.db, slug).claim == p.claim
              && Adds(p, PlanOf(o.db, slug), events)
  {
    LogLands(db, slug, Bumped(PlanOf(db, slug)), events, Null);
    hide AcceptedSlug, Log, Landed;
  }

  /** The lease was moved to `until`, and logged so. */
  ghost predicate LeaseMoved(db: Db, slug: string, o: Outcome, phase: string, minutes: int, now: int, until: int) {
    var p, q := PlanOf(db, slug), PlanOf(o.db, slug);
    && Landed(db, slug, o, 1) && o.result == Ok(Num(until)) && SameButClaim(p, q)
    && Writes(p, q, map[LeaseExpires := Num(until)])
    && IsEvent(Nth(q.events, |p.events|), db.last + 1, now, LeaseExtended,
               map[Phase := Str(phase), ExtendedBy := Num(minutes), NewExpires := Num(until), Operator := Bool(true)])
  }

  /** The lease runs `minutes` on from the later of its expiry and now - from
      now when the expiry is missing or no time at all. */
  lemma LeaseExtends(db: Db, slug: string, phase: string, minutes: int, now: int) returns (until: int)
    requires slug in db.plans && AcceptedSlug(slug)
    requires PlanOf(db, slug).claim.Some? && Get(ClaimOf(PlanOf(db, slug)), PhaseId) == Str(phase)
    ensures var was := Get(ClaimOf(PlanOf(db, slug)), LeaseExpires);
            && until >= now + 60 * minutes && (was.Num? ==> until >= was.n + 60 * minutes)
            && (until == now + 60 * minutes || was == Num(until - 60 * minutes))
    ensures LeaseMoved(db, slug, Step(db, slug, ExtendLease(phase, minutes, now)), phase, minutes, now, until)
  {
    var p, op := Bumped(PlanOf(db, slug)), ExtendLease(phase, minutes, now);
    hide Step, PlanEffect, LeaseMoved;
    LeaseEffectIs(p, db.last, op);
    LeaseBaseIs(Get(ClaimOf(p), LeaseExpires), now);
    until := LeaseBase(Get(ClaimOf(p), LeaseExpires), now) + 60 * minutes;
    hide Settle, Log, SetClaim, LeaseBase, ExtendedEvent, AcceptedSlug;
    StepIs(db, slug, op);
    LeaseLands(db, slug, phase, minutes, now, until, SetClaim(p, map[LeaseExpires := Num(until)]));
  }

  lemma LeaseRefused(db: Db, slug: string, phase: string, minutes: int, now: int)
    requires slug in db.plans && AcceptedSlug(slug)
    requires PlanOf(db, slug).claim.None? || Get(ClaimOf(PlanOf(db, slug)), PhaseId) != Str(phase)
    ensures Step(db, slug, ExtendLease(phase, minutes, now)) == Outcome(db, Err(ClaimMismatch))
  {
  }

  lemma LeaseLands(db: Db, slug: string, phase: string, minutes: int, now: int, until: int, q: Plan)
    requires slug in db.plans && PlanOf(db, slug).claim.Some?
    requires q == SetClaim(Bumped(PlanOf(db, slug)), map[LeaseExpires := Num(until)])
    ensures LeaseMoved(db, slug, Settle(db, slug, Log(q, db.last, [ExtendedEvent(phase, minutes, now, until)], Num(until))),
                       phase, minutes, now, until)
  {
    SetWrites(Bumped(PlanOf(db, slug)), map[LeaseExpires := Num(until)]);
    hide SetClaim, Log, IsEvent, Adds, Settle;
    OneEventLands(db, slug, q, now, LeaseExtended, ExtendedEvent(phase, minutes, now, until).payload, Num(until));
  }

  function ExtendedEvent(phase: string, minutes: int, now: int, until: int): NewEvent {
    NewEvent(now, LeaseExtended,
             map[Phase := Str(phase), ExtendedBy := Num(minutes), NewExpires := Num(until), Operator := Bool(true)])
  }

  lemma LeaseEffectIs(p: Plan, last: int, op: Op)
    requires op.ExtendLease?
    ensures PlanEffect(p, last, op) ==
              if p.claim.None? || Get(ClaimOf(p), PhaseId) != Str(op.phase) then Raise(ClaimMismatch)
              else
                var until := LeaseBase(Get(ClaimOf(p), LeaseExpires), op.now) + 60 * op.minutes;
                Log(SetClaim(p, map[LeaseExpires := Num(until)]), last, [ExtendedEvent(op.phase, op.minutes, op.now, until)],
                    Num(until))
  {
    hide SetClaim, Log, LeaseBase;
  }

  lemma LeaseBaseIs(was: Json, now: int)
    ensures var base := LeaseBase(was, now);
            base >= now && (was.Num? ==> base >= was.n) && (base == now || was == Num(base))
  {
  }

  /** One event and a reply, on the plan as the body left it. */
  lemma OneEventLands(db: Db, slug: string, q: Plan, ts: int, kind: Kind, payload: Doc, reply: Json)
    requires slug in db.plans && Ts !in payload && Type !in payload && Id !in payload
    requires var p := PlanOf(db, slug);
             q.version == p.version + 1 && q.archive == p.archive && q.events == p.events
    ensures var o, p := Settle(db, slug, Log(q, db.last, [NewEvent(ts, kind, payload)], reply)), PlanOf(db, slug);
            && Landed(db, slug, o, 1) && o.result == Ok(reply)
            && PlanOf(o.db, slug) == q.(events := PlanOf(o.db, slug).events)
            && IsEvent(Nth(PlanOf(o.db, slug).events, |p.events|), db.last + 1, ts, kind, payload)
  {
    var evs := [NewEvent(ts, kind, payload)];
    LogLands(db, slug, q, evs, reply);
    LoggedAfter(PlanOf(db, slug).events, db.last, evs);
    StampedPayload(PlanOf(db, slug).events, db.last, evs[0]);
    hide Stamp, Landed, Adds, Get, IsEvent;
  }

  lemma StampedPayload(before: seq<Event>, last: int, e: NewEvent)
    requires Ts !in e.payload && Type !in e.payload && Id !in e.payload
    ensures IsEvent(Nth(before + Stamp(last, [e]), |before|), last + 1, e.ts, e.kind, e.payload)
  {
  }

  /** The claim's record of attestations; absent is empty. */
  predicate Attested(p: Plan, record: Doc) {
    p.claim.Some? && if Attestations in p.claim.value then p.claim.value[Attestations] == Obj(record) else record == map[]
  }

  function AttestedAt(ts: int, sha: string): Json {
    Obj(map[At := Num(ts), CommitSha := Str(sha)])
  }

  /** An attestation is one stamp in that record, beside the others. */
  lemma AttestationLeaves(db: Db, slug: string, token: Option<string>, narrow: Option<string>, kind: string, sha: string,
          ts: int, events: seq<NewEvent>, record: Doc)
    requires slug in db.plans && AcceptedSlug(slug)
    requires Attested(PlanOf(db, slug), record) && (token.Some? ==> Matches(PlanOf(db, slug), token.value, narrow))
    ensures var o, p := Step(db, slug, StampAttestation(token, narrow, kind, sha, ts, events)), PlanOf(db, slug);
            && Landed(db, slug, o, |events|) && o.result == Ok(Null) && SameButClaim(p, PlanOf(o.db, slug))
            && Adds(p, PlanOf(o.db, slug), events)
            && Writes(p, PlanOf(o.db, slug), map[Attestations := Obj(record[Named(kind) := AttestedAt(ts, sha)])])
  {
    var p := Bumped(PlanOf(db, slug));
    var fields := map[Attestations := Obj(record[Named(kind) := AttestedAt(ts, sha)])];
    StepIs(db, slug, StampAttestation(token, narrow, kind, sha, ts, events));
    assert PlanEffect(p, db.last, StampAttestation(token, narrow, kind, sha, ts, events))
        == Log(SetClaim(p, fields), db.last, events, Null) by { hide SetClaim, Log, Step; }
    SetWrites(p, fields);
    hide Step, PlanEffect, SetClaim, Settle, Log, Landed, Adds, AcceptedSlug;
    LogLands(db, slug, SetClaim(p, fields), events, Null);
  }

  /** It needs the holder when one is named, a claim, and a record that is an
      object. */
  lemma AttestationErrors(db: Db, slug: string, token: Option<string>, narrow: Option<string>, kind: string, sha: string,
          ts: int, events: seq<NewEvent>)
    requires slug in db.plans && AcceptedSlug(slug)
    ensures var p := PlanOf(db, slug);
            (if token.Some? && !Matches(p, token.value, narrow) then Some(ClaimMismatch)
             else if p.claim.None? then Some(InvalidValue)
             else if exists record :: Attested(p, record) then None else Some(BadType))
            == ErrorOf(Step(db, slug, StampAttestation(token, narrow, kind, sha, ts, events)))
  {
    var p := Bumped(PlanOf(db, slug));
    StepIs(db, slug, StampAttestation(token, narrow, kind, sha, ts, events));
    if p.claim.Some? {
      var record := AsObject(p.claim.value, Attestations);
      if record.Some? { assert Attested(PlanOf(db, slug), record.value); }
    }
    hide Step, AcceptedSlug, SetClaim, Log;
  }

  /** The commit a gate was stamped at, null when it never was. */
  ghost predicate StampedAs(p: Plan, gate: string, sha: Json) {
    exists record: Doc :: (if p.claim.None? then record == map[] else Attested(p, record)) &&
      var entry := Get(record, Named(gate));
      if Truthy(entry) then entry.Obj? && sha == Get(entry.fields, CommitSha) else sha == Null
  }

  /** A refused attestation changes no document: it is logged, with the commit
      the gate was stamped at, unless that is the head commit by now. */
  lemma RefusalLeaves(db: Db, slug: string, phase: string, gate: string, head: string, ts: int, sha: Json)
    requires slug in db.plans && AcceptedSlug(slug) && StampedAs(PlanOf(db, slug), gate, sha)
    ensures var o, p := Step(db, slug, RefuseAttestation(phase, gate, head, ts)), PlanOf(db, slug);
            && SameButClaim(p, PlanOf(o.db, slug)) && PlanOf(o.db, slug).claim == p.claim
            && if sha == Str(head) then Landed(db, slug, o, 0) && o.result == Ok(Arr([Null, Bool(false)]))
               else
                 && Landed(db, slug, o, 1) && o.result == Ok(Arr([sha, Bool(true)]))
                 && IsEvent(Nth(PlanOf(o.db, slug).events, |p.events|), db.last + 1, ts, AttestationRefused,
                            map[Phase := Str(phase), Gate := Str(gate), StampedAt := sha, HeadSha := Str(head)])
  {
    var p, op := Bumped(PlanOf(db, slug)), RefuseAttestation(phase, gate, head, ts);
    var payload := map[Phase := Str(phase), Gate := Str(gate), StampedAt := sha, HeadSha := Str(head)];
    StepIs(db, slug, op);
    ShaIs(p, gate, sha);
    assert PlanEffect(p, db.last, op) ==
        if sha == Str(head) then Commit(p, db.last, Arr([Null, Bool(false)]))
        else Log(p, db.last, [NewEvent(ts, AttestationRefused, payload)], Arr([sha, Bool(true)])) by {
      hide Log, Step, AcceptedSlug, AsObject, StampedSha, StampedAs;
    }
    hide Step, PlanEffect, Settle, Log, Landed, Adds, AcceptedSlug, IsEvent, StampedAs;
    OneEventLands(db, slug, p, ts, AttestationRefused, payload, Arr([sha, Bool(true)]));
    QuietLands(db, slug, p, Arr([Null, Bool(false)]));
  }

  lemma ShaIs(p: Plan, gate: string, sha: Json)
    requires StampedAs(p, gate, sha)
    ensures var a := AsObject(if p.claim.Some? then p.claim.value else map[], Attestations);
            a.Some? && StampedSha(a.value, Named(gate)) == Some(sha)
  {
  }

  // ----- blockers ----------------------------------------------------------------------------------

  /** A key of a blocker's row. */
  predicate RowKey(k: Key) {
    || k == Id || k == PhaseId || k == Type || k == Question || k == Options || k == Context || k == AskedAt
    || k == Answer || k == AnsweredAt || k == LastRepingedAt || k == NotifyMetadata
  }

  /** The question as it was put. */
  predicate AsksIn(row: Doc, id: string, op: Op)
    requires op.AddBlocker?
  {
    && Get(row, Id) == Str(id) && Get(row, PhaseId) == Str(op.phase) && Get(row, Type) == Str(op.kindText)
    && Get(row, Question) == Str(op.question) && Get(row, Context) == Str(op.context) && Get(row, AskedAt) == Num(op.ts)
    && Get(row, Answer) == Null && Get(row, AnsweredAt) == Null && Get(row, Consumed) == Bool(false)
    && Get(row, Options).Arr? && |Get(row, Options).items| == |op.options|
    && forall i :: 0 <= i < |op.options| ==> Get(row, Options).items[i] == Str(op.options[i])
  }

  function LastRow(p: Plan): Doc {
    if p.blockers == [] then map[] else p.blockers[|p.blockers| - 1]
  }

  lemma RowKeysAre(k: Key)
    ensures RowKey(k) <==> k in ALWAYS_BLOCKER_KEYS || k == LastRepingedAt || k == NotifyMetadata
  {
  }

  /** A row reads as the document it was written from. */
  lemma RowReads(d: Doc)
    ensures forall k :: RowKey(k) ==> Get(NormalBlocker(d), k) == Get(d, k)
    ensures Get(NormalBlocker(d), Consumed) == Bool(Truthy(Get(d, Consumed)))
  {
    NormalReads(d);
    NormalReadsAlways(d);
    hide RowKey;
    forall k | RowKey(k)
      ensures Get(NormalBlocker(d), k) == Get(d, k)
    {
      RowKeysAre(k);
    }
    hide Truthy, Get, Present;
  }

  lemma FreshDoc(id: string, op: Op)
    requires op.AddBlocker?
    ensures var d := FreshBlocker(Str(id), op.phase, op.kindText, op.question, op.options, op.context, op.ts);
            && Get(d, Id) == Str(id) && Get(d, PhaseId) == Str(op.phase) && Get(d, Type) == Str(op.kindText)
            && Get(d, Question) == Str(op.question) && Get(d, Context) == Str(op.context) && Get(d, AskedAt) == Num(op.ts)
            && Get(d, Answer) == Null && Get(d, AnsweredAt) == Null && Get(d, Consumed) == Null
            && Get(d, Options) == Strings(op.options)
  {
    hide Strings;
  }

  lemma FreshReads(id: string, op: Op)
    requires op.AddBlocker?
    ensures var d := FreshBlocker(Str(id), op.phase, op.kindText, op.question, op.options, op.context, op.ts);
            AsksIn(NormalBlocker(d), id, op)
  {
    FreshDoc(id, op);
    RowReads(FreshBlocker(Str(id), op.phase, op.kindText, op.question, op.options, op.context, op.ts));
    hide FreshBlocker, NormalBlocker, Get;
  }

  /** The question was put on record under this id, and nothing else moved but
      the claim the call released. */
  ghost predicate Recorded(db: Db, slug: string, o: Outcome, op: Op, id: string)
    requires op.AddBlocker?
  {
    var p, q := PlanOf(db, slug), PlanOf(o.db, slug);
    && id == "q-" + Decimals.Decimal(|p.blockers| + 1)
    && Landed(db, slug, o, 1) && q.head == p.head && q.tasks == p.tasks
    && |q.blockers| == |p.blockers| + 1 && q.blockers[..|p.blockers|] == p.blockers && AsksIn(LastRow(q), id, op)
    && IsEvent(Nth(q.events, |p.events|), db.last + 1, op.ts, PhaseBlocked,
               map[Phase := Str(op.phase), BlockerId := Str(id), Question := Str(op.question)])
    && q.claim == if op.releaseToken.Some? || op.releasePhase.Some? then None else p.claim
  }

  /** Asking: the optional release first, then one row at the end that holds the
      question as it was put, under the next id, and one event that names it. */
  lemma QuestionLeaves(db: Db, slug: string, op: Op, id: string)
    requires slug in db.plans && AcceptedSlug(slug) && op.AddBlocker? && Step(db, slug, op).result == Ok(Str(id))
    ensures Recorded(db, slug, Step(db, slug, op), op, id)
  {
    hide Step, Settle, PlanEffect, Recorded, AcceptedSlug, Decimals.Decimal, NormalBlocker, FreshBlocker, Log;
    CommitOf(db, slug, op, Str(id));
    var p := Bumped(PlanOf(db, slug));
    QuestionEffect(p, db.last, op, id);
    QuestionLands(db, slug, op, id);
  }

  function Row(op: Op, id: string): Doc
    requires op.AddBlocker?
  {
    NormalBlocker(FreshBlocker(Str(id), op.phase, op.kindText, op.question, op.options, op.context, op.ts))
  }

  function AskedPlan(p: Plan, op: Op, id: string): Plan
    requires op.AddBlocker?
  {
    p.(blockers := p.blockers + [Row(op, id)],
       claim := if op.releaseToken.Some? || op.releasePhase.Some? then None else p.claim)
  }

  function AskedPayload(op: Op, id: string): Doc
    requires op.AddBlocker?
  {
    map[Phase := Str(op.phase), BlockerId := Str(id), Question := Str(op.question)]
  }

  lemma QuestionLands(db: Db, slug: string, op: Op, id: string)
    requires slug in db.plans && op.AddBlocker? && id == "q-" + Decimals.Decimal(|PlanOf(db, slug).blockers| + 1)
    ensures var q := AskedPlan(Bumped(PlanOf(db, slug)), op, id);
            var e := Log(q, db.last, [NewEvent(op.ts, PhaseBlocked, AskedPayload(op, id))], Str(id));
            Recorded(db, slug, Settle(db, slug, e), op, id)
  {
    FreshReads(id, op);
    var q := AskedPlan(Bumped(PlanOf(db, slug)), op, id);
    hide Settle, Log, Landed, IsEvent, NormalBlocker, FreshBlocker, AsksIn, Decimals.Decimal;
    OneEventLands(db, slug, q, op.ts, PhaseBlocked, AskedPayload(op, id), Str(id));
  }

  lemma QuestionEffect(p: Plan, last: int, op: Op, id: string)
    requires op.AddBlocker? && PlanEffect(p, last, op).Commit? && PlanEffect(p, last, op).reply == Str(id)
    ensures id == "q-" + Decimals.Decimal(|p.blockers| + 1)
    ensures PlanEffect(p, last, op)
         == Log(AskedPlan(p, op, id), last, [NewEvent(op.ts, PhaseBlocked, AskedPayload(op, id))], Str(id))
  {
    hide NormalBlocker, FreshBlocker, Stamp, Decimals.Decimal, Collides;
  }

  /** When asking fails: half a release, a release of a claim that is not ours,
      or the next id already taken. */
  lemma QuestionErrors(db: Db, slug: string, op: Op)
    requires slug in db.plans && AcceptedSlug(slug) && op.AddBlocker?
    ensures var p := PlanOf(db, slug);
            ErrorOf(Step(db, slug, op)) ==
              if op.releaseToken.Some? != op.releasePhase.Some? then Some(InvalidValue)
              else if op.releaseToken.Some? && !HeldFor(p, op.releaseToken.value, op.releasePhase.value)
              then Some(ClaimMismatch)
              else if exists i :: 0 <= i < |p.blockers| && Get(p.blockers[i], Id) == MintId("q-", |p.blockers| + 1)
              then Some(IntegrityError) else None
  {
    StepIs(db, slug, op);
    hide Step, AcceptedSlug, NormalBlocker, FreshBlocker, Stamp, BlockedEvent;
  }

  /** Row `i` is the one this id finds. */
  predicate FirstWith(docs: seq<Doc>, id: string, i: nat) {
    i < |docs| && Get(docs[i], Id) == Str(id) && forall j :: 0 <= j < i ==> Get(docs[j], Id) != Str(id)
  }

  lemma FindsFirst(docs: seq<Doc>, id: string, i: nat)
    ensures FirstWith(docs, id, i) <==> i < |docs| && Find(docs, Str(id)) == i
  {
  }

  /** Of row `i` exactly these keys changed; the consumed mark is kept. */
  ghost predicate RowWrites(bs: seq<Doc>, cs: seq<Doc>, i: nat, fields: Doc) {
    && |cs| == |bs| && i < |bs| && (forall j :: 0 <= j < |bs| && j != i ==> cs[j] == bs[j])
    && (forall k :: RowKey(k) ==> Get(cs[i], k) == if k in fields then fields[k] else Get(bs[i], k))
    && Truthy(Get(cs[i], Consumed)) == Truthy(if Consumed in fields then fields[Consumed] else Get(bs[i], Consumed))
  }

  lemma PlusReads(b: Doc, fields: Doc, k: Key)
    ensures Get(b + fields, k) == if k in fields then fields[k] else Get(b, k)
  {
  }

  lemma RowWritten(bs: seq<Doc>, i: nat, fields: Doc)
    requires i < |bs|
    ensures RowWrites(bs, bs[i := NormalBlocker(bs[i] + fields)], i, fields)
  {
    RowReads(bs[i] + fields);
    hide NormalBlocker, RowKey;
    forall k | RowKey(k)
      ensures Get(NormalBlocker(bs[i] + fields), k) == if k in fields then fields[k] else Get(bs[i], k)
    {
      PlusReads(bs[i], fields, k);
    }
    PlusReads(bs[i], fields, Consumed);
    hide Get;
  }

  /** Row `i` took the answer and its time, and the event says what was stored. */
  ghost predicate Stored(db: Db, slug: string, o: Outcome, blocker: string, ts: int, i: nat, stored: Json) {
    var p, q := PlanOf(db, slug), PlanOf(o.db, slug);
    && Landed(db, slug, o, 1) && o.result == Ok(stored) && SameButBlockers(p, q)
    && RowWrites(p.blockers, q.blockers, i, map[Answer := stored, AnsweredAt := Num(ts)])
    && IsEvent(Nth(q.events, |p.events|), db.last + 1, ts, BlockerAnswered, map[BlockerId := Str(blocker), Answer := stored])
  }

  /** Answering an unanswered row stores the option a number names, or the text
      as typed. */
  lemma AnswerLeaves(db: Db, slug: string, blocker: string, answer: string, ts: int, i: nat)
    requires slug in db.plans && AcceptedSlug(slug) && FirstWith(PlanOf(db, slug).blockers, blocker, i)
    requires Get(PlanOf(db, slug).blockers[i], Answer) == Null && Get(PlanOf(db, slug).blockers[i], Options).Arr?
    ensures var options := Get(PlanOf(db, slug).blockers[i], Options).items;
            Stored(db, slug, Step(db, slug, AnswerBlocker(blocker, answer, ts)), blocker, ts, i,
                   if Decimals.Digits(answer) && Decimals.Value(answer) < |options| then options[Decimals.Value(answer)]
                   else Str(answer))
  {
    var p, op := Bumped(PlanOf(db, slug)), AnswerBlocker(blocker, answer, ts);
    var stored := ResolveAnswer(Get(p.blockers[i], Options), answer).value;
    FindsFirst(p.blockers, blocker, i);
    hide Step, Settle, Log, PlanEffect, AcceptedSlug, NormalBlocker, FirstWith, Find, Stored;
    StepIs(db, slug, op);
    AnswerEffectIs(p, db.last, op, i);
    AnswerLands(db, slug, blocker, ts, i, stored);
  }

  lemma AnswerLands(db: Db, slug: string, blocker: string, ts: int, i: nat, stored: Json)
    requires slug in db.plans && i < |PlanOf(db, slug).blockers|
    ensures var p, fields := Bumped(PlanOf(db, slug)), map[Answer := stored, AnsweredAt := Num(ts)];
            var q := p.(blockers := p.blockers[i := NormalBlocker(p.blockers[i] + fields)]);
            var e := Log(q, db.last, [NewEvent(ts, BlockerAnswered, map[BlockerId := Str(blocker), Answer := stored])], stored);
            Stored(db, slug, Settle(db, slug, e), blocker, ts, i, stored)
  {
    var p, fields := Bumped(PlanOf(db, slug)), map[Answer := stored, AnsweredAt := Num(ts)];
    var payload := map[BlockerId := Str(blocker), Answer := stored];
    var q := p.(blockers := p.blockers[i := NormalBlocker(p.blockers[i] + fields)]);
    RowWritten(p.blockers, i, fields);
    hide Settle, Log, Landed, IsEvent, NormalBlocker, RowWrites;
    OneEventLands(db, slug, q, ts, BlockerAnswered, payload, stored);
  }

  lemma AnswerEffectIs(p: Plan, last: int, op: Op, i: nat)
    requires op.AnswerBlocker? && i == Find(p.blockers, Str(op.blocker)) && i < |p.blockers|
    requires Get(p.blockers[i], Answer) == Null && ResolveAnswer(Get(p.blockers[i], Options), op.answer).Some?
    ensures var stored := ResolveAnswer(Get(p.blockers[i], Options), op.answer).value;
            var row := NormalBlocker(p.blockers[i] + map[Answer := stored, AnsweredAt := Num(op.ts)]);
            PlanEffect(p, last, op) ==
              Log(p.(blockers := p.blockers[i := row]), last,
                  [NewEvent(op.ts, BlockerAnswered, map[BlockerId := Str(op.blocker), Answer := stored])], stored)
  {
    hide NormalBlocker, ResolveAnswer, Log, Find;
  }

  /** Otherwise it raises: no such question, answered already, or a number with
      nothing to choose from. */
  lemma AnswerErrors(db: Db, slug: string, blocker: string, answer: string, ts: int)
    requires slug in db.plans && AcceptedSlug(slug)
    ensures var bs, e := PlanOf(db, slug).blockers, ErrorOf(Step(db, slug, AnswerBlocker(blocker, answer, ts)));
            && ((forall b :: b in bs ==> Get(b, Id) != Str(blocker)) ==> e == Some(NoSuchKey))
            && forall i: nat :: FirstWith(bs, blocker, i) ==>
                 e == if Get(bs[i], Answer) != Null then Some(NoSuchKey)
                      else if Decimals.Digits(answer) && !Get(bs[i], Options).Arr? then Some(BadType) else None
  {
    StepIs(db, slug, AnswerBlocker(blocker, answer, ts));
    var bs := PlanOf(db, slug).blockers;
    forall j: nat | FirstWith(bs, blocker, j)
      ensures Find(bs, Str(blocker)) == j
    {
      FindsFirst(bs, blocker, j);
    }
    hide Step, AcceptedSlug, NormalBlocker, Stamp, Find;
  }

  /** One channel's record is put beside the others; an id nobody asked under
      changes nothing but the version. */
  lemma MetadataLeaves(db: Db, slug: string, blocker: string, channel: string, metadata: Json, i: nat, record: Doc)
    requires slug in db.plans && AcceptedSlug(slug) && FirstWith(PlanOf(db, slug).blockers, blocker, i)
    requires var b := PlanOf(db, slug).blockers[i];
             if NotifyMetadata in b then b[NotifyMetadata] == Obj(record) else record == map[]
    ensures var o, p, q := Step(db, slug, StampBlockerMetadata(blocker, channel, metadata)), PlanOf(db, slug),
                           PlanOf(Step(db, slug, StampBlockerMetadata(blocker, channel, metadata)).db, slug);
            && Landed(db, slug, o, 0) && o.result == Ok(Null) && SameButBlockers(p, q)
            && RowWrites(p.blockers, q.blockers, i, map[NotifyMetadata := Obj(record[Named(channel) := metadata])])
  {
    var p, op := Bumped(PlanOf(db, slug)), StampBlockerMetadata(blocker, channel, metadata);
    var fields := map[NotifyMetadata := Obj(record[Named(channel) := metadata])];
    var q := p.(blockers := p.blockers[i := NormalBlocker(p.blockers[i] + fields)]);
    StepIs(db, slug, op);
    FindsFirst(p.blockers, blocker, i);
    hide Step, Settle, PlanEffect, Landed, AcceptedSlug, NormalBlocker, RowWrites, FirstWith, Find;
    MetadataEffectIs(p, db.last, op, i, record);
    RowWritten(p.blockers, i, fields);
    QuietLands(db, slug, q, Null);
  }

  lemma MetadataEffectIs(p: Plan, last: int, op: Op, i: nat, record: Doc)
    requires op.StampBlockerMetadata? && i == Find(p.blockers, Str(op.blocker)) && i < |p.blockers|
    requires if NotifyMetadata in p.blockers[i] then p.blockers[i][NotifyMetadata] == Obj(record) else record == map[]
    ensures var fields := map[NotifyMetadata := Obj(record[Named(op.channel) := op.metadata])];
            var row := NormalBlocker(p.blockers[i] + fields);
            PlanEffect(p, last, op) == Commit(p.(blockers := p.blockers[i := row]), last, Null)
  {
    hide NormalBlocker, Find;
  }

  // ----- tasks --------------------------------------------------------------------------------------

  ghost predicate TaskWrites(before: Doc, after: Doc, fields: Doc) {
    forall k :: Get(after, k) == if k in fields then fields[k] else Get(before, k)
  }

  function LastTask(p: Plan): Doc {
    if p.tasks == [] then map[] else p.tasks[|p.tasks| - 1]
  }

  /** Spawning: one task at the end under the next id, otherwise as handed in
      but for its status, and one event that names it. */
  lemma SpawnLeaves(db: Db, slug: string, op: Op, id: string)
    requires slug in db.plans && AcceptedSlug(slug) && op.SpawnTask? && Step(db, slug, op).result == Ok(Str(id))
    ensures var o, p, q := Step(db, slug, op), PlanOf(db, slug), PlanOf(Step(db, slug, op).db, slug);
            && id == "task-" + Decimals.Decimal(|p.tasks| + 1) && Landed(db, slug, o, 1) && SameButTasks(p, q)
            && |q.tasks| == |p.tasks| + 1 && q.tasks[..|p.tasks|] == p.tasks
            && TaskWrites(op.task, LastTask(q), map[Id := Str(id), Status := Str(op.status)])
            && IsEvent(Nth(q.events, |p.events|), db.last + 1, op.ts, TaskSpawned,
                       map[Task := Str(id), Source := Get(op.task, Source), SpawnedByPhase := Get(op.task, SpawnedByPhase)])
  {
    var p := Bumped(PlanOf(db, slug));
    var row := NormalTask(op.task[Id := Str(id)][Status := Str(op.status)]);
    var payload := map[Task := Str(id), Source := Get(op.task, Source), SpawnedByPhase := Get(op.task, SpawnedByPhase)];
    var q := p.(tasks := p.tasks + [row]);
    StepIs(db, slug, op);
    assert TaskWrites(op.task, row, map[Id := Str(id), Status := Str(op.status)]);
    assert PlanEffect(p, db.last, op) == Log(q, db.last, [NewEvent(op.ts, TaskSpawned, payload)], Str(id))
        && Str(id) == MintId("task-", |p.tasks| + 1) by {
      hide Step, AcceptedSlug, NormalTask, Stamp, Collides, MintId;
    }
    hide Step, Log, Settle, PlanEffect, Landed, Adds, AcceptedSlug, NormalTask, TaskWrites, IsEvent;
    OneEventLands(db, slug, q, op.ts, TaskSpawned, payload, Str(id));
  }

  lemma SpawnErrors(db: Db, slug: string, op: Op)
    requires slug in db.plans && AcceptedSlug(slug) && op.SpawnTask?
    ensures var p := PlanOf(db, slug);
            ErrorOf(Step(db, slug, op)) ==
              if op.byToken.Some? && !Matches(p, op.byToken.value, op.narrow) then Some(ClaimMismatch)
              else if exists i :: 0 <= i < |p.tasks| && Get(p.tasks[i], Id) == MintId("task-", |p.tasks| + 1)
              then Some(IntegrityError) else None
  {
    StepIs(db, slug, op);
    hide Step, AcceptedSlug, NormalTask, Stamp;
  }

  /** Completing: an open task is marked done with its time and logs what the
      caller says; a task done already changes nothing but the version. */
  lemma CompleteLeaves(db: Db, slug: string, op: Op, i: nat)
    requires slug in db.plans && AcceptedSlug(slug) && op.CompleteTask? && FirstWith(PlanOf(db, slug).tasks, op.taskId, i)
    requires op.byToken.Some? ==> Matches(PlanOf(db, slug), op.byToken.value, op.narrow)
    ensures var o, p, q := Step(db, slug, op), PlanOf(db, slug), PlanOf(Step(db, slug, op).db, slug);
            && o.result == Ok(Null) && SameButTasks(p, q)
            && if Get(p.tasks[i], Status) == Str("done") then Landed(db, slug, o, 0) && q.tasks == p.tasks
               else
                 && Landed(db, slug, o, |op.events|) && Adds(p, q, op.events)
                 && |q.tasks| == |p.tasks| && (forall j :: 0 <= j < |p.tasks| && j != i ==> q.tasks[j] == p.tasks[j])
                 && TaskWrites(p.tasks[i], q.tasks[i], map[CompletedAt := Num(op.ts), Status := Str("done")])
  {
    var p := Bumped(PlanOf(db, slug));
    var row := NormalTask(p.tasks[i][CompletedAt := Num(op.ts)][Status := Str("done")]);
    var q := p.(tasks := p.tasks[i := row]);
    StepIs(db, slug, op);
    FindsFirst(p.tasks, op.taskId, i);
    assert TaskWrites(p.tasks[i], row, map[CompletedAt := Num(op.ts), Status := Str("done")]);
    assert PlanEffect(p, db.last, op) ==
        if Get(p.tasks[i], Status) == Str("done") then Commit(p, db.last, Null) else Log(q, db.last, op.events, Null) by {
      hide Step, AcceptedSlug, NormalTask, Log, Find;
    }
    hide Step, Log, Settle, PlanEffect, Landed, Adds, AcceptedSlug, NormalTask, TaskWrites, FirstWith, Find;
    LogLands(db, slug, q, op.events, Null);
    QuietLands(db, slug, p, Null);
  }

  lemma CompleteErrors(db: Db, slug: string, op: Op)
    requires slug in db.plans && AcceptedSlug(slug) && op.CompleteTask?
    ensures var p := PlanOf(db, slug);
            ErrorOf(Step(db, slug, op)) ==
              if op.byToken.Some? && !Matches(p, op.byToken.value, op.narrow) then Some(ClaimMismatch)
              else if forall i :: 0 <= i < |p.tasks| ==> Get(p.tasks[i], Id) != Str(op.taskId) then Some(NoSuchKey) else None
  {
    StepIs(db, slug, op);
    hide Step, AcceptedSlug, NormalTask, Stamp;
  }

  // ----- the head -------------------------------------------------------------------------------------

  /** A status write: the optional release, the one key, the caller's events. */
  lemma StatusLeaves(db: Db, slug: string, status: string, events: seq<NewEvent>, token: Option<string>, phase: Option<string>)
    requires slug in db.plans && AcceptedSlug(slug)
    ensures var o, p, q := Step(db, slug, SetStatus(status, events, token, phase)), PlanOf(db, slug),
                           PlanOf(Step(db, slug, SetStatus(status, events, token, phase)).db, slug);
            if token.Some? != phase.Some? then o == Outcome(db, Err(InvalidValue))
            else if token.Some? && !HeldFor(p, token.value, phase.value) then o == Outcome(db, Err(ClaimMismatch))
            else
              && Landed(db, slug, o, |events|) && o.result == Ok(Null) && Adds(p, q, events)
              && HeadWrites(p, q, map[Status := Str(status)], {}) && q.blockers == p.blockers && q.tasks == p.tasks
              && q.claim == if token.Some? then None else p.claim
  {
    var p := Bumped(PlanOf(db, slug));
    StepIs(db, slug, SetStatus(status, events, token, phase));
    var q := p.(head := p.head[Status := Str(status)], claim := if token.Some? then None else p.claim);
    hide Step, AcceptedSlug, Log, Landed, Adds;
    LogLands(db, slug, q, events, Null);
  }

  /** Field writes to the head: derived keys may not be written, nor they or the
      four scalars removed; otherwise the map update, then the removals. */
  lemma FieldsLeave(db: Db, slug: string, fields: Doc, remove: seq<Key>, events: seq<NewEvent>)
    requires slug in db.plans && AcceptedSlug(slug)
    ensures var o, p, q := Step(db, slug, SetFields(fields, remove, events)), PlanOf(db, slug),
                           PlanOf(Step(db, slug, SetFields(fields, remove, events)).db, slug);
            if (exists k :: k in fields && Derived(k)) || (exists k :: k in remove && (Derived(k) || Scalar(k)))
            then o == Outcome(db, Err(InvalidValue))
            else
              && Landed(db, slug, o, |events|) && o.result == Ok(Null) && Adds(p, q, events)
              && HeadWrites(p, q, fields, set k | k in remove) && q.claim == p.claim && SameRows(p, q)
  {
    var p := Bumped(PlanOf(db, slug));
    StepIs(db, slug, SetFields(fields, remove, events));
    DerivedAre();
    hide Derived, Scalar;
    hide Step, AcceptedSlug, Log, Landed, Adds;
    LogLands(db, slug, p.(head := (p.head + fields) - KeySet(remove)), events, Null);
  }

  predicate SameRows(p: Plan, q: Plan) {
    q.blockers == p.blockers && q.tasks == p.tasks
  }

  /** A head key that lives in a table of its own, or nowhere. */
  predicate Derived(k: Key) {
    k == SchemaVersion || k == PlanSlug || k == CurrentClaim || k == Key.Blockers || k == SpawnedTasks || k == Events
  }

  predicate Scalar(k: Key) {
    k == Status || k == PlanDir || k == CreatedAt || k == BatchId
  }

  lemma DerivedAre()
    ensures forall k :: IsHeadDerived(k) <==> Derived(k)
    ensures forall k :: IsHeadScalar(k) <==> Scalar(k)
  {
  }

  /** Archiving moves the whole hot log behind the archive, ids and all, and
      answers how many rows that was. */
  lemma ArchiveLeaves(db: Db, slug: string)
    requires slug in db.plans && AcceptedSlug(slug)
    ensures var o, p := Step(db, slug, ArchiveEvents), PlanOf(db, slug);
            && o == Outcome(Db(db.plans[slug := PlanOf(o.db, slug)], db.last), Ok(Num(|p.events|)))
            && PlanOf(o.db, slug) == p.(version := p.version + 1, archive := p.archive + p.events, events := [])
  {
  }

  // ----- creation -------------------------------------------------------------------------------------

  /** A claim field with a column of its own, where null and absent are one. */
  predicate Columned(k: Key) {
    || k == PhaseId || k == ClaimedBy || k == LeaseExpires || k == StartedAt || k == LastHeartbeatAt || k == Attempts
    || k == Pid || k == Pgid || k == LogPath || k == SessionId || k == ActiveToolStartedAt
  }

  ghost predicate HeadCreated(head: Doc, stored: Doc) {
    forall k :: (k in stored <==> Scalar(k) || (k in head && !Derived(k))) && (k in stored ==> stored[k] == Get(head, k))
  }

  ghost predicate ClaimCreated(claim: Doc, stored: Doc) {
    forall k :: (k in stored <==> k in claim && !(Columned(k) && claim[k] == Null)) && (k in stored ==> stored[k] == claim[k])
  }

  ghost predicate RowsCreated(docs: seq<Doc>, stored: seq<Doc>) {
    |stored| == |docs| && forall i :: 0 <= i < |docs| ==>
      && (forall k :: RowKey(k) ==> Get(stored[i], k) == Get(docs[i], k))
      && Get(stored[i], Consumed) == Bool(Truthy(Get(docs[i], Consumed)))
  }

  ghost predicate TasksCreated(docs: seq<Doc>, stored: seq<Doc>) {
    |stored| == |docs| && forall i, k :: 0 <= i < |docs| ==> Get(stored[i], k) == Get(docs[i], k)
  }

  /** The plan is there as it was handed in, at version 0, with its events as
      the log's next ones and no archive; no other plan moved. */
  ghost predicate Created(db: Db, slug: string, o: Outcome, doc: NewPlan) {
    && slug in o.db.plans && o.db == Db(db.plans[slug := o.db.plans[slug]], db.last + |doc.events|)
    && var q := o.db.plans[slug];
       && q.version == 0 && q.archive == [] && HeadCreated(doc.head, q.head)
       && (q.claim.Some? <==> doc.claim.Some?) && (q.claim.Some? ==> ClaimCreated(doc.claim.value, q.claim.value))
       && RowsCreated(doc.blockers, q.blockers) && TasksCreated(doc.tasks, q.tasks)
       && EventsCreated(db.last, doc.events, q.events)
  }

  ghost predicate EventsCreated(last: int, evs: seq<NewEvent>, stored: seq<Event>) {
    |stored| == |evs| && forall i :: 0 <= i < |stored| ==> stored[i].id == last + 1 + i && Carries(stored[i], evs[i])
  }

  lemma EventsAreCreated(last: int, evs: seq<NewEvent>)
    ensures EventsCreated(last, evs, Stamp(last, evs))
  {
    forall i | 0 <= i < |evs|
      ensures Stamp(last, evs)[i].id == last + 1 + i && Carries(Stamp(last, evs)[i], evs[i])
    {
      StampedAre(last, evs, i);
    }
    hide Stamp, Get;
  }

  lemma HeadIsCreated(head: Doc)
    ensures HeadCreated(head, NormalHead(head))
  {
    DerivedAre();
    hide Derived, Scalar;
  }

  lemma ClaimIsCreated(claim: Doc)
    ensures ClaimCreated(claim, NormalClaim(claim))
  {
    ColumnsAre();
    hide Columned;
  }

  lemma ColumnsAre()
    ensures forall k :: k in CLAIM_SCALARS <==> Columned(k)
  {
  }

  lemma RowsAreCreated(docs: seq<Doc>)
    ensures RowsCreated(docs, RoundTrip.NormalBlockers(docs))
  {
    hide NormalBlocker, RowKey, Truthy, Get;
    forall i | 0 <= i < |docs|
      ensures forall k :: RowKey(k) ==> Get(NormalBlocker(docs[i]), k) == Get(docs[i], k)
      ensures Get(NormalBlocker(docs[i]), Consumed) == Bool(Truthy(Get(docs[i], Consumed)))
    {
      RowReads(docs[i]);
    }
  }

  lemma CreateLeaves(db: Db, slug: string, doc: NewPlan)
    requires ErrorOf(Step(db, slug, Create(doc))).None?
    ensures Created(db, slug, Step(db, slug, Create(doc)), doc)
  {
    hide Step, NormalHead, NormalClaim, HeadCreated, ClaimCreated, RowsCreated, TasksCreated, EventsCreated, Stamp,
         RoundTrip.NormalBlockers, RoundTrip.NormalTasks, RoundTrip.AllKnown, RoundTrip.DistinctIds;
    RoundTrip.CreatedPlanReadsBack(db, slug, doc);
    HeadIsCreated(doc.head);
    if doc.claim.Some? { ClaimIsCreated(doc.claim.value); }
    RowsAreCreated(doc.blockers);
    TasksAreCreated(doc.tasks);
    EventsAreCreated(db.last, doc.events);
  }

  lemma TasksAreCreated(docs: seq<Doc>)
    ensures TasksCreated(docs, RoundTrip.NormalTasks(docs))
  {
  }

  /** Creation refuses a slug that is taken, two rows under one id, and a blocker
      field that has no column. */
  lemma CreateErrors(db: Db, slug: string, doc: NewPlan)
    requires AcceptedSlug(slug)
    ensures ErrorOf(Step(db, slug, Create(doc))).None? <==>
              && slug !in db.plans
              && (forall i, k :: 0 <= i < |doc.blockers| && k in doc.blockers[i] ==> RowKey(k) || k == Consumed)
              && (forall i, j :: 0 <= i < j < |doc.blockers| ==>
                    Get(doc.blockers[i], Id) != Get(doc.blockers[j], Id) || Get(doc.blockers[i], Id) == Null)
              && (forall i, j :: 0 <= i < j < |doc.tasks| ==>
                    Get(doc.tasks[i], Id) != Get(doc.tasks[j], Id) || Get(doc.tasks[i], Id) == Null)
  {
    RoundTrip.CreatedPlanReadsBack(db, slug, doc);
    assert forall k :: IsBlockerKey(k) <==> RowKey(k) || k == Consumed;
    hide Step, RowKey, IsBlockerKey;
  }
}
