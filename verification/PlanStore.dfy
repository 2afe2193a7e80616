/** The plan store as the code runs it: statements against rows, one write
    transaction per operation, rollback on every exception. Each operation is
    proved to be exactly one `Step` of the document database its rows stand
    for, answers and failures included. */
module PlanStore {
  import opened Values
  import opened PlanDoc
  import opened PlanOps
  import opened PlanRows
  import opened PlanTables
  import opened PlanStatements
  import EventLog

  class PlanStore {
    var t: Tables

    ghost function Now(): Db
      reads this
    {
      Abstract(t)
    }

    constructor ()
      ensures Valid(t) && Now() == Db(map[], 0)
    {
      t := Tables(map[], map[], map[], map[], [], [], 0);
    }

    // ----- statements ----------------------------------------------------------------

    /** The version bump that doubles as the existence check. */
    method Bump(slug: string) returns (found: bool)
      requires Valid(t)
      modifies this
      ensures t.last == old(Now()).last
      ensures found <==> slug in old(Now()).plans
      ensures found ==> Stands(t, old(Now()).plans, slug, Bumped(old(Now()).plans[slug]))
      ensures !found ==> t == old(t)
    {
      Bumps(t, slug);
      hide Valid, Abstract, Stands, Bumped;
      found := slug in t.plans;
      if found {
        t := t.(plans := t.plans[slug := t.plans[slug].(version := t.plans[slug].version + 1)]);
      }
    }

    method DeleteClaim(slug: string, ghost base: map<string, Plan>, ghost p: Plan)
      requires Stands(t, base, slug, p)
      modifies this
      ensures t.last == old(t.last) && Stands(t, base, slug, p.(claim := None))
    {
      hide Stands;
      UnclaimStatement(t, base, slug, p);
      t := t.(claims := t.claims - {slug});
    }

    method PutClaim(slug: string, row: Row, ghost base: map<string, Plan>, ghost p: Plan)
      requires Stands(t, base, slug, p) && ValidRow(row, CLAIM_SCALARS, CLAIM_JSONS)
      modifies this
      ensures t.last == old(t.last) && Stands(t, base, slug, p.(claim := Some(ReadClaim(row))))
    {
      hide Stands, ValidRow, ReadClaim;
      ClaimStatement(t, base, slug, p, row);
      t := t.(claims := t.claims[slug := row]);
    }

    method InsertEvents(slug: string, evs: seq<NewEvent>, ghost base: map<string, Plan>, ghost p: Plan)
      requires Stands(t, base, slug, p)
      modifies this
      ensures t.last == old(t.last) + |evs|
      ensures Stands(t, base, slug, Logging(p, old(t.last), evs))
    {
      hide Stands, Logging, StampOne, EventValues;
      ghost var last := t.last;
      LoggingNone(p, last, evs);
      for i := 0 to |evs|
        invariant t.last == last + i
        invariant Stands(t, base, slug, Logging(p, last, evs[..i]))
      {
        EventStatement(t, base, slug, Logging(p, last, evs[..i]), evs[i]);
        LoggingOneMore(p, last, evs, i);
        t := t.(events := t.events + [EventValues(t.last + 1, slug, evs[i])], last := t.last + 1);
      }
    }

    /** Split a claim-field write into columns, merging the rest into the
        flags the row already has. */
    method ClaimAssignments(row: Row, fields: Doc) returns (r: Row)
      requires ValidRow(row, CLAIM_SCALARS, CLAIM_JSONS)
      ensures ValidRow(r, CLAIM_SCALARS, CLAIM_JSONS)
      ensures ReadClaim(r) == NormalClaim(ReadClaim(row) + fields)
    {
      hide ReadClaim, ValidRow, Assigned, Taken, NormalClaim;
      r := row;
      var left := fields.Keys;
      ClaimUntaken(row, fields);
      while left != {}
        invariant left <= fields.Keys
        invariant ValidRow(r, CLAIM_SCALARS, CLAIM_JSONS)
        invariant ReadClaim(r) == NormalClaim(ReadClaim(row) + Taken(fields, left))
      {
        var k :| k in left;
        ClaimTaken(row, r, fields, left, k);
        r := Assigned(r, k, fields[k]);
        left := left - {k};
      }
      TakenAll(fields);
    }

    /** One `UPDATE claims SET ...` built from a field document. */
    method UpdateClaim(slug: string, fields: Doc, ghost base: map<string, Plan>, ghost p: Plan)
      requires Stands(t, base, slug, p) && slug in t.claims && p.claim.Some?
      modifies this
      ensures t.last == old(t.last) && Stands(t, base, slug, SetClaim(p, fields))
    {
      RowHoldsIsHolds(t, base, slug, p, "", None);
      hide Stands, ReadClaim, ValidRow, NormalClaim;
      var row := ClaimAssignments(t.claims[slug], fields);
      PutClaim(slug, row, base, p);
    }

    /** Validate the token and phase pair, then clear the claim. */
    method ReleaseInTxn(slug: string, token: Option<string>, phase: Option<string>, ghost base: map<string, Plan>,
            ghost p: Plan)
        returns (r: Result<Json>)
      requires Stands(t, base, slug, p)
      modifies this
      ensures t.last == old(t.last)
      ensures r.Err? ==> Released(p, token, phase) == Err(r.error)
      ensures r.Ok? ==> Released(p, token, phase) == Ok(p.(claim := None)) && Stands(t, base, slug, p.(claim := None))
      ensures r.Ok? ==> r.value == if p.claim.Some? then Obj(p.claim.value) else Null
    {
      hide Stands, ReadClaim, ValidRow, RowHolds;
      if token.Some? != phase.Some? { return Err(InvalidValue); }
      var claim := if slug in t.claims then Some(ReadClaim(t.claims[slug])) else None;
      RowHoldsIsHolds(t, base, slug, p, if token.Some? then token.value else "", phase);
      if token.Some? && !RowHolds(t, slug, token.value, phase) { return Err(ClaimMismatch); }
      DeleteClaim(slug, base, p);
      r := Ok(if claim.Some? then Obj(claim.value) else Null);
    }

    /** The release some operations start with, when its arguments are given. */
    method MaybeReleaseInTxn(slug: string, token: Option<string>, phase: Option<string>,
            ghost base: map<string, Plan>, ghost p: Plan)
        returns (r: Result<Json>)
      requires Stands(t, base, slug, p)
      modifies this
      ensures t.last == old(t.last)
      ensures r.Err? ==> MaybeReleased(p, token, phase) == Err(r.error)
      ensures r.Ok? ==> MaybeReleased(p, token, phase).Ok? && Stands(t, base, slug, MaybeReleased(p, token, phase).value)
    {
      hide Stands, Released;
      r := Ok(Null);
      if token.Some? || phase.Some? {
        r := ReleaseInTxn(slug, token, phase, base, p);
      }
    }

    /** The optional compare-and-set of the worker-facing operations. */
    method Refuses(slug: string, token: Option<string>, phase: Option<string>, ghost base: map<string, Plan>,
            ghost p: Plan)
        returns (refused: bool)
      requires Stands(t, base, slug, p)
      ensures refused <==> TokenRefused(p, token, phase)
    {
      RowHoldsIsHolds(t, base, slug, p, if token.Some? then token.value else "", phase);
      hide Stands, ReadClaim, ValidRow, RowHolds, Holds;
      refused := token.Some? && !RowHolds(t, slug, token.value, phase);
    }

    method PutBlocker(slug: string, i: nat, row: BlockerRow, ghost base: map<string, Plan>, ghost p: Plan)
      requires Stands(t, base, slug, p) && ValidBlockerRow(row) && i < |RowsAt(t.blockers, slug)|
      requires |p.blockers| == |RowsAt(t.blockers, slug)|
      modifies this
      ensures t.last == old(t.last) && Stands(t, base, slug, p.(blockers := p.blockers[i := ReadBlocker(row)]))
    {
      StandsParts(t, base, slug, p);
      StandsFor(t, base, slug, p);
      StandsRows(t, slug);
      hide Stands, ReadBlocker, ReadBlockers, ValidBlockerRow, ValidBlockerRows, RowsAt, Abstract, Valid;
      var rows := RowsAt(t.blockers, slug)[i := row];
      BlockerRowPut(RowsAt(t.blockers, slug), i, row);
      BlockersStatement(t, base, slug, p, rows);
      t := t.(blockers := t.blockers[slug := rows]);
    }

    /** `INSERT INTO blockers`, behind the field check and the primary key. */
    method InsertBlocker(slug: string, blocker: Doc, ghost base: map<string, Plan>, ghost p: Plan)
        returns (e: Option<Error>)
      requires Stands(t, base, slug, p)
      modifies this
      ensures t.last == old(t.last)
      ensures e == if !KnownFields(blocker) then Some(InvalidValue)
                   else if Collides(p.blockers, Get(blocker, Id)) then Some(IntegrityError) else None
      ensures e.None? ==> Stands(t, base, slug, p.(blockers := p.blockers + [NormalBlocker(blocker)]))
      ensures e.Some? ==> t == old(t)
    {
      StandsParts(t, base, slug, p);
      StandsFor(t, base, slug, p);
      StandsRows(t, slug);
      BlockerRoundTrip(blocker);
      BlockerValuesValid(blocker);
      hide Stands, ReadBlocker, ReadBlockers, ValidBlockerRow, ValidBlockerRows, RowsAt, Abstract, Valid,
           NormalBlocker, BlockerValues, KnownFields;
      var known := FieldsKnown(blocker);
      if !known { return Some(InvalidValue); }
      var rows := RowsAt(t.blockers, slug);
      var i := FindBlocker(rows, Get(blocker, Id));
      BlockerRowPut(rows, i, BlockerValues(blocker));
      if Get(blocker, Id) != Null && i < |rows| { return Some(IntegrityError); }
      BlockersStatement(t, base, slug, p, rows + [BlockerValues(blocker)]);
      t := t.(blockers := t.blockers[slug := rows + [BlockerValues(blocker)]]);
      e := None;
    }

    /** `INSERT INTO spawned_tasks`, behind the primary key. */
    method InsertTask(slug: string, task: Doc, ghost base: map<string, Plan>, ghost p: Plan) returns (e: Option<Error>)
      requires Stands(t, base, slug, p)
      modifies this
      ensures t.last == old(t.last)
      ensures e == if Collides(p.tasks, Get(task, Id)) then Some(IntegrityError) else None
      ensures e.None? ==> Stands(t, base, slug, p.(tasks := p.tasks + [NormalTask(task)]))
      ensures e.Some? ==> t == old(t)
    {
      StandsParts(t, base, slug, p);
      StandsFor(t, base, slug, p);
      StandsRows(t, slug);
      TaskRoundTrip(task);
      TaskValuesValid(task);
      hide Stands, ReadTask, ReadTasks, ValidTaskRow, ValidTaskRows, RowsAt, Abstract, Valid, NormalTask, TaskValues;
      var rows := RowsAt(t.tasks, slug);
      var i := FindTask(rows, Get(task, Id));
      TaskRowPut(rows, i, TaskValues(task));
      if Get(task, Id) != Null && i < |rows| { return Some(IntegrityError); }
      TasksStatement(t, base, slug, p, rows + [TaskValues(task)]);
      t := t.(tasks := t.tasks[slug := rows + [TaskValues(task)]]);
      e := None;
    }

    /** `UPDATE plans SET status = ?`. */
    method PutStatus(slug: string, status: string, ghost base: map<string, Plan>, ghost p: Plan)
      requires Stands(t, base, slug, p)
      modifies this
      ensures t.last == old(t.last) && Stands(t, base, slug, p.(head := p.head[Status := Str(status)]))
    {
      StandsParts(t, base, slug, p);
      StandsFor(t, base, slug, p);
      StandsRows(t, slug);
      ClaimColumns();
      KeyColumns();
      var row := t.plans[slug].row.(scalars := t.plans[slug].row.scalars[Status := Str(status)]);
      assert row == Assigned(t.plans[slug].row, Status, Str(status));
      AssignedHead(t.plans[slug].row, HEAD_SCALARS, HEAD_JSONS, Status, Str(status));
      hide Stands, ReadHead, ValidRow, Abstract, Valid, Assigned;
      HeadStatement(t, base, slug, p, row);
      t := t.(plans := t.plans[slug := t.plans[slug].(row := row)]);
    }

    // ----- claims --------------------------------------------------------------------------

    method OpHeartbeat(slug: string, token: string, phase: string, ts: int) returns (r: Result<Json>)
      requires Valid(t)
      modifies this
      ensures Valid(t) && Outcome(Now(), r) == Step(old(Now()), slug, Heartbeat(token, phase, ts))
    {
      hide Valid, Stands, Abstract, ReadClaim, ValidRow, NormalClaim;
      ghost var db, op := Now(), Heartbeat(token, phase, ts);
      if !AcceptedSlug(slug) { return Err(InvalidSlug); }
      var begin := t;
      var found := Bump(slug);
      if !found { return Err(FileNotFound); }
      ghost var p := Bumped(db.plans[slug]);
      RowHoldsIsHolds(t, db.plans, slug, p, token, Some(phase));
      if !RowHolds(t, slug, token, Some(phase)) {
        t := begin;
        Failed(db, slug, op, ClaimMismatch);
        return Err(ClaimMismatch);
      }
      UpdateClaim(slug, map[LastHeartbeatAt := Num(ts)], db.plans, p);
      Finished(t, db, slug, op, SetClaim(p, map[LastHeartbeatAt := Num(ts)]), Num(ts));
      r := Ok(Num(ts));
    }

    method OpActivity(slug: string, token: string, phase: string, action: string, ts: int) returns (r: Result<Json>)
      requires Valid(t)
      modifies this
      ensures Valid(t) && Outcome(Now(), r) == Step(old(Now()), slug, Activity(token, phase, action, ts))
    {
      hide Valid, Stands, Abstract, ReadClaim, ValidRow, NormalClaim;
      ghost var db, op := Now(), Activity(token, phase, action, ts);
      if action != "start" && action != "end" { return Err(InvalidValue); }
      if !AcceptedSlug(slug) { return Err(InvalidSlug); }
      var begin := t;
      var found := Bump(slug);
      if !found { return Err(FileNotFound); }
      ghost var p := Bumped(db.plans[slug]);
      RowHoldsIsHolds(t, db.plans, slug, p, token, Some(phase));
      if !RowHolds(t, slug, token, Some(phase)) {
        t := begin;
        Failed(db, slug, op, ClaimMismatch);
        return Err(ClaimMismatch);
      }
      if action == "end" {
        UpdateClaim(slug, map[ActiveToolStartedAt := Null], db.plans, p);
      } else {
        UpdateClaim(slug, map[ActiveToolStartedAt := Num(ts), CpuSamples := Arr([]),
                              WorkerIdleNotified := Bool(false), WorkerIdleNotifiedAt := Null], db.plans, p);
      }
      Finished(t, db, slug, op, SetClaim(p, ActivityFields(action, ts)), Bool(true));
      r := Ok(Bool(true));
    }

    method OpStampClaimFields(slug: string, token: string, fields: Doc, narrow: Option<string>, ifUnset: Option<Key>,
            events: seq<NewEvent>)
        returns (r: Result<Json>)
      requires Valid(t)
      modifies this
      ensures Valid(t)
      ensures Outcome(Now(), r) == Step(old(Now()), slug, StampClaimFields(token, fields, narrow, ifUnset, events))
    {
      hide Valid, Stands, Abstract, ReadClaim, ValidRow, NormalClaim, Logging, RowHolds, Holds, GuardValue, Unpacked;
      ghost var db, op := Now(), StampClaimFields(token, fields, narrow, ifUnset, events);
      if !AcceptedSlug(slug) { return Err(InvalidSlug); }
      var begin := t;
      var found := Bump(slug);
      if !found { return Err(FileNotFound); }
      ghost var p := Bumped(db.plans[slug]);
      RowHoldsIsHolds(t, db.plans, slug, p, token, narrow);
      if !RowHolds(t, slug, token, narrow) {
        t := begin;
        Failed(db, slug, op, ClaimMismatch);
        return Err(ClaimMismatch);
      }
      if ifUnset.Some? {
        var row := t.claims[slug];
        GuardReads(row, ifUnset.value);
        var current := Get(Unpacked(row.rest), ifUnset.value);
        if current == Null && ifUnset.value in CLAIM_SCALARS { current := Get(row.scalars, ifUnset.value); }
        if Truthy(current) {
          Finished(t, db, slug, op, p, Bool(false));
          return Ok(Bool(false));
        }
      }
      UpdateClaim(slug, fields, db.plans, p);
      InsertEvents(slug, events, db.plans, SetClaim(p, fields));
      LoggingIsLog(SetClaim(p, fields), db.last, events, Bool(true));
      Finished(t, db, slug, op, Logging(SetClaim(p, fields), db.last, events), Bool(true));
      r := Ok(Bool(true));
    }

    method OpAppendEvents(slug: string, events: seq<NewEvent>, token: Option<string>, phase: Option<string>)
        returns (r: Result<Json>)
      requires Valid(t)
      modifies this
      ensures Valid(t) && Outcome(Now(), r) == Step(old(Now()), slug, AppendEvents(events, token, phase))
    {
      hide Valid, Stands, Abstract, ReadClaim, ValidRow, NormalClaim, Logging, RowHolds, TokenRefused;
      ghost var db, op := Now(), AppendEvents(events, token, phase);
      if !AcceptedSlug(slug) { return Err(InvalidSlug); }
      var begin := t;
      var found := Bump(slug);
      if !found { return Err(FileNotFound); }
      ghost var p := Bumped(db.plans[slug]);
      var refused := Refuses(slug, token, phase, db.plans, p);
      if refused {
        t := begin;
        Failed(db, slug, op, ClaimMismatch);
        return Err(ClaimMismatch);
      }
      InsertEvents(slug, events, db.plans, p);
      LoggingIsLog(p, db.last, events, Null);
      Finished(t, db, slug, op, Logging(p, db.last, events), Null);
      r := Ok(Null);
    }

    method OpReleaseClaim(slug: string, token: Option<string>, phase: Option<string>, events: seq<NewEvent>)
        returns (r: Result<Json>)
      requires Valid(t)
      modifies this
      ensures Valid(t) && Outcome(Now(), r) == Step(old(Now()), slug, ReleaseClaim(token, phase, events))
    {
      hide Valid, Stands, Abstract, ReadClaim, ValidRow, NormalClaim, Logging, RowHolds, Released;
      ghost var db, op := Now(), ReleaseClaim(token, phase, events);
      if !AcceptedSlug(slug) { return Err(InvalidSlug); }
      var begin := t;
      var found := Bump(slug);
      if !found { return Err(FileNotFound); }
      ghost var p := Bumped(db.plans[slug]);
      r := ReleaseInTxn(slug, token, phase, db.plans, p);
      if r.Err? {
        t := begin;
        Failed(db, slug, op, r.error);
        return;
      }
      InsertEvents(slug, events, db.plans, p.(claim := None));
      LoggingIsLog(p.(claim := None), db.last, events, r.value);
      Finished(t, db, slug, op, Logging(p.(claim := None), db.last, events), r.value);
    }

    method OpStampAttestation(slug: string, token: Option<string>, phase: Option<string>, kind: string, sha: string,
            ts: int, events: seq<NewEvent>)
        returns (r: Result<Json>)
      requires Valid(t)
      modifies this
      ensures Valid(t)
      ensures Outcome(Now(), r) == Step(old(Now()), slug, StampAttestation(token, phase, kind, sha, ts, events))
    {
      hide Valid, Stands, Abstract, ReadClaim, ValidRow, NormalClaim, Logging, RowHolds, TokenRefused, AsObject,
           StoredObject;
      ghost var db, op := Now(), StampAttestation(token, phase, kind, sha, ts, events);
      if !AcceptedSlug(slug) { return Err(InvalidSlug); }
      var begin := t;
      var found := Bump(slug);
      if !found { return Err(FileNotFound); }
      ghost var p := Bumped(db.plans[slug]);
      RowHoldsIsHolds(t, db.plans, slug, p, "", None);
      var refused := Refuses(slug, token, phase, db.plans, p);
      if refused {
        t := begin;
        Failed(db, slug, op, ClaimMismatch);
        return Err(ClaimMismatch);
      }
      if slug !in t.claims {
        t := begin;
        Failed(db, slug, op, InvalidValue);
        return Err(InvalidValue);
      }
      AttestationsRead(t.claims[slug]);
      var attestations := StoredObject(t.claims[slug], Attestations);
      if attestations.None? {
        t := begin;
        Failed(db, slug, op, BadType);
        return Err(BadType);
      }
      var fields := map[Attestations := Obj(attestations.value[Named(kind) := Obj(map[At := Num(ts), CommitSha := Str(sha)])])];
      UpdateClaim(slug, fields, db.plans, p);
      InsertEvents(slug, events, db.plans, SetClaim(p, fields));
      LoggingIsLog(SetClaim(p, fields), db.last, events, Null);
      Finished(t, db, slug, op, Logging(SetClaim(p, fields), db.last, events), Null);
      r := Ok(Null);
    }

    method OpRefuseAttestation(slug: string, phase: string, gate: string, headSha: string, ts: int)
        returns (r: Result<Json>)
      requires Valid(t)
      modifies this
      ensures Valid(t) && Outcome(Now(), r) == Step(old(Now()), slug, RefuseAttestation(phase, gate, headSha, ts))
    {
      hide Valid, Stands, Abstract, ReadClaim, ValidRow, NormalClaim, Logging, RowHolds, AsObject, StampedSha,
           StoredObject;
      ghost var db, op := Now(), RefuseAttestation(phase, gate, headSha, ts);
      if !AcceptedSlug(slug) { return Err(InvalidSlug); }
      var begin := t;
      var found := Bump(slug);
      if !found { return Err(FileNotFound); }
      ghost var p := Bumped(db.plans[slug]);
      RowHoldsIsHolds(t, db.plans, slug, p, "", None);
      var attestations: Option<Doc> := Some(map[]);
      if slug in t.claims {
        AttestationsRead(t.claims[slug]);
        attestations := StoredObject(t.claims[slug], Attestations);
      } else {
        NoObject(Attestations);
      }
      var stamped := if attestations.None? then None else StampedSha(attestations.value, Named(gate));
      if stamped.None? {
        t := begin;
        Failed(db, slug, op, BadType);
        return Err(BadType);
      }
      if stamped.value == Str(headSha) {
        Finished(t, db, slug, op, p, Arr([Null, Bool(false)]));
        return Ok(Arr([Null, Bool(false)]));
      }
      var event := NewEvent(ts, AttestationRefused,
                            map[Phase := Str(phase), Gate := Str(gate), StampedAt := stamped.value, HeadSha := Str(headSha)]);
      InsertEvents(slug, [event], db.plans, p);
      LoggingIsLog(p, db.last, [event], Arr([stamped.value, Bool(true)]));
      Finished(t, db, slug, op, Logging(p, db.last, [event]), Arr([stamped.value, Bool(true)]));
      r := Ok(Arr([stamped.value, Bool(true)]));
    }

    method OpExtendLease(slug: string, phase: string, minutes: int, now: int) returns (r: Result<Json>)
      requires Valid(t)
      modifies this
      ensures Valid(t) && Outcome(Now(), r) == Step(old(Now()), slug, ExtendLease(phase, minutes, now))
    {
      hide Valid, Stands, Abstract, ReadClaim, ValidRow, NormalClaim, Logging, RowHolds, Holds, LeaseBase;
      ghost var db, op := Now(), ExtendLease(phase, minutes, now);
      if !AcceptedSlug(slug) { return Err(InvalidSlug); }
      var begin := t;
      var found := Bump(slug);
      if !found { return Err(FileNotFound); }
      ghost var p := Bumped(db.plans[slug]);
      RowHoldsIsHolds(t, db.plans, slug, p, "", None);
      LeaseRead(t, slug);
      if slug !in t.claims || Get(t.claims[slug].scalars, PhaseId) != Str(phase) {
        t := begin;
        Failed(db, slug, op, ClaimMismatch);
        return Err(ClaimMismatch);
      }
      var expires := LeaseBase(Get(t.claims[slug].scalars, LeaseExpires), now) + 60 * minutes;
      var event := NewEvent(now, LeaseExtended,
                            map[Phase := Str(phase), ExtendedBy := Num(minutes), NewExpires := Num(expires),
                              Operator := Bool(true)]);
      UpdateClaim(slug, map[LeaseExpires := Num(expires)], db.plans, p);
      InsertEvents(slug, [event], db.plans, SetClaim(p, map[LeaseExpires := Num(expires)]));
      LoggingIsLog(SetClaim(p, map[LeaseExpires := Num(expires)]), db.last, [event], Num(expires));
      Finished(t, db, slug, op, Logging(SetClaim(p, map[LeaseExpires := Num(expires)]), db.last, [event]), Num(expires));
      r := Ok(Num(expires));
    }

    // ----- blockers and tasks --------------------------------------------------------------

    method OpAddBlocker(slug: string, phase: string, question: string, options: seq<string>, context: string,
            kindText: string,
        releaseToken: Option<string>, releasePhase: Option<string>, ts: int) returns (r: Result<Json>)
      requires Valid(t)
      modifies this
      ensures Valid(t)
      ensures Outcome(Now(), r) == Step(old(Now()), slug,
          AddBlocker(phase, question, options, context, kindText, releaseToken, releasePhase, ts))
    {
      hide Valid, Stands, Abstract, ReadClaim, ValidRow, NormalClaim, Logging, RowHolds, MaybeReleased, FreshBlocker,
           NormalBlocker, BlockedEvent, MintId, Collides, KnownFields, RowsAt;
      ghost var db, op := Now(), AddBlocker(phase, question, options, context, kindText, releaseToken, releasePhase, ts);
      if !AcceptedSlug(slug) { return Err(InvalidSlug); }
      var begin := t;
      var found := Bump(slug);
      if !found { return Err(FileNotFound); }
      ghost var p := Bumped(db.plans[slug]);
      r := MaybeReleaseInTxn(slug, releaseToken, releasePhase, db.plans, p);
      if r.Err? {
        t := begin;
        Failed(db, slug, op, r.error);
        return;
      }
      ghost var q := MaybeReleased(p, releaseToken, releasePhase).value;
      BlockerCount(t, db.plans, slug, q);
      var id := MintId("q-", |RowsAt(t.blockers, slug)| + 1);
      var blocker := FreshBlocker(id, phase, kindText, question, options, context, ts);
      FreshBlockerFields(id, phase, kindText, question, options, context, ts);
      var e := InsertBlocker(slug, blocker, db.plans, q);
      if e.Some? {
        t := begin;
        Failed(db, slug, op, e.value);
        return Err(e.value);
      }
      ghost var recorded := q.(blockers := q.blockers + [NormalBlocker(blocker)]);
      InsertEvents(slug, [BlockedEvent(ts, phase, id, question)], db.plans, recorded);
      LoggingIsLog(recorded, db.last, [BlockedEvent(ts, phase, id, question)], id);
      Finished(t, db, slug, op, Logging(recorded, db.last, [BlockedEvent(ts, phase, id, question)]), id);
      r := Ok(id);
    }

    method OpAnswerBlocker(slug: string, blocker: string, answer: string, ts: int) returns (r: Result<Json>)
      requires Valid(t)
      modifies this
      ensures Valid(t) && Outcome(Now(), r) == Step(old(Now()), slug, AnswerBlocker(blocker, answer, ts))
    {
      hide Valid, Stands, Abstract, ReadClaim, ValidRow, NormalClaim, Logging, RowHolds, NormalBlocker, ReadBlocker,
           ReadBlockers, ResolveAnswer, KnownFields, RowsAt, ValidBlockerRow, ValidBlockerRows, Find;
      ghost var db, op := Now(), AnswerBlocker(blocker, answer, ts);
      if !AcceptedSlug(slug) { return Err(InvalidSlug); }
      var begin := t;
      var found := Bump(slug);
      if !found { return Err(FileNotFound); }
      ghost var p := Bumped(db.plans[slug]);
      StandingBlockers(t, db.plans, slug, p);
      var rows := RowsAt(t.blockers, slug);
      var i := FindBlocker(rows, Str(blocker));
      if i == |rows| || Get(rows[i].always, Answer) != Null {
        t := begin;
        Failed(db, slug, op, NoSuchKey);
        return Err(NoSuchKey);
      }
      var resolved := ResolveAnswer(Get(rows[i].always, Options), answer);
      if resolved.None? {
        t := begin;
        Failed(db, slug, op, BadType);
        return Err(BadType);
      }
      var fields := map[Answer := resolved.value, AnsweredAt := Num(ts)];
      AnswerFields(resolved.value, ts);
      var row := BlockerAssignments(rows[i], fields);
      PutBlocker(slug, i, row, db.plans, p);
      var event := NewEvent(ts, BlockerAnswered, map[BlockerId := Str(blocker), Answer := resolved.value]);
      ghost var q := p.(blockers := p.blockers[i := ReadBlocker(row)]);
      InsertEvents(slug, [event], db.plans, q);
      LoggingIsLog(q, db.last, [event], resolved.value);
      Finished(t, db, slug, op, Logging(q, db.last, [event]), resolved.value);
      r := Ok(resolved.value);
    }

    method OpStampBlockerMetadata(slug: string, blocker: string, channel: string, metadata: Json)
        returns (r: Result<Json>)
      requires Valid(t)
      modifies this
      ensures Valid(t) && Outcome(Now(), r) == Step(old(Now()), slug, StampBlockerMetadata(blocker, channel, metadata))
    {
      hide Valid, Stands, Abstract, ReadClaim, ValidRow, NormalClaim, Logging, RowHolds, NormalBlocker, ReadBlocker,
           ReadBlockers, AsObject, AsDoc, KnownFields, RowsAt, ValidBlockerRow, ValidBlockerRows, Find;
      ghost var db, op := Now(), StampBlockerMetadata(blocker, channel, metadata);
      if !AcceptedSlug(slug) { return Err(InvalidSlug); }
      var begin := t;
      var found := Bump(slug);
      if !found { return Err(FileNotFound); }
      ghost var p := Bumped(db.plans[slug]);
      StandingBlockers(t, db.plans, slug, p);
      var rows := RowsAt(t.blockers, slug);
      var i := FindBlocker(rows, Str(blocker));
      if i == |rows| {
        Finished(t, db, slug, op, p, Null);
        return Ok(Null);
      }
      var current := if rows[i].metadata.None? then Some(map[]) else AsDoc(rows[i].metadata.value);
      MetadataRead(rows[i]);
      if current.None? {
        t := begin;
        Failed(db, slug, op, BadType);
        return Err(BadType);
      }
      var fields := map[NotifyMetadata := Obj(current.value[Named(channel) := metadata])];
      MetadataField(fields[NotifyMetadata]);
      var row := BlockerAssignments(rows[i], fields);
      PutBlocker(slug, i, row, db.plans, p);
      Finished(t, db, slug, op, p.(blockers := p.blockers[i := ReadBlocker(row)]), Null);
      r := Ok(Null);
    }

    method OpSpawnTask(slug: string, task: Doc, status: string, token: Option<string>, phase: Option<string>, ts: int)
        returns (r: Result<Json>)
      requires Valid(t)
      modifies this
      ensures Valid(t) && Outcome(Now(), r) == Step(old(Now()), slug, SpawnTask(task, status, token, phase, ts))
    {
      hide Valid, Stands, Abstract, ReadClaim, ValidRow, NormalClaim, Logging, RowHolds, TokenRefused, NormalTask,
           ReadTasks, Collides, RowsAt, MintId;
      ghost var db, op := Now(), SpawnTask(task, status, token, phase, ts);
      if !AcceptedSlug(slug) { return Err(InvalidSlug); }
      var begin := t;
      var found := Bump(slug);
      if !found { return Err(FileNotFound); }
      ghost var p := Bumped(db.plans[slug]);
      var refused := Refuses(slug, token, phase, db.plans, p);
      if refused {
        t := begin;
        Failed(db, slug, op, ClaimMismatch);
        return Err(ClaimMismatch);
      }
      StandingTasks(t, db.plans, slug, p);
      var id := MintId("task-", |RowsAt(t.tasks, slug)| + 1);
      var row := task[Id := id][Status := Str(status)];
      var e := InsertTask(slug, row, db.plans, p);
      if e.Some? {
        t := begin;
        Failed(db, slug, op, e.value);
        return Err(e.value);
      }
      var event := NewEvent(ts, TaskSpawned, map[Task := id, Source := Get(task, Source),
        SpawnedByPhase := Get(task, SpawnedByPhase)]);
      ghost var q := p.(tasks := p.tasks + [NormalTask(row)]);
      InsertEvents(slug, [event], db.plans, q);
      LoggingIsLog(q, db.last, [event], id);
      Finished(t, db, slug, op, Logging(q, db.last, [event]), id);
      r := Ok(id);
    }

    method OpCompleteTask(slug: string, taskId: string, token: Option<string>, phase: Option<string>, ts: int,
            events: seq<NewEvent>)
        returns (r: Result<Json>)
      requires Valid(t)
      modifies this
      ensures Valid(t) && Outcome(Now(), r) == Step(old(Now()), slug, CompleteTask(taskId, token, phase, ts, events))
    {
      hide Valid, Stands, Abstract, ReadClaim, ValidRow, NormalClaim, Logging, RowHolds, TokenRefused, NormalTask,
           ReadTask, ReadTasks, RowsAt, ValidTaskRow, ValidTaskRows, Find, Unpacked;
      ghost var db, op := Now(), CompleteTask(taskId, token, phase, ts, events);
      if !AcceptedSlug(slug) { return Err(InvalidSlug); }
      var begin := t;
      var found := Bump(slug);
      if !found { return Err(FileNotFound); }
      ghost var p := Bumped(db.plans[slug]);
      var refused := Refuses(slug, token, phase, db.plans, p);
      if refused {
        t := begin;
        Failed(db, slug, op, ClaimMismatch);
        return Err(ClaimMismatch);
      }
      StandingTasks(t, db.plans, slug, p);
      var rows := RowsAt(t.tasks, slug);
      var i := FindTask(rows, Str(taskId));
      if i == |rows| {
        t := begin;
        Failed(db, slug, op, NoSuchKey);
        return Err(NoSuchKey);
      }
      TaskColumns(rows[i]);
      if rows[i].status == Str("done") {
        Finished(t, db, slug, op, p, Null);
        return Ok(Null);
      }
      var row := TaskRow(rows[i].id, Str("done"), Some(Unpacked(rows[i].payload)[CompletedAt := Num(ts)]));
      CompletedReads(rows[i], ts);
      CompletedValid(rows[i], ts);
      TaskRowPut(rows, i, row);
      TasksStatement(t, db.plans, slug, p, rows[i := row]);
      t := t.(tasks := t.tasks[slug := rows[i := row]]);
      ghost var q := p.(tasks := p.tasks[i := ReadTask(row)]);
      InsertEvents(slug, events, db.plans, q);
      LoggingIsLog(q, db.last, events, Null);
      Finished(t, db, slug, op, Logging(q, db.last, events), Null);
      r := Ok(Null);
    }

    // ----- head and archive ------------------------------------------------------------------

    method OpSetStatus(slug: string, status: string, events: seq<NewEvent>, releaseToken: Option<string>,
            releasePhase: Option<string>)
        returns (r: Result<Json>)
      requires Valid(t)
      modifies this
      ensures Valid(t)
      ensures Outcome(Now(), r) == Step(old(Now()), slug, SetStatus(status, events, releaseToken, releasePhase))
    {
      hide Valid, Stands, Abstract, ReadClaim, ValidRow, NormalClaim, Logging, RowHolds, MaybeReleased;
      ghost var db, op := Now(), SetStatus(status, events, releaseToken, releasePhase);
      if !AcceptedSlug(slug) { return Err(InvalidSlug); }
      var begin := t;
      var found := Bump(slug);
      if !found { return Err(FileNotFound); }
      ghost var p := Bumped(db.plans[slug]);
      r := MaybeReleaseInTxn(slug, releaseToken, releasePhase, db.plans, p);
      if r.Err? {
        t := begin;
        Failed(db, slug, op, r.error);
        return;
      }
      ghost var q := MaybeReleased(p, releaseToken, releasePhase).value;
      PutStatus(slug, status, db.plans, q);
      ghost var flipped := q.(head := q.head[Status := Str(status)]);
      InsertEvents(slug, events, db.plans, flipped);
      LoggingIsLog(flipped, db.last, events, Null);
      Finished(t, db, slug, op, Logging(flipped, db.last, events), Null);
      r := Ok(Null);
    }

    method OpSetFields(slug: string, fields: Doc, remove: seq<Key>, events: seq<NewEvent>) returns (r: Result<Json>)
      requires Valid(t)
      modifies this
      ensures Valid(t) && Outcome(Now(), r) == Step(old(Now()), slug, SetFields(fields, remove, events))
    {
      hide Valid, Stands, Abstract, ReadClaim, ValidRow, NormalClaim, Logging, RowHolds, SettableFields, ReadHead, KeySet;
      ghost var db, op := Now(), SetFields(fields, remove, events);
      if !AcceptedSlug(slug) { return Err(InvalidSlug); }
      var begin := t;
      var found := Bump(slug);
      if !found { return Err(FileNotFound); }
      ghost var p := Bumped(db.plans[slug]);
      StandingHead(t, db.plans, slug, p);
      var ok, row := HeadAssignments(t.plans[slug].row, fields, remove);
      if !ok {
        t := begin;
        Failed(db, slug, op, InvalidValue);
        return Err(InvalidValue);
      }
      HeadStatement(t, db.plans, slug, p, row);
      t := t.(plans := t.plans[slug := t.plans[slug].(row := row)]);
      ghost var q := p.(head := (p.head + fields) - KeySet(remove));
      InsertEvents(slug, events, db.plans, q);
      LoggingIsLog(q, db.last, events, Null);
      Finished(t, db, slug, op, Logging(q, db.last, events), Null);
      r := Ok(Null);
    }

    /** Setting or clearing the worktree is a field write: cleared is present
        and null, never removed. */
    method OpSetWorktree(slug: string, worktree: Json, events: seq<NewEvent>) returns (r: Result<Json>)
      requires Valid(t)
      modifies this
      ensures Valid(t) && Outcome(Now(), r) == Step(old(Now()), slug, SetFields(map[Worktree := worktree], [], events))
    {
      hide Valid, Abstract, Step;
      r := OpSetFields(slug, map[Worktree := worktree], [], events);
    }

    method OpArchiveEvents(slug: string) returns (r: Result<Json>)
      requires Valid(t)
      modifies this
      ensures Valid(t) && Outcome(Now(), r) == Step(old(Now()), slug, ArchiveEvents)
    {
      hide Valid, Stands, Abstract, ReadClaim, ValidRow, NormalClaim, Logging, RowHolds, Selected, Unselected,
           EventsFor, ReadHead, ReadBlockers, ReadTasks, ClaimAt;
      ghost var db, op := Now(), ArchiveEvents;
      if !AcceptedSlug(slug) { return Err(InvalidSlug); }
      var found := Bump(slug);
      if !found { return Err(FileNotFound); }
      ghost var p := Bumped(db.plans[slug]);
      StandsParts(t, db.plans, slug, p);
      SelectedCount(t.events, slug);
      var moved := |Selected(t.events, slug)|;
      ArchiveStatement(t, db.plans, slug, p);
      t := t.(archive := t.archive + Selected(t.events, slug), events := Unselected(t.events, slug));
      Finished(t, db, slug, op, p.(archive := p.archive + p.events, events := []), Num(moved));
      r := Ok(Num(moved));
    }

    // ----- the tick --------------------------------------------------------------------------

    /** Re-read every fact the decision declared. */
    method AssertPreconditions(slug: string, pre: TickPreconditions, ghost base: map<string, Plan>, ghost p: Plan)
        returns (ok: bool)
      requires Stands(t, base, slug, p)
      ensures ok <==> Preconditions(p, pre)
    {
      ClaimReads(t, base, slug, p);
      EventsRead(t, base, slug, p);
      StandingBlockers(t, base, slug, p);
      StatusReads(t, base, slug, p);
      hide Stands, ReadClaim, ReadBlockers, EventsFor, Ordered, BlockerColumnsRead, RowsAt, ValidBlockerRows,
           BlockerState,
           ClaimIdentity, ClaimFieldsHold;
      var claim := if slug in t.claims then Some(ReadClaim(t.claims[slug])) else None;
      ok := ClaimMatches(claim, pre.expectClaim, pre.expectClaimFields, p);
      if !ok { return; }
      if pre.expectMaxEventId.Some? {
        var m := MaxEventId(t.events, slug, t.last);
        if m != pre.expectMaxEventId.value { return false; }
      }
      ok := BlockersMatch(RowsAt(t.blockers, slug), pre.expectBlockerState, p);
      if !ok { return; }
      ok := pre.expectStatus == Null || Get(t.plans[slug].row.scalars, Status) == pre.expectStatus;
    }

    /** One entry of a delta's blocker updates. */
    method ApplyBlockerUpdate(slug: string, id: string, fields: Doc, ghost base: map<string, Plan>, ghost p: Plan)
        returns (e: Option<Error>)
      requires Stands(t, base, slug, p)
      modifies this
      ensures t.last == old(t.last)
      ensures e.Some? ==> UpdateBlocker(p.blockers, id, fields) == Err(e.value)
      ensures e.None? ==> UpdateBlocker(p.blockers, id, fields).Ok?
      ensures e.None? ==> Stands(t, base, slug, p.(blockers := UpdateBlocker(p.blockers, id, fields).value))
    {
      StandingBlockers(t, base, slug, p);
      hide Stands, RowsAt, ValidBlockerRows, ReadBlockers, ReadBlocker, NormalBlocker, KnownFields, Find,
           ValidBlockerRow, Truthy, Get;
      UpdateOutcome(p.blockers, id, fields);
      hide UpdateBlocker, Collides;
      var known := FieldsKnown(fields);
      if !known { return Some(InvalidValue); }
      if fields == map[] { return Some(SqlError); }
      var rows := RowsAt(t.blockers, slug);
      var i := FindBlocker(rows, Str(id));
      if i == |rows| { return Some(TickConflict); }
      if Id in fields && fields[Id] != Str(id) && fields[Id] != Null {
        var j := FindBlocker(rows, fields[Id]);
        if j < |rows| { return Some(IntegrityError); }
      }
      var row := BlockerAssignments(rows[i], fields);
      PutBlocker(slug, i, row, base, p);
      e := None;
    }

    method ApplyBlockerUpdates(slug: string, updates: seq<(string, Doc)>, ghost base: map<string, Plan>, ghost p: Plan)
        returns (e: Option<Error>)
      requires Stands(t, base, slug, p)
      modifies this
      ensures t.last == old(t.last)
      ensures e.Some? ==> UpdateBlockers(p.blockers, updates) == Err(e.value)
      ensures e.None? ==> UpdateBlockers(p.blockers, updates).Ok?
      ensures e.None? ==> Stands(t, base, slug, p.(blockers := UpdateBlockers(p.blockers, updates).value))
    {
      hide Stands, UpdateBlocker;
      ghost var q := p;
      for i := 0 to |updates|
        invariant t.last == old(t.last) && Stands(t, base, slug, q) && q == p.(blockers := q.blockers)
        invariant UpdateBlockers(q.blockers, updates[i..]) == UpdateBlockers(p.blockers, updates)
      {
        assert updates[i..][0] == updates[i] && updates[i..][1..] == updates[i + 1..];
        e := ApplyBlockerUpdate(slug, updates[i].0, updates[i].1, base, q);
        if e.Some? { return; }
        q := q.(blockers := UpdateBlocker(q.blockers, updates[i].0, updates[i].1).value);
      }
      e := None;
    }

    /** The writes of a delta, in order. */
    method WriteDelta(slug: string, delta: TickDelta, now: int, minted: string, ghost base: map<string, Plan>,
            ghost p: Plan)
        returns (r: Result<Json>)
      requires Stands(t, base, slug, p)
      modifies this
      ensures r.Err? ==> ApplyDelta(p, old(t.last), delta, now, minted) == Raise(r.error)
      ensures r.Ok? ==> ApplyDelta(p, old(t.last), delta, now, minted).Commit?
      ensures r.Ok? ==>
        var c := ApplyDelta(p, old(t.last), delta, now, minted);
        c.last == t.last && c.reply == r.value && Stands(t, base, slug, c.plan)
    {
      hide Stands, ReadClaim, ValidRow, NormalClaim, Logging, RowHolds, UpdateBlockers, ClaimValues, MintedClaim,
           StartedEvent;
      ghost var last := t.last;
      ghost var q := p;
      if delta.claimUpdates != map[] {
        HolderReads(t, base, slug, p);
        if slug !in t.claims || Get(t.claims[slug].scalars, ClaimedBy) != OptStr(delta.claimToken) { return Err(TickConflict); }
        UpdateClaim(slug, delta.claimUpdates, base, p);
        q := SetClaim(p, delta.claimUpdates);
      }
      assert ClaimUpdated(p, delta) == Ok(q);
      var e := ApplyBlockerUpdates(slug, delta.blockerUpdates, base, q);
      if e.Some? { return Err(e.value); }
      q := q.(blockers := UpdateBlockers(q.blockers, delta.blockerUpdates).value);
      if delta.releaseClaim {
        DeleteClaim(slug, base, q);
        q := q.(claim := None);
      }
      if delta.status.Some? {
        PutStatus(slug, delta.status.value, base, q);
        q := WithStatus(q, delta.status);
      }
      InsertEvents(slug, delta.events, base, q);
      LoggingIsLog(q, last, delta.events, Null);
      r := Ok(Null);
      if delta.claimPhase.Some? {
        var phase := delta.claimPhase.value;
        var claim := MintedClaim(phase, minted, now, delta.leaseMinutes, delta.claimAttempts);
        ClaimValuesRead(claim);
        PutClaim(slug, ClaimValues(claim), base, Logging(q, last, delta.events));
        InsertEvents(slug, [StartedEvent(now, phase, minted)], base,
          Logging(q, last, delta.events).(claim := Some(NormalClaim(claim))));
        LoggingTwice(q, Some(NormalClaim(claim)), last, delta.events, [StartedEvent(now, phase, minted)]);
        LoggingIsLog(q.(claim := Some(NormalClaim(claim))), last, delta.events + [StartedEvent(now, phase, minted)],
          Str(minted));
        r := Ok(Str(minted));
      }
    }

    /** One tick's whole decision, or nothing at all. */
    method OpApplyTick(slug: string, pre: TickPreconditions, delta: TickDelta, now: int, minted: string)
        returns (r: Result<Json>)
      requires Valid(t)
      modifies this
      ensures Valid(t) && Outcome(Now(), r) == Step(old(Now()), slug, ApplyTick(pre, delta, now, minted))
    {
      hide Valid, Stands, Abstract, Preconditions, ApplyDelta;
      ghost var db, op := Now(), ApplyTick(pre, delta, now, minted);
      if !AcceptedSlug(slug) { return Err(InvalidSlug); }
      var begin := t;
      var found := Bump(slug);
      if !found { return Err(FileNotFound); }
      ghost var p := Bumped(db.plans[slug]);
      var ok := AssertPreconditions(slug, pre, db.plans, p);
      if !ok {
        t := begin;
        Failed(db, slug, op, TickConflict);
        return Err(TickConflict);
      }
      r := WriteDelta(slug, delta, now, minted, db.plans, p);
      if r.Err? {
        t := begin;
        Failed(db, slug, op, r.error);
        return;
      }
      Finished(t, db, slug, op, ApplyDelta(p, db.last, delta, now, minted).plan, r.value);
    }

    // ----- creation ----------------------------------------------------------------------------

    /** Every row of a new plan; the first insert is the duplicate check. */
    method OpCreate(slug: string, doc: NewPlan) returns (r: Result<Json>)
      requires Valid(t)
      modifies this
      ensures Valid(t) && Outcome(Now(), r) == Step(old(Now()), slug, Create(doc))
    {
      ghost var db := Now();
      AbstractHas(t, slug);
      HeadValuesRead(doc.head);
      hide Valid, Stands, Abstract, ReadClaim, ReadHead, ValidRow, NormalClaim, NormalHead, Logging, ClaimValues,
           HeadValues,
           InsertBlockers, InsertTasks;
      if !AcceptedSlug(slug) { return Err(InvalidSlug); }
      if slug in t.plans { return Err(FileExists); }
      var begin := t;
      CreateStatement(t, slug, HeadValues(doc.head));
      t := t.(plans := t.plans[slug := HeadRow(0, HeadValues(doc.head))]);
      ghost var q := Plan(0, NormalHead(doc.head), None, [], [], [], []);
      if doc.claim.Some? {
        ClaimValuesRead(doc.claim.value);
        PutClaim(slug, ClaimValues(doc.claim.value), db.plans, q);
        q := q.(claim := Some(NormalClaim(doc.claim.value)));
      }
      var e := InsertBlockerRows(slug, doc.blockers, db.plans, q);
      if e.Some? {
        t := begin;
        return Err(e.value);
      }
      q := q.(blockers := InsertBlockers([], doc.blockers).value);
      e := InsertTaskRows(slug, doc.tasks, db.plans, q);
      if e.Some? {
        t := begin;
        return Err(e.value);
      }
      q := q.(tasks := InsertTasks([], doc.tasks).value);
      InsertEvents(slug, doc.events, db.plans, q);
      LoggingIsLog(q, db.last, doc.events, Null);
      FinishedCreate(t, db, slug, doc, Logging(q, db.last, doc.events));
      r := Ok(Null);
    }

    method InsertBlockerRows(slug: string, blockers: seq<Doc>, ghost base: map<string, Plan>, ghost p: Plan)
        returns (e: Option<Error>)
      requires Stands(t, base, slug, p) && p.blockers == []
      modifies this
      ensures t.last == old(t.last)
      ensures e.Some? ==> InsertBlockers([], blockers) == Err(e.value)
      ensures e.None? ==> InsertBlockers([], blockers).Ok?
      ensures e.None? ==> Stands(t, base, slug, p.(blockers := InsertBlockers([], blockers).value))
    {
      hide Stands, NormalBlocker, KnownFields, Collides;
      ghost var q := p;
      for i := 0 to |blockers|
        invariant t.last == old(t.last) && Stands(t, base, slug, q) && q == p.(blockers := q.blockers)
        invariant InsertBlockers(q.blockers, blockers[i..]) == InsertBlockers([], blockers)
      {
        assert blockers[i..][0] == blockers[i] && blockers[i..][1..] == blockers[i + 1..];
        e := InsertBlocker(slug, blockers[i], base, q);
        if e.Some? { return Some(if e.value == IntegrityError then FileExists else e.value); }
        q := q.(blockers := q.blockers + [NormalBlocker(blockers[i])]);
      }
      e := None;
    }

    method InsertTaskRows(slug: string, tasks: seq<Doc>, ghost base: map<string, Plan>, ghost p: Plan)
        returns (e: Option<Error>)
      requires Stands(t, base, slug, p) && p.tasks == []
      modifies this
      ensures t.last == old(t.last)
      ensures e.Some? ==> InsertTasks([], tasks) == Err(e.value)
      ensures e.None? ==> InsertTasks([], tasks).Ok?
      ensures e.None? ==> Stands(t, base, slug, p.(tasks := InsertTasks([], tasks).value))
    {
      hide Stands, NormalTask, Collides;
      ghost var q := p;
      for i := 0 to |tasks|
        invariant t.last == old(t.last) && Stands(t, base, slug, q) && q == p.(tasks := q.tasks)
        invariant InsertTasks(q.tasks, tasks[i..]) == InsertTasks([], tasks)
      {
        assert tasks[i..][0] == tasks[i] && tasks[i..][1..] == tasks[i + 1..];
        e := InsertTask(slug, tasks[i], base, q);
        if e.Some? { return Some(FileExists); }
        q := q.(tasks := q.tasks + [NormalTask(tasks[i])]);
      }
      e := None;
    }

    // ----- reads ---------------------------------------------------------------------------------

    /** The plan across its tables, in one read transaction. */
    method Snapshot(slug: string) returns (r: Result<Plan>)
      requires Valid(t)
      ensures r == if !AcceptedSlug(slug) then Err(InvalidSlug)
                   else if slug in Now().plans then Ok(Now().plans[slug]) else Err(FileNotFound)
    {
      AbstractHas(t, slug);
      hide Valid, Abstract, PlanOf;
      if !AcceptedSlug(slug) { return Err(InvalidSlug); }
      if slug !in t.plans { return Err(FileNotFound); }
      r := Ok(PlanOf(t, slug));
    }

    /** One poll of the event stream: this plan's hot rows past the cursor. */
    method PollEvents(slug: string, cursor: int) returns (evs: seq<Event>)
      requires Valid(t)
      ensures evs == if slug in Now().plans then EventLog.EventsAfter(Now().plans[slug].events, cursor) else []
    {
      AbstractHas(t, slug);
      PlanEvents(t, slug);
      hide Valid, Abstract, PlanOf;
      evs := [];
      for i := 0 to |t.events|
        invariant evs == EventLog.EventsAfter(EventsFor(t.events[..i], slug), cursor)
      {
        EventsForOneMore(t.events[..i], t.events[i], slug);
        assert t.events[..i + 1] == t.events[..i] + [t.events[i]];
        AfterOneMore(EventsFor(t.events[..i], slug), ReadEvent(t.events[i]), cursor);
        if t.events[i].slug == slug && t.events[i].id > cursor { evs := evs + [ReadEvent(t.events[i])]; }
      }
      assert t.events[..|t.events|] == t.events;
    }

    // ----- any operation, any run ----------------------------------------------------------------

    /** Whatever the operation, the rows move as the specification says. */
    method Do(slug: string, op: Op) returns (r: Result<Json>)
      requires Valid(t)
      modifies this
      ensures Valid(t) && Outcome(Now(), r) == Step(old(Now()), slug, op)
    {
      hide *;
      match op {
        case Create(doc) => r := OpCreate(slug, doc);
        case Heartbeat(token, phase, ts) => r := OpHeartbeat(slug, token, phase, ts);
        case Activity(token, phase, action, ts) => r := OpActivity(slug, token, phase, action, ts);
        case StampClaimFields(token, fields, narrow, ifUnset, events) =>
          r := OpStampClaimFields(slug, token, fields, narrow, ifUnset, events);
        case AppendEvents(events, token, phase) => r := OpAppendEvents(slug, events, token, phase);
        case ReleaseClaim(token, phase, events) => r := OpReleaseClaim(slug, token, phase, events);
        case StampAttestation(token, phase, kind, sha, ts, events) =>
          r := OpStampAttestation(slug, token, phase, kind, sha, ts, events);
        case AddBlocker(phase, question, options, context, kindText, releaseToken, releasePhase, ts) =>
          r := OpAddBlocker(slug, phase, question, options, context, kindText, releaseToken, releasePhase, ts);
        case AnswerBlocker(blocker, answer, ts) => r := OpAnswerBlocker(slug, blocker, answer, ts);
        case StampBlockerMetadata(blocker, channel, metadata) => r := OpStampBlockerMetadata(slug, blocker, channel, metadata);
        case SpawnTask(task, status, token, phase, ts) => r := OpSpawnTask(slug, task, status, token, phase, ts);
        case CompleteTask(taskId, token, phase, ts, events) => r := OpCompleteTask(slug, taskId, token, phase, ts, events);
        case SetStatus(status, events, token, phase) => r := OpSetStatus(slug, status, events, token, phase);
        case RefuseAttestation(phase, gate, headSha, ts) => r := OpRefuseAttestation(slug, phase, gate, headSha, ts);
        case SetFields(fields, remove, events) => r := OpSetFields(slug, fields, remove, events);
        case ExtendLease(phase, minutes, now) => r := OpExtendLease(slug, phase, minutes, now);
        case ArchiveEvents => r := OpArchiveEvents(slug);
        case ApplyTick(pre, delta, now, minted) => r := OpApplyTick(slug, pre, delta, now, minted);
      }
    }

    /** A whole run of calls on the rows is the same run on the documents. */
    method DoAll(calls: seq<EventLog.Call>)
      requires Valid(t)
      modifies this
      ensures Valid(t) && Now() == EventLog.Run(old(Now()), calls)
    {
      hide Valid, Now, Step;
      assert calls[..0] == [];
      for i := 0 to |calls|
        invariant Valid(t) && Now() == EventLog.Run(old(Now()), calls[..i])
      {
        label before:
        var r := Do(calls[i].slug, calls[i].op);
        EventLog.RunSplit(old(Now()), calls[..i], [calls[i]]);
        assert calls[..i + 1] == calls[..i] + [calls[i]];
        RunOne(old@before(Now()), calls[i]);
      }
      assert calls[..|calls|] == calls;
    }
  }

  lemma RunOne(db: Db, c: EventLog.Call)
    ensures EventLog.Run(db, [c]) == Step(db, c.slug, c.op).db
  {
    assert [c][1..] == [];
  }
}
