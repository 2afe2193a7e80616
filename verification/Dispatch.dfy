/** The dispatcher's last words about a dispatch that failed: two transactions
    at most, with anything at all running between them. */
module Dispatch {
  import opened Values
  import opened PlanDoc
  import opened PlanOps
  import opened EventLog
  import opened Claims
  import HotWrites
  import PlanTables
  import PlanStore

  /** Release with the events if the claim is still ours; if it is not, record
      the events alone, after whatever calls got in between. */
  function ReleaseRecorded(db: Db, slug: string, token: string, phase: string, events: seq<NewEvent>,
          between: seq<Call>): Outcome {
    var first := Step(db, slug, ReleaseClaim(Some(token), Some(phase), events));
    if first.result == Err(ClaimMismatch) then Step(Run(db, between), slug, AppendEvents(events, None, None)) else first
  }

  /** The same, pausing the plan. */
  function PauseRecorded(db: Db, slug: string, token: string, phase: string, event: NewEvent,
          between: seq<Call>): Outcome {
    var first := Step(db, slug, SetStatus("paused", [event], Some(token), Some(phase)));
    if first.result == Err(ClaimMismatch) then Step(Run(db, between), slug, SetStatus("paused", [event], None, None)) else first
  }

  method ReleaseRecording(store: PlanStore.PlanStore, slug: string, token: string, phase: string,
          events: seq<NewEvent>, between: seq<Call>)
      returns (r: Result<Json>)
    requires PlanTables.Valid(store.t)
    modifies store
    ensures PlanTables.Valid(store.t)
    ensures Outcome(store.Now(), r) == ReleaseRecorded(old(store.Now()), slug, token, phase, events, between)
  {
    hide PlanTables.Valid, Step;
    ghost var db := store.Now();
    r := store.OpReleaseClaim(slug, Some(token), Some(phase), events);
    if r == Err(ClaimMismatch) {
      FailedKeeps(db, slug, ReleaseClaim(Some(token), Some(phase), events));
      store.DoAll(between);
      r := store.OpAppendEvents(slug, events, None, None);
    }
  }

  method PauseRecording(store: PlanStore.PlanStore, slug: string, token: string, phase: string, event: NewEvent,
          between: seq<Call>)
      returns (r: Result<Json>)
    requires PlanTables.Valid(store.t)
    modifies store
    ensures PlanTables.Valid(store.t)
    ensures Outcome(store.Now(), r) == PauseRecorded(old(store.Now()), slug, token, phase, event, between)
  {
    hide PlanTables.Valid, Step;
    ghost var db := store.Now();
    r := store.OpSetStatus(slug, "paused", [event], Some(token), Some(phase));
    if r == Err(ClaimMismatch) {
      FailedKeeps(db, slug, SetStatus("paused", [event], Some(token), Some(phase)));
      store.DoAll(between);
      r := store.OpSetStatus(slug, "paused", [event], None, None);
    }
  }

  lemma FailedKeeps(db: Db, slug: string, op: Op)
    ensures Step(db, slug, op).result.Err? ==> Step(db, slug, op).db == db
  {
    hide PlanEffect, CreateEffect;
  }

  /** A plan as a failed dispatch leaves it: the events once at the end of its
      log, and nothing else of it moved but what is said. */
  predicate RecordedOnce(p: Plan, q: Plan, last: int, events: seq<NewEvent>, claim: Option<Doc>, head: Doc) {
    q == Bumped(p).(events := p.events + Stamp(last, events), claim := claim, head := head)
  }

  /** The failure lands in the log exactly once. A claim that is still ours is
      gone; a claim that is somebody else's survives, whatever ran between the
      two transactions. */
  lemma FailureIsRecordedOnce(db: Db, slug: string, token: string, phase: string, events: seq<NewEvent>,
          between: seq<Call>)
    requires WellLogged(db) && AcceptedSlug(slug) && slug in db.plans
    ensures var o, p := ReleaseRecorded(db, slug, token, phase, events, between), db.plans[slug];
            && o.result.Ok? && slug in o.db.plans
            && if Holds(p, token, Some(phase)) then RecordedOnce(p, o.db.plans[slug], db.last, events, None, p.head)
               else
                 var mid := Run(db, between);
                 slug in mid.plans && RecordedOnce(mid.plans[slug], o.db.plans[slug], mid.last, events,
                   mid.plans[slug].claim, mid.plans[slug].head)
  {
    RunFollows(db, between);
    hide Run, Stamp;
  }

  /** The pause, its event and the release of a claim that is still ours are
      one step; a foreign claim survives the pause. */
  lemma PauseIsRecordedOnce(db: Db, slug: string, token: string, phase: string, event: NewEvent, between: seq<Call>)
    requires WellLogged(db) && AcceptedSlug(slug) && slug in db.plans
    ensures var o, p := PauseRecorded(db, slug, token, phase, event, between), db.plans[slug];
            && o.result.Ok? && slug in o.db.plans
            && if Holds(p, token, Some(phase)) then
                 RecordedOnce(p, o.db.plans[slug], db.last, [event], None, p.head[Status := Str("paused")])
               else
                 var mid := Run(db, between);
                 slug in mid.plans
                 && RecordedOnce(mid.plans[slug], o.db.plans[slug], mid.last, [event], mid.plans[slug].claim,
                                 mid.plans[slug].head[Status := Str("paused")])
  {
    RunFollows(db, between);
    hide Run, Stamp;
  }

  // ----- the pid ---------------------------------------------------------------------------

  function PidFields(pid: int, logPath: string, session: Option<string>): Doc {
    map[Pid := Num(pid), Pgid := Num(pid), LogPath := Str(logPath)]
    + (if session.Some? then map[SessionId := Str(session.value)] else map[])
  }

  /** Best effort: a claim that moved in the meantime drops the stamp. */
  function PidStamped(db: Db, slug: string, token: string, pid: int, logPath: string, session: Option<string>): Db {
    Step(db, slug, StampClaimFields(token, PidFields(pid, logPath, session), None, None, [])).db
  }

  method StampPid(store: PlanStore.PlanStore, slug: string, token: Option<string>, pid: int, logPath: string,
          session: Option<string>)
    requires PlanTables.Valid(store.t)
    modifies store
    ensures PlanTables.Valid(store.t)
    ensures store.Now() == if token.None? then old(store.Now())
                           else PidStamped(old(store.Now()), slug, token.value, pid, logPath, session)
  {
    hide PlanTables.Valid, Step;
    if token.None? { return; }
    var fields := map[Pid := Num(pid), Pgid := Num(pid), LogPath := Str(logPath)];
    if session.Some? { fields := fields[SessionId := Str(session.value)]; }
    assert fields == PidFields(pid, logPath, session);
    var r := store.OpStampClaimFields(slug, token.value, fields, None, None, []);
  }

  /** The claim names the worker's process, its group and its log, and its
      session when there is one; every other field reads as before. */
  ghost predicate PidLanded(before: Doc, claim: Doc, pid: int, logPath: string, session: Option<string>) {
    && Get(claim, Pid) == Num(pid) && Get(claim, Pgid) == Num(pid) && Get(claim, LogPath) == Str(logPath)
    && Get(claim, SessionId) == (if session.Some? then Str(session.value) else Get(before, SessionId))
    && forall k :: k != Pid && k != Pgid && k != LogPath && k != SessionId ==> Get(claim, k) == Get(before, k)
  }

  ghost predicate PidHome(p: Plan, after: Db, slug: string, pid: int, logPath: string, session: Option<string>) {
    && slug in after.plans && p.claim.Some? && after.plans[slug].claim.Some?
    && PidLanded(p.claim.value, after.plans[slug].claim.value, pid, logPath, session)
    && after.plans[slug].events == p.events
  }

  /** A worker's pid never lands on somebody else's claim, and on its own it
      changes the pid fields and no other. */
  lemma PidStaysHome(db: Db, slug: string, token: string, pid: int, logPath: string, session: Option<string>)
    requires AcceptedSlug(slug) && slug in db.plans
    ensures var after, p := PidStamped(db, slug, token, pid, logPath, session), db.plans[slug];
            if Live(p, token) then PidHome(p, after, slug, pid, logPath, session) else after == db
  {
    PidStep(db, slug, token, PidFields(pid, logPath, session));
    hide Step, PidLanded, PidFields, NormalClaim;
    if Live(db.plans[slug], token) {
      PidReads(db.plans[slug].claim.value, pid, logPath, session);
    }
  }

  lemma PidStep(db: Db, slug: string, token: string, fields: Doc)
    requires AcceptedSlug(slug) && slug in db.plans
    ensures var p, q := db.plans[slug], Step(db, slug, StampClaimFields(token, fields, None, None, [])).db;
            q == if Live(p, token) then Db(db.plans[slug := SetClaim(Bumped(p), fields)], db.last) else db
  {
    var p := Bumped(db.plans[slug]);
    StampEffect(p, db.last, token, fields);
    hide PlanEffect, SetClaim, AcceptedSlug;
  }

  lemma StampEffect(p: Plan, last: int, token: string, fields: Doc)
    ensures PlanEffect(p, last, StampClaimFields(token, fields, None, None, [])) ==
              if Live(p, token) then Commit(SetClaim(p, fields), last, Bool(true)) else Raise(ClaimMismatch)
  {
    hide NormalClaim;
    assert p.events + Stamp(last, []) == p.events;
  }

  lemma WrittenReads(claim: Doc, fields: Doc, k: Key)
    requires k in fields && fields[k] != Null
    ensures Get(NormalClaim(claim + fields), k) == fields[k]
  {
  }

  lemma PidReads(claim: Doc, pid: int, logPath: string, session: Option<string>)
    ensures PidLanded(claim, NormalClaim(claim + PidFields(pid, logPath, session)), pid, logPath, session)
  {
    PidsWritten(claim, pid, logPath, session);
    OthersRead(claim, pid, logPath, session);
    hide NormalClaim, PidFields, Get;
  }

  lemma PidsWritten(claim: Doc, pid: int, logPath: string, session: Option<string>)
    ensures var after := NormalClaim(claim + PidFields(pid, logPath, session));
            && Get(after, Pid) == Num(pid) && Get(after, Pgid) == Num(pid) && Get(after, LogPath) == Str(logPath)
            && Get(after, SessionId) == (if session.Some? then Str(session.value) else Get(claim, SessionId))
  {
    hide NormalClaim;
    var fields := PidFields(pid, logPath, session);
    WrittenReads(claim, fields, Pid);
    WrittenReads(claim, fields, Pgid);
    WrittenReads(claim, fields, LogPath);
    if session.Some? {
      WrittenReads(claim, fields, SessionId);
    } else {
      HotWrites.UntouchedReads(claim, fields, SessionId);
    }
    hide Get;
  }

  lemma OthersRead(claim: Doc, pid: int, logPath: string, session: Option<string>)
    ensures forall k :: k != Pid && k != Pgid && k != LogPath && k != SessionId ==>
              Get(NormalClaim(claim + PidFields(pid, logPath, session)), k) == Get(claim, k)
  {
    hide NormalClaim;
    forall k | k != Pid && k != Pgid && k != LogPath && k != SessionId
      ensures Get(NormalClaim(claim + PidFields(pid, logPath, session)), k) == Get(claim, k)
    {
      HotWrites.UntouchedReads(claim, PidFields(pid, logPath, session), k);
    }
  }
}
