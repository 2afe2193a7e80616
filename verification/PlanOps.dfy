/** Every operation of the plan store as a transition on documents. `Step` is
    the specification the row-level store is proved against and the step
    relation of every run in this project. */
module PlanOps {
  import opened Values
  import opened PlanDoc
  import Decimals

  // ----- the tick's decision, as data ------------------------------------------

  datatype Expect<+T> = Unchecked | Expected(value: T)

  /** The facts a tick's decision rested on. `expectClaim` distinguishes "not
      judged" from "judged absent"; a null `expectStatus` is "not judged". */
  datatype TickPreconditions = TickPreconditions(
    expectClaim: Expect<Option<(Json, Json)>>,
    expectMaxEventId: Option<int>,
    expectClaimFields: Doc,
    expectBlockerState: map<string, (bool, bool)>,
    expectStatus: Json)

  datatype TickDelta = TickDelta(
    claimUpdates: Doc, claimToken: Option<string>,
    blockerUpdates: seq<(string, Doc)>,
    releaseClaim: bool, status: Option<string>, events: seq<NewEvent>,
    claimPhase: Option<string>, leaseMinutes: int, claimAttempts: Option<int>)

  /** A plan document as its creator hands it in. */
  datatype NewPlan = NewPlan(
    head: Doc, claim: Option<Doc>, blockers: seq<Doc>, tasks: seq<Doc>, events: seq<NewEvent>)

  datatype Op =
    | Create(doc: NewPlan)
    | Heartbeat(token: string, phase: string, ts: int)
    | Activity(token: string, phase: string, action: string, ts: int)
    | StampClaimFields(token: string, fields: Doc, narrow: Option<string>, ifUnset: Option<Key>, events: seq<NewEvent>)
    | AppendEvents(events: seq<NewEvent>, byToken: Option<string>, narrow: Option<string>)
    | ReleaseClaim(byToken: Option<string>, narrow: Option<string>, events: seq<NewEvent>)
    | StampAttestation(byToken: Option<string>, narrow: Option<string>, kind: string, sha: string, ts: int,
      events: seq<NewEvent>)
    | AddBlocker(phase: string, question: string, options: seq<string>, context: string, kindText: string,
                 releaseToken: Option<string>, releasePhase: Option<string>, ts: int)
    | AnswerBlocker(blocker: string, answer: string, ts: int)
    | StampBlockerMetadata(blocker: string, channel: string, metadata: Json)
    | SpawnTask(task: Doc, status: string, byToken: Option<string>, narrow: Option<string>, ts: int)
    | CompleteTask(taskId: string, byToken: Option<string>, narrow: Option<string>, ts: int, events: seq<NewEvent>)
    | SetStatus(status: string, events: seq<NewEvent>, releaseToken: Option<string>, releasePhase: Option<string>)
    | RefuseAttestation(phase: string, gate: string, headSha: string, ts: int)
    | SetFields(fields: Doc, remove: seq<Key>, events: seq<NewEvent>)
    | ExtendLease(phase: string, minutes: int, now: int)
    | ArchiveEvents
    | ApplyTick(pre: TickPreconditions, delta: TickDelta, now: int, minted: string)

  /** What a transaction body does: raise, or leave new rows and an answer. */
  datatype Effect =
    | Raise(error: Error)
    | Commit(plan: Plan, last: int, reply: Json)

  function Log(p: Plan, last: int, evs: seq<NewEvent>, reply: Json): Effect {
    Commit(p.(events := p.events + Stamp(last, evs)), last + |evs|, reply)
  }

  // ----- claims -----------------------------------------------------------------

  function SetClaim(p: Plan, fields: Doc): Plan
    requires p.claim.Some?
  {
    p.(claim := Some(NormalClaim(p.claim.value + fields)))
  }

  function HeartbeatEffect(p: Plan, last: int, token: string, phase: string, ts: int): Effect {
    if !Holds(p, token, Some(phase)) then Raise(ClaimMismatch)
    else Commit(SetClaim(p, map[LastHeartbeatAt := Num(ts)]), last, Num(ts))
  }

  /** What an activity stamp writes. A start voids the idle watchdog's window. */
  function ActivityFields(action: string, ts: int): Doc {
    if action == "start"
    then map[ActiveToolStartedAt := Num(ts), CpuSamples := Arr([]),
             WorkerIdleNotified := Bool(false), WorkerIdleNotifiedAt := Null]
    else map[ActiveToolStartedAt := Null]
  }

  function ActivityEffect(p: Plan, last: int, token: string, phase: string, action: string, ts: int): Effect {
    if !Holds(p, token, Some(phase)) then Raise(ClaimMismatch)
    else Commit(SetClaim(p, ActivityFields(action, ts)), last, Bool(true))
  }

  /** What `if_unset` looks at: a flag or a scalar, never a JSON column. */
  function GuardValue(claim: Doc, k: Key): Json {
    if IsClaimJson(k) then Null else Get(claim, k)
  }

  function StampClaimFieldsEffect(p: Plan, last: int, token: string, fields: Doc, narrow: Option<string>,
                                  ifUnset: Option<Key>, events: seq<NewEvent>): Effect {
    if !Holds(p, token, narrow) then Raise(ClaimMismatch)
    else if ifUnset.Some? && Truthy(GuardValue(p.claim.value, ifUnset.value)) then Commit(p, last, Bool(false))
    else Log(SetClaim(p, fields), last, events, Bool(true))
  }

  predicate TokenRefused(p: Plan, byToken: Option<string>, narrow: Option<string>) {
    byToken.Some? && !Holds(p, byToken.value, narrow)
  }

  function AppendEventsEffect(p: Plan, last: int, events: seq<NewEvent>, byToken: Option<string>,
          narrow: Option<string>): Effect {
    if TokenRefused(p, byToken, narrow) then Raise(ClaimMismatch) else Log(p, last, events, Null)
  }

  /** Clear the claim; token and phase are both given or both absent. */
  function Released(p: Plan, token: Option<string>, phase: Option<string>): Result<Plan> {
    if token.Some? != phase.Some? then Err(InvalidValue)
    else if TokenRefused(p, token, phase) then Err(ClaimMismatch)
    else Ok(p.(claim := None))
  }

  /** The optional release some operations start with. */
  function MaybeReleased(p: Plan, token: Option<string>, phase: Option<string>): Result<Plan> {
    if token.Some? || phase.Some? then Released(p, token, phase) else Ok(p)
  }

  function ReleaseClaimEffect(p: Plan, last: int, token: Option<string>, phase: Option<string>,
          events: seq<NewEvent>): Effect {
    match Released(p, token, phase)
    case Err(e) => Raise(e)
    case Ok(q) => Log(q, last, events, if p.claim.Some? then Obj(p.claim.value) else Null)
  }

  /** A JSON column read as an object: absent is empty, anything that is not
      an object cannot be written into. */
  function AsObject(d: Doc, k: Key): Option<Doc> {
    if k !in d then Some(map[])
    else match d[k]
      case Obj(f) => Some(f)
      case _ => None
  }

  function StampAttestationEffect(p: Plan, last: int, byToken: Option<string>, narrow: Option<string>,
                                  kind: string, sha: string, ts: int, events: seq<NewEvent>): Effect {
    if TokenRefused(p, byToken, narrow) then Raise(ClaimMismatch)
    else if p.claim.None? then Raise(InvalidValue)
    else match AsObject(p.claim.value, Attestations)
      case None => Raise(BadType)
      case Some(a) =>
        var stamp := Obj(map[At := Num(ts), CommitSha := Str(sha)]);
        Log(SetClaim(p, map[Attestations := Obj(a[Named(kind) := stamp])]), last, events, Null)
  }

  /** The commit a gate was stamped at: None when the record has another shape. */
  function StampedSha(a: Doc, gate: Key): Option<Json> {
    var entry := Get(a, gate);
    if !Truthy(entry) then Some(Null)
    else if entry.Obj? then Some(Get(entry.fields, CommitSha))
    else None
  }

  function RefuseAttestationEffect(p: Plan, last: int, phase: string, gate: string, headSha: string, ts: int): Effect {
    match AsObject(if p.claim.Some? then p.claim.value else map[], Attestations)
    case None => Raise(BadType)
    case Some(a) =>
      var stamped := StampedSha(a, Named(gate));
      if stamped.None? then Raise(BadType)
      else if stamped.value == Str(headSha) then Commit(p, last, Arr([Null, Bool(false)]))
      else
        Log(p, last,
            [NewEvent(ts, AttestationRefused,
                      map[Phase := Str(phase), Gate := Str(gate), StampedAt := stamped.value, HeadSha := Str(headSha)])],
            Arr([stamped.value, Bool(true)]))
  }

  /** An unreadable or missing expiry counts as "now". */
  function LeaseBase(expires: Json, now: int): int {
    if expires.Num? && expires.n > now then expires.n else now
  }

  function ExtendLeaseEffect(p: Plan, last: int, phase: string, minutes: int, now: int): Effect {
    if p.claim.None? || Get(p.claim.value, PhaseId) != Str(phase) then Raise(ClaimMismatch)
    else
      var expires := LeaseBase(Get(p.claim.value, LeaseExpires), now) + 60 * minutes;
      Log(SetClaim(p, map[LeaseExpires := Num(expires)]), last,
          [NewEvent(now, LeaseExtended,
                    map[Phase := Str(phase), ExtendedBy := Num(minutes), NewExpires := Num(expires), Operator := Bool(true)])],
          Num(expires))
  }

  // ----- blockers ---------------------------------------------------------------

  function BlockedEvent(ts: int, phase: string, id: Json, question: string): NewEvent {
    NewEvent(ts, PhaseBlocked, map[Phase := Str(phase), BlockerId := id, Question := Str(question)])
  }

  function Strings(ss: seq<string>): Json {
    Arr(seq(|ss|, i requires 0 <= i < |ss| => Str(ss[i])))
  }

  function FreshBlocker(id: Json, phase: string, kindText: string, question: string, options: seq<string>,
                        context: string, ts: int): Doc {
    map[Id := id, PhaseId := Str(phase), Type := Str(kindText), Question := Str(question),
        Options := Strings(options), Context := Str(context), AskedAt := Num(ts), Answer := Null, AnsweredAt := Null]
  }

  function AddBlockerEffect(p: Plan, last: int, op: Op): Effect
    requires op.AddBlocker?
  {
    match MaybeReleased(p, op.releaseToken, op.releasePhase)
    case Err(e) => Raise(e)
    case Ok(q) =>
      var id := MintId("q-", |q.blockers| + 1);
      if Collides(q.blockers, id) then Raise(IntegrityError)
      else
        var row := NormalBlocker(FreshBlocker(id, op.phase, op.kindText, op.question, op.options, op.context, op.ts));
        Log(q.(blockers := q.blockers + [row]), last, [BlockedEvent(op.ts, op.phase, id, op.question)], id)
  }

  /** An all-digit reply is an option index when it is in range. */
  function ResolveAnswer(options: Json, raw: string): Option<Json> {
    if !Decimals.Digits(raw) then Some(Str(raw))
    else if !options.Arr? then None
    else if Decimals.Value(raw) < |options.items| then Some(options.items[Decimals.Value(raw)])
    else Some(Str(raw))
  }

  predicate Unanswered(b: Doc) {
    Get(b, Answer) == Null
  }

  function AnswerBlockerEffect(p: Plan, last: int, blocker: string, answer: string, ts: int): Effect {
    var i := Find(p.blockers, Str(blocker));
    if i == |p.blockers| || !Unanswered(p.blockers[i]) then Raise(NoSuchKey)
    else match ResolveAnswer(Get(p.blockers[i], Options), answer)
      case None => Raise(BadType)
      case Some(resolved) =>
        var row := NormalBlocker(p.blockers[i] + map[Answer := resolved, AnsweredAt := Num(ts)]);
        Log(p.(blockers := p.blockers[i := row]), last,
            [NewEvent(ts, BlockerAnswered, map[BlockerId := Str(blocker), Answer := resolved])],
            resolved)
  }

  function StampBlockerMetadataEffect(p: Plan, last: int, blocker: string, channel: string, metadata: Json): Effect {
    var i := Find(p.blockers, Str(blocker));
    if i == |p.blockers| then Commit(p, last, Null)
    else match AsObject(p.blockers[i], NotifyMetadata)
      case None => Raise(BadType)
      case Some(current) =>
        var row := NormalBlocker(p.blockers[i] + map[NotifyMetadata := Obj(current[Named(channel) := metadata])]);
        Commit(p.(blockers := p.blockers[i := row]), last, Null)
  }

  /** A blocker field with no column is refused rather than dropped. */
  predicate KnownFields(fields: Doc) {
    forall k :: k in fields ==> IsBlockerKey(k)
  }

  /** One entry of a delta's blocker updates. */
  function UpdateBlocker(blockers: seq<Doc>, id: string, fields: Doc): Result<seq<Doc>> {
    if !KnownFields(fields) then Err(InvalidValue)
    else if fields == map[] then Err(SqlError)
    else
      var i := Find(blockers, Str(id));
      if i == |blockers| then Err(TickConflict)
      else if Id in fields && fields[Id] != Str(id) && Collides(blockers, fields[Id]) then Err(IntegrityError)
      else Ok(blockers[i := NormalBlocker(blockers[i] + fields)])
  }

  function UpdateBlockers(blockers: seq<Doc>, updates: seq<(string, Doc)>): Result<seq<Doc>>
    decreases |updates|
  {
    if updates == [] then Ok(blockers)
    else match UpdateBlocker(blockers, updates[0].0, updates[0].1)
      case Err(e) => Err(e)
      case Ok(rest) => UpdateBlockers(rest, updates[1..])
  }

  // ----- tasks, head, archive -----------------------------------------------------

  function SpawnTaskEffect(p: Plan, last: int, task: Doc, status: string, byToken: Option<string>,
          narrow: Option<string>, ts: int): Effect {
    if TokenRefused(p, byToken, narrow) then Raise(ClaimMismatch)
    else
      var id := MintId("task-", |p.tasks| + 1);
      if Collides(p.tasks, id) then Raise(IntegrityError)
      else
        Log(p.(tasks := p.tasks + [NormalTask(task[Id := id][Status := Str(status)])]), last,
            [NewEvent(ts, TaskSpawned, map[Task := id, Source := Get(task, Source),
              SpawnedByPhase := Get(task, SpawnedByPhase)])],
            id)
  }

  function CompleteTaskEffect(p: Plan, last: int, taskId: string, byToken: Option<string>, narrow: Option<string>,
          ts: int, events: seq<NewEvent>): Effect {
    if TokenRefused(p, byToken, narrow) then Raise(ClaimMismatch)
    else
      var i := Find(p.tasks, Str(taskId));
      if i == |p.tasks| then Raise(NoSuchKey)
      else if Get(p.tasks[i], Status) == Str("done") then Commit(p, last, Null)
      else
        var row := NormalTask(p.tasks[i][CompletedAt := Num(ts)][Status := Str("done")]);
        Log(p.(tasks := p.tasks[i := row]), last, events, Null)
  }

  function SetStatusEffect(p: Plan, last: int, status: string, events: seq<NewEvent>, token: Option<string>,
          phase: Option<string>): Effect {
    match MaybeReleased(p, token, phase)
    case Err(e) => Raise(e)
    case Ok(q) => Log(q.(head := q.head[Status := Str(status)]), last, events, Null)
  }

  predicate SettableFields(fields: Doc, remove: seq<Key>) {
    && (forall k :: k in fields ==> !IsHeadDerived(k))
    && (forall k :: k in remove ==> !IsHeadDerived(k) && !IsHeadScalar(k))
  }

  function KeySet(keys: seq<Key>): set<Key> {
    set k | k in keys
  }

  function SetFieldsEffect(p: Plan, last: int, fields: Doc, remove: seq<Key>, events: seq<NewEvent>): Effect {
    if !SettableFields(fields, remove) then Raise(InvalidValue)
    else Log(p.(head := (p.head + fields) - KeySet(remove)), last, events, Null)
  }

  function ArchiveEventsEffect(p: Plan, last: int): Effect {
    Commit(p.(archive := p.archive + p.events, events := []), last, Num(|p.events|))
  }

  // ----- the tick ------------------------------------------------------------------

  function ClaimIdentity(p: Plan): Option<(Json, Json)> {
    if p.claim.None? then None
    else Some((Get(p.claim.value, ClaimedBy), Get(p.claim.value, PhaseId)))
  }

  function BlockerState(p: Plan, id: string): Option<(bool, bool)> {
    var i := Find(p.blockers, Str(id));
    if i == |p.blockers| then None
    else Some((Unanswered(p.blockers[i]), Truthy(Get(p.blockers[i], Consumed))))
  }

  predicate ClaimFieldsHold(p: Plan, fields: Doc) {
    fields == map[] || (p.claim.Some? && forall k :: k in fields ==> Get(p.claim.value, k) == fields[k])
  }

  /** Every declared fact still holds. */
  predicate Preconditions(p: Plan, pre: TickPreconditions) {
    && (pre.expectClaim.Expected? ==> ClaimIdentity(p) == pre.expectClaim.value)
    && ClaimFieldsHold(p, pre.expectClaimFields)
    && (pre.expectMaxEventId.Some? ==> MaxId(p.events) == pre.expectMaxEventId.value)
    && (forall id :: id in pre.expectBlockerState ==> BlockerState(p, id) == Some(pre.expectBlockerState[id]))
    && (pre.expectStatus != Null ==> Get(p.head, Status) == pre.expectStatus)
  }

  function MintedClaim(phase: string, minted: string, now: int, leaseMinutes: int, attempts: Option<int>): Doc {
    map[PhaseId := Str(phase), ClaimedBy := Str(minted), LeaseExpires := Num(now + 60 * leaseMinutes),
        StartedAt := Num(now), LastHeartbeatAt := Num(now),
        Attempts := Num(if attempts.Some? then attempts.value else 1)]
  }

  function StartedEvent(now: int, phase: string, minted: string): NewEvent {
    NewEvent(now, PhaseStarted, map[Phase := Str(phase), ClaimedBy := Str(minted)])
  }

  /** The claim updates of a delta, compare-and-set on its token. */
  function ClaimUpdated(p: Plan, delta: TickDelta): Result<Plan> {
    if delta.claimUpdates == map[] then Ok(p)
    else if p.claim.None? || Get(p.claim.value, ClaimedBy) != OptStr(delta.claimToken) then Err(TickConflict)
    else Ok(SetClaim(p, delta.claimUpdates))
  }

  function WithStatus(p: Plan, status: Option<string>): Plan {
    if status.None? then p else p.(head := p.head[Status := Str(status.value)])
  }

  /** The delta's writes in order, once its preconditions hold. */
  function ApplyDelta(p: Plan, last: int, delta: TickDelta, now: int, minted: string): Effect {
    match ClaimUpdated(p, delta)
    case Err(e) => Raise(e)
    case Ok(q) =>
      var bs := UpdateBlockers(q.blockers, delta.blockerUpdates);
      if bs.Err? then Raise(bs.error)
      else
        var released := if delta.releaseClaim then None else q.claim;
        var r := WithStatus(q.(blockers := bs.value, claim := released), delta.status);
        if delta.claimPhase.None? then Log(r, last, delta.events, Null)
        else
          var phase := delta.claimPhase.value;
          Log(r.(claim := Some(NormalClaim(MintedClaim(phase, minted, now, delta.leaseMinutes, delta.claimAttempts)))), last,
              delta.events + [StartedEvent(now, phase, minted)], Str(minted))
  }

  function ApplyTickEffect(p: Plan, last: int, pre: TickPreconditions, delta: TickDelta, now: int,
          minted: string): Effect {
    if !Preconditions(p, pre) then Raise(TickConflict) else ApplyDelta(p, last, delta, now, minted)
  }

  // ----- creation --------------------------------------------------------------------

  function InsertBlockers(rows: seq<Doc>, docs: seq<Doc>): Result<seq<Doc>>
    decreases |docs|
  {
    if docs == [] then Ok(rows)
    else if !KnownFields(docs[0]) then Err(InvalidValue)
    else if Collides(rows, Get(docs[0], Id)) then Err(FileExists)
    else InsertBlockers(rows + [NormalBlocker(docs[0])], docs[1..])
  }

  function InsertTasks(rows: seq<Doc>, docs: seq<Doc>): Result<seq<Doc>>
    decreases |docs|
  {
    if docs == [] then Ok(rows)
    else if Collides(rows, Get(docs[0], Id)) then Err(FileExists)
    else InsertTasks(rows + [NormalTask(docs[0])], docs[1..])
  }

  function CreateEffect(last: int, doc: NewPlan): Effect {
    match InsertBlockers([], doc.blockers)
    case Err(e) => Raise(e)
    case Ok(bs) =>
      var ts := InsertTasks([], doc.tasks);
      if ts.Err? then Raise(ts.error)
      else
        var claim := if doc.claim.None? then None else Some(NormalClaim(doc.claim.value));
        Log(Plan(0, NormalHead(doc.head), claim, bs, ts.value, [], []), last, doc.events, Null)
  }

  // ----- the step relation --------------------------------------------------------------

  /** One operation's transaction body on a plan that exists. */
  function PlanEffect(p: Plan, last: int, op: Op): Effect {
    match op
    case Create(_) => Raise(FileExists)
    case Heartbeat(token, phase, ts) => HeartbeatEffect(p, last, token, phase, ts)
    case Activity(token, phase, action, ts) => ActivityEffect(p, last, token, phase, action, ts)
    case StampClaimFields(token, fields, narrow, ifUnset, events) =>
      StampClaimFieldsEffect(p, last, token, fields, narrow, ifUnset, events)
    case AppendEvents(events, byToken, narrow) => AppendEventsEffect(p, last, events, byToken, narrow)
    case ReleaseClaim(byToken, narrow, events) => ReleaseClaimEffect(p, last, byToken, narrow, events)
    case StampAttestation(byToken, narrow, kind, sha, ts, events) =>
      StampAttestationEffect(p, last, byToken, narrow, kind, sha, ts, events)
    case AddBlocker(_, _, _, _, _, _, _, _) => AddBlockerEffect(p, last, op)
    case AnswerBlocker(blocker, answer, ts) => AnswerBlockerEffect(p, last, blocker, answer, ts)
    case StampBlockerMetadata(blocker, channel, metadata) => StampBlockerMetadataEffect(p, last, blocker, channel, metadata)
    case SpawnTask(task, status, byToken, narrow, ts) => SpawnTaskEffect(p, last, task, status, byToken, narrow, ts)
    case CompleteTask(taskId, byToken, narrow, ts, events) => CompleteTaskEffect(p, last, taskId, byToken, narrow, ts, events)
    case SetStatus(status, events, token, phase) => SetStatusEffect(p, last, status, events, token, phase)
    case RefuseAttestation(phase, gate, headSha, ts) => RefuseAttestationEffect(p, last, phase, gate, headSha, ts)
    case SetFields(fields, remove, events) => SetFieldsEffect(p, last, fields, remove, events)
    case ExtendLease(phase, minutes, now) => ExtendLeaseEffect(p, last, phase, minutes, now)
    case ArchiveEvents => ArchiveEventsEffect(p, last)
    case ApplyTick(pre, delta, now, minted) => ApplyTickEffect(p, last, pre, delta, now, minted)
  }

  /** What a call answers with, and the database it leaves. */
  datatype Outcome = Outcome(db: Db, result: Result<Json>)

  function Settle(db: Db, slug: string, e: Effect): Outcome {
    match e
    case Raise(error) => Outcome(db, Err(error))
    case Commit(q, last, reply) => Outcome(Db(db.plans[slug := q], last), Ok(reply))
  }

  /** Arguments refused before any transaction opens. */
  function Refused(slug: string, op: Op): Option<Error> {
    if op.Activity? && op.action != "start" && op.action != "end" then Some(InvalidValue)
    else if !AcceptedSlug(slug) then Some(InvalidSlug)
    else None
  }

  function Bumped(p: Plan): Plan {
    p.(version := p.version + 1)
  }

  /** One call: refused, or one transaction that commits or leaves the
      database exactly as it was, version included. */
  function Step(db: Db, slug: string, op: Op): Outcome {
    if Refused(slug, op).Some? then Outcome(db, Err(Refused(slug, op).value))
    else if op.Create? then
      if slug in db.plans then Outcome(db, Err(FileExists)) else Settle(db, slug, CreateEffect(db.last, op.doc))
    else if slug !in db.plans then Outcome(db, Err(FileNotFound))
    else Settle(db, slug, PlanEffect(Bumped(db.plans[slug]), db.last, op))
  }
}
