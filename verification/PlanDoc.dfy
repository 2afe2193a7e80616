/** A plan as its snapshot shows it: the head document, at most one claim, the
    blockers, the tasks, the hot event log and the archive. */
module PlanDoc {
  import opened Values
  import Decimals

  // ----- the column maps ------------------------------------------------------

  const HEAD_SCALARS: set<Key> := {Status, PlanDir, CreatedAt, BatchId}
  const HEAD_JSONS: set<Key> := {Config, Phases, Worktree}
  // keys with a table of their own, or no storage at all
  const HEAD_DERIVED: set<Key> := {SchemaVersion, PlanSlug, CurrentClaim, Blockers, SpawnedTasks, Events}

  const CLAIM_SCALARS: set<Key> :=
    {PhaseId, ClaimedBy, LeaseExpires, StartedAt, LastHeartbeatAt, Attempts,
     Pid, Pgid, LogPath, SessionId, ActiveToolStartedAt}
  const CLAIM_JSONS: set<Key> := {Attestations, CpuSamples}

  // the nine blocker columns that are emitted even when null, and the rest
  const ALWAYS_BLOCKER_KEYS: set<Key> :=
    {Id, PhaseId, Type, Question, Options, Context, AskedAt, Answer, AnsweredAt}
  const OPTIONAL_BLOCKER_KEYS: set<Key> := {Consumed, LastRepingedAt, NotifyMetadata}

  predicate IsHeadScalar(k: Key) { k in HEAD_SCALARS }
  predicate IsHeadDerived(k: Key) { k in HEAD_DERIVED }
  predicate IsClaimScalar(k: Key) { k in CLAIM_SCALARS }
  predicate IsClaimJson(k: Key) { k in CLAIM_JSONS }
  predicate IsBlockerKey(k: Key) { k in ALWAYS_BLOCKER_KEYS || k in OPTIONAL_BLOCKER_KEYS }
  predicate IsEventColumn(k: Key) { k in {Ts, Type, Id} }

  // ----- normal forms: a document as it reads back -----------------------------

  /** Head: derived keys go to their tables, the four scalars are always
      present, everything else is kept as it was (a null worktree included). */
  function NormalHead(d: Doc): Doc {
    Kept(d, HEAD_DERIVED) + Present(d, HEAD_SCALARS)
  }

  /** The document without some keys. */
  function Kept(d: Doc, dropped: set<Key>): Doc {
    map k | k in d && k !in dropped :: d[k]
  }

  /** Some keys made present, null where the document has none. */
  function Present(d: Doc, keys: set<Key>): Doc {
    map k | k in keys :: Get(d, k)
  }

  /** Claim: a null scalar is an absent key. */
  function NormalClaim(d: Doc): Doc {
    WithoutNulls(d, CLAIM_SCALARS)
  }

  function WithoutNulls(d: Doc, keys: set<Key>): Doc {
    map k | k in d && !(k in keys && d[k] == Null) :: d[k]
  }

  /** Blocker: nine keys always, `consumed` always and boolean (its column has
      the default 0), a null `last_repinged_at` absent. */
  function NormalBlocker(d: Doc): Doc {
    Present(d, ALWAYS_BLOCKER_KEYS)
    + map[Consumed := Bool(Truthy(Get(d, Consumed)))]
    + (if Get(d, LastRepingedAt) == Null then map[] else map[LastRepingedAt := d[LastRepingedAt]])
    + (if NotifyMetadata in d then map[NotifyMetadata := d[NotifyMetadata]] else map[])
  }

  /** Task: id and status always present. */
  function NormalTask(d: Doc): Doc {
    d[Id := Get(d, Id)][Status := Get(d, Status)]
  }

  // ----- events ---------------------------------------------------------------

  datatype Kind =
    | PhaseStarted | PhaseCompleted | PhaseBlocked | LeaseExpired
    | BlockerAnswered | BlockerConsumed | TaskSpawned
    | SystemicFailure | QuotaDeath | RetryRequested | AttemptsReset
    | AttestationRefused | LeaseExtended | QueuePopped | WorktreeConflictWarning
    | OtherKind(name: string)

  /** An event as a caller hands it in, and as the log keeps it. */
  datatype NewEvent = NewEvent(ts: int, kind: Kind, payload: Doc)
  datatype Event = Event(id: int, ts: int, kind: Kind, payload: Doc)

  function PayloadOf(e: NewEvent): Doc {
    map k | k in e.payload && !IsEventColumn(k) :: e.payload[k]
  }

  function StampOne(id: int, e: NewEvent): Event {
    Event(id, e.ts, e.kind, PayloadOf(e))
  }

  /** The rows a batch of events becomes, with the next ids of the one
      database-wide counter. */
  function Stamp(last: int, evs: seq<NewEvent>): (r: seq<Event>)
    ensures |r| == |evs|
  {
    seq(|evs|, i requires 0 <= i < |evs| => StampOne(last + 1 + i, evs[i]))
  }

  /** `COALESCE(MAX(id), 0)` over a log kept in id order. */
  function MaxId(evs: seq<Event>): int {
    if evs == [] then 0 else evs[|evs| - 1].id
  }

  // ----- plans and the database -------------------------------------------------

  datatype Plan = Plan(
    version: nat, head: Doc, claim: Option<Doc>, blockers: seq<Doc>, tasks: seq<Doc>,
    events: seq<Event>, archive: seq<Event>)

  /** All plans of a project, and the highest event id ever minted. */
  datatype Db = Db(plans: map<string, Plan>, last: int)

  /** The claim row matches this token (and this phase, when one is given). */
  predicate Holds(p: Plan, token: string, phase: Option<string>) {
    && p.claim.Some?
    && Get(p.claim.value, ClaimedBy) == Str(token)
    && (phase.Some? ==> Get(p.claim.value, PhaseId) == Str(phase.value))
  }

  function MintId(prefix: string, n: nat): Json {
    Str(prefix + Decimals.Decimal(n))
  }

  /** Index of the first document with this id, or the length. */
  function Find(docs: seq<Doc>, id: Json): (i: nat)
    ensures i <= |docs|
    ensures i < |docs| ==> Get(docs[i], Id) == id
    ensures forall j :: 0 <= j < i ==> Get(docs[j], Id) != id
  {
    if docs == [] then 0
    else if Get(docs[0], Id) == id then 0
    else
      var r := Find(docs[1..], id);
      assert forall j :: 1 <= j < r + 1 ==> docs[j] == docs[1..][j - 1];
      r + 1
  }

  /** SQLite's primary key: two rows may not share a non-null id. */
  predicate Collides(docs: seq<Doc>, id: Json) {
    id != Null && Find(docs, id) < |docs|
  }
}
