/** The values the store keeps: JSON trees, documents keyed by field name, and
    the two small result types every operation answers with. */
module Values {

  datatype Option<+T> = None | Some(value: T)

  /** What a call raises. Contention (`DbBusy`) is "no step taken" and has no
      constructor here. */
  datatype Error =
    | FileNotFound
    | FileExists
    | ClaimMismatch
    | InvalidValue
    | NoSuchKey
    | TickConflict
    | IntegrityError
    | InvalidSlug
    | SqlError
    | BadType

  datatype Result<+T> = Ok(value: T) | Err(error: Error)

  /** A field name. The names the store treats specially are constructors of
      their own; every other name is `Named`. */
  datatype Key =
    // plan head
    | Status | PlanDir | CreatedAt | BatchId | Config | Phases | Worktree
    | SchemaVersion | PlanSlug | CurrentClaim | Blockers | SpawnedTasks | Events
    // claim
    | PhaseId | ClaimedBy | LeaseExpires | StartedAt | LastHeartbeatAt | Attempts
    | Pid | Pgid | LogPath | SessionId | ActiveToolStartedAt | Attestations | CpuSamples
    | WorkerIdleNotified | WorkerIdleNotifiedAt
    // blocker
    | Id | Type | Question | Options | Context | AskedAt | Answer | AnsweredAt
    | Consumed | LastRepingedAt | NotifyMetadata
    // event payload and nested records
    | Ts | Phase | Token | BlockerId | Task | Source | SpawnedByPhase | Gate
    | StampedAt | HeadSha | ExtendedBy | NewExpires | Operator | CommitSha | At | CompletedAt
    | Named(name: string)

  datatype Json =
    | Null
    | Bool(b: bool)
    | Num(n: int)
    | Real(r: real)
    | Str(s: string)
    | Arr(items: seq<Json>)
    | Obj(fields: map<Key, Json>)

  type Doc = map<Key, Json>

  /** `d.get(k)`: an absent key and a present null read the same. */
  function Get(d: Doc, k: Key): Json {
    if k in d then d[k] else Null
  }

  /** Python truthiness of a JSON value. */
  predicate Truthy(j: Json) {
    match j
    case Null => false
    case Bool(b) => b
    case Num(n) => n != 0
    case Real(r) => r != 0.0
    case Str(s) => s != ""
    case Arr(items) => items != []
    case Obj(fields) => fields != map[]
  }

  function OptStr(o: Option<string>): Json {
    match o
    case None => Null
    case Some(s) => Str(s)
  }

  predicate LowerOrDigit(c: char) {
    'a' <= c <= 'z' || '0' <= c <= '9'
  }

  predicate SlugChar(c: char) {
    LowerOrDigit(c) || c == '_' || c == '-'
  }

  /** The slug alphabet proper: one to 64 characters, the first alphanumeric. */
  predicate Slug(s: string) {
    0 < |s| <= 64 && LowerOrDigit(s[0]) && forall i :: 0 <= i < |s| ==> SlugChar(s[i])
  }

  /** What the validator accepts. Its regular expression ends in `$`, which
      also matches just before a final newline, so a slug followed by one
      newline passes. */
  predicate AcceptedSlug(s: string) {
    Slug(s) || (|s| > 0 && s[|s| - 1] == '\n' && Slug(s[..|s| - 1]))
  }
}
