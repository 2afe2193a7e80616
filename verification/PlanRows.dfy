/** The rows a plan is stored in, and how documents go in and come out:
    scalars in raw columns, closed sub-objects in JSON columns, everything
    else in a catch-all. SQL NULL is `Null` in a raw column and `None` in a
    JSON one. */
module PlanRows {
  import opened Values
  import opened PlanDoc

  /** Raw columns, JSON columns and a catch-all: a plan head or a claim. */
  datatype Row = Row(scalars: map<Key, Json>, jsons: map<Key, Option<Json>>, rest: Option<Doc>)

  datatype HeadRow = HeadRow(version: nat, row: Row)

  datatype BlockerRow = BlockerRow(always: map<Key, Json>, consumed: bool, repinged: Json, metadata: Option<Json>)

  datatype TaskRow = TaskRow(id: Json, status: Json, payload: Option<Doc>)

  datatype EventRow = EventRow(id: int, slug: string, ts: int, kind: Kind, payload: Option<Doc>)

  function Packed(d: Doc): Option<Doc> {
    if d == map[] then None else Some(d)
  }

  function Unpacked(d: Option<Doc>): Doc {
    if d.None? then map[] else d.value
  }

  predicate ValidRow(r: Row, scalars: set<Key>, jsons: set<Key>) {
    && r.scalars.Keys == scalars && r.jsons.Keys == jsons
    && r.rest != Some(map[])
    && forall k :: k in Unpacked(r.rest) ==> k !in scalars && k !in jsons
  }

  // ----- writing ----------------------------------------------------------------------

  function RowOf(d: Doc, scalars: set<Key>, jsons: set<Key>, elsewhere: set<Key>): (r: Row)
    requires scalars !! jsons
    ensures ValidRow(r, scalars, jsons)
  {
    Row(map k | k in scalars :: Get(d, k),
        map k | k in jsons :: if k in d then Some(d[k]) else None,
        Packed(map k | k in d && k !in scalars && k !in jsons && k !in elsewhere :: d[k]))
  }

  function HeadValues(d: Doc): Row {
    RowOf(d, HEAD_SCALARS, HEAD_JSONS, HEAD_DERIVED)
  }

  function ClaimValues(d: Doc): Row {
    RowOf(d, CLAIM_SCALARS, CLAIM_JSONS, {})
  }

  function BlockerValues(d: Doc): BlockerRow {
    BlockerRow(map k | k in ALWAYS_BLOCKER_KEYS :: Get(d, k), Truthy(Get(d, Consumed)), Get(d, LastRepingedAt),
               if NotifyMetadata in d then Some(d[NotifyMetadata]) else None)
  }

  function TaskValues(d: Doc): TaskRow {
    TaskRow(Get(d, Id), Get(d, Status), Packed(d - {Id, Status}))
  }

  function EventValues(id: int, slug: string, e: NewEvent): EventRow {
    EventRow(id, slug, e.ts, e.kind, Packed(PayloadOf(e)))
  }

  // ----- reading -----------------------------------------------------------------------

  function JsonColumns(r: Row): Doc {
    map k | k in r.jsons && r.jsons[k].Some? :: r.jsons[k].value
  }

  function ReadHead(r: Row): Doc {
    r.scalars + JsonColumns(r) + Unpacked(r.rest)
  }

  function ReadClaim(r: Row): Doc {
    (map k | k in r.scalars && r.scalars[k] != Null :: r.scalars[k]) + JsonColumns(r) + Unpacked(r.rest)
  }

  function ReadBlocker(r: BlockerRow): Doc {
    r.always + map[Consumed := Bool(r.consumed)]
    + (if r.repinged == Null then map[] else map[LastRepingedAt := r.repinged])
    + (if r.metadata.None? then map[] else map[NotifyMetadata := r.metadata.value])
  }

  function ReadTask(r: TaskRow): Doc {
    (map[Id := r.id] + Unpacked(r.payload))[Status := r.status]
  }

  function ReadEvent(r: EventRow): Event {
    Event(r.id, r.ts, r.kind, Unpacked(r.payload))
  }

  // ----- round trips ---------------------------------------------------------------------

  lemma RestKeys(d: Doc, scalars: set<Key>, jsons: set<Key>, elsewhere: set<Key>)
    requires scalars !! jsons
    ensures Unpacked(RowOf(d, scalars, jsons, elsewhere).rest)
         == map k | k in d && k !in scalars && k !in jsons && k !in elsewhere :: d[k]
  {
  }

  lemma RowReadsHead(d: Doc, scalars: set<Key>, jsons: set<Key>, elsewhere: set<Key>)
    requires scalars !! jsons && elsewhere !! scalars && elsewhere !! jsons
    ensures ReadHead(RowOf(d, scalars, jsons, elsewhere)) == Kept(d, elsewhere) + Present(d, scalars)
  {
    RestKeys(d, scalars, jsons, elsewhere);
  }

  lemma RowReadsClaim(d: Doc, scalars: set<Key>, jsons: set<Key>)
    requires scalars !! jsons
    ensures ReadClaim(RowOf(d, scalars, jsons, {})) == WithoutNulls(d, scalars)
  {
    RestKeys(d, scalars, jsons, {});
  }

  /** A head document reads back with its scalars present and its derived keys
      gone; a JSON field that was absent stays absent and one that was null
      stays null. */
  lemma HeadRoundTrip(d: Doc)
    ensures ReadHead(HeadValues(d)) == NormalHead(d)
  {
    RowReadsHead(d, HEAD_SCALARS, HEAD_JSONS, HEAD_DERIVED);
  }

  /** A claim document reads back without its null scalars. */
  lemma ClaimRoundTrip(d: Doc)
    ensures ReadClaim(ClaimValues(d)) == NormalClaim(d)
  {
    RowReadsClaim(d, CLAIM_SCALARS, CLAIM_JSONS);
  }

  lemma BlockerRoundTrip(d: Doc)
    ensures ReadBlocker(BlockerValues(d)) == NormalBlocker(d)
  {
  }

  lemma TaskRoundTrip(d: Doc)
    ensures ReadTask(TaskValues(d)) == NormalTask(d)
  {
  }

  lemma EventRoundTrip(id: int, slug: string, e: NewEvent)
    ensures ReadEvent(EventValues(id, slug, e)) == StampOne(id, e)
  {
  }

  // ----- single column writes -----------------------------------------------------------

  /** A raw column reads as itself, SQL NULL as an absent key. */
  lemma ScalarReads(r: Row, scalars: set<Key>, jsons: set<Key>, k: Key)
    requires ValidRow(r, scalars, jsons) && scalars !! jsons && k in scalars
    ensures Get(ReadClaim(r), k) == r.scalars[k]
    ensures k in ReadHead(r) && ReadHead(r)[k] == r.scalars[k]
  {
  }

  lemma JsonReads(r: Row, scalars: set<Key>, jsons: set<Key>, k: Key)
    requires ValidRow(r, scalars, jsons) && scalars !! jsons && k in jsons
    ensures k in ReadClaim(r) <==> r.jsons[k].Some?
    ensures r.jsons[k].Some? ==> ReadClaim(r)[k] == r.jsons[k].value
  {
  }

  lemma RestReads(r: Row, scalars: set<Key>, jsons: set<Key>, k: Key)
    requires ValidRow(r, scalars, jsons) && scalars !! jsons && k !in scalars && k !in jsons
    ensures Get(ReadClaim(r), k) == Get(Unpacked(r.rest), k)
  {
  }

  /** One assignment lands in the column of its key, or in the catch-all. */
  function Assigned(r: Row, k: Key, v: Json): Row {
    if k in r.scalars then r.(scalars := r.scalars[k := v])
    else if k in r.jsons then r.(jsons := r.jsons[k := Some(v)])
    else r.(rest := Some(Unpacked(r.rest)[k := v]))
  }

  lemma PutInFirst(a: Doc, b: Doc, c: Doc, k: Key, v: Json)
    requires k !in b && k !in c
    ensures a[k := v] + b + c == (a + b + c)[k := v]
  {
  }

  lemma PutInSecond(a: Doc, b: Doc, c: Doc, k: Key, v: Json)
    requires k !in c
    ensures a + b[k := v] + c == (a + b + c)[k := v]
  {
  }

  lemma PutInThird(a: Doc, b: Doc, c: Doc, k: Key, v: Json)
    ensures a + b + c[k := v] == (a + b + c)[k := v]
  {
  }

  lemma DropFromOne(a: Doc, b: Doc, c: Doc, k: Key)
    ensures k !in a && k !in b ==> a + b + (c - {k}) == (a + b + c) - {k}
    ensures k !in a && k !in c ==> a + (b - {k}) + c == (a + b + c) - {k}
  {
  }

  lemma JsonColumnsPut(r: Row, k: Key, v: Json)
    ensures JsonColumns(r.(jsons := r.jsons[k := Some(v)])) == JsonColumns(r)[k := v]
    ensures JsonColumns(r.(jsons := r.jsons[k := None])) == JsonColumns(r) - {k}
  {
  }

  /** A claim row is a head row without its null scalars. */
  lemma ClaimIsHeadWithoutNulls(r: Row, scalars: set<Key>, jsons: set<Key>)
    requires ValidRow(r, scalars, jsons) && scalars !! jsons
    ensures ReadClaim(r) == WithoutNulls(ReadHead(r), scalars)
  {
  }

  lemma AssignedHead(r: Row, scalars: set<Key>, jsons: set<Key>, k: Key, v: Json)
    requires ValidRow(r, scalars, jsons) && scalars !! jsons
    ensures ValidRow(Assigned(r, k, v), scalars, jsons)
    ensures ReadHead(Assigned(r, k, v)) == ReadHead(r)[k := v]
  {
    JsonColumnsPut(r, k, v);
    if k in scalars {
      PutInFirst(r.scalars, JsonColumns(r), Unpacked(r.rest), k, v);
    } else if k in jsons {
      PutInSecond(r.scalars, JsonColumns(r), Unpacked(r.rest), k, v);
    } else {
      PutInThird(r.scalars, JsonColumns(r), Unpacked(r.rest), k, v);
    }
    assert k in Unpacked(r.rest)[k := v];
  }

  lemma NullsAbsorb(d: Doc, keys: set<Key>, k: Key, v: Json)
    ensures WithoutNulls(WithoutNulls(d, keys)[k := v], keys) == WithoutNulls(d[k := v], keys)
  {
  }

  lemma AssignedClaim(r: Row, scalars: set<Key>, jsons: set<Key>, k: Key, v: Json)
    requires ValidRow(r, scalars, jsons) && scalars !! jsons
    ensures ReadClaim(Assigned(r, k, v)) == WithoutNulls(ReadClaim(r)[k := v], scalars)
  {
    AssignedHead(r, scalars, jsons, k, v);
    ClaimIsHeadWithoutNulls(r, scalars, jsons);
    ClaimIsHeadWithoutNulls(Assigned(r, k, v), scalars, jsons);
    NullsAbsorb(ReadHead(r), scalars, k, v);
  }

  lemma ClaimColumns()
    ensures CLAIM_SCALARS !! CLAIM_JSONS && HEAD_SCALARS !! HEAD_JSONS
    ensures HEAD_DERIVED !! HEAD_SCALARS && HEAD_DERIVED !! HEAD_JSONS
  {
  }

  lemma WithoutNullsTwice(d: Doc, keys: set<Key>)
    ensures WithoutNulls(WithoutNulls(d, keys), keys) == WithoutNulls(d, keys)
  {
  }

  /** What a claim row reads as is already a normal claim. */
  lemma ClaimReadsNormal(r: Row, scalars: set<Key>, jsons: set<Key>)
    requires ValidRow(r, scalars, jsons) && scalars !! jsons
    ensures WithoutNulls(ReadClaim(r), scalars) == ReadClaim(r)
  {
    ClaimIsHeadWithoutNulls(r, scalars, jsons);
    hide ReadClaim, ReadHead, ValidRow, WithoutNulls;
    WithoutNullsTwice(ReadHead(r), scalars);
  }

  /** Removing a JSON column or a catch-all key. */
  function Removed(r: Row, k: Key): Row {
    if k in r.jsons then r.(jsons := r.jsons[k := None])
    else r.(rest := Packed(Unpacked(r.rest) - {k}))
  }

  lemma RemovedReads(r: Row, scalars: set<Key>, jsons: set<Key>, k: Key)
    requires ValidRow(r, scalars, jsons) && scalars !! jsons && k !in scalars
    ensures ValidRow(Removed(r, k), scalars, jsons)
    ensures ReadHead(Removed(r, k)) == ReadHead(r) - {k}
  {
    DropFromOne(r.scalars, JsonColumns(r), Unpacked(r.rest), k);
    JsonColumnsPut(r, k, Null);
  }

  // ----- blocker columns -----------------------------------------------------------------

  predicate ValidBlockerRow(r: BlockerRow) {
    r.always.Keys == ALWAYS_BLOCKER_KEYS
  }

  /** One assignment to a blocker column. */
  function BlockerAssigned(r: BlockerRow, k: Key, v: Json): BlockerRow {
    if k in r.always then r.(always := r.always[k := v])
    else if k == Consumed then r.(consumed := Truthy(v))
    else if k == LastRepingedAt then r.(repinged := v)
    else r.(metadata := Some(v))
  }

  /** Every column of a valid row, read back: nothing else decides a blocker. */
  lemma BlockerRebuilt(r: BlockerRow, d: Doc)
    requires ValidBlockerRow(r)
    requires forall k :: k in ALWAYS_BLOCKER_KEYS ==> r.always[k] == Get(d, k)
    requires r.consumed == Truthy(Get(d, Consumed)) && r.repinged == Get(d, LastRepingedAt)
    requires r.metadata == if NotifyMetadata in d then Some(d[NotifyMetadata]) else None
    ensures ReadBlocker(r) == NormalBlocker(d)
  {
    assert r.always == Present(d, ALWAYS_BLOCKER_KEYS);
  }

  lemma AssignedColumns(r: BlockerRow, d: Doc, always: set<Key>, k: Key, v: Json)
    requires r.always.Keys == always && !(Consumed in always || LastRepingedAt in always || NotifyMetadata in always)
    requires k in always || k == Consumed || k == LastRepingedAt || k == NotifyMetadata
    requires forall j :: j in always ==> Get(d, j) == r.always[j]
    requires Truthy(Get(d, Consumed)) == r.consumed && Get(d, LastRepingedAt) == r.repinged
    requires r.metadata == if NotifyMetadata in d then Some(d[NotifyMetadata]) else None
    ensures var q, e := BlockerAssigned(r, k, v), d[k := v];
            && q.always.Keys == always && (forall j :: j in always ==> q.always[j] == Get(e, j))
            && q.consumed == Truthy(Get(e, Consumed)) && q.repinged == Get(e, LastRepingedAt)
            && q.metadata == if NotifyMetadata in e then Some(e[NotifyMetadata]) else None
  {
    hide Truthy;
    if k in always {
      assert r.always[k := v].Keys == always;
    }
  }

  lemma BlockerKeyCases(k: Key)
    ensures !(Consumed in ALWAYS_BLOCKER_KEYS || LastRepingedAt in ALWAYS_BLOCKER_KEYS || NotifyMetadata in ALWAYS_BLOCKER_KEYS)
    ensures IsBlockerKey(k) <==> k in ALWAYS_BLOCKER_KEYS || k == Consumed || k == LastRepingedAt || k == NotifyMetadata
  {
  }

  lemma BlockerAssignedReads(r: BlockerRow, k: Key, v: Json)
    requires ValidBlockerRow(r) && IsBlockerKey(k)
    ensures ValidBlockerRow(BlockerAssigned(r, k, v))
    ensures ReadBlocker(BlockerAssigned(r, k, v)) == NormalBlocker(ReadBlocker(r)[k := v])
  {
    BlockerColumns(r);
    BlockerKeyCases(k);
    hide ReadBlocker, NormalBlocker, BlockerAssigned, IsBlockerKey;
    AssignedColumns(r, ReadBlocker(r), ALWAYS_BLOCKER_KEYS, k, v);
    BlockerRebuilt(BlockerAssigned(r, k, v), ReadBlocker(r)[k := v]);
  }

  lemma BlockerColumns(r: BlockerRow)
    requires ValidBlockerRow(r)
    ensures forall k :: k in ALWAYS_BLOCKER_KEYS ==> Get(ReadBlocker(r), k) == r.always[k]
    ensures Get(ReadBlocker(r), Consumed) == Bool(r.consumed) && Get(ReadBlocker(r), LastRepingedAt) == r.repinged
    ensures r.metadata == if NotifyMetadata in ReadBlocker(r) then Some(ReadBlocker(r)[NotifyMetadata]) else None
  {
  }

  lemma BlockerReadsNormal(r: BlockerRow)
    requires ValidBlockerRow(r)
    ensures ReadBlocker(r) == NormalBlocker(ReadBlocker(r))
  {
    BlockerColumns(r);
    hide ReadBlocker, NormalBlocker;
    BlockerRebuilt(r, ReadBlocker(r));
  }

  /** Columns that agree after normalising are the same columns. */
  lemma BlockerAbsorbs(d: Doc, k: Key, v: Json)
    ensures NormalBlocker(NormalBlocker(d)[k := v]) == NormalBlocker(d[k := v])
  {
    var n := NormalBlocker(d);
    NormalReads(d);
    NormalReadsAlways(d);
    hide NormalBlocker;
    SameColumns(n[k := v], d[k := v]);
  }

  lemma NormalReadsAlways(d: Doc)
    ensures forall k :: k in ALWAYS_BLOCKER_KEYS ==> Get(NormalBlocker(d), k) == Get(d, k)
  {
  }

  lemma NormalReads(d: Doc)
    ensures Truthy(Get(NormalBlocker(d), Consumed)) == Truthy(Get(d, Consumed))
    ensures Get(NormalBlocker(d), LastRepingedAt) == Get(d, LastRepingedAt)
    ensures NotifyMetadata in NormalBlocker(d) <==> NotifyMetadata in d
    ensures Get(NormalBlocker(d), NotifyMetadata) == Get(d, NotifyMetadata)
  {
    hide Present;
    assert Present(d, ALWAYS_BLOCKER_KEYS).Keys == ALWAYS_BLOCKER_KEYS by { PresentKeys(d); }
  }

  lemma PresentKeys(d: Doc)
    ensures Present(d, ALWAYS_BLOCKER_KEYS).Keys == ALWAYS_BLOCKER_KEYS
  {
  }

  lemma SameColumns(d: Doc, e: Doc)
    requires forall k :: k in ALWAYS_BLOCKER_KEYS ==> Get(e, k) == Get(d, k)
    requires Truthy(Get(e, Consumed)) == Truthy(Get(d, Consumed)) && Get(e, LastRepingedAt) == Get(d, LastRepingedAt)
    requires (NotifyMetadata in e <==> NotifyMetadata in d) && Get(e, NotifyMetadata) == Get(d, NotifyMetadata)
    ensures NormalBlocker(d) == NormalBlocker(e)
  {
    assert Present(d, ALWAYS_BLOCKER_KEYS) == Present(e, ALWAYS_BLOCKER_KEYS);
  }

  // ----- task columns ----------------------------------------------------------------------

  predicate ValidTaskRow(r: TaskRow) {
    Id !in Unpacked(r.payload) && Status !in Unpacked(r.payload)
  }

  lemma TaskColumns(r: TaskRow)
    requires ValidTaskRow(r)
    ensures Get(ReadTask(r), Id) == r.id && Get(ReadTask(r), Status) == r.status
  {
  }

  lemma TaskValuesValid(d: Doc)
    ensures ValidTaskRow(TaskValues(d))
  {
  }

  /** Completing a task touches its status column and one payload key. */
  lemma CompletedReads(r: TaskRow, ts: int)
    ensures ReadTask(TaskRow(r.id, Str("done"), Some(Unpacked(r.payload)[CompletedAt := Num(ts)])))
         == NormalTask(ReadTask(r)[CompletedAt := Num(ts)][Status := Str("done")])
  {
  }
}
