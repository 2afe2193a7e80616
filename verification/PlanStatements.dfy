/** What the store's statements and column loops do to the rows of one plan,
    in terms of the document those rows stand for. */
module PlanStatements {
  import opened Values
  import opened PlanDoc
  import opened PlanOps
  import opened PlanRows
  import opened PlanTables
  import Decimals
  import EventLog

  // ----- what the rows say about the plan ---------------------------------------------

  /** The claim row matches, as the compare-and-set `WHERE` clause reads it. */
  predicate RowHolds(t: Tables, slug: string, token: string, phase: Option<string>) {
    && slug in t.claims
    && Get(t.claims[slug].scalars, ClaimedBy) == Str(token)
    && (phase.Some? ==> Get(t.claims[slug].scalars, PhaseId) == Str(phase.value))
  }

  lemma ClaimColumnReads(r: Row, k: Key)
    requires ValidRow(r, CLAIM_SCALARS, CLAIM_JSONS)
    ensures k in CLAIM_SCALARS ==> Get(r.scalars, k) == Get(ReadClaim(r), k)
    ensures k in CLAIM_JSONS ==>
      (k in ReadClaim(r) <==> k in r.jsons && r.jsons[k].Some?) && (k in ReadClaim(r) ==> ReadClaim(r)[k] == r.jsons[k].value)
    ensures k !in CLAIM_SCALARS && k !in CLAIM_JSONS ==> Get(Unpacked(r.rest), k) == Get(ReadClaim(r), k)
    ensures k in CLAIM_SCALARS || k in CLAIM_JSONS ==> k !in Unpacked(r.rest)
  {
    ClaimColumns();
    hide ReadClaim;
    if k in CLAIM_SCALARS {
      ScalarReads(r, CLAIM_SCALARS, CLAIM_JSONS, k);
    } else if k in CLAIM_JSONS {
      JsonReads(r, CLAIM_SCALARS, CLAIM_JSONS, k);
    } else {
      RestReads(r, CLAIM_SCALARS, CLAIM_JSONS, k);
    }
  }

  lemma KeyColumns()
    ensures ClaimedBy in CLAIM_SCALARS && PhaseId in CLAIM_SCALARS && LeaseExpires in CLAIM_SCALARS
    ensures Attestations in CLAIM_JSONS && Status in HEAD_SCALARS
    ensures Id in ALWAYS_BLOCKER_KEYS && Answer in ALWAYS_BLOCKER_KEYS && Options in ALWAYS_BLOCKER_KEYS
  {
  }

  lemma RowHoldsIsHolds(t: Tables, base: map<string, Plan>, slug: string, p: Plan, token: string, phase: Option<string>)
    requires Stands(t, base, slug, p)
    ensures RowHolds(t, slug, token, phase) <==> Holds(p, token, phase)
    ensures p.claim.Some? <==> slug in t.claims
    ensures RowHolds(t, slug, token, phase) ==> slug in t.claims
    ensures slug in t.claims ==> p.claim.value == ReadClaim(t.claims[slug])
    ensures slug in t.claims ==> ValidRow(t.claims[slug], CLAIM_SCALARS, CLAIM_JSONS)
  {
    StandsParts(t, base, slug, p);
    StandsFor(t, base, slug, p);
    StandsRows(t, slug);
    KeyColumns();
    hide ReadClaim, Stands, Valid, ValidRow, Abstract;
    if slug in t.claims {
      ClaimColumnReads(t.claims[slug], ClaimedBy);
      ClaimColumnReads(t.claims[slug], PhaseId);
    }
  }

  // ----- what a finished transaction amounts to ------------------------------------------

  lemma Finished(t: Tables, db: Db, slug: string, op: Op, q: Plan, reply: Json)
    requires slug in db.plans && Stands(t, db.plans, slug, q) && !op.Create? && Refused(slug, op).None?
    requires PlanEffect(Bumped(db.plans[slug]), db.last, op) == Commit(q, t.last, reply)
    ensures Valid(t) && Outcome(Abstract(t), Ok(reply)) == Step(db, slug, op)
  {
    StandsFor(t, db.plans, slug, q);
    hide Stands, Abstract, Valid, PlanEffect;
  }

  lemma Failed(db: Db, slug: string, op: Op, e: Error)
    requires slug in db.plans && !op.Create? && Refused(slug, op).None?
    requires PlanEffect(Bumped(db.plans[slug]), db.last, op) == Raise(e)
    ensures Outcome(db, Err(e)) == Step(db, slug, op)
  {
    hide PlanEffect;
  }

  // ----- loop facts ----------------------------------------------------------------------

  lemma StampSnoc(last: int, evs: seq<NewEvent>, i: nat)
    requires i < |evs|
    ensures Stamp(last, evs[..i + 1]) == Stamp(last, evs[..i]) + [StampOne(last + 1 + i, evs[i])]
  {
  }

  lemma AppendStamped(hot: seq<Event>, last: int, evs: seq<NewEvent>, i: nat)
    requires i < |evs|
    ensures (hot + Stamp(last, evs[..i])) + [StampOne(last + 1 + i, evs[i])] == hot + Stamp(last, evs[..i + 1])
  {
    StampSnoc(last, evs, i);
  }

  /** The plan once a batch of events is in its hot log. */
  function Logging(p: Plan, last: int, evs: seq<NewEvent>): Plan {
    p.(events := p.events + Stamp(last, evs))
  }

  lemma LoggingNone(p: Plan, last: int, evs: seq<NewEvent>)
    ensures Logging(p, last, evs[..0]) == p && Logging(p, last, evs[..|evs|]) == Logging(p, last, evs)
  {
    assert evs[..|evs|] == evs;
  }

  lemma LoggingOneMore(p: Plan, last: int, evs: seq<NewEvent>, i: nat)
    requires i < |evs|
    ensures var q := Logging(p, last, evs[..i]);
            Logging(p, last, evs[..i + 1]) == q.(events := q.events + [StampOne(last + i + 1, evs[i])])
  {
    AppendStamped(p.events, last, evs, i);
  }

  lemma AbstractHas(t: Tables, slug: string)
    ensures Abstract(t).last == t.last && (slug in t.plans <==> slug in Abstract(t).plans)
    ensures slug in t.plans ==> Abstract(t).plans[slug] == PlanOf(t, slug)
  {
    hide PlanOf;
  }

  /** What the version bump leaves, or that there was nothing to bump. */
  lemma Bumps(t: Tables, slug: string)
    requires Valid(t)
    ensures Abstract(t).last == t.last && (slug in t.plans <==> slug in Abstract(t).plans)
    ensures slug in t.plans ==>
      Stands(t.(plans := t.plans[slug := t.plans[slug].(version := t.plans[slug].version + 1)]),
             Abstract(t).plans, slug, Bumped(Abstract(t).plans[slug]))
  {
    hide Valid, PlanOf, Stands, Abstract;
    AbstractHas(t, slug);
    if slug in t.plans {
      BumpStatement(t, slug);
    }
  }

  /** The part of an update already taken: these keys are done. */
  function Taken(fields: Doc, left: set<Key>): Doc {
    map k | k in fields && k !in left :: fields[k]
  }

  lemma TakeOneMore(d: Doc, fields: Doc, left: set<Key>, k: Key)
    requires k in left && left <= fields.Keys
    ensures d + Taken(fields, left - {k}) == (d + Taken(fields, left))[k := fields[k]]
  {
  }

  lemma TakenNone(d: Doc, fields: Doc)
    ensures d + Taken(fields, fields.Keys) == d
  {
  }

  lemma TakenAll(fields: Doc)
    ensures Taken(fields, {}) == fields
  {
  }

  /** One step of a claim-field update. */
  lemma ClaimTaken(row: Row, r: Row, fields: Doc, left: set<Key>, k: Key)
    requires ValidRow(r, CLAIM_SCALARS, CLAIM_JSONS) && k in left && left <= fields.Keys
    requires ReadClaim(r) == NormalClaim(ReadClaim(row) + Taken(fields, left))
    ensures ValidRow(Assigned(r, k, fields[k]), CLAIM_SCALARS, CLAIM_JSONS)
    ensures ReadClaim(Assigned(r, k, fields[k])) == NormalClaim(ReadClaim(row) + Taken(fields, left - {k}))
  {
    ClaimColumns();
    hide ReadClaim, ReadHead, ValidRow, Assigned, Taken, WithoutNulls;
    AssignedHead(r, CLAIM_SCALARS, CLAIM_JSONS, k, fields[k]);
    AssignedClaim(r, CLAIM_SCALARS, CLAIM_JSONS, k, fields[k]);
    TakeOneMore(ReadClaim(row), fields, left, k);
    NullsAbsorb(ReadClaim(row) + Taken(fields, left), CLAIM_SCALARS, k, fields[k]);
  }

  lemma ClaimUntaken(row: Row, fields: Doc)
    requires ValidRow(row, CLAIM_SCALARS, CLAIM_JSONS)
    ensures ReadClaim(row) == NormalClaim(ReadClaim(row) + Taken(fields, fields.Keys))
  {
    ClaimColumns();
    ClaimReadsNormal(row, CLAIM_SCALARS, CLAIM_JSONS);
    TakenNone(ReadClaim(row), fields);
  }

  /** The value `if_unset` looks at, as the row gives it. */
  lemma GuardReads(r: Row, k: Key)
    requires ValidRow(r, CLAIM_SCALARS, CLAIM_JSONS)
    ensures var flag := Get(Unpacked(r.rest), k);
            (if flag == Null && k in CLAIM_SCALARS then Get(r.scalars, k) else flag) == GuardValue(ReadClaim(r), k)
  {
    ClaimColumnReads(r, k);
    ClaimColumns();
    hide ReadClaim, ValidRow;
  }

  lemma LoggingTwice(p: Plan, claim: Option<Doc>, last: int, xs: seq<NewEvent>, ys: seq<NewEvent>)
    ensures Logging(Logging(p, last, xs).(claim := claim), last + |xs|, ys) == Logging(p.(claim := claim), last, xs + ys)
  {
    assert Stamp(last, xs + ys) == Stamp(last, xs) + Stamp(last + |xs|, ys);
    assert (p.events + Stamp(last, xs)) + Stamp(last + |xs|, ys) == p.events + Stamp(last, xs + ys);
  }

  // ----- searching by key ----------------------------------------------------------------

  lemma FindIs(docs: seq<Doc>, id: Json, i: nat)
    requires i <= |docs| && (i < |docs| ==> Get(docs[i], Id) == id)
    requires forall j :: 0 <= j < i ==> Get(docs[j], Id) != id
    ensures i == Find(docs, id)
  {
  }

  method FindBlocker(rows: seq<BlockerRow>, id: Json) returns (i: nat)
    requires ValidBlockerRows(rows)
    ensures i == Find(ReadBlockers(rows), id) && i <= |rows|
  {
    KeyColumns();
    hide ReadBlocker;
    i := 0;
    while i < |rows| && Get(rows[i].always, Id) != id
      invariant i <= |rows|
      invariant forall j :: 0 <= j < i ==> Get(ReadBlockers(rows)[j], Id) != id
    {
      BlockerColumns(rows[i]);
      i := i + 1;
    }
    if i < |rows| {
      BlockerColumns(rows[i]);
    }
    FindIs(ReadBlockers(rows), id, i);
  }

  method FindTask(rows: seq<TaskRow>, id: Json) returns (i: nat)
    requires ValidTaskRows(rows)
    ensures i == Find(ReadTasks(rows), id) && i <= |rows|
  {
    hide ReadTask;
    i := 0;
    while i < |rows| && rows[i].id != id
      invariant i <= |rows|
      invariant forall j :: 0 <= j < i ==> Get(ReadTasks(rows)[j], Id) != id
    {
      TaskColumns(rows[i]);
      i := i + 1;
    }
    if i < |rows| {
      TaskColumns(rows[i]);
    }
    FindIs(ReadTasks(rows), id, i);
  }

  lemma BlockerRowPut(rows: seq<BlockerRow>, i: nat, row: BlockerRow)
    requires ValidBlockerRows(rows) && ValidBlockerRow(row) && i <= |rows|
    ensures |ReadBlockers(rows)| == |rows|
    ensures i < |rows| ==> ValidBlockerRows(rows[i := row])
    ensures i < |rows| ==> ReadBlockers(rows[i := row]) == ReadBlockers(rows)[i := ReadBlocker(row)]
    ensures ValidBlockerRows(rows + [row]) && ReadBlockers(rows + [row]) == ReadBlockers(rows) + [ReadBlocker(row)]
  {
    hide ReadBlocker;
  }

  lemma TaskRowPut(rows: seq<TaskRow>, i: nat, row: TaskRow)
    requires ValidTaskRows(rows) && ValidTaskRow(row) && i <= |rows|
    ensures |ReadTasks(rows)| == |rows|
    ensures i < |rows| ==> ValidTaskRows(rows[i := row])
    ensures i < |rows| ==> ReadTasks(rows[i := row]) == ReadTasks(rows)[i := ReadTask(row)]
    ensures ValidTaskRows(rows + [row]) && ReadTasks(rows + [row]) == ReadTasks(rows) + [ReadTask(row)]
  {
    hide ReadTask;
  }

  lemma BlockerTaken(row: BlockerRow, r: BlockerRow, fields: Doc, left: set<Key>, k: Key)
    requires ValidBlockerRow(r) && k in left && left <= fields.Keys && IsBlockerKey(k)
    requires ReadBlocker(r) == NormalBlocker(ReadBlocker(row) + Taken(fields, left))
    ensures ValidBlockerRow(BlockerAssigned(r, k, fields[k]))
    ensures ReadBlocker(BlockerAssigned(r, k, fields[k])) == NormalBlocker(ReadBlocker(row) + Taken(fields, left - {k}))
  {
    hide ReadBlocker, NormalBlocker, BlockerAssigned, Taken, IsBlockerKey;
    BlockerAssignedReads(r, k, fields[k]);
    TakeOneMore(ReadBlocker(row), fields, left, k);
    BlockerAbsorbs(ReadBlocker(row) + Taken(fields, left), k, fields[k]);
  }

  /** Split a blocker update into columns. */
  method BlockerAssignments(row: BlockerRow, fields: Doc) returns (r: BlockerRow)
    requires ValidBlockerRow(row) && KnownFields(fields)
    ensures ValidBlockerRow(r) && ReadBlocker(r) == NormalBlocker(ReadBlocker(row) + fields)
  {
    hide ReadBlocker, NormalBlocker, BlockerAssigned, Taken, IsBlockerKey;
    r := row;
    var left := fields.Keys;
    BlockerReadsNormal(row);
    TakenNone(ReadBlocker(row), fields);
    while left != {}
      invariant left <= fields.Keys && ValidBlockerRow(r)
      invariant ReadBlocker(r) == NormalBlocker(ReadBlocker(row) + Taken(fields, left))
    {
      var k :| k in left;
      BlockerTaken(row, r, fields, left, k);
      r := BlockerAssigned(r, k, fields[k]);
      left := left - {k};
    }
    TakenAll(fields);
  }

  method FieldsKnown(fields: Doc) returns (known: bool)
    ensures known <==> KnownFields(fields)
  {
    hide IsBlockerKey;
    var left := fields.Keys;
    while left != {}
      invariant left <= fields.Keys
      invariant forall k :: k in fields && k !in left ==> IsBlockerKey(k)
    {
      var k :| k in left;
      if !IsBlockerKey(k) { return false; }
      left := left - {k};
    }
    known := true;
  }

  lemma BlockerValuesValid(d: Doc)
    ensures ValidBlockerRow(BlockerValues(d))
  {
  }

  // ----- head fields ------------------------------------------------------------------------

  lemma DropOneMore(d: Doc, remove: seq<Key>, i: nat)
    requires i < |remove|
    ensures d - KeySet(remove[..i + 1]) == (d - KeySet(remove[..i])) - {remove[i]}
  {
    assert remove[..i + 1] == remove[..i] + [remove[i]];
  }

  lemma DropNone(d: Doc, remove: seq<Key>)
    ensures d - KeySet(remove[..0]) == d && remove[..|remove|] == remove
  {
  }

  lemma HeadTaken(head: Doc, r: Row, fields: Doc, left: set<Key>, k: Key)
    requires ValidRow(r, HEAD_SCALARS, HEAD_JSONS) && k in left && left <= fields.Keys
    requires ReadHead(r) == head + Taken(fields, left)
    ensures ValidRow(Assigned(r, k, fields[k]), HEAD_SCALARS, HEAD_JSONS)
    ensures ReadHead(Assigned(r, k, fields[k])) == head + Taken(fields, left - {k})
  {
    ClaimColumns();
    hide ReadHead, ValidRow, Assigned, Taken;
    AssignedHead(r, HEAD_SCALARS, HEAD_JSONS, k, fields[k]);
    TakeOneMore(head, fields, left, k);
  }

  /** The columns a head update sets, or a refusal. */
  method HeadAssignments(row: Row, fields: Doc, remove: seq<Key>) returns (ok: bool, r: Row)
    requires ValidRow(row, HEAD_SCALARS, HEAD_JSONS)
    ensures ok <==> SettableFields(fields, remove)
    ensures ok ==> ValidRow(r, HEAD_SCALARS, HEAD_JSONS) && ReadHead(r) == (ReadHead(row) + fields) - KeySet(remove)
  {
    hide ReadHead, ValidRow, Assigned, Removed, Taken, IsHeadDerived;
    r := row;
    var left := fields.Keys;
    TakenNone(ReadHead(row), fields);
    while left != {}
      invariant left <= fields.Keys && ValidRow(r, HEAD_SCALARS, HEAD_JSONS)
      invariant ReadHead(r) == ReadHead(row) + Taken(fields, left)
      invariant forall k :: k in fields && k !in left ==> !IsHeadDerived(k)
    {
      var k :| k in left;
      if IsHeadDerived(k) { return false, r; }
      HeadTaken(ReadHead(row), r, fields, left, k);
      r := Assigned(r, k, fields[k]);
      left := left - {k};
    }
    TakenAll(fields);
    ClaimColumns();
    DropNone(ReadHead(row) + fields, remove);
    for i := 0 to |remove|
      invariant ValidRow(r, HEAD_SCALARS, HEAD_JSONS)
      invariant ReadHead(r) == (ReadHead(row) + fields) - KeySet(remove[..i])
      invariant forall k :: k in remove[..i] ==> !IsHeadDerived(k) && !IsHeadScalar(k)
    {
      if IsHeadDerived(remove[i]) || IsHeadScalar(remove[i]) { return false, r; }
      RemovedReads(r, HEAD_SCALARS, HEAD_JSONS, remove[i]);
      DropOneMore(ReadHead(row) + fields, remove, i);
      r := Removed(r, remove[i]);
    }
    ok := true;
  }

  // ----- the event high-water -----------------------------------------------------------------

  lemma {:induction false} MaxIdBelow(rows: seq<EventRow>, slug: string, last: int)
    requires Ordered(rows, last) && rows != []
    ensures MaxId(EventsFor(rows[..|rows| - 1], slug)) < rows[|rows| - 1].id
    decreases |rows|
  {
    var init := rows[..|rows| - 1];
    OrderedPrefix(rows, last);
    if init != [] {
      MaxIdBelow(init, slug, last);
      assert init[|init| - 1].id < rows[|rows| - 1].id;
    }
  }

  /** `SELECT COALESCE(MAX(id), 0) FROM events WHERE plan_slug = ?`. */
  method MaxEventId(rows: seq<EventRow>, slug: string, ghost last: int) returns (m: int)
    requires Ordered(rows, last)
    ensures m == MaxId(EventsFor(rows, slug))
  {
    m := 0;
    for i := 0 to |rows|
      invariant m == MaxId(EventsFor(rows[..i], slug))
    {
      assert rows[..i + 1][..i] == rows[..i];
      MaxIdBelow(rows[..i + 1], slug, last);
      if rows[i].slug == slug && rows[i].id > m { m := rows[i].id; }
    }
    assert rows[..|rows|] == rows;
  }

  lemma LoggingIsLog(p: Plan, last: int, evs: seq<NewEvent>, reply: Json)
    ensures Log(p, last, evs, reply) == Commit(Logging(p, last, evs), last + |evs|, reply)
  {
  }

  /** A JSON column of the claim row, as an object to write into. */
  function StoredObject(r: Row, k: Key): Option<Doc> {
    if k !in r.jsons || r.jsons[k].None? then Some(map[]) else AsDoc(r.jsons[k].value)
  }

  function AsDoc(j: Json): Option<Doc> {
    match j
    case Obj(f) => Some(f)
    case _ => None
  }

  lemma AttestationsRead(r: Row)
    requires ValidRow(r, CLAIM_SCALARS, CLAIM_JSONS)
    ensures StoredObject(r, Attestations) == AsObject(ReadClaim(r), Attestations)
  {
    KeyColumns();
    ClaimColumnReads(r, Attestations);
    hide ReadClaim, ValidRow;
  }

  lemma NoObject(k: Key)
    ensures AsObject(map[], k) == Some(map[])
  {
  }

  lemma LeaseRead(t: Tables, slug: string)
    requires slug in t.claims ==> ValidRow(t.claims[slug], CLAIM_SCALARS, CLAIM_JSONS)
    ensures slug in t.claims ==>
      var r := t.claims[slug];
      Get(r.scalars, PhaseId) == Get(ReadClaim(r), PhaseId) && Get(r.scalars, LeaseExpires) == Get(ReadClaim(r), LeaseExpires)
  {
    KeyColumns();
    hide ReadClaim, ValidRow;
    if slug in t.claims {
      ClaimColumnReads(t.claims[slug], PhaseId);
      ClaimColumnReads(t.claims[slug], LeaseExpires);
    }
  }

  lemma BlockerCount(t: Tables, base: map<string, Plan>, slug: string, p: Plan)
    requires Stands(t, base, slug, p)
    ensures |p.blockers| == |RowsAt(t.blockers, slug)|
  {
    StandsParts(t, base, slug, p);
  }

  lemma FreshBlockerFields(id: Json, phase: string, kindText: string, question: string, options: seq<string>,
          context: string, ts: int)
    ensures var d := FreshBlocker(id, phase, kindText, question, options, context, ts);
            Get(d, Id) == id && KnownFields(d)
  {
  }

  lemma AnswerFields(answer: Json, ts: int)
    ensures KnownFields(map[Answer := answer, AnsweredAt := Num(ts)])
  {
  }

  lemma MetadataField(v: Json)
    ensures KnownFields(map[NotifyMetadata := v])
  {
  }

  lemma MetadataRead(r: BlockerRow)
    requires ValidBlockerRow(r)
    ensures AsObject(ReadBlocker(r), NotifyMetadata) == if r.metadata.None? then Some(map[]) else AsDoc(r.metadata.value)
  {
    BlockerColumns(r);
    hide ReadBlocker, ValidBlockerRow;
  }

  predicate BlockerColumnsRead(r: BlockerRow, d: Doc) {
    && ValidBlockerRow(r) && d == ReadBlocker(r)
    && Get(d, Answer) == Get(r.always, Answer) && Get(d, Options) == Get(r.always, Options)
    && Truthy(Get(d, Consumed)) == r.consumed
  }

  lemma BlockerRowReads(rows: seq<BlockerRow>)
    requires ValidBlockerRows(rows)
    ensures |ReadBlockers(rows)| == |rows|
    ensures forall i :: 0 <= i < |rows| ==> BlockerColumnsRead(rows[i], ReadBlockers(rows)[i])
  {
    KeyColumns();
    hide ReadBlocker;
    forall i | 0 <= i < |rows|
      ensures BlockerColumnsRead(rows[i], ReadBlockers(rows)[i])
    {
      BlockerColumns(rows[i]);
    }
  }

  /** The blocker rows of a plan that stands, and how they read. */
  /** One update, by the rows the statement looks up. */
  lemma UpdateOutcome(bs: seq<Doc>, id: string, fields: Doc)
    ensures var i := Find(bs, Str(id));
            UpdateBlocker(bs, id, fields) ==
              if !KnownFields(fields) then Err(InvalidValue)
              else if fields == map[] then Err(SqlError)
              else if i == |bs| then Err(TickConflict)
              else if Id in fields && fields[Id] != Str(id) && fields[Id] != Null && Find(bs, fields[Id]) < |bs|
              then Err(IntegrityError)
              else Ok(bs[i := NormalBlocker(bs[i] + fields)])
  {
    hide KnownFields, Find, NormalBlocker;
  }

  lemma StandingBlockers(t: Tables, base: map<string, Plan>, slug: string, p: Plan)
    requires Stands(t, base, slug, p)
    ensures var rows := RowsAt(t.blockers, slug);
            && ValidBlockerRows(rows) && p.blockers == ReadBlockers(rows) && |p.blockers| == |rows|
            && forall i :: 0 <= i < |rows| ==> BlockerColumnsRead(rows[i], p.blockers[i])
  {
    StandsParts(t, base, slug, p);
    StandsFor(t, base, slug, p);
    StandsRows(t, slug);
    hide Stands, Valid, Abstract, RowsAt, ReadBlockers, ValidBlockerRows, BlockerColumnsRead;
    BlockerRowReads(RowsAt(t.blockers, slug));
  }

  lemma TaskRowReads(rows: seq<TaskRow>)
    requires ValidTaskRows(rows)
    ensures |ReadTasks(rows)| == |rows|
    ensures forall i :: 0 <= i < |rows| ==> ValidTaskRow(rows[i]) && ReadTasks(rows)[i] == ReadTask(rows[i])
  {
    hide ReadTask, ValidTaskRow;
  }

  lemma StandingTasks(t: Tables, base: map<string, Plan>, slug: string, p: Plan)
    requires Stands(t, base, slug, p)
    ensures var rows := RowsAt(t.tasks, slug);
            && slug in t.plans && ValidTaskRows(rows) && p.tasks == ReadTasks(rows) && |p.tasks| == |rows|
            && forall i :: 0 <= i < |rows| ==> ValidTaskRow(rows[i]) && p.tasks[i] == ReadTask(rows[i])
  {
    StandsParts(t, base, slug, p);
    StandsFor(t, base, slug, p);
    StandsRows(t, slug);
    hide Stands, Valid, Abstract, RowsAt, ReadTask, ReadTasks, ValidTaskRows, ValidTaskRow;
    TaskRowReads(RowsAt(t.tasks, slug));
  }

  lemma CompletedValid(r: TaskRow, ts: int)
    requires ValidTaskRow(r)
    ensures ValidTaskRow(TaskRow(r.id, Str("done"), Some(Unpacked(r.payload)[CompletedAt := Num(ts)])))
  {
  }

  lemma StandingHead(t: Tables, base: map<string, Plan>, slug: string, p: Plan)
    requires Stands(t, base, slug, p)
    ensures slug in t.plans && ValidRow(t.plans[slug].row, HEAD_SCALARS, HEAD_JSONS)
    ensures p.head == ReadHead(t.plans[slug].row)
  {
    StandsParts(t, base, slug, p);
    StandsFor(t, base, slug, p);
    StandsRows(t, slug);
  }

  lemma StatusReads(t: Tables, base: map<string, Plan>, slug: string, p: Plan)
    requires Stands(t, base, slug, p)
    ensures slug in t.plans && Get(t.plans[slug].row.scalars, Status) == Get(p.head, Status)
  {
    StandingHead(t, base, slug, p);
    ClaimColumns();
    KeyColumns();
    hide Stands, ReadHead, ValidRow;
    ScalarReads(t.plans[slug].row, HEAD_SCALARS, HEAD_JSONS, Status);
    ScalarPresent(t.plans[slug].row, HEAD_SCALARS, HEAD_JSONS, Status);
  }

  lemma ScalarPresent(r: Row, scalars: set<Key>, jsons: set<Key>, k: Key)
    requires ValidRow(r, scalars, jsons) && k in scalars
    ensures k in r.scalars
  {
  }

  lemma HolderReads(t: Tables, base: map<string, Plan>, slug: string, p: Plan)
    requires Stands(t, base, slug, p)
    ensures p.claim.Some? <==> slug in t.claims
    ensures slug in t.claims ==> Get(t.claims[slug].scalars, ClaimedBy) == Get(p.claim.value, ClaimedBy)
  {
    RowHoldsIsHolds(t, base, slug, p, "", None);
    KeyColumns();
    hide Stands, ReadClaim, ValidRow;
    if slug in t.claims {
      ClaimColumnReads(t.claims[slug], ClaimedBy);
    }
  }

  lemma ClaimValuesRead(d: Doc)
    ensures ValidRow(ClaimValues(d), CLAIM_SCALARS, CLAIM_JSONS) && ReadClaim(ClaimValues(d)) == NormalClaim(d)
  {
    ClaimRoundTrip(d);
    hide ReadClaim, NormalClaim;
  }

  lemma HeadValuesRead(d: Doc)
    ensures ValidRow(HeadValues(d), HEAD_SCALARS, HEAD_JSONS) && ReadHead(HeadValues(d)) == NormalHead(d)
  {
    HeadRoundTrip(d);
    hide ReadHead, NormalHead;
  }

  lemma FinishedCreate(t: Tables, db: Db, slug: string, doc: NewPlan, q: Plan)
    requires slug !in db.plans && Stands(t, db.plans, slug, q) && Refused(slug, Create(doc)).None?
    requires CreateEffect(db.last, doc) == Commit(q, t.last, Null)
    ensures Valid(t) && Outcome(Abstract(t), Ok(Null)) == Step(db, slug, Create(doc))
  {
    StandsFor(t, db.plans, slug, q);
    hide Stands, Abstract, Valid, CreateEffect;
  }

  lemma PlanEvents(t: Tables, slug: string)
    ensures slug in t.plans ==> PlanOf(t, slug).events == EventsFor(t.events, slug)
    ensures Valid(t) && slug !in t.plans ==> EventsFor(t.events, slug) == []
  {
    if Valid(t) && slug !in t.plans {
      NoStrayEvents(t.events, slug);
    }
  }

  lemma {:induction false} AfterOneMore(evs: seq<Event>, e: Event, cursor: int)
    ensures EventLog.EventsAfter(evs + [e], cursor) == EventLog.EventsAfter(evs, cursor) + (if e.id > cursor then [e] else [])
  {
    if evs == [] {
      assert [] + [e] == [e];
    } else {
      assert (evs + [e])[1..] == evs[1..] + [e];
      AfterOneMore(evs[1..], e, cursor);
    }
  }

  lemma ClaimReads(t: Tables, base: map<string, Plan>, slug: string, p: Plan)
    requires Stands(t, base, slug, p)
    ensures p.claim == if slug in t.claims then Some(ReadClaim(t.claims[slug])) else None
  {
    StandsParts(t, base, slug, p);
    hide Stands, ReadClaim, ReadHead, ReadBlockers, ReadTasks, EventsFor;
  }

  lemma EventsRead(t: Tables, base: map<string, Plan>, slug: string, p: Plan)
    requires Stands(t, base, slug, p)
    ensures Ordered(t.events, t.last) && p.events == EventsFor(t.events, slug)
  {
    StandsParts(t, base, slug, p);
    StandsFor(t, base, slug, p);
    StandsOrdered(t);
    hide Stands, ReadClaim, ReadHead, ReadBlockers, ReadTasks, EventsFor, Valid, Abstract, Ordered;
  }

  method ClaimMatches(claim: Option<Doc>, expectClaim: Expect<Option<(Json, Json)>>, fields: Doc, ghost p: Plan)
      returns (ok: bool)
    requires p.claim == claim
    ensures ok <==> (expectClaim.Expected? ==> ClaimIdentity(p) == expectClaim.value) && ClaimFieldsHold(p, fields)
  {
    if expectClaim.Expected? {
      var found := if claim.None? then None else Some((Get(claim.value, ClaimedBy), Get(claim.value, PhaseId)));
      if found != expectClaim.value { return false; }
    }
    ok := true;
    if fields != map[] {
      if claim.None? { return false; }
      ok := FieldsMatch(claim.value, fields);
    }
  }

  method FieldsMatch(claim: Doc, fields: Doc) returns (same: bool)
    ensures same <==> forall k :: k in fields ==> Get(claim, k) == fields[k]
  {
    var left := fields.Keys;
    while left != {}
      invariant left <= fields.Keys
      invariant forall k :: k in fields && k !in left ==> Get(claim, k) == fields[k]
    {
      var k :| k in left;
      if Get(claim, k) != fields[k] { return false; }
      left := left - {k};
    }
    same := true;
  }

  method BlockersMatch(rows: seq<BlockerRow>, states: map<string, (bool, bool)>, ghost p: Plan) returns (same: bool)
    requires ValidBlockerRows(rows) && p.blockers == ReadBlockers(rows) && |p.blockers| == |rows|
    requires forall i :: 0 <= i < |rows| ==> BlockerColumnsRead(rows[i], p.blockers[i])
    ensures same <==> forall id :: id in states ==> BlockerState(p, id) == Some(states[id])
  {
    hide ReadBlocker, ReadBlockers, ValidBlockerRow, ValidBlockerRows, Find, Truthy;
    var left := states.Keys;
    while left != {}
      invariant left <= states.Keys
      invariant forall id :: id in states && id !in left ==> BlockerState(p, id) == Some(states[id])
    {
      var id :| id in left;
      var i := FindBlocker(rows, Str(id));
      if i == |rows| || (Get(rows[i].always, Answer) == Null, rows[i].consumed) != states[id] { return false; }
      left := left - {id};
    }
    same := true;
  }
}
