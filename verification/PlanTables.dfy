/** The tables of the project database, and the database of documents they
    stand for. */
module PlanTables {
  import opened Values
  import opened PlanDoc
  import opened PlanRows

  datatype Tables = Tables(
    plans: map<string, HeadRow>, claims: map<string, Row>,
    blockers: map<string, seq<BlockerRow>>, tasks: map<string, seq<TaskRow>>,
    events: seq<EventRow>, archive: seq<EventRow>, last: int)

  function RowsAt<T>(table: map<string, seq<T>>, slug: string): seq<T> {
    if slug in table then table[slug] else []
  }

  function ReadBlockers(rows: seq<BlockerRow>): seq<Doc> {
    seq(|rows|, i requires 0 <= i < |rows| => ReadBlocker(rows[i]))
  }

  function ReadTasks(rows: seq<TaskRow>): seq<Doc> {
    seq(|rows|, i requires 0 <= i < |rows| => ReadTask(rows[i]))
  }

  /** `SELECT ... WHERE plan_slug = ? ORDER BY id` over a table kept in id order. */
  function EventsFor(rows: seq<EventRow>, slug: string): seq<Event> {
    if rows == [] then []
    else
      var rest := EventsFor(rows[..|rows| - 1], slug);
      if rows[|rows| - 1].slug == slug then rest + [ReadEvent(rows[|rows| - 1])] else rest
  }

  /** The rows `WHERE plan_slug = ?` selects, and the ones it leaves. */
  function Selected(rows: seq<EventRow>, slug: string): seq<EventRow> {
    if rows == [] then []
    else
      var rest := Selected(rows[..|rows| - 1], slug);
      if rows[|rows| - 1].slug == slug then rest + [rows[|rows| - 1]] else rest
  }

  function Unselected(rows: seq<EventRow>, slug: string): seq<EventRow> {
    if rows == [] then []
    else
      var rest := Unselected(rows[..|rows| - 1], slug);
      if rows[|rows| - 1].slug == slug then rest else rest + [rows[|rows| - 1]]
  }

  predicate ValidHeads(plans: map<string, HeadRow>) {
    forall s :: s in plans ==> ValidRow(plans[s].row, HEAD_SCALARS, HEAD_JSONS)
  }

  predicate ValidClaims(claims: map<string, Row>) {
    forall s :: s in claims ==> ValidRow(claims[s], CLAIM_SCALARS, CLAIM_JSONS)
  }

  predicate ValidBlockerRows(rows: seq<BlockerRow>) {
    forall i :: 0 <= i < |rows| ==> ValidBlockerRow(rows[i])
  }

  predicate ValidBlockers(blockers: map<string, seq<BlockerRow>>) {
    forall s :: s in blockers ==> ValidBlockerRows(blockers[s])
  }

  predicate ValidTaskRows(rows: seq<TaskRow>) {
    forall i :: 0 <= i < |rows| ==> ValidTaskRow(rows[i])
  }

  predicate ValidTasks(tasks: map<string, seq<TaskRow>>) {
    forall s :: s in tasks ==> ValidTaskRows(tasks[s])
  }

  predicate OwnedEvents(rows: seq<EventRow>, slugs: set<string>) {
    forall i :: 0 <= i < |rows| ==> rows[i].slug in slugs
  }

  /** Row ids come from the counter and the table is kept in id order. */
  predicate Ordered(rows: seq<EventRow>, last: int) {
    && (forall i :: 0 <= i < |rows| ==> 0 < rows[i].id <= last)
    && (forall i, j :: 0 <= i < j < |rows| ==> rows[i].id < rows[j].id)
  }

  predicate Valid(t: Tables) {
    && t.last >= 0 && Ordered(t.events, t.last)
    && t.claims.Keys <= t.plans.Keys && t.blockers.Keys <= t.plans.Keys && t.tasks.Keys <= t.plans.Keys
    && ValidHeads(t.plans) && ValidClaims(t.claims) && ValidBlockers(t.blockers) && ValidTasks(t.tasks)
    && OwnedEvents(t.events, t.plans.Keys) && OwnedEvents(t.archive, t.plans.Keys)
  }

  function ClaimAt(t: Tables, slug: string): Option<Doc> {
    if slug in t.claims then Some(ReadClaim(t.claims[slug])) else None
  }

  /** The snapshot of one plan across its tables. */
  function PlanOf(t: Tables, slug: string): Plan
    requires slug in t.plans
  {
    Plan(t.plans[slug].version, ReadHead(t.plans[slug].row), ClaimAt(t, slug),
         ReadBlockers(RowsAt(t.blockers, slug)), ReadTasks(RowsAt(t.tasks, slug)),
         EventsFor(t.events, slug), EventsFor(t.archive, slug))
  }

  function Abstract(t: Tables): Db {
    Db(map s | s in t.plans :: PlanOf(t, s), t.last)
  }

  // ----- selections ------------------------------------------------------------------

  lemma {:induction false} EventsForConcat(xs: seq<EventRow>, ys: seq<EventRow>, slug: string)
    ensures EventsFor(xs + ys, slug) == EventsFor(xs, slug) + EventsFor(ys, slug)
    decreases |ys|
  {
    if ys == [] {
      assert xs + ys == xs;
    } else {
      EventsForConcat(xs, ys[..|ys| - 1], slug);
      assert (xs + ys)[..|xs + ys| - 1] == xs + ys[..|ys| - 1];
    }
  }

  lemma {:induction false} SelectedEvents(rows: seq<EventRow>, slug: string, s: string)
    ensures EventsFor(Selected(rows, slug), s) == if s == slug then EventsFor(rows, s) else []
    ensures forall i :: 0 <= i < |Selected(rows, slug)| ==> Selected(rows, slug)[i].slug == slug
  {
    if rows != [] {
      SelectedEvents(rows[..|rows| - 1], slug, s);
      var rest := Selected(rows[..|rows| - 1], slug);
      if rows[|rows| - 1].slug == slug {
        assert (rest + [rows[|rows| - 1]])[..|rest|] == rest;
      }
    }
  }

  lemma {:induction false} UnselectedEvents(rows: seq<EventRow>, slug: string, s: string)
    ensures EventsFor(Unselected(rows, slug), s) == if s == slug then [] else EventsFor(rows, s)
    ensures forall i :: 0 <= i < |Unselected(rows, slug)| ==>
              exists j :: 0 <= j < |rows| && rows[j] == Unselected(rows, slug)[i]
  {
    if rows != [] {
      UnselectedEvents(rows[..|rows| - 1], slug, s);
      var rest := Unselected(rows[..|rows| - 1], slug);
      forall i | 0 <= i < |rest|
        ensures exists j :: 0 <= j < |rows| && rows[j] == rest[i]
      {
        var j :| 0 <= j < |rows| - 1 && rows[..|rows| - 1][j] == rest[i];
        assert rows[j] == rest[i];
      }
      if rows[|rows| - 1].slug != slug {
        assert (rest + [rows[|rows| - 1]])[..|rest|] == rest;
      }
    }
  }

  lemma {:induction false} NoStrayEvents(rows: seq<EventRow>, slug: string)
    requires forall i :: 0 <= i < |rows| ==> rows[i].slug != slug
    ensures EventsFor(rows, slug) == []
  {
    if rows != [] {
      NoStrayEvents(rows[..|rows| - 1], slug);
    }
  }

  lemma {:induction false} SelectedCount(rows: seq<EventRow>, slug: string)
    ensures |Selected(rows, slug)| == |EventsFor(rows, slug)|
  {
    if rows != [] {
      SelectedCount(rows[..|rows| - 1], slug);
    }
  }

  // ----- one plan changed ----------------------------------------------------------------

  lemma OneEntryChanged<V>(a: map<string, V>, b: map<string, V>, k: string)
    requires a.Keys == b.Keys + {k}
    requires forall s :: s in b && s != k ==> a[s] == b[s]
    ensures a == b[k := a[k]]
  {
  }

  /** Two states of the tables that differ in one plan only. */
  lemma OnePlanChanged(t: Tables, u: Tables, slug: string)
    requires u.plans.Keys == t.plans.Keys + {slug}
    requires forall s :: s in t.plans && s != slug ==> PlanOf(u, s) == PlanOf(t, s)
    ensures Abstract(u) == Db(Abstract(t).plans[slug := PlanOf(u, slug)], u.last)
  {
    OneEntryChanged(Abstract(u).plans, Abstract(t).plans, slug);
  }

  // ----- what each statement means ------------------------------------------------------------

  /** The tables now stand for `base` with this plan replaced by `p`. */
  predicate Shows(t: Tables, base: map<string, Plan>, slug: string, p: Plan) {
    slug in t.plans && Abstract(t).plans == base[slug := p]
  }

  /** Well-formed rows that show this plan. */
  predicate Stands(t: Tables, base: map<string, Plan>, slug: string, p: Plan) {
    Valid(t) && Shows(t, base, slug, p)
  }

  lemma PutTwice<V>(base: map<string, V>, k: string, v: V, w: V)
    ensures base[k := v][k := w] == base[k := w]
  {
  }

  lemma ShowsChange(t: Tables, u: Tables, base: map<string, Plan>, slug: string, p: Plan, q: Plan)
    requires Shows(t, base, slug, p)
    requires u.plans.Keys == t.plans.Keys
    requires forall s :: s in t.plans && s != slug ==> PlanOf(u, s) == PlanOf(t, s)
    requires PlanOf(u, slug) == q
    ensures Shows(u, base, slug, q)
  {
    hide PlanOf;
    OnePlanChanged(t, u, slug);
    PutTwice(base, slug, p, q);
  }

  lemma ShownPlan(t: Tables, base: map<string, Plan>, slug: string, p: Plan)
    requires Shows(t, base, slug, p)
    ensures PlanOf(t, slug) == p
  {
    hide PlanOf;
    assert Abstract(t).plans[slug] == base[slug := p][slug];
  }

  /** The whole database the tables stand for. */
  lemma StandsFor(t: Tables, base: map<string, Plan>, slug: string, p: Plan)
    requires Stands(t, base, slug, p)
    ensures Valid(t) && Abstract(t) == Db(base[slug := p], t.last)
  {
    hide PlanOf, Valid;
  }

  /** Each part of the plan is read off its own table. */
  lemma StandsParts(t: Tables, base: map<string, Plan>, slug: string, p: Plan)
    requires Stands(t, base, slug, p)
    ensures slug in t.plans && p.version == t.plans[slug].version && p.head == ReadHead(t.plans[slug].row)
    ensures p.claim == ClaimAt(t, slug)
    ensures p.blockers == ReadBlockers(RowsAt(t.blockers, slug))
    ensures p.tasks == ReadTasks(RowsAt(t.tasks, slug))
    ensures p.events == EventsFor(t.events, slug) && p.archive == EventsFor(t.archive, slug)
  {
    hide Valid, ReadHead, ClaimAt, ReadBlockers, ReadTasks, EventsFor;
    ShownPlan(t, base, slug, p);
  }

  lemma StandsOrdered(t: Tables)
    requires Valid(t)
    ensures t.last >= 0 && Ordered(t.events, t.last)
  {
  }

  lemma StandsRows(t: Tables, slug: string)
    requires Valid(t)
    ensures slug in t.plans ==> ValidRow(t.plans[slug].row, HEAD_SCALARS, HEAD_JSONS)
    ensures slug in t.claims ==> ValidRow(t.claims[slug], CLAIM_SCALARS, CLAIM_JSONS)
    ensures ValidBlockerRows(RowsAt(t.blockers, slug)) && ValidTaskRows(RowsAt(t.tasks, slug))
  {
    hide ValidRow;
  }

  /** The columns and rows of one plan decide what it is. */
  lemma SameRows(t: Tables, u: Tables, s: string)
    requires s in t.plans && s in u.plans && u.plans[s] == t.plans[s]
    requires ClaimAt(u, s) == ClaimAt(t, s)
    requires RowsAt(u.blockers, s) == RowsAt(t.blockers, s) && RowsAt(u.tasks, s) == RowsAt(t.tasks, s)
    requires EventsFor(u.events, s) == EventsFor(t.events, s) && EventsFor(u.archive, s) == EventsFor(t.archive, s)
    ensures PlanOf(u, s) == PlanOf(t, s)
  {
    hide ClaimAt, RowsAt, EventsFor, ReadHead, ReadBlockers, ReadTasks;
  }

  /** A write to one plan's rows: the only obligations are the rows written. */
  lemma Wrote(t: Tables, u: Tables, base: map<string, Plan>, slug: string, p: Plan, q: Plan)
    requires Stands(t, base, slug, p) && Valid(u) && u.plans.Keys == t.plans.Keys
    requires forall s :: s in t.plans && s != slug ==> PlanOf(u, s) == PlanOf(t, s)
    requires slug in t.plans ==> PlanOf(u, slug) == q
    ensures Stands(u, base, slug, q)
  {
    hide Valid, PlanOf;
    ShowsChange(t, u, base, slug, p, q);
  }

  lemma HeadPut(t: Tables, slug: string, head: HeadRow)
    requires Valid(t) && slug in t.plans && ValidRow(head.row, HEAD_SCALARS, HEAD_JSONS)
    ensures var u := t.(plans := t.plans[slug := head]);
            Valid(u) && u.plans.Keys == t.plans.Keys
            && PlanOf(u, slug) == PlanOf(t, slug).(version := head.version, head := ReadHead(head.row))
            && forall s :: s in t.plans && s != slug ==> PlanOf(u, s) == PlanOf(t, s)
  {
    hide ValidClaims, ValidBlockers, ValidRow, ReadHead, ReadClaim, ReadBlockers, ReadTasks, EventsFor, OwnedEvents,
         Ordered, ValidTaskRows;
    assert t.plans[slug := head].Keys == t.plans.Keys;
  }

  lemma VersionPut(t: Tables, slug: string)
    requires Valid(t) && slug in t.plans
    ensures var u := t.(plans := t.plans[slug := t.plans[slug].(version := t.plans[slug].version + 1)]);
            Valid(u) && u.plans.Keys == t.plans.Keys + {slug}
            && PlanOf(u, slug) == PlanOf(t, slug).(version := PlanOf(t, slug).version + 1)
            && forall s :: s in t.plans && s != slug ==> PlanOf(u, s) == PlanOf(t, s)
  {
    StandsRows(t, slug);
    hide Valid, ValidRow, ReadHead, ReadBlockers, ReadTasks, EventsFor, ClaimAt, RowsAt;
    HeadPut(t, slug, t.plans[slug].(version := t.plans[slug].version + 1));
  }

  /** The first statement of every write transaction. */
  lemma BumpStatement(t: Tables, slug: string)
    requires Valid(t) && slug in t.plans
    ensures var u := t.(plans := t.plans[slug := t.plans[slug].(version := t.plans[slug].version + 1)]);
            Stands(u, Abstract(t).plans, slug, PlanOf(t, slug).(version := PlanOf(t, slug).version + 1))
  {
    hide Valid, PlanOf;
    VersionPut(t, slug);
    OnePlanChanged(t, t.(plans := t.plans[slug := t.plans[slug].(version := t.plans[slug].version + 1)]), slug);
  }

  lemma HeadStatement(t: Tables, base: map<string, Plan>, slug: string, p: Plan, row: Row)
    requires Stands(t, base, slug, p) && ValidRow(row, HEAD_SCALARS, HEAD_JSONS)
    ensures Stands(t.(plans := t.plans[slug := t.plans[slug].(row := row)]), base, slug, p.(head := ReadHead(row)))
  {
    StandsParts(t, base, slug, p);
    hide Valid, PlanOf, Abstract, ValidRow, ReadHead;
    ShownPlan(t, base, slug, p);
    HeadPut(t, slug, t.plans[slug].(row := row));
    Wrote(t, t.(plans := t.plans[slug := t.plans[slug].(row := row)]), base, slug, p, p.(head := ReadHead(row)));
  }

  lemma ClaimPut(t: Tables, slug: string, row: Row)
    requires Valid(t) && slug in t.plans && ValidRow(row, CLAIM_SCALARS, CLAIM_JSONS)
    ensures var u := t.(claims := t.claims[slug := row]);
            Valid(u) && PlanOf(u, slug) == PlanOf(t, slug).(claim := Some(ReadClaim(row)))
            && forall s :: s in t.plans && s != slug ==> PlanOf(u, s) == PlanOf(t, s)
  {
    hide ValidHeads, ValidBlockers, ValidRow, ReadHead, ReadClaim, ReadBlockers, ReadTasks, EventsFor, OwnedEvents,
         Ordered, ValidTaskRows;
  }

  lemma ClaimStatement(t: Tables, base: map<string, Plan>, slug: string, p: Plan, row: Row)
    requires Stands(t, base, slug, p) && ValidRow(row, CLAIM_SCALARS, CLAIM_JSONS)
    ensures Stands(t.(claims := t.claims[slug := row]), base, slug, p.(claim := Some(ReadClaim(row))))
  {
    hide Valid, PlanOf, Abstract, ReadClaim, ValidRow;
    ShownPlan(t, base, slug, p);
    ClaimPut(t, slug, row);
    Wrote(t, t.(claims := t.claims[slug := row]), base, slug, p, p.(claim := Some(ReadClaim(row))));
  }

  lemma UnclaimPut(t: Tables, slug: string)
    requires Valid(t) && slug in t.plans
    ensures var u := t.(claims := t.claims - {slug});
            Valid(u) && PlanOf(u, slug) == PlanOf(t, slug).(claim := None)
            && forall s :: s in t.plans && s != slug ==> PlanOf(u, s) == PlanOf(t, s)
  {
    hide ValidHeads, ValidBlockers, ValidRow, ReadHead, ReadClaim, ReadBlockers, ReadTasks, EventsFor, OwnedEvents,
         Ordered, ValidTaskRows;
  }

  lemma UnclaimStatement(t: Tables, base: map<string, Plan>, slug: string, p: Plan)
    requires Stands(t, base, slug, p)
    ensures Stands(t.(claims := t.claims - {slug}), base, slug, p.(claim := None))
  {
    hide Valid, PlanOf, Abstract;
    ShownPlan(t, base, slug, p);
    UnclaimPut(t, slug);
    Wrote(t, t.(claims := t.claims - {slug}), base, slug, p, p.(claim := None));
  }

  lemma BlockersPut(t: Tables, slug: string, rows: seq<BlockerRow>)
    requires Valid(t) && slug in t.plans && ValidBlockerRows(rows)
    ensures var u := t.(blockers := t.blockers[slug := rows]);
            Valid(u) && PlanOf(u, slug) == PlanOf(t, slug).(blockers := ReadBlockers(rows))
            && forall s :: s in t.plans && s != slug ==> PlanOf(u, s) == PlanOf(t, s)
  {
    hide ValidBlockerRows, ReadBlockers, ValidRow, ReadHead, ReadTasks, ReadClaim, EventsFor, OwnedEvents, Ordered,
         ValidTaskRows;
  }

  lemma BlockersStatement(t: Tables, base: map<string, Plan>, slug: string, p: Plan, rows: seq<BlockerRow>)
    requires Stands(t, base, slug, p) && ValidBlockerRows(rows)
    ensures Stands(t.(blockers := t.blockers[slug := rows]), base, slug, p.(blockers := ReadBlockers(rows)))
  {
    hide Valid, PlanOf, ReadBlockers, Abstract, ValidBlockerRows;
    ShownPlan(t, base, slug, p);
    BlockersPut(t, slug, rows);
    Wrote(t, t.(blockers := t.blockers[slug := rows]), base, slug, p, p.(blockers := ReadBlockers(rows)));
  }

  lemma TasksPut(t: Tables, slug: string, rows: seq<TaskRow>)
    requires Valid(t) && slug in t.plans && ValidTaskRows(rows)
    ensures var u := t.(tasks := t.tasks[slug := rows]);
            Valid(u) && PlanOf(u, slug) == PlanOf(t, slug).(tasks := ReadTasks(rows))
            && forall s :: s in t.plans && s != slug ==> PlanOf(u, s) == PlanOf(t, s)
  {
    hide ValidBlockerRows, ReadBlockers, ValidRow, ReadHead, ReadTasks, ReadClaim, EventsFor, OwnedEvents, Ordered,
         ValidTaskRows;
  }

  lemma TasksStatement(t: Tables, base: map<string, Plan>, slug: string, p: Plan, rows: seq<TaskRow>)
    requires Stands(t, base, slug, p) && ValidTaskRows(rows)
    ensures Stands(t.(tasks := t.tasks[slug := rows]), base, slug, p.(tasks := ReadTasks(rows)))
  {
    hide Valid, PlanOf, ReadTasks, Abstract, ValidTaskRows;
    ShownPlan(t, base, slug, p);
    TasksPut(t, slug, rows);
    Wrote(t, t.(tasks := t.tasks[slug := rows]), base, slug, p, p.(tasks := ReadTasks(rows)));
  }

  lemma EventsForOneMore(rows: seq<EventRow>, row: EventRow, s: string)
    ensures EventsFor(rows + [row], s) == EventsFor(rows, s) + (if row.slug == s then [ReadEvent(row)] else [])
  {
    hide ReadEvent;
    assert (rows + [row])[..|rows|] == rows;
  }

  lemma OwnedOneMore(rows: seq<EventRow>, row: EventRow, slugs: set<string>)
    requires OwnedEvents(rows, slugs) && row.slug in slugs
    ensures OwnedEvents(rows + [row], slugs)
  {
  }

  lemma OrderedOneMore(rows: seq<EventRow>, row: EventRow, last: int)
    requires Ordered(rows, last) && last >= 0 && row.id == last + 1
    ensures Ordered(rows + [row], last + 1)
  {
  }

  lemma OrderedSnoc(rows: seq<EventRow>, row: EventRow, last: int)
    requires Ordered(rows, last) && 0 < row.id <= last
    requires forall i :: 0 <= i < |rows| ==> rows[i].id < row.id
    ensures Ordered(rows + [row], last)
  {
  }

  lemma OrderedPrefix(rows: seq<EventRow>, last: int)
    requires Ordered(rows, last) && rows != []
    ensures var n := |rows| - 1;
            Ordered(rows[..n], last) && 0 < rows[n].id <= last && forall j :: 0 <= j < n ==> rows[..n][j].id < rows[n].id
  {
  }

  lemma {:induction false} UnselectedOrdered(rows: seq<EventRow>, slug: string, last: int)
    requires Ordered(rows, last)
    ensures Ordered(Unselected(rows, slug), last)
  {
    if rows != [] {
      OrderedPrefix(rows, last);
      UnselectedOrdered(rows[..|rows| - 1], slug, last);
      hide Ordered;
      var rest := Unselected(rows[..|rows| - 1], slug);
      UnselectedEvents(rows[..|rows| - 1], slug, slug);
      OrderedSnoc(rest, rows[|rows| - 1], last);
    } else {
      assert Unselected(rows, slug) == [];
    }
  }

  lemma EventPut(t: Tables, slug: string, row: EventRow)
    requires Valid(t) && slug in t.plans && row.slug == slug && row.id == t.last + 1
    ensures var u := t.(events := t.events + [row], last := t.last + 1);
            Valid(u) && PlanOf(u, slug) == PlanOf(t, slug).(events := PlanOf(t, slug).events + [ReadEvent(row)])
            && forall s :: s in t.plans && s != slug ==> PlanOf(u, s) == PlanOf(t, s)
  {
    hide ValidHeads, ValidClaims, ValidBlockers, ReadBlockers, ReadHead, ReadTasks, ReadClaim, EventsFor,
         OwnedEvents, ReadEvent, Ordered;
    OrderedOneMore(t.events, row, t.last);
    OwnedOneMore(t.events, row, t.plans.Keys);
    EventsForOneMore(t.events, row, slug);
    var u := t.(events := t.events + [row], last := t.last + 1);
    forall s | s in t.plans && s != slug
      ensures PlanOf(u, s) == PlanOf(t, s)
    {
      EventsForOneMore(t.events, row, s);
      assert EventsFor(t.events, s) + [] == EventsFor(t.events, s);
    }
  }

  lemma EventStatement(t: Tables, base: map<string, Plan>, slug: string, p: Plan, e: NewEvent)
    requires Stands(t, base, slug, p)
    ensures var u := t.(events := t.events + [EventValues(t.last + 1, slug, e)], last := t.last + 1);
            Stands(u, base, slug, p.(events := p.events + [StampOne(t.last + 1, e)]))
  {
    hide Valid, PlanOf, Abstract, ReadEvent, StampOne;
    ShownPlan(t, base, slug, p);
    var row := EventValues(t.last + 1, slug, e);
    EventRoundTrip(t.last + 1, slug, e);
    EventPut(t, slug, row);
    Wrote(t, t.(events := t.events + [row], last := t.last + 1), base, slug, p,
          p.(events := p.events + [StampOne(t.last + 1, e)]));
  }

  lemma ArchivedEvents(t: Tables, slug: string, s: string)
    ensures EventsFor(t.archive + Selected(t.events, slug), s)
         == EventsFor(t.archive, s) + (if s == slug then EventsFor(t.events, s) else [])
    ensures EventsFor(Unselected(t.events, slug), s) == if s == slug then [] else EventsFor(t.events, s)
    ensures s != slug ==> EventsFor(t.archive + Selected(t.events, slug), s) == EventsFor(t.archive, s)
  {
    EventsForConcat(t.archive, Selected(t.events, slug), s);
    SelectedEvents(t.events, slug, s);
    UnselectedEvents(t.events, slug, s);
  }

  lemma ArchiveOwned(t: Tables, slug: string)
    requires Valid(t) && slug in t.plans
    ensures OwnedEvents(t.archive + Selected(t.events, slug), t.plans.Keys)
    ensures OwnedEvents(Unselected(t.events, slug), t.plans.Keys)
  {
    SelectedEvents(t.events, slug, slug);
    UnselectedEvents(t.events, slug, slug);
  }

  lemma ArchivePut(t: Tables, slug: string)
    requires Valid(t) && slug in t.plans
    ensures var u := t.(archive := t.archive + Selected(t.events, slug), events := Unselected(t.events, slug));
            var p := PlanOf(t, slug);
            Valid(u) && PlanOf(u, slug) == p.(archive := p.archive + p.events, events := [])
            && forall s :: s in t.plans && s != slug ==> PlanOf(u, s) == PlanOf(t, s)
  {
    hide ValidHeads, ValidClaims, ValidBlockers, ReadBlockers, ReadHead, ReadTasks, ReadClaim, EventsFor, OwnedEvents,
         Selected, Unselected, Ordered;
    ArchiveOwned(t, slug);
    UnselectedOrdered(t.events, slug, t.last);
    ArchivedEvents(t, slug, slug);
    var u := t.(archive := t.archive + Selected(t.events, slug), events := Unselected(t.events, slug));
    forall s | s in t.plans && s != slug
      ensures PlanOf(u, s) == PlanOf(t, s)
    {
      ArchivedEvents(t, slug, s);
    }
  }

  /** `INSERT INTO events_archive ... SELECT` and the delete after it. */
  lemma ArchiveStatement(t: Tables, base: map<string, Plan>, slug: string, p: Plan)
    requires Stands(t, base, slug, p)
    ensures var u := t.(archive := t.archive + Selected(t.events, slug), events := Unselected(t.events, slug));
            Stands(u, base, slug, p.(archive := p.archive + p.events, events := []))
  {
    hide Valid, PlanOf, Abstract, Selected, Unselected;
    ShownPlan(t, base, slug, p);
    ArchivePut(t, slug);
    Wrote(t, t.(archive := t.archive + Selected(t.events, slug), events := Unselected(t.events, slug)), base, slug, p,
          p.(archive := p.archive + p.events, events := []));
  }

  /** A plan that does not exist has no rows anywhere. */
  lemma NoStrays(t: Tables, slug: string)
    requires Valid(t) && slug !in t.plans
    ensures slug !in t.claims && slug !in t.blockers && slug !in t.tasks
    ensures EventsFor(t.events, slug) == [] && EventsFor(t.archive, slug) == []
  {
    NoStrayEvents(t.events, slug);
    NoStrayEvents(t.archive, slug);
  }

  lemma OwnedByMore(rows: seq<EventRow>, slugs: set<string>, more: set<string>)
    requires OwnedEvents(rows, slugs) && slugs <= more
    ensures OwnedEvents(rows, more)
  {
  }

  lemma CreatePut(t: Tables, slug: string, row: Row)
    requires Valid(t) && slug !in t.plans && ValidRow(row, HEAD_SCALARS, HEAD_JSONS)
    ensures var u := t.(plans := t.plans[slug := HeadRow(0, row)]);
            Valid(u) && PlanOf(u, slug) == Plan(0, ReadHead(row), None, [], [], [], [])
            && forall s :: s in t.plans && s != slug ==> PlanOf(u, s) == PlanOf(t, s)
  {
    hide ValidClaims, ValidBlockers, ValidTasks, Ordered, ReadHead, EventsFor, ValidRow, OwnedEvents;
    var u := t.(plans := t.plans[slug := HeadRow(0, row)]);
    NoStrays(t, slug);
    OwnedByMore(t.events, t.plans.Keys, u.plans.Keys);
    OwnedByMore(t.archive, t.plans.Keys, u.plans.Keys);
    assert ReadBlockers([]) == [] && ReadTasks([]) == [];
    forall s | s in t.plans && s != slug
      ensures PlanOf(u, s) == PlanOf(t, s)
    {
      SameRows(t, u, s);
    }
  }

  /** A new head row with no rows anywhere else. */
  lemma CreateStatement(t: Tables, slug: string, row: Row)
    requires Valid(t) && slug !in t.plans && ValidRow(row, HEAD_SCALARS, HEAD_JSONS)
    ensures Stands(t.(plans := t.plans[slug := HeadRow(0, row)]), Abstract(t).plans, slug,
                   Plan(0, ReadHead(row), None, [], [], [], []))
  {
    hide Valid, PlanOf, ReadHead, ValidRow;
    CreatePut(t, slug, row);
    OnePlanChanged(t, t.(plans := t.plans[slug := HeadRow(0, row)]), slug);
  }
}
