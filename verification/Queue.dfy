/** The plan queue: two tables whose row ids are the order. Tail inserts take
    the next autoincrement, front inserts the minimum less one, and every
    method is proved to act on the id-ordered table as a plain sequence. */
module Queue {
  import opened Values
  import opened PlanDoc
  import opened PlanOps
  import PlanTables
  import PlanStore

  datatype Entry = Entry(slug: string, sourcePlan: Option<string>, sourcePhase: Option<string>, rest: Doc)

  datatype Ending = Popped | Absorbed | Abandoned | Removed

  datatype Finished = Finished(entry: Entry, ending: Ending)

  // ----- the sequence a table stands for ------------------------------------------------

  predicate Least(ids: set<int>, m: int) {
    m in ids && forall i :: i in ids ==> m <= i
  }

  lemma HasMember(ids: set<int>)
    ensures ids != {} ==> exists i :: i in ids
  {
    assert (forall i :: i !in ids) ==> ids == {};
  }

  lemma {:induction false} MinExists(ids: set<int>)
    requires ids != {}
    ensures exists m :: Least(ids, m)
    decreases |ids|
  {
    HasMember(ids);
    var m :| m in ids;
    if ids != {m} {
      var rest := ids - {m};
      assert ids == rest + {m};
      MinExists(rest);
      var n :| Least(rest, n);
      assert Least(ids, if n < m then n else m);
    } else {
      assert Least(ids, m);
    }
  }

  ghost function MinOf(ids: set<int>): (m: int)
    requires ids != {}
    ensures Least(ids, m)
  {
    MinExists(ids);
    var m :| Least(ids, m);
    m
  }

  /** `SELECT ... ORDER BY id`. */
  ghost function Pending(rows: map<int, Entry>): seq<Entry>
    decreases rows.Keys
  {
    if rows == map[] then []
    else
      var m := MinOf(rows.Keys);
      [rows[m]] + Pending(rows - {m})
  }

  lemma PendingFront(rows: map<int, Entry>, id: int, e: Entry)
    requires forall k :: k in rows ==> id < k
    ensures Pending(rows[id := e]) == [e] + Pending(rows)
  {
    assert MinOf(rows[id := e].Keys) == id by { assert id in rows[id := e].Keys; }
    assert rows[id := e] - {id} == rows;
  }

  lemma {:induction false} PendingTail(rows: map<int, Entry>, id: int, e: Entry)
    requires forall k :: k in rows ==> k < id
    ensures Pending(rows[id := e]) == Pending(rows) + [e]
    decreases rows.Keys
  {
    if rows == map[] {
      PendingFront(rows, id, e);
    } else {
      var m := MinOf(rows.Keys);
      assert m in rows[id := e].Keys;
      assert MinOf(rows[id := e].Keys) == m;
      assert rows[id := e] - {m} == (rows - {m})[id := e];
      PendingTail(rows - {m}, id, e);
      assert [rows[m]] + (Pending(rows - {m}) + [e]) == ([rows[m]] + Pending(rows - {m})) + [e];
    }
  }

  /** Deleting a row takes one place out of the sequence; the places before it
      are rows with smaller ids. */
  lemma {:induction false} PendingDelete(rows: map<int, Entry>, k: int) returns (i: nat)
    requires k in rows
    ensures i < |Pending(rows)| && Pending(rows)[i] == rows[k]
    ensures Pending(rows - {k}) == Pending(rows)[..i] + Pending(rows)[i + 1..]
    ensures forall j :: 0 <= j < i ==> exists id :: id in rows && id < k && rows[id] == Pending(rows)[j]
    decreases rows.Keys
  {
    var m := MinOf(rows.Keys);
    var tail := Pending(rows - {m});
    if k == m {
      i := 0;
    } else {
      var r := PendingDelete(rows - {m}, k);
      i := r + 1;
      assert MinOf((rows - {k}).Keys) == m by { assert m in (rows - {k}).Keys; }
      assert (rows - {k}) - {m} == (rows - {m}) - {k};
      assert Pending(rows)[..i] == [rows[m]] + tail[..r];
      assert Pending(rows)[i + 1..] == tail[r + 1..];
      forall j | 0 <= j < i
        ensures exists id :: id in rows && id < k && rows[id] == Pending(rows)[j]
      {
        if j == 0 {
          assert m in rows && m < k && rows[m] == Pending(rows)[0];
        } else {
          var id :| id in rows - {m} && id < k && (rows - {m})[id] == tail[j - 1];
          assert id in rows && id < k && rows[id] == Pending(rows)[j];
        }
      }
    }
  }

  lemma {:induction false} PendingHas(rows: map<int, Entry>, i: nat) returns (id: int)
    requires i < |Pending(rows)|
    ensures id in rows && rows[id] == Pending(rows)[i]
    decreases rows.Keys
  {
    var m := MinOf(rows.Keys);
    if i == 0 {
      id := m;
    } else {
      id := PendingHas(rows - {m}, i - 1);
    }
  }

  // ----- what the operations do to the sequence --------------------------------------------

  /** Index of the first entry with this slug, or the length. */
  function IndexOf(es: seq<Entry>, slug: string): (i: nat)
    ensures i <= |es| && (i < |es| ==> es[i].slug == slug)
    ensures forall j :: 0 <= j < i ==> es[j].slug != slug
  {
    if es == [] || es[0].slug == slug then 0 else 1 + IndexOf(es[1..], slug)
  }

  predicate Queued(es: seq<Entry>, slug: string) {
    exists i :: 0 <= i < |es| && es[i].slug == slug
  }

  predicate DistinctSlugs(es: seq<Entry>) {
    forall i, j :: 0 <= i < j < |es| ==> es[i].slug != es[j].slug
  }

  /** A batch goes in whole exactly when every slug is acceptable, new to the
      queue and new to the batch. */
  predicate Admissible(es: seq<Entry>, batch: seq<Entry>) {
    && (forall i :: 0 <= i < |batch| ==> AcceptedSlug(batch[i].slug) && !Queued(es, batch[i].slug))
    && DistinctSlugs(batch)
  }

  function AddedMany(es: seq<Entry>, batch: seq<Entry>, front: bool): seq<Entry> {
    if front then batch + es else es + batch
  }

  function Without(es: seq<Entry>, slug: string): seq<Entry> {
    var i := IndexOf(es, slug);
    if i < |es| then es[..i] + es[i + 1..] else es
  }

  datatype Refusal = AlreadyQueued(position: nat) | BadSlug

  datatype Placing = Placed(position: nat) | Refused(why: Refusal)

  datatype Adding = Added(positions: seq<nat>) | NotAdded(why: Refusal)

  datatype WorkerAnswer = AtCap | AlreadyPending | Running | Ran | Accepted(position: nat) | Malformed

  predicate TaggedBy(e: Entry, plan: string, phase: string) {
    e.sourcePlan == Some(plan) && e.sourcePhase == Some(phase)
  }

  function Tagged(es: seq<Entry>, plan: string, phase: string): nat {
    if es == [] then 0
    else Tagged(es[..|es| - 1], plan, phase) + (if TaggedBy(es[|es| - 1], plan, phase) then 1 else 0)
  }

  function Entries(history: seq<Finished>): seq<Entry> {
    seq(|history|, i requires 0 <= i < |history| => history[i].entry)
  }

  /** The decision of a worker's add, made and carried out in one transaction. */
  function WorkerAdds(es: seq<Entry>, history: seq<Finished>, e: Entry, plan: string, phase: string, cap: int,
          running: bool): WorkerAnswer {
    if Tagged(es + Entries(history), plan, phase) >= cap then AtCap
    else if Queued(es, e.slug) then AlreadyPending
    else if running then Running
    else if Queued(Entries(history), e.slug) then Ran
    else if !AcceptedSlug(e.slug) then Malformed
    else Accepted(|es| + 1)
  }

  // ----- a worker's add, by who is in the queue ------------------------------------------------

  /** Where the entries stand that came from this phase of this plan. */
  function From(es: seq<Entry>, plan: string, phase: string): set<int> {
    set i | 0 <= i < |es| && es[i].sourcePlan == Some(plan) && es[i].sourcePhase == Some(phase)
  }

  function FromDone(history: seq<Finished>, plan: string, phase: string): set<int> {
    set i | 0 <= i < |history| && history[i].entry.sourcePlan == Some(plan) && history[i].entry.sourcePhase == Some(phase)
  }

  /** How many entries this source phase has ever got in, pending or finished. */
  function GotIn(es: seq<Entry>, history: seq<Finished>, plan: string, phase: string): nat {
    |From(es, plan, phase)| + |FromDone(history, plan, phase)|
  }

  predicate Waiting(es: seq<Entry>, slug: string) {
    exists i :: 0 <= i < |es| && es[i].slug == slug
  }

  predicate Done(history: seq<Finished>, slug: string) {
    exists i :: 0 <= i < |history| && history[i].entry.slug == slug
  }

  lemma {:induction false} TaggedIsFrom(es: seq<Entry>, plan: string, phase: string)
    ensures Tagged(es, plan, phase) == |From(es, plan, phase)|
  {
    if es != [] {
      var n := |es| - 1;
      TaggedIsFrom(es[..n], plan, phase);
      assert From(es, plan, phase) == From(es[..n], plan, phase) + (if TaggedBy(es[n], plan, phase) then {n} else {});
    }
  }

  lemma {:induction false} TaggedTogether(xs: seq<Entry>, ys: seq<Entry>, plan: string, phase: string)
    ensures Tagged(xs + ys, plan, phase) == Tagged(xs, plan, phase) + Tagged(ys, plan, phase)
    decreases |ys|
  {
    if ys == [] {
      assert xs + ys == xs;
    } else {
      assert (xs + ys)[..|xs + ys| - 1] == xs + ys[..|ys| - 1];
      TaggedTogether(xs, ys[..|ys| - 1], plan, phase);
    }
  }

  lemma DoneIsQueued(history: seq<Finished>, slug: string)
    ensures Queued(Entries(history), slug) <==> Done(history, slug)
  {
    if Done(history, slug) {
      var i :| 0 <= i < |history| && history[i].entry.slug == slug;
      assert Entries(history)[i].slug == slug;
    }
  }

  /** A worker's entry goes in exactly when its phase got fewer than the cap in
      so far, its slug is acceptable, and no plan of that slug is waiting, is
      running, or has ever been through the queue; it then goes in last. Every
      refusal names the first of these that fails, in the order cap, waiting,
      running, been through, acceptable. */
  lemma WorkerAddsIff(es: seq<Entry>, history: seq<Finished>, e: Entry, plan: string, phase: string, cap: int, running: bool)
    ensures var r := WorkerAdds(es, history, e, plan, phase, cap, running);
            var room := GotIn(es, history, plan, phase) < cap;
            && (r.Accepted? <==> room && !Waiting(es, e.slug) && !running && !Done(history, e.slug) && AcceptedSlug(e.slug))
            && (r.Accepted? ==> r.position == |es| + 1)
            && (r == AtCap <==> !room)
            && (r == AlreadyPending <==> room && Waiting(es, e.slug))
            && (r == Running <==> room && !Waiting(es, e.slug) && running)
            && (r == Ran <==> room && !Waiting(es, e.slug) && !running && Done(history, e.slug))
            && (r == Malformed <==> room && !Waiting(es, e.slug) && !running && !Done(history, e.slug) && !AcceptedSlug(e.slug))
  {
    TaggedTogether(es, Entries(history), plan, phase);
    TaggedIsFrom(es, plan, phase);
    TaggedIsFrom(Entries(history), plan, phase);
    assert From(Entries(history), plan, phase) == FromDone(history, plan, phase);
    DoneIsQueued(history, e.slug);
    hide Entries, AcceptedSlug, Tagged;
  }

  method FirstIndex(es: seq<Entry>, slug: string) returns (i: nat)
    ensures i == IndexOf(es, slug)
    ensures i < |es| <==> Queued(es, slug)
  {
    i := 0;
    while i < |es| && es[i].slug != slug
      invariant i <= |es| && forall j :: 0 <= j < i ==> es[j].slug != slug
    {
      i := i + 1;
    }
  }

  method MinId(ids: set<int>) returns (m: int)
    requires ids != {}
    ensures m == MinOf(ids)
  {
    HasMember(ids);
    m :| m in ids;
    var left := ids - {m};
    while left != {}
      invariant m in ids && left <= ids && forall i :: i in ids && i !in left ==> m <= i
    {
      HasMember(left);
      var i :| i in left;
      if i < m { m := i; }
      left := left - {i};
    }
  }

  class QueueTable {
    var rows: map<int, Entry>
    // the autoincrement of `queue`: the largest id ever stored
    var counter: nat
    var history: seq<Finished>

    predicate Valid()
      reads this
    {
      forall k :: k in rows ==> k <= counter
    }

    constructor ()
      ensures Valid() && Pending(rows) == [] && history == []
    {
      rows, counter, history := map[], 0, [];
    }

    method PendingInTxn() returns (es: seq<Entry>)
      ensures es == Pending(rows)
    {
      es := [];
      var left := rows;
      while left != map[]
        invariant es + Pending(left) == Pending(rows)
        decreases left.Keys
      {
        var m := MinId(left.Keys);
        es := es + [left[m]];
        left := left - {m};
      }
    }

    /** One entry at the head or the tail; its 1-based position, or why not. */
    method InsertInTxn(e: Entry, front: bool) returns (r: Placing)
      requires Valid()
      modifies this
      ensures Valid() && history == old(history)
      ensures r.Placed? <==> AcceptedSlug(e.slug) && !Queued(old(Pending(rows)), e.slug)
      ensures r.Placed? ==> Pending(rows) == AddedMany(old(Pending(rows)), [e], front)
      ensures r.Placed? ==> r.position == if front then 1 else |old(Pending(rows))| + 1
      ensures r.Refused? ==> rows == old(rows) && counter == old(counter)
      ensures r.Refused? && r.why.AlreadyQueued? ==> r.why.position == IndexOf(old(Pending(rows)), e.slug) + 1
      ensures r == Refused(BadSlug) <==> !AcceptedSlug(e.slug)
    {
      if !AcceptedSlug(e.slug) { return Refused(BadSlug); }
      var existing := PendingInTxn();
      var at := FirstIndex(existing, e.slug);
      if at < |existing| { return Refused(AlreadyQueued(at + 1)); }
      if front {
        var id := 1;
        if rows != map[] {
          var low := MinId(rows.Keys);
          id := low - 1;
        }
        PendingFront(rows, id, e);
        rows := rows[id := e];
        counter := if id > counter then id else counter;
        return Placed(1);
      }
      PendingTail(rows, counter + 1, e);
      rows, counter := rows[counter + 1 := e], counter + 1;
      r := Placed(|existing| + 1);
    }

    method InsertBackToFront(batch: seq<Entry>) returns (refused: Option<Refusal>)
      requires Valid()
      modifies this
      ensures Valid() && history == old(history)
      ensures refused.None? <==> Admissible(old(Pending(rows)), batch)
      ensures refused.None? ==> Pending(rows) == batch + old(Pending(rows))
    {
      ghost var before := Pending(rows);
      var i := |batch|;
      assert batch[i..] + before == before;
      while i > 0
        invariant i <= |batch| && Valid() && history == old(history)
        invariant Pending(rows) == batch[i..] + before
        invariant Admissible(before, batch[i..])
      {
        i := i - 1;
        FrontAdmits(before, batch, i);
        AdmissibleSuffix(before, batch, i);
        hide Admissible, Pending, Queued;
        var placed := InsertInTxn(batch[i], true);
        if placed.Refused? { return Some(placed.why); }
      }
      assert batch[0..] == batch;
      refused := None;
    }

    method InsertInOrder(batch: seq<Entry>) returns (r: Adding)
      requires Valid()
      modifies this
      ensures Valid() && history == old(history)
      ensures r.Added? <==> Admissible(old(Pending(rows)), batch)
      ensures r.Added? ==> Pending(rows) == old(Pending(rows)) + batch
      ensures r.Added? ==> |r.positions| == |batch|
      ensures r.Added? ==> forall k :: 0 <= k < |batch| ==> r.positions[k] == |old(Pending(rows))| + k + 1
    {
      hide Admissible, Pending, Queued;
      ghost var before := Pending(rows);
      assert before + batch[..0] == before;
      NothingAdmits(before, batch);
      var positions: seq<nat> := [];
      for i := 0 to |batch|
        invariant Valid() && history == old(history)
        invariant Pending(rows) == before + batch[..i]
        invariant Admissible(before, batch[..i])
        invariant |positions| == i && forall k :: 0 <= k < i ==> positions[k] == |before| + k + 1
      {
        TailAdmits(before, batch, i);
        AdmissiblePrefix(before, batch, i + 1);
        var placed := InsertInTxn(batch[i], false);
        if placed.Refused? { return NotAdded(placed.why); }
        positions := positions + [placed.position];
        assert before + batch[..i + 1] == (before + batch[..i]) + [batch[i]];
      }
      assert batch[..|batch|] == batch;
      r := Added(positions);
    }

    /** A whole batch in one transaction. A front batch goes in back to front,
        which leaves the caller's order at the head. */
    method AddMany(batch: seq<Entry>, front: bool) returns (r: Adding)
      requires Valid()
      modifies this
      ensures Valid() && history == old(history)
      ensures r.Added? <==> Admissible(old(Pending(rows)), batch)
      ensures r.Added? ==> Pending(rows) == AddedMany(old(Pending(rows)), batch, front)
      ensures r.Added? ==> |r.positions| == |batch|
      ensures r.Added? ==> forall i :: 0 <= i < |batch| ==>
                1 <= r.positions[i] <= |Pending(rows)| && Pending(rows)[r.positions[i] - 1] == batch[i]
      ensures r.NotAdded? ==> rows == old(rows) && counter == old(counter)
    {
      hide Admissible, Pending;
      var begin, mark := rows, counter;
      if front {
        var refused := InsertBackToFront(batch);
        r := if refused.Some? then NotAdded(refused.value) else Added(seq(|batch|, k requires 0 <= k < |batch| => k + 1));
      } else {
        r := InsertInOrder(batch);
      }
      if r.NotAdded? { rows, counter := begin, mark; }
    }

    /** Move the head to history if it is still this slug. */
    method PopHeadInTxn(slug: string, ending: Ending) returns (popped: bool)
      requires Valid()
      modifies this
      ensures Valid()
      ensures popped <==> old(Pending(rows)) != [] && old(Pending(rows))[0].slug == slug
      ensures popped ==> Pending(rows) == old(Pending(rows))[1..]
      ensures popped ==> history == old(history) + [Finished(old(Pending(rows))[0], ending)]
      ensures !popped ==> rows == old(rows) && counter == old(counter) && history == old(history)
    {
      if rows == map[] { return false; }
      var m := MinId(rows.Keys);
      if rows[m].slug != slug { return false; }
      history := history + [Finished(rows[m], ending)];
      rows := rows - {m};
      popped := true;
    }

    /** Drop the first entry with this slug into history. */
    method RemoveInTxn(slug: string) returns (found: bool)
      requires Valid()
      modifies this
      ensures Valid()
      ensures found <==> Queued(old(Pending(rows)), slug)
      ensures Pending(rows) == Without(old(Pending(rows)), slug)
      ensures found ==>
        var es := old(Pending(rows));
        history == old(history) + [Finished(es[IndexOf(es, slug)], Removed)]
      ensures !found ==> rows == old(rows) && history == old(history)
    {
      var named := set k | k in rows && rows[k].slug == slug;
      assert forall k :: k in rows && rows[k].slug == slug ==> k in named;
      if named == {} {
        NoneQueued(rows, slug);
        return false;
      }
      var k := MinId(named);
      FirstNamed(rows, k, slug);
      history := history + [Finished(rows[k], Removed)];
      rows := rows - {k};
      found := true;
    }

    /** A worker's add: cap, three idempotency checks and the insert. */
    method AddByWorker(e: Entry, plan: string, phase: string, cap: int, running: bool) returns (r: WorkerAnswer)
      requires Valid()
      modifies this
      ensures Valid() && history == old(history)
      ensures r == WorkerAdds(old(Pending(rows)), old(history), e, plan, phase, cap, running)
      ensures Pending(rows) == if r.Accepted? then old(Pending(rows)) + [e] else old(Pending(rows))
      ensures r.Accepted? <==>
                && GotIn(old(Pending(rows)), history, plan, phase) < cap && !running && AcceptedSlug(e.slug)
                && !Waiting(old(Pending(rows)), e.slug) && !Done(history, e.slug)
    {
      WorkerAddsIff(Pending(rows), history, e, plan, phase, cap, running);
      hide Pending, TaggedBy, Admissible, GotIn, Waiting, Done;
      var es := PendingInTxn();
      var all := es + Entries(history);
      var count := 0;
      for i := 0 to |all|
        invariant count == Tagged(all[..i], plan, phase)
      {
        assert all[..i + 1][..i] == all[..i];
        if TaggedBy(all[i], plan, phase) { count := count + 1; }
      }
      assert all[..|all|] == all;
      if count >= cap { return AtCap; }
      var at := FirstIndex(es, e.slug);
      if at < |es| { return AlreadyPending; }
      if running { return Running; }
      var past := FirstIndex(Entries(history), e.slug);
      if past < |history| { return Ran; }
      var placed := InsertInTxn(e, false);
      if placed.Refused? { return Malformed; }
      r := Accepted(placed.position);
    }

    /** The pop that starts a plan: the head moves to history and the plan's
        rows are created, in one transaction; a plan already there is the
        replay case and the pop still commits. */
    method PopAndCreate(store: PlanStore.PlanStore, slug: string, head: Doc, events: seq<NewEvent>) returns (popped: bool)
      requires Valid() && PlanTables.Valid(store.t) && AcceptedSlug(slug)
      modifies this, store
      ensures Valid() && PlanTables.Valid(store.t)
      ensures popped <==> old(Pending(rows)) != [] && old(Pending(rows))[0].slug == slug
      ensures popped ==> Pending(rows) == old(Pending(rows))[1..]
      ensures popped ==> history == old(history) + [Finished(old(Pending(rows))[0], Popped)]
      ensures popped ==> store.Now() == Step(old(store.Now()), slug, Create(NewPlan(head, None, [], [], events))).db
      ensures popped ==> slug in store.Now().plans
      ensures !popped ==> rows == old(rows) && history == old(history) && store.t == old(store.t)
    {
      hide PlanTables.Valid;
      popped := PopHeadInTxn(slug, Popped);
      if popped {
        BarePlanCreated(store.Now(), slug, head, events);
        hide *;
        var created := store.OpCreate(slug, NewPlan(head, None, [], [], events));
      }
    }
  }

  // ----- proof steps ------------------------------------------------------------------------

  lemma BarePlanCreated(db: Db, slug: string, head: Doc, events: seq<NewEvent>)
    requires AcceptedSlug(slug)
    ensures var o := Step(db, slug, Create(NewPlan(head, None, [], [], events)));
            slug in o.db.plans && (o.result.Ok? || (o.result == Err(FileExists) && o.db == db))
  {
  }

  /** Deleting the least row with a slug takes out its first place. */
  lemma FirstNamed(rows: map<int, Entry>, k: int, slug: string)
    requires k in rows && rows[k].slug == slug
    requires forall id :: id in rows && id < k ==> rows[id].slug != slug
    ensures Queued(Pending(rows), slug) && Pending(rows)[IndexOf(Pending(rows), slug)] == rows[k]
    ensures Pending(rows - {k}) == Without(Pending(rows), slug)
  {
    var i := PendingDelete(rows, k);
    hide Pending;
    forall j | 0 <= j < i
      ensures Pending(rows)[j].slug != slug
    {
      var id :| id in rows && id < k && rows[id] == Pending(rows)[j];
    }
    IndexIs(Pending(rows), slug, i);
  }

  lemma IndexIs(es: seq<Entry>, slug: string, i: nat)
    requires i < |es| && es[i].slug == slug && forall j :: 0 <= j < i ==> es[j].slug != slug
    ensures IndexOf(es, slug) == i && Queued(es, slug)
  {
  }

  lemma NoneQueued(rows: map<int, Entry>, slug: string)
    requires forall k :: k in rows ==> rows[k].slug != slug
    ensures !Queued(Pending(rows), slug)
  {
    forall i | 0 <= i < |Pending(rows)|
      ensures Pending(rows)[i].slug != slug
    {
      var id := PendingHas(rows, i);
    }
  }

  lemma FrontAdmits(before: seq<Entry>, batch: seq<Entry>, i: nat)
    requires i < |batch| && Admissible(before, batch[i + 1..])
    ensures Admissible(before, batch[i..]) <==>
              AcceptedSlug(batch[i].slug) && !Queued(batch[i + 1..] + before, batch[i].slug)
    ensures batch[i..] + before == [batch[i]] + (batch[i + 1..] + before)
  {
    var rest := batch[i + 1..];
    assert batch[i..] == [batch[i]] + rest;
    forall k | 0 <= k < |rest + before|
      ensures (rest + before)[k] == if k < |rest| then rest[k] else before[k - |rest|]
    {
    }
    if Queued(before, batch[i].slug) {
      var k :| 0 <= k < |before| && before[k].slug == batch[i].slug;
      assert (rest + before)[|rest| + k].slug == batch[i].slug;
    }
    if !Queued(rest + before, batch[i].slug) {
      forall k | 0 <= k < |rest|
        ensures rest[k].slug != batch[i].slug
      {
        assert (rest + before)[k].slug != batch[i].slug;
      }
    }
    assert forall k :: 0 <= k < |rest| ==> batch[i..][k + 1] == rest[k];
  }

  lemma NothingAdmits(es: seq<Entry>, batch: seq<Entry>)
    ensures Admissible(es, batch[..0])
  {
  }

  lemma TailAdmits(before: seq<Entry>, batch: seq<Entry>, i: nat)
    requires i < |batch| && Admissible(before, batch[..i])
    ensures Admissible(before, batch[..i + 1]) <==>
              AcceptedSlug(batch[i].slug) && !Queued(before + batch[..i], batch[i].slug)
  {
    var init := batch[..i];
    assert batch[..i + 1] == init + [batch[i]];
    assert batch[..i + 1][i] == batch[i];
    if Queued(before, batch[i].slug) {
      var k :| 0 <= k < |before| && before[k].slug == batch[i].slug;
      assert (before + init)[k].slug == batch[i].slug;
    }
    if !Queued(before + init, batch[i].slug) {
      forall k | 0 <= k < i
        ensures init[k].slug != batch[i].slug
      {
        assert (before + init)[|before| + k].slug != batch[i].slug;
      }
    }
  }

  lemma AdmissibleSuffix(before: seq<Entry>, batch: seq<Entry>, i: nat)
    requires i <= |batch|
    ensures Admissible(before, batch) ==> Admissible(before, batch[i..])
  {
  }

  lemma AdmissiblePrefix(before: seq<Entry>, batch: seq<Entry>, i: nat)
    requires i <= |batch|
    ensures Admissible(before, batch) ==> Admissible(before, batch[..i])
  {
  }
}
