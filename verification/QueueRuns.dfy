/** The queue over whole runs of adds, removals, pops and plan operations:
    what is never lost, what is never repeated, and what a pop leaves behind
    at every point where the process may die. */
module QueueRuns {
  import opened Values
  import opened PlanDoc
  import opened PlanOps
  import opened Queue
  import PlanTables
  import PlanStore

  /** Both queue tables and the plans beside them. */
  datatype Project = Project(pending: seq<Entry>, history: seq<Finished>, db: Db)

  datatype Call =
    | Add(batch: seq<Entry>, front: bool)
    | WorkerAdd(entry: Entry, plan: string, phase: string, cap: int, running: bool)
    | Drop(slug: string)
    | PopOnly(slug: string, ending: Ending)
    | PopPlan(slug: string, head: Doc, events: seq<NewEvent>)
    | OnPlan(slug: string, op: Op)

  predicate HeadIs(s: Project, slug: string) {
    s.pending != [] && s.pending[0].slug == slug
  }

  function MoveHead(s: Project, ending: Ending): Project
    requires s.pending != []
  {
    Project(s.pending[1..], s.history + [Finished(s.pending[0], ending)], s.db)
  }

  function Next(s: Project, c: Call): Project {
    match c
    case Add(batch, front) =>
      if Admissible(s.pending, batch) then s.(pending := AddedMany(s.pending, batch, front)) else s
    case WorkerAdd(e, plan, phase, cap, running) =>
      if WorkerAdds(s.pending, s.history, e, plan, phase, cap, running).Accepted? then s.(pending := s.pending + [e]) else s
    case Drop(slug) =>
      var i := IndexOf(s.pending, slug);
      if i == |s.pending| then s
      else s.(pending := Without(s.pending, slug), history := s.history + [Finished(s.pending[i], Removed)])
    case PopOnly(slug, ending) => if HeadIs(s, slug) then MoveHead(s, ending) else s
    case PopPlan(slug, head, events) =>
      if HeadIs(s, slug) && AcceptedSlug(slug)
      then MoveHead(s, Popped).(db := Step(s.db, slug, Create(NewPlan(head, None, [], [], events))).db) else s
    case OnPlan(slug, op) => s.(db := Step(s.db, slug, op).db)
  }

  function Run(s: Project, calls: seq<Call>): Project
    decreases |calls|
  {
    if calls == [] then s else Run(Next(s, calls[0]), calls[1..])
  }

  // ----- the tables run the same way --------------------------------------------------------

  /** What the queue tables and the plan tables stand for together. */
  ghost function State(q: QueueTable, store: PlanStore.PlanStore): Project
    reads q, store
  {
    Project(Pending(q.rows), q.history, store.Now())
  }

  /** One call on the tables is one step of the project. */
  method Do(q: QueueTable, store: PlanStore.PlanStore, c: Call)
    requires q.Valid() && PlanTables.Valid(store.t)
    modifies q, store
    ensures q.Valid() && PlanTables.Valid(store.t)
    ensures State(q, store) == Next(old(State(q, store)), c)
  {
    hide PlanTables.Valid, Pending, Admissible, Step, WorkerAdds;
    match c {
      case Add(batch, front) =>
        var r := q.AddMany(batch, front);
      case WorkerAdd(e, plan, phase, cap, running) =>
        var r := q.AddByWorker(e, plan, phase, cap, running);
      case Drop(slug) =>
        QueuedIff(Pending(q.rows), slug);
        var found := q.RemoveInTxn(slug);
      case PopOnly(slug, ending) =>
        var popped := q.PopHeadInTxn(slug, ending);
      case PopPlan(slug, head, events) =>
        if AcceptedSlug(slug) {
          var popped := q.PopAndCreate(store, slug, head, events);
        }
      case OnPlan(slug, op) =>
        OnPlanStep(q.history, store.Now(), Pending(q.rows), slug, op);
        var r := store.Do(slug, op);
    }
  }

  lemma QueuedIff(es: seq<Entry>, slug: string)
    ensures Queued(es, slug) <==> IndexOf(es, slug) < |es|
    ensures !Queued(es, slug) ==> Without(es, slug) == es
  {
  }

  lemma OnPlanStep(history: seq<Finished>, db: Db, pending: seq<Entry>, slug: string, op: Op)
    ensures Next(Project(pending, history, db), OnPlan(slug, op)) == Project(pending, history, Step(db, slug, op).db)
  {
  }

  lemma RunOneMore(s: Project, calls: seq<Call>, i: nat)
    requires i < |calls|
    ensures Run(s, calls[..i + 1]) == Next(Run(s, calls[..i]), calls[i])
  {
    RunSplit(s, calls[..i], [calls[i]]);
    assert calls[..i + 1] == calls[..i] + [calls[i]];
    assert [calls[i]][1..] == [];
    hide Next;
  }

  lemma {:induction false} RunSplit(s: Project, xs: seq<Call>, ys: seq<Call>)
    ensures Run(s, xs + ys) == Run(Run(s, xs), ys)
    decreases |xs|
  {
    hide Next;
    if xs == [] {
      assert xs + ys == ys;
    } else {
      assert (xs + ys)[1..] == xs[1..] + ys;
      RunSplit(Next(s, xs[0]), xs[1..], ys);
    }
  }

  /** A whole run of calls on the queue and plan tables is the same run of the
      project, so every theorem below is about the tables. */
  method DoAll(q: QueueTable, store: PlanStore.PlanStore, calls: seq<Call>)
    requires q.Valid() && PlanTables.Valid(store.t)
    modifies q, store
    ensures q.Valid() && PlanTables.Valid(store.t)
    ensures State(q, store) == Run(old(State(q, store)), calls)
  {
    hide PlanTables.Valid, State, Next;
    assert calls[..0] == [];
    for i := 0 to |calls|
      invariant q.Valid() && PlanTables.Valid(store.t)
      invariant State(q, store) == Run(old(State(q, store)), calls[..i])
    {
      RunOneMore(old(State(q, store)), calls, i);
      Do(q, store, calls[i]);
    }
    assert calls[..|calls|] == calls;
  }

  /** Operators' entries carry no source tag, a worker's entry carries its own,
      and only the pop that creates a plan records `popped`. */
  predicate WellFormed(c: Call) {
    match c
    case Add(batch, _) => forall i :: 0 <= i < |batch| ==> batch[i].sourcePlan.None? && batch[i].sourcePhase.None?
    case WorkerAdd(e, plan, phase, _, _) => TaggedBy(e, plan, phase)
    case PopOnly(_, ending) => ending == Absorbed || ending == Abandoned
    case _ => true
  }

  predicate AllWellFormed(calls: seq<Call>) {
    forall i :: 0 <= i < |calls| ==> WellFormed(calls[i])
  }

  // ----- pending slugs stay distinct -------------------------------------------------------

  lemma DistinctAppend(xs: seq<Entry>, ys: seq<Entry>)
    requires DistinctSlugs(xs) && DistinctSlugs(ys)
    requires forall j :: 0 <= j < |ys| ==> !Queued(xs, ys[j].slug)
    ensures DistinctSlugs(xs + ys) && DistinctSlugs(ys + xs)
  {
    forall i, j | 0 <= i < |xs| && 0 <= j < |ys|
      ensures xs[i].slug != ys[j].slug
    {
      assert !Queued(xs, ys[j].slug);
    }
  }

  lemma DistinctWithout(es: seq<Entry>, slug: string)
    requires DistinctSlugs(es)
    ensures DistinctSlugs(Without(es, slug))
  {
  }

  lemma NextKeepsDistinct(s: Project, c: Call)
    requires DistinctSlugs(s.pending)
    ensures DistinctSlugs(Next(s, c).pending)
  {
    match c {
      case Add(batch, front) => if Admissible(s.pending, batch) { DistinctAppend(s.pending, batch); }
      case WorkerAdd(e, plan, phase, cap, running) =>
        if WorkerAdds(s.pending, s.history, e, plan, phase, cap, running).Accepted? { DistinctAppend(s.pending, [e]); }
      case Drop(slug) => DistinctWithout(s.pending, slug);
      case _ =>
    }
  }

  /** No slug is ever pending twice. */
  lemma {:induction false} PendingStaysDistinct(s: Project, calls: seq<Call>)
    requires DistinctSlugs(s.pending)
    ensures DistinctSlugs(Run(s, calls).pending)
    decreases |calls|
  {
    if calls != [] {
      NextKeepsDistinct(s, calls[0]);
      PendingStaysDistinct(Next(s, calls[0]), calls[1..]);
    }
  }

  // ----- conservation ------------------------------------------------------------------------

  /** The entries one call put into the queue. */
  function Entered(s: Project, c: Call): seq<Entry> {
    match c
    case Add(batch, _) => if Admissible(s.pending, batch) then batch else []
    case WorkerAdd(e, plan, phase, cap, running) =>
      if WorkerAdds(s.pending, s.history, e, plan, phase, cap, running).Accepted? then [e] else []
    case _ => []
  }

  function EverEntered(s: Project, calls: seq<Call>): seq<Entry>
    decreases |calls|
  {
    if calls == [] then [] else Entered(s, calls[0]) + EverEntered(Next(s, calls[0]), calls[1..])
  }

  function HeldIn(pending: seq<Entry>, history: seq<Finished>): multiset<Entry> {
    multiset(pending) + multiset(Entries(history))
  }

  function Held(s: Project): multiset<Entry> {
    HeldIn(s.pending, s.history)
  }

  lemma EntriesSnoc(history: seq<Finished>, f: Finished)
    ensures Entries(history + [f]) == Entries(history) + [f.entry]
  {
  }

  lemma TakenOut(es: seq<Entry>, i: nat)
    requires i < |es|
    ensures multiset(es) == multiset(es[..i] + es[i + 1..]) + multiset([es[i]])
  {
    assert es == es[..i] + ([es[i]] + es[i + 1..]);
  }

  lemma HeldMoved(es: seq<Entry>, i: nat, history: seq<Finished>, ending: Ending)
    requires i < |es|
    ensures HeldIn(es[..i] + es[i + 1..], history + [Finished(es[i], ending)]) == HeldIn(es, history)
  {
    TakenOut(es, i);
    EntriesSnoc(history, Finished(es[i], ending));
  }

  lemma HeldAdded(es: seq<Entry>, batch: seq<Entry>, front: bool, history: seq<Finished>)
    ensures HeldIn(AddedMany(es, batch, front), history) == HeldIn(es, history) + multiset(batch)
  {
  }

  lemma NextConserves(s: Project, c: Call)
    ensures Held(Next(s, c)) == Held(s) + multiset(Entered(s, c))
  {
    hide Step, Entries, WorkerAdds, Admissible, IndexOf, HeldIn;
    match c {
      case Add(batch, front) => HeldAdded(s.pending, batch, front, s.history);
      case WorkerAdd(e, _, _, _, _) => HeldAdded(s.pending, [e], false, s.history);
      case Drop(slug) =>
        var i := IndexOf(s.pending, slug);
        if i < |s.pending| { HeldMoved(s.pending, i, s.history, Removed); }
      case PopOnly(slug, ending) =>
        if HeadIs(s, slug) { HeadOut(s.pending); HeldMoved(s.pending, 0, s.history, ending); }
      case PopPlan(slug, head, events) =>
        if HeadIs(s, slug) && AcceptedSlug(slug) { HeadOut(s.pending); HeldMoved(s.pending, 0, s.history, Popped); }
      case _ =>
    }
  }

  /** Every entry ever added is in exactly one of pending and history, as many
      times as it was added. */
  lemma {:induction false} EntriesAreConserved(s: Project, calls: seq<Call>)
    ensures Held(Run(s, calls)) == Held(s) + multiset(EverEntered(s, calls))
    decreases |calls|
  {
    if calls != [] {
      NextConserves(s, calls[0]);
      EntriesAreConserved(Next(s, calls[0]), calls[1..]);
    }
  }

  // ----- a slug enters once -------------------------------------------------------------------

  /** A plan of this slug waits, or has been through the queue. */
  predicate Known(s: Project, slug: string) {
    Waiting(s.pending, slug) || Done(s.history, slug)
  }

  lemma KnownMoved(es: seq<Entry>, i: nat, history: seq<Finished>, ending: Ending, slug: string)
    requires i < |es| && (Waiting(es, slug) || Done(history, slug))
    ensures Waiting(es[..i] + es[i + 1..], slug) || Done(history + [Finished(es[i], ending)], slug)
  {
    var later := history + [Finished(es[i], ending)];
    if Done(history, slug) {
      var h :| 0 <= h < |history| && history[h].entry.slug == slug;
      assert later[h].entry.slug == slug;
    } else {
      var j :| 0 <= j < |es| && es[j].slug == slug;
      if j == i {
        assert later[|history|].entry.slug == slug;
      } else {
        assert (es[..i] + es[i + 1..])[if j < i then j else j - 1].slug == slug;
      }
    }
  }

  lemma KnownAdded(es: seq<Entry>, batch: seq<Entry>, front: bool, slug: string)
    requires Waiting(es, slug) || Waiting(batch, slug)
    ensures Waiting(AddedMany(es, batch, front), slug)
  {
    var all := AddedMany(es, batch, front);
    if Waiting(es, slug) {
      var i :| 0 <= i < |es| && es[i].slug == slug;
      assert all[if front then |batch| + i else i].slug == slug;
    } else {
      var i :| 0 <= i < |batch| && batch[i].slug == slug;
      assert all[if front then i else |es| + i].slug == slug;
    }
  }

  /** What is known stays known, and what enters is known from then on. */
  lemma NextKnows(s: Project, c: Call, slug: string)
    requires Known(s, slug) || Waiting(Entered(s, c), slug)
    ensures Known(Next(s, c), slug)
  {
    hide Step, WorkerAdds, Admissible, IndexOf, Waiting, Done;
    match c {
      case Add(batch, front) =>
        NoneWaits(slug);
        if Admissible(s.pending, batch) && (Waiting(s.pending, slug) || Waiting(batch, slug)) {
          KnownAdded(s.pending, batch, front, slug);
        }
      case WorkerAdd(e, _, _, _, _) =>
        NoneWaits(slug);
        if Waiting(s.pending, slug) || Waiting([e], slug) { KnownAdded(s.pending, [e], false, slug); }
      case Drop(dropped) =>
        NoneWaits(slug);
        var i := IndexOf(s.pending, dropped);
        if i < |s.pending| { KnownMoved(s.pending, i, s.history, Removed, slug); }
      case PopOnly(popped, ending) =>
        NoneWaits(slug);
        if HeadIs(s, popped) { HeadOut(s.pending); KnownMoved(s.pending, 0, s.history, ending, slug); }
      case PopPlan(popped, head, events) =>
        NoneWaits(slug);
        if HeadIs(s, popped) && AcceptedSlug(popped) { HeadOut(s.pending); KnownMoved(s.pending, 0, s.history, Popped, slug); }
      case OnPlan(_, _) => NoneWaits(slug);
    }
  }

  lemma NoneWaits(slug: string)
    ensures !Waiting([], slug)
  {
  }

  /** In any run whose adds are all workers' own, no slug enters the queue twice,
      and none that was waiting or had been through it at the start enters. */
  lemma {:induction false} WorkersNeverRequeue(s: Project, calls: seq<Call>)
    requires forall i :: 0 <= i < |calls| ==> !calls[i].Add?
    ensures forall i :: 0 <= i < |EverEntered(s, calls)| ==> !Known(s, EverEntered(s, calls)[i].slug)
    ensures DistinctSlugs(EverEntered(s, calls))
    decreases |calls|
  {
    if calls != [] {
      var first, later := Entered(s, calls[0]), EverEntered(Next(s, calls[0]), calls[1..]);
      WorkersNeverRequeue(Next(s, calls[0]), calls[1..]);
      EntersUnknown(s, calls[0]);
      hide Known, Entered, Next;
      forall i | 0 <= i < |later|
        ensures !Known(s, later[i].slug) && !Waiting(first, later[i].slug)
      {
        if Known(s, later[i].slug) || Waiting(first, later[i].slug) { NextKnows(s, calls[0], later[i].slug); }
      }
      forall i, j | 0 <= i < |first| && 0 <= j < |later|
        ensures first[i].slug != later[j].slug
      {
        assert !Waiting(first, later[j].slug);
      }
    }
  }

  lemma EntersUnknown(s: Project, c: Call)
    requires !c.Add?
    ensures |Entered(s, c)| <= 1 && forall i :: 0 <= i < |Entered(s, c)| ==> !Known(s, Entered(s, c)[i].slug)
  {
    if c.WorkerAdd? {
      WorkerAddsIff(s.pending, s.history, c.entry, c.plan, c.phase, c.cap, c.running);
    }
    hide WorkerAdds, GotIn, Waiting, Done;
  }

  /** Everything waiting has an acceptable slug, whoever put it there. */
  lemma {:induction false} WaitingAreAcceptable(s: Project, calls: seq<Call>)
    requires forall i :: 0 <= i < |s.pending| ==> AcceptedSlug(s.pending[i].slug)
    ensures forall i :: 0 <= i < |Run(s, calls).pending| ==> AcceptedSlug(Run(s, calls).pending[i].slug)
    decreases |calls|
  {
    if calls != [] {
      if calls[0].WorkerAdd? {
        var c := calls[0];
        WorkerAddsIff(s.pending, s.history, c.entry, c.plan, c.phase, c.cap, c.running);
      }
      hide AcceptedSlug, Step, WorkerAdds;
      WaitingAreAcceptable(Next(s, calls[0]), calls[1..]);
    }
  }

  // ----- the worker cap -----------------------------------------------------------------------

  function Added(s: Project, plan: string, phase: string): nat {
    Tagged(s.pending + Entries(s.history), plan, phase)
  }

  /** A source phase is always added under this cap. */
  predicate CappedAt(c: Call, plan: string, phase: string, cap: nat) {
    c.WorkerAdd? && c.plan == plan && c.phase == phase ==> c.cap <= cap
  }

  lemma {:induction false} TaggedConcat(xs: seq<Entry>, ys: seq<Entry>, plan: string, phase: string)
    ensures Tagged(xs + ys, plan, phase) == Tagged(xs, plan, phase) + Tagged(ys, plan, phase)
    decreases |ys|
  {
    if ys == [] {
      assert xs + ys == xs;
    } else {
      assert (xs + ys)[..|xs + ys| - 1] == xs + ys[..|ys| - 1];
      TaggedConcat(xs, ys[..|ys| - 1], plan, phase);
    }
  }

  lemma {:induction false} UntaggedBatch(batch: seq<Entry>, plan: string, phase: string)
    requires forall i :: 0 <= i < |batch| ==> !TaggedBy(batch[i], plan, phase)
    ensures Tagged(batch, plan, phase) == 0
  {
    if batch != [] {
      UntaggedBatch(batch[..|batch| - 1], plan, phase);
    }
  }

  lemma TaggedMoved(es: seq<Entry>, i: nat, history: seq<Finished>, ending: Ending, plan: string, phase: string)
    requires i < |es|
    ensures Tagged((es[..i] + es[i + 1..]) + Entries(history + [Finished(es[i], ending)]), plan, phase)
         == Tagged(es + Entries(history), plan, phase)
  {
    var one := [es[i]];
    EntriesSnoc(history, Finished(es[i], ending));
    TaggedConcat(es[..i] + es[i + 1..], Entries(history) + one, plan, phase);
    TaggedConcat(es[..i], es[i + 1..], plan, phase);
    TaggedConcat(Entries(history), one, plan, phase);
    TaggedConcat(es, Entries(history), plan, phase);
    assert es == es[..i] + (one + es[i + 1..]);
    TaggedConcat(es[..i], one + es[i + 1..], plan, phase);
    TaggedConcat(one, es[i + 1..], plan, phase);
  }

  lemma UntaggedOperators(batch: seq<Entry>, plan: string, phase: string)
    requires WellFormed(Add(batch, true))
    ensures Tagged(batch, plan, phase) == 0
  {
    UntaggedBatch(batch, plan, phase);
  }

  /** An accepted worker's entry was below the cap of its own source phase. */
  lemma WorkerTag(s: Project, c: Call, plan: string, phase: string, cap: nat)
    requires c.WorkerAdd? && WellFormed(c) && CappedAt(c, plan, phase, cap)
    requires WorkerAdds(s.pending, s.history, c.entry, c.plan, c.phase, c.cap, c.running).Accepted?
    ensures Tagged([c.entry], plan, phase) == if c.plan == plan && c.phase == phase then 1 else 0
    ensures c.plan == plan && c.phase == phase ==> Added(s, plan, phase) < cap
  {
    assert [c.entry][..0] == [];
  }

  lemma NextKeepsCap(s: Project, c: Call, plan: string, phase: string, cap: nat)
    requires WellFormed(c) && CappedAt(c, plan, phase, cap) && Added(s, plan, phase) <= cap
    ensures Added(Next(s, c), plan, phase) <= cap
  {
    TaggedConcat(s.pending, Entries(s.history), plan, phase);
    hide Step, Entries, WorkerAdds, Admissible, IndexOf, TaggedBy;
    match c {
      case Add(batch, front) =>
        if Admissible(s.pending, batch) {
          UntaggedOperators(batch, plan, phase);
          AddedTags(s, AddedMany(s.pending, batch, front), batch, front, plan, phase);
        }
      case WorkerAdd(e, p, f, k, running) =>
        if WorkerAdds(s.pending, s.history, e, p, f, k, running).Accepted? {
          AddedTags(s, s.pending + [e], [e], false, plan, phase);
          WorkerTag(s, c, plan, phase, cap);
        }
      case Drop(slug) =>
        var i := IndexOf(s.pending, slug);
        if i < |s.pending| { TaggedMoved(s.pending, i, s.history, Removed, plan, phase); }
      case PopOnly(slug, ending) =>
        if HeadIs(s, slug) { HeadOut(s.pending); TaggedMoved(s.pending, 0, s.history, ending, plan, phase); }
      case PopPlan(slug, head, events) =>
        if HeadIs(s, slug) && AcceptedSlug(slug) {
          HeadOut(s.pending);
          TaggedMoved(s.pending, 0, s.history, Popped, plan, phase);
        }
      case _ =>
    }
  }

  lemma HeadOut(es: seq<Entry>)
    requires es != []
    ensures es[..0] + es[1..] == es[1..]
  {
  }

  lemma AddedTags(s: Project, es: seq<Entry>, batch: seq<Entry>, front: bool, plan: string, phase: string)
    requires es == AddedMany(s.pending, batch, front)
    ensures Tagged(es + Entries(s.history), plan, phase) == Added(s, plan, phase) + Tagged(batch, plan, phase)
  {
    TaggedConcat(es, Entries(s.history), plan, phase);
    TaggedConcat(s.pending, Entries(s.history), plan, phase);
    if front {
      TaggedConcat(batch, s.pending, plan, phase);
    } else {
      TaggedConcat(s.pending, batch, plan, phase);
    }
  }

  /** However many workers race and whatever leaves the queue in between, no
      source phase ever gets more entries in than its cap. */
  lemma {:induction false} CapHolds(s: Project, calls: seq<Call>, plan: string, phase: string, cap: nat)
    requires AllWellFormed(calls) && forall i :: 0 <= i < |calls| ==> CappedAt(calls[i], plan, phase, cap)
    requires Added(s, plan, phase) <= cap
    ensures Added(Run(s, calls), plan, phase) <= cap
    decreases |calls|
  {
    if calls != [] {
      NextKeepsCap(s, calls[0], plan, phase, cap);
      CapHolds(Next(s, calls[0]), calls[1..], plan, phase, cap);
    }
  }

  // ----- a popped entry has its plan ------------------------------------------------------------

  predicate PoppedHavePlans(s: Project) {
    forall i :: 0 <= i < |s.history| && s.history[i].ending == Popped ==> s.history[i].entry.slug in s.db.plans
  }

  lemma PlansStay(db: Db, slug: string, op: Op)
    ensures db.plans.Keys <= Step(db, slug, op).db.plans.Keys
  {
    hide PlanEffect, CreateEffect;
  }

  lemma NextKeepsPlans(s: Project, c: Call)
    requires WellFormed(c) && PoppedHavePlans(s)
    ensures PoppedHavePlans(Next(s, c))
  {
    match c {
      case PopPlan(slug, head, events) =>
        PlansStay(s.db, slug, Create(NewPlan(head, None, [], [], events)));
        if HeadIs(s, slug) && AcceptedSlug(slug) {
          BarePlanCreated(s.db, slug, head, events);
          hide *;
        }
      case OnPlan(slug, op) => PlansStay(s.db, slug, op); hide Step;
      case _ =>
    }
  }

  /** At every point of every run - so at every crash point, since each call is
      one transaction - a `popped` history row has its plan. */
  lemma {:induction false} EveryPopHasItsPlan(s: Project, calls: seq<Call>)
    requires AllWellFormed(calls) && PoppedHavePlans(s)
    ensures PoppedHavePlans(Run(s, calls))
    decreases |calls|
  {
    if calls != [] {
      NextKeepsPlans(s, calls[0]);
      EveryPopHasItsPlan(Next(s, calls[0]), calls[1..]);
    }
  }
}
