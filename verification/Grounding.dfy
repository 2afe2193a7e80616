/** What a declaration that declares nothing costs in practice: exactly which
    ungrounded ticks some run of the store can slip a changed fact past, and
    which ticks choose what to read by more than what they read. */
module Grounding {
  import opened Values
  import opened PlanDoc
  import opened PlanOps
  import opened EventLog
  import opened Ticks
  import opened Blockers

  /** A run after which the tick's preconditions pass on facts it did not see. */
  ghost predicate Slips(db: Db, calls: seq<Call>, slug: string, n: Names)
    requires slug in db.plans
  {
    && FairRun(calls) && slug in Run(db, calls).plans
    && Preconditions(Run(db, calls).plans[slug], PreFor(db.plans[slug], n))
    && FactsAt(Run(db, calls).plans[slug], n) != FactsAt(db.plans[slug], n)
  }

  /** The tick rests on a null status, or on a question nobody has asked yet
      without resting on a log that holds anything. */
  ghost predicate Slippery(p: Plan, n: Names) {
    || (n.status && Get(p.head, Status) == Null)
    || ((!n.log || p.events == []) && exists m: nat :: |p.blockers| <= m && IdOf(m) in n.blockers)
  }

  // ----- nothing else slips ------------------------------------------------------------------------

  lemma SameCount(p: Plan, last: int, op: Op)
    requires PlanEffect(p, last, op).Commit? && Fair(op) && Numbered(Views(p.blockers)) && !op.AddBlocker?
    ensures |PlanEffect(p, last, op).plan.blockers| == |p.blockers|
  {
    hide PlanEffect, Views, FairTick, Find, ViewOf;
    var q := PlanEffect(p, last, op).plan;
    ViewAt(p.blockers, 0);
    ViewAt(q.blockers, 0);
    if op.AnswerBlocker? {
      AnsweredView(p, last, op);
    } else if op.StampBlockerMetadata? {
      StampedView(p, last, op);
    } else if op.ApplyTick? {
      TickViews(p, last, op, 0);
    } else {
      OthersKeepBlockers(p, last, op);
    }
  }

  /** Every new question is a new event. */
  predicate LogsQuestions(p: Plan, q: Plan) {
    |History(q)| - |History(p)| >= |q.blockers| - |p.blockers| >= 0
  }

  lemma EffectLogsQuestions(p: Plan, last: int, op: Op)
    requires PlanEffect(p, last, op).Commit? && Fair(op) && Numbered(Views(p.blockers))
    ensures LogsQuestions(p, PlanEffect(p, last, op).plan)
  {
    HistoryGrows(p, last, op);
    if op.AddBlocker? {
      AddedRow(p, last, op);
    } else {
      SameCount(p, last, op);
    }
    hide PlanEffect, Views, Fair;
  }

  lemma StepLogsQuestions(db: Db, c: Call, slug: string)
    requires AllTold(db) && Fair(c.op) && slug in db.plans
    ensures slug in After(db, c).plans && LogsQuestions(db.plans[slug], After(db, c).plans[slug])
  {
    if Commits(db, c) && c.slug == slug && !c.op.Create? {
      assert Told(db.plans[slug]);
      EffectLogsQuestions(Bumped(db.plans[slug]), db.last, c.op);
      BumpedSameLog(db.plans[slug]);
    }
    hide PlanEffect, CreateEffect, Told;
  }

  lemma {:induction false} RunLogsQuestions(db: Db, calls: seq<Call>, slug: string)
    requires AllTold(db) && FairRun(calls) && slug in db.plans
    ensures slug in Run(db, calls).plans && LogsQuestions(db.plans[slug], Run(db, calls).plans[slug])
    decreases |calls|
  {
    if calls != [] {
      StepLogsQuestions(db, calls[0], slug);
      StepKeepsTold(db, calls[0]);
      hide AllTold, Fair, History;
      RunLogsQuestions(After(db, calls[0]), calls[1..], slug);
    }
  }

  /** A log that holds something and is still the hot log has had no question
      logged after it. */
  lemma SameLogSameHistory(p: Plan, q: Plan, last: int)
    requires Follows(p, q) && Logged(q, last) && q.events == p.events != []
    ensures |History(q)| == |History(p)|
  {
    var m, n := |History(p)| - 1, |History(q)| - 1;
    assert History(q)[m] == History(p)[m] == p.events[|p.events| - 1] == History(q)[n];
  }

  /** A question named and not there to be seen is not there later either. */
  lemma StaysUnasked(p: Plan, q: Plan, id: string)
    requires Numbered(Views(p.blockers)) && Numbered(Views(q.blockers)) && |p.blockers| <= |q.blockers|
    requires BlockerState(p, id).None? && forall m: nat :: |p.blockers| <= m < |q.blockers| ==> IdOf(m) != id
    ensures BlockerState(q, id).None?
  {
    var j := Find(q.blockers, Str(id));
    if j < |q.blockers| {
      ViewAt(q.blockers, j);
      assert Views(q.blockers)[j].id == Str(IdOf(j));
      FindNumbered(p.blockers, j);
    }
  }

  lemma HeldFactsAreSame(p: Plan, q: Plan, n: Names, last: int, last': int)
    requires Numbered(Views(p.blockers)) && Numbered(Views(q.blockers)) && LogsQuestions(p, q)
    requires Follows(p, q) && Logged(p, last) && Logged(q, last')
    requires Preconditions(q, PreFor(p, n)) && !Slippery(p, n)
    ensures FactsAt(q, n) == FactsAt(p, n)
  {
    if n.log {
      SameHighWaterSameLog(p, q, last, last');
    }
    if n.log && p.events != [] {
      SameLogSameHistory(p, q, last');
    }
    forall id | id in n.blockers
      ensures BlockerState(q, id) == BlockerState(p, id)
    {
      if BlockerState(p, id).None? {
        StaysUnasked(p, q, id);
      } else {
        assert id in PreFor(p, n).expectBlockerState;
      }
    }
    hide BlockerState, History, Logged, Follows, Numbered, Views, Get, MaxId, Slippery;
    FieldsHoldIffUnchanged(p, q, n.fields);
    assert BlockerFacts(q, n.blockers) == BlockerFacts(p, n.blockers);
    assert FactsAt(q, n).blockers == BlockerFacts(q, n.blockers) && FactsAt(p, n).blockers == BlockerFacts(p, n.blockers);
  }

  lemma OnlySlipperySlips(db: Db, calls: seq<Call>, slug: string, n: Names)
    requires AllTold(db) && WellLogged(db) && slug in db.plans && Slips(db, calls, slug, n)
    ensures Slippery(db.plans[slug], n)
  {
    var p, q := db.plans[slug], Run(db, calls).plans[slug];
    RunLogsQuestions(db, calls, slug);
    EachAnswerIsConsumedOnce(db, calls);
    RunFollows(db, calls);
    assert Told(p) && Told(q);
    hide Run, Told, AllTold, FairRun, WellLogged, History;
    if !Slippery(p, n) {
      HeldFactsAreSame(p, q, n, db.last, Run(db, calls).last);
    }
  }

  // ----- and all of it does ---------------------------------------------------------------------------

  lemma {:induction false} FoundInPrefix(docs: seq<Doc>, more: seq<Doc>, id: Json)
    requires Find(docs, id) < |docs|
    ensures Find(docs + more, id) == Find(docs, id)
  {
    var i := Find(docs, id);
    assert forall j :: 0 <= j < |docs| ==> (docs + more)[j] == docs[j];
    assert Find(docs + more, id) <= i;
  }

  /** `q` is `p` with more questions on record, and perhaps another log. */
  predicate OnlyAsked(p: Plan, q: Plan) {
    q.head == p.head && q.claim == p.claim && p.blockers <= q.blockers
  }

  lemma SeenStatesStay(p: Plan, q: Plan, id: string)
    requires p.blockers <= q.blockers && BlockerState(p, id).Some?
    ensures BlockerState(q, id) == BlockerState(p, id)
  {
    var more := q.blockers[|p.blockers|..];
    assert q.blockers == p.blockers + more;
    FoundInPrefix(p.blockers, more, Str(id));
  }

  lemma SeenPass(p: Plan, q: Plan, n: Names)
    requires p.blockers <= q.blockers
    ensures var seen := PreFor(p, n).expectBlockerState;
            forall id :: id in seen ==> BlockerState(q, id) == Some(seen[id])
  {
    forall id | id in n.blockers && BlockerState(p, id).Some?
      ensures BlockerState(q, id) == BlockerState(p, id)
    {
      SeenStatesStay(p, q, id);
    }
    hide BlockerState, Get, MaxId, ClaimIdentity;
  }

  lemma UnaskedShows(p: Plan, q: Plan, n: Names, m: nat)
    requires |p.blockers| <= m < |q.blockers| && Numbered(Views(p.blockers)) && Numbered(Views(q.blockers))
    requires IdOf(m) in n.blockers
    ensures FactsAt(q, n) != FactsAt(p, n)
  {
    NewStateShows(p, q, m);
    hide Numbered, Views, Find, IdOf, BlockerState, Get, MaxId, ClaimIdentity;
    assert FactsAt(q, n).blockers[IdOf(m)] != FactsAt(p, n).blockers[IdOf(m)];
  }

  lemma AskedPasses(p: Plan, q: Plan, n: Names, m: nat)
    requires OnlyAsked(p, q) && |p.blockers| <= m < |q.blockers| && Numbered(Views(p.blockers)) && Numbered(Views(q.blockers))
    requires IdOf(m) in n.blockers && (n.log ==> MaxId(q.events) == MaxId(p.events)) && (n.fields != {} ==> p.claim.Some?)
    ensures Preconditions(q, PreFor(p, n)) && FactsAt(q, n) != FactsAt(p, n)
  {
    UnaskedShows(p, q, n, m);
    SeenPass(p, q, n);
    hide BlockerState, Find, IdOf, Numbered, Views, FactsAt, MaxId;
  }

  lemma NewStateShows(p: Plan, q: Plan, m: nat)
    requires |p.blockers| <= m < |q.blockers| && Numbered(Views(p.blockers)) && Numbered(Views(q.blockers))
    ensures BlockerState(p, IdOf(m)).None? && BlockerState(q, IdOf(m)).Some?
  {
    FindNumbered(p.blockers, m);
    FindNumbered(q.blockers, m);
  }

  function Ask(slug: string): Call {
    Call(slug, AddBlocker("", "", [], "", "", None, None, 0))
  }

  lemma AskOnce(db: Db, slug: string)
    requires AllTold(db) && slug in db.plans && AcceptedSlug(slug)
    ensures Fair(Ask(slug).op) && AllTold(After(db, Ask(slug))) && slug in After(db, Ask(slug)).plans
    ensures var p, q := db.plans[slug], After(db, Ask(slug)).plans[slug];
            OnlyAsked(p, q) && |q.blockers| == |p.blockers| + 1
  {
    var p, op := Bumped(db.plans[slug]), Ask(slug).op;
    assert Told(p);
    assert Fair(op);
    StepKeepsTold(db, Ask(slug));
    BlockerIdNeverCollides(p, db.last, op);
    AddedRow(p, db.last, op);
    PlainAskKeeps(p, db.last, op);
    hide PlanEffect, AllTold, Told, Fair, AcceptedSlug;
  }

  lemma PlainAskKeeps(p: Plan, last: int, op: Op)
    requires op.AddBlocker? && op.releaseToken.None? && op.releasePhase.None? && PlanEffect(p, last, op).Commit?
    ensures PlanEffect(p, last, op).plan.head == p.head && PlanEffect(p, last, op).plan.claim == p.claim
  {
    hide FreshBlocker, NormalBlocker, Stamp, MintId, BlockedEvent, Collides;
  }

  lemma {:induction false} AskUpTo(db: Db, slug: string, m: nat) returns (calls: seq<Call>)
    requires AllTold(db) && slug in db.plans && AcceptedSlug(slug)
    ensures FairRun(calls) && AllTold(Run(db, calls)) && slug in Run(db, calls).plans
    ensures var p, q := db.plans[slug], Run(db, calls).plans[slug];
            OnlyAsked(p, q) && m < |q.blockers|
    decreases m + 1 - |db.plans[slug].blockers|
  {
    if m < |db.plans[slug].blockers| {
      calls := [];
    } else {
      AskOnce(db, slug);
      hide AllTold, After, Fair, AcceptedSlug;
      var more := AskUpTo(After(db, Ask(slug)), slug, m);
      calls := [Ask(slug)] + more;
      assert calls[1..] == more;
    }
  }

  lemma ArchiveKeepsAsked(db: Db, slug: string)
    requires slug in db.plans && AcceptedSlug(slug)
    ensures var c := Call(slug, ArchiveEvents);
            && Fair(c.op) && slug in After(db, c).plans
            && var p, q := db.plans[slug], After(db, c).plans[slug];
               OnlyAsked(p, q) && q.blockers == p.blockers && q.events == []
  {
    assert Fair(ArchiveEvents);
  }

  lemma UnaskedSlips(db: Db, slug: string, n: Names, m: nat) returns (calls: seq<Call>)
    requires AllTold(db) && slug in db.plans && AcceptedSlug(slug)
    requires var p := db.plans[slug];
             && (n.fields != {} ==> p.claim.Some?) && (!n.log || p.events == [])
             && |p.blockers| <= m && IdOf(m) in n.blockers
    ensures Slips(db, calls, slug, n)
  {
    var asks := AskUpTo(db, slug, m);
    var asked, archive := Run(db, asks), Call(slug, ArchiveEvents);
    assert Told(db.plans[slug]) && Told(asked.plans[slug]);
    hide After, AllTold, Told, AcceptedSlug, Fair, FactsAt, PreFor, Preconditions;
    if n.log {
      ArchiveKeepsAsked(asked, slug);
      RunSplit(db, asks, [archive]);
      assert [archive][1..] == [] && Run(asked, [archive]) == Run(After(asked, archive), []);
      calls := asks + [archive];
      AskedPasses(db.plans[slug], After(asked, archive).plans[slug], n, m);
    } else {
      calls := asks;
      AskedPasses(db.plans[slug], asked.plans[slug], n, m);
    }
  }

  lemma NullStatusSlips(db: Db, slug: string, n: Names) returns (calls: seq<Call>)
    requires slug in db.plans && AcceptedSlug(slug)
    requires var p := db.plans[slug];
             (n.fields != {} ==> p.claim.Some?) && n.status && Get(p.head, Status) == Null
    ensures Slips(db, calls, slug, n)
  {
    var c := Call(slug, SetStatus("running", [], None, None));
    calls := [c];
    assert Fair(c.op) && calls[1..] == [] && Run(db, calls) == Run(After(db, c), []);
    var p, q := db.plans[slug], After(db, c).plans[slug];
    assert q == Bumped(p).(head := p.head[Status := Str("running")], events := p.events + []);
    assert p.events + [] == p.events;
    SameBlockerStates(p, q, n);
    assert forall id :: id in n.blockers ==> BlockerState(q, id) == BlockerState(p, id);
    assert FactsAt(q, n).status != FactsAt(p, n).status;
    hide After, BlockerState;
  }

  /** In the life of a plan, some run can slip a fact the tick rested on past
      its preconditions if and only if the tick rests on a null status, or on a
      question not yet asked without resting on a log that holds anything. */
  lemma SlipsIff(db: Db, slug: string, n: Names)
    requires AllTold(db) && WellLogged(db) && slug in db.plans && AcceptedSlug(slug)
    requires n.fields != {} ==> db.plans[slug].claim.Some?
    ensures (exists calls :: Slips(db, calls, slug, n)) <==> Slippery(db.plans[slug], n)
  {
    var p := db.plans[slug];
    if calls :| Slips(db, calls, slug, n) {
      OnlySlipperySlips(db, calls, slug, n);
    }
    if n.status && Get(p.head, Status) == Null {
      var calls := NullStatusSlips(db, slug, n);
    } else if Slippery(p, n) {
      var m: nat :| |p.blockers| <= m && IdOf(m) in n.blockers;
      var calls := UnaskedSlips(db, slug, n, m);
    }
  }

  // ----- a choice that looks at more than it declares -----------------------------------------------------

  /** What the consuming tick declares: the blockers it saw ready, and the status. */
  function ConsumingChoice(p: Plan): Names {
    Names(false, false, {}, set id | id in ReadyNames(p.blockers), true)
  }

  /** It scans blockers it does not declare, so an answer in between would make
      it choose again; as a tick with the names it first chose it is serialisable
      like any other. */
  lemma ConsumingChoiceIsNotSelfReading(n: Names)
    ensures !SelfReading(ConsumingChoice) && SelfReading(_ => n)
  {
    var open: Doc := map[Id := Str(IdOf(0)), Answer := Null];
    var answered: Doc := map[Id := Str(IdOf(0)), Answer := Str("yes")];
    var p := Plan(0, map[], None, [open], [], [], []);
    var q := p.(blockers := [answered]);
    assert ReadyNames([open][..0]) == [] && ReadyNames([answered][..0]) == [];
    assert ReadyNames(p.blockers) == [] && ReadyNames(q.blockers) == [IdOf(0)];
    assert IdOf(0) in ConsumingChoice(q).blockers && IdOf(0) !in ConsumingChoice(p).blockers;
    assert FactsAt(q, ConsumingChoice(p)) == FactsAt(p, ConsumingChoice(p));
  }
}
