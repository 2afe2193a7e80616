/** When is a bare digit ambiguous? The stamps the reply router compares are
    read off each plan's hot log; here they are tied, over whole runs, to the
    moments the questions were asked. */
module AskTimes {
  import opened Values
  import opened PlanDoc
  import opened PlanOps
  import opened EventLog
  import opened Blockers
  import opened Replies
  import Observed

  // ----- what the callers keep to ----------------------------------------------------------

  predicate NoneBlocked(evs: seq<NewEvent>) {
    forall i :: 0 <= i < |evs| ==> !evs[i].kind.PhaseBlocked?
  }

  /** Only asking logs a block event. */
  predicate OnlyAsksBlock(op: Op) {
    NoneBlocked(if op.ApplyTick? then op.delta.events else CallerEvents(op))
  }

  ghost predicate AskRun(calls: seq<Call>) {
    forall i :: 0 <= i < |calls| ==> Fair(calls[i].op) && OnlyAsksBlock(calls[i].op)
  }

  // ----- the reference: when a question was asked --------------------------------------------

  /** Is this the call that asks question `k` of the plan? */
  predicate AsksAt(db: Db, c: Call, slug: string, k: nat) {
    c.slug == slug && c.op.AddBlocker? && Commits(db, c) && |db.plans[slug].blockers| == k
  }

  predicate Archives(c: Call, slug: string) {
    c.slug == slug && c.op.ArchiveEvents? && AcceptedSlug(slug)
  }

  /** What is known after one more call, `s` being known before it. */
  function AskedNext(db: Db, c: Call, slug: string, k: nat, s: Option<int>): Option<int> {
    if Archives(c, slug) then None else if AsksAt(db, c, slug, k) then Some(c.op.ts) else s
  }

  /** The second question `k` of the plan was asked, forgotten when the plan's
      log is archived; `s` is what is known so far. */
  function AskedSince(db: Db, calls: seq<Call>, slug: string, k: nat, s: Option<int>): Option<int>
    decreases |calls|
  {
    if calls == [] then s
    else AskedSince(After(db, calls[0]), calls[1..], slug, k, AskedNext(db, calls[0], slug, k, s))
  }

  // ----- the stamp follows the question --------------------------------------------------------

  function StampOf(db: Db, slug: string, k: nat): Option<int> {
    if slug in db.plans then LastBlocked(db.plans[slug].events, Str(IdOf(k))) else None
  }

  lemma {:induction false} NoStampFrom(last: int, evs: seq<NewEvent>, id: Json)
    requires NoneBlocked(evs)
    ensures LastBlocked(Stamp(last, evs), id) == None
  {
    if evs != [] {
      var n := |evs| - 1;
      assert Stamp(last, evs)[..n] == Stamp(last, evs[..n]);
      NoStampFrom(last, evs[..n], id);
    }
  }

  lemma OthersAskNothing(p: Plan, op: Op)
    requires OnlyAsksBlock(op) && !op.AddBlocker?
    ensures NoneBlocked(EventsOf(p, op))
  {
    hide MintId, Find, AsObject, StampedSha, LeaseBase, ResolveAnswer;
  }

  lemma AskStamps(last: int, n: nat, k: nat, ts: int, phase: string, question: string)
    ensures LastBlocked(Stamp(last, [BlockedEvent(ts, phase, MintId("q-", n + 1), question)]), Str(IdOf(k)))
         == if n == k then Some(ts) else None
  {
    var e := BlockedEvent(ts, phase, MintId("q-", n + 1), question);
    MintedIsNext(n);
    if IdOf(n) == IdOf(k) {
      IdsDiffer(n, k);
    }
    hide IdOf, MintId;
    var evs := Stamp(last, [e]);
    assert evs == [StampOne(last + 1, e)] && evs[..0] == [];
    assert Get(PayloadOf(e), BlockerId) == Get(e.payload, BlockerId);
  }

  /** How one committed call moves the stamp of one question. */
  lemma EffectStamp(p: Plan, last: int, op: Op, k: nat)
    requires PlanEffect(p, last, op).Commit? && OnlyAsksBlock(op)
    ensures var stamp := LastBlocked(PlanEffect(p, last, op).plan.events, Str(IdOf(k)));
            stamp == if op.ArchiveEvents? then None
                     else if op.AddBlocker? && |p.blockers| == k then Some(op.ts)
                     else LastBlocked(p.events, Str(IdOf(k)))
  {
    EffectLogs(p, last, op);
    if !op.ArchiveEvents? {
      var evs := EventsOf(p, op);
      if op.AddBlocker? {
        AskStamps(last, |p.blockers|, k, op.ts, op.phase, op.question);
      } else {
        OthersAskNothing(p, op);
        NoStampFrom(last, evs, Str(IdOf(k)));
      }
      hide PlanEffect, IdOf, MintId, Stamp;
      LastBlockedConcat(p.events, Stamp(last, evs), Str(IdOf(k)));
    }
  }

  lemma CreatedStamp(last: int, doc: NewPlan, id: Json)
    requires NoneBlocked(doc.events) && CreateEffect(last, doc).Commit?
    ensures LastBlocked(CreateEffect(last, doc).plan.events, id) == None
  {
    assert [] + Stamp(last, doc.events) == Stamp(last, doc.events);
    NoStampFrom(last, doc.events, id);
    hide Stamp, NormalHead, NormalClaim, InsertBlockers, InsertTasks, LastBlocked;
  }

  lemma StepStamp(db: Db, c: Call, slug: string, k: nat)
    requires OnlyAsksBlock(c.op)
    ensures StampOf(After(db, c), slug, k) == AskedNext(db, c, slug, k, StampOf(db, slug, k))
  {
    if c.slug == slug && Commits(db, c) {
      if c.op.Create? {
        CreatedStamp(db.last, c.op.doc, Str(IdOf(k)));
        hide IdOf, LastBlocked, CreateEffect, AcceptedSlug;
      } else {
        EffectStamp(Bumped(db.plans[slug]), db.last, c.op, k);
        hide PlanEffect, IdOf, LastBlocked, AcceptedSlug;
      }
    }
  }

  /** Over every run, the stamp the router reads for a question is the second it
      was asked, unless the plan has been archived since. */
  lemma {:induction false} StampIsAskTime(db: Db, calls: seq<Call>, slug: string, k: nat)
    requires AskRun(calls)
    ensures StampOf(Run(db, calls), slug, k) == AskedSince(db, calls, slug, k, StampOf(db, slug, k))
    decreases |calls|
  {
    if calls != [] {
      StepStamp(db, calls[0], slug, k);
      hide StampOf, AskedNext, Fair, OnlyAsksBlock;
      StampIsAskTime(After(db, calls[0]), calls[1..], slug, k);
    }
  }

  // ----- and it is the time the blocker's own row shows -------------------------------------------

  /** A stamp belongs to a blocker that is there, and is the time on its row. */
  ghost predicate Dated(db: Db) {
    forall s, k: nat :: s in db.plans && StampOf(db, s, k).Some? ==>
      k < |db.plans[s].blockers| && Get(db.plans[s].blockers[k], AskedAt) == Num(StampOf(db, s, k).value)
  }

  lemma AskedRow(db: Db, c: Call, k: nat)
    requires AsksAt(db, c, c.slug, k)
    ensures c.slug in After(db, c).plans
    ensures var bs := After(db, c).plans[c.slug].blockers;
            |bs| == k + 1 && Get(bs[k], AskedAt) == Num(c.op.ts)
  {
    var p := Bumped(db.plans[c.slug]);
    AddedView(p, db.last, c.op);
    ViewAt(PlanEffect(p, db.last, c.op).plan.blockers, k);
    ViewAt(p.blockers, 0);
    hide PlanEffect, Views;
  }

  /** A call leaves the plans it is not for alone, and rows keep their time. */
  lemma StepKeepsTimes(db: Db, c: Call, slug: string, k: nat)
    requires AllTold(db) && Fair(c.op) && slug in db.plans && k < |db.plans[slug].blockers|
    ensures slug in After(db, c).plans && k < |After(db, c).plans[slug].blockers|
    ensures Get(After(db, c).plans[slug].blockers[k], AskedAt) == Get(db.plans[slug].blockers[k], AskedAt)
  {
    StepAdvances(db, c, slug);
    ViewAt(db.plans[slug].blockers, k);
    ViewAt(After(db, c).plans[slug].blockers, k);
    hide After, Views, AllTold, Fair;
  }

  lemma StepKeepsDated(db: Db, c: Call)
    requires AllTold(db) && Dated(db) && Fair(c.op) && OnlyAsksBlock(c.op)
    ensures Dated(After(db, c))
  {
    var later := After(db, c);
    forall s, k: nat | s in later.plans && StampOf(later, s, k).Some?
      ensures k < |later.plans[s].blockers|
      ensures Get(later.plans[s].blockers[k], AskedAt) == Num(StampOf(later, s, k).value)
    {
      StepStamp(db, c, s, k);
      if AsksAt(db, c, s, k) {
        AskedRow(db, c, k);
      } else {
        StepKeepsTimes(db, c, s, k);
      }
      hide After, Fair, OnlyAsksBlock, AllTold, Archives, AsksAt;
    }
  }

  lemma {:induction false} RunKeepsDated(db: Db, calls: seq<Call>)
    requires AllTold(db) && Dated(db) && AskRun(calls)
    ensures AllTold(Run(db, calls)) && Dated(Run(db, calls))
    decreases |calls|
  {
    if calls != [] {
      StepKeepsDated(db, calls[0]);
      StepKeepsTold(db, calls[0]);
      hide AllTold, Dated, Fair, OnlyAsksBlock;
      RunKeepsDated(After(db, calls[0]), calls[1..]);
    }
  }

  /** The question as the call put it stands on its row for good, whatever runs. */
  lemma QuestionStands(db: Db, slug: string, op: Op, calls: seq<Call>)
    requires AllTold(db) && AskRun(calls) && op.AddBlocker? && Fair(op)
    requires slug in db.plans && AcceptedSlug(slug) && Step(db, slug, op).result.Ok?
    ensures var later, k := Run(After(db, Call(slug, op)), calls), |db.plans[slug].blockers|;
            && slug in later.plans && k < |later.plans[slug].blockers|
            && var row := later.plans[slug].blockers[k];
               && Get(row, Id) == Str(IdOf(k)) && Get(row, PhaseId) == Str(op.phase) && Get(row, Type) == Str(op.kindText)
               && Get(row, Question) == Str(op.question) && Get(row, Context) == Str(op.context)
               && Get(row, AskedAt) == Num(op.ts)
               && Get(row, Options).Arr? && |Get(row, Options).items| == |op.options|
               && forall i :: 0 <= i < |op.options| ==> Get(row, Options).items[i] == Str(op.options[i])
  {
    var asked, k := After(db, Call(slug, op)), |db.plans[slug].blockers|;
    MintedIsReply(db, slug, op);
    Observed.QuestionLeaves(db, slug, op, IdOf(k));
    assert Observed.Recorded(db, slug, Step(db, slug, op), op, IdOf(k));
    StepKeepsTold(db, Call(slug, op));
    hide Step, AllTold, Fair, OnlyAsksBlock, Run, AcceptedSlug, IdOf, Views;
    AnswersNeverChange(asked, calls, slug);
    ViewAt(asked.plans[slug].blockers, k);
    ViewAt(Run(asked, calls).plans[slug].blockers, k);
  }

  lemma MintedIsReply(db: Db, slug: string, op: Op)
    requires op.AddBlocker? && slug in db.plans && AcceptedSlug(slug) && Step(db, slug, op).result.Ok?
    ensures Step(db, slug, op).result == Ok(Str(IdOf(|db.plans[slug].blockers|)))
  {
    AddedRow(Bumped(db.plans[slug]), db.last, op);
    MintedIsNext(|db.plans[slug].blockers|);
    hide PlanEffect, AcceptedSlug, IdOf, MintId;
  }

  // ----- how long the question keeps its time --------------------------------------------------------

  lemma {:induction false} AskedStays(db: Db, calls: seq<Call>, slug: string, k: nat, s: Option<int>)
    requires AllTold(db) && AskRun(calls) && slug in db.plans && k < |db.plans[slug].blockers|
    ensures AskedSince(db, calls, slug, k, s)
         == if exists i :: 0 <= i < |calls| && Archives(calls[i], slug) then None else s
    decreases |calls|
  {
    if calls != [] {
      var c := calls[0];
      StepKeepsTimes(db, c, slug, k);
      StepKeepsTold(db, c);
      assert !AsksAt(db, c, slug, k);
      hide AllTold, Fair, OnlyAsksBlock, AsksAt, After, Archives;
      AskedStays(After(db, c), calls[1..], slug, k, if Archives(c, slug) then None else s);
      assert (exists i :: 0 <= i < |calls| && Archives(calls[i], slug)) <==>
               Archives(c, slug) || exists i :: 0 <= i < |calls| - 1 && Archives(calls[1..][i], slug);
    }
  }

  /** A question asked at `ts` is stamped `ts` for as long as its plan is not
      archived, and has no stamp ever after. */
  lemma StampUntilArchived(db: Db, ask: Call, calls: seq<Call>, k: nat)
    requires AllTold(db) && Fair(ask.op) && OnlyAsksBlock(ask.op) && AskRun(calls) && AsksAt(db, ask, ask.slug, k)
    ensures StampOf(Run(After(db, ask), calls), ask.slug, k)
         == if exists i :: 0 <= i < |calls| && Archives(calls[i], ask.slug) then None else Some(ask.op.ts)
  {
    var asked := After(db, ask);
    AskedRow(db, ask, k);
    StepKeepsTold(db, ask);
    StepStamp(db, ask, ask.slug, k);
    hide AllTold, Fair, OnlyAsksBlock, AsksAt, After, Archives, StampOf;
    StampIsAskTime(asked, calls, ask.slug, k);
    AskedStays(asked, calls, ask.slug, k, StampOf(asked, ask.slug, k));
  }

  // ----- the registry --------------------------------------------------------------------------------

  /** A registered plan, with the calls its project's store has seen since it
      was created. */
  datatype Entry = Entry(root: string, slug: string, last: int, calls: seq<Call>)

  function Now(e: Entry): Db {
    Run(Db(map[], e.last), e.calls)
  }

  /** What the reference knows of question `k` of this plan: when it was asked,
      unless the plan has been archived since. */
  function AskTime(e: Entry, k: nat): Option<int> {
    AskedSince(Db(map[], e.last), e.calls, e.slug, k, None)
  }

  ghost predicate AskRuns(entries: seq<Entry>) {
    forall i :: 0 <= i < |entries| ==> AskRun(entries[i].calls)
  }

  function OpensOf(e: Entry): seq<OpenBlocker> {
    if e.slug !in Now(e).plans then []
    else OpenOf(e.root, e.slug, Now(e).plans[e.slug].events, Now(e).plans[e.slug].blockers)
  }

  function OpenUpTo(entries: seq<Entry>, n: nat): seq<OpenBlocker>
    requires n <= |entries|
  {
    if n == 0 then [] else OpenUpTo(entries, n - 1) + OpensOf(entries[n - 1])
  }

  /** The open blockers of all registered plans, in registry order. */
  function AllOpen(entries: seq<Entry>): seq<OpenBlocker> {
    OpenUpTo(entries, |entries|)
  }

  /** An open question that offers the digit. */
  datatype Place = Place(entry: nat, k: nat)

  predicate Open(entries: seq<Entry>, q: Place) {
    && q.entry < |entries|
    && var e := entries[q.entry];
       && e.slug in Now(e).plans && q.k < |Now(e).plans[e.slug].blockers|
       && Unanswered(Now(e).plans[e.slug].blockers[q.k])
  }

  function RowOf(entries: seq<Entry>, q: Place): Doc
    requires Open(entries, q)
  {
    Now(entries[q.entry]).plans[entries[q.entry].slug].blockers[q.k]
  }

  predicate Offers(entries: seq<Entry>, q: Place, digit: nat) {
    Open(entries, q) && digit < OptionCount(RowOf(entries, q))
  }

  // ----- the router's list is the list of open questions -------------------------------------------------

  function OpenIndices(bs: seq<Doc>): (r: seq<nat>)
    ensures forall i :: 0 <= i < |r| ==> r[i] < |bs| && Unanswered(bs[r[i]])
  {
    if bs == [] then []
    else OpenIndices(bs[..|bs| - 1]) + (if Unanswered(bs[|bs| - 1]) then [|bs| - 1] else [])
  }

  lemma {:induction false} OpenOfIndices(root: string, slug: string, evs: seq<Event>, bs: seq<Doc>)
    ensures var opens, at := OpenOf(root, slug, evs, bs), OpenIndices(bs);
            && |opens| == |at|
            && (forall i :: 0 <= i < |at| ==> opens[i] == Hydrated(root, slug, evs, bs[at[i]]))
            && (forall i, j :: 0 <= i < j < |at| ==> at[i] < at[j])
  {
    if bs != [] {
      hide Hydrated, Unanswered;
      OpenOfIndices(root, slug, evs, bs[..|bs| - 1]);
    }
  }

  lemma {:induction false} EveryOpenIndex(bs: seq<Doc>)
    ensures forall k :: 0 <= k < |bs| && Unanswered(bs[k]) ==> k in OpenIndices(bs)
  {
    if bs != [] {
      var n := |bs| - 1;
      EveryOpenIndex(bs[..n]);
      forall k | 0 <= k < |bs| && Unanswered(bs[k])
        ensures k in OpenIndices(bs)
      {
        if k < n { assert bs[..n][k] == bs[k]; }
      }
    }
  }

  function Numbering(at: seq<nat>, entry: nat): seq<Place> {
    seq(|at|, i requires 0 <= i < |at| => Place(entry, at[i]))
  }

  function PlacesOf(entries: seq<Entry>, n: nat): seq<Place>
    requires n < |entries|
  {
    var e := entries[n];
    if e.slug in Now(e).plans then Numbering(OpenIndices(Now(e).plans[e.slug].blockers), n) else []
  }

  function PlacesUpTo(entries: seq<Entry>, n: nat): seq<Place>
    requires n <= |entries|
  {
    if n == 0 then [] else PlacesUpTo(entries, n - 1) + PlacesOf(entries, n - 1)
  }

  function Places(entries: seq<Entry>): seq<Place> {
    PlacesUpTo(entries, |entries|)
  }

  function HydratedAt(entries: seq<Entry>, q: Place): OpenBlocker
    requires Open(entries, q)
  {
    var e := entries[q.entry];
    Hydrated(e.root, e.slug, Now(e).plans[e.slug].events, RowOf(entries, q))
  }

  /** `ps` are the open questions of the plans `lo` to `hi`, each once, and
      `opens` is what the router makes of them. */
  ghost predicate Lists(entries: seq<Entry>, lo: nat, hi: nat, ps: seq<Place>, opens: seq<OpenBlocker>) {
    && |ps| == |opens|
    && (forall i :: 0 <= i < |ps| ==>
          lo <= ps[i].entry < hi && Open(entries, ps[i]) && opens[i] == HydratedAt(entries, ps[i]))
    && (forall i, j :: 0 <= i < j < |ps| ==> ps[i] != ps[j])
    && (forall q :: Open(entries, q) && lo <= q.entry < hi ==> q in ps)
  }

  lemma OnePlanLists(entries: seq<Entry>, n: nat)
    requires n < |entries|
    ensures Lists(entries, n, n + 1, PlacesOf(entries, n), OpensOf(entries[n]))
  {
    var e := entries[n];
    if e.slug in Now(e).plans {
      var p := Now(e).plans[e.slug];
      var at := OpenIndices(p.blockers);
      OpenOfIndices(e.root, e.slug, p.events, p.blockers);
      EveryOpenIndex(p.blockers);
      hide Now, Hydrated, Unanswered, OpenOf, OpenIndices;
      forall q | Open(entries, q) && q.entry == n
        ensures q in Numbering(at, n)
      {
        var i :| 0 <= i < |at| && at[i] == q.k;
        assert Numbering(at, n)[i] == q;
      }
    }
  }

  lemma ListsAppend(entries: seq<Entry>, mid: nat, hi: nat, ps: seq<Place>, opens: seq<OpenBlocker>, qs: seq<Place>,
          more: seq<OpenBlocker>)
    requires mid <= hi && Lists(entries, 0, mid, ps, opens) && Lists(entries, mid, hi, qs, more)
    ensures Lists(entries, 0, hi, ps + qs, opens + more)
  {
    hide Open, HydratedAt;
    var all := ps + qs;
    forall i, j | 0 <= i < j < |all|
      ensures all[i] != all[j]
    {
      if i < |ps| <= j {
        assert ps[i].entry < mid <= qs[j - |ps|].entry;
      }
    }
    forall i | 0 <= i < |all|
      ensures 0 <= all[i].entry < hi && Open(entries, all[i]) && (opens + more)[i] == HydratedAt(entries, all[i])
    {
      if i >= |ps| {
        assert all[i] == qs[i - |ps|] && (opens + more)[i] == more[i - |ps|];
      }
    }
  }

  lemma NothingLists(entries: seq<Entry>)
    ensures Lists(entries, 0, 0, [], [])
  {
  }

  lemma UpToUnfolds(entries: seq<Entry>, n: nat)
    requires 0 < n <= |entries|
    ensures PlacesUpTo(entries, n) == PlacesUpTo(entries, n - 1) + PlacesOf(entries, n - 1)
    ensures OpenUpTo(entries, n) == OpenUpTo(entries, n - 1) + OpensOf(entries[n - 1])
  {
    hide PlacesOf, OpensOf;
  }

  lemma {:induction false} PlacesUpToList(entries: seq<Entry>, n: nat)
    requires n <= |entries|
    ensures Lists(entries, 0, n, PlacesUpTo(entries, n), OpenUpTo(entries, n))
  {
    hide Lists, PlacesOf, OpensOf;
    if n == 0 {
      NothingLists(entries);
    } else {
      hide *;
      var m := n - 1;
      PlacesUpToList(entries, m);
      OnePlanLists(entries, m);
      UpToUnfolds(entries, n);
      ListsAppend(entries, m, n, PlacesUpTo(entries, m), OpenUpTo(entries, m), PlacesOf(entries, m), OpensOf(entries[m]));
    }
  }

  /** The router's list holds each open question once, in the order of `Places`. */
  lemma PlacesAreOpen(entries: seq<Entry>)
    ensures Lists(entries, 0, |entries|, Places(entries), AllOpen(entries))
  {
    PlacesUpToList(entries, |entries|);
  }

  // ----- exactly when a bare digit is ambiguous ---------------------------------------------------------

  lemma NewStoreIsTold(last: int)
    ensures AllTold(Db(map[], last)) && Dated(Db(map[], last))
  {
  }

  /** What the router compares is the reference's ask time, and a time that is
      known is the one on the blocker's row. */
  lemma PingedIsAskTime(entries: seq<Entry>, q: Place)
    requires AskRuns(entries) && Open(entries, q)
    ensures HydratedAt(entries, q).pinged == AskTime(entries[q.entry], q.k)
    ensures AskTime(entries[q.entry], q.k).Some? ==>
              Get(RowOf(entries, q), AskedAt) == Num(AskTime(entries[q.entry], q.k).value)
  {
    var e := entries[q.entry];
    var db := Db(map[], e.last);
    NewStoreIsTold(e.last);
    RunKeepsDated(db, e.calls);
    StampIsAskTime(db, e.calls, e.slug, q.k);
    assert Told(Now(e).plans[e.slug]);
    ViewAt(Now(e).plans[e.slug].blockers, q.k);
    hide Run, Dated, AllTold, Views, IdOf, LastBlocked;
    assert StampOf(Now(e), e.slug, q.k) == AskTime(e, q.k);
    assert StampOf(Now(e), e.slug, q.k) == LastBlocked(Now(e).plans[e.slug].events, Str(IdOf(q.k)));
  }

  /** Two questions that offer the digit share their ask time, or have both been
      archived, and no question that offers it was asked later. */
  ghost predicate SharedAsk(entries: seq<Entry>, digit: nat, a: Place, b: Place) {
    && a != b && Offers(entries, a, digit) && Offers(entries, b, digit)
    && AskTime(entries[a.entry], a.k) == AskTime(entries[b.entry], b.k)
    && forall c :: Offers(entries, c, digit) ==>
         !Older(AskTime(entries[a.entry], a.k), AskTime(entries[c.entry], c.k))
  }

  lemma PlaceOffers(entries: seq<Entry>, i: nat, digit: nat)
    requires AskRuns(entries) && i < |Places(entries)|
    ensures i < |AllOpen(entries)| && Open(entries, Places(entries)[i])
    ensures var q, b := Places(entries)[i], AllOpen(entries)[i];
            (digit < b.options <==> Offers(entries, q, digit)) && b.pinged == AskTime(entries[q.entry], q.k)
  {
    PlacesAreOpen(entries);
    PingedIsAskTime(entries, Places(entries)[i]);
    hide Places, AllOpen, Open, AskTime, AskRuns;
  }

  /** The router's list, read as places and ask times. */
  ghost predicate Matches(entries: seq<Entry>, digit: nat, ps: seq<Place>, opens: seq<OpenBlocker>) {
    && |ps| == |opens|
    && (forall i :: 0 <= i < |ps| ==>
          && (digit < opens[i].options <==> Offers(entries, ps[i], digit))
          && ps[i].entry < |entries| && opens[i].pinged == AskTime(entries[ps[i].entry], ps[i].k))
    && (forall i, j :: 0 <= i < j < |ps| ==> ps[i] != ps[j])
    && (forall q :: Offers(entries, q, digit) ==> q in ps)
  }

  lemma ListMatches(entries: seq<Entry>, digit: nat)
    requires AskRuns(entries)
    ensures Matches(entries, digit, Places(entries), AllOpen(entries))
  {
    PlacesAreOpen(entries);
    forall i | 0 <= i < |Places(entries)|
      ensures digit < AllOpen(entries)[i].options <==> Offers(entries, Places(entries)[i], digit)
      ensures var q := Places(entries)[i];
              q.entry < |entries| && AllOpen(entries)[i].pinged == AskTime(entries[q.entry], q.k)
    {
      PlaceOffers(entries, i, digit);
    }
    hide Places, AllOpen, AskTime, AskRuns, Now;
  }

  lemma TiedIsShared(entries: seq<Entry>, digit: nat, ps: seq<Place>, opens: seq<OpenBlocker>, i: nat, j: nat)
    requires Matches(entries, digit, ps, opens) && Tied(opens, digit, i, j)
    ensures SharedAsk(entries, digit, ps[i], ps[j])
  {
    hide Offers, AskTime, Older;
    forall c | Offers(entries, c, digit)
      ensures c.entry < |entries| && !Older(opens[i].pinged, AskTime(entries[c.entry], c.k))
    {
      var x :| 0 <= x < |ps| && ps[x] == c;
    }
  }

  lemma SharedIsTied(entries: seq<Entry>, digit: nat, ps: seq<Place>, opens: seq<OpenBlocker>, a: Place, b: Place)
    requires Matches(entries, digit, ps, opens) && SharedAsk(entries, digit, a, b)
    ensures exists i, j :: Tied(opens, digit, i, j)
  {
    hide Offers, AskTime, Older;
    var i :| 0 <= i < |ps| && ps[i] == a;
    var j :| 0 <= j < |ps| && ps[j] == b;
    assert Tied(opens, digit, if i < j then i else j, if i < j then j else i);
  }

  /** Over every run of every project: a bare digit is ambiguous exactly when the
      newest ask time among the questions that offer it is shared - asked in the
      same second, or every one of them archived since it was asked. */
  lemma AmbiguousIffSharedAsk(entries: seq<Entry>, digit: nat, r: Located)
    requires AskRuns(entries) && Locates(Digit(digit), AllOpen(entries), r)
    ensures r.Ambiguous? <==> exists a, b :: SharedAsk(entries, digit, a, b)
  {
    var ps, opens := Places(entries), AllOpen(entries);
    ListMatches(entries, digit);
    AmbiguousIffTied(opens, digit, r);
    hide Locates, Places, AllOpen, AskRuns, Matches, Tied, SharedAsk;
    if i, j :| Tied(opens, digit, i, j) {
      TiedIsShared(entries, digit, ps, opens, i, j);
    }
    if a, b :| SharedAsk(entries, digit, a, b) {
      SharedIsTied(entries, digit, ps, opens, a, b);
    }
  }

  /** Questions asked at different times, by the rows of their blockers, never
      leave a bare digit ambiguous while none of them has been archived. */
  lemma DistinctTimesNeverDeadlock(entries: seq<Entry>, digit: nat, r: Located)
    requires AskRuns(entries) && Locates(Digit(digit), AllOpen(entries), r)
    requires forall a :: Offers(entries, a, digit) ==> AskTime(entries[a.entry], a.k).Some?
    requires forall a, b :: Offers(entries, a, digit) && Offers(entries, b, digit) && a != b ==>
               Get(RowOf(entries, a), AskedAt) != Get(RowOf(entries, b), AskedAt)
    ensures !r.Ambiguous?
  {
    AmbiguousIffSharedAsk(entries, digit, r);
    if a, b :| SharedAsk(entries, digit, a, b) {
      PingedIsAskTime(entries, a);
      PingedIsAskTime(entries, b);
    }
    hide AskTime, RowOf, Locates, AllOpen;
  }

  /** However far apart they were asked, questions that have all been archived
      since leave the digit ambiguous as soon as two of them offer it. */
  lemma ArchivedQuestionsDeadlock(entries: seq<Entry>, digit: nat, a: Place, b: Place, r: Located)
    requires AskRuns(entries) && Locates(Digit(digit), AllOpen(entries), r)
    requires a != b && Offers(entries, a, digit) && Offers(entries, b, digit)
    requires forall c :: Offers(entries, c, digit) ==> AskTime(entries[c.entry], c.k) == None
    ensures r.Ambiguous?
  {
    AmbiguousIffSharedAsk(entries, digit, r);
    assert SharedAsk(entries, digit, a, b);
  }

  // ----- the archived plan ---------------------------------------------------------------------------

  function Archived(e: Entry): Entry {
    e.(calls := e.calls + [Call(e.slug, ArchiveEvents)])
  }

  lemma {:induction false} ArchivalForgets(db: Db, calls: seq<Call>, slug: string, k: nat, s: Option<int>)
    requires AcceptedSlug(slug)
    ensures AskedSince(db, calls + [Call(slug, ArchiveEvents)], slug, k, s) == None
    decreases |calls|
  {
    var all := calls + [Call(slug, ArchiveEvents)];
    if calls == [] {
      assert all[1..] == [];
    } else {
      assert all[1..] == calls[1..] + [Call(slug, ArchiveEvents)];
      var c := calls[0];
      hide After, AsksAt, Archives;
      ArchivalForgets(After(db, c), calls[1..], slug, k, AskedNext(db, c, slug, k, s));
    }
  }

  lemma ArchiveKeepsRows(db: Db, slug: string)
    requires AcceptedSlug(slug) && slug in db.plans
    ensures var later := After(db, Call(slug, ArchiveEvents));
            slug in later.plans && later.plans[slug].blockers == db.plans[slug].blockers
  {
  }

  lemma ArchivalKeepsRows(e: Entry)
    requires AcceptedSlug(e.slug) && e.slug in Now(e).plans
    ensures e.slug in Now(Archived(e)).plans
    ensures Now(Archived(e)).plans[e.slug].blockers == Now(e).plans[e.slug].blockers
  {
    var archive := Call(e.slug, ArchiveEvents);
    RunSplit(Db(map[], e.last), e.calls, [archive]);
    ArchiveKeepsRows(Now(e), e.slug);
    hide After;
    assert [archive][1..] == [];
    assert Run(Now(e), [archive]) == Run(After(Now(e), archive), []);
  }

  lemma ArchivalKeepsOffers(e: Entry, q: Place, digit: nat)
    requires AcceptedSlug(e.slug) && Offers([e], q, digit)
    ensures Offers([Archived(e)], q, digit)
  {
    ArchivalKeepsRows(e);
    hide Now, AcceptedSlug;
  }

  /** `clu archive` keeps a plan registered and its blockers open, but moves the
      block events out of the log the stamps are read from: two questions that
      could be told apart before it cannot be told apart after it. */
  lemma ArchivalDeadlocks(e: Entry, k: nat, l: nat, digit: nat, r: Located)
    requires AskRun(e.calls) && AcceptedSlug(e.slug) && k != l
    requires Offers([e], Place(0, k), digit) && Offers([e], Place(0, l), digit)
    requires Locates(Digit(digit), AllOpen([Archived(e)]), r)
    ensures r.Ambiguous?
  {
    var after := Archived(e);
    ArchivalKeepsOffers(e, Place(0, k), digit);
    ArchivalKeepsOffers(e, Place(0, l), digit);
    forall c | Offers([after], c, digit)
      ensures AskTime([after][c.entry], c.k) == None
    {
      ArchivalForgets(Db(map[], e.last), e.calls, e.slug, c.k, None);
    }
    assert Fair(ArchiveEvents) && OnlyAsksBlock(ArchiveEvents);
    assert AskRuns([after]);
    hide AskRuns, AskRun, Fair, OnlyAsksBlock, AskTime, Offers, Locates, AllOpen, AcceptedSlug;
    ArchivedQuestionsDeadlock([after], digit, Place(0, k), Place(0, l), r);
  }

  /** A question asked without releasing a claim. */
  predicate PlainAsk(c: Call, slug: string) {
    c.slug == slug && c.op.AddBlocker? && c.op.releaseToken == None && c.op.releasePhase == None
  }

  predicate Makes(c: Call, slug: string) {
    c.slug == slug && c.op.Create? && c.op.doc == NewPlan(c.op.doc.head, None, [], [], [])
  }

  /** A plan, made and asked about twice. */
  function TwoQuestions(slug: string, create: Call, a: Call, b: Call): Entry {
    Entry("", slug, 0, [create, a, b])
  }

  lemma AskCommits(db: Db, c: Call, slug: string)
    requires PlainAsk(c, slug) && AcceptedSlug(slug) && slug in db.plans && Told(db.plans[slug])
    ensures AsksAt(db, c, slug, |db.plans[slug].blockers|) && slug in After(db, c).plans
    ensures var k, bs := |db.plans[slug].blockers|, After(db, c).plans[slug].blockers;
            && |bs| == k + 1 && bs[..k] == db.plans[slug].blockers
            && Unanswered(bs[k]) && OptionCount(bs[k]) == |c.op.options|
  {
    var p := Bumped(db.plans[slug]);
    BlockerIdNeverCollides(p, db.last, c.op);
    AddedRow(p, db.last, c.op);
    AddedView(p, db.last, c.op);
    hide PlanEffect, Told, Views, FreshBlocker, NormalBlocker, AcceptedSlug;
    ViewAt(PlanEffect(p, db.last, c.op).plan.blockers, |p.blockers|);
    ViewAt(p.blockers, 0);
  }

  lemma AskIsFair(db: Db, c: Call, slug: string)
    requires PlainAsk(c, slug) && AllTold(db)
    ensures Fair(c.op) && OnlyAsksBlock(c.op) && AllTold(After(db, c))
  {
    assert Fair(c.op);
    StepKeepsTold(db, c);
    hide AllTold, After;
  }

  lemma PlanIsMade(db: Db, c: Call, slug: string)
    requires db == Db(map[], 0) && Makes(c, slug) && AcceptedSlug(slug)
    ensures Fair(c.op) && OnlyAsksBlock(c.op) && AllTold(After(db, c))
    ensures slug in After(db, c).plans && After(db, c).plans[slug].blockers == []
    ensures forall k :: AskedNext(db, c, slug, k, None) == None
  {
    assert Fair(c.op) && OnlyAsksBlock(c.op);
    NewStoreIsTold(0);
    StepKeepsTold(db, c);
    hide AllTold;
  }

  lemma AskedOnce(db: Db, c: Call, slug: string, k: nat, l: nat, s: Option<int>)
    requires AsksAt(db, c, slug, k)
    ensures AskedNext(db, c, slug, l, s) == if l == k then Some(c.op.ts) else s
  {
    hide Commits;
  }

  /** The two questions are open, and known by their two times. */
  lemma BothAsked(made: Db, a: Call, b: Call, slug: string)
    requires PlainAsk(a, slug) && PlainAsk(b, slug) && AcceptedSlug(slug) && AllTold(made)
    requires slug in made.plans && made.plans[slug].blockers == []
    ensures var two := After(After(made, a), b);
            && slug in two.plans && |two.plans[slug].blockers| == 2
            && var bs := two.plans[slug].blockers;
               Unanswered(bs[0]) && Unanswered(bs[1]) && OptionCount(bs[0]) == |a.op.options|
                 && OptionCount(bs[1]) == |b.op.options|
    ensures AskedNext(After(made, a), b, slug, 0, AskedNext(made, a, slug, 0, None)) == Some(a.op.ts)
    ensures AskedNext(After(made, a), b, slug, 1, AskedNext(made, a, slug, 1, None)) == Some(b.op.ts)
  {
    var one := After(made, a);
    AskIsFair(made, a, slug);
    assert Told(made.plans[slug]);
    hide After, Commits, Told, Unanswered, OptionCount, AsksAt, AskedNext, AcceptedSlug, Fair, OnlyAsksBlock;
    AskCommits(made, a, slug);
    assert Told(one.plans[slug]);
    AskCommits(one, b, slug);
    var bs := After(one, b).plans[slug].blockers;
    assert bs[0] == bs[..1][0] == one.plans[slug].blockers[0];
    AskedOnce(made, a, slug, 0, 0, None);
    AskedOnce(made, a, slug, 0, 1, None);
    AskedOnce(one, b, slug, 1, 0, Some(a.op.ts));
    AskedOnce(one, b, slug, 1, 1, None);
  }

  lemma ThreeCalls(db: Db, x: Call, y: Call, z: Call, slug: string, k: nat)
    ensures Run(db, [x, y, z]) == After(After(After(db, x), y), z)
    ensures AskedSince(db, [x, y, z], slug, k, None) ==
              AskedNext(After(After(db, x), y), z, slug, k,
                        AskedNext(After(db, x), y, slug, k, AskedNext(db, x, slug, k, None)))
  {
    hide After, AskedNext;
    assert [x, y, z][1..] == [y, z] && [y, z][1..] == [z] && [z][1..] == [];
    var one, two := After(db, x), After(After(db, x), y);
    assert Run(db, [x, y, z]) == Run(one, [y, z]) == Run(two, [z]) == Run(After(two, z), []);
    var s := AskedNext(db, x, slug, k, None);
    var t := AskedNext(one, y, slug, k, s);
    assert AskedSince(db, [x, y, z], slug, k, None) == AskedSince(one, [y, z], slug, k, s) == AskedSince(two, [z], slug, k, t);
    assert AskedSince(two, [z], slug, k, t) == AskedSince(After(two, z), [], slug, k, AskedNext(two, z, slug, k, t));
  }

  lemma TwoQuestionsOpen(slug: string, create: Call, a: Call, b: Call)
    requires AcceptedSlug(slug) && Makes(create, slug) && PlainAsk(a, slug) && PlainAsk(b, slug)
    ensures var e := TwoQuestions(slug, create, a, b);
            && AskRun(e.calls) && slug in Now(e).plans && |Now(e).plans[slug].blockers| == 2
            && Open([e], Place(0, 0)) && OptionCount(RowOf([e], Place(0, 0))) == |a.op.options|
            && Open([e], Place(0, 1)) && OptionCount(RowOf([e], Place(0, 1))) == |b.op.options|
            && AskTime(e, 0) == Some(a.op.ts) && AskTime(e, 1) == Some(b.op.ts)
  {
    hide After, AllTold, Unanswered, OptionCount, Run, Fair, OnlyAsksBlock, AskedNext, AskedSince, AcceptedSlug;
    var e, db := TwoQuestions(slug, create, a, b), Db(map[], 0);
    PlanIsMade(db, create, slug);
    var made := After(db, create);
    AskIsFair(made, a, slug);
    AskIsFair(After(made, a), b, slug);
    BothAsked(made, a, b, slug);
    ThreeCalls(db, create, a, b, slug, 0);
    ThreeCalls(db, create, a, b, slug, 1);
  }

  /** A plan's two hot questions tie exactly when they were asked in one second. */
  lemma TwoHotQuestions(e: Entry, digit: nat, first: int, second: int, r: Located)
    requires AskRun(e.calls) && e.slug in Now(e).plans && |Now(e).plans[e.slug].blockers| == 2
    requires Offers([e], Place(0, 0), digit) && Offers([e], Place(0, 1), digit)
    requires AskTime(e, 0) == Some(first) && AskTime(e, 1) == Some(second)
    requires Locates(Digit(digit), AllOpen([e]), r)
    ensures r.Ambiguous? <==> first == second
  {
    AmbiguousIffSharedAsk([e], digit, r);
    assert forall c :: Offers([e], c, digit) ==> c == Place(0, 0) || c == Place(0, 1);
    hide AskTime, Now, OptionCount, Locates, AllOpen, Offers, AskRuns, AskRun;
    if first == second {
      assert SharedAsk([e], digit, Place(0, 0), Place(0, 1));
    }
  }

  /** Before it is archived the plan's two questions are ambiguous only when they
      were asked in one second; after it they always are. */
  lemma ArchivedTwoQuestions(slug: string, create: Call, a: Call, b: Call, digit: nat, r: Located, later: Located)
    requires AcceptedSlug(slug) && Makes(create, slug) && PlainAsk(a, slug) && PlainAsk(b, slug)
    requires digit < |a.op.options| && digit < |b.op.options|
    requires Locates(Digit(digit), AllOpen([TwoQuestions(slug, create, a, b)]), r)
    requires Locates(Digit(digit), AllOpen([Archived(TwoQuestions(slug, create, a, b))]), later)
    ensures r.Ambiguous? <==> a.op.ts == b.op.ts
    ensures later.Ambiguous?
  {
    var e := TwoQuestions(slug, create, a, b);
    TwoQuestionsOpen(slug, create, a, b);
    assert e.slug == slug;
    hide TwoQuestions, AskTime, Now, OptionCount, Locates, AllOpen, RowOf, Open, AskRun, AcceptedSlug;
    TwoHotQuestions(e, digit, a.op.ts, b.op.ts, r);
    ArchivalDeadlocks(e, 0, 1, digit, later);
  }
}
