/** The life of a blocker over whole runs: its minted id, its one answer, its
    one consumption. */
module Blockers {
  import opened Values
  import opened PlanDoc
  import opened PlanOps
  import opened PlanRows
  import opened EventLog
  import Decimals

  /** The question as it was put: what to whom, and when. */
  datatype Put = Put(phase: Json, kind: Json, question: Json, options: Json, context: Json, asked: Json)

  /** What the life cycle looks at. */
  datatype View = View(id: Json, put: Put, answer: Json, consumed: bool)

  function PutOf(b: Doc): Put {
    Put(Get(b, PhaseId), Get(b, Type), Get(b, Question), Get(b, Options), Get(b, Context), Get(b, AskedAt))
  }

  function ViewOf(b: Doc): View {
    View(Get(b, Id), PutOf(b), Get(b, Answer), Truthy(Get(b, Consumed)))
  }

  function Views(bs: seq<Doc>): seq<View> {
    seq(|bs|, i requires 0 <= i < |bs| => ViewOf(bs[i]))
  }

  function IdOf(k: nat): string {
    "q-" + Decimals.Decimal(k + 1)
  }

  /** Ids are q-1, q-2, ... in the order the blockers were asked. */
  predicate Numbered(vs: seq<View>) {
    forall k :: 0 <= k < |vs| ==> vs[k].id == Str(IdOf(k))
  }

  // ----- consumption events -----------------------------------------------------------

  predicate Consumption(kind: Kind, payload: Doc, id: string) {
    kind.BlockerConsumed? && Get(payload, BlockerId) == Str(id)
  }

  function Consumptions(evs: seq<Event>, id: string): nat {
    if evs == [] then 0
    else
      var e := evs[|evs| - 1];
      Consumptions(evs[..|evs| - 1], id) + (if Consumption(e.kind, e.payload, id) then 1 else 0)
  }

  function NewConsumptions(evs: seq<NewEvent>, id: string): nat {
    if evs == [] then 0
    else
      var e := evs[|evs| - 1];
      NewConsumptions(evs[..|evs| - 1], id) + (if Consumption(e.kind, e.payload, id) then 1 else 0)
  }

  lemma {:induction false} ConsumptionsConcat(xs: seq<Event>, ys: seq<Event>, id: string)
    ensures Consumptions(xs + ys, id) == Consumptions(xs, id) + Consumptions(ys, id)
    decreases |ys|
  {
    if ys == [] {
      assert xs + ys == xs;
    } else {
      assert (xs + ys)[..|xs + ys| - 1] == xs + ys[..|ys| - 1];
      ConsumptionsConcat(xs, ys[..|ys| - 1], id);
    }
  }

  lemma {:induction false} StampConsumptions(last: int, evs: seq<NewEvent>, id: string)
    ensures Consumptions(Stamp(last, evs), id) == NewConsumptions(evs, id)
  {
    if evs != [] {
      var n := |evs| - 1;
      assert Stamp(last, evs)[..n] == Stamp(last, evs[..n]);
      StampConsumptions(last, evs[..n], id);
      assert Get(PayloadOf(evs[n]), BlockerId) == Get(evs[n].payload, BlockerId);
    }
  }

  predicate NoneConsumed(evs: seq<NewEvent>) {
    forall i :: 0 <= i < |evs| ==> !evs[i].kind.BlockerConsumed?
  }

  lemma {:induction false} NoneCounted(evs: seq<NewEvent>, id: string)
    requires NoneConsumed(evs)
    ensures NewConsumptions(evs, id) == 0
  {
    if evs != [] {
      NoneCounted(evs[..|evs| - 1], id);
    }
  }

  // ----- what the callers keep to ----------------------------------------------------------

  predicate Consumes(updates: seq<(string, Doc)>, id: string) {
    exists i :: 0 <= i < |updates| && updates[i].0 == id && Consumed in updates[i].1
  }

  predicate TickField(k: Key) {
    k == Consumed || k == LastRepingedAt
  }

  /** A tick touches each blocker once, only to stamp a re-ping or to consume,
      and it consumes a blocker it saw answered and unconsumed, with exactly
      one event. */
  ghost predicate FairTick(pre: TickPreconditions, delta: TickDelta) {
    && (forall i, j :: 0 <= i < j < |delta.blockerUpdates| ==> delta.blockerUpdates[i].0 != delta.blockerUpdates[j].0)
    && (forall i, k :: 0 <= i < |delta.blockerUpdates| && k in delta.blockerUpdates[i].1 ==> TickField(k))
    && (forall i :: 0 <= i < |delta.blockerUpdates| && Consumed in delta.blockerUpdates[i].1 ==>
          delta.blockerUpdates[i].1[Consumed] == Bool(true)
          && delta.blockerUpdates[i].0 in pre.expectBlockerState
          && pre.expectBlockerState[delta.blockerUpdates[i].0] == (false, false))
    && (forall id: string :: NewConsumptions(delta.events, id) == if Consumes(delta.blockerUpdates, id) then 1 else 0)
  }

  function CallerEvents(op: Op): seq<NewEvent> {
    match op
    case Create(doc) => doc.events
    case StampClaimFields(_, _, _, _, events) => events
    case AppendEvents(events, _, _) => events
    case ReleaseClaim(_, _, events) => events
    case StampAttestation(_, _, _, _, _, events) => events
    case CompleteTask(_, _, _, _, events) => events
    case SetStatus(_, events, _, _) => events
    case SetFields(_, _, events) => events
    case _ => []
  }

  /** Plans start without blockers, and only ticks consume. */
  ghost predicate Fair(op: Op) {
    if op.ApplyTick? then FairTick(op.pre, op.delta)
    else NoneConsumed(CallerEvents(op)) && (op.Create? ==> op.doc.blockers == [])
  }

  ghost predicate FairRun(calls: seq<Call>) {
    forall i :: 0 <= i < |calls| ==> Fair(calls[i].op)
  }

  // ----- one blocker row -----------------------------------------------------------------------

  lemma ViewNormal(d: Doc)
    ensures ViewOf(NormalBlocker(d)) == ViewOf(d)
  {
    NormalReads(d);
    NormalReadsAlways(d);
    hide NormalBlocker;
    AlwaysKeys();
  }

  lemma AlwaysKeys()
    ensures Id in ALWAYS_BLOCKER_KEYS && Answer in ALWAYS_BLOCKER_KEYS && Options in ALWAYS_BLOCKER_KEYS
    ensures AskedAt in ALWAYS_BLOCKER_KEYS && PhaseId in ALWAYS_BLOCKER_KEYS && Type in ALWAYS_BLOCKER_KEYS
    ensures Question in ALWAYS_BLOCKER_KEYS && Context in ALWAYS_BLOCKER_KEYS
        && AskedAt in ALWAYS_BLOCKER_KEYS
  {
  }

  lemma ViewsPut(bs: seq<Doc>, i: nat, b: Doc)
    requires i < |bs|
    ensures Views(bs[i := b]) == Views(bs)[i := ViewOf(b)]
  {
  }

  lemma ViewAt(bs: seq<Doc>, k: nat)
    ensures |Views(bs)| == |bs| && (k < |bs| ==> Views(bs)[k] == ViewOf(bs[k]))
  {
  }

  /** A tick's update of one row: only `consumed` can move, and only to true. */
  lemma ViewUpdated(b: Doc, fields: Doc)
    requires forall k :: k in fields ==> TickField(k)
    requires Consumed in fields ==> fields[Consumed] == Bool(true)
    ensures ViewOf(NormalBlocker(b + fields)) == ViewOf(b).(consumed := ViewOf(b).consumed || Consumed in fields)
  {
    ViewNormal(b + fields);
    hide NormalBlocker;
    assert Id !in fields && Answer !in fields && Options !in fields && AskedAt !in fields;
    assert PhaseId !in fields && Type !in fields && Question !in fields && Context !in fields;
  }

  lemma IdsDiffer(j: nat, k: nat)
    requires IdOf(j) == IdOf(k)
    ensures j == k
  {
    Decimals.PrefixedInjective("q-", j + 1, k + 1);
  }

  /** In a numbered plan the key finds its own row, and the next id is free. */
  lemma FindNumbered(bs: seq<Doc>, k: nat)
    requires Numbered(Views(bs))
    ensures Find(bs, Str(IdOf(k))) == if k < |bs| then k else |bs|
  {
    var i := Find(bs, Str(IdOf(k)));
    forall j | 0 <= j < |bs|
      ensures Get(bs[j], Id) == Str(IdOf(j))
    {
      assert Views(bs)[j].id == Str(IdOf(j));
    }
    if i < |bs| {
      IdsDiffer(i, k);
    }
  }

  // ----- a tick's updates -----------------------------------------------------------------------

  predicate OnlyTickFields(updates: seq<(string, Doc)>) {
    && (forall i, k :: 0 <= i < |updates| && k in updates[i].1 ==> TickField(k))
    && (forall i :: 0 <= i < |updates| && Consumed in updates[i].1 ==> updates[i].1[Consumed] == Bool(true))
  }

  lemma ConsumesHead(updates: seq<(string, Doc)>, id: string)
    requires updates != []
    ensures Consumes(updates, id) <==> (updates[0].0 == id && Consumed in updates[0].1) || Consumes(updates[1..], id)
  {
    if Consumes(updates[1..], id) {
      var i :| 0 <= i < |updates| - 1 && updates[1..][i].0 == id && Consumed in updates[1..][i].1;
      assert updates[i + 1].0 == id;
    }
    if Consumes(updates, id) && !(updates[0].0 == id && Consumed in updates[0].1) {
      var i :| 0 <= i < |updates| && updates[i].0 == id && Consumed in updates[i].1;
      assert updates[1..][i - 1].0 == id;
    }
  }

  lemma UpdateConsumes(bs: seq<Doc>, id: string, fields: Doc, k: nat)
    requires Numbered(Views(bs)) && UpdateBlocker(bs, id, fields).Ok?
    requires forall f :: f in fields ==> TickField(f)
    requires Consumed in fields ==> fields[Consumed] == Bool(true)
    ensures var after, hit := UpdateBlocker(bs, id, fields).value, id == IdOf(k) && Consumed in fields;
            && |after| == |bs| && Numbered(Views(after))
            && (k < |bs| ==> ViewOf(after[k]) == ViewOf(bs[k]).(consumed := ViewOf(bs[k]).consumed || hit))
            && (k >= |bs| ==> !hit)
  {
    var i := Find(bs, Str(id));
    assert i < |bs| && UpdateBlocker(bs, id, fields).value == bs[i := NormalBlocker(bs[i] + fields)];
    ViewUpdated(bs[i], fields);
    hide UpdateBlocker, NormalBlocker, Views, ViewOf, TickField;
    ViewsPut(bs, i, NormalBlocker(bs[i] + fields));
    ViewAt(bs, i);
    ViewAt(bs, k);
    FindNumbered(bs, i);
    FindNumbered(bs, k);
    KeyOf(bs, i, id);
  }

  lemma KeyOf(bs: seq<Doc>, i: nat, id: string)
    requires i < |bs| && i == Find(bs, Str(id)) && Numbered(Views(bs))
    ensures id == IdOf(i)
  {
    ViewAt(bs, i);
    assert Views(bs)[i].id == Str(IdOf(i));
  }

  /** What the blocker updates of a delta leave. */
  lemma {:induction false} UpdatesConsume(bs: seq<Doc>, updates: seq<(string, Doc)>, k: nat)
    requires Numbered(Views(bs)) && OnlyTickFields(updates) && UpdateBlockers(bs, updates).Ok?
    ensures var after := UpdateBlockers(bs, updates).value;
            && |after| == |bs| && Numbered(Views(after))
            && (k < |bs| ==>
                  ViewOf(after[k]) == ViewOf(bs[k]).(consumed := ViewOf(bs[k]).consumed || Consumes(updates, IdOf(k))))
            && (k >= |bs| ==> !Consumes(updates, IdOf(k)))
    decreases |updates|
  {
    if updates != [] {
      OnlyTickFieldsTail(updates);
      UpdateConsumes(bs, updates[0].0, updates[0].1, k);
      ConsumesHead(updates, IdOf(k));
      hide UpdateBlocker, ViewOf, Numbered, Consumes, OnlyTickFields;
      UpdatesConsume(UpdateBlocker(bs, updates[0].0, updates[0].1).value, updates[1..], k);
    } else {
      assert !Consumes(updates, IdOf(k));
    }
  }

  lemma OnlyTickFieldsTail(updates: seq<(string, Doc)>)
    requires updates != [] && OnlyTickFields(updates)
    ensures OnlyTickFields(updates[1..])
    ensures forall f :: f in updates[0].1 ==> TickField(f)
    ensures Consumed in updates[0].1 ==> updates[0].1[Consumed] == Bool(true)
  {
  }

  // ----- one step ------------------------------------------------------------------------------

  predicate ConsumedAt(vs: seq<View>, k: nat) {
    k < |vs| && vs[k].consumed
  }

  /** Later views of the same blockers: ids and questions as put stay, an answer once
      given stays, a consumed blocker stays consumed. */
  predicate Advances(vs: seq<View>, ws: seq<View>) {
    && |vs| <= |ws|
    && forall k :: 0 <= k < |vs| ==>
         && ws[k].id == vs[k].id && ws[k].put == vs[k].put
         && (vs[k].answer != Null ==> ws[k].answer == vs[k].answer)
         && (vs[k].consumed ==> ws[k].consumed)
  }

  /** The plan's blockers and its log tell the same story. */
  ghost predicate Told(p: Plan) {
    && Numbered(Views(p.blockers))
    && (forall k: nat :: Consumptions(History(p), IdOf(k)) == if ConsumedAt(Views(p.blockers), k) then 1 else 0)
    && (forall k :: 0 <= k < |p.blockers| && ViewOf(p.blockers[k]).consumed ==> ViewOf(p.blockers[k]).answer != Null)
  }

  predicate TouchesBlockers(op: Op) {
    op.AddBlocker? || op.AnswerBlocker? || op.StampBlockerMetadata? || op.ApplyTick?
  }

  lemma OthersKeepBlockers(p: Plan, last: int, op: Op)
    requires PlanEffect(p, last, op).Commit? && !TouchesBlockers(op)
    ensures PlanEffect(p, last, op).plan.blockers == p.blockers
  {
    hide Stamp, NormalClaim, NormalTask, MintId, Find, AsObject, StampedSha, LeaseBase;
  }

  lemma OthersConsumeNothing(p: Plan, op: Op)
    requires !op.ApplyTick? && !op.ArchiveEvents? && Fair(op)
    ensures NoneConsumed(EventsOf(p, op))
  {
    hide MintId, Find, AsObject, StampedSha, LeaseBase, ResolveAnswer;
  }

  lemma AskedView(id: Json, phase: string, kindText: string, question: string, options: seq<string>, context: string,
          ts: int)
    ensures ViewOf(FreshBlocker(id, phase, kindText, question, options, context, ts))
         == View(id, Put(Str(phase), Str(kindText), Str(question), Strings(options), Str(context), Num(ts)), Null, false)
  {
  }

  function Asked(p: Plan, op: Op): Doc
    requires op.AddBlocker?
  {
    FreshBlocker(MintId("q-", |p.blockers| + 1), op.phase, op.kindText, op.question, op.options, op.context, op.ts)
  }

  lemma AddedRow(p: Plan, last: int, op: Op)
    requires op.AddBlocker? && PlanEffect(p, last, op).Commit?
    ensures PlanEffect(p, last, op).plan.blockers == p.blockers + [NormalBlocker(Asked(p, op))]
    ensures PlanEffect(p, last, op).reply == MintId("q-", |p.blockers| + 1)
  {
    hide FreshBlocker, NormalBlocker, Stamp, MintId, BlockedEvent, Collides, TokenRefused;
  }

  lemma ViewsSnoc(bs: seq<Doc>, b: Doc)
    ensures Views(bs + [b]) == Views(bs) + [ViewOf(b)]
  {
  }

  /** The question as the call puts it. */
  function PutBy(op: Op): Put
    requires op.AddBlocker?
  {
    Put(Str(op.phase), Str(op.kindText), Str(op.question), Strings(op.options), Str(op.context), Num(op.ts))
  }

  lemma AddedView(p: Plan, last: int, op: Op)
    requires op.AddBlocker? && PlanEffect(p, last, op).Commit?
    ensures Views(PlanEffect(p, last, op).plan.blockers)
         == Views(p.blockers) + [View(MintId("q-", |p.blockers| + 1), PutBy(op), Null, false)]
  {
    AddedRow(p, last, op);
    AskedView(MintId("q-", |p.blockers| + 1), op.phase, op.kindText, op.question, op.options, op.context, op.ts);
    ViewNormal(Asked(p, op));
    hide PlanEffect, FreshBlocker, NormalBlocker, Views, ViewOf;
    ViewsSnoc(p.blockers, NormalBlocker(Asked(p, op)));
  }

  lemma AnsweredView(p: Plan, last: int, op: Op)
    requires op.AnswerBlocker? && PlanEffect(p, last, op).Commit?
    ensures var i := Find(p.blockers, Str(op.blocker));
            && i < |p.blockers| && ViewOf(p.blockers[i]).answer == Null
            && Views(PlanEffect(p, last, op).plan.blockers) ==
                 Views(p.blockers)[i := ViewOf(p.blockers[i]).(answer := PlanEffect(p, last, op).reply)]
  {
    var i := Find(p.blockers, Str(op.blocker));
    var answer := PlanEffect(p, last, op).reply;
    var row := NormalBlocker(p.blockers[i] + map[Answer := answer, AnsweredAt := Num(op.ts)]);
    assert PlanEffect(p, last, op).plan.blockers == p.blockers[i := row] && Get(p.blockers[i], Answer) == Null by {
      hide NormalBlocker, Find, Stamp, ResolveAnswer;
    }
    AnswerViewed(p.blockers[i], answer, op.ts);
    hide PlanEffect, NormalBlocker, Find;
    ViewsPut(p.blockers, i, row);
  }

  lemma AnswerViewed(b: Doc, answer: Json, ts: int)
    ensures ViewOf(NormalBlocker(b + map[Answer := answer, AnsweredAt := Num(ts)])) == ViewOf(b).(answer := answer)
  {
    ViewNormal(b + map[Answer := answer, AnsweredAt := Num(ts)]);
    hide NormalBlocker;
  }

  lemma RecordViewed(b: Doc, record: Json)
    ensures ViewOf(NormalBlocker(b + map[NotifyMetadata := record])) == ViewOf(b)
  {
    ViewNormal(b + map[NotifyMetadata := record]);
    hide NormalBlocker;
  }

  lemma StampedView(p: Plan, last: int, op: Op)
    requires op.StampBlockerMetadata? && PlanEffect(p, last, op).Commit?
    ensures Views(PlanEffect(p, last, op).plan.blockers) == Views(p.blockers)
  {
    var i := Find(p.blockers, Str(op.blocker));
    if i < |p.blockers| {
      var record := Obj(AsObject(p.blockers[i], NotifyMetadata).value[Named(op.channel) := op.metadata]);
      var row := NormalBlocker(p.blockers[i] + map[NotifyMetadata := record]);
      assert PlanEffect(p, last, op).plan.blockers == p.blockers[i := row] by { hide NormalBlocker, Find; }
      RecordViewed(p.blockers[i], record);
      hide PlanEffect, NormalBlocker, Find;
      ViewsPut(p.blockers, i, row);
      assert Views(p.blockers)[i] == ViewOf(p.blockers[i]);
    }
  }

  /** A committed tick saw every blocker it consumes answered and unconsumed. */
  lemma TickViews(p: Plan, last: int, op: Op, k: nat)
    requires op.ApplyTick? && FairTick(op.pre, op.delta) && PlanEffect(p, last, op).Commit? && Numbered(Views(p.blockers))
    ensures var q, consumes := PlanEffect(p, last, op).plan, Consumes(op.delta.blockerUpdates, IdOf(k));
            && |q.blockers| == |p.blockers| && Numbered(Views(q.blockers))
            && (k < |p.blockers| ==>
                  var seen := ViewOf(p.blockers[k]);
                  ViewOf(q.blockers[k]) == seen.(consumed := seen.consumed || consumes))
            && (consumes ==> k < |p.blockers| && !ViewOf(p.blockers[k]).consumed && ViewOf(p.blockers[k]).answer != Null)
  {
    TickBlockers(p, last, op);
    UpdatesConsume(p.blockers, op.delta.blockerUpdates, k);
    FindNumbered(p.blockers, k);
    if Consumes(op.delta.blockerUpdates, IdOf(k)) {
      var i :| 0 <= i < |op.delta.blockerUpdates| && op.delta.blockerUpdates[i].0 == IdOf(k)
        && Consumed in op.delta.blockerUpdates[i].1;
      assert BlockerState(p, IdOf(k)) == Some((false, false));
    }
  }

  lemma TickBlockers(p: Plan, last: int, op: Op)
    requires op.ApplyTick? && PlanEffect(p, last, op).Commit?
    ensures Preconditions(p, op.pre) && UpdateBlockers(p.blockers, op.delta.blockerUpdates).Ok?
    ensures PlanEffect(p, last, op).plan.blockers == UpdateBlockers(p.blockers, op.delta.blockerUpdates).value
  {
    hide Preconditions, UpdateBlockers, NormalClaim, Stamp;
  }

  // ----- every step, every run ----------------------------------------------------------------

  /** Which blockers a committed call consumes. */
  predicate ConsumesAt(op: Op, k: nat) {
    op.ApplyTick? && Consumes(op.delta.blockerUpdates, IdOf(k))
  }

  lemma MintedIsNext(n: nat)
    ensures MintId("q-", n + 1) == Str(IdOf(n))
  {
  }

  /** How one committed call moves one blocker. */
  predicate Moves(vs: seq<View>, ws: seq<View>, k: nat, consumes: bool) {
    && Numbered(ws) && |vs| <= |ws|
    && (k < |vs| ==>
          && ws[k].put == vs[k].put
          && (vs[k].answer != Null ==> ws[k].answer == vs[k].answer)
          && ws[k].consumed == (vs[k].consumed || consumes))
    && (consumes ==> k < |vs| && !vs[k].consumed && vs[k].answer != Null)
    && (|vs| <= k < |ws| ==> ws[k].id == Str(IdOf(k)) && ws[k].answer == Null && !ws[k].consumed)
  }

  lemma AskMoves(vs: seq<View>, put: Put, k: nat)
    requires Numbered(vs)
    ensures Moves(vs, vs + [View(Str(IdOf(|vs|)), put, Null, false)], k, false)
  {
  }

  lemma AnswerMoves(vs: seq<View>, i: nat, answer: Json, k: nat)
    requires Numbered(vs) && i < |vs| && vs[i].answer == Null
    ensures Moves(vs, vs[i := vs[i].(answer := answer)], k, false)
  {
  }

  lemma SameMoves(vs: seq<View>, k: nat)
    requires Numbered(vs)
    ensures Moves(vs, vs, k, false)
  {
  }

  lemma BlockerStep(p: Plan, last: int, op: Op, k: nat)
    requires PlanEffect(p, last, op).Commit? && Fair(op) && Numbered(Views(p.blockers))
    ensures Moves(Views(p.blockers), Views(PlanEffect(p, last, op).plan.blockers), k, ConsumesAt(op, k))
  {
    var q, vs := PlanEffect(p, last, op).plan, Views(p.blockers);
    hide PlanEffect, Views, Moves, Numbered, FairTick, Find, Consumes;
    if op.AddBlocker? {
      AddedView(p, last, op);
      MintedIsNext(|p.blockers|);
      ViewAt(p.blockers, 0);
      AskMoves(vs, PutBy(op), k);
    } else if op.AnswerBlocker? {
      AnsweredView(p, last, op);
      var i := Find(p.blockers, Str(op.blocker));
      ViewAt(p.blockers, i);
      AnswerMoves(vs, i, PlanEffect(p, last, op).reply, k);
    } else if op.StampBlockerMetadata? {
      StampedView(p, last, op);
      SameMoves(vs, k);
    } else if op.ApplyTick? {
      TickMoves(p, last, op, k);
    } else {
      OthersKeepBlockers(p, last, op);
      SameMoves(vs, k);
    }
  }

  lemma TickMoves(p: Plan, last: int, op: Op, k: nat)
    requires op.ApplyTick? && FairTick(op.pre, op.delta) && PlanEffect(p, last, op).Commit? && Numbered(Views(p.blockers))
    ensures Moves(Views(p.blockers), Views(PlanEffect(p, last, op).plan.blockers), k,
        Consumes(op.delta.blockerUpdates, IdOf(k)))
  {
    TickViews(p, last, op, k);
    hide PlanEffect, Views, FairTick, Numbered, Consumes, ViewOf;
    ViewAt(p.blockers, k);
    ViewAt(PlanEffect(p, last, op).plan.blockers, k);
  }

  lemma EffectAdvances(p: Plan, last: int, op: Op)
    requires PlanEffect(p, last, op).Commit? && Fair(op) && Numbered(Views(p.blockers))
    ensures Advances(Views(p.blockers), Views(PlanEffect(p, last, op).plan.blockers))
    ensures Numbered(Views(PlanEffect(p, last, op).plan.blockers))
  {
    var vs, ws := Views(p.blockers), Views(PlanEffect(p, last, op).plan.blockers);
    hide PlanEffect, Views, Fair;
    BlockerStep(p, last, op, 0);
    forall k | 0 <= k < |vs|
      ensures ws[k].id == vs[k].id && ws[k].put == vs[k].put
      ensures (vs[k].answer != Null ==> ws[k].answer == vs[k].answer) && (vs[k].consumed ==> ws[k].consumed)
    {
      BlockerStep(p, last, op, k);
    }
  }

  lemma HistoryGrows(p: Plan, last: int, op: Op)
    requires PlanEffect(p, last, op).Commit?
    ensures History(PlanEffect(p, last, op).plan) ==
              if op.ArchiveEvents? then History(p) else History(p) + Stamp(last, EventsOf(p, op))
  {
    EffectLogs(p, last, op);
    hide EventsOf, Stamp;
    if !op.ArchiveEvents? {
      hide PlanEffect;
      Associative(p.archive, p.events, Stamp(last, EventsOf(p, op)));
    }
  }

  /** How many consumptions of one id a committed call logs. */
  lemma LoggedConsumptions(p: Plan, last: int, op: Op, id: string)
    requires PlanEffect(p, last, op).Commit? && Fair(op)
    ensures Consumptions(History(PlanEffect(p, last, op).plan), id) ==
              Consumptions(History(p), id) + (if op.ApplyTick? && Consumes(op.delta.blockerUpdates, id) then 1 else 0)
  {
    var evs := EventsOf(p, op);
    HistoryGrows(p, last, op);
    TickEvents(p, op, id);
    if !op.ApplyTick? && !op.ArchiveEvents? {
      OthersConsumeNothing(p, op);
      NoneCounted(evs, id);
    }
    hide PlanEffect, EventsOf, Fair, Stamp, Consumes, History, NoneConsumed;
    ConsumptionsConcat(History(p), Stamp(last, evs), id);
    StampConsumptions(last, evs, id);
  }

  lemma TickEvents(p: Plan, op: Op, id: string)
    ensures op.ApplyTick? && Fair(op) ==>
              NewConsumptions(EventsOf(p, op), id) == if Consumes(op.delta.blockerUpdates, id) then 1 else 0
  {
    if op.ApplyTick? {
      var evs := op.delta.events;
      if op.delta.claimPhase.None? {
        assert EventsOf(p, op) == evs;
      } else {
        var start := StartedEvent(op.now, op.delta.claimPhase.value, op.minted);
        assert EventsOf(p, op) == evs + [start] && (evs + [start])[..|evs|] == evs;
      }
    }
  }

  lemma EffectKeepsTold(p: Plan, last: int, op: Op)
    requires PlanEffect(p, last, op).Commit? && Fair(op) && Told(p)
    ensures Told(PlanEffect(p, last, op).plan)
  {
    var q := PlanEffect(p, last, op).plan;
    var vs, ws := Views(p.blockers), Views(q.blockers);
    BlockerStep(p, last, op, 0);
    forall k: nat
      ensures Consumptions(History(q), IdOf(k)) == if ConsumedAt(ws, k) then 1 else 0
    {
      BlockerStep(p, last, op, k);
      LoggedConsumptions(p, last, op, IdOf(k));
      hide PlanEffect, Views, Fair, History;
      assert Consumptions(History(p), IdOf(k)) == if ConsumedAt(vs, k) then 1 else 0;
    }
    forall k | 0 <= k < |q.blockers| && ViewOf(q.blockers[k]).consumed
      ensures ViewOf(q.blockers[k]).answer != Null
    {
      BlockerStep(p, last, op, k);
      ViewAt(p.blockers, k);
      ViewAt(q.blockers, k);
    }
  }

  ghost predicate AllTold(db: Db) {
    forall s :: s in db.plans ==> Told(db.plans[s])
  }

  lemma BumpedTold(p: Plan)
    ensures Told(Bumped(p)) <==> Told(p)
  {
    assert History(Bumped(p)) == History(p);
  }

  lemma CreatedTold(last: int, doc: NewPlan)
    requires doc.blockers == [] && NoneConsumed(doc.events) && CreateEffect(last, doc).Commit?
    ensures Told(CreateEffect(last, doc).plan)
  {
    var q := CreateEffect(last, doc).plan;
    CreatedParts(last, doc);
    assert [] + Stamp(last, doc.events) == Stamp(last, doc.events);
    forall k: nat
      ensures Consumptions(History(q), IdOf(k)) == 0
    {
      StampConsumptions(last, doc.events, IdOf(k));
      NoneCounted(doc.events, IdOf(k));
    }
  }

  lemma CreatedParts(last: int, doc: NewPlan)
    requires doc.blockers == [] && CreateEffect(last, doc).Commit?
    ensures var q := CreateEffect(last, doc).plan;
            q.blockers == [] && q.archive == [] && q.events == Stamp(last, doc.events)
  {
    assert [] + Stamp(last, doc.events) == Stamp(last, doc.events);
  }

  lemma StepKeepsTold(db: Db, c: Call)
    requires AllTold(db) && Fair(c.op)
    ensures AllTold(After(db, c))
  {
    if Commits(db, c) {
      if c.op.Create? {
        CreatedTold(db.last, c.op.doc);
        hide Told, CreateEffect;
      } else {
        BumpedTold(db.plans[c.slug]);
        EffectKeepsTold(Bumped(db.plans[c.slug]), db.last, c.op);
        hide Told, PlanEffect;
      }
    }
  }

  /** In every reachable state, for every plan: ids are q-1 to q-n in order, a
      consumed blocker was answered, and the log holds exactly one consumption
      for each consumed blocker and none for any other - however many ticks
      race to consume it. */
  lemma {:induction false} EachAnswerIsConsumedOnce(db: Db, calls: seq<Call>)
    requires AllTold(db) && FairRun(calls)
    ensures AllTold(Run(db, calls))
    decreases |calls|
  {
    if calls != [] {
      StepKeepsTold(db, calls[0]);
      hide AllTold, Fair;
      EachAnswerIsConsumedOnce(After(db, calls[0]), calls[1..]);
    }
  }

  lemma StepAdvances(db: Db, c: Call, slug: string)
    requires AllTold(db) && Fair(c.op) && slug in db.plans
    ensures slug in After(db, c).plans
    ensures Advances(Views(db.plans[slug].blockers), Views(After(db, c).plans[slug].blockers))
  {
    if Commits(db, c) && c.slug == slug && !c.op.Create? {
      assert Told(db.plans[slug]);
      EffectAdvances(Bumped(db.plans[slug]), db.last, c.op);
    }
    hide PlanEffect, CreateEffect, Told;
  }

  /** An answer is written at most once and never changes; ids and questions as
      they were put - phase, type, text, options, context, time - never move. */
  lemma {:induction false} AnswersNeverChange(db: Db, calls: seq<Call>, slug: string)
    requires AllTold(db) && FairRun(calls) && slug in db.plans
    ensures slug in Run(db, calls).plans
    ensures Advances(Views(db.plans[slug].blockers), Views(Run(db, calls).plans[slug].blockers))
    decreases |calls|
  {
    if calls != [] {
      StepAdvances(db, calls[0], slug);
      StepKeepsTold(db, calls[0]);
      hide AllTold, Fair, Views;
      AnswersNeverChange(After(db, calls[0]), calls[1..], slug);
    }
  }

  /** The minted id is always free: recording a blocker never collides. */
  lemma BlockerIdNeverCollides(p: Plan, last: int, op: Op)
    requires op.AddBlocker? && Numbered(Views(p.blockers))
    ensures PlanEffect(p, last, op) != Raise(IntegrityError)
    ensures PlanEffect(p, last, op).Commit? <==> MaybeReleased(p, op.releaseToken, op.releasePhase).Ok?
  {
    FindNumbered(p.blockers, |p.blockers|);
    MintedIsNext(|p.blockers|);
  }

  /** `clu block` releases the claim and records the question in one step:
      after it, either nothing changed, or the claim is gone and the last
      blocker is the question asked, open, with its event in the log. */
  lemma BlockReleasesWithItsQuestion(db: Db, slug: string, op: Op)
    requires op.AddBlocker? && op.releaseToken.Some? && op.releasePhase.Some? && slug in db.plans && AcceptedSlug(slug)
    requires Numbered(Views(db.plans[slug].blockers))
    ensures var o, p := Step(db, slug, op), db.plans[slug];
            if !Holds(p, op.releaseToken.value, op.releasePhase) then o == Outcome(db, Err(ClaimMismatch))
            else
              var q := o.db.plans[slug];
              && o.result == Ok(Str(IdOf(|p.blockers|))) && q.claim.None?
              && q.blockers == p.blockers + [NormalBlocker(Asked(p, op))]
              && History(q) == History(p) + Stamp(db.last,
                [BlockedEvent(op.ts, op.phase, Str(IdOf(|p.blockers|)), op.question)])
  {
    var p := Bumped(db.plans[slug]);
    BlockerIdNeverCollides(p, db.last, op);
    MintedIsNext(|p.blockers|);
    if Holds(p, op.releaseToken.value, op.releasePhase) {
      AddedRow(p, db.last, op);
      AddBlockerAppends(p, db.last, op);
      BlockClears(p, db.last, op);
      hide FreshBlocker, NormalBlocker, Stamp, Collides, AddBlockerEffect;
      Associative(p.archive, p.events, Stamp(db.last, [BlockedEvent(op.ts, op.phase, Str(IdOf(|p.blockers|)), op.question)]));
    }
  }

  lemma BlockClears(p: Plan, last: int, op: Op)
    requires op.AddBlocker? && op.releaseToken.Some? && PlanEffect(p, last, op).Commit?
    ensures PlanEffect(p, last, op).plan.claim.None?
  {
    hide FreshBlocker, NormalBlocker, Stamp, MintId, BlockedEvent, Collides, Holds;
  }

  // ----- the tick that consumes -----------------------------------------------------------------

  predicate Ready(b: Doc) {
    Get(b, Answer) != Null && !Truthy(Get(b, Consumed))
  }

  /** The answered blockers nobody has consumed, in order. */
  function ReadyIds(bs: seq<Doc>): seq<Json> {
    if bs == [] then []
    else
      var b := bs[|bs| - 1];
      ReadyIds(bs[..|bs| - 1]) + (if Ready(b) then [Get(b, Id)] else [])
  }

  method ProcessAnsweredBlockers(bs: seq<Doc>) returns (consumed: seq<Json>, resumes: bool)
    ensures consumed == ReadyIds(bs)
    ensures resumes <==> exists i :: 0 <= i < |bs| && Get(bs[i], Answer) != Null && !Truthy(Get(bs[i], Consumed))
  {
    consumed := [];
    resumes := false;
    for i := 0 to |bs|
      invariant consumed == ReadyIds(bs[..i])
      invariant resumes <==> consumed != []
      invariant resumes <==> exists j :: 0 <= j < i && Ready(bs[j])
    {
      assert bs[..i + 1][..i] == bs[..i];
      if Get(bs[i], Answer) == Null { continue; }
      if Truthy(Get(bs[i], Consumed)) { continue; }
      consumed := consumed + [Get(bs[i], Id)];
      resumes := true;
    }
    assert bs[..|bs|] == bs;
  }

  /** Their names, in a plan whose blockers are numbered. */
  function ReadyNames(bs: seq<Doc>): seq<string> {
    if bs == [] then []
    else ReadyNames(bs[..|bs| - 1]) + (if Ready(bs[|bs| - 1]) then [IdOf(|bs| - 1)] else [])
  }

  function AsJson(names: seq<string>): seq<Json> {
    seq(|names|, i requires 0 <= i < |names| => Str(names[i]))
  }

  lemma {:induction false} NamesAreIds(bs: seq<Doc>)
    requires Numbered(Views(bs))
    ensures ReadyIds(bs) == AsJson(ReadyNames(bs))
  {
    if bs != [] {
      var init := bs[..|bs| - 1];
      ViewsSnoc(init, bs[|bs| - 1]);
      assert bs == init + [bs[|bs| - 1]];
      assert Views(bs)[|bs| - 1].id == Str(IdOf(|bs| - 1));
      assert Numbered(Views(init)) by {
        forall k | 0 <= k < |init|
          ensures Views(init)[k].id == Str(IdOf(k))
        {
          assert Views(bs)[k].id == Str(IdOf(k));
        }
      }
      NamesAreIds(init);
    }
  }

  lemma {:induction false} NamesAre(bs: seq<Doc>, k: nat)
    ensures IdOf(k) in ReadyNames(bs) <==> k < |bs| && Ready(bs[k])
  {
    if bs != [] {
      var n := |bs| - 1;
      NamesAre(bs[..n], k);
      if IdOf(k) == IdOf(n) { IdsDiffer(k, n); }
      hide IdOf, Ready;
    }
  }

  lemma {:induction false} NamesDiffer(bs: seq<Doc>)
    ensures forall i, j :: 0 <= i < j < |ReadyNames(bs)| ==> ReadyNames(bs)[i] != ReadyNames(bs)[j]
  {
    if bs != [] {
      var n := |bs| - 1;
      NamesDiffer(bs[..n]);
      NamesAre(bs[..n], n);
      hide IdOf, Ready;
    }
  }

  /** The delta a tick builds from the answered blockers it saw. */
  function ConsumeUpdates(names: seq<string>): seq<(string, Doc)> {
    seq(|names|, i requires 0 <= i < |names| => (names[i], map[Consumed := Bool(true)]))
  }

  function ConsumeEvents(names: seq<string>, ts: int): seq<NewEvent> {
    seq(|names|, i requires 0 <= i < |names| => NewEvent(ts, BlockerConsumed, map[BlockerId := Str(names[i])]))
  }

  function ConsumeDelta(names: seq<string>, ts: int): TickDelta {
    TickDelta(map[], None, ConsumeUpdates(names), false, Some("running"), ConsumeEvents(names, ts), None, 0, None)
  }

  function ConsumePre(names: seq<string>, status: Json): TickPreconditions {
    TickPreconditions(Unchecked, None, map[], map id | id in names :: (false, false), status)
  }

  lemma {:induction false} EventPerName(names: seq<string>, ts: int, id: string)
    requires forall i, j :: 0 <= i < j < |names| ==> names[i] != names[j]
    ensures NewConsumptions(ConsumeEvents(names, ts), id) == if id in names then 1 else 0
  {
    if names != [] {
      var n := |names| - 1;
      assert ConsumeEvents(names, ts)[..n] == ConsumeEvents(names[..n], ts);
      EventPerName(names[..n], ts, id);
      assert names == names[..n] + [names[n]];
      assert names[n] !in names[..n];
    }
  }

  lemma ConsumesNames(names: seq<string>, id: string)
    ensures Consumes(ConsumeUpdates(names), id) <==> id in names
  {
    if id in names {
      var i :| 0 <= i < |names| && names[i] == id;
      assert ConsumeUpdates(names)[i] == (id, map[Consumed := Bool(true)]);
    }
  }

  /** Consuming rows that are there never fails. */
  lemma {:induction false} ConsumptionsGoIn(bs: seq<Doc>, names: seq<string>)
    requires Numbered(Views(bs)) && forall i :: 0 <= i < |names| ==> NamesRow(names[i], |bs|)
    ensures UpdateBlockers(bs, ConsumeUpdates(names)).Ok?
    decreases |names|
  {
    if names != [] {
      var updates := ConsumeUpdates(names);
      assert updates[0] == (names[0], map[Consumed := Bool(true)]) && updates[1..] == ConsumeUpdates(names[1..]);
      var next := OneConsumption(bs, names[0]);
      hide UpdateBlocker, Numbered, Views, NamesRow, ConsumeUpdates;
      ConsumptionsGoIn(next, names[1..]);
    }
  }

  lemma OneConsumption(bs: seq<Doc>, name: string) returns (next: seq<Doc>)
    requires Numbered(Views(bs)) && NamesRow(name, |bs|)
    ensures UpdateBlocker(bs, name, map[Consumed := Bool(true)]) == Ok(next)
    ensures Numbered(Views(next)) && |next| == |bs|
  {
    var k :| 0 <= k < |bs| && name == IdOf(k);
    FindNumbered(bs, k);
    assert Consumed in map[Consumed := Bool(true)];
    assert KnownFields(map[Consumed := Bool(true)]);
    hide NormalBlocker, IdOf, Find;
    next := UpdateBlocker(bs, name, map[Consumed := Bool(true)]).value;
    UpdateConsumes(bs, name, map[Consumed := Bool(true)], k);
    hide UpdateBlocker, ViewOf;
  }

  predicate NamesRow(name: string, n: nat) {
    exists k :: 0 <= k < n && name == IdOf(k)
  }

  lemma {:induction false} NamesAreRows(bs: seq<Doc>, n: nat)
    requires |bs| <= n
    ensures forall i :: 0 <= i < |ReadyNames(bs)| ==> NamesRow(ReadyNames(bs)[i], n)
  {
    if bs != [] {
      var m := |bs| - 1;
      NamesAreRows(bs[..m], n);
      assert NamesRow(IdOf(m), n);
      hide IdOf, Ready, NamesRow;
    }
  }

  /** No blocker the tick saw ready was consumed in the meantime. */
  predicate StillUnconsumed(p: Plan, q: Plan)
    requires |p.blockers| <= |q.blockers|
  {
    forall k :: 0 <= k < |p.blockers| && Ready(p.blockers[k]) ==> !ViewOf(q.blockers[k]).consumed
  }

  lemma StateOf(q: Plan, k: nat)
    requires Numbered(Views(q.blockers)) && k < |q.blockers|
    ensures BlockerState(q, IdOf(k)) == Some((ViewOf(q.blockers[k]).answer == Null, ViewOf(q.blockers[k]).consumed))
  {
    FindNumbered(q.blockers, k);
  }

  lemma ReadyThen(p: Plan, q: Plan, k: nat)
    requires Advances(Views(p.blockers), Views(q.blockers)) && k < |p.blockers| && Ready(p.blockers[k])
    ensures k < |q.blockers| && ViewOf(q.blockers[k]).answer != Null
  {
    ViewAt(p.blockers, k);
    ViewAt(q.blockers, k);
  }

  lemma ConsumePreHolds(p: Plan, q: Plan, status: Json)
    requires Numbered(Views(p.blockers)) && Numbered(Views(q.blockers)) && Advances(Views(p.blockers), Views(q.blockers))
    ensures |p.blockers| <= |q.blockers|
    ensures Preconditions(q, ConsumePre(ReadyNames(p.blockers), status))
            <==> (status == Null || Get(q.head, Status) == status) && StillUnconsumed(p, q)
  {
    var names := ReadyNames(p.blockers);
    ViewAt(p.blockers, 0);
    ViewAt(q.blockers, 0);
    NamesAreRows(p.blockers, |p.blockers|);
    hide IdOf, Ready, ViewOf, BlockerState, Views, Numbered, Advances, ReadyNames;
    forall id | id in names
      ensures BlockerState(q, id) == Some((false, false)) <==> NotConsumed(q, id)
      ensures StillUnconsumed(p, q) ==> NotConsumed(q, id)
    {
      var i :| 0 <= i < |names| && names[i] == id;
      var k :| 0 <= k < |p.blockers| && names[i] == IdOf(k);
      NamesAre(p.blockers, k);
      ReadyThen(p, q, k);
      StateOf(q, k);
    }
    forall k | 0 <= k < |p.blockers| && Ready(p.blockers[k])
      ensures IdOf(k) in names
      ensures NotConsumed(q, IdOf(k)) ==> !ViewOf(q.blockers[k]).consumed
    {
      NamesAre(p.blockers, k);
      StateOf(q, k);
    }
  }

  predicate NotConsumed(q: Plan, id: string) {
    BlockerState(q, id).Some? && !BlockerState(q, id).value.1
  }

  lemma ConsumeCommits(p: Plan, q: Plan, last: int, op: Op, ts: int, status: Json)
    requires Numbered(Views(p.blockers)) && Numbered(Views(q.blockers)) && Advances(Views(p.blockers), Views(q.blockers))
    requires op.ApplyTick? && op.pre == ConsumePre(ReadyNames(p.blockers), status)
    requires op.delta == ConsumeDelta(ReadyNames(p.blockers), ts)
    ensures |p.blockers| <= |q.blockers|
    ensures PlanEffect(q, last, op).Commit? <==> (status == Null || Get(q.head, Status) == status) && StillUnconsumed(p, q)
  {
    ConsumePreHolds(p, q, status);
    NamesAreRows(p.blockers, |q.blockers|);
    ConsumptionsGoIn(q.blockers, ReadyNames(p.blockers));
    hide Preconditions, UpdateBlockers, ConsumeUpdates, ConsumeEvents, ConsumePre, ReadyNames, Views, Numbered, Advances,
         StillUnconsumed, Stamp;
  }

  lemma ConsumeIsFair(bs: seq<Doc>, ts: int, status: Json, now: int, minted: string)
    ensures var names := ReadyNames(bs);
            Fair(ApplyTick(ConsumePre(names, status), ConsumeDelta(names, ts), now, minted))
  {
    var names := ReadyNames(bs);
    var op := ApplyTick(ConsumePre(names, status), ConsumeDelta(names, ts), now, minted);
    NamesDiffer(bs);
    forall id: string
      ensures NewConsumptions(op.delta.events, id) == if Consumes(op.delta.blockerUpdates, id) then 1 else 0
    {
      EventPerName(names, ts, id);
      ConsumesNames(names, id);
    }
    assert FairTick(op.pre, op.delta);
  }

  /** The tick that consumes, decided on a snapshot `p` and applied to a later
      state `q`. Its delta names the blockers the scan returned and keeps to the
      discipline the life cycle rests on. It commits exactly when the status is
      the one judged and none of those blockers was consumed meanwhile, and it
      then consumes exactly them: a blocker answered in between stays ready for
      the next tick. */
  lemma ConsumingTickTakesWhatItSaw(p: Plan, q: Plan, last: int, ts: int, status: Json, now: int, minted: string)
    requires Numbered(Views(p.blockers)) && Numbered(Views(q.blockers)) && Advances(Views(p.blockers), Views(q.blockers))
    ensures |p.blockers| <= |q.blockers|
    ensures var names := ReadyNames(p.blockers);
            var op := ApplyTick(ConsumePre(names, status), ConsumeDelta(names, ts), now, minted);
            var e := PlanEffect(q, last, op);
            && Fair(op) && ReadyIds(p.blockers) == AsJson(names)
            && (e.Commit? <==> (status == Null || Get(q.head, Status) == status) && StillUnconsumed(p, q))
            && (e.Commit? ==>
                  && |e.plan.blockers| == |q.blockers|
                  && forall k :: 0 <= k < |q.blockers| ==>
                       (Ready(e.plan.blockers[k]) <==> Ready(q.blockers[k]) && !(k < |p.blockers| && Ready(p.blockers[k]))))
  {
    var names := ReadyNames(p.blockers);
    var op := ApplyTick(ConsumePre(names, status), ConsumeDelta(names, ts), now, minted);
    NamesAreIds(p.blockers);
    ConsumeIsFair(p.blockers, ts, status, now, minted);
    ConsumeCommits(p, q, last, op, ts, status);
    var e := PlanEffect(q, last, op);
    hide PlanEffect, Preconditions, StillUnconsumed, ReadyNames, ReadyIds, AsJson, Numbered, Views, Advances, ConsumeEvents,
         NewConsumptions;
    if e.Commit? {
      TickViews(q, last, op, 0);
      forall k | 0 <= k < |q.blockers|
        ensures Ready(e.plan.blockers[k]) <==> Ready(q.blockers[k]) && !(k < |p.blockers| && Ready(p.blockers[k]))
      {
        TickViews(q, last, op, k);
        NamesAre(p.blockers, k);
        ConsumesNames(names, IdOf(k));
      }
    }
  }

  /** The same over runs: whatever fair calls land between the snapshot and the
      apply, the tick commits exactly under that condition, consumes exactly
      what it saw, and leaves exactly the later answers ready. */
  lemma ConsumingTickInRun(db: Db, between: seq<Call>, slug: string, ts: int, status: Json, now: int, minted: string)
    requires AllTold(db) && FairRun(between) && slug in db.plans && AcceptedSlug(slug)
    ensures slug in Run(db, between).plans
    ensures |db.plans[slug].blockers| <= |Run(db, between).plans[slug].blockers|
    ensures var p, q := db.plans[slug], Run(db, between).plans[slug];
            var names := ReadyNames(p.blockers);
            var o := Step(Run(db, between), slug, ApplyTick(ConsumePre(names, status), ConsumeDelta(names, ts), now, minted));
            && (o.result.Ok? <==> (status == Null || Get(q.head, Status) == status) && StillUnconsumed(p, q))
            && (o.result.Ok? ==>
                  && slug in o.db.plans && |o.db.plans[slug].blockers| == |q.blockers|
                  && forall k :: 0 <= k < |q.blockers| ==>
                       (Ready(o.db.plans[slug].blockers[k]) <==>
                          Ready(q.blockers[k]) && !(k < |p.blockers| && Ready(p.blockers[k]))))
  {
    AnswersNeverChange(db, between, slug);
    EachAnswerIsConsumedOnce(db, between);
    var p, q := db.plans[slug], Run(db, between).plans[slug];
    assert Told(p) && Told(q);
    hide Run, AllTold, FairRun, PlanEffect, Ready, ReadyNames, ConsumePre, ConsumeDelta, Views, Numbered, Advances;
    ConsumingTickTakesWhatItSaw(p, Bumped(q), Run(db, between).last, ts, status, now, minted);
  }
}
