/** The supervisor tick is not one transaction: it snapshots, decides holding
    nothing, then applies under re-asserted preconditions. Here that is proved
    to be as good as deciding and applying in one step. */
module Ticks {
  import opened Values
  import opened PlanDoc
  import opened PlanOps
  import opened EventLog

  // ----- what a decision reads ------------------------------------------------------

  /** The facts a decision declares it read, one flag or name set per entry of
      the precondition vocabulary. */
  datatype Names = Names(claim: bool, log: bool, fields: set<Key>, blockers: set<string>, status: bool)

  /** What those facts are in a given state. Declaring the event log covers
      its whole content, not only its high-water mark. */
  datatype Facts = Facts(
    claim: Option<Option<(Json, Json)>>, log: Option<seq<Event>>, fields: Doc,
    blockers: map<string, Option<(bool, bool)>>, status: Option<Json>)

  type Decision = Facts -> TickDelta

  function ClaimDoc(p: Plan): Doc {
    if p.claim.Some? then p.claim.value else map[]
  }

  function FactsAt(p: Plan, n: Names): Facts {
    Facts(if n.claim then Some(ClaimIdentity(p)) else None,
          if n.log then Some(p.events) else None,
          map k | k in n.fields :: Get(ClaimDoc(p), k),
          map id | id in n.blockers :: BlockerState(p, id),
          if n.status then Some(Get(p.head, Status)) else None)
  }

  /** The preconditions the snapshot hands over for the declared names. */
  function PreFor(p: Plan, n: Names): TickPreconditions {
    TickPreconditions(
      if n.claim then Expected(ClaimIdentity(p)) else Unchecked,
      if n.log then Some(MaxId(p.events)) else None,
      map k | k in n.fields :: Get(ClaimDoc(p), k),
      map id | id in n.blockers && BlockerState(p, id).Some? :: BlockerState(p, id).value,
      if n.status then Get(p.head, Status) else Null)
  }

  /** Every declared blocker was there to be seen, and the status is not null:
      declaring a missing blocker, or a null status, declares nothing. */
  predicate Grounded(p: Plan, n: Names) {
    && (forall id :: id in n.blockers ==> BlockerState(p, id).Some?)
    && (n.status ==> Get(p.head, Status) != Null)
  }

  lemma FieldsHoldIffUnchanged(p: Plan, q: Plan, names: set<Key>)
    ensures var seen := map k | k in names :: Get(ClaimDoc(p), k);
            ClaimFieldsHold(q, seen)
            <==> (map k | k in names :: Get(ClaimDoc(q), k)) == seen && (names != {} ==> q.claim.Some?)
  {
    var seen := map k | k in names :: Get(ClaimDoc(p), k);
    var now := map k | k in names :: Get(ClaimDoc(q), k);
    assert seen.Keys == names == now.Keys;
    if now == seen {
      assert forall k :: k in seen ==> now[k] == seen[k];
    }
  }

  function BlockerFacts(p: Plan, ids: set<string>): map<string, Option<(bool, bool)>> {
    map id | id in ids :: BlockerState(p, id)
  }

  lemma BlockersHoldIffUnchanged(p: Plan, q: Plan, n: Names)
    requires Grounded(p, n)
    ensures var seen := PreFor(p, n).expectBlockerState;
            (forall id :: id in seen ==> BlockerState(q, id) == Some(seen[id]))
            <==> BlockerFacts(q, n.blockers) == BlockerFacts(p, n.blockers)
  {
    var seen := PreFor(p, n).expectBlockerState;
    assert seen.Keys == n.blockers;
    AgreeIff(BlockerFacts(p, n.blockers), BlockerFacts(q, n.blockers), seen);
  }

  lemma AgreeIff(before: map<string, Option<(bool, bool)>>, now: map<string, Option<(bool, bool)>>,
          seen: map<string, (bool, bool)>)
    requires before.Keys == now.Keys == seen.Keys
    requires forall id :: id in seen ==> before[id] == Some(seen[id])
    ensures (forall id :: id in seen ==> now[id] == Some(seen[id])) <==> now == before
  {
    if now == before {
      assert forall id :: id in seen ==> now[id] == before[id];
    }
  }

  /** Preconditions taken from a grounded snapshot hold of a later state
      exactly when every declared fact, the whole hot log included, is what
      the snapshot saw. */
  lemma HoldsIffFactsUnchanged(p: Plan, q: Plan, n: Names, last: int, last': int)
    requires Follows(p, q) && Logged(p, last) && Logged(q, last')
    requires Grounded(p, n)
    ensures Preconditions(q, PreFor(p, n)) <==> FactsAt(q, n) == FactsAt(p, n) && (n.fields != {} ==> q.claim.Some?)
  {
    SameHighWaterSameLog(p, q, last, last');
    FieldsHoldIffUnchanged(p, q, n.fields);
    BlockersHoldIffUnchanged(p, q, n);
    assert FactsAt(p, n).blockers == BlockerFacts(p, n.blockers);
    assert FactsAt(q, n).blockers == BlockerFacts(q, n.blockers);
  }

  /** Fields of an absent claim: no state without a claim passes, the snapshot's
      own state included, and a state with one passes exactly when the named
      fields read null there too. Declared beside the absence itself, nothing
      passes. */
  lemma AbsentClaimFieldsAbort(p: Plan, q: Plan, n: Names)
    requires p.claim.None? && n.fields != {}
    ensures q.claim.None? ==> !Preconditions(q, PreFor(p, n))
    ensures ClaimFieldsHold(q, PreFor(p, n).expectClaimFields)
            <==> q.claim.Some? && forall k :: k in n.fields ==> Get(q.claim.value, k) == Null
    ensures n.claim ==> !Preconditions(q, PreFor(p, n))
  {
    var seen := PreFor(p, n).expectClaimFields;
    assert seen.Keys == n.fields;
    assert forall k :: k in n.fields ==> seen[k] == Null;
  }

  /** A snapshot whose declarations no state can meet at once. */
  predicate SelfContradictory(p: Plan, n: Names) {
    p.claim.None? && n.claim && n.fields != {}
  }

  /** A state that shows every claim fact as the snapshot did. */
  function WithReadableClaim(p: Plan, n: Names): Plan {
    if p.claim.None? && n.fields != {} then p.(claim := Some(map[])) else p
  }

  lemma SameFields(p: Plan, q: Plan, n: Names)
    requires ClaimDoc(q) == ClaimDoc(p)
    ensures FactsAt(q, n).fields == FactsAt(p, n).fields
    ensures PreFor(q, n).expectClaimFields == PreFor(p, n).expectClaimFields
  {
  }

  lemma SameBlockerStates(p: Plan, q: Plan, n: Names)
    requires q.blockers == p.blockers
    ensures FactsAt(q, n).blockers == FactsAt(p, n).blockers
    ensures PreFor(q, n).expectBlockerState == PreFor(p, n).expectBlockerState
  {
    assert forall id :: BlockerState(q, id) == BlockerState(p, id);
    hide BlockerState, Get, MaxId, ClaimIdentity;
  }

  lemma ReadableClaim(p: Plan, n: Names)
    requires !SelfContradictory(p, n)
    ensures var q := WithReadableClaim(p, n);
            FactsAt(q, n) == FactsAt(p, n) && PreFor(q, n) == PreFor(p, n) && (n.fields != {} ==> q.claim.Some?)
  {
    var q := WithReadableClaim(p, n);
    SameFields(p, q, n);
    SameBlockerStates(p, q, n);
    hide ClaimDoc, BlockerState, Get, MaxId;
  }

  /** Without grounding the guarantee is lost, unless nothing can pass at all:
      some state with the same log passes every precondition yet shows the
      decision other facts. */
  lemma GroundingIsNeeded(p: Plan, n: Names) returns (q: Plan)
    requires !Grounded(p, n) && !SelfContradictory(p, n)
    ensures q.events == p.events && q.archive == p.archive
    ensures Preconditions(q, PreFor(p, n)) && FactsAt(q, n) != FactsAt(p, n)
  {
    var r := WithReadableClaim(p, n);
    ReadableClaim(p, n);
    assert forall id :: BlockerState(r, id) == BlockerState(p, id);
    if id :| id in n.blockers && BlockerState(p, id).None? {
      q := UnseenBlockerAppears(r, n, id);
    } else {
      q := r.(head := r.head[Status := Str("running")]);
      assert FactsAt(q, n).status != FactsAt(r, n).status;
    }
  }

  lemma UnseenBlockerAppears(p: Plan, n: Names, id: string) returns (q: Plan)
    requires id in n.blockers && BlockerState(p, id).None? && (n.fields != {} ==> p.claim.Some?)
    ensures q.events == p.events && q.archive == p.archive
    ensures Preconditions(q, PreFor(p, n)) && FactsAt(q, n) != FactsAt(p, n)
  {
    var d: Doc := map[Id := Str(id)];
    q := p.(blockers := p.blockers + [d]);
    AppendedIsFound(p.blockers, d, Str(id));
    forall other | other in n.blockers && BlockerState(p, other).Some?
      ensures BlockerState(q, other) == BlockerState(p, other)
    {
      FoundStays(p.blockers, d, Str(other));
    }
    assert BlockerFacts(q, n.blockers)[id].Some? && BlockerFacts(p, n.blockers)[id].None?;
    assert FactsAt(q, n).blockers == BlockerFacts(q, n.blockers);
    assert FactsAt(p, n).blockers == BlockerFacts(p, n.blockers);
  }

  lemma {:induction false} AppendedIsFound(docs: seq<Doc>, d: Doc, id: Json)
    requires Get(d, Id) == id && Find(docs, id) == |docs|
    ensures Find(docs + [d], id) == |docs|
  {
    var i := Find(docs + [d], id);
    assert (docs + [d])[|docs|] == d;
    assert forall j :: 0 <= j < |docs| ==> (docs + [d])[j] == docs[j];
  }

  lemma {:induction false} FoundStays(docs: seq<Doc>, d: Doc, id: Json)
    requires Find(docs, id) < |docs|
    ensures Find(docs + [d], id) == Find(docs, id)
  {
    var i := Find(docs, id);
    assert forall j :: 0 <= j < |docs| ==> (docs + [d])[j] == docs[j];
    assert Find(docs + [d], id) <= i;
  }

  // ----- ticks as processes ---------------------------------------------------------------

  /** How a tick chooses what to read. */
  type Choice = Plan -> Names

  /** A choice that looks only at what it reads: wherever those facts are the
      same, so is the choice. Fixed names are the simplest case. */
  ghost predicate SelfReading(choose: Choice) {
    forall p, q :: FactsAt(q, choose(p)) == FactsAt(p, choose(p)) ==> choose(q) == choose(p)
  }

  /** A tick in flight: the plan it saw, how it chose the facts to read there,
      and what it will decide from them. */
  datatype Pending = Pending(slug: string, choose: Choice, at: Plan, decide: Decision)

  /** One move of an interleaved schedule. */
  datatype Move =
    | Exec(call: Call)
    | Snapshot(tid: nat, slug: string, choose: Choice, decide: Decision)
    | Finish(tid: nat, now: int, minted: string)

  datatype Sys = Sys(db: Db, pending: map<nat, Pending>)

  /** A tick that decided nothing opens no transaction. */
  predicate EmptyDelta(d: TickDelta) {
    && d.events == [] && d.claimUpdates == map[] && d.blockerUpdates == []
    && !d.releaseClaim && d.status.None? && d.claimPhase.None?
  }

  function TickCall(slug: string, seen: Plan, names: Names, decide: Decision, now: int, minted: string): Call {
    Call(slug, ApplyTick(PreFor(seen, names), decide(FactsAt(seen, names)), now, minted))
  }

  function FinishCall(t: Pending, now: int, minted: string): Call {
    TickCall(t.slug, t.at, t.choose(t.at), t.decide, now, minted)
  }

  predicate FinishCommits(s: Sys, m: Move)
    requires m.Finish?
  {
    && m.tid in s.pending
    && var c := FinishCall(s.pending[m.tid], m.now, m.minted);
       !EmptyDelta(c.op.delta) && Commits(s.db, c)
  }

  function Next(s: Sys, m: Move): Sys {
    match m
    case Exec(call) => s.(db := After(s.db, call))
    case Snapshot(tid, slug, choose, decide) =>
      if slug !in s.db.plans then s
      else s.(pending := s.pending[tid := Pending(slug, choose, s.db.plans[slug], decide)])
    case Finish(tid, now, minted) =>
      if tid !in s.pending then s
      else
        var c := FinishCall(s.pending[tid], now, minted);
        Sys(if EmptyDelta(c.op.delta) then s.db else After(s.db, c), s.pending - {tid})
  }

  function RunMoves(s: Sys, ms: seq<Move>): Sys
    decreases |ms|
  {
    if ms == [] then s else RunMoves(Next(s, ms[0]), ms[1..])
  }

  /** Every snapshot of the schedule declares only what it could see, chosen by
      what it read. */
  ghost predicate GroundedSchedule(s: Sys, ms: seq<Move>)
    decreases |ms|
  {
    ms == [] ||
    (&& (ms[0].Snapshot? && ms[0].slug in s.db.plans ==>
           var at := s.db.plans[ms[0].slug];
           Grounded(at, ms[0].choose(at)) && SelfReading(ms[0].choose))
     && GroundedSchedule(Next(s, ms[0]), ms[1..]))
  }

  // ----- the serial execution ----------------------------------------------------------------

  /** A call, or a whole tick that snapshots, chooses what to read, decides and
      applies in one step. */
  datatype SerialMove =
    | Plain(call: Call)
    | WholeTick(slug: string, choose: Choice, decide: Decision, now: int, minted: string)

  function SerialNext(db: Db, m: SerialMove): Db {
    match m
    case Plain(call) => After(db, call)
    case WholeTick(slug, choose, decide, now, minted) =>
      if slug !in db.plans then db
      else After(db, TickCall(slug, db.plans[slug], choose(db.plans[slug]), decide, now, minted))
  }

  function RunSerial(db: Db, ms: seq<SerialMove>): Db
    decreases |ms|
  {
    if ms == [] then db else RunSerial(SerialNext(db, ms[0]), ms[1..])
  }

  /** The serial order of a schedule: each tick at the moment it commits, the
      ones that raise nowhere at all. */
  function SerialOrder(s: Sys, ms: seq<Move>): seq<SerialMove>
    decreases |ms|
  {
    if ms == [] then []
    else
      var rest := SerialOrder(Next(s, ms[0]), ms[1..]);
      match ms[0]
      case Exec(call) => [Plain(call)] + rest
      case Snapshot(_, _, _, _) => rest
      case Finish(tid, now, minted) =>
        if FinishCommits(s, ms[0])
        then [WholeTick(s.pending[tid].slug, s.pending[tid].choose, s.pending[tid].decide, now, minted)] + rest
        else rest
  }

  /** What every reachable system keeps: each pending tick saw an earlier
      state of its plan. */
  ghost predicate Coherent(s: Sys) {
    && WellLogged(s.db)
    && forall tid :: tid in s.pending ==>
         var t := s.pending[tid];
         && t.slug in s.db.plans && Grounded(t.at, t.choose(t.at)) && SelfReading(t.choose)
         && Logged(t.at, s.db.last) && Follows(t.at, s.db.plans[t.slug])
  }

  lemma LoggedGrows(p: Plan, last: int, last': int)
    requires Logged(p, last) && last <= last'
    ensures Logged(p, last')
  {
  }

  lemma CallKeepsCoherent(s: Sys, c: Call)
    requires Coherent(s)
    ensures Coherent(s.(db := After(s.db, c)))
  {
    StepFollows(s.db, c);
    var db' := After(s.db, c);
    forall tid | tid in s.pending
      ensures s.pending[tid].slug in db'.plans
      ensures Logged(s.pending[tid].at, db'.last) && Follows(s.pending[tid].at, db'.plans[s.pending[tid].slug])
    {
      var t := s.pending[tid];
      LoggedGrows(t.at, s.db.last, db'.last);
      FollowsTransitive(t.at, s.db.plans[t.slug], db'.plans[t.slug]);
    }
  }

  lemma NextKeepsCoherent(s: Sys, m: Move)
    requires Coherent(s) && GroundedSchedule(s, [m])
    ensures Coherent(Next(s, m))
  {
    match m {
      case Exec(call) => CallKeepsCoherent(s, call);
      case Snapshot(_, _, _, _) =>
      case Finish(tid, now, minted) =>
        if tid in s.pending {
          CallKeepsCoherent(s, FinishCall(s.pending[tid], now, minted));
        }
    }
  }

  lemma FailedCallChangesNothing(db: Db, c: Call)
    requires !Commits(db, c)
    ensures After(db, c) == db
  {
  }

  lemma SameFactsGrounded(p: Plan, q: Plan, n: Names)
    requires Grounded(p, n) && FactsAt(q, n) == FactsAt(p, n)
    ensures Grounded(q, n)
  {
    forall id | id in n.blockers
      ensures BlockerState(q, id).Some?
    {
      assert FactsAt(q, n).blockers[id] == FactsAt(p, n).blockers[id];
    }
    assert FactsAt(q, n).status == FactsAt(p, n).status;
  }

  /** A commit is the delta its tick would compute again, choice of what to read
      included, from the very state it lands on. */
  lemma CommitIsRederived(s: Sys, m: Move)
    requires Coherent(s) && m.Finish? && FinishCommits(s, m)
    ensures var t := s.pending[m.tid]; var cur := s.db.plans[t.slug];
            && t.choose(cur) == t.choose(t.at)
            && FactsAt(cur, t.choose(cur)) == FactsAt(t.at, t.choose(t.at))
            && t.decide(FactsAt(cur, t.choose(cur))) == FinishCall(t, m.now, m.minted).op.delta
            && After(s.db, FinishCall(t, m.now, m.minted))
              == After(s.db, TickCall(t.slug, cur, t.choose(cur), t.decide, m.now, m.minted))
  {
    var t := s.pending[m.tid];
    var cur, names := s.db.plans[t.slug], t.choose(t.at);
    CommitMeansHeld(s.db, FinishCall(t, m.now, m.minted));
    FactsStillHold(t.at, cur, names, s.db.last);
    HeldAreInterchangeable(s.db, t.slug, PreFor(t.at, names), PreFor(cur, names), t.decide(FactsAt(t.at, names)),
      m.now, m.minted);
  }

  lemma CommitMeansHeld(db: Db, c: Call)
    requires c.op.ApplyTick? && Commits(db, c)
    ensures c.slug in db.plans && Preconditions(db.plans[c.slug], c.op.pre)
  {
    BumpedSamePreconditions(db.plans[c.slug], c.op.pre);
  }

  lemma HeldAreInterchangeable(db: Db, slug: string, pre: TickPreconditions, pre': TickPreconditions,
          delta: TickDelta, now: int, minted: string)
    requires slug in db.plans && Preconditions(db.plans[slug], pre) && Preconditions(db.plans[slug], pre')
    ensures Step(db, slug, ApplyTick(pre, delta, now, minted)) == Step(db, slug, ApplyTick(pre', delta, now, minted))
  {
    BumpedSamePreconditions(db.plans[slug], pre);
    BumpedSamePreconditions(db.plans[slug], pre');
  }

  lemma BumpedSamePreconditions(p: Plan, pre: TickPreconditions)
    ensures Preconditions(Bumped(p), pre) <==> Preconditions(p, pre)
  {
  }

  /** Once the old snapshot's preconditions pass, the present is as good a
      snapshot: same facts, same preconditions met. */
  lemma FactsStillHold(at: Plan, cur: Plan, n: Names, last: int)
    requires Follows(at, cur) && Logged(at, last) && Logged(cur, last)
    requires Grounded(at, n) && Preconditions(cur, PreFor(at, n))
    ensures FactsAt(cur, n) == FactsAt(at, n) && Preconditions(cur, PreFor(cur, n))
  {
    HoldsIffFactsUnchanged(at, cur, n, last, last);
    FollowsReflexive(cur);
    SameFactsGrounded(at, cur, n);
    HoldsIffFactsUnchanged(cur, cur, n, last, last);
  }

  lemma FollowsReflexive(p: Plan)
    ensures Follows(p, p)
  {
  }

  /** Optimistic ticks are serialisable: any interleaving of calls and ticks
      leaves the database that some one-at-a-time execution leaves, each tick
      choosing what to read, deciding and applying at its commit point, aborted
      ticks doing nothing. */
  lemma {:induction false} TicksAreSerialisable(s: Sys, ms: seq<Move>)
    requires Coherent(s) && GroundedSchedule(s, ms)
    ensures RunMoves(s, ms).db == RunSerial(s.db, SerialOrder(s, ms))
    decreases |ms|
  {
    if ms != [] {
      var m, rest := ms[0], SerialOrder(Next(s, ms[0]), ms[1..]);
      assert GroundedSchedule(s, [m]);
      NextKeepsCoherent(s, m);
      hide Coherent, Grounded, SelfReading, FactsAt, PreFor;
      TicksAreSerialisable(Next(s, m), ms[1..]);
      match m {
        case Exec(call) => SerialHead(s.db, Plain(call), rest);
        case Snapshot(_, _, _, _) =>
        case Finish(tid, now, minted) =>
          if FinishCommits(s, m) {
            CommitIsRederived(s, m);
            var t := s.pending[tid];
            SerialHead(s.db, WholeTick(t.slug, t.choose, t.decide, now, minted), rest);
          } else if tid in s.pending {
            var c := FinishCall(s.pending[tid], now, minted);
            if !Commits(s.db, c) {
              FailedCallChangesNothing(s.db, c);
            }
          }
      }
    }
  }

  lemma SerialHead(db: Db, m: SerialMove, rest: seq<SerialMove>)
    ensures RunSerial(db, [m] + rest) == RunSerial(SerialNext(db, m), rest)
  {
    assert ([m] + rest)[1..] == rest;
  }
}
