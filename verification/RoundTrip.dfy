/** What goes into the store comes back out: a created plan up to its normal
    form, and a field write as a map update that touches nothing else. */
module RoundTrip {
  import opened Values
  import opened PlanDoc
  import opened PlanOps
  import opened EventLog
  import Claims

  // ----- creation ------------------------------------------------------------------

  predicate DistinctIds(docs: seq<Doc>) {
    forall i, j :: 0 <= i < j < |docs| && Get(docs[i], Id) != Null ==> Get(docs[i], Id) != Get(docs[j], Id)
  }

  predicate AllKnown(docs: seq<Doc>) {
    forall i :: 0 <= i < |docs| ==> KnownFields(docs[i])
  }

  function NormalBlockers(docs: seq<Doc>): seq<Doc> {
    seq(|docs|, i requires 0 <= i < |docs| => NormalBlocker(docs[i]))
  }

  function NormalTasks(docs: seq<Doc>): seq<Doc> {
    seq(|docs|, i requires 0 <= i < |docs| => NormalTask(docs[i]))
  }

  lemma NormalBlockerId(d: Doc)
    ensures Get(NormalBlocker(d), Id) == Get(d, Id)
  {
  }

  lemma NormalTaskId(d: Doc)
    ensures Get(NormalTask(d), Id) == Get(d, Id)
  {
  }

  /** The primary key sees exactly the ids already in. */
  lemma CollidesIff(docs: seq<Doc>, id: Json)
    ensures Collides(docs, id) <==> id != Null && exists i :: 0 <= i < |docs| && Get(docs[i], Id) == id
  {
    if Find(docs, id) < |docs| {
      assert Get(docs[Find(docs, id)], Id) == id;
    }
  }

  lemma {:induction false} BlockersGoIn(done: seq<Doc>, docs: seq<Doc>, k: nat)
    requires k <= |docs| && done == NormalBlockers(docs[..k]) && AllKnown(docs[..k]) && DistinctIds(docs[..k])
    ensures InsertBlockers(done, docs[k..]).Ok? <==> AllKnown(docs) && DistinctIds(docs)
    ensures InsertBlockers(done, docs[k..]).Ok? ==> InsertBlockers(done, docs[k..]).value == NormalBlockers(docs)
    decreases |docs| - k
  {
    if k == |docs| {
      assert docs[..k] == docs && docs[k..] == [];
    } else {
      assert docs[k..][0] == docs[k] && docs[k..][1..] == docs[k + 1..];
      OneMore(docs, k);
      KeyClash(done, docs, k);
      hide NormalBlocker, KnownFields;
      if KnownFields(docs[k]) && !Collides(done, Get(docs[k], Id)) {
        assert done + [NormalBlocker(docs[k])] == NormalBlockers(docs[..k + 1]);
        BlockersGoIn(done + [NormalBlocker(docs[k])], docs, k + 1);
      }
    }
  }

  lemma OneMore(docs: seq<Doc>, k: nat)
    requires k < |docs| && AllKnown(docs[..k]) && DistinctIds(docs[..k])
    ensures AllKnown(docs) ==> KnownFields(docs[k])
    ensures KnownFields(docs[k]) ==> AllKnown(docs[..k + 1])
    ensures (forall i :: 0 <= i < k && Get(docs[i], Id) != Null ==> Get(docs[i], Id) != Get(docs[k], Id))
        ==> DistinctIds(docs[..k + 1])
    ensures DistinctIds(docs) ==> forall i :: 0 <= i < k && Get(docs[i], Id) != Null ==> Get(docs[i], Id) != Get(docs[k], Id)
  {
    hide KnownFields;
    assert forall i :: 0 <= i < k ==> docs[..k][i] == docs[..k + 1][i] == docs[i];
  }

  lemma KeyClash(done: seq<Doc>, docs: seq<Doc>, k: nat)
    requires k < |docs| && done == NormalBlockers(docs[..k])
    ensures Collides(done, Get(docs[k], Id)) <==>
              !forall i :: 0 <= i < k && Get(docs[i], Id) != Null ==> Get(docs[i], Id) != Get(docs[k], Id)
  {
    CollidesIff(done, Get(docs[k], Id));
    forall i | 0 <= i < k
      ensures Get(done[i], Id) == Get(docs[i], Id)
    {
      NormalBlockerId(docs[i]);
    }
    hide NormalBlocker, Collides;
  }

  lemma {:induction false} TasksGoIn(done: seq<Doc>, docs: seq<Doc>, k: nat)
    requires k <= |docs| && done == NormalTasks(docs[..k]) && DistinctIds(docs[..k])
    ensures InsertTasks(done, docs[k..]).Ok? <==> DistinctIds(docs)
    ensures InsertTasks(done, docs[k..]).Ok? ==> InsertTasks(done, docs[k..]).value == NormalTasks(docs)
    decreases |docs| - k
  {
    if k == |docs| {
      assert docs[..k] == docs && docs[k..] == [];
    } else {
      assert docs[k..][0] == docs[k] && docs[k..][1..] == docs[k + 1..];
      OneMoreTask(docs, k);
      TaskClash(done, docs, k);
      hide NormalTask;
      if !Collides(done, Get(docs[k], Id)) {
        assert done + [NormalTask(docs[k])] == NormalTasks(docs[..k + 1]);
        TasksGoIn(done + [NormalTask(docs[k])], docs, k + 1);
      }
    }
  }

  lemma OneMoreTask(docs: seq<Doc>, k: nat)
    requires k < |docs| && DistinctIds(docs[..k])
    ensures (forall i :: 0 <= i < k && Get(docs[i], Id) != Null ==> Get(docs[i], Id) != Get(docs[k], Id))
        ==> DistinctIds(docs[..k + 1])
    ensures DistinctIds(docs) ==> forall i :: 0 <= i < k && Get(docs[i], Id) != Null ==> Get(docs[i], Id) != Get(docs[k], Id)
  {
    assert forall i :: 0 <= i < k ==> docs[..k][i] == docs[..k + 1][i] == docs[i];
  }

  lemma TaskClash(done: seq<Doc>, docs: seq<Doc>, k: nat)
    requires k < |docs| && done == NormalTasks(docs[..k])
    ensures Collides(done, Get(docs[k], Id)) <==>
              !forall i :: 0 <= i < k && Get(docs[i], Id) != Null ==> Get(docs[i], Id) != Get(docs[k], Id)
  {
    CollidesIff(done, Get(docs[k], Id));
    forall i | 0 <= i < k
      ensures Get(done[i], Id) == Get(docs[i], Id)
    {
      NormalTaskId(docs[i]);
    }
    hide NormalTask, Collides;
  }

  /** Creating a plan succeeds exactly when its slug is acceptable and unused,
      its blockers keep to the known fields and no two rows share an id; the
      plan it leaves is the document in normal form, its events stamped with
      the next ids. */
  lemma CreatedPlanReadsBack(db: Db, slug: string, doc: NewPlan)
    ensures Step(db, slug, Create(doc)).result.Ok? <==>
              AcceptedSlug(slug) && slug !in db.plans && AllKnown(doc.blockers) && DistinctIds(doc.blockers)
                && DistinctIds(doc.tasks)
    ensures Step(db, slug, Create(doc)).result.Ok? ==>
              Step(db, slug, Create(doc)).db ==
                Db(db.plans[slug := Plan(0, NormalHead(doc.head),
                                         if doc.claim.None? then None else Some(NormalClaim(doc.claim.value)),
                                         NormalBlockers(doc.blockers), NormalTasks(doc.tasks), Stamp(db.last, doc.events), [])],
                   db.last + |doc.events|)
  {
    assert doc.blockers[..0] == [] && doc.blockers[0..] == doc.blockers;
    assert doc.tasks[..0] == [] && doc.tasks[0..] == doc.tasks;
    BlockersGoIn([], doc.blockers, 0);
    TasksGoIn([], doc.tasks, 0);
    assert [] + Stamp(db.last, doc.events) == Stamp(db.last, doc.events);
    hide InsertBlockers, InsertTasks, NormalHead, NormalClaim, NormalBlockers, NormalTasks, AllKnown, DistinctIds, Stamp;
  }

  // ----- normal forms ---------------------------------------------------------------------

  /** A head comes back as it went in, except that keys with a table of their
      own are not in it and the four scalars are always present. A cleared
      worktree is present and null; one never set is absent. */
  lemma NormalHeadKeeps(d: Doc, k: Key)
    ensures k in NormalHead(d) <==> (k in d && !IsHeadDerived(k)) || IsHeadScalar(k)
    ensures k in NormalHead(d) ==> NormalHead(d)[k] == Get(d, k)
    ensures Worktree in NormalHead(d) <==> Worktree in d
  {
  }

  lemma NormalClaimKeeps(d: Doc, k: Key)
    ensures k in NormalClaim(d) <==> k in d && !(IsClaimScalar(k) && d[k] == Null)
    ensures k in NormalClaim(d) ==> NormalClaim(d)[k] == d[k]
  {
  }

  /** Reading back and writing again changes nothing. */
  lemma NormalFormsAreStable(d: Doc)
    ensures NormalHead(NormalHead(d)) == NormalHead(d) && NormalClaim(NormalClaim(d)) == NormalClaim(d)
  {
    var h, c := NormalHead(d), NormalClaim(d);
    forall k: Key
      ensures (k in NormalHead(h) <==> k in h) && (k in h ==> NormalHead(h)[k] == h[k])
      ensures (k in NormalClaim(c) <==> k in c) && (k in c ==> NormalClaim(c)[k] == c[k])
    {
      NormalHeadKeeps(d, k);
      NormalHeadKeeps(h, k);
      NormalClaimKeeps(d, k);
      NormalClaimKeeps(c, k);
    }
    hide NormalHead, NormalClaim;
  }

  // ----- field writes ------------------------------------------------------------------------

  /** Setting and removing head fields acts on the snapshot as exactly that: a
      map update, then a removal; no other key, and nothing but the head, the
      log and the version moves. */
  lemma SetFieldsIsMapUpdate(db: Db, slug: string, fields: Doc, remove: seq<Key>, events: seq<NewEvent>)
    requires slug in db.plans && AcceptedSlug(slug)
    ensures Step(db, slug, SetFields(fields, remove, events)).result.Ok? <==> SettableFields(fields, remove)
    ensures SettableFields(fields, remove) ==>
              var p, q := db.plans[slug], Step(db, slug, SetFields(fields, remove, events)).db.plans[slug];
              && q == Bumped(p).(head := q.head, events := p.events + Stamp(db.last, events))
              && forall k :: if k in remove then k !in q.head
                             else if k in fields then k in q.head && q.head[k] == fields[k]
                             else (k in q.head <==> k in p.head) && (k in p.head ==> q.head[k] == p.head[k])
  {
    hide Stamp, SettableFields;
  }

  // ----- claims are always in normal form ------------------------------------------------------

  predicate ClaimNormal(p: Plan) {
    p.claim.Some? ==> NormalClaim(p.claim.value) == p.claim.value
  }

  predicate ClaimsNormal(db: Db) {
    forall s :: s in db.plans ==> ClaimNormal(db.plans[s])
  }

  /** A field write leaves the claim it found, or that claim updated and put in
      normal form. */
  lemma FieldWriteClaim(p: Plan, last: int, op: Op) returns (fields: Doc)
    requires Claims.FieldWrite(op) && PlanEffect(p, last, op).Commit?
    ensures var q := PlanEffect(p, last, op).plan;
            p.claim.Some? && (q.claim == p.claim || q.claim == Some(NormalClaim(p.claim.value + fields)))
  {
    fields := map[];
    hide NormalClaim, Stamp;
    match op {
      case Heartbeat(_, _, ts) => fields := map[LastHeartbeatAt := Num(ts)];
      case Activity(_, _, action, ts) => fields := ActivityFields(action, ts);
      case StampClaimFields(_, f, _, _, _) => fields := f;
      case StampAttestation(_, _, kind, sha, ts, _) =>
        var a := AsObject(p.claim.value, Attestations).value;
        fields := map[Attestations := Obj(a[Named(kind) := Obj(map[At := Num(ts), CommitSha := Str(sha)])])];
      case ExtendLease(_, minutes, now) =>
        fields := map[LeaseExpires := Num(LeaseBase(Get(p.claim.value, LeaseExpires), now) + 60 * minutes)];
    }
  }

  lemma TickClaimWritten(p: Plan, last: int, op: Op) returns (d: Doc)
    requires op.ApplyTick? && PlanEffect(p, last, op).Commit?
    ensures var q := PlanEffect(p, last, op).plan;
            q.claim.None? || q.claim == p.claim || q.claim == Some(NormalClaim(d))
  {
    hide NormalClaim, Stamp, UpdateBlockers, Preconditions, MintedClaim, StartedEvent;
    var delta := op.delta;
    d := if delta.claimPhase.Some? then MintedClaim(delta.claimPhase.value, op.minted, op.now, delta.leaseMinutes,
      delta.claimAttempts)
         else (if p.claim.Some? then p.claim.value else map[]) + delta.claimUpdates;
  }

  lemma EffectKeepsClaimNormal(p: Plan, last: int, op: Op)
    requires PlanEffect(p, last, op).Commit? && ClaimNormal(p)
    ensures ClaimNormal(PlanEffect(p, last, op).plan)
  {
    hide PlanEffect, NormalClaim;
    if op.ApplyTick? {
      var d := TickClaimWritten(p, last, op);
      NormalFormsAreStable(d);
    } else if Claims.FieldWrite(op) {
      var fields := FieldWriteClaim(p, last, op);
      NormalFormsAreStable(p.claim.value + fields);
    } else {
      Claims.OtherOpsKeepClaim(p, last, op);
    }
  }

  lemma CreatedClaimNormal(last: int, doc: NewPlan)
    requires CreateEffect(last, doc).Commit?
    ensures ClaimNormal(CreateEffect(last, doc).plan)
  {
    if doc.claim.Some? {
      NormalFormsAreStable(doc.claim.value);
    }
    hide NormalClaim, NormalHead, InsertBlockers, InsertTasks, Stamp;
  }

  lemma StepKeepsClaimsNormal(db: Db, c: Call)
    requires ClaimsNormal(db)
    ensures ClaimsNormal(After(db, c))
  {
    if Commits(db, c) {
      if c.op.Create? {
        CreatedClaimNormal(db.last, c.op.doc);
      } else {
        EffectKeepsClaimNormal(Bumped(db.plans[c.slug]), db.last, c.op);
      }
    }
    hide PlanEffect, CreateEffect, NormalClaim;
  }

  /** From the empty store on, a claim is its own normal form. */
  lemma {:induction false} ClaimsStayNormal(db: Db, calls: seq<Call>)
    requires ClaimsNormal(db)
    ensures ClaimsNormal(Run(db, calls))
    decreases |calls|
  {
    if calls != [] {
      StepKeepsClaimsNormal(db, calls[0]);
      ClaimsStayNormal(After(db, calls[0]), calls[1..]);
    }
  }

  /** The fields of `p` stamped with `fields`, key by key. */
  ghost predicate Stamped(c: Doc, after: Doc, fields: Doc) {
    forall k ::
      if k in fields && IsClaimScalar(k) && fields[k] == Null then k !in after
      else if k in fields then k in after && after[k] == fields[k]
      else (k in after <==> k in c) && (k in c ==> after[k] == c[k])
  }

  lemma NormalUpdateIsStamped(c: Doc, fields: Doc)
    requires NormalClaim(c) == c
    ensures Stamped(c, NormalClaim(c + fields), fields)
  {
    hide NormalClaim, IsClaimScalar;
    forall k: Key
      ensures if k in fields && IsClaimScalar(k) && fields[k] == Null then k !in NormalClaim(c + fields)
              else if k in fields then k in NormalClaim(c + fields) && NormalClaim(c + fields)[k] == fields[k]
              else (k in NormalClaim(c + fields) <==> k in c) && (k in c ==> NormalClaim(c + fields)[k] == c[k])
    {
      NormalClaimKeeps(c + fields, k);
      NormalClaimKeeps(c, k);
    }
  }

  lemma StampEffect(p: Plan, last: int, token: string, fields: Doc, narrow: Option<string>, ifUnset: Option<Key>,
          events: seq<NewEvent>)
    ensures PlanEffect(p, last, StampClaimFields(token, fields, narrow, ifUnset, events))
         == StampClaimFieldsEffect(p, last, token, fields, narrow, ifUnset, events)
  {
    hide StampClaimFieldsEffect;
  }

  /** In any state a run reaches, a claim-field write is decided by the token,
      the phase when one is given, and the guard: a mismatch raises and changes
      nothing, a guard already set changes nothing but the version, and
      otherwise the fields are set - a null scalar by dropping its key - with
      every other key, and every other part of the plan but its log, as it was. */
  lemma StampIsMapUpdate(db: Db, calls: seq<Call>, slug: string, token: string, fields: Doc, narrow: Option<string>,
          ifUnset: Option<Key>, events: seq<NewEvent>)
    requires ClaimsNormal(db) && slug in Run(db, calls).plans && AcceptedSlug(slug)
    ensures var now := Run(db, calls);
            var o, p := Step(now, slug, StampClaimFields(token, fields, narrow, ifUnset, events)), now.plans[slug];
            if !Holds(p, token, narrow) then o == Outcome(now, Err(ClaimMismatch))
            else if ifUnset.Some? && Truthy(GuardValue(p.claim.value, ifUnset.value))
            then o == Outcome(Db(now.plans[slug := Bumped(p)], now.last), Ok(Bool(false)))
            else
              && o.result == Ok(Bool(true)) && o.db.plans[slug].claim.Some?
              && var q := o.db.plans[slug];
                 && o.db == Db(now.plans[slug := q], now.last + |events|)
                 && q == Bumped(p).(claim := q.claim, events := p.events + Stamp(now.last, events))
                 && Stamped(p.claim.value, q.claim.value, fields)
  {
    ClaimsStayNormal(db, calls);
    var p := Run(db, calls).plans[slug];
    assert ClaimNormal(p);
    StampEffect(Bumped(p), Run(db, calls).last, token, fields, narrow, ifUnset, events);
    if Holds(p, token, narrow) {
      NormalUpdateIsStamped(p.claim.value, fields);
    }
    hide PlanEffect, Stamp, NormalClaim, Stamped, Run, GuardValue;
  }
}
