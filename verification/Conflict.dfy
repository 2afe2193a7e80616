/** The cross-plan rule that marks plans running side by side without a
    worktree of their own. */
module Conflict {
  import opened Values

  /** What the rule reads of one plan: its slug, whether it is active without
      a worktree, and its stored conflict list as a set. */
  datatype ProjectPlan = ProjectPlan(slug: string, status: string, claimed: bool, worktree: bool, others: set<string>)

  /** What the rule writes to one plan, in one transaction: its new list, and
      a warning for each slug it is the first to warn about. */
  datatype Change = Change(others: seq<string>, warned: seq<string>)

  // ----- string order ---------------------------------------------------------------

  /** Python's order on strings: code point by code point, a prefix first. */
  predicate Before(a: string, b: string) {
    b != "" && (a == "" || a[0] < b[0] || (a[0] == b[0] && Before(a[1..], b[1..])))
  }

  lemma {:induction false} OrderIsTotal(a: string, b: string)
    ensures !(Before(a, b) && Before(b, a))
    ensures Before(a, b) || a == b || Before(b, a)
    ensures !Before(a, a)
    decreases |a| + |b|
  {
    if a != "" && b != "" && a[0] == b[0] {
      OrderIsTotal(a[1..], b[1..]);
      assert a == [a[0]] + a[1..] && b == [b[0]] + b[1..];
    }
    if a != "" {
      IrreflexiveTail(a);
    }
  }

  lemma {:induction false} IrreflexiveTail(a: string)
    ensures !Before(a, a)
    decreases |a|
  {
    if a != "" {
      IrreflexiveTail(a[1..]);
    }
  }

  lemma {:induction false} OrderIsTransitive(a: string, b: string, c: string)
    requires Before(a, b) && Before(b, c)
    ensures Before(a, c)
    decreases |a|
  {
    if a != "" && a[0] == b[0] && b[0] == c[0] {
      OrderIsTransitive(a[1..], b[1..], c[1..]);
    }
  }

  /** Before means: at the first place they differ the character is smaller, or
      the one string ends where the other goes on. */
  lemma {:induction false} BeforeIs(a: string, b: string)
    ensures Before(a, b) <==> exists i :: 0 <= i < |b| && i <= |a| && a[..i] == b[..i] && (i < |a| ==> a[i] < b[i])
    decreases |a|
  {
    forall i | 0 < i <= |a| && i <= |b| && a[..i] == b[..i]
      ensures a[0] == b[0]
    {
      assert a[..i][0] == a[0] && b[..i][0] == b[0];
    }
    if a != "" && b != "" && a[0] == b[0] {
      BeforeIs(a[1..], b[1..]);
      if i :| 0 <= i < |b[1..]| && i <= |a[1..]| && a[1..][..i] == b[1..][..i] && (i < |a[1..]| ==> a[1..][i] < b[1..][i]) {
        assert a[..i + 1] == [a[0]] + a[1..][..i] && b[..i + 1] == [b[0]] + b[1..][..i];
        assert a[..i + 1] == b[..i + 1];
      }
      if i :| 0 <= i < |b| && i <= |a| && a[..i] == b[..i] && (i < |a| ==> a[i] < b[i]) {
        assert i > 0 && a[1..][..i - 1] == a[..i][1..] && b[1..][..i - 1] == b[..i][1..];
      }
    } else if b != "" {
      assert a[..0] == b[..0];
    }
  }

  predicate Sorted(ss: seq<string>) {
    forall i, j :: 0 <= i < j < |ss| ==> Before(ss[i], ss[j])
  }

  function AsSet(ss: seq<string>): set<string> {
    set s | s in ss
  }

  predicate LeastOf(names: set<string>, s: string) {
    s in names && forall t :: t in names && t != s ==> Before(s, t)
  }

  lemma HasMember(names: set<string>)
    ensures names != {} ==> exists s :: s in names
  {
    assert (forall s :: s !in names) ==> names == {};
  }

  method Least(names: set<string>) returns (s: string)
    requires names != {}
    ensures LeastOf(names, s)
  {
    HasMember(names);
    s :| s in names;
    var left := names - {s};
    while left != {}
      invariant s in names && left <= names && forall t :: t in names && t !in left && t != s ==> Before(s, t)
    {
      HasMember(left);
      var t :| t in left;
      left := left - {t};
      OrderIsTotal(s, t);
      if Before(t, s) {
        forall u | u in names && u !in left && u != t
          ensures Before(t, u)
        {
          if u != s { OrderIsTransitive(t, s, u); }
        }
        s := t;
      }
    }
  }

  /** `sorted` of a set of slugs. */
  method SortedOf(names: set<string>) returns (ss: seq<string>)
    ensures Sorted(ss) && AsSet(ss) == names
  {
    ss := [];
    var left := names;
    while left != {}
      invariant left <= names && Sorted(ss) && AsSet(ss) == names - left
      invariant forall s, t :: s in ss && t in left ==> Before(s, t)
      decreases left
    {
      var s := Least(left);
      assert AsSet(ss + [s]) == AsSet(ss) + {s};
      ss := ss + [s];
      left := left - {s};
    }
  }

  // ----- the rule --------------------------------------------------------------------

  predicate Active(p: ProjectPlan) {
    p.claimed || p.status == "running"
  }

  predicate Clashes(p: ProjectPlan) {
    !p.worktree && Active(p)
  }

  function Clashing(plans: seq<ProjectPlan>): set<string> {
    set i | 0 <= i < |plans| && Clashes(plans[i]) :: plans[i].slug
  }

  /** The plans of a project have distinct slugs. */
  predicate DistinctPlans(plans: seq<ProjectPlan>) {
    forall i, j :: 0 <= i < j < |plans| ==> plans[i].slug != plans[j].slug
  }

  function Target(clashing: set<string>, p: ProjectPlan): set<string> {
    if p.slug in clashing then clashing - {p.slug} else {}
  }

  ghost predicate ChangeOf(clashing: set<string>, p: ProjectPlan, c: Change) {
    && Sorted(c.others) && AsSet(c.others) == Target(clashing, p)
    && Sorted(c.warned)
    && forall o :: o in c.warned <==> o in Target(clashing, p) - p.others && Before(p.slug, o)
  }

  /** The rule's answer: a change for exactly the plans whose list is not its
      target. No change at all is the rule's "nothing to do". */
  ghost predicate Decides(plans: seq<ProjectPlan>, changes: map<string, Change>) {
    && (forall s :: s in changes ==> exists i :: 0 <= i < |plans| && plans[i].slug == s)
    && forall i :: 0 <= i < |plans| ==> PlanDecided(Clashing(plans), plans[i], changes)
  }

  ghost predicate PlanDecided(clashing: set<string>, p: ProjectPlan, changes: map<string, Change>) {
    && (p.slug in changes <==> Target(clashing, p) != p.others)
    && (p.slug in changes ==> ChangeOf(clashing, p, changes[p.slug]))
  }

  method WorktreeConflictRule(plans: seq<ProjectPlan>) returns (changes: map<string, Change>)
    requires DistinctPlans(plans)
    ensures Decides(plans, changes)
  {
    var clashing := Clashing(plans);
    changes := map[];
    for i := 0 to |plans|
      invariant forall s :: s in changes ==> exists j :: 0 <= j < i && plans[j].slug == s
      invariant forall j :: 0 <= j < i ==> PlanDecided(clashing, plans[j], changes)
    {
      var p := plans[i];
      assert p.slug !in changes;
      var target := Target(clashing, p);
      if target != p.others {
        var others := SortedOf(target);
        var news := SortedOf(target - p.others);
        var warned := SecondOf(p.slug, news, target - p.others);
        changes := changes[p.slug := Change(others, warned)];
      }
    }
  }

  /** Of a pair, the lexicographically smaller slug does the warning. */
  method SecondOf(slug: string, news: seq<string>, ghost names: set<string>) returns (warned: seq<string>)
    requires Sorted(news) && AsSet(news) == names
    ensures Sorted(warned) && forall o :: o in warned <==> o in names && Before(slug, o)
  {
    warned := [];
    for i := 0 to |news|
      invariant forall o :: o in warned <==> o in news[..i] && Before(slug, o)
      invariant Sorted(warned)
    {
      if Before(slug, news[i]) {
        forall k | 0 <= k < |warned|
          ensures Before(warned[k], news[i])
        {
          assert warned[k] in warned && warned[k] in news[..i];
          var j :| 0 <= j < i && news[..i][j] == warned[k];
          assert Before(news[j], news[i]);
        }
        warned := warned + [news[i]];
      }
      assert news[..i + 1] == news[..i] + [news[i]];
    }
    assert news[..|news|] == news;
    assert forall o :: o in news <==> o in AsSet(news);
  }

  // ----- applying it ---------------------------------------------------------------------

  /** Write some of the changes: one transaction per plan, so a crash leaves
      any subset of them. */
  function Applied(plans: seq<ProjectPlan>, changes: map<string, Change>, done: set<string>): seq<ProjectPlan> {
    seq(|plans|, i requires 0 <= i < |plans| =>
      if plans[i].slug in changes && plans[i].slug in done
      then plans[i].(others := AsSet(changes[plans[i].slug].others)) else plans[i])
  }

  lemma AppliedKeepsClashing(plans: seq<ProjectPlan>, changes: map<string, Change>, done: set<string>)
    ensures Clashing(Applied(plans, changes, done)) == Clashing(plans)
    ensures DistinctPlans(plans) ==> DistinctPlans(Applied(plans, changes, done))
  {
    var after := Applied(plans, changes, done);
    forall i | 0 <= i < |plans|
      ensures after[i].slug == plans[i].slug && (Clashes(after[i]) <==> Clashes(plans[i]))
    {
    }
    forall s | s in Clashing(plans)
      ensures s in Clashing(after)
    {
      var i :| 0 <= i < |plans| && Clashes(plans[i]) && plans[i].slug == s;
      assert Clashes(after[i]) && after[i].slug == s;
    }
    forall s | s in Clashing(after)
      ensures s in Clashing(plans)
    {
      var i :| 0 <= i < |after| && Clashes(after[i]) && after[i].slug == s;
      assert Clashes(plans[i]) && plans[i].slug == s;
    }
  }

  /** The stored relation is the clique on the clashing plans. */
  predicate Clique(plans: seq<ProjectPlan>) {
    forall i, j :: 0 <= i < |plans| && 0 <= j < |plans| ==>
      (plans[j].slug in plans[i].others <==> i != j && Clashes(plans[i]) && Clashes(plans[j]))
  }

  lemma ClashingSlug(plans: seq<ProjectPlan>, i: nat)
    requires i < |plans| && DistinctPlans(plans)
    ensures plans[i].slug in Clashing(plans) <==> Clashes(plans[i])
  {
    if plans[i].slug in Clashing(plans) {
      var j :| 0 <= j < |plans| && Clashes(plans[j]) && plans[j].slug == plans[i].slug;
      assert i == j;
    }
  }

  /** From any stored lists, symmetric or not, applying the whole decision
      leaves exactly the clique - so a symmetric, irreflexive relation - and
      every list is its target. */
  lemma RuleReachesClique(plans: seq<ProjectPlan>, changes: map<string, Change>)
    requires DistinctPlans(plans) && Decides(plans, changes)
    ensures var after := Applied(plans, changes, changes.Keys);
            Clique(after) && forall i :: 0 <= i < |after| ==> after[i].others == Target(Clashing(after), after[i])
  {
    var after := Applied(plans, changes, changes.Keys);
    AppliedKeepsClashing(plans, changes, changes.Keys);
    forall i | 0 <= i < |after|
      ensures after[i].others == Target(Clashing(plans), after[i])
    {
      assert PlanDecided(Clashing(plans), plans[i], changes);
    }
    forall i, j | 0 <= i < |after| && 0 <= j < |after|
      ensures after[j].slug in after[i].others <==> i != j && Clashes(after[i]) && Clashes(after[j])
    {
      ClashingSlug(after, i);
      ClashingSlug(after, j);
    }
  }

  /** What the rule leaves, plan by plan: two plans list each other exactly when
      they are two, both claimed or running, and neither has a worktree. */
  lemma RuleListsSharers(plans: seq<ProjectPlan>, changes: map<string, Change>, i: nat, j: nat)
    requires DistinctPlans(plans) && Decides(plans, changes) && i < |plans| && j < |plans|
    ensures var after := Applied(plans, changes, changes.Keys);
            && |after| == |plans| && after[i] == plans[i].(others := after[i].others)
            && (plans[j].slug in after[i].others <==>
                  && i != j && !plans[i].worktree && !plans[j].worktree
                  && (plans[i].claimed || plans[i].status == "running") && (plans[j].claimed || plans[j].status == "running"))
            && forall s :: s in after[i].others ==> exists k :: 0 <= k < |plans| && plans[k].slug == s
  {
    var after := Applied(plans, changes, changes.Keys);
    RuleReachesClique(plans, changes);
    AppliedKeepsClashing(plans, changes, changes.Keys);
    assert plans[j].slug == after[j].slug;
    forall s | s in after[i].others
      ensures exists k :: 0 <= k < |plans| && plans[k].slug == s
    {
      assert s in Clashing(plans);
    }
  }

  /** Nobody is written who need not be: a plan whose list is right already is
      left out, and of those written each is warned about exactly the sharers new
      to its list that come after it in string order. */
  lemma RuleWritesAndWarns(plans: seq<ProjectPlan>, changes: map<string, Change>, i: nat)
    requires DistinctPlans(plans) && Decides(plans, changes) && i < |plans|
    ensures var after := Applied(plans, changes, changes.Keys);
            && (plans[i].slug in changes <==> after[i].others != plans[i].others)
            && (plans[i].slug in changes ==>
                  && Sorted(changes[plans[i].slug].others) && AsSet(changes[plans[i].slug].others) == after[i].others
                  && forall s :: s in changes[plans[i].slug].warned <==>
                       s in after[i].others && s !in plans[i].others && Before(plans[i].slug, s))
  {
    assert PlanDecided(Clashing(plans), plans[i], changes);
  }

  lemma CliqueIsSymmetric(plans: seq<ProjectPlan>, i: nat, j: nat)
    requires Clique(plans) && i < |plans| && j < |plans|
    ensures plans[j].slug in plans[i].others <==> plans[i].slug in plans[j].others
    ensures plans[i].slug !in plans[i].others
  {
  }

  /** An immediate rerun has nothing to do. */
  lemma RerunDoesNothing(plans: seq<ProjectPlan>, changes: map<string, Change>, again: map<string, Change>)
    requires DistinctPlans(plans) && Decides(plans, changes)
    requires Decides(Applied(plans, changes, changes.Keys), again)
    ensures again == map[]
  {
    RuleReachesClique(plans, changes);
    var after := Applied(plans, changes, changes.Keys);
    forall i | 0 <= i < |after|
      ensures after[i].slug !in again
    {
      assert PlanDecided(Clashing(after), after[i], again);
    }
    assert again.Keys == {};
  }

  // ----- warnings ---------------------------------------------------------------------------

  predicate Warned(changes: map<string, Change>, done: set<string>, a: string, b: string) {
    a in changes && a in done && b in changes[a].warned
  }

  /** One run of the rule: its decision, and the plans it got to write before
      it finished or died. */
  datatype Round = Round(changes: map<string, Change>, done: set<string>)

  function AfterRounds(plans: seq<ProjectPlan>, rounds: seq<Round>): seq<ProjectPlan>
    decreases |rounds|
  {
    if rounds == [] then plans else AfterRounds(Applied(plans, rounds[0].changes, rounds[0].done), rounds[1..])
  }

  /** Each round decides on what the rounds before it left. */
  ghost predicate Reruns(plans: seq<ProjectPlan>, rounds: seq<Round>)
    decreases |rounds|
  {
    rounds == [] ||
    (Decides(plans, rounds[0].changes) && Reruns(Applied(plans, rounds[0].changes, rounds[0].done), rounds[1..]))
  }

  /** How often one slug warned about another, over all rounds. */
  function Times(rounds: seq<Round>, a: string, b: string): nat {
    if rounds == [] then 0
    else (if Warned(rounds[0].changes, rounds[0].done, a, b) then 1 else 0) + Times(rounds[1..], a, b)
  }

  /** Some round got to write this plan's change, or found none to write. */
  predicate Reached(rounds: seq<Round>, slug: string) {
    exists r :: 0 <= r < |rounds| && (slug in rounds[r].changes ==> slug in rounds[r].done)
  }

  predicate EntersConflict(clashing: set<string>, p: ProjectPlan, other: string) {
    other in Target(clashing, p) - p.others && Before(p.slug, other)
  }

  lemma AppliedAt(plans: seq<ProjectPlan>, changes: map<string, Change>, done: set<string>, i: nat)
    requires i < |plans|
    ensures |Applied(plans, changes, done)| == |plans|
    ensures Applied(plans, changes, done)[i] ==
              if plans[i].slug in changes && plans[i].slug in done
              then plans[i].(others := AsSet(changes[plans[i].slug].others)) else plans[i]
  {
  }

  /** What one round does for one plan: write its target with its warnings, or
      leave it for a later round. */
  lemma OneRound(clashing: set<string>, p: ProjectPlan, after: ProjectPlan, r: Round, other: string)
    requires PlanDecided(clashing, p, r.changes)
    requires after == if p.slug in r.changes && p.slug in r.done then p.(others := AsSet(r.changes[p.slug].others)) else p
    ensures Warned(r.changes, r.done, p.slug, other) <==> p.slug in r.done && EntersConflict(clashing, p, other)
    ensures EntersConflict(clashing, after, other) <==>
              EntersConflict(clashing, p, other) && !(p.slug in r.changes && p.slug in r.done)
    ensures EntersConflict(clashing, p, other) ==> p.slug in r.changes
  {
    hide Before, Sorted;
  }

  lemma ReachedTail(rounds: seq<Round>, slug: string)
    requires rounds != []
    ensures Reached(rounds, slug) <==>
              (slug in rounds[0].changes ==> slug in rounds[0].done) || Reached(rounds[1..], slug)
  {
    if Reached(rounds[1..], slug) {
      var r :| 0 <= r < |rounds| - 1 && (slug in rounds[1..][r].changes ==> slug in rounds[1..][r].done);
      assert rounds[r + 1] == rounds[1..][r];
    }
    if Reached(rounds, slug) && !(slug in rounds[0].changes ==> slug in rounds[0].done) {
      var r :| 0 <= r < |rounds| && (slug in rounds[r].changes ==> slug in rounds[r].done);
      assert rounds[1..][r - 1] == rounds[r];
    }
  }

  /** Over any number of rounds, however each was cut short, one plan warns
      about another once if it entered conflict with it as the larger slug and
      some round reached it, and otherwise never. */
  lemma {:induction false} OneSideWarned(plans: seq<ProjectPlan>, rounds: seq<Round>, i: nat, other: string)
    requires DistinctPlans(plans) && Reruns(plans, rounds) && i < |plans|
    ensures Times(rounds, plans[i].slug, other) ==
              if EntersConflict(Clashing(plans), plans[i], other) && Reached(rounds, plans[i].slug) then 1 else 0
    decreases |rounds|
  {
    if rounds != [] {
      var r, clashing := rounds[0], Clashing(plans);
      var next := Applied(plans, r.changes, r.done);
      AppliedKeepsClashing(plans, r.changes, r.done);
      AppliedAt(plans, r.changes, r.done, i);
      assert PlanDecided(clashing, plans[i], r.changes);
      OneRound(clashing, plans[i], next[i], r, other);
      ReachedTail(rounds, plans[i].slug);
      hide Applied, Clashing, Decides, DistinctPlans, PlanDecided, Warned, EntersConflict, Reached;
      OneSideWarned(next, rounds[1..], i, other);
    } else {
      assert !Reached(rounds, plans[i].slug);
    }
  }

  /** Each pair entering conflict is warned about exactly once, by the smaller
      slug and never by the larger, over any number of runs of the rule that
      each wrote only some of the plans, once a run has written them all. */
  lemma EachPairWarnedOnce(plans: seq<ProjectPlan>, rounds: seq<Round>, i: nat, j: nat)
    requires DistinctPlans(plans) && Reruns(plans, rounds) && rounds != []
    requires rounds[|rounds| - 1].changes.Keys <= rounds[|rounds| - 1].done
    requires i < |plans| && j < |plans| && Before(plans[i].slug, plans[j].slug)
    ensures var a, b := plans[i].slug, plans[j].slug;
            && Times(rounds, a, b) == (if Clashes(plans[i]) && Clashes(plans[j]) && b !in plans[i].others then 1 else 0)
            && Times(rounds, b, a) == 0
  {
    var a, b := plans[i].slug, plans[j].slug;
    OrderIsTotal(a, b);
    ClashingSlug(plans, i);
    ClashingSlug(plans, j);
    var last := rounds[|rounds| - 1];
    assert a in last.changes ==> a in last.done;
    OneSideWarned(plans, rounds, i, b);
    OneSideWarned(plans, rounds, j, a);
    hide Before, Clashing, Clashes, Times, Reruns, DistinctPlans;
  }

  /** Such rounds end at the clique. */
  lemma {:induction false} RoundsReachClique(plans: seq<ProjectPlan>, rounds: seq<Round>)
    requires DistinctPlans(plans) && Reruns(plans, rounds) && rounds != []
    requires rounds[|rounds| - 1].changes.Keys <= rounds[|rounds| - 1].done
    ensures Clique(AfterRounds(plans, rounds))
    decreases |rounds|
  {
    var r := rounds[0];
    AppliedKeepsClashing(plans, r.changes, r.done);
    if |rounds| == 1 {
      RuleReachesClique(plans, r.changes);
      AppliedInFull(plans, r.changes, r.done);
    } else {
      RoundsReachClique(Applied(plans, r.changes, r.done), rounds[1..]);
    }
  }

  lemma AppliedInFull(plans: seq<ProjectPlan>, changes: map<string, Change>, done: set<string>)
    requires changes.Keys <= done
    ensures Applied(plans, changes, done) == Applied(plans, changes, changes.Keys)
  {
  }
}
