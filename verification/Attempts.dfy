/** Attempt accounting: how many starts of a phase count against its budget,
    once operator resets move the floor and blameless deaths are forgiven. */
module Attempts {
  import opened Values
  import opened PlanDoc

  predicate Of(e: Event, phase: string) {
    Get(e.payload, Phase) == Str(phase)
  }

  predicate Floors(e: Event, phase: string) {
    (e.kind.RetryRequested? || e.kind.AttemptsReset?) && Of(e, phase)
  }

  predicate Starts(e: Event, phase: string) {
    e.kind.PhaseStarted? && Of(e, phase)
  }

  predicate Forgives(e: Event, phase: string) {
    (e.kind.SystemicFailure? || e.kind.QuotaDeath?) && Of(e, phase) && Truthy(Get(e.payload, Token))
  }

  function StartToken(e: Event): Json { Get(e.payload, ClaimedBy) }

  function DeathToken(e: Event): Json { Get(e.payload, Token) }

  // ----- the count, by scans ---------------------------------------------------------

  /** The events after the most recent retry or reset of the phase. */
  function Scope(evs: seq<Event>, phase: string): seq<Event> {
    if evs == [] || Floors(evs[|evs| - 1], phase) then []
    else Scope(evs[..|evs| - 1], phase) + [evs[|evs| - 1]]
  }

  function Forgiven(evs: seq<Event>, phase: string): set<Json> {
    if evs == [] then {}
    else
      var e := evs[|evs| - 1];
      Forgiven(evs[..|evs| - 1], phase) + (if Forgives(e, phase) then {DeathToken(e)} else {})
  }

  function Count(evs: seq<Event>, phase: string, forgiven: set<Json>): nat {
    if evs == [] then 0
    else
      var e := evs[|evs| - 1];
      Count(evs[..|evs| - 1], phase, forgiven) + (if Starts(e, phase) && StartToken(e) !in forgiven then 1 else 0)
  }

  function Attempts(evs: seq<Event>, phase: string): nat {
    var scope := Scope(evs, phase);
    Count(scope, phase, Forgiven(scope, phase))
  }

  method AttemptsForPhase(evs: seq<Event>, phase: string) returns (n: nat)
    ensures n == Attempts(evs, phase)
  {
    var floor := -1;
    for i := 0 to |evs|
      invariant -1 <= floor < i
      invariant Scope(evs[..i], phase) == evs[floor + 1..i]
    {
      assert evs[..i + 1][..i] == evs[..i];
      if Floors(evs[i], phase) { floor := i; }
    }
    assert evs[..|evs|] == evs && evs[floor + 1..|evs|] == evs[floor + 1..];
    var scope := evs[floor + 1..];
    var forgiven := {};
    for i := 0 to |scope|
      invariant forgiven == Forgiven(scope[..i], phase)
    {
      assert scope[..i + 1][..i] == scope[..i];
      if Forgives(scope[i], phase) { forgiven := forgiven + {DeathToken(scope[i])}; }
    }
    assert scope[..|scope|] == scope;
    n := 0;
    for i := 0 to |scope|
      invariant n == Count(scope[..i], phase, forgiven)
    {
      assert scope[..i + 1][..i] == scope[..i];
      if Starts(scope[i], phase) && StartToken(scope[i]) !in forgiven { n := n + 1; }
    }
  }

  // ----- the count, event by event ---------------------------------------------------------

  predicate About(e: Event, phase: string) {
    Phase in e.payload && e.payload[Phase] == Str(phase)
  }

  /** Nothing from `i` on wipes the phase's slate. */
  predicate Since(evs: seq<Event>, phase: string, i: int) {
    forall j :: i <= j < |evs| && 0 <= j && About(evs[j], phase) ==> !evs[j].kind.RetryRequested? && !evs[j].kind.AttemptsReset?
  }

  /** A death that was not the worker's fault names this token, and it is on the
      current slate. */
  predicate Excused(evs: seq<Event>, phase: string, token: Json) {
    exists j :: 0 <= j < |evs| && Since(evs, phase, j) && About(evs[j], phase)
      && (evs[j].kind.SystemicFailure? || evs[j].kind.QuotaDeath?)
      && Truthy(Get(evs[j].payload, Token)) && Get(evs[j].payload, Token) == token
  }

  /** The starts that count: of this phase, since its slate was last wiped, and
      not excused. */
  function Charged(evs: seq<Event>, phase: string): set<int> {
    set i | 0 <= i < |evs| && evs[i].kind.PhaseStarted? && About(evs[i], phase) && Since(evs, phase, i)
              && !Excused(evs, phase, Get(evs[i].payload, ClaimedBy))
  }

  function CountedFrom(evs: seq<Event>, phase: string, k: int, forgiven: set<Json>): set<int> {
    set i | k <= i < |evs| && 0 <= i && Starts(evs[i], phase) && StartToken(evs[i]) !in forgiven
  }

  lemma OneMoreCounted(evs: seq<Event>, phase: string, k: nat, forgiven: set<Json>)
    requires k < |evs|
    ensures var n := |evs| - 1;
            |CountedFrom(evs, phase, k, forgiven)| == |CountedFrom(evs[..n], phase, k, forgiven)|
              + (if Starts(evs[n], phase) && StartToken(evs[n]) !in forgiven then 1 else 0)
  {
    var n := |evs| - 1;
    hide Starts, StartToken;
    assert CountedFrom(evs, phase, k, forgiven) == CountedFrom(evs[..n], phase, k, forgiven)
        + (if Starts(evs[n], phase) && StartToken(evs[n]) !in forgiven then {n} else {});
  }

  lemma {:induction false} CountIsCounted(evs: seq<Event>, phase: string, k: nat, forgiven: set<Json>)
    requires k <= |evs|
    ensures Count(evs[k..], phase, forgiven) == |CountedFrom(evs, phase, k, forgiven)|
    decreases |evs|
  {
    if k == |evs| {
      assert CountedFrom(evs, phase, k, forgiven) == {} && evs[k..] == [];
    } else {
      var n := |evs| - 1;
      assert evs[k..][..n - k] == evs[..n][k..] && evs[k..][n - k] == evs[n];
      CountIsCounted(evs[..n], phase, k, forgiven);
      OneMoreCounted(evs, phase, k, forgiven);
      hide CountedFrom, Starts, StartToken;
    }
  }

  /** The scope is the tail after the last wipe. */
  lemma {:induction false} ScopeStarts(evs: seq<Event>, phase: string) returns (k: nat)
    ensures k <= |evs| && Scope(evs, phase) == evs[k..]
    ensures forall i :: 0 <= i < |evs| ==> (Since(evs, phase, i) <==> i >= k)
  {
    if evs == [] {
      k := 0;
    } else {
      var n := |evs| - 1;
      assert Floors(evs[n], phase) <==> About(evs[n], phase) && (evs[n].kind.RetryRequested? || evs[n].kind.AttemptsReset?);
      if Floors(evs[n], phase) {
        k := n + 1;
      } else {
        k := ScopeStarts(evs[..n], phase);
        forall i | 0 <= i < n
          ensures Since(evs, phase, i) <==> Since(evs[..n], phase, i)
        {
        }
      }
    }
  }

  lemma {:induction false} ForgivenAre(evs: seq<Event>, phase: string)
    ensures forall t :: t in Forgiven(evs, phase) <==>
              exists j :: 0 <= j < |evs| && Forgives(evs[j], phase) && DeathToken(evs[j]) == t
  {
    if evs != [] {
      var n := |evs| - 1;
      ForgivenAre(evs[..n], phase);
      forall t
        ensures t in Forgiven(evs, phase) <==> exists j :: 0 <= j < |evs| && Forgives(evs[j], phase) && DeathToken(evs[j]) == t
      {
        if t in Forgiven(evs[..n], phase) {
          var j :| 0 <= j < n && Forgives(evs[..n][j], phase) && DeathToken(evs[..n][j]) == t;
          assert Forgives(evs[j], phase);
        }
        if j :| 0 <= j < |evs| && Forgives(evs[j], phase) && DeathToken(evs[j]) == t {
          assert j < n ==> evs[..n][j] == evs[j];
        }
      }
    }
  }

  lemma ExcusedIsForgiven(evs: seq<Event>, phase: string, k: nat, token: Json)
    requires k <= |evs| && Scope(evs, phase) == evs[k..]
    requires forall i :: 0 <= i < |evs| ==> (Since(evs, phase, i) <==> i >= k)
    ensures Excused(evs, phase, token) <==> token in Forgiven(Scope(evs, phase), phase)
  {
    ForgivenAre(evs[k..], phase);
    hide Since, Scope, Forgiven;
    if Excused(evs, phase, token) {
      var j :| 0 <= j < |evs| && Since(evs, phase, j) && About(evs[j], phase)
        && (evs[j].kind.SystemicFailure? || evs[j].kind.QuotaDeath?)
        && Truthy(Get(evs[j].payload, Token)) && Get(evs[j].payload, Token) == token;
      assert evs[k..][j - k] == evs[j];
      assert Forgives(evs[k..][j - k], phase);
    }
    if token in Forgiven(evs[k..], phase) {
      var j :| 0 <= j < |evs| - k && Forgives(evs[k..][j], phase) && DeathToken(evs[k..][j]) == token;
      assert evs[k + j] == evs[k..][j];
    }
  }

  /** For every log whatever, attempts are the starts that count: of the phase,
      after its last retry or reset, and not excused by a systemic failure or a
      quota death that names the same token on the same slate. */
  lemma AttemptsAreCharged(evs: seq<Event>, phase: string)
    ensures Attempts(evs, phase) == |Charged(evs, phase)|
  {
    var k := ScopeStarts(evs, phase);
    var forgiven := Forgiven(Scope(evs, phase), phase);
    CountIsCounted(evs, phase, k, forgiven);
    forall i | 0 <= i < |evs|
      ensures i in Charged(evs, phase) <==> i in CountedFrom(evs, phase, k, forgiven)
    {
      ExcusedIsForgiven(evs, phase, k, StartToken(evs[i]));
    }
    hide Scope, Forgiven, Count, Excused, Since;
    assert Charged(evs, phase) == CountedFrom(evs, phase, k, forgiven);
  }

  // ----- the count, in one pass -----------------------------------------------------------

  /** The starts still standing: a reset wipes them, a start adds its token, a
      blameless death takes its token away. */
  function Standing(evs: seq<Event>, phase: string): set<Json> {
    if evs == [] then {}
    else
      var e := evs[|evs| - 1];
      var before := Standing(evs[..|evs| - 1], phase);
      if Floors(e, phase) then {}
      else if Starts(e, phase) then before + {StartToken(e)}
      else if Forgives(e, phase) then before - {DeathToken(e)}
      else before
  }

  /** A start's token is new to the phase's log. */
  predicate FreshTokens(evs: seq<Event>, phase: string) {
    forall i, j :: 0 <= i < j < |evs| && Starts(evs[j], phase) ==>
      !(Starts(evs[i], phase) && StartToken(evs[i]) == StartToken(evs[j]))
      && !(Forgives(evs[i], phase) && DeathToken(evs[i]) == StartToken(evs[j]))
  }

  function StartTokens(evs: seq<Event>, phase: string): set<Json> {
    set i | 0 <= i < |evs| && Starts(evs[i], phase) :: StartToken(evs[i])
  }

  lemma StartTokensSnoc(evs: seq<Event>, phase: string)
    requires evs != []
    ensures var e := evs[|evs| - 1];
            StartTokens(evs, phase) ==
              StartTokens(evs[..|evs| - 1], phase) + (if Starts(e, phase) then {StartToken(e)} else {})
  {
    var init := evs[..|evs| - 1];
    forall t | t in StartTokens(evs, phase)
      ensures t in StartTokens(init, phase) || (Starts(evs[|evs| - 1], phase) && t == StartToken(evs[|evs| - 1]))
    {
      var i :| 0 <= i < |evs| && Starts(evs[i], phase) && StartToken(evs[i]) == t;
      if i < |evs| - 1 {
        assert init[i] == evs[i];
      }
    }
    forall t | t in StartTokens(init, phase)
      ensures t in StartTokens(evs, phase)
    {
      var i :| 0 <= i < |init| && Starts(init[i], phase) && StartToken(init[i]) == t;
      assert evs[i] == init[i];
    }
  }

  lemma {:induction false} ForgivenHas(evs: seq<Event>, phase: string, t: Json) returns (i: nat)
    requires t in Forgiven(evs, phase)
    ensures i < |evs| && Forgives(evs[i], phase) && DeathToken(evs[i]) == t
  {
    var n := |evs| - 1;
    if Forgives(evs[n], phase) && DeathToken(evs[n]) == t {
      i := n;
    } else {
      i := ForgivenHas(evs[..n], phase, t);
    }
  }

  lemma {:induction false} ScopeIsTail(evs: seq<Event>, phase: string) returns (k: nat)
    ensures k <= |evs| && Scope(evs, phase) == evs[k..]
  {
    if evs == [] || Floors(evs[|evs| - 1], phase) {
      k := |evs|;
    } else {
      k := ScopeIsTail(evs[..|evs| - 1], phase);
    }
  }

  lemma FreshTail(evs: seq<Event>, phase: string, k: nat)
    requires k <= |evs| && FreshTokens(evs, phase)
    ensures FreshTokens(evs[k..], phase)
  {
  }

  lemma SizeOneMore(tokens: set<Json>, forgiven: set<Json>, t: Json)
    requires t !in tokens
    ensures |(tokens + {t}) - forgiven| == |tokens - forgiven| + (if t in forgiven then 0 else 1)
  {
    if t in forgiven {
      assert (tokens + {t}) - forgiven == tokens - forgiven;
    } else {
      assert (tokens + {t}) - forgiven == (tokens - forgiven) + {t};
    }
  }

  lemma FreshInit(evs: seq<Event>, phase: string)
    requires evs != [] && FreshTokens(evs, phase)
    ensures FreshTokens(evs[..|evs| - 1], phase)
  {
  }

  lemma {:induction false} CountIsSize(evs: seq<Event>, phase: string, forgiven: set<Json>)
    requires FreshTokens(evs, phase)
    ensures Count(evs, phase, forgiven) == |StartTokens(evs, phase) - forgiven|
  {
    if evs == [] {
      assert StartTokens(evs, phase) == {};
    } else {
      var init, e := evs[..|evs| - 1], evs[|evs| - 1];
      FreshInit(evs, phase);
      StartTokensSnoc(evs, phase);
      if Starts(e, phase) { NewToken(evs, phase); }
      hide FreshTokens, StartTokens, Starts;
      CountIsSize(init, phase, forgiven);
      if Starts(e, phase) { SizeOneMore(StartTokens(init, phase), forgiven, StartToken(e)); }
    }
  }

  lemma NewToken(evs: seq<Event>, phase: string)
    requires evs != [] && FreshTokens(evs, phase) && Starts(evs[|evs| - 1], phase)
    ensures StartToken(evs[|evs| - 1]) !in StartTokens(evs[..|evs| - 1], phase)
  {
    var init := evs[..|evs| - 1];
    forall i | 0 <= i < |init| && Starts(init[i], phase)
      ensures StartToken(init[i]) != StartToken(evs[|evs| - 1])
    {
      assert init[i] == evs[i];
    }
  }

  lemma NotYetForgiven(evs: seq<Event>, phase: string)
    requires evs != [] && FreshTokens(evs, phase) && Starts(evs[|evs| - 1], phase)
    ensures StartToken(evs[|evs| - 1]) !in Forgiven(Scope(evs[..|evs| - 1], phase), phase)
  {
    var init := evs[..|evs| - 1];
    var k := ScopeIsTail(init, phase);
    forall t | t in Forgiven(Scope(init, phase), phase)
      ensures t != StartToken(evs[|evs| - 1])
    {
      var i := ForgivenHas(Scope(init, phase), phase, t);
      assert evs[k + i] == Scope(init, phase)[i];
    }
  }

  /** The one-pass machine keeps exactly the unforgiven starts of the scope. */
  lemma {:induction false} StandingIsUnforgiven(evs: seq<Event>, phase: string)
    requires FreshTokens(evs, phase)
    ensures Standing(evs, phase) == StartTokens(Scope(evs, phase), phase) - Forgiven(Scope(evs, phase), phase)
  {
    if evs == [] || Floors(evs[|evs| - 1], phase) {
      assert StartTokens([], phase) == {};
    } else {
      var init, e := evs[..|evs| - 1], evs[|evs| - 1];
      StandingIsUnforgiven(init, phase);
      var scope := Scope(init, phase);
      assert (scope + [e])[..|scope|] == scope;
      StartTokensSnoc(scope + [e], phase);
      if Starts(e, phase) {
        NotYetForgiven(evs, phase);
      }
    }
  }

  /** Floor scan, forgiven set and count together give the size of the set the
      one-pass machine keeps. */
  lemma AttemptsIsStanding(evs: seq<Event>, phase: string)
    requires FreshTokens(evs, phase)
    ensures Attempts(evs, phase) == |Standing(evs, phase)|
  {
    var k := ScopeIsTail(evs, phase);
    FreshTail(evs, phase, k);
    CountIsSize(Scope(evs, phase), phase, Forgiven(Scope(evs, phase), phase));
    StandingIsUnforgiven(evs, phase);
  }

  // ----- forgiveness ------------------------------------------------------------------------

  predicate HasFloor(evs: seq<Event>, phase: string) {
    exists i :: 0 <= i < |evs| && Floors(evs[i], phase)
  }

  lemma {:induction false} ScopeConcat(xs: seq<Event>, ys: seq<Event>, phase: string)
    ensures Scope(xs + ys, phase) == if HasFloor(ys, phase) then Scope(ys, phase) else Scope(xs, phase) + ys
    decreases |ys|
  {
    if ys == [] {
      assert xs + ys == xs && !HasFloor(ys, phase);
    } else {
      HasFloorSnoc(ys, phase);
      hide HasFloor, Floors;
      var init, e := ys[..|ys| - 1], ys[|ys| - 1];
      assert (xs + ys)[..|xs + ys| - 1] == xs + init;
      ScopeConcat(xs, init, phase);
      assert (Scope(xs, phase) + init) + [e] == Scope(xs, phase) + ys;
    }
  }

  lemma HasFloorSnoc(ys: seq<Event>, phase: string)
    requires ys != []
    ensures HasFloor(ys, phase) <==> HasFloor(ys[..|ys| - 1], phase) || Floors(ys[|ys| - 1], phase)
  {
    var init := ys[..|ys| - 1];
    if HasFloor(init, phase) {
      var i :| 0 <= i < |init| && Floors(init[i], phase);
      assert ys[i] == init[i];
    }
    if HasFloor(ys, phase) && !Floors(ys[|ys| - 1], phase) {
      var i :| 0 <= i < |ys| && Floors(ys[i], phase);
      assert init[i] == ys[i];
    }
  }

  lemma {:induction false} ForgivenConcat(xs: seq<Event>, ys: seq<Event>, phase: string)
    ensures Forgiven(xs + ys, phase) == Forgiven(xs, phase) + Forgiven(ys, phase)
    decreases |ys|
  {
    if ys == [] {
      assert xs + ys == xs;
    } else {
      assert (xs + ys)[..|xs + ys| - 1] == xs + ys[..|ys| - 1];
      ForgivenConcat(xs, ys[..|ys| - 1], phase);
    }
  }

  lemma {:induction false} CountConcat(xs: seq<Event>, ys: seq<Event>, phase: string, forgiven: set<Json>)
    ensures Count(xs + ys, phase, forgiven) == Count(xs, phase, forgiven) + Count(ys, phase, forgiven)
    decreases |ys|
  {
    if ys == [] {
      assert xs + ys == xs;
    } else {
      assert (xs + ys)[..|xs + ys| - 1] == xs + ys[..|ys| - 1];
      CountConcat(xs, ys[..|ys| - 1], phase, forgiven);
    }
  }

  lemma {:induction false} DeathForgives(evs: seq<Event>, phase: string, d: nat)
    requires d < |evs| && Forgives(evs[d], phase)
    ensures DeathToken(evs[d]) in Forgiven(evs, phase)
  {
    if d < |evs| - 1 {
      DeathForgives(evs[..|evs| - 1], phase, d);
    }
  }

  /** A start that a later death forgives leaves the count as if it had never
      happened, whatever lies between and after - a moved floor included. */
  lemma ForgivenStartNeverHappened(xs: seq<Event>, start: Event, ys: seq<Event>, phase: string, d: nat)
    requires Starts(start, phase)
    requires d < |ys| && Forgives(ys[d], phase) && DeathToken(ys[d]) == StartToken(start)
    ensures Attempts(xs + [start] + ys, phase) == Attempts(xs + ys, phase)
  {
    ScopeConcat(xs + [start], ys, phase);
    ScopeConcat(xs, ys, phase);
    if !HasFloor(ys, phase) {
      assert (xs + [start])[..|xs|] == xs;
      CountForgiven(Scope(xs, phase), start, ys, phase, d);
    }
  }

  lemma OneStart(start: Event, phase: string, forgiven: set<Json>)
    requires Starts(start, phase)
    ensures Forgiven([start], phase) == {}
    ensures Count([start], phase, forgiven) == if StartToken(start) in forgiven then 0 else 1
  {
    assert [start][..0] == [];
  }

  lemma CountForgiven(before: seq<Event>, start: Event, ys: seq<Event>, phase: string, d: nat)
    requires Starts(start, phase)
    requires d < |ys| && Forgives(ys[d], phase) && DeathToken(ys[d]) == StartToken(start)
    ensures var with, without := before + [start] + ys, before + ys;
            Count(with, phase, Forgiven(with, phase)) == Count(without, phase, Forgiven(without, phase))
  {
    var one := [start];
    var forgiven := Forgiven(before + ys, phase);
    OneStart(start, phase, forgiven);
    DeathForgives(ys, phase, d);
    hide Forgiven, Count, Starts, Forgives;
    ForgivenConcat(before + one, ys, phase);
    ForgivenConcat(before, one, phase);
    ForgivenConcat(before, ys, phase);
    assert Forgiven(before + one + ys, phase) == forgiven;
    CountConcat(before + one, ys, phase, forgiven);
    CountConcat(before, one, phase, forgiven);
    CountConcat(before, ys, phase, forgiven);
  }
}
