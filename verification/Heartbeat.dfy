/** The heartbeat daemon's loop: what it reports, and when, for every sequence
    of tick outcomes. */
module Heartbeat {
  import opened Values

  const STRIKE_LIMIT := 3

  datatype Action = Ok | Strike | ExitWorkerDead | ExitClaimGone

  /** How one ping to the store went. */
  datatype Ping = Landed | Mismatch | Failure

  /** What one tick finds: whether the worker lives, and how the ping goes. */
  datatype Probe = Probe(alive: bool, ping: Ping)

  datatype Effect = FailureNotice(tick: nat) | DeathReport(tick: nat)

  /** One tick: a dead worker is seen before any ping; a claim that moved is an
      exit; anything else that goes wrong is a strike. */
  function TickOnce(p: Probe): Action {
    if !p.alive then ExitWorkerDead
    else match p.ping
      case Landed => Action.Ok
      case Mismatch => ExitClaimGone
      case Failure => Strike
  }

  function Actions(probes: seq<Probe>): seq<Action> {
    seq(|probes|, i requires 0 <= i < |probes| => TickOnce(probes[i]))
  }

  predicate Exits(a: Action) {
    a.ExitWorkerDead? || a.ExitClaimGone?
  }

  /** The tick the loop leaves at, or the number of ticks when it never does. */
  function FirstExit(ticks: seq<Action>): (n: nat)
    ensures n <= |ticks| && (n < |ticks| ==> Exits(ticks[n]))
    ensures forall i :: 0 <= i < n ==> !Exits(ticks[i])
  {
    if ticks == [] || Exits(ticks[0]) then 0 else 1 + FirstExit(ticks[1..])
  }

  /** Length of the run of strikes ending just before tick `i`. */
  function StrikesBefore(ticks: seq<Action>, i: nat): nat
    requires i <= |ticks|
  {
    if i == 0 || !ticks[i - 1].Strike? then 0 else StrikesBefore(ticks, i - 1) + 1
  }

  /** The third strike of its run. */
  predicate ThirdStrike(ticks: seq<Action>, i: nat)
    requires i < |ticks|
  {
    ticks[i].Strike? && StrikesBefore(ticks, i) == STRIKE_LIMIT - 1
  }

  predicate Ascending(effects: seq<Effect>) {
    forall i, j :: 0 <= i < j < |effects| ==> effects[i].tick < effects[j].tick
  }

  /** The failure notices of the first `n` ticks. */
  function Notices(ticks: seq<Action>, n: nat): seq<Effect>
    requires n <= |ticks|
  {
    if n == 0 then []
    else Notices(ticks, n - 1) + (if ThirdStrike(ticks, n - 1) then [FailureNotice(n - 1)] else [])
  }

  /** Everything the loop reports. */
  function Reports(ticks: seq<Action>): seq<Effect> {
    var n := FirstExit(ticks);
    Notices(ticks, n) + (if n < |ticks| && ticks[n].ExitWorkerDead? then [DeathReport(n)] else [])
  }

  /** The loop. `notifyRaises` and `reportRaises` say which callbacks throw;
      both calls are wrapped, so neither changes what happens next. */
  method RunLoop(probes: seq<Probe>, notifyRaises: set<nat>, reportRaises: bool)
      returns (effects: seq<Effect>, raised: nat, code: int)
    ensures code == 0 && effects == Reports(Actions(probes))
  {
    hide ThirdStrike;
    ghost var ticks := Actions(probes);
    effects := [];
    raised := 0;
    code := 0;
    var strikes := 0;
    var tick := 0;
    while tick < |probes|
      invariant tick <= FirstExit(ticks) && strikes == StrikesBefore(ticks, tick) && code == 0
      invariant effects == Notices(ticks, tick)
    {
      var action := TickOnce(probes[tick]);
      assert ticks[tick] == action;
      if action.ExitWorkerDead? {
        if reportRaises { raised := raised + 1; }
        effects := effects + [DeathReport(tick)];
        return;
      }
      if action.ExitClaimGone? { return; }
      ThirdIf(ticks, tick);
      if action.Strike? {
        strikes := strikes + 1;
        if strikes == STRIKE_LIMIT {
          if tick in notifyRaises { raised := raised + 1; }
          effects := effects + [FailureNotice(tick)];
        }
      } else {
        strikes := 0;
      }
      tick := tick + 1;
    }
  }

  lemma ThirdIf(ticks: seq<Action>, i: nat)
    requires i < |ticks|
    ensures ThirdStrike(ticks, i) <==> ticks[i].Strike? && StrikesBefore(ticks, i) + 1 == STRIKE_LIMIT
  {
  }

  lemma {:induction false} NoticesAre(ticks: seq<Action>, n: nat)
    requires n <= |ticks|
    ensures Ascending(Notices(ticks, n)) && forall e :: e in Notices(ticks, n) ==> e.FailureNotice? && e.tick < n
    ensures forall i: nat :: FailureNotice(i) in Notices(ticks, n) <==> i < n && ThirdStrike(ticks, i)
  {
    hide ThirdStrike;
    if n > 0 {
      NoticesAre(ticks, n - 1);
    }
  }

  /** A failure notice goes out exactly at the third strike of a run, before
      the loop first exits; a death report at most once, only as the last act,
      and only when the exit is a dead worker - never when the claim is gone. */
  lemma ReportsAre(ticks: seq<Action>)
    ensures var r, n := Reports(ticks), FirstExit(ticks);
            && Ascending(r)
            && (forall i: nat :: FailureNotice(i) in r <==> i < n && ThirdStrike(ticks, i))
            && (forall i: nat :: DeathReport(i) in r <==> i == n < |ticks| && ticks[n].ExitWorkerDead?)
            && ((exists i: nat :: DeathReport(i) in r) ==> r[|r| - 1] == DeathReport(n))
  {
    NoticesAre(ticks, FirstExit(ticks));
    hide ThirdStrike;
  }

  /** A maximal run of strikes. */
  predicate MaximalRun(ticks: seq<Action>, a: nat, b: nat) {
    && a < b <= |ticks| && (forall i :: a <= i < b ==> ticks[i].Strike?)
    && (a > 0 ==> !ticks[a - 1].Strike?) && (b < |ticks| ==> !ticks[b].Strike?)
  }

  lemma {:induction false} StrikesInRun(ticks: seq<Action>, a: nat, i: nat)
    requires a <= i <= |ticks| && (forall k :: a <= k < i ==> ticks[k].Strike?) && (a > 0 ==> !ticks[a - 1].Strike?)
    ensures StrikesBefore(ticks, i) == i - a
    decreases i
  {
    if i > a {
      StrikesInRun(ticks, a, i - 1);
    }
  }

  /** A run of three or more strikes is announced once, at its third strike; a
      shorter one never. */
  lemma OneNoticePerRun(ticks: seq<Action>, a: nat, b: nat, i: nat)
    requires MaximalRun(ticks, a, b) && a <= i < b
    ensures ThirdStrike(ticks, i) <==> i == a + STRIKE_LIMIT - 1
  {
    StrikesInRun(ticks, a, i);
  }

  /** Every strike belongs to one maximal run, so no notice comes from nowhere. */
  lemma {:induction false} StrikeHasRun(ticks: seq<Action>, i: nat) returns (a: nat, b: nat)
    requires i < |ticks| && ticks[i].Strike?
    ensures MaximalRun(ticks, a, b) && a <= i < b
  {
    a, b := i, i + 1;
    while a > 0 && ticks[a - 1].Strike?
      invariant a <= i && forall k :: a <= k <= i ==> ticks[k].Strike?
    {
      a := a - 1;
    }
    while b < |ticks| && ticks[b].Strike?
      invariant i < b <= |ticks| && forall k :: a <= k < b ==> ticks[k].Strike?
    {
      b := b + 1;
    }
  }

  /** The notices and the long runs of failures match one to one: a notice goes
      out at a tick exactly when it is the third of a maximal run of strikes
      that the loop lived through that far. */
  lemma NoticePerLongRun(ticks: seq<Action>, i: nat)
    ensures FailureNotice(i) in Reports(ticks) <==>
              i < FirstExit(ticks) && exists a: nat, b: nat :: MaximalRun(ticks, a, b) && i == a + STRIKE_LIMIT - 1 < b
  {
    ReportsAre(ticks);
    if i < FirstExit(ticks) && ticks[i].Strike? {
      var a, b := StrikeHasRun(ticks, i);
      OneNoticePerRun(ticks, a, b, i);
      OneRun(ticks, a, b, i);
    }
    hide ThirdStrike, Reports;
  }

  /** Two maximal runs over one strike are the same run. */
  lemma OneRun(ticks: seq<Action>, a: nat, b: nat, i: nat)
    requires MaximalRun(ticks, a, b) && a <= i < b
    ensures forall c: nat, d: nat :: MaximalRun(ticks, c, d) && c <= i < d ==> c == a && d == b
  {
    forall c: nat, d: nat | MaximalRun(ticks, c, d) && c <= i < d
      ensures c == a && d == b
    {
      StrikesInRun(ticks, a, i);
      StrikesInRun(ticks, c, i);
    }
  }

  // ----- the reports, by what the ticks found ------------------------------------------------------

  /** The tick found the worker alive and could not ping for some other reason
      than a claim that moved. */
  predicate Fails(p: Probe) {
    p.alive && p.ping.Failure?
  }

  /** The loop is still running after tick `i`. */
  predicate RunsPast(probes: seq<Probe>, i: int) {
    forall j :: 0 <= j <= i && j < |probes| ==> probes[j].alive && !probes[j].ping.Mismatch?
  }

  lemma {:induction false} ExitsWhere(probes: seq<Probe>, i: nat)
    requires i < |probes|
    ensures i < FirstExit(Actions(probes)) <==> RunsPast(probes, i)
    ensures FirstExit(Actions(probes)) == i <==> RunsPast(probes, i - 1) && !(probes[i].alive && !probes[i].ping.Mismatch?)
  {
    var n := FirstExit(Actions(probes));
    assert forall j :: 0 <= j < n ==> !Exits(Actions(probes)[j]);
    assert forall j :: 0 <= j < |probes| ==> (Exits(Actions(probes)[j]) <==> !(probes[j].alive && !probes[j].ping.Mismatch?));
  }

  /** A failure is announced exactly when it is the third in a row, no more and
      no less, and the loop has not ended; a death exactly when the worker is
      found dead while the loop still runs. */
  lemma ReportedWhen(probes: seq<Probe>, i: nat)
    ensures FailureNotice(i) in Reports(Actions(probes)) <==>
              && i < |probes| && RunsPast(probes, i) && i >= 2
              && Fails(probes[i]) && Fails(probes[i - 1]) && Fails(probes[i - 2])
              && (i >= 3 ==> !Fails(probes[i - 3]))
    ensures DeathReport(i) in Reports(Actions(probes)) <==> i < |probes| && RunsPast(probes, i - 1) && !probes[i].alive
  {
    var ticks := Actions(probes);
    ReportsAre(ticks);
    if i < |probes| {
      ExitsWhere(probes, i);
      assert forall j :: 0 <= j < |probes| ==> (ticks[j].Strike? <==> Fails(probes[j]));
      ThirdIs(ticks, i);
    }
    hide Reports, ThirdStrike, FirstExit, Actions;
  }

  lemma ThirdIs(ticks: seq<Action>, i: nat)
    requires i < |ticks|
    ensures ThirdStrike(ticks, i) <==>
              && i >= 2 && ticks[i].Strike? && ticks[i - 1].Strike? && ticks[i - 2].Strike?
              && (i >= 3 ==> !ticks[i - 3].Strike?)
  {
    Unroll(ticks, i);
    if i >= 1 { Unroll(ticks, i - 1); }
    if i >= 2 { Unroll(ticks, i - 2); }
    hide StrikesBefore;
  }

  lemma Unroll(ticks: seq<Action>, i: nat)
    requires i < |ticks|
    ensures StrikesBefore(ticks, i) == if i == 0 || !ticks[i - 1].Strike? then 0 else StrikesBefore(ticks, i - 1) + 1
  {
  }
}
