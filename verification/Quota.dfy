/** The project's quota pause: one row, a canary that must survive its window
    before everyone resumes, and the wall-clock arithmetic behind the resume
    time. Instants are whole seconds. */
module Quota {
  import opened Values

  const PAUSE_BUFFER := 120
  const CANARY_WINDOW := 180
  const DAY := 86400

  // ----- the reset time ------------------------------------------------------------

  /** What the reset fragment's digits and meridiem say. */
  datatype Token = Token(hour: nat, minute: Option<nat>, pm: Option<bool>)

  /** Seconds into the day, or None when no time format reads the token:
      12-hour with minutes, 12-hour bare, 24-hour with minutes. */
  function WallClock(t: Token): (s: Option<nat>)
    ensures s.Some? ==> s.value < DAY
  {
    if t.pm.Some? then
      var minute := if t.minute.Some? then t.minute.value else 0;
      if 1 <= t.hour <= 12 && minute < 60
      then Some(((t.hour % 12) + (if t.pm.value then 12 else 0)) * 3600 + minute * 60)
      else None
    else if t.minute.Some? && t.hour < 24 && t.minute.value < 60 then Some(t.hour * 3600 + t.minute.value * 60)
    else None
  }

  /** Seconds into the local day at an instant. */
  function LocalTime(instant: int, offset: int): (s: nat)
    ensures s < DAY
  {
    (instant + offset) % DAY
  }

  /** Today at that wall-clock time, or tomorrow if it has passed. */
  function ParseReset(token: Option<Token>, offset: Option<int>, now: int): Option<int> {
    if token.None? || offset.None? || WallClock(token.value).None? then None
    else
      var candidate := now - LocalTime(now, offset.value) + WallClock(token.value).value;
      Some(if candidate <= now then candidate + DAY else candidate)
  }

  lemma LocalTimeShift(instant: int, offset: int, d: int)
    requires 0 <= LocalTime(instant, offset) + d < DAY
    ensures LocalTime(instant + d, offset) == LocalTime(instant, offset) + d
  {
    var q := (instant + offset) / DAY;
    assert instant + offset == DAY * q + LocalTime(instant, offset);
    assert instant + d + offset == DAY * q + (LocalTime(instant, offset) + d);
    DivisionUnique(instant + d + offset, q, LocalTime(instant, offset) + d);
  }

  lemma DivisionUnique(x: int, q: int, r: int)
    requires x == DAY * q + r && 0 <= r < DAY
    ensures x % DAY == r
  {
    var d := x / DAY - q;
    assert DAY * d == r - x % DAY;
  }

  lemma NextDaySameTime(instant: int, offset: int)
    ensures LocalTime(instant + DAY, offset) == LocalTime(instant, offset)
  {
    var q := (instant + offset) / DAY;
    DivisionUnique(instant + DAY + offset, q + 1, LocalTime(instant, offset));
  }

  // ----- what a token says, by how a time is written ---------------------------------------

  /** The hour of minute `m` of the day on a twelve-hour dial: the first hour and
      the thirteenth are both 12. */
  function DialHour(m: nat): nat {
    if m < 60 then 12 else if m < 780 then m / 60 else (m - 720) / 60
  }

  /** The ways to write minute `m` of the day: on a 24-hour clock, on a dial with
      am before noon and pm from noon on, and bare at a full hour of the dial. */
  predicate Spells(t: Token, m: nat) {
    m < 1440 && (
      || t == Token.Token(m / 60, Some(m % 60), None)
      || t == Token.Token(DialHour(m), Some(m % 60), Some(m >= 720))
      || (m % 60 == 0 && t == Token.Token(DialHour(m), None, Some(m >= 720))))
  }

  lemma SpellingsRead(t: Token, m: nat)
    requires Spells(t, m)
    ensures WallClock(t) == Some(m * 60)
  {
    var h := m / 60;
    assert m == 60 * h + m % 60 && h < 24;
    if m >= 780 {
      assert (m - 720) / 60 == h - 12;
    }
  }

  lemma ReadingsAreSpelled(t: Token, s: nat)
    requires WallClock(t) == Some(s)
    ensures s % 60 == 0 && Spells(t, s / 60)
  {
    var minute := if t.minute.Some? then t.minute.value else 0;
    var h := if t.pm.None? then t.hour else t.hour % 12 + (if t.pm.value then 12 else 0);
    assert s == (60 * h + minute) * 60;
    MinuteParts(60 * h + minute, h, minute);
    if t.pm.Some? && t.pm.value && t.hour < 12 {
      MinuteParts(60 * t.hour + minute, t.hour, minute);
    }
  }

  lemma MinuteParts(m: nat, h: nat, minute: nat)
    requires m == 60 * h + minute && minute < 60
    ensures m / 60 == h && m % 60 == minute && (m * 60) / 60 == m && (m * 60) % 60 == 0
  {
  }

  /** A token says a time exactly when it is one of that minute's spellings; in
      particular 12am is midnight, 12pm is noon, and 3pm is 54000. */
  lemma ReadsSpellings(t: Token, s: nat)
    ensures WallClock(t) == Some(s) <==> s % 60 == 0 && Spells(t, s / 60)
    ensures WallClock(Token.Token(12, None, Some(false))) == Some(0)
    ensures WallClock(Token.Token(12, None, Some(true))) == Some(43200)
    ensures WallClock(Token.Token(3, None, Some(true))) == Some(54000)
  {
    if WallClock(t) == Some(s) { ReadingsAreSpelled(t, s); }
    if s % 60 == 0 && Spells(t, s / 60) { SpellingsRead(t, s / 60); }
    hide Spells;
  }

  /** The local clock shows minute `m` of the day. */
  predicate ClockShows(instant: int, offset: int, m: nat) {
    (instant + offset) % 86400 == m * 60
  }

  /** And it says nothing at all exactly outside the dial or the clock: an hour
      not from 1 to 12 with am or pm, not below 24 without, a bare hour without
      either, or sixty minutes and more. */
  lemma SaysNothing(t: Token)
    ensures WallClock(t).None? <==>
              || (t.minute.Some? && t.minute.value >= 60)
              || (if t.pm.Some? then t.hour < 1 || t.hour > 12 else t.minute.None? || t.hour >= 24)
  {
  }

  lemma LocalTimes(now: int, offset: int, want: nat)
    requires want < DAY
    ensures var candidate := now - LocalTime(now, offset) + want;
            var r := if candidate <= now then candidate + DAY else candidate;
            now < r <= now + DAY && LocalTime(r, offset) == want && forall t :: now < t < r ==> LocalTime(t, offset) != want
  {
    var at := LocalTime(now, offset);
    var r := if want <= at then now - at + want + DAY else now - at + want;
    LocalTimeShift(now, offset, want - at);
    NextDaySameTime(now + (want - at), offset);
    forall t | now < t < r
      ensures LocalTime(t, offset) != want
    {
      if at + (t - now) < DAY {
        LocalTimeShift(now, offset, t - now);
      } else {
        LocalTimeShift(now, offset, t - DAY - now);
        NextDaySameTime(t - DAY, offset);
      }
    }
  }

  /** However minute `m` of the day is written, the reset read off it is the
      least instant strictly after now at which the local clock shows it. */
  lemma ResetIsNext(token: Token, m: nat, offset: int, now: int)
    requires Spells(token, m)
    ensures var r := ParseReset(Some(token), Some(offset), now);
            && r.Some? && now < r.value <= now + 86400
            && ClockShows(r.value, offset, m) && forall t :: now < t < r.value ==> !ClockShows(t, offset, m)
  {
    SpellingsRead(token, m);
    LocalTimes(now, offset, m * 60);
    assert forall t :: ClockShows(t, offset, m) <==> LocalTime(t, offset) == m * 60;
    hide WallClock, Spells, LocalTime, ClockShows;
  }

  /** No reset is read when there is no token, no known zone, or a token that
      writes no time: the stuck bucket. */
  lemma StuckIff(token: Option<Token>, offset: Option<int>, now: int)
    ensures ParseReset(token, offset, now).None? <==>
              token.None? || offset.None? || forall m: nat :: !Spells(token.value, m)
  {
    if token.Some? {
      if WallClock(token.value).Some? {
        ReadingsAreSpelled(token.value, WallClock(token.value).value);
      }
      forall m: nat | Spells(token.value, m)
        ensures WallClock(token.value).Some?
      {
        SpellingsRead(token.value, m);
      }
    }
  }

  // ----- the pause row ----------------------------------------------------------------

  /** A timestamp column: SQL NULL, a text that does not parse, or an instant. */
  datatype Stamp = Unset | Garbled | Moment(t: int)

  datatype Pause = Pause(until: Stamp, signature: string, line: string, canary: Option<string>, deadline: Stamp, createdAt: int)

  datatype Decision = Idle | Dispatch | Resume

  function Paused(reset: Option<int>, signature: string, line: string, now: int): Pause {
    Pause(if reset.None? then Unset else Moment(reset.value + PAUSE_BUFFER), signature, line, None, Unset, now)
  }

  function Decide(row: Option<Pause>, plan: string, now: int): (Decision, Option<Pause>) {
    if row.None? || row.value.until.Garbled? || row.value.deadline.Garbled? then (Dispatch, row)
    else if row.value.until.Unset? || now < row.value.until.t then (Idle, row)
    else if row.value.canary.None? then
      (Dispatch, Some(row.value.(canary := Some(plan), deadline := Moment(now + CANARY_WINDOW))))
    else if row.value.deadline.Unset? || now >= row.value.deadline.t then (Resume, None)
    else if row.value.canary.value == plan then (Dispatch, row)
    else (Idle, row)
  }

  /** The pause a death writes runs from now to two minutes past the reset, with
      no canary under way: stuck when no reset was read, and otherwise ending at
      the first local m o'clock after now and 120 seconds. */
  lemma PauseEndsPastReset(token: Token, m: nat, offset: int, signature: string, line: string, now: int)
    requires Spells(token, m)
    ensures var p := Paused(ParseReset(Some(token), Some(offset), now), signature, line, now);
            && p == Pause(p.until, signature, line, None, Unset, now) && p.until.Moment?
            && now + 120 < p.until.t <= now + 86400 + 120 && ClockShows(p.until.t - 120, offset, m)
    ensures Paused(None, signature, line, now) == Pause(Unset, signature, line, None, Unset, now)
  {
    ResetIsNext(token, m, offset, now);
  }

  class QuotaTable {
    var row: Option<Pause>

    constructor ()
      ensures row == None
    {
      row := None;
    }

    /** Write the pause row, wiping whatever canary was under way. */
    method RecordPause(token: Option<Token>, offset: Option<int>, signature: string, line: string, now: int)
        returns (until: Option<int>)
      modifies this
      ensures row == Some(Paused(ParseReset(token, offset, now), signature, line, now))
      ensures until == (if row.value.until.Moment? then Some(row.value.until.t) else None)
      ensures until.Some? ==> now + 120 < until.value <= now + 86400 + 120
    {
      var reset := ParseReset(token, offset, now);
      until := None;
      if reset.Some? {
        LocalTimes(now, offset.value, WallClock(token.value).value);
        until := Some(reset.value + PAUSE_BUFFER);
      }
      row := Some(Pause(if until.None? then Unset else Moment(until.value), signature, line, None, Unset, now));
    }

    method ClearPause() returns (held: Option<Pause>)
      modifies this
      ensures held == old(row) && row == None
    {
      held := row;
      row := None;
    }

    /** The gate every dispatch asks. */
    method GateDecision(plan: string, now: int) returns (d: Decision)
      modifies this
      ensures (d, row) == Decide(old(row), plan, now)
    {
      if row.None? { return Dispatch; }
      var p := row.value;
      if p.until.Garbled? || p.deadline.Garbled? { return Dispatch; }
      if p.until.Unset? { return Idle; }
      if now < p.until.t { return Idle; }
      if p.canary.None? {
        row := Some(p.(canary := Some(plan), deadline := Moment(now + CANARY_WINDOW)));
        return Dispatch;
      }
      if p.deadline.Unset? || now >= p.deadline.t {
        row := None;
        return Resume;
      }
      d := if p.canary.value == plan then Dispatch else Idle;
    }

    /** A whole run of deaths, clears and asks on the row, and what each ask was
        told. */
    method Play(ms: seq<Move>) returns (told: seq<Option<Decision>>)
      modifies this
      ensures row == RowAfter(old(row), ms) && |told| == |ms|
      ensures forall k :: 0 <= k < |ms| ==> told[k] == if ms[k].Ask? then Some(Told(old(row), ms, k)) else None
    {
      hide Decide, ParseReset, Paused, RowAfter;
      told := [];
      ghost var start := row;
      assert RowAfter(start, []) == start by { RowAtStart(start); }
      assert ms[..0] == [];
      for k := 0 to |ms|
        invariant row == RowAfter(start, ms[..k]) && |told| == k
        invariant forall j :: 0 <= j < k ==> told[j] == if ms[j].Ask? then Some(Told(start, ms, j)) else None
      {
        StepRow(start, ms, k);
        match ms[k] {
          case Die(token, offset, signature, line, now) =>
            var until := RecordPause(token, offset, signature, line, now);
            told := told + [None];
          case Clear =>
            var held := ClearPause();
            told := told + [None];
          case Ask(plan, now) =>
            var d := GateDecision(plan, now);
            told := told + [Some(d)];
        }
      }
      assert ms[..|ms|] == ms;
    }
  }

  // ----- runs -----------------------------------------------------------------------------

  /** A worker dies of quota, the operator clears the pause, or a plan asks. */
  datatype Move =
    | Die(token: Option<Token>, offset: Option<int>, signature: string, line: string, now: int)
    | Clear
    | Ask(plan: string, now: int)

  /** The reset a death announced; None is a stuck pause. */
  function ResetOf(m: Move): Option<int>
    requires m.Die?
  {
    ParseReset(m.token, m.offset, m.now)
  }

  function Next(row: Option<Pause>, m: Move): Option<Pause> {
    match m
    case Die(_, _, signature, line, now) => Some(Paused(ResetOf(m), signature, line, now))
    case Clear => None
    case Ask(plan, now) => Decide(row, plan, now).1
  }

  function RowAfter(row: Option<Pause>, ms: seq<Move>): Option<Pause> {
    if ms == [] then row else Next(RowAfter(row, ms[..|ms| - 1]), ms[|ms| - 1])
  }

  /** What the plan asking at step `k` of the run is told. */
  function Told(row: Option<Pause>, ms: seq<Move>, k: nat): Decision
    requires k < |ms| && ms[k].Ask?
  {
    Decide(RowAfter(row, ms[..k]), ms[k].plan, ms[k].now).0
  }

  /** Canary and deadline are set together, nothing is garbled, and a deadline
      is a whole window past the pause. */
  predicate Sound(row: Option<Pause>) {
    row.Some? ==>
      && !row.value.until.Garbled? && !row.value.deadline.Garbled?
      && (row.value.canary.Some? <==> row.value.deadline.Moment?)
      && (row.value.canary.Some? ==> row.value.until.Moment? && row.value.deadline.t >= row.value.until.t + CANARY_WINDOW)
  }

  lemma {:induction false} RowsStaySound(row: Option<Pause>, ms: seq<Move>)
    requires Sound(row)
    ensures Sound(RowAfter(row, ms))
    decreases |ms|
  {
    if ms != [] {
      RowsStaySound(row, ms[..|ms| - 1]);
    }
  }

  /** Steps `from` to `to` are all asks. */
  predicate OnlyAsks(ms: seq<Move>, from: nat, to: nat) {
    from <= to <= |ms| && forall i :: from <= i < to ==> ms[i].Ask?
  }

  predicate NoneResumed(row: Option<Pause>, ms: seq<Move>, from: nat, to: nat)
    requires OnlyAsks(ms, from, to)
  {
    forall i :: from <= i < to ==> Told(row, ms, i) != Resume
  }

  /** The pause recorded at step `i`, as it stands after asks up to step `k`:
      unchanged, or with the first plan it let through as canary. */
  predicate Epoch(row: Option<Pause>, ms: seq<Move>, i: nat, k: nat)
    requires i < k <= |ms| && ms[i].Die? && OnlyAsks(ms, i + 1, k)
  {
    var base := Paused(ResetOf(ms[i]), ms[i].signature, ms[i].line, ms[i].now);
    var now := RowAfter(row, ms[..k]);
    if now == Some(base) then AllIdle(row, ms, i, k)
    else
      && ResetOf(ms[i]).Some? && now.Some? && now.value.canary.Some? && now.value.deadline.Moment?
      && now.value == base.(canary := now.value.canary, deadline := now.value.deadline)
      && now.value.deadline.t >= ResetOf(ms[i]).value + PAUSE_BUFFER + CANARY_WINDOW
      && OnlyCanary(row, ms, i, k, now.value.canary.value)
  }

  predicate AllIdle(row: Option<Pause>, ms: seq<Move>, i: nat, k: nat)
    requires i < k <= |ms| && OnlyAsks(ms, i + 1, k)
  {
    forall j :: i < j < k ==> Told(row, ms, j) == Idle
  }

  predicate OnlyCanary(row: Option<Pause>, ms: seq<Move>, i: nat, k: nat, plan: string)
    requires i < k <= |ms| && OnlyAsks(ms, i + 1, k)
  {
    forall j :: i < j < k && Told(row, ms, j) == Dispatch ==> ms[j].plan == plan
  }

  /** One more ask, told what it is told. */
  lemma OneMoreAsk(row: Option<Pause>, ms: seq<Move>, i: nat, k: nat, plan: string)
    requires i + 1 < k <= |ms| && OnlyAsks(ms, i + 1, k)
    ensures AllIdle(row, ms, i, k) <==> AllIdle(row, ms, i, k - 1) && Told(row, ms, k - 1) == Idle
    ensures OnlyCanary(row, ms, i, k, plan) <==>
              OnlyCanary(row, ms, i, k - 1, plan) && (Told(row, ms, k - 1) == Dispatch ==> ms[k - 1].plan == plan)
    ensures AllIdle(row, ms, i, k - 1) ==> OnlyCanary(row, ms, i, k - 1, plan)
  {
    hide Told;
  }

  lemma RowAtStart(row: Option<Pause>)
    ensures RowAfter(row, []) == row
  {
  }

  lemma StepRow(row: Option<Pause>, ms: seq<Move>, k: nat)
    requires k < |ms|
    ensures RowAfter(row, ms[..k + 1]) == Next(RowAfter(row, ms[..k]), ms[k])
  {
    assert ms[..k + 1][..k] == ms[..k];
  }

  /** One ask that does not resume: the row stays, or gains its canary. */
  lemma EpochStep(p: Pause, after: Option<Pause>, plan: string, now: int)
    requires !p.until.Garbled? && !p.deadline.Garbled? && (p.canary.Some? ==> p.deadline.Moment?)
    requires Decide(Some(p), plan, now).1 == after && Decide(Some(p), plan, now).0 != Resume
    ensures after.Some? && (p.canary.Some? ==> after == Some(p))
    ensures Decide(Some(p), plan, now).0 == Idle ==> after == Some(p)
    ensures Decide(Some(p), plan, now).0 == Dispatch ==>
              p.until.Moment? && p.until.t <= now && after.value.canary == Some(plan) && after.value.deadline.Moment?
    ensures p.canary.None? && Decide(Some(p), plan, now).0 == Dispatch ==>
              after.value == p.(canary := Some(plan), deadline := Moment(now + CANARY_WINDOW))
  {
  }

  lemma {:induction false} EpochHolds(row: Option<Pause>, ms: seq<Move>, i: nat, k: nat)
    requires i < k <= |ms| && ms[i].Die? && OnlyAsks(ms, i + 1, k) && NoneResumed(row, ms, i + 1, k)
    ensures Epoch(row, ms, i, k)
    decreases k
  {
    hide Decide;
    StepRow(row, ms, k - 1);
    if k > i + 1 {
      EpochHolds(row, ms, i, k - 1);
      assert Told(row, ms, k - 1) != Resume;
      OneMoreAsk(row, ms, i, k, ms[k - 1].plan);
      var before, after := RowAfter(row, ms[..k - 1]), RowAfter(row, ms[..k]);
      assert (Told(row, ms, k - 1), after) == Decide(before, ms[k - 1].plan, ms[k - 1].now);
      EpochStep(before.value, after, ms[k - 1].plan, ms[k - 1].now);
      if before.value.canary.Some? { OneMoreAsk(row, ms, i, k, before.value.canary.value); }
      hide RowAfter, AllIdle, OnlyCanary, NoneResumed;
    }
  }

  /** No plan is dispatched while the pause is stuck, nor before its end. */
  lemma NoDispatchWhilePaused(row: Option<Pause>, ms: seq<Move>, i: nat, k: nat)
    requires i < k < |ms| && ms[i].Die? && OnlyAsks(ms, i + 1, k + 1) && NoneResumed(row, ms, i + 1, k)
    ensures ResetOf(ms[i]).None? || ms[k].now < ResetOf(ms[i]).value + 120 ==> Told(row, ms, k) == Idle
  {
    EpochHolds(row, ms, i, k);
  }

  /** Until it ends, one pause lets one plan through and no other. */
  lemma OneCanary(row: Option<Pause>, ms: seq<Move>, i: nat, j: nat, k: nat)
    requires i < j < k < |ms| && ms[i].Die? && OnlyAsks(ms, i + 1, k + 1) && NoneResumed(row, ms, i + 1, k)
    requires Told(row, ms, j) == Dispatch && Told(row, ms, k) == Dispatch
    ensures ms[j].plan == ms[k].plan
  {
    EpochHolds(row, ms, i, k);
  }

  /** A resume comes no earlier than the reset, the buffer and the window. */
  lemma ResumeIsLate(row: Option<Pause>, ms: seq<Move>, i: nat, k: nat)
    requires i < k < |ms| && ms[i].Die? && OnlyAsks(ms, i + 1, k + 1) && NoneResumed(row, ms, i + 1, k)
    requires Told(row, ms, k) == Resume
    ensures ResetOf(ms[i]).Some? && ms[k].now >= ResetOf(ms[i]).value + 120 + 180
  {
    EpochHolds(row, ms, i, k);
  }

  lemma {:induction false} ClearStaysClear(row: Option<Pause>, ms: seq<Move>, j: nat, k: nat)
    requires j <= k <= |ms| && OnlyAsks(ms, j, k) && RowAfter(row, ms[..j]) == None
    ensures RowAfter(row, ms[..k]) == None
    decreases k
  {
    if j < k {
      ClearStaysClear(row, ms, j, k - 1);
      StepRow(row, ms, k - 1);
    }
  }

  /** One pause resumes at most once: between two resumes somebody died of
      quota again. After a resume, and after a clear, everybody dispatches. */
  lemma OneResumePerPause(row: Option<Pause>, ms: seq<Move>, j: nat, k: nat)
    requires j < k < |ms| && OnlyAsks(ms, j + 1, k + 1)
    requires ms[j].Clear? || (ms[j].Ask? && Told(row, ms, j) == Resume)
    ensures Told(row, ms, k) == Dispatch
  {
    StepRow(row, ms, j);
    ClearStaysClear(row, ms, j + 1, k);
  }

  lemma {:induction false} StuckStaysStuck(row: Option<Pause>, ms: seq<Move>, i: nat, k: nat)
    requires i < k <= |ms| && ms[i].Die? && ResetOf(ms[i]).None? && OnlyAsks(ms, i + 1, k)
    ensures RowAfter(row, ms[..k]) == Some(Paused(None, ms[i].signature, ms[i].line, ms[i].now))
    decreases k
  {
    StepRow(row, ms, k - 1);
    if k > i + 1 {
      StuckStaysStuck(row, ms, i, k - 1);
    }
  }

  /** A stuck pause lets nobody through however long they ask, and a clear ends
      it for everybody at once: the row is gone, no canary is held over, and
      every later ask dispatches until the next death. */
  lemma ClearEndsAStuckPause(row: Option<Pause>, ms: seq<Move>, i: nat, j: nat, k: nat)
    requires i < j < |ms| && k < |ms| && ms[i].Die? && ResetOf(ms[i]).None? && ms[j].Clear? && ms[k].Ask?
    requires OnlyAsks(ms, i + 1, j)
    ensures i < k < j ==> Told(row, ms, k) == Idle
    ensures j < k && OnlyAsks(ms, j + 1, k) ==> RowAfter(row, ms[..k]) == None && Told(row, ms, k) == Dispatch
  {
    if i < k < j {
      StuckStaysStuck(row, ms, i, k);
    }
    if j < k && OnlyAsks(ms, j + 1, k) {
      StepRow(row, ms, j);
      ClearStaysClear(row, ms, j + 1, k);
    }
  }

  /** The canary that keeps asking after its window ends the pause, so no pause
      with a reset is for ever. */
  lemma CanaryEndsThePause(row: Option<Pause>, ms: seq<Move>, i: nat, k: nat, plan: string, now: int)
    requires i < k <= |ms| && ms[i].Die? && OnlyAsks(ms, i + 1, k) && NoneResumed(row, ms, i + 1, k)
    requires ResetOf(ms[i]).Some? && now >= ResetOf(ms[i]).value + 120
    requires forall j :: i < j < k ==> ms[j].now <= now - 180
    ensures Decide(RowAfter(row, ms[..k]), plan, now).0 ==
              if exists j :: i < j < k && Told(row, ms, j) == Dispatch then Resume else Dispatch
  {
    DeadlinePassed(row, ms, i, k, now);
    EpochHolds(row, ms, i, k);
  }

  lemma {:induction false} DeadlinePassed(row: Option<Pause>, ms: seq<Move>, i: nat, k: nat, now: int)
    requires i < k <= |ms| && ms[i].Die? && OnlyAsks(ms, i + 1, k) && NoneResumed(row, ms, i + 1, k)
    requires forall j :: i < j < k ==> ms[j].now <= now - 180
    ensures var p := RowAfter(row, ms[..k]);
            p.Some? && (p.value.canary.Some? ==> p.value.deadline.Moment? && p.value.deadline.t <= now)
    ensures var p := RowAfter(row, ms[..k]);
            p.value.canary.Some? ==> exists j :: i < j < k && Told(row, ms, j) == Dispatch
    decreases k
  {
    StepRow(row, ms, k - 1);
    if k > i + 1 {
      DeadlinePassed(row, ms, i, k - 1, now);
      EpochHolds(row, ms, i, k - 1);
      if Told(row, ms, k - 1) != Dispatch {
        assert RowAfter(row, ms[..k]) == RowAfter(row, ms[..k - 1]);
      }
    }
  }

  // ----- the gate by history -----------------------------------------------------------------

  /** The first ask the pause let through: nobody before it was. */
  predicate FirstThrough(row: Option<Pause>, ms: seq<Move>, i: nat, j: nat, k: nat)
    requires i < k <= |ms| && OnlyAsks(ms, i + 1, k)
  {
    i < j < k && Told(row, ms, j) == Dispatch && forall l :: i < l < j ==> Told(row, ms, l) != Dispatch
  }

  /** The row after the asks of one pause: as written until somebody is let
      through, then with that plan as canary until 180 seconds after its ask. */
  predicate KeptSince(row: Option<Pause>, ms: seq<Move>, i: nat, k: nat)
    requires i < k <= |ms| && ms[i].Die? && OnlyAsks(ms, i + 1, k)
  {
    var base := Paused(ResetOf(ms[i]), ms[i].signature, ms[i].line, ms[i].now);
    var now := RowAfter(row, ms[..k]);
    if now == Some(base) then forall l :: i < l < k ==> Told(row, ms, l) != Dispatch
    else exists j :: i < j < k && FirstThrough(row, ms, i, j, k)
           && now == Some(base.(canary := Some(ms[j].plan), deadline := Moment(ms[j].now + 180)))
  }

  lemma PauseBegins(row: Option<Pause>, ms: seq<Move>, i: nat)
    requires i < |ms| && ms[i].Die? && OnlyAsks(ms, i + 1, i + 1)
    ensures KeptSince(row, ms, i, i + 1)
  {
    StepRow(row, ms, i);
  }

  lemma PauseGoesOn(row: Option<Pause>, ms: seq<Move>, i: nat, k: nat)
    requires i < k < |ms| && ms[i].Die? && OnlyAsks(ms, i + 1, k + 1) && KeptSince(row, ms, i, k)
    requires Told(row, ms, k) != Resume
    ensures KeptSince(row, ms, i, k + 1)
  {
    StepRow(row, ms, k);
    ToldIs(row, ms, k);
    var base := Paused(ResetOf(ms[i]), ms[i].signature, ms[i].line, ms[i].now);
    var before, after := RowAfter(row, ms[..k]), RowAfter(row, ms[..k + 1]);
    assert (Told(row, ms, k), after) == Decide(before, ms[k].plan, ms[k].now);
    hide Decide, RowAfter, Told;
    EpochStep(before.value, after, ms[k].plan, ms[k].now);
    if before == Some(base) {
      assert Told(row, ms, k) == Dispatch ==> FirstThrough(row, ms, i, k, k + 1);
    } else {
      var j :| i < j < k && FirstThrough(row, ms, i, j, k)
        && before == Some(base.(canary := Some(ms[j].plan), deadline := Moment(ms[j].now + 180)));
      assert FirstThrough(row, ms, i, j, k + 1) && after == before;
    }
  }

  lemma {:induction false} PauseKeeps(row: Option<Pause>, ms: seq<Move>, i: nat, k: nat)
    requires i < k <= |ms| && ms[i].Die? && OnlyAsks(ms, i + 1, k) && NoneResumed(row, ms, i + 1, k)
    ensures KeptSince(row, ms, i, k)
    decreases k
  {
    if k == i + 1 {
      PauseBegins(row, ms, i);
    } else {
      PauseKeeps(row, ms, i, k - 1);
      assert Told(row, ms, k - 1) != Resume;
      hide Told, KeptSince;
      PauseGoesOn(row, ms, i, k - 1);
    }
  }

  /** What an ask during a pause is told, by the asks before it and the clock
      alone: idle while the pause is stuck or until two minutes past its reset;
      then the first ask goes through, alone for 180 seconds; then whoever asks
      ends the pause. */
  lemma GateByHistory(row: Option<Pause>, ms: seq<Move>, i: nat, k: nat)
    requires i < k < |ms| && ms[i].Die? && OnlyAsks(ms, i + 1, k + 1) && NoneResumed(row, ms, i + 1, k)
    ensures ResetOf(ms[i]).None? || ms[k].now < ResetOf(ms[i]).value + 120 ==> Told(row, ms, k) == Idle
    ensures ResetOf(ms[i]).Some? && ms[k].now >= ResetOf(ms[i]).value + 120 ==>
              && ((forall j :: !FirstThrough(row, ms, i, j, k)) ==> Told(row, ms, k) == Dispatch)
              && forall j: nat :: FirstThrough(row, ms, i, j, k) ==>
                   Told(row, ms, k) == if ms[k].now >= ms[j].now + 180 then Resume
                                       else if ms[k].plan == ms[j].plan then Dispatch else Idle
  {
    PauseKeeps(row, ms, i, k);
    ToldIs(row, ms, k);
    hide RowAfter, Told, NoneResumed;
    var base := Paused(ResetOf(ms[i]), ms[i].signature, ms[i].line, ms[i].now);
    if RowAfter(row, ms[..k]) != Some(base) {
      var j :| i < j < k && FirstThrough(row, ms, i, j, k)
        && RowAfter(row, ms[..k]) == Some(base.(canary := Some(ms[j].plan), deadline := Moment(ms[j].now + 180)));
      forall other: nat | FirstThrough(row, ms, i, other, k)
        ensures other == j
      {
      }
      hide FirstThrough;
    }
  }

  lemma ToldIs(row: Option<Pause>, ms: seq<Move>, k: nat)
    requires k < |ms| && ms[k].Ask?
    ensures Told(row, ms, k) == Decide(RowAfter(row, ms[..k]), ms[k].plan, ms[k].now).0
  {
  }

  /** A row nobody can read stops nobody: every ask is let through and none
      changes it. */
  lemma {:induction false} UnreadableStopsNobody(row: Option<Pause>, ms: seq<Move>, k: nat)
    requires k < |ms| && OnlyAsks(ms, 0, k + 1)
    requires row.Some? && (row.value.until.Garbled? || row.value.deadline.Garbled?)
    ensures RowAfter(row, ms[..k]) == row && Told(row, ms, k) == Dispatch
    decreases k
  {
    if k > 0 {
      UnreadableStopsNobody(row, ms, k - 1);
      StepRow(row, ms, k - 1);
    }
  }
}
