/** The research worker's protocol (scripts/research-worker.ts): which logs its loop can leave, for any
    outside world and any moment at which SIGTERM arrives. */
module WorkerProtocol {
  import opened Collections

  /** The outside world for one turn of the loop: whether each call returns or throws, what is claimed
      (nothing is the empty string), and whether SIGTERM arrives while the worker waits for the call. */
  datatype Turn = Turn(
    sweeps: bool, signalInSweep: bool, claims: bool, signalInClaim: bool, claimed: string,
    signalInSleep: bool, processes: bool, signalInProcess: bool)

  datatype Action =
    | SchemaReady
    | Sigterm
    | SweepStale
    | Claim
    | Claimed(runId: string)
    | Sleep
    | Began(runId: string)
    | Finished(runId: string)
    | Failed(runId: string)
    | Fatal
    | ShutdownComplete

  function Signal(arrives: bool): seq<Action> {
    if arrives then [Sigterm] else []
  }

  function ProcessLog(t: Turn): seq<Action> {
    [Began(t.claimed)] + Signal(t.signalInProcess) + [if t.processes then Finished(t.claimed) else Failed(t.claimed)]
  }

  function WorkLog(t: Turn): seq<Action> {
    if t.claimed == "" then [Sleep] + Signal(t.signalInSleep) else ProcessLog(t)
  }

  function ClaimLog(t: Turn): seq<Action> {
    [Claim] + Signal(t.signalInClaim) + if t.claims then [Claimed(t.claimed)] + WorkLog(t) else [Fatal]
  }

  /** What one turn of the loop leaves in the log. */
  function TurnLog(t: Turn): seq<Action> {
    [SweepStale] + Signal(t.signalInSweep) + if t.sweeps then ClaimLog(t) else [Fatal]
  }

  function StartLog(ready: bool, signal: bool): seq<Action> {
    Signal(signal) + [if ready then SchemaReady else Fatal]
  }

  /** The loop has ended: a shutdown was requested, or a call outside a run threw. */
  predicate Ended(log: seq<Action>) {
    Sigterm in log || Fatal in log
  }

  /** The log after the startup and these turns; turns after the end do not happen. */
  function LogOf(ready: bool, signal: bool, turns: seq<Turn>): seq<Action> {
    if turns == [] then StartLog(ready, signal)
    else
      var before := LogOf(ready, signal, turns[..|turns| - 1]);
      if Ended(before) then before else before + TurnLog(turns[|turns| - 1])
  }

  // ----- the protocol -----

  datatype Phase = Starting | Top | Sweeping | Claiming | Holding(runId: string) | Working(runId: string) | Dead

  /** Where the worker stands, `Holding` what it has claimed or nothing; `lateClaims` counts the claims begun
      after a shutdown was requested. */
  datatype Mode = Mode(phase: Phase, stopping: bool, lateClaims: nat) | Broken

  const START := Mode(Starting, false, 0)

  function Next(m: Mode, a: Action): Mode {
    if m.Broken? || m.phase == Dead then Broken
    else if a == Sigterm then m.(stopping := true)
    else match m.phase
      case Starting =>
        if a == SchemaReady then m.(phase := Top) else if a == Fatal then m.(phase := Dead) else Broken
      case Top =>
        if a == SweepStale && !m.stopping then m.(phase := Sweeping)
        else if a == ShutdownComplete && m.stopping then m.(phase := Dead)
        else Broken
      case Sweeping =>
        if a == Claim then m.(phase := Claiming, lateClaims := m.lateClaims + if m.stopping then 1 else 0)
        else if a == Fatal then m.(phase := Dead)
        else Broken
      case Claiming =>
        if a.Claimed? then m.(phase := Holding(a.runId)) else if a == Fatal then m.(phase := Dead) else Broken
      case Holding(id) =>
        if id == "" && a == Sleep then m.(phase := Top)
        else if id != "" && a == Began(id) then m.(phase := Working(id))
        else Broken
      case Working(id) => if a == Finished(id) || a == Failed(id) then m.(phase := Top) else Broken
  }

  function ModeAfter(m: Mode, log: seq<Action>): Mode {
    if log == [] then m else Next(ModeAfter(m, log[..|log| - 1]), log[|log| - 1])
  }

  ghost predicate FollowsProtocol(log: seq<Action>) {
    ModeAfter(START, log) != Broken
  }

  lemma {:induction false} ModeAppend(m: Mode, a: seq<Action>, b: seq<Action>)
    ensures ModeAfter(m, a + b) == ModeAfter(ModeAfter(m, a), b)
  {
    if b == [] {
      assert a + b == a;
    } else {
      assert (a + b)[..|a + b| - 1] == a + b[..|b| - 1];
      ModeAppend(m, a, b[..|b| - 1]);
    }
  }

  lemma ModeOne(m: Mode, a: Action)
    ensures ModeAfter(m, [a]) == Next(m, a)
  {
    assert ModeAfter(m, [a][..0]) == m;
  }

  lemma ModeSignal(m: Mode, arrives: bool)
    requires m != Broken && m.phase != Dead
    ensures ModeAfter(m, Signal(arrives)) == m.(stopping := m.stopping || arrives)
  {
    if arrives { ModeOne(m, Sigterm); }
  }

  lemma ProcessMode(m: Mode, t: Turn)
    requires m.Mode? && m.phase == Holding(t.claimed) && t.claimed != ""
    ensures ModeAfter(m, ProcessLog(t)) == m.(phase := Top, stopping := m.stopping || t.signalInProcess)
  {
    var began, last := [Began(t.claimed)], if t.processes then Finished(t.claimed) else Failed(t.claimed);
    ModeAppend(m, began + Signal(t.signalInProcess), [last]);
    ModeAppend(m, began, Signal(t.signalInProcess));
    ModeOne(m, Began(t.claimed));
    ModeSignal(m.(phase := Working(t.claimed)), t.signalInProcess);
    ModeOne(m.(phase := Working(t.claimed), stopping := m.stopping || t.signalInProcess), last);
  }

  /** Back at the top of the loop, or dead. */
  predicate AtRest(m: Mode) {
    m.Mode? && (m.phase == Top || m.phase == Dead)
  }

  lemma SleepMode(m: Mode, t: Turn)
    requires m.Mode? && m.phase == Holding("")
    ensures ModeAfter(m, [Sleep] + Signal(t.signalInSleep)) == m.(phase := Top, stopping := m.stopping || t.signalInSleep)
  {
    ModeAppend(m, [Sleep], Signal(t.signalInSleep));
    ModeOne(m, Sleep);
    ModeSignal(m.(phase := Top), t.signalInSleep);
  }

  lemma WorkMode(m: Mode, t: Turn)
    requires m.Mode? && m.phase == Holding(t.claimed)
    ensures AtRest(ModeAfter(m, WorkLog(t))) && ModeAfter(m, WorkLog(t)).phase == Top
  {
    if t.claimed == "" { SleepMode(m, t); } else { ProcessMode(m, t); }
  }

  lemma AnsweredMode(m: Mode, t: Turn)
    requires m.Mode? && m.phase == Claiming
    ensures
      var rest := ModeAfter(m, [Claimed(t.claimed)] + WorkLog(t));
      AtRest(rest) && rest.phase == Top
  {
    ModeAppend(m, [Claimed(t.claimed)], WorkLog(t));
    ModeOne(m, Claimed(t.claimed));
    WorkMode(m.(phase := Holding(t.claimed)), t);
  }

  lemma ClaimMode(m: Mode, t: Turn)
    requires m.Mode? && m.phase == Sweeping
    ensures AtRest(ModeAfter(m, ClaimLog(t)))
    ensures ModeAfter(m, ClaimLog(t)).phase == Dead <==> !t.claims
  {
    var prefix := [Claim] + Signal(t.signalInClaim);
    var tail := ClaimLog(t)[|prefix|..];
    assert ClaimLog(t) == prefix + tail;
    ModeAppend(m, prefix, tail);
    ModeAppend(m, [Claim], Signal(t.signalInClaim));
    ModeOne(m, Claim);
    ModeSignal(Next(m, Claim), t.signalInClaim);
    var claiming := ModeAfter(m, prefix);
    if t.claims { AnsweredMode(claiming, t); } else { ModeOne(claiming, Fatal); }
  }

  /** One turn, begun at the top without a shutdown request, follows the protocol; only a throwing sweep
      or claim kills the worker, never a failing run. */
  lemma TurnMode(m: Mode, t: Turn)
    requires m.Mode? && m.phase == Top && !m.stopping
    ensures AtRest(ModeAfter(m, TurnLog(t)))
    ensures ModeAfter(m, TurnLog(t)).phase == Dead <==> !t.sweeps || !t.claims
  {
    var prefix := [SweepStale] + Signal(t.signalInSweep);
    var tail := if t.sweeps then ClaimLog(t) else [Fatal];
    assert TurnLog(t) == prefix + tail;
    ModeAppend(m, prefix, tail);
    ModeAppend(m, [SweepStale], Signal(t.signalInSweep));
    ModeOne(m, SweepStale);
    ModeSignal(m.(phase := Sweeping), t.signalInSweep);
    var sweeping := ModeAfter(m, prefix);
    if t.sweeps { ClaimMode(sweeping, t); } else { ModeOne(sweeping, Fatal); }
  }

  /** What the mode remembers of the log. */
  lemma {:induction false} ModeRemembers(log: seq<Action>)
    requires FollowsProtocol(log)
    ensures ModeAfter(START, log).stopping <==> Sigterm in log
    ensures Fatal in log ==> ModeAfter(START, log).phase == Dead
  {
    if log != [] {
      var n := |log| - 1;
      assert log == log[..n] + [log[n]];
      ModeRemembers(log[..n]);
    }
  }

  /** The worker follows the protocol, and is at the top of the loop, or dead after a fatal error. */
  ghost predicate Rests(log: seq<Action>) {
    var m := ModeAfter(START, log);
    AtRest(m) && (m.phase == Dead ==> Fatal in log)
  }

  lemma StartRests(ready: bool, signal: bool)
    ensures Rests(StartLog(ready, signal))
  {
    var last := if ready then SchemaReady else Fatal;
    ModeAppend(START, Signal(signal), [last]);
    ModeSignal(START, signal);
    ModeOne(START.(stopping := signal), last);
  }

  lemma FatalLogged(t: Turn)
    requires !t.sweeps || !t.claims
    ensures Fatal in TurnLog(t)
  {
    if t.sweeps {
      assert Fatal in ClaimLog(t);
    }
  }

  lemma TurnRests(before: seq<Action>, t: Turn)
    requires Rests(before) && !Ended(before)
    ensures Rests(before + TurnLog(t))
  {
    ModeRemembers(before);
    ModeAppend(START, before, TurnLog(t));
    TurnMode(ModeAfter(START, before), t);
    if !t.sweeps || !t.claims { FatalLogged(t); }
  }

  /** Every log of the worker follows the protocol, and between turns the worker is at the top or dead. */
  lemma {:induction false} LogsFollowProtocol(ready: bool, signal: bool, turns: seq<Turn>)
    ensures FollowsProtocol(LogOf(ready, signal, turns)) && AtRest(ModeAfter(START, LogOf(ready, signal, turns)))
    ensures ModeAfter(START, LogOf(ready, signal, turns)).phase == Dead ==> Fatal in LogOf(ready, signal, turns)
  {
    if turns == [] {
      StartRests(ready, signal);
    } else {
      var before := LogOf(ready, signal, turns[..|turns| - 1]);
      LogsFollowProtocol(ready, signal, turns[..|turns| - 1]);
      if !Ended(before) { TurnRests(before, turns[|turns| - 1]); }
    }
  }

  // ----- what the protocol guarantees -----

  lemma ModeAt(log: seq<Action>, i: nat)
    requires FollowsProtocol(log) && i < |log|
    ensures ModeAfter(START, log[..i]) != Broken
    ensures ModeAfter(START, log[..i + 1]) == Next(ModeAfter(START, log[..i]), log[i]) != Broken
  {
    assert log == log[..i + 1] + log[i + 1..];
    ModeAppend(START, log[..i + 1], log[i + 1..]);
    assert log[..i + 1][..i] == log[..i];
    BrokenStays(log[i + 1..]);
  }

  lemma StepInto(log: seq<Action>, j: nat)
    requires FollowsProtocol(log) && 0 < j <= |log|
    ensures ModeAfter(START, log[..j - 1]) != Broken
    ensures ModeAfter(START, log[..j]) == Next(ModeAfter(START, log[..j - 1]), log[j - 1]) != Broken
  {
    ModeAt(log, j - 1);
  }

  lemma {:induction false} BrokenStays(log: seq<Action>)
    ensures ModeAfter(Broken, log) == Broken
  {
    if log != [] { BrokenStays(log[..|log| - 1]); }
  }

  predicate Settles(a: Action, runId: string) {
    a == Finished(runId) || a == Failed(runId)
  }

  lemma WorkGoesOn(m: Mode, a: Action, id: string)
    requires Next(m, a) != Broken && m.phase != Dead && !Settles(a, id)
    requires m.phase == Working(id) || a == Began(id)
    ensures Next(m, a).phase == Working(id)
  {}

  lemma {:induction false} StillWorking(log: seq<Action>, i: nat, j: nat)
    requires FollowsProtocol(log) && i < j <= |log| && log[i].Began?
    requires forall k :: i < k < j ==> !Settles(log[k], log[i].runId)
    ensures ModeAfter(START, log[..j]).Mode? && ModeAfter(START, log[..j]).phase == Working(log[i].runId)
  {
    StepInto(log, j);
    if j > i + 1 { StillWorking(log, i, j - 1); }
    WorkGoesOn(ModeAfter(START, log[..j - 1]), log[j - 1], log[i].runId);
  }

  /** At most one run is being processed, and each run settles before the worker claims again. */
  lemma OneRunAtATime(log: seq<Action>, i: nat, j: nat)
    requires FollowsProtocol(log) && i < j < |log| && log[i].Began?
    requires log[j] == Claim || log[j].Began? || log[j] == ShutdownComplete
    ensures exists k :: i < k < j && Settles(log[k], log[i].runId)
  {
    ModeAt(log, j);
    if forall k :: i < k < j ==> !Settles(log[k], log[i].runId) { StillWorking(log, i, j); }
  }

  lemma SweepBegins(m: Mode, a: Action)
    requires Next(m, a).Mode? && Next(m, a).phase == Sweeping
    ensures a == SweepStale || (a == Sigterm && m.phase == Sweeping)
  {}

  /** A worker that is sweeping began to do so just now, but for signals. */
  lemma {:induction false} SweepingSince(log: seq<Action>, j: nat) returns (k: nat)
    requires FollowsProtocol(log) && j <= |log|
    requires ModeAfter(START, log[..j]).Mode? && ModeAfter(START, log[..j]).phase == Sweeping
    ensures k < j && log[k] == SweepStale && forall m :: k < m < j ==> log[m] == Sigterm
  {
    assert j > 0;
    StepInto(log, j);
    SweepBegins(ModeAfter(START, log[..j - 1]), log[j - 1]);
    if log[j - 1] == SweepStale {
      k := j - 1;
    } else {
      k := SweepingSince(log, j - 1);
    }
  }

  /** Stale runs are abandoned immediately before each claim. */
  lemma ClaimFollowsSweep(log: seq<Action>, j: nat)
    requires FollowsProtocol(log) && j < |log| && log[j] == Claim
    ensures exists k :: 0 <= k < j && log[k] == SweepStale && forall m :: k < m < j ==> log[m] == Sigterm
  {
    ModeAt(log, j);
    var k := SweepingSince(log, j);
  }

  /** A claim begun after the shutdown request is the last. */
  predicate LateClaimIsLast(m: Mode) {
    m.Mode? ==> m.lateClaims <= 1 && (m.lateClaims == 1 ==> m.stopping && m.phase != Sweeping && m.phase != Starting)
  }

  lemma {:induction false} FewLateClaims(log: seq<Action>)
    ensures LateClaimIsLast(ModeAfter(START, log))
  {
    if log != [] { FewLateClaims(log[..|log| - 1]); }
  }

  /** Late claims are never uncounted, and a shutdown request is never taken back. */
  predicate Grown(a: Mode, b: Mode) {
    a.Mode? && b.Mode? && a.lateClaims <= b.lateClaims && (a.stopping ==> b.stopping)
  }

  lemma NextGrows(a: Mode, m: Mode, x: Action)
    requires Grown(a, m) && Next(m, x) != Broken
    ensures Grown(a, Next(m, x))
  {}

  lemma {:induction false} GrowsAfter(m: Mode, rest: seq<Action>)
    requires m.Mode? && ModeAfter(m, rest) != Broken
    ensures Grown(m, ModeAfter(m, rest))
  {
    if rest != [] {
      var n := |rest| - 1;
      GrowsAfter(m, rest[..n]);
      NextGrows(m, ModeAfter(m, rest[..n]), rest[n]);
    }
  }

  lemma LateClaimsGrow(log: seq<Action>, i: nat, j: nat)
    requires i <= j <= |log| && ModeAfter(START, log[..i]).Mode? && ModeAfter(START, log[..j]) != Broken
    ensures Grown(ModeAfter(START, log[..i]), ModeAfter(START, log[..j]))
  {
    assert log[..j] == log[..i] + log[i..j];
    ModeAppend(START, log[..i], log[i..j]);
    GrowsAfter(ModeAfter(START, log[..i]), log[i..j]);
  }

  lemma NoSecondLateClaim(stopped: Mode, m: Mode, n: Mode, a: Action)
    requires stopped.Mode? && stopped.stopping && Grown(stopped, m) && Next(m, Claim) != Broken
    requires Grown(Next(m, Claim), n) && Next(n, a) != Broken && LateClaimIsLast(Next(n, a))
    ensures a != Claim
  {}

  lemma SignalStops(m: Mode)
    requires Next(m, Sigterm) != Broken
    ensures Next(m, Sigterm).stopping
  {}

  /** After SIGTERM the worker begins at most one more claim. */
  lemma AtMostOneLateClaim(log: seq<Action>, i: nat, j: nat, k: nat)
    requires FollowsProtocol(log) && i < j < k < |log| && log[i] == Sigterm && log[j] == Claim
    ensures log[k] != Claim
  {
    ModeAt(log, i);
    ModeAt(log, j);
    ModeAt(log, k);
    SignalStops(ModeAfter(START, log[..i]));
    LateClaimsGrow(log, i + 1, j);
    LateClaimsGrow(log, j + 1, k);
    FewLateClaims(log[..k + 1]);
    NoSecondLateClaim(ModeAfter(START, log[..i + 1]), ModeAfter(START, log[..j]), ModeAfter(START, log[..k]), log[k]);
  }

  // ----- every run that is claimed is processed -----

  predicate IsWork(a: Action) { a != Sigterm }

  /** The log without the signals. */
  function Work(log: seq<Action>): seq<Action> {
    Select(log, IsWork)
  }

  lemma WorkAppend(a: seq<Action>, b: seq<Action>)
    ensures Work(a + b) == Work(a) + Work(b)
  {
    SelectAppend(a, b, IsWork);
  }

  lemma WorkOne(a: Action)
    ensures Work([a]) == if a == Sigterm then [] else [a]
  {
    assert [a][..0] == [];
  }

  lemma WorkSignal(arrives: bool)
    ensures Work(Signal(arrives)) == []
  {
    WorkOne(Sigterm);
  }

  lemma WorkThenSignal(a: Action, arrives: bool)
    requires a != Sigterm
    ensures Work([a] + Signal(arrives)) == [a]
  {
    WorkAppend([a], Signal(arrives));
    WorkOne(a);
    WorkSignal(arrives);
  }

  lemma ProcessWork(t: Turn)
    ensures Work(ProcessLog(t)) == [Began(t.claimed), if t.processes then Finished(t.claimed) else Failed(t.claimed)]
  {
    var last := if t.processes then Finished(t.claimed) else Failed(t.claimed);
    WorkAppend([Began(t.claimed)] + Signal(t.signalInProcess), [last]);
    WorkThenSignal(Began(t.claimed), t.signalInProcess);
    WorkOne(last);
  }

  lemma AnsweredWork(t: Turn)
    ensures Work([Claimed(t.claimed)] + WorkLog(t))
            == if t.claimed == "" then [Claimed(""), Sleep]
               else [Claimed(t.claimed), Began(t.claimed), if t.processes then Finished(t.claimed) else Failed(t.claimed)]
  {
    WorkAppend([Claimed(t.claimed)], WorkLog(t));
    WorkOne(Claimed(t.claimed));
    if t.claimed == "" { WorkThenSignal(Sleep, t.signalInSleep); } else { ProcessWork(t); }
  }

  lemma ClaimWork(t: Turn)
    ensures Work(ClaimLog(t))
            == [Claim] + if !t.claims then [Fatal]
                         else if t.claimed == "" then [Claimed(""), Sleep]
                         else [Claimed(t.claimed), Began(t.claimed),
                               if t.processes then Finished(t.claimed) else Failed(t.claimed)]
  {
    WorkAppend([Claim] + Signal(t.signalInClaim), if t.claims then [Claimed(t.claimed)] + WorkLog(t) else [Fatal]);
    WorkThenSignal(Claim, t.signalInClaim);
    if t.claims { AnsweredWork(t); } else { WorkOne(Fatal); }
  }

  /** What one turn does, signals aside: it abandons stale runs and claims; nothing claimed, it sleeps; a run
      claimed, it begins that run, which ends as the outside world says. */
  lemma TurnWork(t: Turn)
    ensures Work(TurnLog(t))
            == [SweepStale] + if !t.sweeps then [Fatal]
                              else [Claim] + if !t.claims then [Fatal]
                                             else if t.claimed == "" then [Claimed(""), Sleep]
                                             else [Claimed(t.claimed), Began(t.claimed),
                                                   if t.processes then Finished(t.claimed) else Failed(t.claimed)]
  {
    WorkAppend([SweepStale] + Signal(t.signalInSweep), if t.sweeps then ClaimLog(t) else [Fatal]);
    WorkThenSignal(SweepStale, t.signalInSweep);
    WorkOne(Fatal);
    ClaimWork(t);
  }

  /** The log opens with the schema being ready, or with the error of the wait for it. */
  lemma StartWork(ready: bool, signal: bool)
    ensures Work(LogOf(ready, signal, [])) == [if ready then SchemaReady else Fatal]
  {
    WorkAppend(Signal(signal), [if ready then SchemaReady else Fatal]);
    WorkSignal(signal);
    WorkOne(if ready then SchemaReady else Fatal);
  }

  lemma WorkNext(ready: bool, signal: bool, turns: seq<Turn>, t: Turn)
    ensures
      var before, after := LogOf(ready, signal, turns), LogOf(ready, signal, turns + [t]);
      && before <= after
      && Work(after) == Work(before) + if Sigterm in before || Fatal in before then [] else Work(TurnLog(t))
  {
    LogNext(ready, signal, turns, t);
    WorkAppend(LogOf(ready, signal, turns), TurnLog(t));
  }

  /** After any turns, the next one: unless a signal or a throw has ended the loop, it sweeps and claims; when nothing
      is claimed it sleeps, and when a run is claimed it begins that very run, which ends as the outside world says.
      Once the loop has ended nothing is added. */
  lemma EveryTurnIsWorked(ready: bool, signal: bool, turns: seq<Turn>, t: Turn)
    ensures
      var before, after := LogOf(ready, signal, turns), LogOf(ready, signal, turns + [t]);
      && before <= after
      && Work(after)
         == Work(before)
            + if Sigterm in before || Fatal in before then []
              else [SweepStale] + if !t.sweeps then [Fatal]
                                  else [Claim] + if !t.claims then [Fatal]
                                                 else if t.claimed == "" then [Claimed(""), Sleep]
                                                 else [Claimed(t.claimed), Began(t.claimed),
                                                       if t.processes then Finished(t.claimed) else Failed(t.claimed)]
  {
    WorkNext(ready, signal, turns, t);
    TurnWork(t);
  }

  // ----- every signal is heard -----

  /** SIGTERM arrives while the worker claims, and then sleeps or processes. */
  predicate SignalInClaim(t: Turn) {
    t.signalInClaim || (t.claims && if t.claimed == "" then t.signalInSleep else t.signalInProcess)
  }

  predicate SignalInTurn(t: Turn) {
    t.signalInSweep || (t.sweeps && SignalInClaim(t))
  }

  lemma ClaimSignals(t: Turn)
    ensures Sigterm in ClaimLog(t) <==> SignalInClaim(t)
    ensures Fatal in ClaimLog(t) <==> !t.claims
  {
    var last := if t.processes then Finished(t.claimed) else Failed(t.claimed);
    assert forall a :: a in ProcessLog(t) <==> a == Began(t.claimed) || a in Signal(t.signalInProcess) || a == last;
    assert forall a :: a in ClaimLog(t) <==>
        || a == Claim || a in Signal(t.signalInClaim)
        || a in (if t.claims then [Claimed(t.claimed)] + WorkLog(t) else [Fatal]);
  }

  lemma SignalsOf(t: Turn)
    ensures Sigterm in TurnLog(t) <==> SignalInTurn(t)
    ensures Fatal in TurnLog(t) <==> !t.sweeps || !t.claims
  {
    ClaimSignals(t);
    assert forall a :: a in TurnLog(t) <==>
        a == SweepStale || a in Signal(t.signalInSweep) || a in (if t.sweeps then ClaimLog(t) else [Fatal]);
  }

  /** SIGTERM is in the log if and only if it arrived at the start, or in a turn while a call of that turn was
      waited for. */
  lemma SignalsAreHeard(ready: bool, signal: bool, turns: seq<Turn>, t: Turn)
    ensures Sigterm in LogOf(ready, signal, []) <==> signal
    ensures
      var before, after := LogOf(ready, signal, turns), LogOf(ready, signal, turns + [t]);
      Sigterm in after
      <==> || Sigterm in before
           || (&& Fatal !in before
               && (|| t.signalInSweep
                   || (t.sweeps && t.signalInClaim)
                   || (t.sweeps && t.claims && if t.claimed == "" then t.signalInSleep else t.signalInProcess)))
  {
    LogNext(ready, signal, turns, t);
    SignalsOf(t);
  }

  // ----- every claim is followed up -----

  /** The action after `j`, signals aside. */
  ghost predicate FollowedBy(log: seq<Action>, j: nat, k: nat) {
    j < k < |log| && log[k] != Sigterm && forall m :: j < m < k ==> log[m] == Sigterm
  }

  lemma SignalKeepsPhase(m: Mode)
    requires Next(m, Sigterm) != Broken
    ensures Next(m, Sigterm).phase == m.phase
  {}

  lemma {:induction false} SignalsKeepPhase(log: seq<Action>, i: nat, j: nat)
    requires FollowsProtocol(log) && i <= j <= |log| && forall m :: i <= m < j ==> log[m] == Sigterm
    requires ModeAfter(START, log[..i]).Mode?
    ensures ModeAfter(START, log[..j]).Mode? && ModeAfter(START, log[..j]).phase == ModeAfter(START, log[..i]).phase
  {
    if i < j {
      SignalsKeepPhase(log, i, j - 1);
      ModeAt(log, j - 1);
      SignalKeepsPhase(ModeAfter(START, log[..j - 1]));
      assert log[j - 1] == Sigterm;
    }
  }

  /** One action and the next that is no signal. */
  lemma NextTwo(m: Mode, a: Action, n: Mode, b: Action)
    requires Next(m, a) != Broken && n.Mode? && n.phase == Next(m, a).phase && Next(n, b) != Broken && b != Sigterm
    ensures a.Claimed? ==> b == if a.runId == "" then Sleep else Began(a.runId)
    ensures a.Began? ==> Settles(b, a.runId)
    ensures b == Sleep ==> a == Sigterm || a == Claimed("")
    ensures b.Began? ==> a == Sigterm || a == Claimed(b.runId)
  {}

  /** What follows a claim that returned: sleep if and only if it returned nothing, otherwise the beginning of the
      run it returned; and what follows that is the end of the same run. */
  lemma ClaimIsFollowedUp(log: seq<Action>, j: nat, k: nat)
    requires FollowsProtocol(log) && FollowedBy(log, j, k)
    ensures log[j].Claimed? ==> log[k] == if log[j].runId == "" then Sleep else Began(log[j].runId)
    ensures log[j].Began? ==> Settles(log[k], log[j].runId)
    ensures log[k] == Sleep ==> log[j] == Sigterm || log[j] == Claimed("")
    ensures log[k].Began? ==> log[j] == Sigterm || log[j] == Claimed(log[k].runId)
  {
    ModeAt(log, j);
    SignalsKeepPhase(log, j + 1, k);
    ModeAt(log, k);
    NextTwo(ModeAfter(START, log[..j]), log[j], ModeAfter(START, log[..k]), log[k]);
  }

  /** A worker at rest has followed up everything. */
  lemma AtRestNothingIsLeft(log: seq<Action>, j: nat)
    requires FollowsProtocol(log) && AtRest(ModeAfter(START, log)) && j < |log| && (log[j].Claimed? || log[j].Began?)
    ensures exists m :: j < m < |log| && log[m] != Sigterm
  {
    assert log[..|log|] == log;
    ModeAt(log, j);
    if forall m :: j < m < |log| ==> log[m] == Sigterm { SignalsKeepPhase(log, j + 1, |log|); }
  }

  /** Every claim that returned is followed up: by sleep if and only if it returned nothing, otherwise by the beginning
      of exactly the run it returned, and that by the end of the same run. */
  lemma ClaimedRunsAreProcessed(ready: bool, signal: bool, turns: seq<Turn>, log: seq<Action>, j: nat)
    requires log == LogOf(ready, signal, turns) && j < |log| && (log[j].Claimed? || log[j].Began?)
    ensures exists k: nat :: FollowedBy(log, j, k)
              && if log[j].Began? then Settles(log[k], log[j].runId)
                 else if log[j].runId == "" then log[k] == Sleep
                 else log[k] == Began(log[j].runId)
  {
    LogsFollowProtocol(ready, signal, turns);
    AtRestNothingIsLeft(log, j);
    var n :| j < n < |log| && log[n] != Sigterm;
    var k := FirstWork(log, j, n);
    ClaimIsFollowedUp(log, j, k);
  }

  lemma {:induction false} FirstWork(log: seq<Action>, j: nat, n: nat) returns (k: nat)
    requires j < n < |log| && log[n] != Sigterm
    ensures FollowedBy(log, j, k)
  {
    if m :| j < m < n && log[m] != Sigterm {
      k := FirstWork(log, j, m);
    } else {
      k := n;
    }
  }

  // ----- failing runs -----

  /** The same outside world, but with runs that all succeed. */
  function AllSucceed(turns: seq<Turn>): seq<Turn> {
    if turns == [] then [] else AllSucceed(turns[..|turns| - 1]) + [turns[|turns| - 1].(processes := true)]
  }

  function Forgiven(a: Action): Action {
    match a
    case Failed(id) => Finished(id)
    case _ => a
  }

  function ForgiveAll(log: seq<Action>): seq<Action> {
    MapSeq(Forgiven, log)
  }

  lemma ForgiveAppend(a: seq<Action>, b: seq<Action>)
    ensures ForgiveAll(a + b) == ForgiveAll(a) + ForgiveAll(b)
  {}

  lemma ForgiveSignal(arrives: bool)
    ensures ForgiveAll(Signal(arrives)) == Signal(arrives)
  {}

  lemma ProcessForgiven(t: Turn)
    ensures ForgiveAll(ProcessLog(t)) == ProcessLog(t.(processes := true))
  {
    ForgiveSignal(t.signalInProcess);
    var last := if t.processes then Finished(t.claimed) else Failed(t.claimed);
    ForgiveAppend([Began(t.claimed)] + Signal(t.signalInProcess), [last]);
    ForgiveAppend([Began(t.claimed)], Signal(t.signalInProcess));
  }

  lemma WorkForgiven(t: Turn)
    ensures ForgiveAll(WorkLog(t)) == WorkLog(t.(processes := true))
  {
    ForgiveSignal(t.signalInSleep);
    ForgiveAppend([Sleep], Signal(t.signalInSleep));
    ProcessForgiven(t);
  }

  lemma ClaimForgiven(t: Turn)
    ensures ForgiveAll(ClaimLog(t)) == ClaimLog(t.(processes := true))
  {
    var tail := if t.claims then [Claimed(t.claimed)] + WorkLog(t) else [Fatal];
    ForgiveSignal(t.signalInClaim);
    ForgiveAppend([Claim] + Signal(t.signalInClaim), tail);
    ForgiveAppend([Claim], Signal(t.signalInClaim));
    ForgiveAppend([Claimed(t.claimed)], WorkLog(t));
    WorkForgiven(t);
  }

  lemma TurnForgiven(t: Turn)
    ensures ForgiveAll(TurnLog(t)) == TurnLog(t.(processes := true))
  {
    var tail := if t.sweeps then ClaimLog(t) else [Fatal];
    ForgiveSignal(t.signalInSweep);
    ForgiveAppend([SweepStale] + Signal(t.signalInSweep), tail);
    ForgiveAppend([SweepStale], Signal(t.signalInSweep));
    ClaimForgiven(t);
  }

  lemma ForgivenEnds(log: seq<Action>)
    ensures Ended(ForgiveAll(log)) <==> Ended(log)
  {
    var other := ForgiveAll(log);
    forall i | 0 <= i < |log| ensures (other[i] == Sigterm <==> log[i] == Sigterm) && (other[i] == Fatal <==> log[i] == Fatal) {
      assert other[i] == Forgiven(log[i]);
    }
  }

  /** A failing run changes nothing but its own line of the log: the worker does everything else exactly as
      if the run had succeeded. */
  lemma {:induction false} FailuresDoNotStopTheLoop(ready: bool, signal: bool, turns: seq<Turn>)
    ensures LogOf(ready, signal, AllSucceed(turns)) == ForgiveAll(LogOf(ready, signal, turns))
  {
    if turns == [] {
      ForgiveSignal(signal);
      ForgiveAppend(Signal(signal), [if ready then SchemaReady else Fatal]);
    } else {
      var pre, t := turns[..|turns| - 1], turns[|turns| - 1];
      var log := LogOf(ready, signal, pre);
      FailuresDoNotStopTheLoop(ready, signal, pre);
      ForgivenEnds(log);
      TurnForgiven(t);
      ForgiveAppend(log, TurnLog(t));
      LogNext(ready, signal, AllSucceed(pre), t.(processes := true));
    }
  }

  lemma LogNext(ready: bool, signal: bool, turns: seq<Turn>, t: Turn)
    ensures
      var before := LogOf(ready, signal, turns);
      LogOf(ready, signal, turns + [t]) == if Ended(before) then before else before + TurnLog(t)
  {
    assert (turns + [t])[..|turns|] == turns;
  }
}
