/** The research worker process (scripts/research-worker.ts): its loop, its shutdown flag and the run it
    has in flight. */
module ResearchWorker {
  import opened WorkerProtocol

  class Worker {
    var shutdownRequested: bool
    var inFlight: string   // the run in flight, empty for none
    var log: seq<Action>

    constructor ()
      ensures !shutdownRequested && inFlight == "" && log == []
    {
      shutdownRequested, inFlight, log := false, "", [];
    }

    /** While the worker waits, SIGTERM may arrive; its handler only raises the flag. */
    method Await(signal: bool)
      modifies this`shutdownRequested, this`log
      ensures log == old(log) + Signal(signal)
      ensures shutdownRequested == (old(shutdownRequested) || signal)
    {
      if signal {
        shutdownRequested := true;
        log := log + [Sigterm];
      }
    }

    method Note(a: Action)
      modifies this`log
      ensures log == old(log) + [a]
    {
      log := log + [a];
    }

    /** A failing run is logged and swallowed. */
    method Process(t: Turn)
      requires t.claimed != ""
      modifies this
      ensures log == old(log) + ([Began(t.claimed)] + Signal(t.signalInProcess)
                                 + [if t.processes then Finished(t.claimed) else Failed(t.claimed)])
      ensures shutdownRequested == (old(shutdownRequested) || t.signalInProcess) && inFlight == ""
    {
      inFlight := t.claimed;
      Note(Began(t.claimed));
      Await(t.signalInProcess);
      Note(if t.processes then Finished(t.claimed) else Failed(t.claimed));
      inFlight := "";
    }

    method ClaimNext(t: Turn) returns (fatal: bool)
      requires inFlight == ""
      modifies this
      ensures log == old(log) + ClaimLog(t) && fatal == !t.claims && inFlight == ""
      ensures shutdownRequested == (old(shutdownRequested) || SignalInClaim(t))
    {
      ghost var before, claimed := log, [Claim] + Signal(t.signalInClaim);
      Note(Claim);
      Await(t.signalInClaim);
      assert log == before + claimed;
      fatal := !t.claims;
      if fatal {
        Note(Fatal);
      } else {
        Note(Claimed(t.claimed));
        if t.claimed == "" {
          Note(Sleep);
          Await(t.signalInSleep);
        } else {
          Process(t);
        }
        assert log == before + (claimed + ([Claimed(t.claimed)] + WorkLog(t)));
      }
    }

    method Sweep(t: Turn)
      modifies this`shutdownRequested, this`log
      ensures log == old(log) + ([SweepStale] + Signal(t.signalInSweep))
      ensures shutdownRequested == (old(shutdownRequested) || t.signalInSweep)
    {
      Note(SweepStale);
      Await(t.signalInSweep);
    }

    /** One turn of the loop; `fatal` when a call outside a run threw. */
    method TakeTurn(t: Turn) returns (fatal: bool)
      requires inFlight == "" && !shutdownRequested
      modifies this
      ensures log == old(log) + TurnLog(t) && inFlight == ""
      ensures shutdownRequested == SignalInTurn(t) && fatal == (!t.sweeps || !t.claims)
    {
      ghost var before, swept := log, [SweepStale] + Signal(t.signalInSweep);
      Sweep(t);
      if t.sweeps {
        fatal := ClaimNext(t);
        assert before + swept + ClaimLog(t) == before + (swept + ClaimLog(t));
      } else {
        fatal := true;
        Note(Fatal);
        assert before + swept + [Fatal] == before + (swept + [Fatal]);
      }
    }

    /** The worker process, for as many turns as the outside world lasts. */
    method Run(ready: bool, signal: bool, turns: seq<Turn>)
      requires !shutdownRequested && inFlight == "" && log == []
      modifies this
      ensures inFlight == ""
      ensures
        var loop := LogOf(ready, signal, turns);
        && FollowsProtocol(log)
        && shutdownRequested == (Sigterm in loop)
        && log == if shutdownRequested && Fatal !in loop then loop + [ShutdownComplete] else loop
    {
      Await(signal);
      Note(if ready then SchemaReady else Fatal);
      var fatal, i := !ready, 0;
      while !shutdownRequested && !fatal && i < |turns|
        invariant 0 <= i <= |turns| && inFlight == ""
        invariant log == LogOf(ready, signal, turns[..i])
        invariant shutdownRequested <==> Sigterm in log
        invariant fatal <==> Fatal in log
      {
        assert turns[..i + 1][..i] == turns[..i];
        SignalsOf(turns[i]);
        fatal := TakeTurn(turns[i]);
        i := i + 1;
      }
      LoopStays(ready, signal, turns, i);
      LogsFollowProtocol(ready, signal, turns);
      if shutdownRequested && !fatal {
        Complete(log);
        Note(ShutdownComplete);
      }
    }
  }

  /** Nothing happens after the loop has ended. */
  lemma {:induction false} LoopStays(ready: bool, signal: bool, turns: seq<Turn>, i: nat)
    requires i <= |turns| && (i < |turns| ==> Ended(LogOf(ready, signal, turns[..i])))
    ensures LogOf(ready, signal, turns) == LogOf(ready, signal, turns[..i])
  {
    if i < |turns| {
      assert turns[..|turns| - 1][..i] == turns[..i];
      LoopStays(ready, signal, turns[..|turns| - 1], i);
    } else {
      assert turns[..i] == turns;
    }
  }

  /** A worker at the top that was asked to stop completes its shutdown. */
  lemma Complete(log: seq<Action>)
    requires FollowsProtocol(log) && AtRest(ModeAfter(START, log)) && Sigterm in log
    requires ModeAfter(START, log).phase == Dead ==> Fatal in log
    requires Fatal !in log
    ensures FollowsProtocol(log + [ShutdownComplete])
  {
    ModeRemembers(log);
    ModeAppend(START, log, [ShutdownComplete]);
    ModeOne(ModeAfter(START, log), ShutdownComplete);
  }
}
