/**
 * `compose up` (pkg/compose/up.go): the early returns before the
 * interactive part, the teardown loop that reacts to Ctrl-C, context
 * cancellation, OS signals and the end of the stack, and the final
 * exit-code and error aggregation.
 *
 * The loop is a sequential step function over the events its `select`
 * receives. The background tasks it schedules (Stop, Kill) are counted, and
 * a Stop task finishing is itself an event.
 */
module ComposeUp {
  import opened Wrappers

  // ---------------------------------------------------------------------
  // Before the loop
  // ---------------------------------------------------------------------

  /** What Up does once create (and, without attach, start) has run. */
  datatype Entry =
    | ReturnEarly(err: Option<string>)   // Up returns this error (nil for none) without a loop
    | EnterLoop                          // the interactive loop is set up

  /**
   * The prefix of Up: a create error is returned; without attach the
   * start error is returned; in dry-run mode nil is returned; only an
   * attached, non-dry run reaches the loop.
   */
  function Prelude(attach: bool, dryRun: bool, createErr: Option<string>, startErr: Option<string>): (r: Entry)
    ensures r.EnterLoop? <==> attach && !dryRun && createErr.None?
    ensures createErr.Some? ==> r == ReturnEarly(createErr)
    ensures createErr.None? && !attach ==> r == ReturnEarly(startErr)
    ensures createErr.None? && attach && dryRun ==> r == ReturnEarly(None)
  {
    if createErr.Some? then ReturnEarly(createErr)
    else if !attach then ReturnEarly(startErr)
    else if dryRun then ReturnEarly(None)
    else EnterLoop
  }

  // ---------------------------------------------------------------------
  // The teardown loop
  // ---------------------------------------------------------------------

  /** The special keys the loop distinguishes. */
  datatype LoopKey = CtrlC | CtrlG | Enter | OtherKey(code: int)

  /** What the loop's select can receive, plus a scheduled Stop task finishing. */
  datatype LoopEvent =
    | KeyPress(key: LoopKey)   // an event from the keyboard channel
    | DoneReady                // doneCh is closed, so receiving from it succeeds
    | CtxDone                  // the context was cancelled
    | OsSignal                 // SIGINT or SIGTERM arrived
    | StopReturned             // one scheduled Stop task has finished

  /**
   * The loop's variables and what it has set in motion: `first`,
   * `isTerminated`, printer cancellations, Stop tasks scheduled and still
   * running, Kill tasks scheduled, closes of doneCh, whether the keyboard was
   * closed, and whether the loop has returned.
   */
  datatype LoopState = LoopState(
    first: bool,
    isTerminated: bool,
    keyboardClosed: bool,
    printerCancels: nat,
    stops: nat,
    pendingStops: nat,
    kills: nat,
    doneCloses: nat,
    exited: bool)

  const Initial: LoopState := LoopState(true, false, false, 0, 0, 0, 0, 0, false)

  /**
   * How the Ctrl-C key is handled: as the code has it (always a graceful
   * teardown), or guarded by `first` like the signal path, so that a second
   * Ctrl-C forces a kill.
   */
  datatype CtrlCHandling = AsWritten | Guarded

  /** gracefulTeardown: cancel the printer, schedule one Stop, clear `first`. */
  function Teardown(s: LoopState): (r: LoopState)
    ensures !r.first && r.stops == s.stops + 1 && r.pendingStops == s.pendingStops + 1
    ensures r.printerCancels == s.printerCancels + 1
    ensures r.kills == s.kills && r.doneCloses == s.doneCloses && r.exited == s.exited
    ensures r.isTerminated == s.isTerminated
  {
    s.(printerCancels := s.printerCancels + 1, stops := s.stops + 1, pendingStops := s.pendingStops + 1, first := false)
  }

  /** The signal path once teardown has begun: schedule one Kill and return, without another Stop. */
  function ForceKill(s: LoopState): (r: LoopState)
    ensures r.kills == s.kills + 1 && r.exited
    ensures r.first == s.first && r.stops == s.stops && r.pendingStops == s.pendingStops
    ensures r.doneCloses == s.doneCloses && r.printerCancels == s.printerCancels && r.isTerminated == s.isTerminated
  {
    s.(kills := s.kills + 1, exited := true)
  }

  /** One turn of the loop (or one Stop task finishing). */
  function Step(h: CtrlCHandling, s: LoopState, e: LoopEvent): (r: LoopState)
    ensures s.exited ==> r.exited
    ensures r.stops >= s.stops && r.kills >= s.kills && r.doneCloses >= s.doneCloses
  {
    match e
    case StopReturned =>
      if s.pendingStops > 0 then
        s.(pendingStops := s.pendingStops - 1, isTerminated := true, doneCloses := s.doneCloses + 1)
      else s
    case _ =>
      if s.exited then s
      else match e
        case KeyPress(CtrlC) =>
          var closed := s.(keyboardClosed := true);
          if h == AsWritten || s.first then Teardown(closed) else ForceKill(closed)
        case KeyPress(_) => s
        case DoneReady => if s.doneCloses > 0 then s.(exited := true) else s
        case CtxDone => if s.first then Teardown(s) else s
        case OsSignal => if s.first then Teardown(s) else ForceKill(s)
  }

  /**
   * The state after a sequence of events: once returned, the loop stays
   * returned, and Stops, Kills and closes of doneCh are never taken back.
   */
  function Run(h: CtrlCHandling, s: LoopState, events: seq<LoopEvent>): (r: LoopState)
    ensures s.exited ==> r.exited
    ensures r.stops >= s.stops && r.kills >= s.kills && r.doneCloses >= s.doneCloses
    decreases |events|
  {
    if events == [] then s else Run(h, Step(h, s, events[0]), events[1..])
  }

  lemma {:induction false} RunAppend(h: CtrlCHandling, s: LoopState, events: seq<LoopEvent>, e: LoopEvent)
    ensures Run(h, s, events + [e]) == Step(h, Run(h, s, events), e)
    decreases |events|
  {
    if events != [] {
      assert (events + [e])[1..] == events[1..] + [e];
      RunAppend(h, Step(h, s, events[0]), events[1..], e);
    }
  }

  /**
   * One pass of the loop body: the select case for the event, updating the
   * loop's variables in place (or a Stop task finishing).
   */
  method Turn(h: CtrlCHandling, s: LoopState, e: LoopEvent) returns (r: LoopState)
    ensures r == Step(h, s, e)
  {
    var first, isTerminated, keyboardClosed := s.first, s.isTerminated, s.keyboardClosed;
    var printerCancels, stops, pendingStops, kills, doneCloses, exited :=
      s.printerCancels, s.stops, s.pendingStops, s.kills, s.doneCloses, s.exited;
    if e == StopReturned {
      if pendingStops > 0 {
        pendingStops := pendingStops - 1;
        isTerminated := true;
        doneCloses := doneCloses + 1;
      }
    } else if !exited {
      var teardown := false;
      match e {
        case KeyPress(k) =>
          if k == CtrlC {
            keyboardClosed := true;
            if h == AsWritten || first {
              teardown := true;
            } else {
              kills := kills + 1;
              exited := true;
            }
          }
        case DoneReady =>
          if doneCloses > 0 {
            exited := true;
          }
        case CtxDone =>
          teardown := first;
        case OsSignal =>
          if first {
            teardown := true;
          } else {
            kills := kills + 1;
            exited := true;
          }
        case StopReturned =>
      }
      if teardown {
        printerCancels := printerCancels + 1;
        stops := stops + 1;
        pendingStops := pendingStops + 1;
        first := false;
      }
    }
    r := LoopState(first, isTerminated, keyboardClosed, printerCancels, stops, pendingStops, kills, doneCloses, exited);
  }

  /** The loop of Up: one turn per event received, starting from `s0`. */
  method EventLoop(h: CtrlCHandling, s0: LoopState, events: seq<LoopEvent>) returns (s: LoopState)
    ensures s == Run(h, s0, events)
  {
    s := s0;
    var i := 0;
    while i < |events|
      invariant 0 <= i <= |events|
      invariant s == Run(h, s0, events[..i])
    {
      var e := events[i];
      RunAppend(h, s0, events[..i], e);
      s := Turn(h, s, e);
      assert events[..i + 1] == events[..i] + [e];
      i := i + 1;
    }
    assert events[..i] == events;
  }

  // ---------------------------------------------------------------------
  // Properties of the loop
  // ---------------------------------------------------------------------

  /**
   * Facts the loop's initial state satisfies and every step preserves, so
   * they hold in every state the loop reaches.
   */
  predicate Reachable(s: LoopState) {
    && s.kills <= 1
    && (s.kills == 1 ==> s.exited && !s.first)
    && (s.first <==> s.stops == 0)
    && s.printerCancels == s.stops
    && s.pendingStops + s.doneCloses == s.stops
    && (s.doneCloses > 0 ==> s.isTerminated)
  }

  /** The loop starts in a reachable state, before any teardown. */
  lemma InitialIsReachable()
    ensures Reachable(Initial) && Initial.stops == 0
  {
  }

  lemma StepKeepsReachable(h: CtrlCHandling, s: LoopState, e: LoopEvent)
    requires Reachable(s)
    ensures Reachable(Step(h, s, e))
  {
  }

  lemma {:induction false} RunKeepsReachable(h: CtrlCHandling, s: LoopState, events: seq<LoopEvent>)
    requires Reachable(s)
    ensures Reachable(Run(h, s, events))
    decreases |events|
  {
    if events != [] {
      StepKeepsReachable(h, s, events[0]);
      RunKeepsReachable(h, Step(h, s, events[0]), events[1..]);
    }
  }

  /**
   * From a reachable state (the initial one, say), whatever arrives, a Kill is scheduled at most once, and only after a
   * graceful teardown has cleared `first` and scheduled a Stop; the loop has
   * then returned. Every teardown cancelled the printer, and doneCh is closed
   * once per finished Stop, which set `isTerminated` first.
   */
  lemma KillOnlyAfterTeardown(h: CtrlCHandling, s0: LoopState, events: seq<LoopEvent>)
    requires Reachable(s0)
    ensures var r := Run(h, s0, events);
      r.kills <= 1 &&
      (r.kills == 1 ==> r.exited && !r.first && r.stops >= 1) &&
      r.printerCancels == r.stops &&
      (r.doneCloses > 0 ==> r.isTerminated)
  {
    RunKeepsReachable(h, s0, events);
  }


  /** Without the Ctrl-C key, or with Ctrl-C guarded by `first`, teardown happens at most once. */
  predicate TeardownOnce(h: CtrlCHandling, events: seq<LoopEvent>) {
    h == Guarded || KeyPress(CtrlC) !in events
  }

  lemma {:induction false} RunStopsAtMostOnce(h: CtrlCHandling, s: LoopState, events: seq<LoopEvent>)
    requires Reachable(s) && s.stops <= 1
    requires TeardownOnce(h, events)
    ensures Run(h, s, events).stops <= 1
    decreases |events|
  {
    if events != [] {
      assert events[0] == KeyPress(CtrlC) ==> h == Guarded;
      StepKeepsReachable(h, s, events[0]);
      var next := Step(h, s, events[0]);
      assert TeardownOnce(h, events[1..]) by {
        assert events == [events[0]] + events[1..];
      }
      RunStopsAtMostOnce(h, next, events[1..]);
    }
  }

  /**
   * From a reachable state before teardown (the initial one, say), signals and
   * context cancellation schedule Stop at most once, so doneCh is closed at
   * most once; the same holds for Ctrl-C when it is guarded.
   */
  lemma AtMostOneStop(h: CtrlCHandling, s0: LoopState, events: seq<LoopEvent>)
    requires Reachable(s0) && s0.stops == 0
    requires TeardownOnce(h, events)
    ensures Run(h, s0, events).stops <= 1
    ensures Run(h, s0, events).doneCloses <= 1
  {
    RunStopsAtMostOnce(h, s0, events);
    RunKeepsReachable(h, s0, events);
  }


  /** Once the loop has returned, only finishing Stop tasks change anything, and never `first`, Stops or Kills. */
  lemma {:induction false} ExitIsFinal(h: CtrlCHandling, s: LoopState, events: seq<LoopEvent>)
    requires s.exited
    ensures var r := Run(h, s, events);
      r.exited && r.first == s.first && r.stops == s.stops && r.kills == s.kills &&
      r.printerCancels == s.printerCancels
    decreases |events|
  {
    if events != [] {
      ExitIsFinal(h, Step(h, s, events[0]), events[1..]);
    }
  }

  /** After teardown has begun, cancelling the context changes nothing. */
  lemma CtxDoneAfterTeardownIsIgnored(h: CtrlCHandling, s: LoopState)
    requires !s.first
    ensures Step(h, s, CtxDone) == s
  {
  }

  /** A signal after teardown schedules exactly one Kill and returns without waiting for Stop. */
  lemma SecondSignalKills(h: CtrlCHandling, s: LoopState)
    requires !s.first && !s.exited
    ensures var r := Step(h, s, OsSignal);
      r.kills == s.kills + 1 && r.exited && r.stops == s.stops && r.pendingStops == s.pendingStops
  {
  }

  /** A signal or cancellation while `first` holds tears down gracefully: one more Stop, printer cancelled. */
  lemma FirstInterruptTearsDown(h: CtrlCHandling, s: LoopState, e: LoopEvent)
    requires s.first && !s.exited && (e == OsSignal || e == CtxDone)
    ensures Step(h, s, e) == Teardown(s)
  {
  }

  /** When the finished Stop closes doneCh, the next receive from it ends the loop. */
  lemma StopThenDoneEndsLoop(h: CtrlCHandling, s: LoopState)
    requires s.pendingStops > 0 && !s.exited
    ensures Step(h, s, StopReturned).isTerminated
    ensures Step(h, Step(h, s, StopReturned), DoneReady).exited
  {
  }

  /**
   * As written, the Ctrl-C key ignores `first`: pressing it twice schedules
   * two Stops, and when both finish doneCh is closed twice (a run-time panic
   * in Go), although the teardown message promises that a second Ctrl-C forces
   * the stop.
   */
  lemma DoubleCtrlCStopsTwice()
    ensures var r := Run(AsWritten, Initial, [KeyPress(CtrlC), KeyPress(CtrlC), StopReturned, StopReturned]);
      r.stops == 2 && r.doneCloses == 2 && r.kills == 0
  {
    var s1 := Step(AsWritten, Initial, KeyPress(CtrlC));
    var s2 := Step(AsWritten, s1, KeyPress(CtrlC));
    assert s2.stops == 2 && s2.pendingStops == 2;
  }

  /** Guarded like the signal path, a second Ctrl-C kills instead. */
  lemma DoubleCtrlCGuardedKills()
    ensures var r := Run(Guarded, Initial, [KeyPress(CtrlC), KeyPress(CtrlC), StopReturned, StopReturned]);
      r.stops == 1 && r.doneCloses == 1 && r.kills == 1 && r.exited
  {
    var s1 := Step(Guarded, Initial, KeyPress(CtrlC));
    var s2 := Step(Guarded, s1, KeyPress(CtrlC));
    assert s2.stops == 1 && s2.kills == 1;
  }

  // ---------------------------------------------------------------------
  // After the loop
  // ---------------------------------------------------------------------

  /** What Up returns at the end. */
  datatype Outcome =
    | Returned(err: Option<string>)             // a plain error, or nil
    | StatusError(statusCode: int, status: string)

  /**
   * The tail of Up: a start error is returned unless the stack was being
   * terminated; otherwise a non-zero exit code becomes a StatusError whose
   * text is the combined error (empty when there is none), and a zero code
   * returns the combined error as it is.
   */
  function Finish(startErr: Option<string>, isTerminated: bool, combinedErr: Option<string>, exitCode: int): (r: Outcome)
    ensures startErr.Some? && !isTerminated ==> r == Returned(startErr)
    ensures r.StatusError? <==> !(startErr.Some? && !isTerminated) && exitCode != 0
    ensures r.StatusError? ==> r.statusCode == exitCode && r.statusCode != 0
    ensures r.StatusError? ==> (combinedErr.Some? ==> r.status == combinedErr.value) && (combinedErr.None? ==> r.status == "")
    ensures !(startErr.Some? && !isTerminated) && exitCode == 0 ==> r == Returned(combinedErr)
  {
    if startErr.Some? && !isTerminated then Returned(startErr)
    else if exitCode != 0 then StatusError(exitCode, if combinedErr.Some? then combinedErr.value else "")
    else Returned(combinedErr)
  }

  /** The main goroutine, once start has returned: unless terminated, close doneCh to release the loop. */
  function MainReleasesLoop(s: LoopState): (r: LoopState)
    ensures r.doneCloses == s.doneCloses + (if s.isTerminated then 0 else 1)
    ensures r == s.(doneCloses := r.doneCloses)
  {
    if s.isTerminated then s else s.(doneCloses := s.doneCloses + 1)
  }

  /**
   * The invariant of the loop covers the time before start returns: once the
   * main goroutine has closed doneCh, a signal the select takes before the
   * closed doneCh still tears down, and when that Stop finishes doneCh has
   * been closed twice.
   */
  lemma LateSignalClosesTwice(h: CtrlCHandling)
    ensures !Reachable(MainReleasesLoop(Initial))
    ensures Run(h, MainReleasesLoop(Initial), [OsSignal, StopReturned]).doneCloses == 2
  {
    var s1 := Step(h, MainReleasesLoop(Initial), OsSignal);
    assert s1.pendingStops == 1 && s1.doneCloses == 1;
  }

  /**
   * Up, with create, start, the printer and the error group as oracles:
   * `createErr`, `startErr` (of whichever start call runs), the printer's
   * exit code and the group's combined error. `beforeStart` are the loop's
   * events until start returns, `afterStart` those until the group is
   * waited for.
   */
  method Up(h: CtrlCHandling, attach: bool, dryRun: bool, createErr: Option<string>, startErr: Option<string>,
            beforeStart: seq<LoopEvent>, afterStart: seq<LoopEvent>, exitCode: int, combinedErr: Option<string>)
    returns (r: Outcome, loop: LoopState)
    ensures Prelude(attach, dryRun, createErr, startErr).ReturnEarly? ==>
      r == Returned(Prelude(attach, dryRun, createErr, startErr).err) && loop == Initial
    ensures Prelude(attach, dryRun, createErr, startErr).EnterLoop? ==>
      var atStart := Run(h, Initial, beforeStart);
      (startErr.Some? && !atStart.isTerminated ==> r == Returned(startErr) && loop == atStart) &&
      (!(startErr.Some? && !atStart.isTerminated) ==>
        loop == Run(h, MainReleasesLoop(atStart), afterStart) &&
        r == Finish(startErr, atStart.isTerminated, combinedErr, exitCode))
  {
    loop := Initial;
    var entry := Prelude(attach, dryRun, createErr, startErr);
    if entry.ReturnEarly? {
      return Returned(entry.err), loop;
    }
    loop := EventLoop(h, loop, beforeStart);
    if startErr.Some? && !loop.isTerminated {
      return Returned(startErr), loop;
    }
    var isTerminated := loop.isTerminated;
    loop := MainReleasesLoop(loop);
    loop := EventLoop(h, loop, afterStart);
    r := Finish(startErr, isTerminated, combinedErr, exitCode);
  }
}
