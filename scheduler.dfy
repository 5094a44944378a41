/** The redraw-rate limiter of `run_loop` (support/mod.rs lines 37-104): the
    body the event loop runs once per platform event. It asks the
    application whether the event calls for a UI update or an exit, sets the
    UI at most once per 16 ms frame, asks the window for a redraw when the
    application says the frame changed, and tells the platform when to wake
    next. The application's answers and the current time are inputs. */
module Scheduler {
  import opened Wrappers
  import R = RawEvents

  /** The frame interval: the UI is set at most once per 16 ms. */
  const FrameIntervalMs: int := 16

  /** How the platform loop should wait for the next event
      (`event_loop::ControlFlow`). The loop body never chooses `Poll`. */
  datatype ControlFlow = Poll | Wait | WaitUntil(deadline: int) | Exit

  /** The two variables the loop closure keeps between events: the deadline
      of the current frame (ms), and whether an event asked for a UI update
      that has not yet been made. */
  datatype State = State(nextUpdate: Option<int>, uiUpdateNeeded: bool)

  /** What one pass of the loop body does, besides the state change:
      whether it sent `SetUi` to the application, whether it asked the window
      for a redraw, whether it sent `Redraw` to the application, and the
      control flow it left for the platform. */
  datatype Effects = Effects(
    setUiCalled: bool,
    redrawRequested: bool,
    redrawCallbackCalled: bool,
    controlFlow: ControlFlow)

  /** One pass of the loop body: the state it leaves and what it did. */
  datatype Outcome = Outcome(next: State, fx: Effects)

  /** The state before the first event. */
  const Initial: State := State(None, false)

  /** The platform woke the loop for the first time or because a deadline
      passed. */
  predicate IsTimerOrInit(event: R.Event)
  {
    event == R.NewEvents(R.Init) || event == R.NewEvents(R.ResumeTimeReached)
  }

  /** Whether the loop body sets the UI (when the application does not ask
      to exit): always on the first event and on a passed deadline, and at
      the end of a batch of events when an update is pending and no frame
      deadline is running. */
  predicate Commits(s: State, event: R.Event, shouldUpdateUi: bool)
  {
    IsTimerOrInit(event)
    || (event.MainEventsCleared? && s.nextUpdate.None? && (s.uiUpdateNeeded || shouldUpdateUi))
  }

  /** One pass of the loop body, on values: the new state and the effects. */
  function StepSpec(s: State, event: R.Event, now: int,
                    shouldUpdateUi: bool, shouldExit: bool, needsRedraw: bool): Outcome
  {
    var needed := s.uiUpdateNeeded || shouldUpdateUi;
    if shouldExit then
      Outcome(State(s.nextUpdate, needed), Effects(false, false, false, Exit))
    else
      var commit := Commits(s, event, shouldUpdateUi);
      var next :=
        if !commit then s.nextUpdate
        else if needsRedraw then Some(now + FrameIntervalMs)
        else None;
      var flow := if next.Some? then WaitUntil(next.value) else Wait;
      Outcome(State(next, needed && !commit),
              Effects(commit, commit && needsRedraw, event.RedrawRequested?, flow))
  }

  /** The loop closure's captured variables as an object that each event
      updates in place. */
  class RedrawScheduler {
    var nextUpdate: Option<int>
    var uiUpdateNeeded: bool

    /** The current values of the two variables. */
    function Snapshot(): State
      reads this
    {
      State(nextUpdate, uiUpdateNeeded)
    }

    /** No deadline and no pending update before the first event. */
    constructor()
      ensures Snapshot() == Initial
    {
      nextUpdate := None;
      uiUpdateNeeded := false;
    }

    /** Handles one event. `shouldUpdateUi` and `shouldExit` are the answers
        of the application to the event, `needsRedraw` its answer to
        `SetUi` (used only when the UI is set) and `now` the time in ms. */
    method Step(event: R.Event, now: int, shouldUpdateUi: bool, shouldExit: bool, needsRedraw: bool)
      returns (fx: Effects)
      modifies this
      ensures Outcome(Snapshot(), fx)
        == StepSpec(old(Snapshot()), event, now, shouldUpdateUi, shouldExit, needsRedraw)
    {
      uiUpdateNeeded := uiUpdateNeeded || shouldUpdateUi;
      if shouldExit {
        return Effects(false, false, false, Exit);
      }
      var setUi := false;
      var redraw := false;
      var commitOnCleared := nextUpdate.None? && uiUpdateNeeded;
      if IsTimerOrInit(event) || (event.MainEventsCleared? && commitOnCleared) {
        nextUpdate := Some(now + FrameIntervalMs);
        uiUpdateNeeded := false;
        setUi := true;
        if needsRedraw {
          redraw := true;
        } else {
          nextUpdate := None;
        }
      }
      var flow := Wait;
      if nextUpdate.Some? {
        flow := WaitUntil(nextUpdate.value);
      }
      fx := Effects(setUi, redraw, event.RedrawRequested?, flow);
    }
  }

  // ---------------------------------------------------------------------
  // One event

  /** An exit request pre-empts everything else the body does: the UI is not
      set, nothing is redrawn, the deadline stays, and the loop exits. */
  lemma ExitPreempts(s: State, event: R.Event, now: int,
                     shouldUpdateUi: bool, shouldExit: bool, needsRedraw: bool)
    ensures var r := StepSpec(s, event, now, shouldUpdateUi, shouldExit, needsRedraw);
      && (r.fx.controlFlow == Exit <==> shouldExit)
      && (shouldExit ==>
            !r.fx.setUiCalled && !r.fx.redrawRequested && !r.fx.redrawCallbackCalled
            && r.next.nextUpdate == s.nextUpdate)
  {
  }

  /** The platform is told to wake at the frame deadline if one runs, else
      to wait for the next event; it is never told to poll. */
  lemma WakePolicy(s: State, event: R.Event, now: int,
                   shouldUpdateUi: bool, shouldExit: bool, needsRedraw: bool)
    requires !shouldExit
    ensures var r := StepSpec(s, event, now, shouldUpdateUi, shouldExit, needsRedraw);
      && r.fx.controlFlow != Poll
      && r.fx.controlFlow == (if r.next.nextUpdate.Some? then WaitUntil(r.next.nextUpdate.value) else Wait)
  {
  }

  /** A redraw is asked of the window only as part of setting the UI, a
      deadline is kept after a set only when a redraw was asked for, and the
      application is told to redraw exactly on the platform's redraw event. */
  lemma RedrawPolicy(s: State, event: R.Event, now: int,
                     shouldUpdateUi: bool, shouldExit: bool, needsRedraw: bool)
    ensures var r := StepSpec(s, event, now, shouldUpdateUi, shouldExit, needsRedraw);
      && (r.fx.redrawRequested ==> r.fx.setUiCalled)
      && (r.fx.setUiCalled ==> (r.next.nextUpdate.Some? <==> r.fx.redrawRequested))
      && (r.fx.redrawCallbackCalled <==> !shouldExit && event.RedrawRequested?)
  {
  }

  /** A requested update stays pending until a UI set consumes it. */
  lemma PendingUntilSet(s: State, event: R.Event, now: int,
                        shouldUpdateUi: bool, shouldExit: bool, needsRedraw: bool)
    ensures var r := StepSpec(s, event, now, shouldUpdateUi, shouldExit, needsRedraw);
      r.next.uiUpdateNeeded <==> !r.fx.setUiCalled && (s.uiUpdateNeeded || shouldUpdateUi)
  {
  }

  /** The UI is set exactly when the application does not exit and the
      event is the first one, a passed deadline, or the end of a batch with
      an update pending and no frame running. */
  lemma CommitCondition(s: State, event: R.Event, now: int,
                        shouldUpdateUi: bool, shouldExit: bool, needsRedraw: bool)
    ensures StepSpec(s, event, now, shouldUpdateUi, shouldExit, needsRedraw).fx.setUiCalled
      <==> !shouldExit
           && (IsTimerOrInit(event)
               || (event.MainEventsCleared? && s.nextUpdate.None?
                   && (s.uiUpdateNeeded || shouldUpdateUi)))
  {
  }

  /** After the UI is set no update is pending, and a frame deadline 16 ms
      ahead runs exactly when the application asked for a redraw. */
  lemma AfterCommit(s: State, event: R.Event, now: int,
                    shouldUpdateUi: bool, shouldExit: bool, needsRedraw: bool)
    requires StepSpec(s, event, now, shouldUpdateUi, shouldExit, needsRedraw).fx.setUiCalled
    ensures var r := StepSpec(s, event, now, shouldUpdateUi, shouldExit, needsRedraw);
      && !r.next.uiUpdateNeeded
      && r.next.nextUpdate == (if needsRedraw then Some(now + FrameIntervalMs) else None)
      && r.fx.redrawRequested == needsRedraw
  {
  }

  /** When the UI is not set the deadline is kept, and the pending flag only
      gains the new request. */
  lemma NoCommitKeepsDeadline(s: State, event: R.Event, now: int,
                              shouldUpdateUi: bool, shouldExit: bool, needsRedraw: bool)
    requires !StepSpec(s, event, now, shouldUpdateUi, shouldExit, needsRedraw).fx.setUiCalled
    ensures var r := StepSpec(s, event, now, shouldUpdateUi, shouldExit, needsRedraw);
      && r.next == State(s.nextUpdate, s.uiUpdateNeeded || shouldUpdateUi)
      && !r.fx.redrawRequested
  {
  }

  /** While a frame deadline runs, the end of a batch does not set the UI,
      whatever the application asked for. */
  lemma DeadlineBlocksEarlyFrame(s: State, now: int,
                                 shouldUpdateUi: bool, needsRedraw: bool)
    requires s.nextUpdate.Some?
    ensures var r := StepSpec(s, R.MainEventsCleared, now, shouldUpdateUi, false, needsRedraw);
      && !r.fx.setUiCalled
      && r.fx.controlFlow == WaitUntil(s.nextUpdate.value)
  {
  }

  /** With no frame running, an update asked for in a batch is made at the
      end of that same batch. */
  lemma IdleUpdateIsImmediate(s: State, now: int, shouldUpdateUi: bool, needsRedraw: bool)
    requires s.nextUpdate.None?
    requires s.uiUpdateNeeded || shouldUpdateUi
    ensures StepSpec(s, R.MainEventsCleared, now, shouldUpdateUi, false, needsRedraw).fx.setUiCalled
  {
  }

  // ---------------------------------------------------------------------
  // A run of events

  /** One event as the loop sees it: the event, the time, and the
      application's three answers. */
  datatype Tick = Tick(event: R.Event, now: int,
                       shouldUpdateUi: bool, shouldExit: bool, needsRedraw: bool)

  /** A run of the loop: the state it ends in and the effects of every
      pass, in order. */
  datatype RunResult = RunResult(final: State, effects: seq<Effects>)

  /** The loop body applied to each tick in turn, stopping after the first
      exit: the final state and the effects of every pass made. */
  function Run(s: State, trace: seq<Tick>): (r: RunResult)
    ensures |r.effects| <= |trace|
    // The loop stops only by exiting, and only the last pass exits.
    ensures |r.effects| < |trace| ==> r.effects != [] && r.effects[|r.effects| - 1].controlFlow == Exit
    ensures forall i :: 0 <= i < |r.effects| - 1 ==> r.effects[i].controlFlow != Exit
    decreases |trace|
  {
    if trace == [] then RunResult(s, [])
    else
      var t := trace[0];
      var step := StepSpec(s, t.event, t.now, t.shouldUpdateUi, t.shouldExit, t.needsRedraw);
      if step.fx.controlFlow == Exit then RunResult(step.next, [step.fx])
      else
        var rest := Run(step.next, trace[1..]);
        RunResult(rest.final, [step.fx] + rest.effects)
  }

  /** One pass of the loop keeps the relation between the effects so far,
      the ticks still to come and the whole run `whole`. */
  /** `whole` is what remains of a run in state `s` over `rest`, after
      the passes `done`. */
  ghost predicate Resumes(whole: RunResult, s: State, rest: seq<Tick>, done: seq<Effects>)
  {
    whole == RunResult(Run(s, rest).final, done + Run(s, rest).effects)
  }

  lemma RunResumes(s: State, trace: seq<Tick>, i: nat, done: seq<Effects>, whole: RunResult, next: State, fx: Effects)
    requires i < |trace|
    requires Resumes(whole, s, trace[i..], done)
    requires Outcome(next, fx)
      == StepSpec(s, trace[i].event, trace[i].now, trace[i].shouldUpdateUi, trace[i].shouldExit, trace[i].needsRedraw)
    ensures fx.controlFlow == Exit ==> whole == RunResult(next, done + [fx])
    ensures fx.controlFlow != Exit ==> Resumes(whole, next, trace[i + 1..], done + [fx])
  {
    assert trace[i..][0] == trace[i] && trace[i..][1..] == trace[i + 1..];
    if fx.controlFlow != Exit {
      var tail := Run(next, trace[i + 1..]).effects;
      assert done + ([fx] + tail) == (done + [fx]) + tail;
    }
  }

  /** The event loop: a fresh scheduler handles the ticks one by one until
      the trace ends or the application exits. */
  method RunLoop(trace: seq<Tick>) returns (final: State, effects: seq<Effects>)
    ensures RunResult(final, effects) == Run(Initial, trace)
  {
    var scheduler := new RedrawScheduler();
    effects := [];
    var i := 0;
    assert trace[i..] == trace;
    assert effects + Run(Initial, trace).effects == Run(Initial, trace).effects;
    while i < |trace|
      invariant 0 <= i <= |trace|
      invariant Resumes(Run(Initial, trace), scheduler.Snapshot(), trace[i..], effects)
      decreases |trace| - i
    {
      var t := trace[i];
      ghost var before := scheduler.Snapshot();
      var fx := scheduler.Step(t.event, t.now, t.shouldUpdateUi, t.shouldExit, t.needsRedraw);
      RunResumes(before, trace, i, effects, Run(Initial, trace), scheduler.Snapshot(), fx);
      effects := effects + [fx];
      if fx.controlFlow == Exit {
        return scheduler.Snapshot(), effects;
      }
      i := i + 1;
    }
    assert trace[i..] == [];
    assert effects + [] == effects;
    final := scheduler.Snapshot();
  }

  /** No tick asks for an update, a timer or an initial wake-up. */
  predicate Quiet(trace: seq<Tick>)
  {
    forall i :: 0 <= i < |trace| ==> !trace[i].shouldUpdateUi && !IsTimerOrInit(trace[i].event)
  }

  /** Nothing to update and no frame running: however many events arrive,
      the UI is not set, no redraw is asked for and the loop only waits. */
  lemma {:induction false} QuietLoopOnlyWaits(s: State, trace: seq<Tick>)
    requires s == State(None, false)
    requires Quiet(trace)
    ensures Run(s, trace).final == s
    ensures forall i :: 0 <= i < |Run(s, trace).effects| ==>
      var fx := Run(s, trace).effects[i];
      !fx.setUiCalled && !fx.redrawRequested && (fx.controlFlow == Wait || fx.controlFlow == Exit)
    decreases |trace|
  {
    if trace != [] {
      var t := trace[0];
      var step := StepSpec(s, t.event, t.now, t.shouldUpdateUi, t.shouldExit, t.needsRedraw);
      if step.fx.controlFlow != Exit {
        assert Quiet(trace[1..]) by {
          forall i | 0 <= i < |trace[1..]|
            ensures !trace[1..][i].shouldUpdateUi && !IsTimerOrInit(trace[1..][i].event)
          {
            assert trace[1..][i] == trace[i + 1];
          }
        }
        QuietLoopOnlyWaits(step.next, trace[1..]);
      }
    }
  }

  /** No tick is a timer or initial wake-up. */
  predicate NoWakeUps(trace: seq<Tick>)
  {
    forall i :: 0 <= i < |trace| ==> !IsTimerOrInit(trace[i].event)
  }

  /** The rate limit: while a frame deadline runs and the platform has not
      reported it passed, the UI is not set again, the deadline stays, and
      every pass tells the platform to wake at that deadline. */
  lemma {:induction false} DeadlineHoldsUntilWakeUp(s: State, trace: seq<Tick>)
    requires s.nextUpdate.Some?
    requires NoWakeUps(trace)
    ensures Run(s, trace).final.nextUpdate == s.nextUpdate
    ensures forall i :: 0 <= i < |Run(s, trace).effects| ==>
      var fx := Run(s, trace).effects[i];
      !fx.setUiCalled && !fx.redrawRequested
      && (fx.controlFlow == WaitUntil(s.nextUpdate.value) || fx.controlFlow == Exit)
    decreases |trace|
  {
    if trace != [] {
      var t := trace[0];
      var step := StepSpec(s, t.event, t.now, t.shouldUpdateUi, t.shouldExit, t.needsRedraw);
      if step.fx.controlFlow != Exit {
        assert NoWakeUps(trace[1..]) by {
          forall i | 0 <= i < |trace[1..]|
            ensures !IsTimerOrInit(trace[1..][i].event)
          {
            assert trace[1..][i] == trace[i + 1];
          }
        }
        DeadlineHoldsUntilWakeUp(step.next, trace[1..]);
      }
    }
  }

  /** Some tick asks for a UI update. */
  predicate AnyUpdateRequest(trace: seq<Tick>)
  {
    exists i :: 0 <= i < |trace| && trace[i].shouldUpdateUi
  }

  /** No tick can set the UI: none is a wake-up or the end of a batch, and
      none exits. */
  predicate NoCommitChance(trace: seq<Tick>)
  {
    forall i :: 0 <= i < |trace| ==>
      !IsTimerOrInit(trace[i].event) && !trace[i].event.MainEventsCleared? && !trace[i].shouldExit
  }

  /** The pending-update flag is sticky: until the UI is set it records
      whether any event since the last set asked for an update, and the
      deadline does not move. */
  lemma {:induction false} PendingUpdateIsSticky(s: State, trace: seq<Tick>)
    requires NoCommitChance(trace)
    ensures Run(s, trace).final
      == State(s.nextUpdate, s.uiUpdateNeeded || AnyUpdateRequest(trace))
    ensures |Run(s, trace).effects| == |trace|
    decreases |trace|
  {
    if trace != [] {
      var t := trace[0];
      var step := StepSpec(s, t.event, t.now, t.shouldUpdateUi, t.shouldExit, t.needsRedraw);
      assert NoCommitChance(trace[1..]) by {
        forall i | 0 <= i < |trace[1..]|
          ensures !IsTimerOrInit(trace[1..][i].event) && !trace[1..][i].event.MainEventsCleared?
                  && !trace[1..][i].shouldExit
        {
          assert trace[1..][i] == trace[i + 1];
        }
      }
      PendingUpdateIsSticky(step.next, trace[1..]);
      assert AnyUpdateRequest(trace) <==> t.shouldUpdateUi || AnyUpdateRequest(trace[1..]) by {
        if AnyUpdateRequest(trace[1..]) {
          var j :| 0 <= j < |trace[1..]| && trace[1..][j].shouldUpdateUi;
          assert trace[j + 1] == trace[1..][j];
        }
        if AnyUpdateRequest(trace) && !t.shouldUpdateUi {
          var j :| 0 <= j < |trace| && trace[j].shouldUpdateUi;
          assert j > 0 && trace[1..][j - 1] == trace[j];
        }
      }
    }
  }

  /** The frame limit holds only while a deadline runs, that is after a UI
      set that asked for a redraw. A set that needs no redraw leaves no
      deadline, so the next end of a batch with a request sets the UI again,
      however soon it comes. */
  lemma NoLimitAfterSetWithoutRedraw(t0: int, t1: int, needsRedraw: bool)
    ensures var r := Run(Initial, [Tick(R.NewEvents(R.Init), t0, false, false, false),
                                   Tick(R.MainEventsCleared, t1, true, false, needsRedraw)]);
      |r.effects| == 2 && r.effects[0].setUiCalled && r.effects[1].setUiCalled
  {
  }

  /** The first event sets the UI at once, whatever the application asks. */
  lemma FirstEventSetsUi(t: Tick, rest: seq<Tick>)
    requires t.event == R.NewEvents(R.Init) && !t.shouldExit
    ensures Run(Initial, [t] + rest).effects[0].setUiCalled
  {
  }
}
