/** runLauncher itself, proved to make exactly the calls of LauncherScript.Launch. */
module Launcher {
  import opened LauncherScript

  datatype Outcome = Fine | Threw {
    predicate IsFailure() { Threw? }
    function PropagateFailure(): Outcome { this }
  }

  class Launcher {
    const oracle: Oracle
    const expected: Approved
    /** Whether the port has beginCleanup. */
    const hook: bool
    var locked: bool
    var stopAttempted: bool
    var diagnosticAttempted: bool
    var safeRelease: bool
    var errors: nat
    /** Every call made so far; the n-th is answered by oracle(n). */
    var trace: seq<Step>

    constructor (oracle: Oracle, expected: Approved, hook: bool)
      ensures trace == [] && this.oracle == oracle && this.expected == expected && this.hook == hook
      ensures !locked && !stopAttempted && !diagnosticAttempted && safeRelease && errors == 0
    {
      this.oracle, this.expected, this.hook := oracle, expected, hook;
      locked, stopAttempted, diagnosticAttempted, safeRelease, errors, trace := false, false, false, true, 0, [];
    }

    /** One call and the check of its answer. */
    method Do(step: Step) returns (outcome: Outcome)
      modifies this`trace
      ensures trace == old(trace) + [step]
      ensures outcome.Fine? <==> Passes(step, oracle(|old(trace)|), expected)
    {
      var answer := oracle(|trace|);
      trace := trace + [step];
      return if Passes(step, answer, expected) then Fine else Threw;
    }

    /** The approval is still valid, the files and the original are as approved, nobody cancelled. */
    method Current() returns (outcome: Outcome)
      modifies this`trace
      ensures Followed(old(trace), trace, CURRENT, outcome.Fine?, oracle, expected)
    {
      hide Followed, Underway, Passes;
      ghost var t := trace;
      NothingYet(t, CURRENT, oracle, expected);
      OneMore(t, trace, CURRENT, 0, oracle, expected);
      :- Do(Clock);
      OneMore(t, trace, CURRENT, 1, oracle, expected);
      :- Do(Signal);
      OneMore(t, trace, CURRENT, 2, oracle, expected);
      :- Do(VerifyFiles);
      OneMore(t, trace, CURRENT, 3, oracle, expected);
      :- Do(Signal);
      OneMore(t, trace, CURRENT, 4, oracle, expected);
      :- Do(AskOriginal(UpAndRunning));
      OneMore(t, trace, CURRENT, 5, oracle, expected);
      :- Do(Signal);
      return Fine;
    }

    /** Up to the last check before the original is stopped. */
    method Prepare() returns (outcome: Outcome)
      requires !locked
      modifies this`trace, this`locked
      ensures Followed(old(trace), trace, PREPARE, outcome.Fine?, oracle, expected)
      ensures locked <==> !oracle(|old(trace)|).threw
    {
      hide Followed, Underway;
      ghost var t := trace;
      PrepareShape();
      NothingYet(t, PREPARE, oracle, expected);
      OneMore(t, trace, PREPARE, 0, oracle, expected);
      :- Do(Acquire);
      locked := true;
      hide Passes;
      Within(t, trace, PREPARE, 1, CURRENT, oracle, expected);
      :- Current();
      OneMore(t, trace, PREPARE, 7, oracle, expected);
      :- Do(AskDiagnostic(NoneThere));
      OneMore(t, trace, PREPARE, 8, oracle, expected);
      :- Do(SoftwareProbe);
      Within(t, trace, PREPARE, 9, CURRENT, oracle, expected);
      :- Current();
      OneMore(t, trace, PREPARE, 15, oracle, expected);
      :- Do(ConsumeStart);
      Within(t, trace, PREPARE, 16, CURRENT, oracle, expected);
      :- Current();
      return Fine;
    }

    /** From the announcement of the stop until the USB device is free. */
    method HandOver() returns (outcome: Outcome)
      modifies this`trace, this`stopAttempted
      ensures Followed(old(trace), trace, STOP, outcome.Fine?, oracle, expected) && stopAttempted
    {
      hide Followed, Underway, Passes;
      ghost var t := trace;
      stopAttempted := true;
      StopShape();
      hide STOP;
      NothingYet(t, STOP, oracle, expected);
      OneMore(t, trace, STOP, 0, oracle, expected);
      :- Do(Evidence(StopPending));
      OneMore(t, trace, STOP, 1, oracle, expected);
      :- Do(Signal);
      OneMore(t, trace, STOP, 2, oracle, expected);
      :- Do(StopOriginal);
      OneMore(t, trace, STOP, 3, oracle, expected);
      :- Do(AskOriginal(DownForSure));
      OneMore(t, trace, STOP, 4, oracle, expected);
      :- Do(UsbReleased);
      Within(t, trace, STOP, 5, FILES_AGAIN, oracle, expected);
      :- CheckFilesAgain();
      return Fine;
    }

    method CheckFilesAgain() returns (outcome: Outcome)
      modifies this`trace
      ensures Followed(old(trace), trace, FILES_AGAIN, outcome.Fine?, oracle, expected)
    {
      hide Followed, Underway, Passes;
      ghost var t := trace;
      NothingYet(t, FILES_AGAIN, oracle, expected);
      OneMore(t, trace, FILES_AGAIN, 0, oracle, expected);
      :- Do(Signal);
      OneMore(t, trace, FILES_AGAIN, 1, oracle, expected);
      :- Do(VerifyFiles);
      OneMore(t, trace, FILES_AGAIN, 2, oracle, expected);
      :- Do(Signal);
      return Fine;
    }

    method Diagnose() returns (outcome: Outcome)
      modifies this`trace, this`diagnosticAttempted
      ensures Followed(old(trace), trace, DIAGNOSE, outcome.Fine?, oracle, expected) && diagnosticAttempted
    {
      hide Followed, Underway, Passes;
      ghost var t := trace;
      diagnosticAttempted := true;
      NothingYet(t, DIAGNOSE, oracle, expected);
      OneMore(t, trace, DIAGNOSE, 0, oracle, expected);
      :- Do(Evidence(DiagnosticPending));
      OneMore(t, trace, DIAGNOSE, 1, oracle, expected);
      :- Do(Signal);
      OneMore(t, trace, DIAGNOSE, 2, oracle, expected);
      :- Do(StartDiagnostic);
      OneMore(t, trace, DIAGNOSE, 3, oracle, expected);
      :- Do(WaitDiagnostic);
      return Fine;
    }

    /** The try block. */
    method TryBlock() returns (outcome: Outcome)
      requires !locked && !stopAttempted && !diagnosticAttempted
      modifies this`trace, this`locked, this`stopAttempted, this`diagnosticAttempted
      ensures var trial := Trial(oracle, |old(trace)|, expected);
              && trace == old(trace) + trial.steps && (outcome.Fine? <==> trial.ok)
              && stopAttempted == trial.stopAttempted && diagnosticAttempted == trial.diagnosticAttempted
      ensures locked <==> !oracle(|old(trace)|).threw
    {
      hide Passes, AllPass, Part;
      :- Prepare();
      FollowedAll(old(trace), trace, PREPARE, oracle, expected);
      :- HandOver();
      FollowedAll(old(trace) + PREPARE, trace, STOP, oracle, expected);
      :- Diagnose();
      return Fine;
    }

    /** Waiting until the diagnostic is over. */
    method AwaitQuiet() returns (outcome: Outcome)
      modifies this`trace
      ensures var quiet := Quiet(oracle, |old(trace)|, expected);
              trace == old(trace) + quiet.steps && (outcome.Fine? <==> quiet.ok)
    {
      ghost var t0 := trace;
      var diagnostic := oracle(|trace|).diagnostic;
      :- Do(AskDiagnostic(Known));
      if diagnostic == Running {
        hide Underway, Passes, Followed, AllPass, Part;
        ghost var t := trace;
        QuietWhileRunning(t0, t, oracle, expected);
        NothingYet(t, TERMINATE, oracle, expected);
        OneMore(t, trace, TERMINATE, 0, oracle, expected);
        :- Do(TerminateDiagnostic);
        OneMore(t, trace, TERMINATE, 1, oracle, expected);
        :- Do(WaitRecovery);
        OneMore(t, trace, TERMINATE, 2, oracle, expected);
        :- Do(AskDiagnostic(Over));
      }
      return Fine;
    }

    /** The original is as approved and down, and the USB device is free. */
    method ConfirmDown() returns (outcome: Outcome)
      modifies this`trace
      ensures Followed(old(trace), trace, CONFIRM, outcome.Fine?, oracle, expected)
    {
      hide Followed, Underway, Passes;
      ghost var t := trace;
      NothingYet(t, CONFIRM, oracle, expected);
      OneMore(t, trace, CONFIRM, 0, oracle, expected);
      :- Do(AskOriginal(NotRunning));
      OneMore(t, trace, CONFIRM, 1, oracle, expected);
      :- Do(UsbReleased);
      return Fine;
    }

    method JudgeJournal()
      modifies this`trace, this`errors, this`safeRelease
      ensures var verdict := Verdict(oracle, |old(trace)|, diagnosticAttempted, expected);
              && trace == old(trace) + verdict.steps
              && safeRelease == (old(safeRelease) && verdict.ok)
              && errors == old(errors) + if verdict.ok then 0 else 1
    {
      if diagnosticAttempted {
        var judged := Do(FinalJournal);
        if judged.Threw? { errors, safeRelease := errors + 1, false; }
      }
    }

    method Restart() returns (outcome: Outcome)
      modifies this`trace
      ensures Followed(old(trace), trace, Reopen(errors == 0), outcome.Fine?, oracle, expected)
    {
      hide Followed, Underway, Passes;
      ghost var t := trace;
      ghost var script := Reopen(errors == 0);
      NothingYet(t, script, oracle, expected);
      OneMore(t, trace, script, 0, oracle, expected);
      :- Do(Evidence(RestartPending));
      OneMore(t, trace, script, 1, oracle, expected);
      :- Do(RestartOriginal);
      OneMore(t, trace, script, 2, oracle, expected);
      :- Do(Postflight);
      OneMore(t, trace, script, 3, oracle, expected);
      :- Do(Evidence(if errors > 0 then FailedRestored else Complete));
      return Fine;
    }

    /** The recovery inside the finally block, with its own handler. */
    method Recover()
      requires safeRelease
      modifies this`trace, this`errors, this`safeRelease
      ensures var cleanup := Cleanup(oracle, |old(trace)|, diagnosticAttempted, old(errors) == 0, expected);
              && trace == old(trace) + cleanup.steps
              && safeRelease == (cleanup.restored && cleanup.journalOk)
              && (errors == 0 <==> old(errors) == 0 && cleanup.restored && cleanup.journalOk)
    {
      hide Quiet, Followed, Passes, Part, AllPass, Reopening;
      ghost var t0 := trace;
      var quiet := AwaitQuiet();
      if quiet.Threw? {
        errors, safeRelease := errors + 1, false;
        return;
      }
      ghost var t1 := trace;
      var confirmed := ConfirmDown();
      FollowedMeans(t1, trace, CONFIRM, confirmed.Fine?, oracle, expected);
      if confirmed.Threw? {
        errors, safeRelease := errors + 1, false;
        return;
      }
      FollowedAll(t1, trace, CONFIRM, oracle, expected);
      BringBack();
    }

    /** The end of the recovery: the journal is judged and the original restarted. */
    method BringBack()
      requires safeRelease
      modifies this`trace, this`errors, this`safeRelease
      ensures var cleanup := Reopening(oracle, |old(trace)|, diagnosticAttempted, old(errors) == 0, expected);
              && trace == old(trace) + cleanup.steps
              && safeRelease == (cleanup.restored && cleanup.journalOk)
              && (errors == 0 <==> old(errors) == 0 && cleanup.restored && cleanup.journalOk)
    {
      hide Verdict, Followed, Passes, Part, AllPass, Run, Reopen;
      JudgeJournal();
      ghost var t := trace;
      var restarted := Restart();
      FollowedMeans(t, trace, Reopen(errors == 0), restarted.Fine?, oracle, expected);
      if restarted.Threw? { errors, safeRelease := errors + 1, false; }
    }

    /** runLauncher: failed tells that it throws. */
    method RunLauncher() returns (failed: bool)
      requires trace == [] && !locked && !stopAttempted && !diagnosticAttempted && safeRelease && errors == 0
      modifies this
      ensures trace == Launch(oracle, expected, hook).steps && failed == !Launch(oracle, expected, hook).ok
    {
      hide Trial, Cleanup, Passes, Ending, Opening, Opens, Aftermath, Launch;
      LaunchMeans(oracle, expected, hook);
      var approved := Do(Clock);
      if approved.Threw? { return true; }
      var tried := TryBlock();
      if tried.Threw? { errors := errors + 1; }
      ghost var trial := Trial(oracle, 1, expected);
      var begun := Open();
      assert trace == Before(oracle, expected, hook);
      if begun.Threw? { return true; }
      AftermathOf(oracle, |trace|, trial, expected);
      FinallyBlock();
      Unlock();
      return errors > 0;
    }

    /** The recovery, if a stop was attempted. */
    method FinallyBlock()
      requires safeRelease
      modifies this`trace, this`errors, this`safeRelease
      ensures var trial := TrialLeg([], old(errors) == 0, stopAttempted, diagnosticAttempted);
              var cleanup := Aftermath(oracle, |old(trace)|, trial, expected);
              && trace == old(trace) + cleanup.steps
              && safeRelease == (cleanup.restored && cleanup.journalOk)
              && (errors == 0 <==> old(errors) == 0 && cleanup.restored && cleanup.journalOk)
    {
      hide Cleanup;
      if stopAttempted { Recover(); }
    }

    /** The optional first call of the finally block; nothing handles its exception. */
    method Open() returns (outcome: Outcome)
      modifies this`trace
      ensures trace == old(trace) + Opening(hook)
      ensures outcome.Fine? <==> Opens(oracle, |old(trace)|, hook)
    {
      if !hook { return Fine; }
      outcome := Do(BeginCleanup);
    }

    method Unlock()
      modifies this`trace, this`errors
      ensures var ending := Ending(oracle, |old(trace)|, locked, safeRelease);
              && trace == old(trace) + ending.steps
              && errors == old(errors) + if ending.ok then 0 else 1
    {
      if locked {
        var ended := Do(if safeRelease then Release else Preserve);
        if ended.Threw? { errors := errors + 1; }
      }
    }
  }

  /** What runLauncher has called when the finally block is past its first call. */
  function Before(oracle: Oracle, expected: Approved, hook: bool): seq<Step> {
    [Clock] + Trial(oracle, 1, expected).steps + Opening(hook)
  }

  lemma LaunchMeans(oracle: Oracle, expected: Approved, hook: bool)
    ensures var leg, trial, before := Launch(oracle, expected, hook), Trial(oracle, 1, expected), Before(oracle, expected, hook);
            if !Passes(Clock, oracle(0), expected) then leg == Leg([Clock], false)
            else if !Opens(oracle, 1 + |trial.steps|, hook) then leg == Leg(before, false)
            else
              var cleanup := Aftermath(oracle, |before|, trial, expected);
              var safe := cleanup.restored && cleanup.journalOk;
              var ending := Ending(oracle, |before + cleanup.steps|, !oracle(1).threw, safe);
              leg == Leg(before + cleanup.steps + ending.steps, trial.ok && safe && ending.ok)
  {
    hide Trial, Cleanup, Passes, Ending, Opening, Opens, Aftermath;
  }

  lemma AftermathOf(oracle: Oracle, n: nat, trial: TrialLeg, expected: Approved)
    ensures Aftermath(oracle, n, trial, expected) ==
            Aftermath(oracle, n, TrialLeg([], trial.ok, trial.stopAttempted, trial.diagnosticAttempted), expected)
  {
    hide Cleanup;
  }

  const FILES_AGAIN := [Signal, VerifyFiles, Signal]

  lemma StopShape()
    ensures |STOP| == 8 && STOP[0] == Evidence(StopPending) && STOP[1] == Signal && STOP[2] == StopOriginal
    ensures STOP[3] == AskOriginal(DownForSure) && STOP[4] == UsbReleased
    ensures |FILES_AGAIN| == 3 && STOP[5..8] == FILES_AGAIN
  {
  }

  lemma PrepareShape()
    ensures |PREPARE| == 22 && |CURRENT| == 6
    ensures PREPARE[0] == Acquire && PREPARE[7] == AskDiagnostic(NoneThere) && PREPARE[8] == SoftwareProbe
    ensures PREPARE[15] == ConsumeStart
    ensures PREPARE[1..7] == CURRENT && PREPARE[9..15] == CURRENT && PREPARE[16..22] == CURRENT
  {
  }
}