/** What must have happened before the launcher stops the original, and what its last word means. */
module LauncherStop {
  import opened LauncherSafety
  import opened LauncherScript

  // ----- Before the stop -----

  /** The lock was taken, no diagnostic was there, the software probe passed and the one start was
      consumed; after that the approval still held, the files and the original were as approved, nobody
      had cancelled, and the stop was announced. */
  ghost predicate ReadyToStop(run: seq<Step>, oracle: Oracle, expected: Approved) {
    && DoneAt(run, 1, Acquire, oracle, expected) && DoneAt(run, 8, AskDiagnostic(NoneThere), oracle, expected)
    && DoneAt(run, 9, SoftwareProbe, oracle, expected) && DoneAt(run, 16, ConsumeStart, oracle, expected)
    && DoneAt(run, 17, Clock, oracle, expected) && DoneAt(run, 19, VerifyFiles, oracle, expected)
    && DoneAt(run, 21, AskOriginal(UpAndRunning), oracle, expected) && DoneAt(run, 22, Signal, oracle, expected)
    && DoneAt(run, 23, Evidence(StopPending), oracle, expected) && DoneAt(run, 24, Signal, oracle, expected)
  }

  /** The original is stopped at most once, and only when ready. */
  lemma StopOnlyWhenReady(oracle: Oracle, expected: Approved, hook: bool, i: nat)
    requires i < |Launch(oracle, expected, hook).steps| && Launch(oracle, expected, hook).steps[i] == StopOriginal
    ensures i == 25 && ReadyToStop(Launch(oracle, expected, hook).steps, oracle, expected)
  {
    hide Launch, Trial, CleanupOf, EndingOf, Passes, Opening, ReadyToStop;
    RefusedLaunch(oracle, expected, hook);
    if Passes(Clock, oracle(0), expected) {
      var trial := Trial(oracle, 1, expected);
      var rest := Opening(hook) + CleanupOf(oracle, expected, hook).steps + EndingOf(oracle, expected, hook).steps;
      NoStopAfterTrial(oracle, expected, hook);
      Inside(Clock, trial.steps, rest, i, StopOriginal);
      StopInTrial(oracle, expected, i - 1);
      ReadyInRun(trial.steps, rest, oracle, expected);
    }
  }

  lemma NoStopAfterTrial(oracle: Oracle, expected: Approved, hook: bool)
    requires Passes(Clock, oracle(0), expected)
    ensures var rest := Opening(hook) + CleanupOf(oracle, expected, hook).steps + EndingOf(oracle, expected, hook).steps;
            && Launch(oracle, expected, hook).steps == [Clock] + Trial(oracle, 1, expected).steps + rest
            && StopOriginal !in rest
  {
    hide Launch, Trial, CleanupOf, EndingOf, OfTrial, OfCleanup, Passes;
    AfterTrial(oracle, expected, hook);
    KindsOfPieces(oracle, expected, hook);
    CleanupStopsNothing();
  }

  lemma CleanupStopsNothing()
    ensures !OfCleanup(StopOriginal)
  {
  }

  /** The same, for the steps of the try block, which follow the first call. */
  ghost predicate ReadyInTrial(steps: seq<Step>, oracle: Oracle, expected: Approved) {
    |steps| > 24 && forall k :: 0 <= k < 24 ==> Passes(steps[k], oracle(1 + k), expected) && steps[k] == Wanted(k)
  }

  /** The calls of the try block up to the stop. */
  function Wanted(k: nat): Step
    requires k < 24
  {
    if k < 22 then PREPARE[k] else STOP[k - 22]
  }

  lemma WantedSteps()
    ensures Wanted(0) == Acquire && Wanted(7) == AskDiagnostic(NoneThere) && Wanted(8) == SoftwareProbe && Wanted(15) == ConsumeStart
    ensures Wanted(16) == Clock && Wanted(18) == VerifyFiles && Wanted(20) == AskOriginal(UpAndRunning) && Wanted(21) == Signal
    ensures Wanted(22) == Evidence(StopPending) && Wanted(23) == Signal
  {
  }

  lemma ReadyInRun(steps: seq<Step>, rest: seq<Step>, oracle: Oracle, expected: Approved)
    requires ReadyInTrial(steps, oracle, expected)
    ensures ReadyToStop([Clock] + steps + rest, oracle, expected)
  {
    WantedSteps();
    hide Passes, Wanted;
    forall k | 0 <= k < 24 ensures DoneAt([Clock] + steps + rest, k + 1, Wanted(k), oracle, expected) {
      assert ([Clock] + steps + rest)[k + 1] == steps[k];
    }
  }

  lemma StopPlaces()
    ensures StopOriginal !in PREPARE && StopOriginal !in DIAGNOSE
    ensures forall k :: 0 <= k < |STOP| ==> (STOP[k] == StopOriginal <==> k == 2)
  {
  }

  /** The steps before a step that was made have passed. */
  lemma PartReached(script: seq<Step>, oracle: Oracle, n: nat, expected: Approved, k: nat)
    requires k < |Part(script, oracle, n, expected)|
    ensures |Part(script, oracle, n, expected)| <= |script| && PassTo(script, oracle, n, k, expected)
    ensures forall j :: 0 <= j < |Part(script, oracle, n, expected)| ==> Part(script, oracle, n, expected)[j] == script[j]
  {
    hide Passes;
  }

  lemma TrialIs(oracle: Oracle, expected: Approved)
    ensures |PREPARE| == 22 && |STOP| == 8
    ensures var steps := Trial(oracle, 1, expected).steps;
            steps == if !AllPass(PREPARE, oracle, 1, expected) then Part(PREPARE, oracle, 1, expected)
                     else PREPARE + Part(STOP, oracle, 23, expected) +
                          if AllPass(STOP, oracle, 23, expected) then Part(DIAGNOSE, oracle, 31, expected) else []
  {
    FirstSteps();
    PartFacts(PREPARE, oracle, 1, expected);
    PartFacts(STOP, oracle, 23, expected);
    hide Part, AllPass, PREPARE, STOP, DIAGNOSE, Passes;
    assert PREPARE + Part(STOP, oracle, 23, expected) + [] == PREPARE + Part(STOP, oracle, 23, expected);
  }

  lemma StopInTrial(oracle: Oracle, expected: Approved, i: nat)
    requires i < |Trial(oracle, 1, expected).steps| && Trial(oracle, 1, expected).steps[i] == StopOriginal
    ensures i == 24 && ReadyInTrial(Trial(oracle, 1, expected).steps, oracle, expected)
  {
    hide Trial, Part, AllPass, Passes, PREPARE, STOP, DIAGNOSE, ReadyInTrial;
    StopPlaces();
    FirstSteps();
    TrialIs(oracle, expected);
    PartFacts(PREPARE, oracle, 1, expected);
    PartFacts(DIAGNOSE, oracle, 31, expected);
    if AllPass(PREPARE, oracle, 1, expected) {
      var stop := Part(STOP, oracle, 23, expected);
      var diagnose := if AllPass(STOP, oracle, 23, expected) then Part(DIAGNOSE, oracle, 31, expected) else [];
      At(PREPARE, stop, diagnose, i);
      assert i >= 22 && i - 22 < |stop| && stop[i - 22] == StopOriginal;
      PartReached(STOP, oracle, 23, expected, i - 22);
      StopReached(oracle, expected, diagnose);
    }
  }

  lemma StopReached(oracle: Oracle, expected: Approved, diagnose: seq<Step>)
    requires AllPass(PREPARE, oracle, 1, expected) && |Part(STOP, oracle, 23, expected)| > 2
    ensures ReadyInTrial(PREPARE + Part(STOP, oracle, 23, expected) + diagnose, oracle, expected)
  {
    FirstSteps();
    PartReached(STOP, oracle, 23, expected, 2);
    hide Passes, PREPARE, STOP, Part;
    var steps := PREPARE + Part(STOP, oracle, 23, expected) + diagnose;
    forall k | 0 <= k < 24 ensures Passes(steps[k], oracle(1 + k), expected) && steps[k] == Wanted(k) {
      if k < 22 {
        assert steps[k] == PREPARE[k];
      } else {
        assert steps[k] == STOP[k - 22] && 1 + k == 23 + (k - 22);
      }
    }
  }

  /** The diagnostic is started only after the stop was made ready, the files were checked again and
      the start announced. */
  lemma StartIsAnnounced(oracle: Oracle, expected: Approved, hook: bool, i: nat)
    requires i < |Launch(oracle, expected, hook).steps| && Launch(oracle, expected, hook).steps[i] == StartDiagnostic
    ensures var run := Launch(oracle, expected, hook).steps;
            && i == 33 && ReadyToStop(run, oracle, expected) && DoneAt(run, 29, VerifyFiles, oracle, expected)
            && DoneAt(run, 31, Evidence(DiagnosticPending), oracle, expected) && DoneAt(run, 32, Signal, oracle, expected)
  {
    hide Launch, Trial, CleanupOf, EndingOf, Passes, Opening, ReadyToStop, Announced, DoneAt;
    DiagnosticOnlyAfterHandOver(oracle, expected, hook, i);
    DoneThere(Launch(oracle, expected, hook).steps, 25, StopOriginal, oracle, expected);
    StopOnlyWhenReady(oracle, expected, hook, 25);
    RefusedLaunch(oracle, expected, hook);
    if Passes(Clock, oracle(0), expected) {
      var trial := Trial(oracle, 1, expected);
      var rest := Opening(hook) + CleanupOf(oracle, expected, hook).steps + EndingOf(oracle, expected, hook).steps;
      AfterTrial(oracle, expected, hook);
      Inside(Clock, trial.steps, rest, i, StartDiagnostic);
      AnnouncedInTrial(oracle, expected);
      AnnouncedInRun(trial.steps, rest, oracle, expected);
    }
  }

  ghost predicate Announced(steps: seq<Step>, oracle: Oracle, expected: Approved) {
    && |steps| > 32 && steps[28] == VerifyFiles && Passes(VerifyFiles, oracle(29), expected)
    && steps[30] == Evidence(DiagnosticPending) && Passes(Evidence(DiagnosticPending), oracle(31), expected)
    && steps[31] == Signal && Passes(Signal, oracle(32), expected)
  }

  lemma AnnouncedInRun(steps: seq<Step>, rest: seq<Step>, oracle: Oracle, expected: Approved)
    requires Announced(steps, oracle, expected)
    ensures var run := [Clock] + steps + rest;
            && DoneAt(run, 29, VerifyFiles, oracle, expected) && DoneAt(run, 31, Evidence(DiagnosticPending), oracle, expected)
            && DoneAt(run, 32, Signal, oracle, expected)
  {
    hide Passes;
    OneLater(steps, rest, 28);
    OneLater(steps, rest, 30);
    OneLater(steps, rest, 31);
  }

  lemma DoneThere(run: seq<Step>, i: nat, step: Step, oracle: Oracle, expected: Approved)
    requires DoneAt(run, i, step, oracle, expected)
    ensures i < |run| && run[i] == step
  {
  }

  lemma OneLater(steps: seq<Step>, rest: seq<Step>, k: nat)
    requires k < |steps|
    ensures k + 1 < |[Clock] + steps + rest| && ([Clock] + steps + rest)[k + 1] == steps[k]
  {
  }

  lemma AnnouncedInTrial(oracle: Oracle, expected: Approved)
    requires StartDiagnostic in Trial(oracle, 1, expected).steps
    ensures Announced(Trial(oracle, 1, expected).steps, oracle, expected)
  {
    hide Trial, Part, AllPass, Passes, PREPARE, STOP, DIAGNOSE;
    StartMeansHandedOver(oracle, 1, expected);
    FirstSteps();
    LaterSteps();
    var part := Part(DIAGNOSE, oracle, 31, expected);
    var i :| 0 <= i < |PREPARE + STOP + part| && (PREPARE + STOP + part)[i] == StartDiagnostic;
    At(PREPARE, STOP, part, i);
    assert i >= 30 && part[i - 30] == StartDiagnostic;
    StartOfDiagnose(oracle, 31, expected);
    PartReached(DIAGNOSE, oracle, 31, expected, 2);
    AllOf(STOP, oracle, 23, expected, 6);
    assert Passes(DIAGNOSE[0], oracle(31 + 0), expected) && Passes(DIAGNOSE[1], oracle(31 + 1), expected);
    assert (PREPARE + STOP + part)[28] == STOP[6] && (PREPARE + STOP + part)[30] == part[0] && (PREPARE + STOP + part)[31] == part[1];
  }

  lemma AllOf(script: seq<Step>, oracle: Oracle, n: nat, expected: Approved, k: nat)
    requires AllPass(script, oracle, n, expected) && k < |script|
    ensures Passes(script[k], oracle(n + k), expected)
  {
    hide Passes;
  }

  lemma LaterSteps()
    ensures STOP[6] == VerifyFiles && DIAGNOSE[0] == Evidence(DiagnosticPending) && DIAGNOSE[1] == Signal
    ensures DIAGNOSE[3] == WaitDiagnostic && |DIAGNOSE| == 4 && |STOP| == 8
  {
  }

  // ----- The last word -----

  /** The try block got through if and only if the diagnostic was awaited and had ended well. */
  lemma TrialOkMeans(oracle: Oracle, expected: Approved)
    ensures Trial(oracle, 1, expected).ok <==> DoneFrom(Trial(oracle, 1, expected).steps, 1, WaitDiagnostic, oracle, expected)
    ensures Trial(oracle, 1, expected).ok ==> Trial(oracle, 1, expected).diagnosticAttempted
  {
    hide Part, AllPass, Passes, PREPARE, STOP, DIAGNOSE, DoneFrom;
    FirstSteps();
    WaitPlaces();
    PartFacts(PREPARE, oracle, 1, expected);
    PartFacts(STOP, oracle, 23, expected);
    var prepare, stop, diagnose := Part(PREPARE, oracle, 1, expected), Part(STOP, oracle, 23, expected), Part(DIAGNOSE, oracle, 31, expected);
    NotThere(prepare, 1, WaitDiagnostic, oracle, expected);
    if AllPass(PREPARE, oracle, 1, expected) {
      NotThere(stop, 23, WaitDiagnostic, oracle, expected);
      DoneSplits(prepare, stop, 1, WaitDiagnostic, oracle, expected);
      if AllPass(STOP, oracle, 23, expected) {
        DoneSplits(prepare + stop, diagnose, 1, WaitDiagnostic, oracle, expected);
        DiagnoseOkMeans(oracle, expected);
      }
    }
  }

  lemma WaitPlaces()
    ensures WaitDiagnostic !in PREPARE && WaitDiagnostic !in STOP
  {
  }

  lemma DiagnoseOkMeans(oracle: Oracle, expected: Approved)
    ensures AllPass(DIAGNOSE, oracle, 31, expected) <==>
            DoneFrom(Part(DIAGNOSE, oracle, 31, expected), 31, WaitDiagnostic, oracle, expected)
  {
    hide Passes, Part;
    var part := Part(DIAGNOSE, oracle, 31, expected);
    PartFacts(DIAGNOSE, oracle, 31, expected);
    if AllPass(DIAGNOSE, oracle, 31, expected) {
      assert part[3] == WaitDiagnostic && Passes(part[3], oracle(31 + 3), expected);
    }
    if DoneFrom(part, 31, WaitDiagnostic, oracle, expected) {
      var k :| 0 <= k < |part| && part[k] == WaitDiagnostic && Passes(WaitDiagnostic, oracle(31 + k), expected);
      PartReached(DIAGNOSE, oracle, 31, expected, k);
      assert k == 3;
      forall j | 0 <= j < 4 ensures Passes(DIAGNOSE[j], oracle(31 + j), expected) {
      }
    }
  }

  /** The reopening script reaches its last evidence if and only if the postflight passed. */
  lemma LastEvidence(oracle: Oracle, n: nat, clean: bool, expected: Approved)
    ensures var part := Part(Reopen(clean), oracle, n, expected);
            forall c :: Evidence(c) in part && c != RestartPending <==>
              c == (if clean then Complete else FailedRestored) && DoneFrom(part, n, Postflight, oracle, expected)
  {
    hide Passes, Part;
    var script := Reopen(clean);
    var part := Part(script, oracle, n, expected);
    FinalStepDecides(oracle, n, clean, expected);
    ReopenPasses(oracle, n, clean, expected);
    if DoneFrom(part, n, Postflight, oracle, expected) {
      var k :| 0 <= k < |part| && part[k] == Postflight && Passes(Postflight, oracle(n + k), expected);
      PostflightGoesOn(oracle, n, clean, expected);
      assert part[3] == script[3];
    }
    if |part| == 4 {
      PartReached(script, oracle, n, expected, 3);
      assert part[2] == Postflight && Passes(script[2], oracle(n + 2), expected);
      assert part[3] == script[3];
    }
  }

  lemma PostflightGoesOn(oracle: Oracle, n: nat, clean: bool, expected: Approved)
    requires |Part(Reopen(clean), oracle, n, expected)| > 2 && Passes(Postflight, oracle(n + 2), expected)
    ensures |Part(Reopen(clean), oracle, n, expected)| == 4
  {
    hide Passes;
    assert Reopen(clean)[2] == Postflight;
  }

  ghost predicate SaysLast(steps: seq<Step>, n: nat, clean: bool, oracle: Oracle, expected: Approved) {
    forall c :: Evidence(c) in steps && (c == Complete || c == FailedRestored) <==>
      c == (if clean then Complete else FailedRestored) && DoneFrom(steps, n, Postflight, oracle, expected)
  }

  lemma LastOfReopening(oracle: Oracle, n: nat, asked: bool, trialOk: bool, expected: Approved)
    ensures var steps := Reopening(oracle, n, asked, trialOk, expected).steps;
            SaysLast(steps, n, trialOk && (asked ==> DoneFrom(steps, n, FinalJournal, oracle, expected)), oracle, expected)
  {
    ReopeningDone(oracle, n, asked, trialOk, expected);
    hide Passes, Part, AllPass, DoneFrom, Reopen;
    var verdict := Verdict(oracle, n, asked, expected);
    var m, clean := n + |verdict.steps|, trialOk && verdict.ok;
    LastEvidence(oracle, m, clean, expected);
    VerdictDone(oracle, n, asked, expected);
    NoFinalEvidence(oracle, m, clean, expected);
    DoneSplits(verdict.steps, Part(Reopen(clean), oracle, m, expected), n, Postflight, oracle, expected);
  }

  lemma NoFinalEvidence(oracle: Oracle, n: nat, clean: bool, expected: Approved)
    ensures forall asked: bool, c :: Evidence(c) !in Verdict(oracle, n, asked, expected).steps
  {
    hide Passes;
  }

  /** A recovery step is made in the finally block exactly if it is made in its reopening. */
  lemma MadeInCleanup(oracle: Oracle, n: nat, asked: bool, clean: bool, expected: Approved, x: Step)
    requires Recovery(x)
    ensures var m := n + |HeadOfCleanup(oracle, n, expected)|;
            x in Cleanup(oracle, n, asked, clean, expected).steps <==>
            Reached(oracle, n, expected) && x in Reopening(oracle, m, asked, clean, expected).steps
  {
    hide *;
    HeadWithout(oracle, n, expected, x);
    if Reached(oracle, n, expected) {
      HeadAndRest(oracle, n, asked, clean, expected);
    } else {
      CleanupShort(oracle, n, asked, clean, expected);
    }
  }

  lemma LastOfCleanup(oracle: Oracle, n: nat, asked: bool, trialOk: bool, expected: Approved)
    ensures var steps := Cleanup(oracle, n, asked, trialOk, expected).steps;
            SaysLast(steps, n, trialOk && (asked ==> DoneFrom(steps, n, FinalJournal, oracle, expected)), oracle, expected)
  {
    hide Cleanup, Reopening, DoneFrom, Recovery, Reached, HeadOfCleanup;
    var m := n + |HeadOfCleanup(oracle, n, expected)|;
    RecoverySteps();
    LastOfReopening(oracle, m, asked, trialOk, expected);
    DoneInCleanup(oracle, n, asked, trialOk, expected, Postflight);
    DoneInCleanup(oracle, n, asked, trialOk, expected, FinalJournal);
    MadeInCleanup(oracle, n, asked, trialOk, expected, Evidence(Complete));
    MadeInCleanup(oracle, n, asked, trialOk, expected, Evidence(FailedRestored));
  }

  /** The final evidence is recorded if and only if the postflight passed; it says "complete" exactly if
      the diagnostic was awaited and had ended well and the final journal was good, and "failed, restored"
      otherwise. */
  lemma LastWord(oracle: Oracle, expected: Approved, hook: bool)
    ensures var run := Launch(oracle, expected, hook).steps;
            var good := Done(run, WaitDiagnostic, oracle, expected) && Done(run, FinalJournal, oracle, expected);
            && (Evidence(Complete) in run <==> good && Done(run, Postflight, oracle, expected))
            && (Evidence(FailedRestored) in run ==> !good && Done(run, Postflight, oracle, expected))
            && (Done(run, Postflight, oracle, expected) ==> Evidence(Complete) in run || Evidence(FailedRestored) in run)
  {
    RefusedLaunch(oracle, expected, hook);
    if Passes(Clock, oracle(0), expected) {
      LastWordInRun(oracle, expected, hook);
    } else {
      NothingDone(oracle, expected);
    }
    hide Launch, Done, Passes;
  }

  lemma NothingDone(oracle: Oracle, expected: Approved)
    ensures !Done([Clock], WaitDiagnostic, oracle, expected) && !Done([Clock], Postflight, oracle, expected)
  {
  }

  lemma LastWordInRun(oracle: Oracle, expected: Approved, hook: bool)
    requires Passes(Clock, oracle(0), expected)
    ensures var run := Launch(oracle, expected, hook).steps;
            var good := Done(run, WaitDiagnostic, oracle, expected) && Done(run, FinalJournal, oracle, expected);
            && (Evidence(Complete) in run <==> good && Done(run, Postflight, oracle, expected))
            && (Evidence(FailedRestored) in run ==> !good && Done(run, Postflight, oracle, expected))
            && (Done(run, Postflight, oracle, expected) ==> Evidence(Complete) in run || Evidence(FailedRestored) in run)
  {
    hide Launch, Trial, CleanupOf, Passes, Done, DoneFrom, BeforeCleanup, Recovery, EndingOf, Cleanup;
    var trial := Trial(oracle, 1, expected);
    RecoverySteps();
    InRun(oracle, expected, hook, Evidence(Complete));
    InRun(oracle, expected, hook, Evidence(FailedRestored));
    EvidenceElsewhere(oracle, expected, hook);
    DoneInRun(oracle, expected, hook, Postflight);
    DoneInRun(oracle, expected, hook, FinalJournal);
    WaitInRun(oracle, expected, hook);
    TrialOkMeans(oracle, expected);
    LastOfFinally(oracle, expected, hook);
  }

  lemma EvidenceElsewhere(oracle: Oracle, expected: Approved, hook: bool)
    ensures forall c | c == Complete || c == FailedRestored ::
      Evidence(c) !in Trial(oracle, 1, expected).steps && Evidence(c) !in EndingOf(oracle, expected, hook).steps
  {
    hide Trial, CleanupOf, EndingOf, OfTrial, OfCleanup;
    KindsOfPieces(oracle, expected, hook);
    KindsOfTrial();
  }

  lemma WaitInRun(oracle: Oracle, expected: Approved, hook: bool)
    requires Passes(Clock, oracle(0), expected)
    ensures Done(Launch(oracle, expected, hook).steps, WaitDiagnostic, oracle, expected) <==>
            DoneFrom(Trial(oracle, 1, expected).steps, 1, WaitDiagnostic, oracle, expected)
  {
    var rest := Opening(hook) + CleanupOf(oracle, expected, hook).steps + EndingOf(oracle, expected, hook).steps;
    DoneMeans(oracle, expected, hook, WaitDiagnostic);
    NoWaitAfterTrial(oracle, expected, hook);
    hide *;
    DoneInMiddle([Clock], Trial(oracle, 1, expected).steps, rest, WaitDiagnostic, oracle, expected);
  }

  lemma NoWaitAfterTrial(oracle: Oracle, expected: Approved, hook: bool)
    requires Passes(Clock, oracle(0), expected)
    ensures var rest := Opening(hook) + CleanupOf(oracle, expected, hook).steps + EndingOf(oracle, expected, hook).steps;
            && Launch(oracle, expected, hook).steps == [Clock] + Trial(oracle, 1, expected).steps + rest
            && WaitDiagnostic !in rest
  {
    hide Launch, Trial, CleanupOf, EndingOf, OfTrial, OfCleanup, Passes;
    AfterTrial(oracle, expected, hook);
    KindsOfPieces(oracle, expected, hook);
    CleanupAwaitsNothing();
  }

  lemma CleanupAwaitsNothing()
    ensures !OfCleanup(WaitDiagnostic)
  {
  }

  lemma LastOfFinally(oracle: Oracle, expected: Approved, hook: bool)
    ensures var steps, n, trial := CleanupOf(oracle, expected, hook).steps, |BeforeCleanup(oracle, expected, hook)|, Trial(oracle, 1, expected);
            SaysLast(steps, n, trial.ok && (trial.diagnosticAttempted ==> DoneFrom(steps, n, FinalJournal, oracle, expected)), oracle, expected)
  {
    hide Trial, Cleanup, BeforeCleanup, Begun, Passes;
    var trial, n := Trial(oracle, 1, expected), |BeforeCleanup(oracle, expected, hook)|;
    LastOfCleanup(oracle, n, trial.diagnosticAttempted, trial.ok, expected);
  }

  // ----- Before the restart -----

  lemma RestartAnnouncedInReopening(oracle: Oracle, n: nat, asked: bool, trialOk: bool, expected: Approved)
    ensures var steps := Reopening(oracle, n, asked, trialOk, expected).steps;
            RestartOriginal in steps ==> DoneFrom(steps, n, Evidence(RestartPending), oracle, expected)
  {
    hide Passes, Part, AllPass, DoneFrom;
    var verdict := Verdict(oracle, n, asked, expected);
    var m, clean := n + |verdict.steps|, trialOk && verdict.ok;
    var part := Part(Reopen(clean), oracle, m, expected);
    DoneSplits(verdict.steps, part, n, Evidence(RestartPending), oracle, expected);
    if RestartOriginal in part { FirstOfReopen(oracle, m, clean, expected); }
  }

  lemma FirstOfReopen(oracle: Oracle, n: nat, clean: bool, expected: Approved)
    requires RestartOriginal in Part(Reopen(clean), oracle, n, expected)
    ensures DoneFrom(Part(Reopen(clean), oracle, n, expected), n, Evidence(RestartPending), oracle, expected)
  {
    hide Passes, Part;
    var part := Part(Reopen(clean), oracle, n, expected);
    var k :| 0 <= k < |part| && part[k] == RestartOriginal;
    PartReached(Reopen(clean), oracle, n, expected, k);
    assert k == 1 && part[0] == Evidence(RestartPending) && Passes(part[0], oracle(n + 0), expected);
  }

  /** The original is restarted only after the restart was announced. */
  lemma RestartIsAnnounced(oracle: Oracle, expected: Approved, hook: bool)
    requires RestartOriginal in Launch(oracle, expected, hook).steps
    ensures Done(Launch(oracle, expected, hook).steps, Evidence(RestartPending), oracle, expected)
  {
    RefusedLaunch(oracle, expected, hook);
    RecoverySteps();
    RestartEvidence();
    hide Launch, Trial, CleanupOf, EndingOf, Passes, BeforeCleanup, Done, DoneFrom, Recovery;
    if Passes(Clock, oracle(0), expected) {
      WhereNot(oracle, expected, hook);
      ThreePieces(oracle, expected, hook);
      DoneInRun(oracle, expected, hook, Evidence(RestartPending));
      RestartAnnouncedInFinally(oracle, expected, hook);
    }
  }

  lemma RestartEvidence()
    ensures Recovery(Evidence(RestartPending))
  {
    assert Reopen(true)[0] == Evidence(RestartPending);
  }

  lemma RestartAnnouncedInFinally(oracle: Oracle, expected: Approved, hook: bool)
    requires RestartOriginal in CleanupOf(oracle, expected, hook).steps
    ensures DoneFrom(CleanupOf(oracle, expected, hook).steps, |BeforeCleanup(oracle, expected, hook)|, Evidence(RestartPending),
                     oracle, expected)
  {
    hide *;
    RecoverySteps();
    RestartEvidence();
    CleanupAfterStop(oracle, expected, hook);
    var trial, n := Trial(oracle, 1, expected), |BeforeCleanup(oracle, expected, hook)|;
    MadeInCleanup(oracle, n, trial.diagnosticAttempted, trial.ok, expected, RestartOriginal);
    RestartAnnouncedInReopening(oracle, n + |HeadOfCleanup(oracle, n, expected)|, trial.diagnosticAttempted, trial.ok, expected);
    DoneInCleanup(oracle, n, trial.diagnosticAttempted, trial.ok, expected, Evidence(RestartPending));
  }

  // ----- What an answer must be -----

  /** The answer describes the very container that was approved. */
  predicate Approves(a: Answer, expected: Approved) {
    a.original.id == expected.id && a.original.image == expected.image && a.original.startedAt == expected.startedAt
  }

  /** What each answer must be for the run to go on. */
  lemma AnswersWanted(a: Answer, expected: Approved)
    ensures Passes(AskOriginal(UpAndRunning), a, expected) <==>
              !a.threw && Approves(a, expected) && a.original.running && a.original.status == "running"
    ensures Passes(AskOriginal(DownForSure), a, expected) <==>
              !a.threw && Approves(a, expected) && !a.original.running && a.original.status in {"exited", "dead"}
    ensures Passes(AskOriginal(NotRunning), a, expected) <==> !a.threw && Approves(a, expected) && !a.original.running
    ensures Passes(AskDiagnostic(NoneThere), a, expected) <==> !a.threw && a.diagnostic == Absent
    ensures Passes(AskDiagnostic(Known), a, expected) <==> !a.threw && a.diagnostic != Unknown
    ensures Passes(AskDiagnostic(Over), a, expected) <==> !a.threw && a.diagnostic in {Terminal, Absent}
    ensures Passes(WaitDiagnostic, a, expected) <==> !a.threw && a.exit == 0
    ensures Passes(FinalJournal, a, expected) <==> !a.threw && a.journal
    ensures forall x | x in [Clock, Signal, Acquire, VerifyFiles, SoftwareProbe, ConsumeStart, StopOriginal, UsbReleased,
                             StartDiagnostic, RestartOriginal, Postflight] :: Passes(x, a, expected) <==> !a.threw
  {
  }
}
