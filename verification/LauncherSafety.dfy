/** What the launcher promises, whatever its calls bring. */
module LauncherSafety {
  import opened LauncherScript

  /** The step is the i-th call, and its answer was as it should be. */
  ghost predicate DoneAt(run: seq<Step>, i: nat, step: Step, oracle: Oracle, expected: Approved) {
    i < |run| && run[i] == step && Passes(step, oracle(i), expected)
  }

  /** The step was made among those that begin with call number n, and its answer was as it should be. */
  ghost predicate DoneFrom(steps: seq<Step>, n: nat, step: Step, oracle: Oracle, expected: Approved) {
    exists k :: 0 <= k < |steps| && steps[k] == step && Passes(step, oracle(n + k), expected)
  }

  ghost predicate Done(run: seq<Step>, step: Step, oracle: Oracle, expected: Approved) {
    DoneFrom(run, 0, step, oracle, expected)
  }

  /** The part of a script that is gone through consists of its steps and begins with its first. */
  lemma PartFacts(script: seq<Step>, oracle: Oracle, n: nat, expected: Approved)
    requires script != []
    ensures var part := Part(script, oracle, n, expected);
            && part != [] && part[0] == script[0] && (forall x | x in part :: x in script)
            && (AllPass(script, oracle, n, expected) ==> part == script && Passes(script[0], oracle(n), expected))
  {
    hide Taken, Passes;
    if AllPass(script, oracle, n, expected) {
      EndsOnce(script, oracle, n, expected, |script|);
      assert Passes(script[0], oracle(n + 0), expected);
    }
    hide PassTo;
  }

  predicate OfTrial(x: Step) {
    x in PREPARE || x in STOP || x in DIAGNOSE
  }

  predicate OfCleanup(x: Step) {
    || x == AskDiagnostic(Known) || x in TERMINATE || x in CONFIRM || x == FinalJournal
    || x in Reopen(true) || x in Reopen(false)
  }

  lemma KindsOfScripts()
    ensures forall x | x in PREPARE :: x != Evidence(StopPending) && x != Evidence(DiagnosticPending) && x != StartDiagnostic
    ensures forall x | x in STOP :: x != Evidence(DiagnosticPending) && x != StartDiagnostic
  {
  }

  lemma KindsOfTrial()
    ensures forall x | OfTrial(x) ::
      !x.RestartOriginal? && !x.FinalJournal? && !x.Postflight? && !x.Release? && !x.Preserve?
      && (x.Evidence? ==> x.code == StopPending || x.code == DiagnosticPending)
  {
  }

  lemma KindsOfCleanup()
    ensures forall x | OfCleanup(x) ::
      !x.StartDiagnostic? && !x.Release? && !x.Preserve? && (x.Evidence? ==> x.code != StopPending && x.code != DiagnosticPending)
  {
  }

  lemma Kinds()
    ensures forall x | x in PREPARE :: x != Evidence(StopPending) && x != Evidence(DiagnosticPending) && x != StartDiagnostic
    ensures forall x | x in STOP :: x != Evidence(DiagnosticPending) && x != StartDiagnostic
    ensures forall x | OfTrial(x) ::
      !x.RestartOriginal? && !x.FinalJournal? && !x.Postflight? && !x.Release? && !x.Preserve?
      && (x.Evidence? ==> x.code == StopPending || x.code == DiagnosticPending)
    ensures forall x | OfCleanup(x) ::
      !x.StartDiagnostic? && !x.Release? && !x.Preserve? && (x.Evidence? ==> x.code != StopPending && x.code != DiagnosticPending)
  {
    hide *;
    KindsOfScripts();
    KindsOfTrial();
    KindsOfCleanup();
  }

  lemma TrialSteps(oracle: Oracle, n: nat, expected: Approved)
    ensures var trial := Trial(oracle, n, expected);
            && (forall x | x in trial.steps :: OfTrial(x))
            && (Evidence(StopPending) in trial.steps <==> trial.stopAttempted)
            && (Evidence(DiagnosticPending) in trial.steps <==> trial.diagnosticAttempted)
            && (trial.stopAttempted ==> |trial.steps| > |PREPARE| && !oracle(n).threw)
  {
    var trial := Trial(oracle, n, expected);
    Kinds();
    PartFacts(PREPARE, oracle, n, expected);
    PartFacts(STOP, oracle, n + |PREPARE|, expected);
    PartFacts(DIAGNOSE, oracle, n + |PREPARE| + |STOP|, expected);
    FirstSteps();
    hide Part, AllPass, Passes, OfTrial, PREPARE, STOP, DIAGNOSE;
  }

  lemma FirstSteps()
    ensures PREPARE[0] == Acquire && STOP[0] == Evidence(StopPending) && DIAGNOSE[0] == Evidence(DiagnosticPending)
    ensures |PREPARE| == 22 && |STOP| == 8 && |DIAGNOSE| == 4
    ensures forall x | x in PREPARE || x in STOP || x in DIAGNOSE :: OfTrial(x)
    ensures forall a: Answer, e: Approved :: Passes(Acquire, a, e) ==> !a.threw
  {
  }

  predicate Finished(d: Diagnostic) { d == Terminal || d == Absent }

  lemma QuietSteps(oracle: Oracle, n: nat, expected: Approved)
    ensures var quiet := Quiet(oracle, n, expected);
            && quiet.steps != [] && (forall x | x in quiet.steps :: x == AskDiagnostic(Known) || x in TERMINATE)
            && (quiet.ok ==>
                  var last := |quiet.steps| - 1;
                  quiet.steps[last].AskDiagnostic? && !oracle(n + last).threw && Finished(oracle(n + last).diagnostic))
  {
    hide Part, AllPass, Passes, TERMINATE;
    KnownMeans(expected);
    PartFacts(TERMINATE, oracle, n + 1, expected);
    if AllPass(TERMINATE, oracle, n + 1, expected) { OverAtLast(oracle, n + 1, expected); }
  }

  lemma KnownMeans(expected: Approved)
    ensures TERMINATE != []
    ensures forall a :: Passes(AskDiagnostic(Known), a, expected) <==> !a.threw && a.diagnostic != Unknown
  {
  }

  lemma OverAtLast(oracle: Oracle, n: nat, expected: Approved)
    requires AllPass(TERMINATE, oracle, n, expected)
    ensures |TERMINATE| == 3 && TERMINATE[2] == AskDiagnostic(Over)
    ensures !oracle(n + 2).threw && Finished(oracle(n + 2).diagnostic)
  {
    assert Passes(TERMINATE[2], oracle(n + 2), expected);
  }

  lemma ConfirmPasses(oracle: Oracle, n: nat, expected: Approved)
    ensures |CONFIRM| == 2 && CONFIRM[0] == AskOriginal(NotRunning) && CONFIRM[1] == UsbReleased
    ensures AllPass(CONFIRM, oracle, n, expected) ==>
      Passes(AskOriginal(NotRunning), oracle(n), expected) && Passes(UsbReleased, oracle(n + 1), expected)
  {
    hide Passes;
    if AllPass(CONFIRM, oracle, n, expected) {
      assert Passes(CONFIRM[0], oracle(n + 0), expected) && Passes(CONFIRM[1], oracle(n + 1), expected);
    }
  }

  /** Where the steps of a complete recovery lie. */
  lemma ReopenPasses(oracle: Oracle, n: nat, clean: bool, expected: Approved)
    ensures var script := Reopen(clean);
            && |script| == 4 && script[0] == Evidence(RestartPending) && script[1] == RestartOriginal && script[2] == Postflight
            && script[3] == Evidence(if clean then Complete else FailedRestored)
            && (AllPass(script, oracle, n, expected) ==>
                  && Passes(RestartOriginal, oracle(n + 1), expected) && Passes(Postflight, oracle(n + 2), expected)
                  && Passes(script[3], oracle(n + 3), expected))
            && (!AllPass(script, oracle, n, expected) ==>
                  || !Passes(script[0], oracle(n), expected) || !Passes(RestartOriginal, oracle(n + 1), expected)
                  || !Passes(Postflight, oracle(n + 2), expected) || !Passes(script[3], oracle(n + 3), expected))
  {
    hide Passes;
    var script := Reopen(clean);
    assert oracle(n + 0) == oracle(n);
    if AllPass(script, oracle, n, expected) {
      assert Passes(script[1], oracle(n + 1), expected) && Passes(script[2], oracle(n + 2), expected)
             && Passes(script[3], oracle(n + 3), expected);
    }
  }

  predicate Recovery(x: Step) { x == FinalJournal || x in Reopen(true) || x in Reopen(false) }

  lemma CleanupKinds(oracle: Oracle, n: nat, asked: bool, clean: bool, expected: Approved)
    ensures forall x | x in Cleanup(oracle, n, asked, clean, expected).steps :: OfCleanup(x)
  {
    QuietSteps(oracle, n, expected);
    var a := |Quiet(oracle, n, expected).steps|;
    PartFacts(CONFIRM, oracle, n + a, expected);
    ReopeningSteps(oracle, n + a + |CONFIRM|, asked, clean, expected);
    StepKinds();
    hide Quiet, Part, AllPass, Passes, CONFIRM, TERMINATE, Reopening, OfCleanup, Finished;
  }

  /** The diagnostic was found over, the original down as approved and the USB device free. */
  ghost predicate Reached(oracle: Oracle, n: nat, expected: Approved) {
    var quiet := Quiet(oracle, n, expected);
    quiet.ok && AllPass(CONFIRM, oracle, n + |quiet.steps|, expected)
  }

  lemma CleanupShort(oracle: Oracle, n: nat, asked: bool, clean: bool, expected: Approved)
    requires !Reached(oracle, n, expected)
    ensures var cleanup := Cleanup(oracle, n, asked, clean, expected);
            !cleanup.restored && cleanup.journalOk && forall x | x in cleanup.steps :: !Recovery(x)
  {
    assert CONFIRM != [];
    hide Quiet, Part, AllPass, Passes, CONFIRM, TERMINATE, Recovery, OfCleanup, Finished;
    QuietSteps(oracle, n, expected);
    PartFacts(CONFIRM, oracle, n + |Quiet(oracle, n, expected).steps|, expected);
    StepKinds();
  }

  lemma CleanupWhole(oracle: Oracle, n: nat, asked: bool, clean: bool, expected: Approved)
    requires Reached(oracle, n, expected)
    ensures var quiet := Quiet(oracle, n, expected);
            var reopening := Reopening(oracle, n + |quiet.steps| + 2, asked, clean, expected);
            Cleanup(oracle, n, asked, clean, expected) == reopening.(steps := quiet.steps + CONFIRM + reopening.steps)
  {
    hide Quiet, Part, AllPass, Passes, CONFIRM, Reopening;
    var a := |Quiet(oracle, n, expected).steps|;
    ConfirmPasses(oracle, n, expected);
    PartFacts(CONFIRM, oracle, n + a, expected);
    assert n + a + |CONFIRM| == n + a + 2;
  }

  lemma BeforeReopening(oracle: Oracle, n: nat, expected: Approved)
    ensures forall x | x in Quiet(oracle, n, expected).steps + CONFIRM :: !Recovery(x)
  {
    QuietSteps(oracle, n, expected);
    StepKinds();
    hide Quiet, CONFIRM, TERMINATE, Recovery, OfCleanup;
  }

  lemma ReachedMeans(oracle: Oracle, n: nat, expected: Approved)
    requires Reached(oracle, n, expected)
    ensures var quiet := Quiet(oracle, n, expected);
            var a := |quiet.steps|;
            && a > 0 && quiet.steps[a - 1].AskDiagnostic? && !oracle(n + a - 1).threw && Finished(oracle(n + a - 1).diagnostic)
            && |CONFIRM| == 2 && CONFIRM[0] == AskOriginal(NotRunning) && CONFIRM[1] == UsbReleased
            && Passes(AskOriginal(NotRunning), oracle(n + a), expected) && Passes(UsbReleased, oracle(n + a + 1), expected)
  {
    hide Quiet, AllPass, Passes, Finished, CONFIRM, TERMINATE;
    QuietSteps(oracle, n, expected);
    ConfirmPasses(oracle, n + |Quiet(oracle, n, expected).steps|, expected);
  }

  lemma ReopeningSteps(oracle: Oracle, n: nat, asked: bool, clean: bool, expected: Approved)
    ensures forall x | x in Reopening(oracle, n, asked, clean, expected).steps :: OfCleanup(x)
  {
    var verdict := Verdict(oracle, n, asked, expected);
    PartFacts(Reopen(clean && verdict.ok), oracle, n + |verdict.steps|, expected);
    StepKinds();
    hide Part, AllPass, Passes, Reopen, OfCleanup;
  }

  lemma StepKinds()
    ensures forall x | x == AskDiagnostic(Known) || x in TERMINATE || x in CONFIRM :: !Recovery(x) && OfCleanup(x)
    ensures forall x, c | x in Reopen(c) :: OfCleanup(x)
    ensures OfCleanup(FinalJournal)
  {
  }

  // ----- The promises -----

  /** The calls up to the recovery. */
  function BeforeCleanup(oracle: Oracle, expected: Approved, hook: bool): seq<Step> {
    [Clock] + Trial(oracle, 1, expected).steps + Opening(hook)
  }

  /** The finally block got past its opening call. */
  predicate Begun(oracle: Oracle, expected: Approved, hook: bool) {
    Opens(oracle, 1 + |Trial(oracle, 1, expected).steps|, hook)
  }

  function CleanupOf(oracle: Oracle, expected: Approved, hook: bool): CleanupLeg {
    if Begun(oracle, expected, hook)
    then Aftermath(oracle, |BeforeCleanup(oracle, expected, hook)|, Trial(oracle, 1, expected), expected)
    else CleanupLeg([], false, false)
  }

  function EndingOf(oracle: Oracle, expected: Approved, hook: bool): Leg {
    var cleanup := CleanupOf(oracle, expected, hook);
    if Begun(oracle, expected, hook)
    then Ending(oracle, |BeforeCleanup(oracle, expected, hook)| + |cleanup.steps|, !oracle(1).threw,
                cleanup.restored && cleanup.journalOk)
    else Leg([], false)
  }

  lemma Pieces(oracle: Oracle, expected: Approved, hook: bool)
    requires Passes(Clock, oracle(0), expected)
    ensures Launch(oracle, expected, hook).steps ==
            BeforeCleanup(oracle, expected, hook) + CleanupOf(oracle, expected, hook).steps + EndingOf(oracle, expected, hook).steps
    ensures Launch(oracle, expected, hook).ok <==>
            Trial(oracle, 1, expected).ok && CleanupOf(oracle, expected, hook).restored
            && CleanupOf(oracle, expected, hook).journalOk && EndingOf(oracle, expected, hook).ok
  {
    hide Trial, Aftermath, Ending, Passes, Opening;
  }

  lemma RefusedLaunch(oracle: Oracle, expected: Approved, hook: bool)
    ensures !Passes(Clock, oracle(0), expected) ==> Launch(oracle, expected, hook) == Leg([Clock], false)
  {
  }

  lemma KindsOfPieces(oracle: Oracle, expected: Approved, hook: bool)
    ensures forall x | x in Trial(oracle, 1, expected).steps :: OfTrial(x)
    ensures forall x | x in CleanupOf(oracle, expected, hook).steps :: OfCleanup(x)
    ensures |EndingOf(oracle, expected, hook).steps| == if !oracle(1).threw && Begun(oracle, expected, hook) then 1 else 0
    ensures forall x | x in EndingOf(oracle, expected, hook).steps :: x == Release || x == Preserve
    ensures forall x | x in BeforeCleanup(oracle, expected, hook) :: x == Clock || OfTrial(x) || x == BeginCleanup
  {
    hide Trial, Cleanup, OfTrial, OfCleanup, PREPARE, Opens;
    var trial := Trial(oracle, 1, expected);
    TrialSteps(oracle, 1, expected);
    CleanupKinds(oracle, |BeforeCleanup(oracle, expected, hook)|, trial.diagnosticAttempted, trial.ok, expected);
  }

  predicate EndsLock(x: Step) { x == Release || x == Preserve }

  lemma LastOnly(body: seq<Step>, ending: seq<Step>)
    requires forall x | x in body :: !EndsLock(x)
    requires forall x | x in ending :: EndsLock(x)
    ensures forall i :: 0 <= i < |body + ending| ==>
      (EndsLock((body + ending)[i]) <==> i >= |body|)
  {
    hide *;
    forall i | 0 <= i < |body + ending| ensures EndsLock((body + ending)[i]) <==> i >= |body| {
      if i < |body| { assert body[i] in body; } else { assert ending[i - |body|] in ending; }
    }
  }

  /** The opening call of the finally block threw. */
  ghost predicate Interrupted(run: seq<Step>, oracle: Oracle) {
    exists i: nat :: i < |run| && run[i] == BeginCleanup && oracle(i).threw
  }

  /** A lock attempt is the last call, and there is one exactly if the lock is held and the opening
      call of the finally block did not throw. */
  lemma LockEndsOnce(oracle: Oracle, expected: Approved, hook: bool)
    ensures var run := Launch(oracle, expected, hook).steps;
            var held := Passes(Clock, oracle(0), expected) && !oracle(1).threw;
            && ((exists i :: 0 <= i < |run| && EndsLock(run[i])) <==> held && !Interrupted(run, oracle))
            && forall i :: 0 <= i < |run| && EndsLock(run[i]) ==> i == |run| - 1
  {
    hide Launch, Trial, CleanupOf, EndingOf, BeforeCleanup, Begun, Passes, Interrupted;
    if Passes(Clock, oracle(0), expected) {
      InterruptedMeans(oracle, expected, hook);
      LockPlace(oracle, expected, hook);
    } else {
      RefusedLaunch(oracle, expected, hook);
    }
  }

  lemma LockPlace(oracle: Oracle, expected: Approved, hook: bool)
    requires Passes(Clock, oracle(0), expected)
    ensures var run := Launch(oracle, expected, hook).steps;
            && (!oracle(1).threw && Begun(oracle, expected, hook) ==> run != [] && EndsLock(run[|run| - 1]))
            && forall i :: 0 <= i < |run| && EndsLock(run[i]) ==>
                 i == |run| - 1 && !oracle(1).threw && Begun(oracle, expected, hook)
  {
    var body := BeforeCleanup(oracle, expected, hook) + CleanupOf(oracle, expected, hook).steps;
    hide *;
    BodyKeepsLock(oracle, expected, hook);
    Pieces(oracle, expected, hook);
    LastOnly(body, EndingOf(oracle, expected, hook).steps);
  }

  lemma InterruptedMeans(oracle: Oracle, expected: Approved, hook: bool)
    requires Passes(Clock, oracle(0), expected)
    ensures Interrupted(Launch(oracle, expected, hook).steps, oracle) <==> !Begun(oracle, expected, hook)
  {
    var n := 1 + |Trial(oracle, 1, expected).steps|;
    OpeningPlace(oracle, expected, hook);
    hide Launch, Trial, Passes;
    if !Begun(oracle, expected, hook) { assert Launch(oracle, expected, hook).steps[n] == BeginCleanup; }
  }

  /** The opening call is made once, right after the try block, if the port has it. */
  lemma OpeningPlace(oracle: Oracle, expected: Approved, hook: bool)
    requires Passes(Clock, oracle(0), expected)
    ensures var run, n := Launch(oracle, expected, hook).steps, 1 + |Trial(oracle, 1, expected).steps|;
            && (hook ==> n < |run|)
            && forall i :: 0 <= i < |run| ==> (run[i] == BeginCleanup <==> hook && i == n)
  {
    var head := [Clock] + Trial(oracle, 1, expected).steps;
    var cleanup, ending := CleanupOf(oracle, expected, hook).steps, EndingOf(oracle, expected, hook).steps;
    assert BeforeCleanup(oracle, expected, hook) == head + Opening(hook);
    assert Opening(hook) == if hook then [BeginCleanup] else [];
    NoOpeningIn(oracle, expected, hook);
    hide *;
    Pieces(oracle, expected, hook);
    Regroup(head, Opening(hook), cleanup, ending);
    PlaceOfOne(head, Opening(hook), cleanup + ending, BeginCleanup);
  }

  lemma Regroup(a: seq<Step>, b: seq<Step>, c: seq<Step>, d: seq<Step>)
    ensures a + b + c + d == a + b + (c + d) == a + (b + c + d)
  {
  }

  lemma PlaceOfOne(head: seq<Step>, middle: seq<Step>, tail: seq<Step>, x: Step)
    requires x !in head && x !in tail && (middle == [] || middle == [x])
    ensures var all := head + middle + tail;
            && (middle != [] ==> |head| < |all|)
            && forall i :: 0 <= i < |all| ==> (all[i] == x <==> middle != [] && i == |head|)
  {
    var all := head + middle + tail;
    forall i | 0 <= i < |all| ensures all[i] == x <==> middle != [] && i == |head| {
      At(head, middle, tail, i);
      if i < |head| { assert head[i] in head; }
      if i >= |head| + |middle| { assert tail[i - |head| - |middle|] in tail; }
    }
  }

  lemma NoOpeningIn(oracle: Oracle, expected: Approved, hook: bool)
    ensures BeginCleanup !in [Clock] + Trial(oracle, 1, expected).steps
    ensures BeginCleanup !in CleanupOf(oracle, expected, hook).steps + EndingOf(oracle, expected, hook).steps
  {
    NoOpeningElsewhere();
    hide Trial, CleanupOf, EndingOf, OfTrial, OfCleanup, BeforeCleanup, Begun;
    KindsOfPieces(oracle, expected, hook);
  }

  lemma NoOpeningElsewhere()
    ensures !OfTrial(BeginCleanup) && !OfCleanup(BeginCleanup)
  {
  }

  lemma BodyKeepsLock(oracle: Oracle, expected: Approved, hook: bool)
    ensures var body := BeforeCleanup(oracle, expected, hook) + CleanupOf(oracle, expected, hook).steps;
            forall x | x in body :: !EndsLock(x)
    ensures |EndingOf(oracle, expected, hook).steps| == if !oracle(1).threw && Begun(oracle, expected, hook) then 1 else 0
    ensures forall x | x in EndingOf(oracle, expected, hook).steps :: EndsLock(x)
  {
    KindsOfPieces(oracle, expected, hook);
    Kinds();
    hide Trial, CleanupOf, EndingOf, OfTrial, OfCleanup, BeforeCleanup, Begun;
  }

  lemma At(a: seq<Step>, b: seq<Step>, c: seq<Step>, i: nat)
    requires i < |a + b + c|
    ensures (a + b + c)[i] == if i < |a| then a[i] else if i < |a| + |b| then b[i - |a|] else c[i - |a| - |b|]
  {
  }

  lemma Inside(before: Step, middle: seq<Step>, after: seq<Step>, i: nat, x: Step)
    requires i < |[before] + middle + after| && ([before] + middle + after)[i] == x && x != before && x !in after
    ensures 0 < i <= |middle| && middle[i - 1] == x
  {
    At([before], middle, after, i);
  }

  /** The diagnostic is started at most once, and only after the original was confirmed down as
      approved and then the USB device free. */
  lemma DiagnosticOnlyAfterHandOver(oracle: Oracle, expected: Approved, hook: bool, i: nat)
    requires i < |Launch(oracle, expected, hook).steps| && Launch(oracle, expected, hook).steps[i] == StartDiagnostic
    ensures i == 33
    ensures DoneAt(Launch(oracle, expected, hook).steps, 25, StopOriginal, oracle, expected)
    ensures DoneAt(Launch(oracle, expected, hook).steps, 26, AskOriginal(DownForSure), oracle, expected)
    ensures DoneAt(Launch(oracle, expected, hook).steps, 27, UsbReleased, oracle, expected)
  {
    hide Launch, Trial, CleanupOf, EndingOf, Passes, Opening;
    RefusedLaunch(oracle, expected, hook);
    if Passes(Clock, oracle(0), expected) {
      var trial := Trial(oracle, 1, expected);
      var rest := Opening(hook) + CleanupOf(oracle, expected, hook).steps + EndingOf(oracle, expected, hook).steps;
      AfterTrial(oracle, expected, hook);
      Inside(Clock, trial.steps, rest, i, StartDiagnostic);
      StartInTrial(oracle, 1, expected, i - 1);
    }
  }

  lemma AfterTrial(oracle: Oracle, expected: Approved, hook: bool)
    requires Passes(Clock, oracle(0), expected)
    ensures var rest := Opening(hook) + CleanupOf(oracle, expected, hook).steps + EndingOf(oracle, expected, hook).steps;
            && Launch(oracle, expected, hook).steps == [Clock] + Trial(oracle, 1, expected).steps + rest
            && StartDiagnostic !in rest
  {
    hide Launch, Trial, CleanupOf, EndingOf, OfTrial, OfCleanup, Passes;
    Pieces(oracle, expected, hook);
    KindsOfPieces(oracle, expected, hook);
    KindsOfCleanup();
    Regroup([Clock] + Trial(oracle, 1, expected).steps, Opening(hook), CleanupOf(oracle, expected, hook).steps,
            EndingOf(oracle, expected, hook).steps);
  }

  lemma StartInTrial(oracle: Oracle, n: nat, expected: Approved, i: nat)
    requires i < |Trial(oracle, n, expected).steps| && Trial(oracle, n, expected).steps[i] == StartDiagnostic
    ensures i == 32
    ensures var steps := Trial(oracle, n, expected).steps;
            && steps[24] == StopOriginal && Passes(StopOriginal, oracle(n + 24), expected)
            && steps[25] == AskOriginal(DownForSure) && Passes(AskOriginal(DownForSure), oracle(n + 25), expected)
            && steps[26] == UsbReleased && Passes(UsbReleased, oracle(n + 26), expected)
  {
    hide AllPass, Passes, Part, PREPARE, STOP, DIAGNOSE;
    StartMeansHandedOver(oracle, n, expected);
    StopPasses(oracle, n + 22, expected);
    StartOfDiagnose(oracle, n + 30, expected);
    FirstSteps();
    var part := Part(DIAGNOSE, oracle, n + 30, expected);
    assert Trial(oracle, n, expected).steps == PREPARE + STOP + part;
    hide Trial;
    At(PREPARE, STOP, part, i);
  }

  lemma StopPasses(oracle: Oracle, n: nat, expected: Approved)
    requires AllPass(STOP, oracle, n, expected)
    ensures STOP[2] == StopOriginal && STOP[3] == AskOriginal(DownForSure) && STOP[4] == UsbReleased
    ensures Passes(StopOriginal, oracle(n + 2), expected) && Passes(AskOriginal(DownForSure), oracle(n + 3), expected)
    ensures Passes(UsbReleased, oracle(n + 4), expected)
  {
    hide Passes;
    assert Passes(STOP[2], oracle(n + 2), expected) && Passes(STOP[3], oracle(n + 3), expected) && Passes(STOP[4], oracle(n + 4), expected);
  }

  lemma StartOfDiagnose(oracle: Oracle, n: nat, expected: Approved)
    ensures var part := Part(DIAGNOSE, oracle, n, expected);
            forall i :: 0 <= i < |part| ==> (part[i] == StartDiagnostic <==> i == 2)
  {
    hide Taken, Passes;
  }

  lemma StartMeansHandedOver(oracle: Oracle, n: nat, expected: Approved)
    requires StartDiagnostic in Trial(oracle, n, expected).steps
    ensures AllPass(STOP, oracle, n + 22, expected)
    ensures Trial(oracle, n, expected).steps == PREPARE + STOP + Part(DIAGNOSE, oracle, n + 30, expected)
    ensures StartDiagnostic !in PREPARE && StartDiagnostic !in STOP
  {
    hide Part, AllPass, Passes, PREPARE, STOP, DIAGNOSE;
    KindsOfScripts();
    FirstSteps();
    PartFacts(PREPARE, oracle, n, expected);
    PartFacts(STOP, oracle, n + |PREPARE|, expected);
  }

  // ----- Restart -----

  ghost predicate Without(steps: seq<Step>, x: Step) { x !in steps }

  /** x is made at place p, if at all. */
  ghost predicate OnlyAt(steps: seq<Step>, x: Step, p: nat) { forall j :: 0 <= j < |steps| && steps[j] == x ==> j == p }

  /** From call number n on, x is not made. */
  ghost predicate NoneFrom(steps: seq<Step>, n: nat, x: Step) { forall j :: n <= j < |steps| ==> steps[j] != x }

  lemma OnlyAtShifts(before: seq<Step>, rest: seq<Step>, x: Step, p: nat)
    requires Without(before, x) && OnlyAt(rest, x, p)
    ensures OnlyAt(before + rest, x, |before| + p)
  {
    forall j | 0 <= j < |before + rest| && (before + rest)[j] == x ensures j == |before| + p {
      At(before, rest, [], j);
      assert before + rest + [] == before + rest;
    }
  }

  lemma OnlyAtExtends(steps: seq<Step>, after: seq<Step>, x: Step, p: nat)
    requires OnlyAt(steps, x, p) && Without(after, x)
    ensures OnlyAt(steps + after, x, p)
  {
    forall j | 0 <= j < |steps + after| && (steps + after)[j] == x ensures j == p {
      At(steps, after, [], j);
      assert steps + after + [] == steps + after;
    }
  }

  lemma NoneFromHere(before: seq<Step>, middle: seq<Step>, after: seq<Step>, x: Step)
    requires Without(middle, x) && Without(after, x)
    ensures NoneFrom(before + middle + after, |before|, x)
  {
    forall k | |before| <= k < |before + middle + after| ensures (before + middle + after)[k] != x {
      At(before, middle, after, k);
    }
  }

  /** The recovery found the diagnostic over just before call a, the original down with it, and the
      USB device free after it. */
  ghost predicate FoundOver(run: seq<Step>, n: nat, a: nat, oracle: Oracle, expected: Approved) {
    && 0 < a && a + 1 < |run|
    && run[a - 1].AskDiagnostic? && !oracle(n + a - 1).threw && Finished(oracle(n + a - 1).diagnostic)
    && run[a] == AskOriginal(NotRunning) && Passes(AskOriginal(NotRunning), oracle(n + a), expected)
    && run[a + 1] == UsbReleased && Passes(UsbReleased, oracle(n + a + 1), expected)
  }

  lemma FoundOverShifts(before: seq<Step>, middle: seq<Step>, after: seq<Step>, a: nat, oracle: Oracle, expected: Approved)
    requires FoundOver(middle, |before|, a, oracle, expected)
    ensures FoundOver(before + middle + after, 0, |before| + a, oracle, expected) && a > 0
  {
    var all := before + middle + after;
    assert all[|before| + a - 1] == middle[a - 1] && all[|before| + a] == middle[a] && all[|before| + a + 1] == middle[a + 1];
    hide Passes, Finished;
  }

  /** The restart is the second step after the journal verdict, if the recovery gets there. */
  lemma RestartInReopening(oracle: Oracle, n: nat, asked: bool, clean: bool, expected: Approved)
    ensures OnlyAt(Reopening(oracle, n, asked, clean, expected).steps, RestartOriginal, if asked then 2 else 1)
  {
    hide Part, AllPass, Passes, Reopen, OnlyAt, Without;
    var verdict := Verdict(oracle, n, asked, expected);
    PartOfReopen(oracle, n + |verdict.steps|, clean && verdict.ok, expected);
    VerdictWithout(oracle, n, asked, expected);
    OnlyAtShifts(verdict.steps, Part(Reopen(clean && verdict.ok), oracle, n + |verdict.steps|, expected), RestartOriginal, 1);
  }

  lemma VerdictWithout(oracle: Oracle, n: nat, asked: bool, expected: Approved)
    ensures Without(Verdict(oracle, n, asked, expected).steps, RestartOriginal)
  {
  }

  lemma PartOfReopen(oracle: Oracle, n: nat, clean: bool, expected: Approved)
    ensures OnlyAt(Part(Reopen(clean), oracle, n, expected), RestartOriginal, 1)
  {
    hide Taken, Passes;
  }

  ghost function HeadOfCleanup(oracle: Oracle, n: nat, expected: Approved): seq<Step> {
    Quiet(oracle, n, expected).steps + CONFIRM
  }

  lemma RestartPlace(oracle: Oracle, n: nat, asked: bool, clean: bool, expected: Approved)
    requires Reached(oracle, n, expected)
    ensures OnlyAt(Cleanup(oracle, n, asked, clean, expected).steps, RestartOriginal,
                   |HeadOfCleanup(oracle, n, expected)| + if asked then 2 else 1)
  {
    hide *;
    HeadKinds(oracle, n, expected);
    HeadAndRest(oracle, n, asked, clean, expected);
    var head := HeadOfCleanup(oracle, n, expected);
    var rest := Reopening(oracle, n + |head|, asked, clean, expected).steps;
    RestartInReopening(oracle, n + |head|, asked, clean, expected);
    OnlyAtShifts(head, rest, RestartOriginal, if asked then 2 else 1);
  }

  lemma HeadAndRest(oracle: Oracle, n: nat, asked: bool, clean: bool, expected: Approved)
    requires Reached(oracle, n, expected)
    ensures var head := HeadOfCleanup(oracle, n, expected);
            Cleanup(oracle, n, asked, clean, expected).steps ==
            head + Reopening(oracle, n + |head|, asked, clean, expected).steps
  {
    hide Quiet, Reopening, Cleanup, CONFIRM, Reached, Without;
    CleanupWhole(oracle, n, asked, clean, expected);
    HeadKinds(oracle, n, expected);
  }

  lemma HeadKinds(oracle: Oracle, n: nat, expected: Approved)
    ensures Without(HeadOfCleanup(oracle, n, expected), RestartOriginal)
    ensures |HeadOfCleanup(oracle, n, expected)| == |Quiet(oracle, n, expected).steps| + 2 && |CONFIRM| == 2
  {
    BeforeReopening(oracle, n, expected);
    ConfirmPasses(oracle, n, expected);
    assert Recovery(RestartOriginal);
    hide Quiet, Recovery, CONFIRM;
  }

  lemma FoundOverInCleanup(oracle: Oracle, n: nat, asked: bool, clean: bool, expected: Approved)
    requires Reached(oracle, n, expected)
    ensures FoundOver(Cleanup(oracle, n, asked, clean, expected).steps, n, |Quiet(oracle, n, expected).steps|, oracle, expected)
  {
    hide Quiet, Reached, CONFIRM, Reopening, Cleanup, Passes, Finished;
    var quiet := Quiet(oracle, n, expected).steps;
    var rest := Reopening(oracle, n + |quiet| + 2, asked, clean, expected).steps;
    ReachedMeans(oracle, n, expected);
    CleanupWhole(oracle, n, asked, clean, expected);
    ThreeInARow(quiet, CONFIRM, rest);
  }

  lemma ThreeInARow(a: seq<Step>, b: seq<Step>, c: seq<Step>)
    requires |a| > 0 && |b| == 2
    ensures var all := a + b + c; all[|a| - 1] == a[|a| - 1] && all[|a|] == b[0] && all[|a| + 1] == b[1]
  {
  }

  lemma RestartInCleanup(oracle: Oracle, n: nat, asked: bool, clean: bool, expected: Approved, k: nat)
    requires var steps := Cleanup(oracle, n, asked, clean, expected).steps; k < |steps| && steps[k] == RestartOriginal
    ensures var steps := Cleanup(oracle, n, asked, clean, expected).steps;
            var a := |Quiet(oracle, n, expected).steps|;
            FoundOver(steps, n, a, oracle, expected) && a + 2 < k && OnlyAt(steps, RestartOriginal, k)
  {
    RestartMeansReached(oracle, n, asked, clean, expected, k);
    RestartPlace(oracle, n, asked, clean, expected);
    FoundOverInCleanup(oracle, n, asked, clean, expected);
    HeadKinds(oracle, n, expected);
    hide Cleanup, Quiet, FoundOver, HeadOfCleanup, Reached;
  }

  lemma RestartMeansReached(oracle: Oracle, n: nat, asked: bool, clean: bool, expected: Approved, k: nat)
    requires var steps := Cleanup(oracle, n, asked, clean, expected).steps; k < |steps| && steps[k] == RestartOriginal
    ensures Reached(oracle, n, expected)
  {
    assert Recovery(RestartOriginal);
    hide *;
    if !Reached(oracle, n, expected) { CleanupShort(oracle, n, asked, clean, expected); }
  }

  lemma ThreePieces(oracle: Oracle, expected: Approved, hook: bool)
    ensures Passes(Clock, oracle(0), expected) ==>
      Launch(oracle, expected, hook).steps ==
      BeforeCleanup(oracle, expected, hook) + CleanupOf(oracle, expected, hook).steps + EndingOf(oracle, expected, hook).steps
    ensures !Passes(Clock, oracle(0), expected) ==> Without(Launch(oracle, expected, hook).steps, RestartOriginal)
  {
    RefusedLaunch(oracle, expected, hook);
    hide Trial, CleanupOf, EndingOf, Passes, Launch;
    if Passes(Clock, oracle(0), expected) { Pieces(oracle, expected, hook); }
  }

  lemma WhereNot(oracle: Oracle, expected: Approved, hook: bool)
    ensures Without(BeforeCleanup(oracle, expected, hook), RestartOriginal) && Without(EndingOf(oracle, expected, hook).steps, RestartOriginal)
    ensures Without(CleanupOf(oracle, expected, hook).steps, StartDiagnostic) && Without(EndingOf(oracle, expected, hook).steps, StartDiagnostic)
  {
    KindsOfPieces(oracle, expected, hook);
    Kinds();
    hide Trial, CleanupOf, EndingOf, OfTrial, OfCleanup;
  }

  lemma CleanupAfterStop(oracle: Oracle, expected: Approved, hook: bool)
    ensures CleanupOf(oracle, expected, hook).steps != [] ==>
            var trial := Trial(oracle, 1, expected);
            CleanupOf(oracle, expected, hook) ==
            Cleanup(oracle, |BeforeCleanup(oracle, expected, hook)|, trial.diagnosticAttempted, trial.ok, expected)
  {
    hide Trial, Cleanup;
  }

  lemma FoundInMiddle(before: seq<Step>, middle: seq<Step>, after: seq<Step>, i: nat, x: Step)
    requires Without(before, x) && Without(after, x) && i < |before + middle + after| && (before + middle + after)[i] == x
    ensures |before| <= i < |before| + |middle| && middle[i - |before|] == x
  {
    At(before, middle, after, i);
  }

  /** Just before this call the recovery found the diagnostic over. */
  function OverAt(oracle: Oracle, expected: Approved, hook: bool): nat {
    |BeforeCleanup(oracle, expected, hook)| + |Quiet(oracle, |BeforeCleanup(oracle, expected, hook)|, expected).steps|
  }

  lemma OverAtMeans(oracle: Oracle, expected: Approved, hook: bool)
    ensures var n := |BeforeCleanup(oracle, expected, hook)|;
            OverAt(oracle, expected, hook) == n + |Quiet(oracle, n, expected).steps|
  {
    hide Quiet, BeforeCleanup;
  }

  lemma RestartIsInCleanup(oracle: Oracle, expected: Approved, hook: bool, i: nat)
    requires i < |Launch(oracle, expected, hook).steps| && Launch(oracle, expected, hook).steps[i] == RestartOriginal
    ensures var n, trial := |BeforeCleanup(oracle, expected, hook)|, Trial(oracle, 1, expected);
            var steps := Cleanup(oracle, n, trial.diagnosticAttempted, trial.ok, expected).steps;
            && steps == CleanupOf(oracle, expected, hook).steps && n <= i < n + |steps| && steps[i - n] == RestartOriginal
            && Launch(oracle, expected, hook).steps == BeforeCleanup(oracle, expected, hook) + steps + EndingOf(oracle, expected, hook).steps
  {
    hide *;
    RestartNeedsClock(oracle, expected, hook, i);
    ThreePieces(oracle, expected, hook);
    WhereNot(oracle, expected, hook);
    FoundInMiddle(BeforeCleanup(oracle, expected, hook), CleanupOf(oracle, expected, hook).steps, EndingOf(oracle, expected, hook).steps, i,
                  RestartOriginal);
    CleanupAfterStop(oracle, expected, hook);
  }

  lemma RestartAfterOver(oracle: Oracle, expected: Approved, hook: bool, i: nat)
    requires i < |Launch(oracle, expected, hook).steps| && Launch(oracle, expected, hook).steps[i] == RestartOriginal
    ensures FoundOver(Launch(oracle, expected, hook).steps, 0, OverAt(oracle, expected, hook), oracle, expected)
    ensures OverAt(oracle, expected, hook) + 2 < i
  {
    OverAtMeans(oracle, expected, hook);
    hide *;
    RestartIsInCleanup(oracle, expected, hook, i);
    var before, trial := BeforeCleanup(oracle, expected, hook), Trial(oracle, 1, expected);
    RestartInCleanup(oracle, |before|, trial.diagnosticAttempted, trial.ok, expected, i - |before|);
    FoundOverShifts(before, CleanupOf(oracle, expected, hook).steps, EndingOf(oracle, expected, hook).steps,
                    |Quiet(oracle, |before|, expected).steps|, oracle, expected);
  }

  /** The original is restarted at most once. */
  lemma RestartOnce(oracle: Oracle, expected: Approved, hook: bool, i: nat)
    requires i < |Launch(oracle, expected, hook).steps| && Launch(oracle, expected, hook).steps[i] == RestartOriginal
    ensures OnlyAt(Launch(oracle, expected, hook).steps, RestartOriginal, i)
  {
    hide *;
    RestartIsInCleanup(oracle, expected, hook, i);
    WhereNot(oracle, expected, hook);
    var before, trial := BeforeCleanup(oracle, expected, hook), Trial(oracle, 1, expected);
    RestartInCleanup(oracle, |before|, trial.diagnosticAttempted, trial.ok, expected, i - |before|);
    OnlyAtShifts(before, CleanupOf(oracle, expected, hook).steps, RestartOriginal, i - |before|);
    OnlyAtExtends(before + CleanupOf(oracle, expected, hook).steps, EndingOf(oracle, expected, hook).steps, RestartOriginal, i);
  }

  lemma NoDiagnosticAfterOver(oracle: Oracle, expected: Approved, hook: bool, i: nat)
    requires i < |Launch(oracle, expected, hook).steps| && Launch(oracle, expected, hook).steps[i] == RestartOriginal
    ensures NoneFrom(Launch(oracle, expected, hook).steps, OverAt(oracle, expected, hook), StartDiagnostic)
  {
    hide Launch, Passes, Cleanup, Quiet, NoneFrom, BeforeCleanup, Trial, CleanupOf, EndingOf, Without;
    RestartIsInCleanup(oracle, expected, hook, i);
    WhereNot(oracle, expected, hook);
    NoneFromHere(BeforeCleanup(oracle, expected, hook), CleanupOf(oracle, expected, hook).steps, EndingOf(oracle, expected, hook).steps,
                 StartDiagnostic);
    NoneFromLater(Launch(oracle, expected, hook).steps, |BeforeCleanup(oracle, expected, hook)|, OverAt(oracle, expected, hook), StartDiagnostic);
  }

  /** The original is restarted only after the diagnostic reported terminal or absent, then the
      original was down as approved, and then the USB device was free; from that report on no
      diagnostic is started, and there is no second restart. */
  lemma RestartOnlyWhenOver(oracle: Oracle, expected: Approved, hook: bool, i: nat) returns (a: nat)
    requires i < |Launch(oracle, expected, hook).steps| && Launch(oracle, expected, hook).steps[i] == RestartOriginal
    ensures var run := Launch(oracle, expected, hook).steps;
            && FoundOver(run, 0, a, oracle, expected) && a + 2 < i
            && NoneFrom(run, a, StartDiagnostic) && OnlyAt(run, RestartOriginal, i)
  {
    hide *;
    RestartAfterOver(oracle, expected, hook, i);
    RestartOnce(oracle, expected, hook, i);
    NoDiagnosticAfterOver(oracle, expected, hook, i);
    a := OverAt(oracle, expected, hook);
  }

  lemma NoneFromLater(steps: seq<Step>, n: nat, m: nat, x: Step)
    requires NoneFrom(steps, n, x) && n <= m
    ensures NoneFrom(steps, m, x)
  {
  }

  lemma RestartNeedsClock(oracle: Oracle, expected: Approved, hook: bool, i: nat)
    requires i < |Launch(oracle, expected, hook).steps| && Launch(oracle, expected, hook).steps[i] == RestartOriginal
    ensures Passes(Clock, oracle(0), expected)
  {
    RefusedLaunch(oracle, expected, hook);
    hide Launch, Passes;
  }

  // ----- Release -----

  lemma DoneSplits(a: seq<Step>, b: seq<Step>, n: nat, step: Step, oracle: Oracle, expected: Approved)
    ensures DoneFrom(a + b, n, step, oracle, expected) <==>
            DoneFrom(a, n, step, oracle, expected) || DoneFrom(b, n + |a|, step, oracle, expected)
  {
    hide Passes;
    if DoneFrom(a + b, n, step, oracle, expected) {
      var k :| 0 <= k < |a + b| && (a + b)[k] == step && Passes(step, oracle(n + k), expected);
      if k < |a| { assert a[k] == step; } else { assert b[k - |a|] == step && n + |a| + (k - |a|) == n + k; }
    }
    if DoneFrom(a, n, step, oracle, expected) {
      var k :| 0 <= k < |a| && a[k] == step && Passes(step, oracle(n + k), expected);
      assert (a + b)[k] == step;
    }
    if DoneFrom(b, n + |a|, step, oracle, expected) {
      var k :| 0 <= k < |b| && b[k] == step && Passes(step, oracle(n + |a| + k), expected);
      assert (a + b)[|a| + k] == step && n + (|a| + k) == n + |a| + k;
    }
  }

  lemma NotThere(steps: seq<Step>, n: nat, step: Step, oracle: Oracle, expected: Approved)
    requires step !in steps
    ensures !DoneFrom(steps, n, step, oracle, expected)
  {
  }

  /** Everything that must have happened before a lock that saw a stop is given back. */
  ghost predicate Restored(steps: seq<Step>, n: nat, oracle: Oracle, expected: Approved) {
    && DoneFrom(steps, n, RestartOriginal, oracle, expected) && DoneFrom(steps, n, Postflight, oracle, expected)
    && (DoneFrom(steps, n, Evidence(Complete), oracle, expected) || DoneFrom(steps, n, Evidence(FailedRestored), oracle, expected))
  }

  /** What is asked of the reopening script can be read off its last answer. */
  lemma FinalStepDecides(oracle: Oracle, n: nat, clean: bool, expected: Approved)
    ensures var script := Reopen(clean);
            var part := Part(script, oracle, n, expected);
            && (AllPass(script, oracle, n, expected) ==>
                  part == script && forall k :: 0 <= k < 4 ==> Passes(script[k], oracle(n + k), expected))
            && (|part| == 4 && Passes(script[3], oracle(n + 3), expected) ==> AllPass(script, oracle, n, expected))
            && (forall k :: 0 <= k < |part| ==> part[k] == script[k]) && |part| <= 4 && |script| == 4
  {
    hide Passes, Taken;
    if AllPass(Reopen(clean), oracle, n, expected) { EndsOnce(Reopen(clean), oracle, n, expected, 4); }
  }

  lemma ReopenDone(oracle: Oracle, n: nat, clean: bool, expected: Approved)
    ensures AllPass(Reopen(clean), oracle, n, expected) <==>
            Restored(Part(Reopen(clean), oracle, n, expected), n, oracle, expected)
  {
    FinalStepDecides(oracle, n, clean, expected);
    ReopenPasses(oracle, n, clean, expected);
    hide Passes, Part, AllPass;
    var part := Part(Reopen(clean), oracle, n, expected);
    if AllPass(Reopen(clean), oracle, n, expected) {
      assert part[1] == RestartOriginal && Passes(part[1], oracle(n + 1), expected);
      assert part[2] == Postflight && Passes(part[2], oracle(n + 2), expected);
      assert part[3] == Reopen(clean)[3] && Passes(part[3], oracle(n + 3), expected);
    }
  }

  /** The recovery counts as complete exactly if its steps were done, and its journal verdict as
      good exactly if it was not asked for or came back good. */
  lemma ReopeningDone(oracle: Oracle, n: nat, asked: bool, clean: bool, expected: Approved)
    ensures var leg := Reopening(oracle, n, asked, clean, expected);
            && (leg.restored <==> Restored(leg.steps, n, oracle, expected))
            && (leg.journalOk <==> (asked ==> DoneFrom(leg.steps, n, FinalJournal, oracle, expected)))
  {
    hide Passes, Part, AllPass, DoneFrom, Reopen;
    var verdict := Verdict(oracle, n, asked, expected);
    var m := n + |verdict.steps|;
    var rest := Part(Reopen(clean && verdict.ok), oracle, m, expected);
    ReopenDone(oracle, m, clean && verdict.ok, expected);
    NoJournalInReopen(oracle, m, clean && verdict.ok, expected);
    VerdictDone(oracle, n, asked, expected);
    DoneSplits(verdict.steps, rest, n, RestartOriginal, oracle, expected);
    DoneSplits(verdict.steps, rest, n, Postflight, oracle, expected);
    DoneSplits(verdict.steps, rest, n, Evidence(Complete), oracle, expected);
    DoneSplits(verdict.steps, rest, n, Evidence(FailedRestored), oracle, expected);
    DoneSplits(verdict.steps, rest, n, FinalJournal, oracle, expected);
  }

  lemma NoJournalInReopen(oracle: Oracle, n: nat, clean: bool, expected: Approved)
    ensures !DoneFrom(Part(Reopen(clean), oracle, n, expected), n, FinalJournal, oracle, expected)
  {
    PartFacts(Reopen(clean), oracle, n, expected);
    hide Part, AllPass, Passes;
  }

  lemma VerdictDone(oracle: Oracle, n: nat, asked: bool, expected: Approved)
    ensures var verdict := Verdict(oracle, n, asked, expected);
            && (DoneFrom(verdict.steps, n, FinalJournal, oracle, expected) <==> asked && verdict.ok)
            && !DoneFrom(verdict.steps, n, RestartOriginal, oracle, expected)
            && !DoneFrom(verdict.steps, n, Postflight, oracle, expected)
            && !DoneFrom(verdict.steps, n, Evidence(Complete), oracle, expected)
            && !DoneFrom(verdict.steps, n, Evidence(FailedRestored), oracle, expected)
    ensures !asked ==> Verdict(oracle, n, asked, expected).ok
  {
    hide Passes;
    assert oracle(n + 0) == oracle(n);
    if asked { assert [FinalJournal][0] == FinalJournal; }
  }

  /** The steps of a recovery are done in the run exactly if they are done in the reopening. */
  lemma DoneInCleanup(oracle: Oracle, n: nat, asked: bool, clean: bool, expected: Approved, x: Step)
    requires Recovery(x)
    ensures var steps := Cleanup(oracle, n, asked, clean, expected).steps;
            var m := n + |HeadOfCleanup(oracle, n, expected)|;
            DoneFrom(steps, n, x, oracle, expected) <==>
            Reached(oracle, n, expected) && DoneFrom(Reopening(oracle, m, asked, clean, expected).steps, m, x, oracle, expected)
  {
    hide *;
    var steps, head := Cleanup(oracle, n, asked, clean, expected).steps, HeadOfCleanup(oracle, n, expected);
    HeadWithout(oracle, n, expected, x);
    if Reached(oracle, n, expected) {
      HeadAndRest(oracle, n, asked, clean, expected);
      DoneSplits(head, Reopening(oracle, n + |head|, asked, clean, expected).steps, n, x, oracle, expected);
      NotThere(head, n, x, oracle, expected);
    } else {
      CleanupShort(oracle, n, asked, clean, expected);
      NotThere(steps, n, x, oracle, expected);
    }
  }

  lemma HeadWithout(oracle: Oracle, n: nat, expected: Approved, x: Step)
    requires Recovery(x)
    ensures x !in HeadOfCleanup(oracle, n, expected)
  {
    BeforeReopening(oracle, n, expected);
    hide Quiet, Recovery, CONFIRM;
  }

  lemma RecoverySteps()
    ensures Recovery(RestartOriginal) && Recovery(Postflight) && Recovery(Evidence(Complete))
    ensures Recovery(Evidence(FailedRestored)) && Recovery(FinalJournal)
  {
    assert Reopen(true)[3] == Evidence(Complete) && Reopen(false)[3] == Evidence(FailedRestored);
    assert Reopen(true)[1] == RestartOriginal && Reopen(true)[2] == Postflight;
  }

  lemma CleanupDone(oracle: Oracle, n: nat, asked: bool, clean: bool, expected: Approved)
    ensures var leg := Cleanup(oracle, n, asked, clean, expected);
            leg.restored && leg.journalOk <==>
            Restored(leg.steps, n, oracle, expected) && (asked ==> DoneFrom(leg.steps, n, FinalJournal, oracle, expected))
  {
    var m := n + |HeadOfCleanup(oracle, n, expected)|;
    hide Cleanup, Reopening, HeadOfCleanup, Reached, DoneFrom, Recovery;
    RecoverySteps();
    DoneInCleanup(oracle, n, asked, clean, expected, RestartOriginal);
    DoneInCleanup(oracle, n, asked, clean, expected, Postflight);
    DoneInCleanup(oracle, n, asked, clean, expected, Evidence(Complete));
    DoneInCleanup(oracle, n, asked, clean, expected, Evidence(FailedRestored));
    DoneInCleanup(oracle, n, asked, clean, expected, FinalJournal);
    ReopeningDone(oracle, m, asked, clean, expected);
    if Reached(oracle, n, expected) {
      OutcomeOfReopening(oracle, n, asked, clean, expected);
    } else {
      CleanupShort(oracle, n, asked, clean, expected);
    }
  }

  lemma OutcomeOfReopening(oracle: Oracle, n: nat, asked: bool, clean: bool, expected: Approved)
    requires Reached(oracle, n, expected)
    ensures var leg := Cleanup(oracle, n, asked, clean, expected);
            var rest := Reopening(oracle, n + |HeadOfCleanup(oracle, n, expected)|, asked, clean, expected);
            leg.restored == rest.restored && leg.journalOk == rest.journalOk
  {
    hide Quiet, Reopening, Cleanup, CONFIRM, Reached, Without;
    CleanupWhole(oracle, n, asked, clean, expected);
    HeadKinds(oracle, n, expected);
  }

  /** A recovery step is done in the run exactly if it is done in the finally block. */
  lemma DoneInRun(oracle: Oracle, expected: Approved, hook: bool, x: Step)
    requires Passes(Clock, oracle(0), expected) && Recovery(x)
    ensures Done(Launch(oracle, expected, hook).steps, x, oracle, expected) <==>
            DoneFrom(CleanupOf(oracle, expected, hook).steps, |BeforeCleanup(oracle, expected, hook)|, x, oracle, expected)
  {
    DoneMeans(oracle, expected, hook, x);
    hide *;
    NotElsewhere(oracle, expected, hook, x);
    ThreePieces(oracle, expected, hook);
    DoneInMiddle(BeforeCleanup(oracle, expected, hook), CleanupOf(oracle, expected, hook).steps, EndingOf(oracle, expected, hook).steps, x,
                 oracle, expected);
  }

  lemma DoneMeans(oracle: Oracle, expected: Approved, hook: bool, x: Step)
    ensures Done(Launch(oracle, expected, hook).steps, x, oracle, expected) <==>
            DoneFrom(Launch(oracle, expected, hook).steps, 0, x, oracle, expected)
  {
    hide Launch, DoneFrom;
  }

  lemma DoneInMiddle(before: seq<Step>, middle: seq<Step>, after: seq<Step>, x: Step, oracle: Oracle, expected: Approved)
    requires x !in before && x !in after
    ensures DoneFrom(before + middle + after, 0, x, oracle, expected) <==> DoneFrom(middle, |before|, x, oracle, expected)
  {
    hide *;
    DoneSplits(before + middle, after, 0, x, oracle, expected);
    DoneSplits(before, middle, 0, x, oracle, expected);
    NotThere(before, 0, x, oracle, expected);
    NotThere(after, |before + middle|, x, oracle, expected);
  }

  lemma NotElsewhere(oracle: Oracle, expected: Approved, hook: bool, x: Step)
    requires Recovery(x)
    ensures x !in BeforeCleanup(oracle, expected, hook) && x !in EndingOf(oracle, expected, hook).steps
  {
    RecoveryIsNotTrial();
    hide Trial, CleanupOf, EndingOf, OfTrial, OfCleanup, Recovery;
    KindsOfPieces(oracle, expected, hook);
  }

  lemma RecoveryIsNotTrial()
    ensures forall x | Recovery(x) :: !OfTrial(x) && x != Release && x != Preserve && x != Clock && x != BeginCleanup
  {
    KindsOfTrial();
    hide OfTrial;
  }

  /** What the run says about how far it got. */
  lemma MarksInRun(oracle: Oracle, expected: Approved, hook: bool)
    requires Passes(Clock, oracle(0), expected)
    ensures var run, trial := Launch(oracle, expected, hook).steps, Trial(oracle, 1, expected);
            && (Evidence(StopPending) in run <==> trial.stopAttempted)
            && (Evidence(DiagnosticPending) in run <==> trial.diagnosticAttempted)
            && (Release in run <==>
                  && !oracle(1).threw && Begun(oracle, expected, hook)
                  && CleanupOf(oracle, expected, hook).restored && CleanupOf(oracle, expected, hook).journalOk)
  {
    hide *;
    InRun(oracle, expected, hook, Evidence(StopPending));
    InRun(oracle, expected, hook, Evidence(DiagnosticPending));
    InRun(oracle, expected, hook, Release);
    TrialSteps(oracle, 1, expected);
    MarksElsewhere(oracle, expected, hook);
    EndingIs(oracle, expected, hook);
  }

  lemma InRun(oracle: Oracle, expected: Approved, hook: bool, x: Step)
    requires Passes(Clock, oracle(0), expected) && x != Clock && x != BeginCleanup
    ensures x in Launch(oracle, expected, hook).steps <==>
            x in Trial(oracle, 1, expected).steps || x in CleanupOf(oracle, expected, hook).steps || x in EndingOf(oracle, expected, hook).steps
  {
    hide *;
    Pieces(oracle, expected, hook);
    InBefore(oracle, expected, hook, x);
    InPieces(BeforeCleanup(oracle, expected, hook), CleanupOf(oracle, expected, hook).steps,
             EndingOf(oracle, expected, hook).steps, x);
  }

  lemma InBefore(oracle: Oracle, expected: Approved, hook: bool, x: Step)
    requires x != Clock && x != BeginCleanup
    ensures x in BeforeCleanup(oracle, expected, hook) <==> x in Trial(oracle, 1, expected).steps
  {
    hide Trial;
  }

  lemma InPieces(a: seq<Step>, b: seq<Step>, c: seq<Step>, x: Step)
    ensures x in a + b + c <==> x in a || x in b || x in c
  {
  }

  lemma MarksElsewhere(oracle: Oracle, expected: Approved, hook: bool)
    ensures var cleanup, ending := CleanupOf(oracle, expected, hook).steps, EndingOf(oracle, expected, hook).steps;
            && Evidence(StopPending) !in cleanup && Evidence(StopPending) !in ending
            && Evidence(DiagnosticPending) !in cleanup && Evidence(DiagnosticPending) !in ending
            && Release !in Trial(oracle, 1, expected).steps && Release !in cleanup
  {
    hide Trial, CleanupOf, EndingOf, OfTrial, OfCleanup;
    KindsOfPieces(oracle, expected, hook);
    KindsOfTrial();
    KindsOfCleanup();
  }

  lemma EndingIs(oracle: Oracle, expected: Approved, hook: bool)
    ensures Release in EndingOf(oracle, expected, hook).steps <==>
            && !oracle(1).threw && Begun(oracle, expected, hook)
            && CleanupOf(oracle, expected, hook).restored && CleanupOf(oracle, expected, hook).journalOk
  {
    hide CleanupOf, Trial, Begun;
  }

  lemma CleanupOutcome(oracle: Oracle, expected: Approved, hook: bool)
    requires Begun(oracle, expected, hook)
    ensures var trial, cleanup := Trial(oracle, 1, expected), CleanupOf(oracle, expected, hook);
            var n := |BeforeCleanup(oracle, expected, hook)|;
            cleanup.restored && cleanup.journalOk <==>
            !trial.stopAttempted ||
            (Restored(cleanup.steps, n, oracle, expected) &&
             (trial.diagnosticAttempted ==> DoneFrom(cleanup.steps, n, FinalJournal, oracle, expected)))
  {
    hide Trial, Cleanup, DoneFrom, Begun, BeforeCleanup;
    var trial := Trial(oracle, 1, expected);
    CleanupDone(oracle, |BeforeCleanup(oracle, expected, hook)|, trial.diagnosticAttempted, trial.ok, expected);
  }

  /** A held lock is released, rather than preserved or left, exactly if the opening call of the
      finally block did not throw, and no stop was attempted, or the restart, the postflight and the
      final evidence succeeded, and the journal check too if a diagnostic was attempted. */
  lemma ReleaseExactlyWhenSafe(oracle: Oracle, expected: Approved, hook: bool)
    requires Passes(Clock, oracle(0), expected) && !oracle(1).threw
    ensures var run := Launch(oracle, expected, hook).steps;
            Release in run <==>
            && !Interrupted(run, oracle)
            && (Evidence(StopPending) !in run ||
                (Restored(run, 0, oracle, expected) &&
                 (Evidence(DiagnosticPending) in run ==> Done(run, FinalJournal, oracle, expected))))
  {
    hide Launch, Trial, CleanupOf, Passes, DoneFrom, BeforeCleanup, Recovery, Begun, Interrupted;
    MarksInRun(oracle, expected, hook);
    InterruptedMeans(oracle, expected, hook);
    if Begun(oracle, expected, hook) {
      CleanupOutcome(oracle, expected, hook);
      RecoverySteps();
      DoneInRun(oracle, expected, hook, RestartOriginal);
      DoneInRun(oracle, expected, hook, Postflight);
      DoneInRun(oracle, expected, hook, Evidence(Complete));
      DoneInRun(oracle, expected, hook, Evidence(FailedRestored));
      DoneInRun(oracle, expected, hook, FinalJournal);
    }
  }

  // ----- A run without a fault -----

  /** The n-th answer that brings what is wanted: the original is up until it is stopped, the
      diagnostic is absent until then and over after. */
  function Good(expected: Approved, n: nat): Answer {
    Answer(false,
           OriginalState(expected.id, expected.image, expected.startedAt, n < 26, if n < 26 then "running" else "exited"),
           if n < 26 then Absent else Terminal, 0, true)
  }

  function Smooth(expected: Approved): Oracle { (n: nat) => Good(expected, n) }

  ghost predicate GoodUntil(oracle: Oracle, expected: Approved, m: nat) {
    forall n: nat :: n < m ==> oracle(n) == Good(expected, n)
  }

  lemma GoodEarly(expected: Approved, n: nat)
    requires n < 26
    ensures forall x | x in PREPARE :: Passes(x, Good(expected, n), expected)
  {
  }

  predicate Plain(x: Step) { !x.AskOriginal? && !x.AskDiagnostic? }

  lemma GoodPlain(expected: Approved, n: nat)
    ensures forall x | Plain(x) :: Passes(x, Good(expected, n), expected)
    ensures n >= 26 ==> Passes(AskOriginal(DownForSure), Good(expected, n), expected)
    ensures n >= 26 ==> Passes(AskOriginal(NotRunning), Good(expected, n), expected)
    ensures n >= 26 ==> Passes(AskDiagnostic(Known), Good(expected, n), expected) && Good(expected, n).diagnostic == Terminal
  {
  }

  lemma GoodPrepare(oracle: Oracle, expected: Approved)
    requires GoodUntil(oracle, expected, 23)
    ensures Run(PREPARE, oracle, 1, expected) == Leg(PREPARE, true)
  {
    FirstSteps();
    hide Good, Passes, PREPARE;
    forall k | 0 <= k < 22 ensures Passes(PREPARE[k], oracle(1 + k), expected) {
      GoodEarly(expected, 1 + k);
    }
    EndsOnce(PREPARE, oracle, 1, expected, 22);
  }

  /** From the stop on, what asks for the original down or the diagnostic over gets it. */
  lemma GoodLater(oracle: Oracle, script: seq<Step>, n: nat, expected: Approved)
    requires n >= 23 && GoodUntil(oracle, expected, n + |script|)
    requires forall k :: 0 <= k < |script| ==>
      Plain(script[k]) || (n + k >= 26 && (script[k] == AskOriginal(DownForSure) || script[k] == AskOriginal(NotRunning)))
    ensures Run(script, oracle, n, expected) == Leg(script, true)
  {
    hide Good, Passes, Plain;
    forall k | 0 <= k < |script| ensures Passes(script[k], oracle(n + k), expected) {
      GoodPlain(expected, n + k);
    }
    EndsOnce(script, oracle, n, expected, |script|);
  }

  lemma GoodTrial(oracle: Oracle, expected: Approved)
    requires GoodUntil(oracle, expected, 35)
    ensures Trial(oracle, 1, expected) == TrialLeg(PREPARE + STOP + DIAGNOSE, true, true, true)
    ensures |PREPARE + STOP + DIAGNOSE| == 34 && DIAGNOSE[2] == StartDiagnostic
  {
    hide Good, Run, PREPARE, STOP;
    GoodPrepare(oracle, expected);
    FirstSteps();
    StopSteps();
    GoodLater(oracle, STOP, 23, expected);
    GoodLater(oracle, DIAGNOSE, 31, expected);
  }

  lemma StopSteps()
    ensures forall k :: 0 <= k < |STOP| ==> Plain(STOP[k]) || (k == 3 && STOP[k] == AskOriginal(DownForSure))
  {
  }

  lemma SmoothIsGood(expected: Approved, m: nat)
    ensures GoodUntil(Smooth(expected), expected, m)
  {
  }

  lemma SmoothConfirm(expected: Approved, n: nat)
    requires n >= 26
    ensures Run(CONFIRM, Smooth(expected), n, expected) == Leg(CONFIRM, true) && |CONFIRM| == 2
  {
    hide Good, Passes, Run, Smooth;
    SmoothIsGood(expected, n + 2);
    GoodLater(Smooth(expected), CONFIRM, n, expected);
  }

  lemma SmoothReopen(expected: Approved, n: nat)
    requires n >= 26
    ensures Run(Reopen(true), Smooth(expected), n, expected) == Leg(Reopen(true), true)
  {
    hide Good, Passes, Run, Smooth;
    SmoothIsGood(expected, n + 4);
    GoodLater(Smooth(expected), Reopen(true), n, expected);
  }

  lemma SmoothQuiet(expected: Approved, n: nat)
    requires n >= 26
    ensures Quiet(Smooth(expected), n, expected) == Leg([AskDiagnostic(Known)], true)
    ensures Verdict(Smooth(expected), n, true, expected) == Leg([FinalJournal], true)
  {
    GoodPlain(expected, n);
    hide Good, Run, Passes;
    assert Plain(FinalJournal);
  }

  lemma SmoothCleanup(expected: Approved, n: nat)
    requires n >= 26
    ensures Cleanup(Smooth(expected), n, true, true, expected) ==
            CleanupLeg([AskDiagnostic(Known)] + CONFIRM + ([FinalJournal] + Reopen(true)), true, true)
  {
    hide Smooth, Run, Passes, Reopen, CONFIRM, Quiet, Verdict;
    SmoothQuiet(expected, n);
    SmoothConfirm(expected, n + 1);
    SmoothQuiet(expected, n + 3);
    SmoothReopen(expected, n + 4);
  }

  /** When every call brings what is wanted, the launcher goes through the whole handover, records
      the trial as complete, releases the lock and returns. */
  lemma SmoothRunSucceeds(expected: Approved, hook: bool)
    ensures var leg := Launch(Smooth(expected), expected, hook);
            && leg.ok && StartDiagnostic in leg.steps && RestartOriginal in leg.steps
            && Evidence(Complete) in leg.steps && leg.steps != [] && leg.steps[|leg.steps| - 1] == Release
  {
    var oracle := Smooth(expected);
    SmoothClock(expected);
    SmoothPieces(expected, hook);
    SmoothMembers();
    assert EndsLock(Release);
    hide *;
    Pieces(oracle, expected, hook);
    InRun(oracle, expected, hook, StartDiagnostic);
    InRun(oracle, expected, hook, RestartOriginal);
    InRun(oracle, expected, hook, Evidence(Complete));
    InRun(oracle, expected, hook, Release);
    LockPlace(oracle, expected, hook);
  }

  lemma SmoothClock(expected: Approved)
    ensures Passes(Clock, Smooth(expected)(0), expected)
  {
  }

  lemma SmoothMembers()
    ensures StartDiagnostic in PREPARE + STOP + DIAGNOSE
    ensures var steps := [AskDiagnostic(Known)] + CONFIRM + ([FinalJournal] + Reopen(true));
            RestartOriginal in steps && Evidence(Complete) in steps
  {
    assert DIAGNOSE[2] == StartDiagnostic && StartDiagnostic in DIAGNOSE;
    assert Reopen(true)[1] == RestartOriginal && Reopen(true)[3] == Evidence(Complete);
    hide PREPARE, STOP, CONFIRM;
  }

  lemma SmoothPieces(expected: Approved, hook: bool)
    ensures var oracle := Smooth(expected);
            && Trial(oracle, 1, expected) == TrialLeg(PREPARE + STOP + DIAGNOSE, true, true, true)
            && CleanupOf(oracle, expected, hook) ==
               CleanupLeg([AskDiagnostic(Known)] + CONFIRM + ([FinalJournal] + Reopen(true)), true, true)
            && EndingOf(oracle, expected, hook) == Leg([Release], true)
  {
    hide Smooth, Passes, PREPARE, STOP, CONFIRM, DIAGNOSE, Reopen, Trial, Cleanup;
    SmoothAnswers(expected);
    SmoothIsGood(expected, 35);
    GoodTrial(Smooth(expected), expected);
    SmoothCleanup(expected, if hook then 36 else 35);
  }

  lemma SmoothAnswers(expected: Approved)
    ensures forall n: nat :: !Smooth(expected)(n).threw
  {
  }

  /** As the smooth run up to the finally block, whose first call throws. */
  function FailsToBeginCleanup(expected: Approved): Oracle {
    (n: nat) => if n == 35 then Good(expected, n).(threw := true) else Good(expected, n)
  }

  lemma GoodUntilCleanup(expected: Approved)
    ensures var oracle := FailsToBeginCleanup(expected);
            && GoodUntil(oracle, expected, 35) && oracle(35).threw && !oracle(1).threw && Passes(Clock, oracle(0), expected)
  {
  }

  /** An exception of that first call escapes the launcher with the original stopped and the lock
      held: nothing is restarted, and the lock is neither released nor preserved. */
  lemma CleanupMayNeverBegin(expected: Approved)
    ensures var oracle := FailsToBeginCleanup(expected);
            var leg := Launch(oracle, expected, true);
            && Passes(Clock, oracle(0), expected) && !oracle(1).threw
            && !leg.ok && leg.steps == [Clock] + (PREPARE + STOP + DIAGNOSE) + [BeginCleanup]
            && StopOriginal in leg.steps && RestartOriginal !in leg.steps
            && forall i :: 0 <= i < |leg.steps| ==> !EndsLock(leg.steps[i])
  {
    hide FailsToBeginCleanup, Passes, Trial, Cleanup, Good, GoodUntil, PREPARE, STOP, DIAGNOSE;
    GoodUntilCleanup(expected);
    GoodTrial(FailsToBeginCleanup(expected), expected);
    TrialScripts();
  }

  lemma TrialScripts()
    ensures var steps := PREPARE + STOP + DIAGNOSE;
            && StopOriginal in steps && RestartOriginal !in steps
            && forall i :: 0 <= i < |steps| ==> !EndsLock(steps[i])
  {
    hide PREPARE, STOP, DIAGNOSE;
    StopIsOfTrial();
    NotOfTrial();
    forall x | x in PREPARE + STOP + DIAGNOSE ensures OfTrial(x) {
    }
    hide OfTrial;
    forall i | 0 <= i < |PREPARE + STOP + DIAGNOSE| ensures !EndsLock((PREPARE + STOP + DIAGNOSE)[i]) {
      assert (PREPARE + STOP + DIAGNOSE)[i] in PREPARE + STOP + DIAGNOSE;
    }
  }

  lemma StopIsOfTrial()
    ensures StopOriginal in STOP
  {
    assert STOP[2] == StopOriginal;
  }

  lemma NotOfTrial()
    ensures !OfTrial(RestartOriginal) && !OfTrial(Release) && !OfTrial(Preserve)
  {
  }
}
