/** The launcher of the pilot: it stops the original service, hands the USB device to the diagnostic
    and puts the original back.  Every call may throw and every answer is arbitrary. */
module LauncherScript {

  datatype OriginalState = OriginalState(id: string, image: string, startedAt: string, running: bool, status: string)

  datatype Diagnostic = Absent | Terminal | Running | Unknown

  /** What one call to the outside may bring: an exception, or the value of its kind. */
  datatype Answer = Answer(threw: bool, original: OriginalState, diagnostic: Diagnostic, exit: int, journal: bool)

  type Oracle = nat -> Answer

  datatype Code = StopPending | DiagnosticPending | RestartPending | Complete | FailedRestored

  datatype WantOriginal = UpAndRunning | DownForSure | NotRunning

  datatype WantDiagnostic = NoneThere | Known | Over

  /** A call, together with what its answer must be for the run to go on.  Clock is the validation
      of the approval at the current time, Signal the check for cancellation. */
  datatype Step =
    | Clock | Signal
    | Acquire | VerifyFiles | SoftwareProbe | ConsumeStart | StopOriginal | UsbReleased
    | AskOriginal(wantOriginal: WantOriginal) | AskDiagnostic(wantDiagnostic: WantDiagnostic)
    | StartDiagnostic | WaitDiagnostic
    | BeginCleanup | TerminateDiagnostic | WaitRecovery | FinalJournal | RestartOriginal | Postflight
    | Evidence(code: Code) | Release | Preserve

  datatype Approved = Approved(id: string, image: string, startedAt: string)

  predicate Same(actual: OriginalState, expected: Approved) {
    actual.id == expected.id && actual.image == expected.image && actual.startedAt == expected.startedAt
  }

  predicate Passes(step: Step, a: Answer, expected: Approved) {
    && !a.threw
    && match step
       case AskOriginal(UpAndRunning) => Same(a.original, expected) && a.original.running && a.original.status == "running"
       case AskOriginal(DownForSure) =>
         Same(a.original, expected) && !a.original.running && (a.original.status == "exited" || a.original.status == "dead")
       case AskOriginal(NotRunning) => Same(a.original, expected) && !a.original.running
       case AskDiagnostic(NoneThere) => a.diagnostic == Absent
       case AskDiagnostic(Known) => a.diagnostic != Unknown
       case AskDiagnostic(Over) => a.diagnostic == Terminal || a.diagnostic == Absent
       case WaitDiagnostic => a.exit == 0
       case FinalJournal => a.journal
       case _ => true
  }

  const CURRENT := [Clock, Signal, VerifyFiles, Signal, AskOriginal(UpAndRunning), Signal]

  const PREPARE := [Acquire] + CURRENT + [AskDiagnostic(NoneThere), SoftwareProbe] + CURRENT + [ConsumeStart] + CURRENT

  const STOP := [Evidence(StopPending), Signal, StopOriginal, AskOriginal(DownForSure), UsbReleased, Signal, VerifyFiles, Signal]

  const DIAGNOSE := [Evidence(DiagnosticPending), Signal, StartDiagnostic, WaitDiagnostic]

  predicate PassTo(script: seq<Step>, oracle: Oracle, n: nat, m: nat, expected: Approved)
    requires m <= |script|
  {
    forall k :: 0 <= k < m ==> Passes(script[k], oracle(n + k), expected)
  }

  /** The script ends with its m-th step: everything before passed, and it is the last or fails. */
  predicate EndsAt(script: seq<Step>, oracle: Oracle, n: nat, m: nat, expected: Approved)
    requires m <= |script|
  {
    if m == |script| && PassTo(script, oracle, n, m, expected) then true
    else m > 0 && PassTo(script, oracle, n, m - 1, expected) && !Passes(script[m - 1], oracle(n + m - 1), expected)
  }

  /** How many steps of the script are taken. */
  function Taken(script: seq<Step>, oracle: Oracle, n: nat, expected: Approved): (m: nat)
    ensures m <= |script| && EndsAt(script, oracle, n, m, expected)
  {
    if script == [] then 0
    else if !Passes(script[0], oracle(n), expected) then 1
    else
      var rest := Taken(script[1..], oracle, n + 1, expected);
      assert EndsAt(script, oracle, n, 1 + rest, expected) by { OneEarlier(script, oracle, n, rest, expected); }
      1 + rest
  }

  lemma OneEarlier(script: seq<Step>, oracle: Oracle, n: nat, m: nat, expected: Approved)
    requires script != [] && Passes(script[0], oracle(n), expected)
    requires m <= |script[1..]| && EndsAt(script[1..], oracle, n + 1, m, expected)
    ensures EndsAt(script, oracle, n, 1 + m, expected)
  {
    hide Passes;
    if PassTo(script[1..], oracle, n + 1, m, expected) { PassShift(script, oracle, n, m, expected); }
    if m > 0 && PassTo(script[1..], oracle, n + 1, m - 1, expected) { PassShift(script, oracle, n, m - 1, expected); }
    assert n + 1 + m - 1 == n + (1 + m) - 1;
    hide PassTo;
  }

  lemma PassShift(script: seq<Step>, oracle: Oracle, n: nat, m: nat, expected: Approved)
    requires script != [] && Passes(script[0], oracle(n), expected)
    requires m <= |script[1..]| && PassTo(script[1..], oracle, n + 1, m, expected)
    ensures PassTo(script, oracle, n, 1 + m, expected)
  {
    hide Passes;
    forall k | 0 <= k < 1 + m ensures Passes(script[k], oracle(n + k), expected) {
      if k > 0 { assert Passes(script[1..][k - 1], oracle(n + 1 + (k - 1)), expected); }
    }
  }

  predicate AllPass(script: seq<Step>, oracle: Oracle, n: nat, expected: Approved) {
    PassTo(script, oracle, n, |script|, expected)
  }

  function Part(script: seq<Step>, oracle: Oracle, n: nat, expected: Approved): seq<Step> {
    script[..Taken(script, oracle, n, expected)]
  }

  /** trace went on from before with the script, and ok tells whether all of it passed. */
  ghost predicate Followed(before: seq<Step>, trace: seq<Step>, script: seq<Step>, ok: bool, oracle: Oracle, expected: Approved) {
    && trace == before + Part(script, oracle, |before|, expected)
    && (ok <==> AllPass(script, oracle, |before|, expected))
  }

  /** What has been done of a script while everything passed. */
  ghost predicate Underway(before: seq<Step>, trace: seq<Step>, script: seq<Step>, j: nat, oracle: Oracle, expected: Approved) {
    j <= |script| && trace == before + script[..j] && PassTo(script, oracle, |before|, j, expected)
  }

  /** A script ends in one place only. */
  lemma EndsOnce(script: seq<Step>, oracle: Oracle, n: nat, expected: Approved, m: nat)
    requires m <= |script| && EndsAt(script, oracle, n, m, expected)
    ensures Taken(script, oracle, n, expected) == m
  {
    hide Taken, Passes;
  }

  predicate BlockAt(script: seq<Step>, j: nat, block: seq<Step>) {
    j + |block| <= |script| && script[j..j + |block|] == block
  }

  lemma PassOn(script: seq<Step>, oracle: Oracle, n: nat, j: nat, block: seq<Step>, m: nat, expected: Approved)
    requires BlockAt(script, j, block) && m <= |block|
    requires PassTo(script, oracle, n, j, expected) && PassTo(block, oracle, n + j, m, expected)
    ensures PassTo(script, oracle, n, j + m, expected) && script[..j + m] == script[..j] + block[..m]
  {
    hide Passes;
    forall k | 0 <= k < j + m ensures Passes(script[k], oracle(n + k), expected) {
      if k >= j {
        assert script[k] == block[k - j];
        assert Passes(block[k - j], oracle(n + j + (k - j)), expected);
      }
    }
  }

  /** One more stretch of a script: either it goes on, or it ends inside as the script says. */
  lemma OneBlock(before: seq<Step>, trace: seq<Step>, script: seq<Step>, j: nat, block: seq<Step>, oracle: Oracle,
                 expected: Approved)
    requires Underway(before, trace, script, j, oracle, expected) && BlockAt(script, j, block)
    ensures var after := trace + Part(block, oracle, |trace|, expected);
            var passes := AllPass(block, oracle, |trace|, expected);
            && (passes ==> Underway(before, after, script, j + |block|, oracle, expected))
            && (!passes ==> Followed(before, after, script, false, oracle, expected))
            && (passes && j + |block| == |script| ==> Followed(before, after, script, true, oracle, expected))
  {
    hide Passes, PassTo;
    if AllPass(block, oracle, |trace|, expected) {
      BlockPasses(before, trace, script, j, block, oracle, expected);
    } else {
      BlockFails(before, trace, script, j, block, oracle, expected);
    }
    hide Part, AllPass, Underway, Followed, BlockAt;
  }

  lemma BlockPasses(before: seq<Step>, trace: seq<Step>, script: seq<Step>, j: nat, block: seq<Step>, oracle: Oracle,
                    expected: Approved)
    requires Underway(before, trace, script, j, oracle, expected) && BlockAt(script, j, block)
    requires AllPass(block, oracle, |trace|, expected)
    ensures var after := trace + Part(block, oracle, |trace|, expected);
            && Underway(before, after, script, j + |block|, oracle, expected)
            && (j + |block| == |script| ==> Followed(before, after, script, true, oracle, expected))
  {
    hide Taken, Passes, PassTo;
    EndsOnce(block, oracle, |trace|, expected, |block|);
    PassOn(script, oracle, |before|, j, block, |block|, expected);
    assert before + script[..j] + block == before + script[..j + |block|] by { Joined(before, script, j, block); }
    if j + |block| == |script| { EndsOnce(script, oracle, |before|, expected, |script|); }
  }

  lemma Joined(before: seq<Step>, script: seq<Step>, j: nat, block: seq<Step>)
    requires BlockAt(script, j, block)
    ensures before + script[..j] + block == before + script[..j + |block|]
  {
  }

  lemma BlockFails(before: seq<Step>, trace: seq<Step>, script: seq<Step>, j: nat, block: seq<Step>, oracle: Oracle,
                   expected: Approved)
    requires Underway(before, trace, script, j, oracle, expected) && BlockAt(script, j, block)
    requires !AllPass(block, oracle, |trace|, expected)
    ensures Followed(before, trace + Part(block, oracle, |trace|, expected), script, false, oracle, expected)
  {
    hide Taken, Passes, PassTo;
    var m := Taken(block, oracle, |trace|, expected);
    PassOn(script, oracle, |before|, j, block, m - 1, expected);
    FailsInside(script, oracle, |before|, j, block, m, expected);
    EndsOnce(script, oracle, |before|, expected, j + m);
  }

  lemma FailsInside(script: seq<Step>, oracle: Oracle, n: nat, j: nat, block: seq<Step>, m: nat, expected: Approved)
    requires BlockAt(script, j, block) && 0 < m <= |block|
    requires PassTo(script, oracle, n, j + m - 1, expected) && !Passes(block[m - 1], oracle(n + j + m - 1), expected)
    ensures EndsAt(script, oracle, n, j + m, expected) && script[..j + m] == script[..j] + block[..m]
    ensures !AllPass(script, oracle, n, expected)
  {
    hide Passes;
    assert script[j + m - 1] == block[m - 1];
    assert n + (j + m - 1) == n + j + m - 1;
  }

  /** The same for a stretch that some method went through. */
  lemma Within(before: seq<Step>, trace: seq<Step>, script: seq<Step>, j: nat, block: seq<Step>, oracle: Oracle,
               expected: Approved)
    requires Underway(before, trace, script, j, oracle, expected) && BlockAt(script, j, block)
    ensures forall after, ok :: Followed(trace, after, block, ok, oracle, expected) ==>
              && (ok ==> Underway(before, after, script, j + |block|, oracle, expected))
              && (!ok ==> Followed(before, after, script, false, oracle, expected))
              && (ok && j + |block| == |script| ==> Followed(before, after, script, true, oracle, expected))
  {
    OneBlock(before, trace, script, j, block, oracle, expected);
    hide Underway, Part, AllPass;
  }

  lemma OneMore(before: seq<Step>, trace: seq<Step>, script: seq<Step>, j: nat, oracle: Oracle, expected: Approved)
    requires Underway(before, trace, script, j, oracle, expected) && j < |script|
    ensures var passes := Passes(script[j], oracle(|trace|), expected);
            && (passes ==> Underway(before, trace + [script[j]], script, j + 1, oracle, expected))
            && (!passes ==> Followed(before, trace + [script[j]], script, false, oracle, expected))
            && (passes && j + 1 == |script| ==> Followed(before, trace + [script[j]], script, true, oracle, expected))
  {
    OneBlock(before, trace, script, j, [script[j]], oracle, expected);
    OneStep(script[j], oracle, |trace|, expected);
    hide Underway, Followed, Passes, Part, AllPass;
  }

  lemma OneStep(step: Step, oracle: Oracle, n: nat, expected: Approved)
    ensures Part([step], oracle, n, expected) == [step]
    ensures AllPass([step], oracle, n, expected) <==> Passes(step, oracle(n), expected)
  {
    hide Passes;
    assert oracle(n + 0) == oracle(n);
  }

  lemma NothingYet(before: seq<Step>, script: seq<Step>, oracle: Oracle, expected: Approved)
    ensures Underway(before, before, script, 0, oracle, expected)
  {
  }

  // ----- The whole run -----

  datatype Leg = Leg(steps: seq<Step>, ok: bool)

  function Run(script: seq<Step>, oracle: Oracle, n: nat, expected: Approved): Leg {
    Leg(Part(script, oracle, n, expected), AllPass(script, oracle, n, expected))
  }

  datatype TrialLeg = TrialLeg(steps: seq<Step>, ok: bool, stopAttempted: bool, diagnosticAttempted: bool)

  /** The try block, from call number n on. */
  function Trial(oracle: Oracle, n: nat, expected: Approved): TrialLeg {
    var prepare := Run(PREPARE, oracle, n, expected);
    if !prepare.ok then TrialLeg(prepare.steps, false, false, false)
    else
      var stop := Run(STOP, oracle, n + |PREPARE|, expected);
      if !stop.ok then TrialLeg(prepare.steps + stop.steps, false, true, false)
      else
        var diagnose := Run(DIAGNOSE, oracle, n + |PREPARE| + |STOP|, expected);
        TrialLeg(prepare.steps + stop.steps + diagnose.steps, diagnose.ok, true, true)
  }

  const TERMINATE := [TerminateDiagnostic, WaitRecovery, AskDiagnostic(Over)]

  const CONFIRM := [AskOriginal(NotRunning), UsbReleased]

  function Reopen(clean: bool): seq<Step> {
    [Evidence(RestartPending), RestartOriginal, Postflight, Evidence(if clean then Complete else FailedRestored)]
  }

  /** Making sure that the diagnostic is over. */
  function Quiet(oracle: Oracle, n: nat, expected: Approved): Leg {
    var ask := AskDiagnostic(Known);
    if !Passes(ask, oracle(n), expected) then Leg([ask], false)
    else if oracle(n).diagnostic == Running then
      var ended := Run(TERMINATE, oracle, n + 1, expected);
      Leg([ask] + ended.steps, ended.ok)
    else Leg([ask], true)
  }

  /** The journal verdict is asked for only after a diagnostic, and its failure stops nothing. */
  function Verdict(oracle: Oracle, n: nat, asked: bool, expected: Approved): Leg {
    if asked then Leg([FinalJournal], Passes(FinalJournal, oracle(n), expected)) else Leg([], true)
  }

  datatype CleanupLeg = CleanupLeg(steps: seq<Step>, restored: bool, journalOk: bool)

  /** The end of the recovery, once the USB device is known to be free. */
  function Reopening(oracle: Oracle, n: nat, asked: bool, trialOk: bool, expected: Approved): CleanupLeg {
    var verdict := Verdict(oracle, n, asked, expected);
    var reopen := Run(Reopen(trialOk && verdict.ok), oracle, n + |verdict.steps|, expected);
    CleanupLeg(verdict.steps + reopen.steps, reopen.ok, verdict.ok)
  }

  /** The recovery of the finally block, from call number n on. */
  function Cleanup(oracle: Oracle, n: nat, diagnosticAttempted: bool, trialOk: bool, expected: Approved): CleanupLeg {
    var quiet := Quiet(oracle, n, expected);
    if !quiet.ok then CleanupLeg(quiet.steps, false, true)
    else
      var n1 := n + |quiet.steps|;
      var confirm := Run(CONFIRM, oracle, n1, expected);
      if !confirm.ok then CleanupLeg(quiet.steps + confirm.steps, false, true)
      else
        var reopening := Reopening(oracle, n1 + |CONFIRM|, diagnosticAttempted, trialOk, expected);
        reopening.(steps := quiet.steps + confirm.steps + reopening.steps)
  }

  /** The lock, if held, is given back or kept. */
  function Ending(oracle: Oracle, n: nat, locked: bool, safe: bool): Leg {
    if locked then Leg([if safe then Release else Preserve], !oracle(n).threw) else Leg([], true)
  }

  /** The finally block. */
  function Aftermath(oracle: Oracle, n: nat, trial: TrialLeg, expected: Approved): CleanupLeg {
    if trial.stopAttempted then Cleanup(oracle, n, trial.diagnosticAttempted, trial.ok, expected)
    else CleanupLeg([], true, true)
  }

  /** The finally block begins with a call that a port need not have, outside every handler. */
  function Opening(hook: bool): seq<Step> { if hook then [BeginCleanup] else [] }

  predicate Opens(oracle: Oracle, n: nat, hook: bool) { hook ==> !oracle(n).threw }

  /** Everything runLauncher calls, and whether it returns without an exception; hook tells whether
      the port has beginCleanup. */
  function Launch(oracle: Oracle, expected: Approved, hook: bool): Leg {
    if !Passes(Clock, oracle(0), expected) then Leg([Clock], false)
    else
      var trial := Trial(oracle, 1, expected);
      var before := [Clock] + trial.steps + Opening(hook);
      if !Opens(oracle, 1 + |trial.steps|, hook) then Leg(before, false)
      else
        var cleanup := Aftermath(oracle, |before|, trial, expected);
        var safe := cleanup.restored && cleanup.journalOk;
        var ending := Ending(oracle, |before| + |cleanup.steps|, !oracle(1).threw, safe);
        Leg(before + cleanup.steps + ending.steps, trial.ok && safe && ending.ok)
  }

  lemma FollowedMeans(before: seq<Step>, trace: seq<Step>, script: seq<Step>, ok: bool, oracle: Oracle, expected: Approved)
    requires Followed(before, trace, script, ok, oracle, expected)
    ensures trace == before + Run(script, oracle, |before|, expected).steps
    ensures ok == Run(script, oracle, |before|, expected).ok
  {
    hide Passes, Part, AllPass;
  }

  lemma FollowedAll(before: seq<Step>, trace: seq<Step>, script: seq<Step>, oracle: Oracle, expected: Approved)
    requires Followed(before, trace, script, true, oracle, expected)
    ensures trace == before + script && AllPass(script, oracle, |before|, expected)
    ensures Part(script, oracle, |before|, expected) == script
  {
    EndsOnce(script, oracle, |before|, expected, |script|);
    hide Passes;
  }

  /** Ending the diagnostic is what is left of making sure that it is over. */
  lemma QuietWhileRunning(before: seq<Step>, asked: seq<Step>, oracle: Oracle, expected: Approved)
    requires asked == before + [AskDiagnostic(Known)]
    requires Passes(AskDiagnostic(Known), oracle(|before|), expected) && oracle(|before|).diagnostic == Running
    ensures forall after, ok :: Followed(asked, after, TERMINATE, ok, oracle, expected) ==>
              var quiet := Quiet(oracle, |before|, expected); after == before + quiet.steps && ok == quiet.ok
  {
    hide Passes, AllPass, Part;
  }
}
