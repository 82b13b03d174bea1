/** What the clock daemon's answers say, and when it collects samples. */
module ClockAnswers {
  import opened ClockEvidence
  import opened ClockHistory
  import opened ClockService
  import opened ClockTrust
  import opened Options

  // ----- Answers -----

  /** What the request leaves the service in. */
  function ServiceAfter(w: World, e: Event): Service
    requires e.Handles? && w.service.Some?
  {
    Finish(w.service.value, w.disk, e.op, e.o, e.first, e.second, e.sampled, e.requestValid).service
  }

  /** A status tells the revision, the samples counted and the generations of the run so far, and says
      approved exactly if an approval took effect and only steady readings on the primary followed;
      after an approval request it always does. */
  lemma StatusTellsTheTruth(events: seq<Event>, e: Event)
    requires e.Handles? && After(events).service.Some? && Answered(After(events), e).StatusServed?
    ensures var u, served := ServiceAfter(After(events), e), Answered(After(events), e);
            && u.born == After(events).service.value.born && After(events).service.value.history <= u.history
            && served.revision == Run(u.born, u.history).revision && served.consecutive == Run(u.born, u.history).consecutive
            && (served.approved <==> exists j: nat :: ApprovedBy(u.born, u.history, j))
            && (e.op.ApproveRequest? ==> served.approved)
  {
    hide After, WorldInv, Answered, ServiceAfter, Run, ApprovedBy;
    AfterKeepsInv(events);
    StatusIsOfTheService(After(events), e);
    var u := ServiceAfter(After(events), e);
    ApprovedExactly(u.born, u.history);
  }

  lemma StatusIsOfTheService(w: World, e: Event)
    requires WorldInv(w) && w.service.Some? && e.Handles? && Answered(w, e).StatusServed?
    ensures var u, served := ServiceAfter(w, e), Answered(w, e);
            && Unseen(u.born) && u.born == w.service.value.born && w.service.value.history <= u.history
            && u.trust == Run(u.born, u.history)
            && served.revision == u.trust.revision && served.consecutive == u.trust.consecutive
            && served.approved == u.trust.approved && (e.op.ApproveRequest? ==> served.approved)
  {
    var s := w.service.value;
    FinishKeeps(s, w.disk, e.op, e.o, e.first, e.second, e.sampled, e.requestValid);
    HistoryOfObserve(s, w.disk, e.o, e.first);
    ObserveKeeps(s, w.disk, e.o, e.first);
    var p := ObserveNow(s, w.disk, e.o, e.first);
    StatusOfAnswer(p.service, p.disk, e.op, e.second);
    hide ObserveNow, Answer, Inv, Run;
  }

  ghost predicate AnswersWell(s: Service, f: Finished, op: Operation) {
    && f.service.born == s.born && s.history <= f.service.history
    && (f.served.StatusServed? ==>
          && Inv(f.service.trust)
          && f.served.revision == f.service.trust.revision && f.served.consecutive == f.service.trust.consecutive
          && f.served.approved == f.service.trust.approved
          && (op.ApproveRequest? ==> f.served.approved))
  }

  lemma StatusOfAnswer(s: Service, disk: Option<Generations>, op: Operation, second: WriteResult)
    requires Inv(s.trust)
    ensures AnswersWell(s, Answer(s, disk, op, second), op)
  {
    match op {
      case Read => ReadAnswersWell(s, disk, second);
      case ApproveRequest(revision) => ApproveAnswersWell(s, disk, revision, second);
      case _ => StatusAnswersWell(s, disk, op, second);
    }
    hide Answer, AnswersWell;
  }

  lemma StatusAnswersWell(s: Service, disk: Option<Generations>, op: Operation, second: WriteResult)
    requires Inv(s.trust) && !op.Read? && !op.ApproveRequest?
    ensures AnswersWell(s, Answer(s, disk, op, second), op)
  {
    hide Inv, StatusOf;
    StatusMeans(s.trust);
  }

  lemma ReadAnswersWell(s: Service, disk: Option<Generations>, second: WriteResult)
    ensures AnswersWell(s, Answer(s, disk, Read, second), Read)
  {
    hide EvidenceOf, Checked, Inv;
  }

  lemma ApproveAnswersWell(s: Service, disk: Option<Generations>, revision: nat, second: WriteResult)
    requires Inv(s.trust)
    ensures AnswersWell(s, Answer(s, disk, ApproveRequest(revision), second), ApproveRequest(revision))
  {
    hide Inv, Approved, Approves, StatusOf;
    ApprovedEffect(s.trust, revision, 0);
    ApprovesMeans(s.trust, revision);
    StatusMeans(Approved(s.trust, revision, 0));
  }

  lemma ApprovesMeans(t: Trust, revision: nat)
    ensures Approves(t, revision, 0) ==> Approved(t, revision, 0).approved
  {
    hide Approvable;
  }

  lemma StatusMeans(t: Trust)
    requires Inv(t)
    ensures var served := StatusOf(t);
            served.StatusServed? && served.approved == t.approved && served.revision == t.revision && served.consecutive == t.consecutive
  {
  }

  // ----- Collections -----

  /** A collection starts if and only if none is running, the service is up and the request still valid,
      the clock could be read, and the last collection is at least a second old or the request insists. */
  lemma CollectionStartsExactly(s: Service, o: Observation, force: bool, requestValid: bool)
    ensures EnterSample(s, o, force, requestValid).0 == Collects <==>
      && !s.collecting && !s.stopped && requestValid && o.Reading?
      && (force || s.sampleWall.None? || o.wall < s.sampleWall.value || o.wall >= s.sampleWall.value + 1000.0)
  {
  }

  /** Until its sample is handed in or lost, a running collection goes on with the reading it began
      with, and its bracket only grows. */
  lemma CollectionGoesOn(w: World, e: Event)
    requires w.service.Some? && w.service.value.collecting
    requires !e.Crashes? && !e.ExitsSample? && !e.LosesSample?
    ensures Next(w, e).service.Some?
    ensures var s, u := w.service.value, Next(w, e).service.value;
            u.collecting && u.bracketOrigin == s.bracketOrigin && u.maxBracket >= s.maxBracket
  {
    var s := w.service.value;
    match e {
      case Boots(result) =>
      case Ticks(o, result) => ObserveGoesOn(s, w.disk, o, result);
      case EntersSample(o, result, force, requestValid) => ObserveGoesOn(s, w.disk, o, result);
      case Handles(op, o, first, second, sampled, requestValid) =>
        ObserveGoesOn(s, w.disk, o, first);
        var p := ObserveNow(s, w.disk, o, first);
        AnswerGoesOn(p.service, p.disk, op, second);
      case Stops =>
    }
    hide ObserveNow, Answer;
  }

  lemma ObserveGoesOn(s: Service, disk: Option<Generations>, o: Observation, result: WriteResult)
    requires s.collecting
    ensures var u := ObserveNow(s, disk, o, result).service;
            u.collecting && u.bracketOrigin == s.bracketOrigin && u.maxBracket >= s.maxBracket
  {
    hide Apply, Drift;
  }

  lemma AnswerGoesOn(s: Service, disk: Option<Generations>, op: Operation, second: WriteResult)
    ensures var u := Answer(s, disk, op, second).service;
            u.collecting == s.collecting && u.bracketOrigin == s.bracketOrigin && u.maxBracket == s.maxBracket
  {
    hide Apply, EvidenceOf, StatusOf, Approves, Checked;
  }
}
