/** The daemon around the trust state: every change of generations is persisted before anything is
    served, and one failed write silences the service for good. */
module ClockService {
  import opened ClockHistory
  import opened ClockTrust
  import opened Options

  /** A durable write may fail, before or after the new value reached the disk, and may raise a
      ValueError or another exception. */
  datatype WriteResult = Written | Failed(reachedDisk: bool, valueError: bool)

  datatype Operation = Read | StatusRequest | Probe | ApproveRequest(revision: nat)

  datatype Served =
    | NoReply
    | Refused(reason: Reason)
    | EvidenceServed(reply: Reply)
    | StatusServed(approved: bool, revision: nat, consecutive: nat, step: int, failover: int)

  /** One boot of the producer.  born and history record, for the proofs only, its first state and
      what it went through since. */
  datatype Service = Service(
    trust: Trust,
    saved: Option<Generations>,
    stopped: bool,
    collecting: bool,
    bracketOrigin: Option<Clock>,
    maxBracket: real,
    sampleWall: Option<real>,
    lastCollectionOk: bool,
    born: Trust,
    history: seq<Op>
  )

  /** The state file and the running service, if any, with the highest step generation served so far. */
  datatype World = World(disk: Option<Generations>, service: Option<Service>, highestServed: int)

  datatype Persisted = Persisted(service: Service, disk: Option<Generations>, raised: bool, valueError: bool)

  /** _persist: write the generations if they changed since the last successful write. */
  function Persist(s: Service, disk: Option<Generations>, result: WriteResult): Persisted {
    var current := s.trust.generations;
    if s.saved == Some(current) then Persisted(s, disk, false, false)
    else match result
      case Written => Persisted(s.(saved := Some(current)), Some(current), false, false)
      case Failed(reached, valueError) =>
        Persisted(s.(stopped := true), if reached then Some(current) else disk, true, valueError)
  }

  function Max(a: real, b: real): real { if a >= b then a else b }

  function Bracketed(s: Service, o: Observation): Service {
    if s.collecting && s.bracketOrigin.Some? && o.Reading? then
      s.(maxBracket := Max(s.maxBracket, Abs(Drift(s.bracketOrigin.value, Clock(o.wall, o.continuousNs)))))
    else s
  }

  function Taught(s: Service, op: Op): Service {
    s.(trust := Apply(s.trust, op), history := s.history + [op])
  }

  /** _observe: one reading of the system clock, then _persist. */
  function ObserveNow(s: Service, disk: Option<Generations>, o: Observation, result: WriteResult): Persisted {
    Persist(Taught(Bracketed(s, o), Observe(o)), disk, result)
  }

  datatype SampleEntry = Aborted | GivenUp | MustWait | Cached(ok: bool) | Collects

  /** The first locked section of _sample. */
  function EnterSample(s: Service, o: Observation, force: bool, requestValid: bool): (SampleEntry, Service) {
    if s.stopped || !requestValid then (GivenUp, s)
    else if s.collecting then (MustWait, s)
    else if !force && o.Reading? && s.sampleWall.Some? && 0.0 <= o.wall - s.sampleWall.value < 1000.0
    then (Cached(s.lastCollectionOk), s)
    else if o.Reading?
    then (Collects, s.(collecting := true, bracketOrigin := Some(Clock(o.wall, o.continuousNs)), maxBracket := 0.0))
    else (GivenUp, s)
  }

  /** What SNTP measured, in ms: the start as a timestamp, the offset and its uncertainty. */
  datatype Measured = Measured(issuedMs: int, offset: real, uncertainty: real)

  function SampleOf(s: Service, measured: Option<Measured>): RawSample {
    match measured
    case None => Absent
    case Some(m) => Sample(m.issuedMs, m.offset, m.uncertainty, s.maxBracket)
  }

  /** The last locked section of _sample, after the reading and its persistence: measured is the
      parsed sample if the collection was valid and in time. */
  function ExitSample(s: Service, startWall: real, measured: Option<Measured>): Service {
    var recorded := Taught(s, Record(SampleOf(s, measured)));
    recorded.(lastCollectionOk := measured.Some? && recorded.trust.consecutive > 0,
              sampleWall := Some(startWall), collecting := false)
  }

  datatype Finished = Finished(service: Service, disk: Option<Generations>, served: Served)

  /** The last locked section of handle. */
  function Finish(s: Service, disk: Option<Generations>, op: Operation, o: Observation, first: WriteResult,
                  second: WriteResult, sampled: bool, requestValid: bool): Finished
  {
    var p := ObserveNow(s, disk, o, first);
    if p.raised then Finished(p.service, p.disk, NoReply)
    else if p.service.stopped || !sampled || !requestValid then Finished(p.service, p.disk, Refused(SampleUnavailable))
    else Answer(p.service, p.disk, op, second)
  }

  /** What handle answers once the clock was read and persisted and the service is still up. */
  function Answer(s: Service, disk: Option<Generations>, op: Operation, second: WriteResult): Finished {
    match op
    case Read =>
      var reply := EvidenceOf(s.trust);
      Finished(s.(trust := Checked(s.trust)), disk,
               if reply.Evidence? then EvidenceServed(reply) else Refused(reply.reason))
    case ApproveRequest(revision) =>
      if !Approves(s.trust, revision, 0) then
        Finished(Taught(s, Approve(revision, 0)), disk, Refused(NotApproved))
      else
        var q := Persist(Taught(s, Approve(revision, 0)), disk, second);
        Finished(q.service, q.disk,
                 if !q.raised then StatusOf(q.service.trust)
                 else if q.valueError then Refused(NotApproved) else NoReply)
    case _ => Finished(s, disk, StatusOf(s.trust))
  }

  function StatusOf(t: Trust): Served {
    if !GenerationsGood(t) then NoReply
    else StatusServed(t.approved && !t.fatal, t.revision, t.consecutive, t.generations.step, t.generations.failover)
  }

  // ----- The world -----

  /** LosesSample is the end of a collection at which reading the clock raised an exception. */
  datatype Event =
    | Boots(result: WriteResult)
    | Crashes
    | Ticks(o: Observation, result: WriteResult)
    | EntersSample(o: Observation, result: WriteResult, force: bool, requestValid: bool)
    | ExitsSample(o: Observation, result: WriteResult, startWall: real, measured: Option<Measured>)
    | LosesSample(startWall: real)
    | Handles(op: Operation, o: Observation, first: WriteResult, second: WriteResult, sampled: bool, requestValid: bool)
    | Stops

  function ServedStep(served: Served, before: int): int {
    match served
    case EvidenceServed(reply) =>
      if reply.Evidence? && reply.generations.step > before then reply.generations.step else before
    case StatusServed(_, _, _, step, _) => if step > before then step else before
    case _ => before
  }

  function Newborn(t: Trust): Service { Service(t, None, false, false, None, 0.0, None, false, t, []) }

  function BootStep(w: World, result: WriteResult): World {
    if w.service.Some? then w
    else
      var t := Boot(w.disk);
      if t.None? then w
      else
        var p := Persist(Newborn(t.value), w.disk, result);
        w.(disk := p.disk, service := if p.raised then None else Some(p.service))
  }

  function Next(w: World, e: Event): World {
    if e.Boots? then BootStep(w, e.result)
    else if w.service.None? then w
    else
      var s := w.service.value;
      match e
      case Boots(_) => w
      case Crashes => w.(service := None)
      case Stops => w.(service := Some(s.(stopped := true)))
      case Ticks(o, result) =>
        if s.stopped then w
        else
          var p := ObserveNow(s, w.disk, o, result);
          w.(disk := p.disk, service := Some(p.service))
      case EntersSample(o, result, force, requestValid) =>
        var p := ObserveNow(s, w.disk, o, result);
        w.(disk := p.disk,
           service := Some(if p.raised then p.service else EnterSample(p.service, o, force, requestValid).1))
      case ExitsSample(o, result, startWall, measured) =>
        var p := ObserveNow(s, w.disk, o, result);
        w.(disk := p.disk,
           service := Some(ExitSample(p.service, startWall, if p.raised || p.service.stopped then None else measured)))
      case LosesSample(startWall) => w.(service := Some(ExitSample(s, startWall, None)))
      case Handles(op, o, first, second, sampled, requestValid) =>
        var f := Finish(s, w.disk, op, o, first, second, sampled, requestValid);
        World(f.disk, Some(f.service), ServedStep(f.served, w.highestServed))
  }

  // ----- What holds across restarts -----

  predicate DiskOk(disk: Option<Generations>) { disk.Some? ==> GenerationsOrdered(disk.value) }

  function DiskStep(disk: Option<Generations>): int { if disk.None? then 0 else disk.value.step }

  ghost predicate ServiceInv(s: Service, disk: Option<Generations>) {
    && ClockHistory.Inv(s.trust)
    && ClockHistory.Inv(s.born) && s.born.last == None && !s.born.approved && s.born.sample == None && s.born.consecutive == 0
    && s.trust == Run(s.born, s.history)
    && s.saved.Some? && s.saved.value.step <= DiskStep(disk) <= s.trust.generations.step
    && (!s.stopped ==> disk == s.saved)
    && (!s.stopped ==> s.saved == Some(s.trust.generations))
  }

  ghost predicate WorldInv(w: World) {
    && DiskOk(w.disk) && 0 <= w.highestServed <= DiskStep(w.disk)
    && (w.service.Some? ==> ServiceInv(w.service.value, w.disk) && w.highestServed <= w.service.value.saved.value.step)
  }

  lemma TaughtKeeps(s: Service, op: Op)
    requires ClockHistory.Inv(s.trust) && s.trust == Run(s.born, s.history)
    requires op.Approve? ==> op.uid == 0
    ensures var u := Taught(s, op);
            && ClockHistory.Inv(u.trust) && u.trust == Run(u.born, u.history)
            && u.trust.generations.step >= s.trust.generations.step
            && (op.Record? ==> u.trust.generations == s.trust.generations)
            && (op.Approve? && !Approves(s.trust, op.revision, 0) ==> u.trust == s.trust)
  {
    assert (s.history + [op])[..|s.history|] == s.history;
    hide ClockHistory.Inv, Observed, Recorded;
    match op {
      case Observe(o) => ObservedEffect(s.trust, o);
      case Record(r) =>
        RecordedEffect(s.trust, r);
        RecordedLeavesClock(s.trust, r);
      case Approve(revision, uid) =>
        ApprovedEffect(s.trust, revision, uid);
        ApprovedLeavesClock(s.trust, revision, uid);
        RefusedApprovalChangesNothing(s.trust, revision);
    }
  }

  lemma RefusedApprovalChangesNothing(t: Trust, revision: nat)
    requires ClockHistory.Inv(t)
    ensures !Approves(t, revision, 0) ==> Approved(t, revision, 0) == t
  {
    hide Approvable;
  }

  /** The invariant without the durability part, as it stands between a change and its write. */
  ghost predicate Unsaved(s: Service, disk: Option<Generations>) {
    && ClockHistory.Inv(s.trust)
    && ClockHistory.Inv(s.born) && s.born.last == None && !s.born.approved && s.born.sample == None && s.born.consecutive == 0
    && s.trust == Run(s.born, s.history)
    && (s.saved.Some? ==> s.saved.value.step <= DiskStep(disk))
    && DiskStep(disk) <= s.trust.generations.step
    && (!s.stopped && s.saved.Some? ==> disk == s.saved)
  }

  /** A write either succeeds, and disk, saved and current agree, or stops the service. */
  lemma PersistRestores(s: Service, disk: Option<Generations>, result: WriteResult)
    requires Unsaved(s, disk) && DiskOk(disk) && (s.saved.None? ==> !s.stopped)
    ensures var p := Persist(s, disk, result);
            && DiskOk(p.disk) && DiskStep(disk) <= DiskStep(p.disk)
            && (p.raised ==> p.service.stopped && p.service == s.(stopped := true))
            && (!p.raised ==> p.service == s.(saved := Some(s.trust.generations)))
            && (s.saved.Some? ==> p.service.saved.value.step >= s.saved.value.step)
            && (p.service.saved.Some? ==> ServiceInv(p.service, p.disk))
  {
    hide Run;
    GoodMeansOrdered(s.trust);
    hide ClockHistory.Inv;
  }

  lemma GoodMeansOrdered(t: Trust)
    requires ClockHistory.Inv(t)
    ensures GenerationsOrdered(t.generations)
  {
  }

  lemma ObserveKeeps(s: Service, disk: Option<Generations>, o: Observation, result: WriteResult)
    requires ServiceInv(s, disk) && DiskOk(disk)
    ensures var p := ObserveNow(s, disk, o, result);
            && DiskOk(p.disk) && DiskStep(disk) <= DiskStep(p.disk)
            && ServiceInv(p.service, p.disk) && p.service.saved.value.step >= s.saved.value.step
            && (s.stopped || p.raised ==> p.service.stopped)
            && (!p.raised ==> p.service.saved == Some(p.service.trust.generations))
  {
    var b := Bracketed(s, o);
    assert b == s.(maxBracket := b.maxBracket) by { hide Drift, Max; }
    TaughtKeeps(b, Observe(o));
    hide ClockHistory.Inv, Run, Apply, Bracketed;
    PersistRestores(Taught(b, Observe(o)), disk, result);
  }

  lemma EnterOnlyCollects(s: Service, o: Observation, force: bool, requestValid: bool)
    ensures var u := EnterSample(s, o, force, requestValid).1;
            u == s.(collecting := u.collecting, bracketOrigin := u.bracketOrigin, maxBracket := u.maxBracket)
  {
  }

  lemma ExitKeeps(s: Service, disk: Option<Generations>, startWall: real, measured: Option<Measured>)
    requires ServiceInv(s, disk)
    ensures var u := ExitSample(s, startWall, measured); ServiceInv(u, disk) && u.saved == s.saved
  {
    TaughtKeeps(s, Record(SampleOf(s, measured)));
    hide ClockHistory.Inv, Run, Apply;
  }

  /** Evidence and status carry the persisted generations; refusals carry none. */
  ghost predicate ServesPersisted(f: Finished) {
    match f.served
    case EvidenceServed(reply) =>
      reply.Evidence? && f.service.saved == Some(reply.generations) && f.disk == f.service.saved && !f.service.stopped
    case StatusServed(approved, _, _, step, failover) =>
      && f.service.saved.Some? && f.disk == f.service.saved && !f.service.stopped
      && f.service.saved.value.step == step && f.service.saved.value.failover == failover
      && (approved ==> Cleared(f.service.saved.value))
    case _ => true
  }

  ghost predicate FinishedWell(f: Finished, s: Service, disk: Option<Generations>)
    requires s.saved.Some?
  {
    && ServiceInv(f.service, f.disk) && DiskOk(f.disk) && DiskStep(disk) <= DiskStep(f.disk)
    && f.service.saved.value.step >= s.saved.value.step
    && ServesPersisted(f)
  }

  lemma FinishKeeps(s: Service, disk: Option<Generations>, op: Operation, o: Observation, first: WriteResult,
                    second: WriteResult, sampled: bool, requestValid: bool)
    requires ServiceInv(s, disk) && DiskOk(disk)
    ensures var f := Finish(s, disk, op, o, first, second, sampled, requestValid);
            && FinishedWell(f, s, disk)
            && (s.stopped ==> f.service.stopped && (f.served.NoReply? || f.served.Refused?))
  {
    ObserveKeeps(s, disk, o, first);
    var p := ObserveNow(s, disk, o, first);
    hide ObserveNow, Answer, ServiceInv, DiskOk, DiskStep, FinishedWell;
    if !p.raised && !p.service.stopped && sampled && requestValid {
      AnswerKeeps(p.service, p.disk, op, second);
      WellSinceBefore(Answer(p.service, p.disk, op, second), p, s, disk);
    } else {
      UnansweredIsWell(p, s, disk, NoReply);
      UnansweredIsWell(p, s, disk, Refused(SampleUnavailable));
    }
  }

  lemma WellSinceBefore(f: Finished, p: Persisted, s: Service, disk: Option<Generations>)
    requires s.saved.Some? && p.service.saved.Some? && p.service.saved.value.step >= s.saved.value.step
    requires DiskStep(disk) <= DiskStep(p.disk) && FinishedWell(f, p.service, p.disk)
    ensures FinishedWell(f, s, disk)
  {
    hide ServiceInv, ServesPersisted, DiskOk, DiskStep;
  }

  lemma UnansweredIsWell(p: Persisted, s: Service, disk: Option<Generations>, served: Served)
    requires ServiceInv(p.service, p.disk) && DiskOk(p.disk) && DiskStep(disk) <= DiskStep(p.disk)
    requires s.saved.Some? && p.service.saved.value.step >= s.saved.value.step
    requires served.NoReply? || served.Refused?
    ensures FinishedWell(Finished(p.service, p.disk, served), s, disk)
  {
    hide ClockHistory.Inv, Run, DiskOk, DiskStep;
  }

  lemma AnswerKeeps(s: Service, disk: Option<Generations>, op: Operation, second: WriteResult)
    requires ServiceInv(s, disk) && DiskOk(disk) && !s.stopped
    ensures FinishedWell(Answer(s, disk, op, second), s, disk)
  {
    match op {
      case Read =>
        ReadKeeps(s);
        hide ClockHistory.Inv, Run, EvidenceOf, Checked;
      case ApproveRequest(revision) =>
        ApproveKeeps(s, disk, revision, second);
        hide ClockHistory.Inv, Run, ServiceInv, StatusOf, Approves, Persist, Taught;
      case _ =>
        StatusKeeps(s);
        hide ClockHistory.Inv, Run, StatusOf;
    }
  }

  lemma ReadKeeps(s: Service)
    requires ClockHistory.Inv(s.trust)
    ensures Checked(s.trust) == s.trust
    ensures EvidenceOf(s.trust).Evidence? ==> EvidenceOf(s.trust).generations == s.trust.generations
  {
    hide Fresh;
  }

  lemma StatusKeeps(s: Service)
    requires ClockHistory.Inv(s.trust)
    ensures var r := StatusOf(s.trust);
            && r.StatusServed? && r.step == s.trust.generations.step && r.failover == s.trust.generations.failover
            && (r.approved ==> Cleared(s.trust.generations))
  {
  }

  lemma ApproveKeeps(s: Service, disk: Option<Generations>, revision: nat, second: WriteResult)
    requires ServiceInv(s, disk) && DiskOk(disk) && !s.stopped
    ensures var u := Taught(s, Approve(revision, 0));
            var q := Persist(u, disk, second);
            && (!Approves(s.trust, revision, 0) ==> ServiceInv(u, disk))
            && DiskOk(q.disk) && DiskStep(disk) <= DiskStep(q.disk) && ServiceInv(q.service, q.disk)
            && q.service.saved.value.step >= s.saved.value.step
            && (!q.raised ==> q.disk == q.service.saved == Some(q.service.trust.generations) && !q.service.stopped)
            && ClockHistory.Inv(q.service.trust)
            && (var r := StatusOf(q.service.trust);
                && r.StatusServed? && r.step == q.service.trust.generations.step
                && r.failover == q.service.trust.generations.failover
                && (r.approved ==> Cleared(q.service.trust.generations)))
  {
    TaughtKeeps(s, Approve(revision, 0));
    var u := Taught(s, Approve(revision, 0));
    hide ClockHistory.Inv, Run, Apply, Approves, StatusOf;
    PersistRestores(u, disk, second);
    StatusKeeps(Persist(u, disk, second).service);
  }

  lemma BootKeeps(w: World, result: WriteResult)
    requires WorldInv(w)
    ensures WorldInv(BootStep(w, result))
  {
    if w.service.None? && Boot(w.disk).Some? {
      var t := Boot(w.disk).value;
      BootInv(w.disk);
      assert t.generations.step == DiskStep(w.disk) + 1;
      var s := Newborn(t);
      assert Run(t, []) == t;
      hide Boot, ClockHistory.Inv, Run;
      PersistRestores(s, w.disk, result);
    }
  }

  lemma EnterKeeps(s: Service, disk: Option<Generations>, o: Observation, force: bool, requestValid: bool)
    requires ServiceInv(s, disk)
    ensures var u := EnterSample(s, o, force, requestValid).1; ServiceInv(u, disk) && u.saved == s.saved
  {
    EnterOnlyCollects(s, o, force, requestValid);
    hide EnterSample;
  }

  lemma SavedIsOnDisk(s: Service, disk: Option<Generations>)
    requires ServiceInv(s, disk)
    ensures s.saved.Some? && s.saved.value.step <= DiskStep(disk)
  {
  }

  lemma HandleKeepsInv(w: World, e: Event)
    requires WorldInv(w) && w.service.Some? && e.Handles?
    ensures WorldInv(Next(w, e))
  {
    var s := w.service.value;
    FinishKeeps(s, w.disk, e.op, e.o, e.first, e.second, e.sampled, e.requestValid);
    var f := Finish(s, w.disk, e.op, e.o, e.first, e.second, e.sampled, e.requestValid);
    hide Finish, ServiceInv, DiskOk;
    SavedIsOnDisk(s, w.disk);
    SavedIsOnDisk(f.service, f.disk);
  }

  lemma NextKeepsInv(w: World, e: Event)
    requires WorldInv(w)
    ensures WorldInv(Next(w, e))
  {
    hide ObserveNow, Finish, EnterSample, ExitSample, BootStep, ServiceInv, DiskOk, DiskStep;
    if e.Boots? {
      BootKeeps(w, e.result);
    } else if w.service.Some? {
      var s := w.service.value;
      SavedIsOnDisk(s, w.disk);
      match e {
        case Ticks(o, result) => ObserveKeeps(s, w.disk, o, result);
        case EntersSample(o, result, force, requestValid) =>
          ObserveKeeps(s, w.disk, o, result);
          var p := ObserveNow(s, w.disk, o, result);
          EnterKeeps(p.service, p.disk, o, force, requestValid);
        case ExitsSample(o, result, startWall, measured) =>
          ObserveKeeps(s, w.disk, o, result);
          var p := ObserveNow(s, w.disk, o, result);
          ExitKeeps(p.service, p.disk, startWall, if p.raised || p.service.stopped then None else measured);
        case LosesSample(startWall) => ExitKeeps(s, w.disk, startWall, None);
        case Handles(op, o, first, second, sampled, requestValid) => HandleKeepsInv(w, e);
        case Stops => StopKeeps(s, w.disk);
        case _ =>
      }
    }
  }

  lemma StopKeeps(s: Service, disk: Option<Generations>)
    requires ServiceInv(s, disk)
    ensures ServiceInv(s.(stopped := true), disk)
  {
  }

  const INSTALLED := World(None, None, 0)

  function After(events: seq<Event>): World {
    if events == [] then INSTALLED else Next(After(events[..|events| - 1]), events[|events| - 1])
  }

  lemma {:induction false} AfterKeepsInv(events: seq<Event>)
    ensures WorldInv(After(events))
  {
    if events != [] {
      AfterKeepsInv(events[..|events| - 1]);
      NextKeepsInv(After(events[..|events| - 1]), events[|events| - 1]);
    }
  }

  /** Across any number of restarts: cleared generations never exceed current ones, on disk and in
      memory, and an approved state has cleared exactly the current generations. */
  lemma GenerationsStayOrdered(events: seq<Event>)
    ensures DiskOk(After(events).disk)
    ensures After(events).service.Some? ==>
      var t := After(events).service.value.trust; GenerationsOrdered(t.generations) && (t.approved ==> Cleared(t.generations))
  {
    AfterKeepsInv(events);
    hide After, Run;
  }

  /** A boot starts unapproved, above every step generation that was ever served. */
  lemma BootRisesAboveServed(events: seq<Event>, result: WriteResult)
    requires After(events).service.None? && BootStep(After(events), result).service.Some?
    ensures var s := BootStep(After(events), result).service.value;
            && s.trust.generations.step > After(events).highestServed && !s.trust.approved
            && s.saved == Some(s.trust.generations)
  {
    AfterKeepsInv(events);
    hide After, Run;
  }

  /** Whatever is served carries exactly the generations persisted last. */
  lemma ServedIsPersisted(events: seq<Event>, e: Event)
    requires e.Handles? && After(events).service.Some?
    ensures var w := After(events);
            var f := Finish(w.service.value, w.disk, e.op, e.o, e.first, e.second, e.sampled, e.requestValid);
            ServesPersisted(f) && ServedStep(f.served, w.highestServed) == Next(w, e).highestServed
  {
    hide After, Run, Finish, ServesPersisted, ServiceInv, DiskOk, DiskStep;
    AfterKeepsInv(events);
    var w := After(events);
    SavedIsOnDisk(w.service.value, w.disk);
    FinishKeeps(w.service.value, w.disk, e.op, e.o, e.first, e.second, e.sampled, e.requestValid);
  }

  function Answered(w: World, e: Event): Served
    requires e.Handles? && w.service.Some?
  {
    Finish(w.service.value, w.disk, e.op, e.o, e.first, e.second, e.sampled, e.requestValid).served
  }

  /** What the running service has gone through when it answers the request. */
  function Witnessed(w: World, e: Event): seq<Op>
    requires e.Handles? && w.service.Some?
  {
    w.service.value.history + [Observe(e.o)]
  }

  /** Evidence is backed by a root approval of the same boot, given on three samples issued later
      and later since the last disturbance, and only steady matching observations followed. */
  lemma ServedEvidenceIsEarned(events: seq<Event>, e: Event) returns (j: nat, idx: seq<nat>)
    requires e.Handles? && After(events).service.Some? && Answered(After(events), e).EvidenceServed?
    ensures var born, ops := After(events).service.value.born, Witnessed(After(events), e);
            && j < |ops| && ops[j].Approve? && ops[j].uid == 0 && Approves(Run(born, ops[..j]), ops[j].revision, 0)
            && |idx| == 3 && Streak(born, ops[..j], idx) && SteadySince(ops, j)
  {
    hide After, WorldInv, Answered, Run, EvidenceOf, Streak, SteadySince, Approves, Witnessed, Unseen;
    AfterKeepsInv(events);
    ServedIsEvidence(After(events), e);
    j, idx := EarnedSince(After(events).service.value.born, Witnessed(After(events), e));
  }

  /** The sample in served evidence was taken in the same boot and keeps the error budget. */
  lemma ServedEvidenceIsWithinBudget(events: seq<Event>, e: Event) returns (k: nat)
    requires e.Handles? && After(events).service.Some? && Answered(After(events), e).EvidenceServed?
    ensures var ops := Witnessed(After(events), e);
            && k < |ops| && ops[k].Record? && Answered(After(events), e).reply.Evidence?
            && BudgetKept(ops[k].s, Answered(After(events), e).reply.sample)
  {
    hide After, WorldInv, Answered, Run, EvidenceOf, BudgetKept, Witnessed, Unseen;
    AfterKeepsInv(events);
    ServedIsEvidence(After(events), e);
    k := WithinBudgetSince(After(events).service.value.born, Witnessed(After(events), e));
  }

  lemma ServedIsEvidence(w: World, e: Event)
    requires WorldInv(w) && w.service.Some? && e.Handles? && Answered(w, e).EvidenceServed?
    ensures Unseen(w.service.value.born)
    ensures Answered(w, e).reply == EvidenceOf(Run(w.service.value.born, Witnessed(w, e)))
    ensures Answered(w, e).reply.Evidence?
  {
    var s := w.service.value;
    ObserveKeeps(s, w.disk, e.o, e.first);
    HistoryOfObserve(s, w.disk, e.o, e.first);
    hide ObserveNow, Inv, EvidenceOf, Run, Checked, Apply, Persist, StatusOf, Approves;
  }

  lemma HistoryOfObserve(s: Service, disk: Option<Generations>, o: Observation, result: WriteResult)
    ensures var p := ObserveNow(s, disk, o, result);
            p.service.history == s.history + [Observe(o)] && p.service.born == s.born
  {
    hide Apply, Drift, Max;
  }

  predicate Silent(served: Served) { served.NoReply? || served.Refused? }

  /** A stopped service answers nothing but refusals until the next boot. */
  lemma {:induction false} SilentOnceStopped(events: seq<Event>, more: seq<Event>, e: Event)
    requires After(events).service.Some? && After(events).service.value.stopped
    requires forall k :: 0 <= k < |more| ==> !more[k].Crashes?
    requires e.Handles?
    ensures After(events + more).service.Some? && After(events + more).service.value.stopped
    ensures Silent(Answered(After(events + more), e))
  {
    hide After, WorldInv, Next, Answered, Silent;
    AfterKeepsInv(events + more);
    if more == [] {
      assert events + more == events;
    } else {
      var n := |more| - 1;
      SilentOnceStopped(events, more[..n], e);
      AfterKeepsInv(events + more[..n]);
      StoppedStaysStopped(After(events + more[..n]), more[n]);
      LastEvent(events + more);
      assert (events + more)[..|events + more| - 1] == events + more[..n];
    }
    StoppedIsSilent(After(events + more), e);
  }

  lemma StoppedIsSilent(w: World, e: Event)
    requires WorldInv(w) && w.service.Some? && w.service.value.stopped && e.Handles?
    ensures Silent(Answered(w, e))
  {
    FinishKeeps(w.service.value, w.disk, e.op, e.o, e.first, e.second, e.sampled, e.requestValid);
    hide Finish, Run;
  }

  lemma StoppedStaysStopped(w: World, e: Event)
    requires WorldInv(w) && w.service.Some? && w.service.value.stopped && !e.Crashes?
    ensures Next(w, e).service.Some? && Next(w, e).service.value.stopped
  {
    var s := w.service.value;
    match e {
      case EntersSample(o, result, force, requestValid) =>
        ObserveKeeps(s, w.disk, o, result);
        EnterOnlyCollects(ObserveNow(s, w.disk, o, result).service, o, force, requestValid);
      case ExitsSample(o, result, startWall, measured) => ObserveKeeps(s, w.disk, o, result);
      case Handles(op, o, first, second, sampled, requestValid) =>
        FinishKeeps(s, w.disk, op, o, first, second, sampled, requestValid);
      case _ =>
    }
    hide ObserveNow, Finish, EnterSample, Apply, WorldInv, ServiceInv;
  }

  /** A write is needed, and it fails. */
  predicate WriteFails(s: Service, result: WriteResult) { s.saved != Some(s.trust.generations) && result.Failed? }

  lemma FailureStops(s: Service, disk: Option<Generations>, result: WriteResult)
    requires WriteFails(s, result)
    ensures Persist(s, disk, result) == Persisted(s.(stopped := true), Persist(s, disk, result).disk, true, result.valueError)
  {
  }

  /** The service between a reading and the write that follows it. */
  function Observing(s: Service, o: Observation): Service { Taught(Bracketed(s, o), Observe(o)) }

  /** The event makes the running service try a write that is needed, and the write fails. */
  predicate FailedWrite(w: World, e: Event)
    requires w.service.Some?
  {
    var s := w.service.value;
    match e
    case Ticks(o, result) => !s.stopped && WriteFails(Observing(s, o), result)
    case EntersSample(o, result, _, _) => WriteFails(Observing(s, o), result)
    case ExitsSample(o, result, _, _) => WriteFails(Observing(s, o), result)
    case Handles(op, o, first, second, sampled, requestValid) =>
      || WriteFails(Observing(s, o), first)
      || (var p := ObserveNow(s, w.disk, o, first);
          && !p.raised && !p.service.stopped && sampled && requestValid && op.ApproveRequest?
          && Approves(p.service.trust, op.revision, 0)
          && WriteFails(Taught(p.service, Approve(op.revision, 0)), second))
    case _ => false
  }

  lemma ObserveFails(s: Service, disk: Option<Generations>, o: Observation, result: WriteResult)
    requires WriteFails(Observing(s, o), result)
    ensures ObserveNow(s, disk, o, result).raised && ObserveNow(s, disk, o, result).service.stopped
  {
    FailureStops(Observing(s, o), disk, result);
    hide Persist, WriteFails, Taught, Bracketed;
  }

  lemma FailedWriteStops(w: World, e: Event)
    requires w.service.Some? && FailedWrite(w, e)
    ensures Next(w, e).service.Some? && Next(w, e).service.value.stopped
  {
    var s := w.service.value;
    match e {
      case Ticks(o, result) => ObserveFails(s, w.disk, o, result);
      case EntersSample(o, result, force, requestValid) => ObserveFails(s, w.disk, o, result);
      case ExitsSample(o, result, startWall, measured) => ObserveFails(s, w.disk, o, result);
      case Handles(op, o, first, second, sampled, requestValid) =>
        if WriteFails(Observing(s, o), first) {
          ObserveFails(s, w.disk, o, first);
        } else {
          var p := ObserveNow(s, w.disk, o, first);
          FailureStops(Taught(p.service, Approve(op.revision, 0)), p.disk, second);
        }
    }
    hide ObserveNow, Persist, WriteFails, Approves, Apply, Observing, EnterSample;
  }

  /** From the first needed write that fails on, in every run, no request is answered by anything
      but a refusal until the service crashes and is booted again. */
  lemma SilentAfterFailure(events: seq<Event>, k: nat, e: Event)
    requires k < |events| && After(events[..k]).service.Some? && FailedWrite(After(events[..k]), events[k])
    requires forall i :: k < i < |events| ==> !events[i].Crashes?
    requires e.Handles?
    ensures After(events).service.Some? && Silent(Answered(After(events), e))
  {
    hide After, FailedWrite, Next, Answered, Silent;
    var head, more := events[..k + 1], events[k + 1..];
    assert head[..k] == events[..k] && head[k] == events[k] && events == head + more;
    LastEvent(head);
    FailedWriteStops(After(events[..k]), events[k]);
    SilentOnceStopped(head, more, e);
  }

  lemma LastEvent(events: seq<Event>)
    requires events != []
    ensures After(events) == Next(After(events[..|events| - 1]), events[|events| - 1])
  {
  }

  /** The request during which the write fails is not answered otherwise either. */
  lemma FailingRequestIsSilent(events: seq<Event>, e: Event)
    requires e.Handles? && After(events).service.Some? && FailedWrite(After(events), e)
    ensures Silent(Answered(After(events), e))
  {
    var w := After(events);
    var s := w.service.value;
    hide After;
    if WriteFails(Observing(s, e.o), e.first) {
      ObserveFails(s, w.disk, e.o, e.first);
    } else {
      var p := ObserveNow(s, w.disk, e.o, e.first);
      FailureStops(Taught(p.service, Approve(e.op.revision, 0)), p.disk, e.second);
    }
    hide ObserveNow, Persist, WriteFails, Approves, Apply, Observing;
  }

  // ----- The bracket of a sample -----

  predicate WithinBracket(op: Op, origin: Clock, bracket: real) {
    op.Observe? && op.o.Reading? ==> Abs(Drift(origin, Clock(op.o.wall, op.o.continuousNs))) <= bracket
  }

  predicate MeetsBracket(op: Op, origin: Clock, bracket: real) {
    op.Observe? && op.o.Reading? && Abs(Drift(origin, Clock(op.o.wall, op.o.continuousNs))) == bracket
  }

  /** The collection began with reading number from, and the bracket is the greatest drift from it among
      the readings since. */
  ghost predicate CoveredSince(s: Service, from: nat) {
    && from < |s.history| && s.bracketOrigin.Some?
    && s.history[from].Observe? && s.history[from].o.Reading?
    && s.bracketOrigin.value == Clock(s.history[from].o.wall, s.history[from].o.continuousNs)
    && (forall k :: from <= k < |s.history| ==> WithinBracket(s.history[k], s.bracketOrigin.value, s.maxBracket))
    && (exists k :: from <= k < |s.history| && MeetsBracket(s.history[k], s.bracketOrigin.value, s.maxBracket))
  }

  ghost predicate Covered(s: Service) { s.collecting ==> exists from: nat :: CoveredSince(s, from) }

  lemma BracketGrows(s: Service, o: Observation)
    requires Covered(s)
    ensures Covered(Taught(Bracketed(s, o), Observe(o)))
  {
    if s.collecting {
      var from: nat :| CoveredSince(s, from);
      hide Apply, Drift;
      var u := Taught(Bracketed(s, o), Observe(o));
      assert forall k :: from <= k < |s.history| ==> u.history[k] == s.history[k];
      var k :| from <= k < |s.history| && MeetsBracket(s.history[k], s.bracketOrigin.value, s.maxBracket);
      assert MeetsBracket(u.history[if u.maxBracket == s.maxBracket then k else |s.history|], u.bracketOrigin.value, u.maxBracket);
      assert CoveredSince(u, from);
    }
  }

  lemma OtherStepsKeepBracket(s: Service, u: Service)
    requires Covered(s) && u.collecting == s.collecting && u.bracketOrigin == s.bracketOrigin && u.maxBracket == s.maxBracket
    requires s.history <= u.history && forall k :: |s.history| <= k < |u.history| ==> !u.history[k].Observe?
    ensures Covered(u)
  {
    if s.collecting {
      var from: nat :| CoveredSince(s, from);
      hide Drift;
      var k :| from <= k < |s.history| && MeetsBracket(s.history[k], s.bracketOrigin.value, s.maxBracket);
      assert MeetsBracket(u.history[k], u.bracketOrigin.value, u.maxBracket);
      assert CoveredSince(u, from);
    }
  }

  lemma ObserveCovers(s: Service, disk: Option<Generations>, o: Observation, result: WriteResult)
    requires Covered(s)
    ensures Covered(ObserveNow(s, disk, o, result).service)
  {
    BracketGrows(s, o);
    var u := Taught(Bracketed(s, o), Observe(o));
    hide Covered, Taught, Bracketed;
    OtherStepsKeepBracket(u, Persist(u, disk, result).service);
  }

  lemma EnterCovers(s: Service, o: Observation, force: bool, requestValid: bool)
    requires Covered(s) && s.history != [] && s.history[|s.history| - 1] == Observe(o)
    ensures Covered(EnterSample(s, o, force, requestValid).1)
  {
    var (entry, u) := EnterSample(s, o, force, requestValid);
    if entry == Collects {
      assert Abs(Drift(u.bracketOrigin.value, u.bracketOrigin.value)) == 0.0;
      assert MeetsBracket(u.history[|s.history| - 1], u.bracketOrigin.value, u.maxBracket);
      assert CoveredSince(u, |s.history| - 1);
    }
  }

  lemma FinishCovers(s: Service, disk: Option<Generations>, e: Event)
    requires Covered(s) && e.Handles?
    ensures Covered(Finish(s, disk, e.op, e.o, e.first, e.second, e.sampled, e.requestValid).service)
  {
    ObserveCovers(s, disk, e.o, e.first);
    var p := ObserveNow(s, disk, e.o, e.first);
    AnswerKeepsBracket(p.service, p.disk, e.op, e.second);
    hide ObserveNow, Answer, Covered;
  }

  lemma AnswerKeepsBracket(s: Service, disk: Option<Generations>, op: Operation, second: WriteResult)
    requires Covered(s)
    ensures Covered(Answer(s, disk, op, second).service)
  {
    var u := Answer(s, disk, op, second).service;
    hide Covered, Apply, EvidenceOf, StatusOf, Approves, Checked;
    OtherStepsKeepBracket(s, u);
  }

  lemma {:induction false} CollectionsAreCovered(events: seq<Event>)
    ensures After(events).service.Some? ==> Covered(After(events).service.value)
  {
    if events != [] {
      var before, e := After(events[..|events| - 1]), events[|events| - 1];
      CollectionsAreCovered(events[..|events| - 1]);
      hide After;
      NextCovers(before, e);
    }
  }

  lemma NextCovers(w: World, e: Event)
    requires w.service.Some? ==> Covered(w.service.value)
    ensures Next(w, e).service.Some? ==> Covered(Next(w, e).service.value)
  {
    if e.Boots? {
      hide Boot;
    } else if w.service.Some? {
      var s := w.service.value;
      match e {
        case Ticks(o, result) => ObserveCovers(s, w.disk, o, result);
        case EntersSample(o, result, force, requestValid) =>
          ObserveCovers(s, w.disk, o, result);
          HistoryOfObserve(s, w.disk, o, result);
          EnterCovers(ObserveNow(s, w.disk, o, result).service, o, force, requestValid);
        case Handles(op, o, first, second, sampled, requestValid) => FinishCovers(s, w.disk, e);
        case Stops => OtherStepsKeepBracket(s, s.(stopped := true));
        case _ =>
      }
      hide ObserveNow, EnterSample, Finish, Apply, CoveredSince, BootStep;
    }
  }

  /** The sample a collection hands in declares as its bracket the greatest drift of any reading since
      its start. */
  lemma BracketIsHonest(events: seq<Event>, e: Event)
    requires e.ExitsSample? && e.measured.Some? && After(events).service.Some? && After(events).service.value.collecting
    ensures var p := ObserveNow(After(events).service.value, After(events).disk, e.o, e.result);
            && p.service.collecting && (exists from: nat :: CoveredSince(p.service, from))
            && SampleOf(p.service, e.measured).bracket == p.service.maxBracket
  {
    CollectionsAreCovered(events);
    var w := After(events);
    hide After;
    ObserveCovers(w.service.value, w.disk, e.o, e.result);
    hide CoveredSince, Apply;
  }

  // ----- The object -----

  class Producer {
    const state: ClockTrustState
    var disk: Option<Generations>
    var saved: Option<Generations>
    var stopped: bool
    var collecting: bool
    var bracketOrigin: Option<Clock>
    var maxBracket: real
    var sampleWall: Option<real>
    var lastCollectionOk: bool
    ghost var born: Trust
    ghost var history: seq<Op>

    ghost function View(): Service
      reads this, state
    {
      Service(state.View(), saved, stopped, collecting, bracketOrigin, maxBracket, sampleWall, lastCollectionOk,
              born, history)
    }

    /** Loads the state file and saves the generations raised by the boot. */
    constructor (persisted: Option<Generations>, result: WriteResult)
      requires Boot(persisted).Some?
      ensures var p := Persist(Newborn(Boot(persisted).value), persisted, result);
              View() == p.service && disk == p.disk
      ensures fresh(state)
    {
      state := new ClockTrustState(if persisted.None? then Generations(0, 0, 0, 0) else persisted.value);
      disk, saved, stopped, collecting := persisted, None, false, false;
      bracketOrigin, maxBracket, sampleWall, lastCollectionOk := None, 0.0, None, false;
      born, history := Boot(persisted).value, [];
      new;
      var _, _ := PersistNow(result);
    }

    method PersistNow(result: WriteResult) returns (raised: bool, valueError: bool)
      modifies this`disk, this`saved, this`stopped
      ensures Persist(old(View()), old(disk), result) == Persisted(View(), disk, raised, valueError)
    {
      raised, valueError := false, false;
      var current := state.generations;
      if saved != Some(current) {
        match result {
          case Written =>
            disk := Some(current);
            saved := Some(current);
          case Failed(reached, isValueError) =>
            if reached { disk := Some(current); }
            stopped := true;
            raised, valueError := true, isValueError;
        }
      }
    }

    method ObserveSystem(o: Observation, result: WriteResult) returns (raised: bool, valueError: bool)
      modifies this, state
      ensures ObserveNow(old(View()), old(disk), o, result) == Persisted(View(), disk, raised, valueError)
    {
      hide Observed, Persist;
      if collecting && bracketOrigin.Some? && o.Reading? {
        maxBracket := Max(maxBracket, Abs(Drift(bracketOrigin.value, Clock(o.wall, o.continuousNs))));
      }
      state.Observe(o);
      history := history + [ClockHistory.Observe(o)];
      raised, valueError := PersistNow(result);
    }

    method Tick(o: Observation, result: WriteResult)
      modifies this, state
      ensures View() == (if old(stopped) then old(View()) else ObserveNow(old(View()), old(disk), o, result).service)
      ensures disk == (if old(stopped) then old(disk) else ObserveNow(old(View()), old(disk), o, result).disk)
    {
      hide ObserveNow;
      if !stopped { var _, _ := ObserveSystem(o, result); }
    }

    method Enter(o: Observation, force: bool, requestValid: bool) returns (entry: SampleEntry)
      modifies this
      ensures disk == old(disk) && (entry, View()) == EnterSample(old(View()), o, force, requestValid)
    {
      if stopped || !requestValid { return GivenUp; }
      if collecting { return MustWait; }
      if !force && o.Reading? && sampleWall.Some? && 0.0 <= o.wall - sampleWall.value < 1000.0 {
        return Cached(lastCollectionOk);
      }
      if !o.Reading? { return GivenUp; }
      collecting, bracketOrigin, maxBracket := true, Some(Clock(o.wall, o.continuousNs)), 0.0;
      return Collects;
    }

    method Exit(startWall: real, measured: Option<Measured>)
      modifies this, state
      ensures disk == old(disk) && View() == ExitSample(old(View()), startWall, measured)
    {
      hide Recorded;
      ghost var before := View();
      var sample := if measured.Some?
        then Sample(measured.value.issuedMs, measured.value.offset, measured.value.uncertainty, maxBracket) else Absent;
      state.RecordSample(sample);
      history := history + [Record(sample)];
      lastCollectionOk := measured.Some? && state.consecutive > 0;
      sampleWall, collecting := Some(startWall), false;
    }

    method Handle(op: Operation, o: Observation, first: WriteResult, second: WriteResult, sampled: bool,
                  requestValid: bool) returns (served: Served)
      modifies this, state
      ensures Finished(View(), disk, served) ==
              Finish(old(View()), old(disk), op, o, first, second, sampled, requestValid)
    {
      hide ObserveNow, Answer;
      var raised, _ := ObserveSystem(o, first);
      if raised { return NoReply; }
      if stopped || !sampled || !requestValid { return Refused(SampleUnavailable); }
      served := Reply(op, second);
    }

    method Reply(op: Operation, second: WriteResult) returns (served: Served)
      modifies this, state
      ensures Finished(View(), disk, served) == Answer(old(View()), old(disk), op, second)
    {
      hide EvidenceOf, Checked, Approved, Approves, Persist, StatusOf;
      match op {
        case Read =>
          var reply := state.GetEvidence();
          return if reply.Evidence? then EvidenceServed(reply) else Refused(reply.reason);
        case ApproveRequest(revision) =>
          var ok := state.Approve(revision, 0);
          history := history + [Approve(revision, 0)];
          if !ok { return Refused(NotApproved); }
          var raised, valueError := PersistNow(second);
          if raised { return if valueError then Refused(NotApproved) else NoReply; }
          return StatusOf(state.View());
        case _ => return StatusOf(state.View());
      }
    }

    method Stop()
      modifies this`stopped
      ensures View() == old(View()).(stopped := true)
    {
      stopped := true;
    }
  }
}
