/** With nothing left in the journal the recovery publisher comes to rest, and at rest its backoff
    starts over. */
module PublisherRest {
  import opened Options
  import opened RecoveryPublisher

  /** The next thing the publisher does by itself: its timer fires, its drain reads the journal, or its
      drain settles. */
  predicate Own(w: World, e: Event) {
    || (e == TimerFires && w.p.timer.Some?)
    || (e == DrainReads(false) && w.p.drain.Some? && w.p.drain.value.retry.None?)
    || (e == DrainSettles && w.p.drain.Some? && w.p.drain.value.retry.Some?)
  }

  predicate AtRest(p: Publisher) { p.timer.None? && p.drain.None? }

  /** How many of its own events are left while the journal stays empty. */
  function Work(p: Publisher): nat {
    if p.timer.Some? then 3
    else
      match p.drain
      case None => 0
      case Some(run) =>
        match run.retry
        case None => if p.requested then 5 else 2
        case Some(retry) => if retry || p.requested then 4 else 1
  }

  lemma OwnEventUsesWork(w: World, e: Event, b: Bounds)
    requires Inv(w) && w.p.connected && !w.journal && Own(w, e)
    ensures var u := Step(w, e, b); Work(u.p) == Work(w.p) - 1 && u.p.connected && !u.journal
  {
  }

  /** A publisher without timer and drain, be it connected or not, waits the initial delay next. */
  predicate StartsOver(p: Publisher, b: Bounds) { AtRest(p) ==> p.delay == b.initial && p.waits == [] }

  lemma StepStartsOver(w: World, e: Event, b: Bounds)
    requires Inv(w) && StartsOver(w.p, b)
    ensures StartsOver(Step(w, e, b).p, b)
  {
    match e {
      case Connect =>
      case Disconnect =>
      case ScheduleRetry =>
      case TimerFires =>
      case DrainReads(failed) =>
      case DrainSettles =>
      case AbandonedSettles(run, retry) =>
      case AckFinishes(empty) =>
      case _ =>
    }
  }

  lemma {:induction false} AlwaysStartsOver(events: seq<Event>, b: Bounds)
    ensures StartsOver(After(events, b).p, b)
  {
    if events != [] {
      AlwaysStartsOver(events[..|events| - 1], b);
      AlwaysInv(events[..|events| - 1], b);
      hide Inv, StartsOver, Step;
      StepStartsOver(After(events[..|events| - 1], b), events[|events| - 1], b);
    }
  }

  /** Every event of the continuation is the publisher's own and can happen where it stands. */
  ghost predicate OwnOnly(events: seq<Event>, more: seq<Event>, b: Bounds) {
    forall i :: 0 <= i < |more| ==> Own(After(events + more[..i], b), more[i])
  }

  lemma {:induction false} UsesWork(events: seq<Event>, more: seq<Event>, b: Bounds)
    requires After(events, b).p.connected && !After(events, b).journal && OwnOnly(events, more, b)
    ensures var w := After(events + more, b);
            w.p.connected && !w.journal && Work(w.p) == Work(After(events, b).p) - |more|
  {
    if more == [] {
      assert events + more == events;
    } else {
      var n := |more| - 1;
      OwnBefore(events, more, b);
      UsesWork(events, more[..n], b);
      AlwaysInv(events + more[..n], b);
      assert (events + more)[..|events + more| - 1] == events + more[..n];
      LastStep(events + more, b);
      assert Own(After(events + more[..n], b), more[n]);
      hide Inv, After, Step, Own, OwnOnly, Work;
      OwnEventUsesWork(After(events + more[..n], b), more[n], b);
    }
  }

  lemma OwnBefore(events: seq<Event>, more: seq<Event>, b: Bounds)
    requires more != [] && OwnOnly(events, more, b)
    ensures OwnOnly(events, more[..|more| - 1], b)
  {
    hide Own, After;
    var n := |more| - 1;
    forall i | 0 <= i < n ensures Own(After(events + more[..n][..i], b), more[..n][i]) {
      assert more[..n][..i] == more[..i];
      assert Own(After(events + more[..i], b), more[i]);
    }
  }

  /** While the journal stays empty, a connected publisher that is left to itself, with readings that
      succeed, does at most five things, and when nothing is left to do it has no timer and no drain and
      its backoff is reset. */
  lemma RestsOnEmptyJournal(events: seq<Event>, more: seq<Event>, b: Bounds)
    requires After(events, b).p.connected && !After(events, b).journal && OwnOnly(events, more, b)
    ensures |more| <= 5
    ensures var w := After(events + more, b);
            NothingLeft(w) ==> AtRest(w.p) && w.p.delay == b.initial && w.p.waits == []
  {
    hide After, OwnOnly, Work, NothingLeft;
    UsesWork(events, more, b);
    AlwaysStartsOver(events + more, b);
    WorkBounds(After(events, b), After(events + more, b));
  }

  ghost predicate NothingLeft(w: World) { forall e :: !Own(w, e) }

  lemma WorkBounds(before: World, after: World)
    ensures Work(before.p) <= 5 && Work(after.p) >= 0
    ensures NothingLeft(after) ==> AtRest(after.p)
  {
    if NothingLeft(after) {
      assert !Own(after, TimerFires) && !Own(after, DrainReads(false)) && !Own(after, DrainSettles);
    }
  }
}
