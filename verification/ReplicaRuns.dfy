/**
 What holds of the phone's copy of a log over whole runs of arrivals, merges,
 windows, pages and the reader's acts.
 */
module ReplicaRuns {
  import opened Wrappers
  import opened Replica

  datatype Step =
    | Arrive(e: Event)
    | Resync(skipped: Option<nat>)
    | Settle
    | Window(daemonLast: nat, keepEarlier: bool)
    | AskPage(id: nat)
    | PageEnds(ended: nat, firstSeq: nat, failed: bool)
    | DropPage
    | Dismiss
    | Rewind

  function Stepped(r: Replica, step: Step): Replica {
    match step
    case Arrive(e) => Ingested(r, e)
    case Resync(skipped) => Resynced(r, skipped)
    case Settle => Settled(r)
    case Window(daemonLast, keepEarlier) => Windowed(r, daemonLast, keepEarlier)
    case AskPage(id) => PageBegun(r, id)
    case PageEnds(id, firstSeq, failed) => PageEnded(r, id, firstSeq, failed)
    case DropPage => PageCancelled(r)
    case Dismiss => GapDismissed(r)
    case Rewind => Rewound(r)
  }

  function Run(r: Replica, steps: seq<Step>): Replica
    decreases |steps|
  {
    if steps == [] then r else Stepped(Run(r, steps[..|steps| - 1]), steps[|steps| - 1])
  }

  lemma OneMoreStep(r: Replica, steps: seq<Step>, step: Step)
    ensures Run(r, steps + [step]) == Stepped(Run(r, steps), step)
  {
    assert (steps + [step])[..|steps|] == steps;
  }

  // -------------------------------------------------- the standing invariant

  lemma ClearedKeepsWell(gap: Gap, fillStopped: bool)
    requires !gap.SequenceJump?
    ensures WellKept(Empty.(gap := gap, fillStopped := fillStopped))
  {
  }

  lemma {:induction false} StepKeepsWell(r: Replica, step: Step)
    requires WellKept(r)
    ensures WellKept(Stepped(r, step))
  {
    hide Content, Ascending, Apart, AllOpen, TotalLacking, Distinct, Ingested, Settled, Windowed, PageEnded;
    match step
    case Arrive(e) => IngestKeepsWell(r, e);
    case Resync(_) => GapsStayApart(r, Stepped(r, step));
    case Settle => MergeKeepsWell(r);
    case Window(daemonLast, keepEarlier) => WindowKeepsWell(r, daemonLast, keepEarlier);
    case AskPage(_) =>
      EmptyHoldsNothing([]);
      GapsAreTheirOwn(r, Stepped(r, step));
    case PageEnds(id, firstSeq, failed) => PageEndKeepsWell(r, id, firstSeq, failed);
    case DropPage => GapsAreTheirOwn(r, Stepped(r, step));
    case Dismiss => NothingMissing(r.events, LastSeq(r.events));
    case Rewind => ClearedKeepsWell(LogRewound, r.fillStopped);
  }

  lemma GapsStayApart(r: Replica, after: Replica)
    requires GapsCounted(r) && after == r.(gap := after.gap) && after.gap.DaemonResync?
    ensures GapsCounted(after)
  {
  }

  /** However arrivals, windows, pages and acts interleave, the copy stays well kept. */
  lemma {:induction false} RunKeepsWell(r: Replica, steps: seq<Step>)
    requires WellKept(r)
    ensures WellKept(Run(r, steps))
    decreases |steps|
  {
    hide WellKept;
    if steps != [] {
      RunKeepsWell(r, steps[..|steps| - 1]);
      StepKeepsWell(Run(r, steps[..|steps| - 1]), steps[|steps| - 1]);
    }
  }

  // ------------------------------------------- coalescing changes nothing

  /** A step that neither moves the window nor merges a page. */
  predicate Quiet(step: Step) {
    step.Arrive? || step.Resync? || step.Settle? || step.AskPage? || step.DropPage? || step.Dismiss?
  }

  predicate AllQuiet(steps: seq<Step>) {
    forall i | 0 <= i < |steps| :: Quiet(steps[i])
  }

  /** The arrivals that are not below the window, in the order they came. */
  function Taken(start: Option<nat>, steps: seq<Step>): seq<Event> {
    if steps == [] then []
    else
      var last := steps[|steps| - 1];
      Taken(start, steps[..|steps| - 1])
      + if last.Arrive? && !(start.Some? && last.e.at < start.value) then [last.e] else []
  }

  lemma SettledHolds(r: Replica)
    requires RunsKept(r)
    ensures Ascending(Settled(r).events)
    ensures Content(Settled(r).events) == Content(r.pending) + Content(r.events)
    ensures LastSeq(r.events) <= LastSeq(Settled(r).events)
    ensures r.events == [] ==> Settled(r).events == []
  {
    hide Content, Ascending, InsertAll, Distinct;
    NoneAscend();
    EmptyHoldsNothing([]);
    if r.pending == [] {
      assert Content(r.pending) == map[];
    } else {
      var incoming := InsertAll([], r.pending);
      SettledEvents(r);
      InsertAllAdds([], r.pending);
      InsertAllOfDistinct([], r.pending);
      AscendingIsDistinct(incoming);
      InsertAllAdds(r.events, incoming);
      InsertAllOfDistinct(r.events, incoming);
      SeqIsHeld(r.pending, 0);
    }
  }

  lemma SettledEvents(r: Replica)
    ensures Settled(r).events == if r.pending == [] then r.events else InsertAll(r.events, InsertAll([], r.pending))
  {
    hide Content, Ascending, InsertAll, StillOpen, TotalLacking, NewerFact;
  }

  /** What a settled copy holds after an arrival at or above the window. */
  lemma ArrivalHeld(r: Replica, e: Event)
    requires WellKept(r) && !(r.windowStart.Some? && e.at < r.windowStart.value)
    ensures Content(Ingested(r, e).pending) + Content(Ingested(r, e).events)
         == if e.at in Seqs(r.pending) || e.at in Seqs(r.events) then Content(r.pending) + Content(r.events)
            else (Content(r.pending) + Content(r.events))[e.at := e]
  {
    hide Content, Ascending, Distinct, GapsCounted, PageFits, Noting;
    if r.events != [] && e.at <= LastSeq(r.events) {
      Appended(r.pending, e);
    } else {
      Appended(r.events, e);
      NothingAbove(r, e);
      NoteMissingTouches(r, Range(LastSeq(r.events) + 1, if e.at == 0 then 0 else e.at - 1));
    }
  }

  /** Whatever already waits, an arrival comes to one insertion. */
  lemma ArrivalInserts(r: Replica, e: Event)
    requires WellKept(r)
    ensures Settled(Ingested(r, e)).events
         == if r.windowStart.Some? && e.at < r.windowStart.value then Settled(r).events
            else Insert(Settled(r).events, e)
  {
    hide Content, Ascending, WellKept, Insert, InsertAll, RunsKept, Settled;
    IngestKeepsWell(r, e);
    if r.windowStart.Some? && e.at < r.windowStart.value {
      SettledEvents(r);
      SettledEvents(Ingested(r, e));
    } else {
      hide Ingested;
      RunsAreKept(r);
      RunsAreKept(Ingested(r, e));
      SettledHolds(r);
      SettledHolds(Ingested(r, e));
      InsertAdds(Settled(r).events, e);
      ArrivalHeld(r, e);
      AscendingIsDetermined(Settled(Ingested(r, e)).events, Insert(Settled(r).events, e));
    }
  }

  lemma NothingAbove(r: Replica, e: Event)
    requires RunsKept(r) && (r.events == [] || e.at > LastSeq(r.events))
    ensures e.at !in Seqs(r.events) && e.at !in Seqs(r.pending)
  {
    hide Content, Ascending;
    SeqsAreBelowAll(r.events);
    EmptyHoldsNothing(r.events);
  }

  lemma QuietStepMoves(r: Replica, step: Step)
    requires WellKept(r) && Quiet(step)
    ensures Stepped(r, step).windowStart == r.windowStart
    ensures Settled(Stepped(r, step)).events
         == if step.Arrive? && !(r.windowStart.Some? && step.e.at < r.windowStart.value)
            then Insert(Settled(r).events, step.e) else Settled(r).events
  {
    hide Content, Ascending, Distinct, GapsCounted, PageFits, Insert, InsertAll, Apart, AllOpen;
    if step.Arrive? {
      ArrivalInserts(r, step.e);
    } else {
      MergeKeepsGaps(r);
      SettledEvents(r);
      SettledEvents(Stepped(r, step));
    }
  }

  /**
   Merging late arrivals in one pass when the coalescing window closes, whenever
   that is, leaves what inserting each as it came would have.
   */
  lemma {:induction false} CoalescingIsInvisible(r: Replica, steps: seq<Step>)
    requires WellKept(r) && AllQuiet(steps)
    ensures Run(r, steps).windowStart == r.windowStart
    ensures Settled(Run(r, steps)).events == InsertAll(Settled(r).events, Taken(r.windowStart, steps))
    decreases |steps|
  {
    hide WellKept, Insert, Settled;
    if steps != [] {
      var front, last := steps[..|steps| - 1], steps[|steps| - 1];
      assert Quiet(last);
      CoalescingIsInvisible(r, front);
      RunKeepsWell(r, front);
      QuietStepMoves(Run(r, front), last);
      OneMoreTaken(r.windowStart, steps, Settled(r).events);
    }
  }

  lemma OneMoreTaken(start: Option<nat>, steps: seq<Step>, s: seq<Event>)
    requires steps != []
    ensures var front, last := steps[..|steps| - 1], steps[|steps| - 1];
      InsertAll(s, Taken(start, steps))
      == if last.Arrive? && !(start.Some? && last.e.at < start.value)
         then Insert(InsertAll(s, Taken(start, front)), last.e) else InsertAll(s, Taken(start, front))
  {
    var front, last := steps[..|steps| - 1], steps[|steps| - 1];
    if last.Arrive? && !(start.Some? && last.e.at < start.value) {
      assert Taken(start, steps)[..|Taken(start, front)|] == Taken(start, front);
    } else {
      assert Taken(start, steps) == Taken(start, front);
    }
  }

  predicate FromLog(log: map<nat, Event>, s: seq<Event>) {
    forall i | 0 <= i < |s| :: s[i].at in log && log[s[i].at] == s[i]
  }

  lemma {:induction false} InsertAllFromLog(log: map<nat, Event>, s: seq<Event>, incoming: seq<Event>)
    requires Ascending(s) && FromLog(log, incoming)
    ensures forall x | x in Seqs(incoming) :: x in log
    ensures Seqs(InsertAll(s, incoming)) == Seqs(s) + Seqs(incoming)
    ensures forall x | x in Seqs(InsertAll(s, incoming)) ::
              Content(InsertAll(s, incoming))[x] == if x in Seqs(s) then Content(s)[x] else log[x]
    decreases |incoming|
  {
    hide Ascending, Insert;
    if incoming != [] {
      var front, e := incoming[..|incoming| - 1], incoming[|incoming| - 1];
      InsertAllFromLog(log, s, front);
      InsertAllAdds(s, front);
      InsertAdds(InsertAll(s, front), e);
    }
  }

  /** Two runs that take the same seqs of one log end alike, whatever the order and wherever they merged. */
  lemma {:induction false} ArrivalOrderIsInvisible(r: Replica, log: map<nat, Event>, a: seq<Step>, b: seq<Step>)
    requires WellKept(r) && AllQuiet(a) && AllQuiet(b)
    requires FromLog(log, Taken(r.windowStart, a)) && FromLog(log, Taken(r.windowStart, b))
    requires Seqs(Taken(r.windowStart, a)) == Seqs(Taken(r.windowStart, b))
    ensures Settled(Run(r, a)).events == Settled(Run(r, b)).events
  {
    hide Content, Ascending, InsertAll, Settled, Run, Distinct, FromLog;
    var held, ta, tb := Settled(r).events, Taken(r.windowStart, a), Taken(r.windowStart, b);
    CoalescingIsInvisible(r, a);
    CoalescingIsInvisible(r, b);
    SettledHolds(r);
    InsertAllAdds(held, ta);
    InsertAllAdds(held, tb);
    InsertAllFromLog(log, held, ta);
    InsertAllFromLog(log, held, tb);
    assert Content(InsertAll(held, ta)) == Content(InsertAll(held, tb));
    AscendingIsDetermined(InsertAll(held, ta), InsertAll(held, tb));
  }

  // --------------------------------------------------- the newest fact wins

  /** `fact`, from the event at `at`, is the newest the held events state. */
  predicate NewestFact(held: map<nat, Event>, fact: Option<string>, at: nat) {
    && (forall x | x in held && held[x].fact.Some? :: x <= at)
    && (if at == 0 then fact == None else at in held && held[at].fact == fact && fact.Some?)
  }

  lemma OneNewerFact(held: map<nat, Event>, fact: Option<string>, at: nat, e: Event)
    requires NewestFact(held, fact, at) && e.at != 0 && e.at !in held
    ensures if e.at > at && e.fact.Some? then NewestFact(held[e.at := e], e.fact, e.at)
            else NewestFact(held[e.at := e], fact, at)
  {
  }

  lemma {:induction false} NewerFactIsNewest(held: map<nat, Event>, fact: Option<string>, at: nat, incoming: seq<Event>)
    requires NewestFact(held, fact, at) && Distinct(incoming)
    requires forall x | x in Seqs(incoming) :: x != 0 && x !in held
    ensures var (f, a) := NewerFact(fact, at, incoming);
      NewestFact(Content(incoming) + held, f, a)
    decreases |incoming|
  {
    hide Content, NewestFact;
    if incoming == [] {
      EmptyHoldsNothing(incoming);
      assert Content(incoming) + held == held;
    } else {
      var front, e := incoming[..|incoming| - 1], incoming[|incoming| - 1];
      assert incoming == front + [e];
      Appended(front, e);
      NewerFactIsNewest(held, fact, at, front);
      assert Content(incoming) + held == (Content(front) + held)[e.at := e];
      var (f, a) := NewerFact(fact, at, front);
      OneNewerFact(Content(front) + held, f, a, e);
    }
  }

  lemma SettledFacts(r: Replica)
    ensures r.pending != [] ==> (Settled(r).fact, Settled(r).factAt) == NewerFact(r.fact, r.factAt, InsertAll([], r.pending))
    ensures r.pending == [] ==> Settled(r) == r
  {
    hide Content, Ascending, InsertAll, StillOpen, TotalLacking, NewerFact;
  }

  lemma SettleKeepsNewest(r: Replica)
    requires RunsKept(r) && NewestFact(Content(r.events), r.fact, r.factAt) && 0 !in Seqs(r.pending)
    ensures NewestFact(Content(Settled(r).events), Settled(r).fact, Settled(r).factAt)
  {
    hide Ascending, InsertAll, Distinct, NewerFact, NewestFact, Content;
    SettledFacts(r);
    if r.pending != [] {
      var incoming := InsertAll([], r.pending);
      NoneAscend();
      EmptyHoldsNothing([]);
      SettledHolds(r);
      InsertAllAdds([], r.pending);
      InsertAllOfDistinct([], r.pending);
      assert Content(incoming) == Content(r.pending);
      AscendingIsDistinct(incoming);
      NewerFactIsNewest(Content(r.events), r.fact, r.factAt, incoming);
    }
  }

  lemma ArrivalKeepsNewest(r: Replica, e: Event)
    requires WellKept(r) && NewestFact(Content(r.events), r.fact, r.factAt) && e.at > 0 && 0 !in Seqs(r.pending)
    ensures NewestFact(Content(Ingested(r, e).events), Ingested(r, e).fact, Ingested(r, e).factAt)
    ensures 0 !in Seqs(Ingested(r, e).pending)
  {
    hide Ascending, Distinct, GapsCounted, PageFits, Noting, Content;
    SeqsAreBelowAll(r.events);
    EmptyHoldsNothing(r.events);
    Appended(r.events, e);
    Appended(r.pending, e);
    NoteMissingTouches(r, Range(LastSeq(r.events) + 1, if e.at == 0 then 0 else e.at - 1));
  }

  /** Between windows, the fact shown is the newest of what is held, in any order of arrival. */
  lemma {:induction false} FactIsNewest(r: Replica, steps: seq<Step>)
    requires WellKept(r) && AllQuiet(steps) && 0 !in Seqs(r.pending)
    requires NewestFact(Content(r.events), r.fact, r.factAt)
    requires forall i | 0 <= i < |steps| && steps[i].Arrive? :: steps[i].e.at > 0
    ensures var after := Run(r, steps);
      && 0 !in Seqs(after.pending) && NewestFact(Content(after.events), after.fact, after.factAt)
      && NewestFact(Content(Settled(after).events), Settled(after).fact, Settled(after).factAt)
    decreases |steps|
  {
    hide WellKept, NewestFact, Settled, Seqs, Content, Ingested;
    RunKeepsWell(r, steps);
    if steps != [] {
      var front, last := steps[..|steps| - 1], steps[|steps| - 1];
      var before := Run(r, front);
      assert Quiet(last);
      FactIsNewest(r, front);
      RunKeepsWell(r, front);
      RunsAreKept(before);
      if last.Arrive? {
        ArrivalKeepsNewest(before, last.e);
      } else if last.Settle? {
        SettleKeepsNewest(before);
        MergeKeepsWell(before);
        EmptyHoldsNothing([]);
      }
    }
    RunsAreKept(Run(r, steps));
    SettleKeepsNewest(Run(r, steps));
  }

  lemma RunsAreKept(r: Replica)
    requires WellKept(r)
    ensures RunsKept(r)
  {
  }

  /** The newest fact does not depend on the order the log's events arrived in. */
  lemma {:induction false} FactOrderIsInvisible(r: Replica, log: map<nat, Event>, a: seq<Step>, b: seq<Step>)
    requires WellKept(r) && AllQuiet(a) && AllQuiet(b) && 0 !in log && 0 !in Seqs(r.pending)
    requires FromLog(log, Taken(r.windowStart, a)) && FromLog(log, Taken(r.windowStart, b))
    requires Seqs(Taken(r.windowStart, a)) == Seqs(Taken(r.windowStart, b))
    requires NewestFact(Content(r.events), r.fact, r.factAt)
    requires forall i | 0 <= i < |a| && a[i].Arrive? :: a[i].e.at > 0
    requires forall i | 0 <= i < |b| && b[i].Arrive? :: b[i].e.at > 0
    ensures Settled(Run(r, a)).fact == Settled(Run(r, b)).fact && Settled(Run(r, a)).factAt == Settled(Run(r, b)).factAt
  {
    hide Content, Settled, Run, WellKept, Seqs, Taken, FromLog;
    ArrivalOrderIsInvisible(r, log, a, b);
    FactIsNewest(r, a);
    FactIsNewest(r, b);
  }

  /**
   A fact goes back in time exactly when an arrival is appended with a fact older
   than the one held, which takes a tail below the event the fact came from.
   */
  lemma {:induction false} FactGoesBackExactly(r: Replica, step: Step)
    requires WellKept(r) && !step.Rewind?
    ensures Stepped(r, step).factAt < r.factAt
       <==> && step.Arrive? && step.e.fact.Some? && step.e.at < r.factAt
            && (r.events == [] || LastSeq(r.events) < step.e.at)
            && !(r.windowStart.Some? && step.e.at < r.windowStart.value)
  {
    hide Content, Ascending, Distinct, GapsCounted, PageFits, InsertAll, Apart, AllOpen, WithPage, Below, NewerFact, Noting;
    match step
    case Arrive(e) =>
      if e.at > 0 { NoteMissingTouches(r, Range(LastSeq(r.events) + 1, e.at - 1)); }
    case Settle => SettleNeverGoesBack(r);
    case Window(daemonLast, keepEarlier) => SettleNeverGoesBack(r);
    case PageEnds(id, firstSeq, failed) =>
      SettleNeverGoesBack(r.(page := None, pageBuffer := [], fillStopped := failed, pending := WithPage(r.pending, r.pageBuffer)));
    case _ =>
  }

  lemma SettleNeverGoesBack(r: Replica)
    ensures Settled(r).factAt >= r.factAt
  {
    SettledFacts(r);
    if r.pending != [] { NewerIsNewer(r.fact, r.factAt, InsertAll([], r.pending)); }
  }

  lemma {:induction false} NewerIsNewer(fact: Option<string>, at: nat, incoming: seq<Event>)
    ensures NewerFact(fact, at, incoming).1 >= at
    decreases |incoming|
  {
    if incoming != [] { NewerIsNewer(fact, at, incoming[..|incoming| - 1]); }
  }

  /** A window that drops what was held lets the replay's older fact displace the newer one. */
  lemma {:induction false} DroppedWindowShowsAnOlderFact()
    ensures var older, newer := Event(201, Some("older"), ""), Event(600, Some("newer"), "");
      var after := Run(Empty, [Arrive(newer), Window(700, false), Arrive(older)]);
      after.fact == Some("older") && after.factAt == 201
  {
    var older, newer := Event(201, Some("older"), ""), Event(600, Some("newer"), "");
    var steps := [] + [Arrive(newer)] + [Window(700, false)] + [Arrive(older)];
    assert steps == [Arrive(newer), Window(700, false), Arrive(older)];
    OneMoreStep(Empty, [], Arrive(newer));
    OneMoreStep(Empty, [] + [Arrive(newer)], Window(700, false));
    OneMoreStep(Empty, [] + [Arrive(newer)] + [Window(700, false)], Arrive(older));
    var one := Ingested(Empty, newer);
    assert one == Empty.(events := [newer], fact := Some("newer"), factAt := 600);
    assert Below([newer], 201) == 0 && [newer][0..] == [newer];
    var two := Windowed(one, 700, false);
    assert two == HeldTo(one, 200);
    assert two == one.(events := [], windowStart := Some(201));
  }

  // -------------------------------------------- the notice is the holes

  /** The seqs of the window, up to its own tail, that are not held. */
  function Holes(r: Replica): set<nat>
    requires r.windowStart.Some?
  {
    if r.events == [] then {} else Stretch(r.windowStart.value, LastSeq(r.events)) - Seqs(r.events)
  }

  /**
   Everything held lies in the window, and the noted ranges lack exactly its holes but for
   those `waived`: dismissed, or beneath the event that came first.
   */
  predicate HolesKnown(r: Replica, waived: set<nat>) {
    && r.windowStart.Some? && r.windowStart.value >= 1
    && (forall x | x in Seqs(r.events) :: r.windowStart.value <= x)
    && (forall x | x in Seqs(r.pending) :: r.windowStart.value <= x)
    && Noted(r.events, r.missing) == Holes(r) - waived
    && (r.events == [] ==> waived == {}) && (forall x | x in waived :: x < LastSeq(r.events))
  }

  /** The page in flight, at its end, holds every seq from the first it names up to the window. */
  predicate PageIsWhole(r: Replica, firstSeq: nat)
    requires r.page.Some?
  {
    1 <= firstSeq <= r.page.value.before && Seqs(r.pageBuffer) == Stretch(firstSeq, r.page.value.before - 1)
  }

  /** The steps after which the notice is still the holes but for those waived: all but a page cut short and a rewound log. */
  predicate TellsHoles(r: Replica, step: Step) {
    match step
    case PageEnds(id, firstSeq, failed) =>
      r.page.Some? && r.page.value.id == id && !failed ==> PageIsWhole(r, firstSeq)
    case Rewind => false
    case _ => true
  }

  /** The holes no notice tells: those there when one was dismissed, and those beneath the event that came first into a window. */
  function Waived(r: Replica, waived: set<nat>, step: Step): set<nat> {
    match step
    case Arrive(e) =>
      if r.windowStart.Some? && r.events == [] && r.windowStart.value <= e.at
      then Stretch(r.windowStart.value, e.at) - {e.at} else waived
    case Dismiss => if r.windowStart.Some? then Holes(r) else waived
    case Window(daemonLast, keepEarlier) => if KeepsAsIs(r, daemonLast, keepEarlier) then waived else {}
    case _ => waived
  }

  function RunWaived(r: Replica, waived: set<nat>, steps: seq<Step>): set<nat>
    decreases |steps|
  {
    if steps == [] then waived
    else Waived(Run(r, steps[..|steps| - 1]), RunWaived(r, waived, steps[..|steps| - 1]), steps[|steps| - 1])
  }

  predicate RunTellsHoles(r: Replica, steps: seq<Step>)
    decreases |steps|
  {
    steps == []
    || (RunTellsHoles(r, steps[..|steps| - 1]) && TellsHoles(Run(r, steps[..|steps| - 1]), steps[|steps| - 1]))
  }

  lemma {:induction false} NotedShrinks(s: seq<Event>, t: seq<Event>, ranges: seq<Range>)
    requires Seqs(s) <= Seqs(t)
    ensures Noted(t, ranges) == Noted(s, ranges) - Seqs(t)
    decreases |ranges|
  {
    hide Seqs, Stretch;
    if ranges != [] { NotedShrinks(s, t, ranges[..|ranges| - 1]); }
  }

  /** Each missing seq is counted once. */
  lemma {:induction false} TotalIsCount(s: seq<Event>, ranges: seq<Range>, bound: nat)
    requires Apart(ranges, bound)
    ensures TotalLacking(s, ranges) == |Noted(s, ranges)|
    ensures forall x | x in Noted(s, ranges) :: x < bound
    decreases |ranges|
  {
    hide Seqs;
    if ranges != [] {
      var front, last := ranges[..|ranges| - 1], ranges[|ranges| - 1];
      TotalIsCount(s, front, last.lo);
      assert Noted(s, front) !! Lacking(s, last);
    }
  }

  lemma StretchGrows(held: set<nat>, lo: nat, last: nat, next: nat)
    requires lo <= last < next && forall x | x in held :: x <= last
    ensures Stretch(lo, next) - (held + {next}) == (Stretch(lo, last) - held) + Stretch(last + 1, next - 1)
  {
  }

  lemma HolesGrow(r: Replica, after: Replica, e: Event)
    requires Ascending(r.events) && r.events != [] && r.windowStart.Some? && e.at > LastSeq(r.events)
    requires forall x | x in Seqs(r.events) :: r.windowStart.value <= x
    requires after.events == r.events + [e] && after.windowStart == r.windowStart
    ensures Holes(after) == Holes(r) + Stretch(LastSeq(r.events) + 1, e.at - 1)
    ensures Seqs(after.events) == Seqs(r.events) + {e.at}
  {
    hide Content, Ascending, Seqs, Stretch;
    Appended(r.events, e);
    LastIsGreatest(r.events);
    StretchGrows(Seqs(r.events), r.windowStart.value, LastSeq(r.events), e.at);
  }

  lemma AppendShape(r: Replica, e: Event)
    requires r.events != [] && e.at > LastSeq(r.events) && !(r.windowStart.Some? && e.at < r.windowStart.value)
    ensures var after := Ingested(r, e);
      && after.events == r.events + [e] && after.windowStart == r.windowStart && after.pending == r.pending
      && after.missing == if e.at > LastSeq(r.events) + 1 then Noting(r, Range(LastSeq(r.events) + 1, e.at - 1)).missing
                          else r.missing
  {
    hide Content, Seqs, StillOpen, TotalLacking;
  }

  lemma KnownAsBoth(r: Replica, after: Replica, at: nat, more: set<nat>, waived: set<nat>)
    requires HolesKnown(r, waived) && after.windowStart == r.windowStart && after.pending == r.pending
    requires Seqs(after.events) == Seqs(r.events) + {at} && r.windowStart.value <= at
    requires Holes(after) == Holes(r) + more && Noted(after.events, after.missing) == Noted(r.events, r.missing) + more
    requires after.events != [] && LastSeq(after.events) >= LastSeq(r.events) && forall x | x in more :: x >= LastSeq(r.events)
    requires r.events != []
    ensures HolesKnown(after, waived)
  {
    hide Content, Seqs, Holes, Noted;
  }

  lemma AppendNotes(r: Replica, e: Event, waived: set<nat>)
    requires WellKept(r) && HolesKnown(r, waived) && r.events != [] && e.at > LastSeq(r.events)
    ensures HolesKnown(Ingested(r, e), waived)
  {
    hide Content, Ascending, WellKept, Noting, Noted, Holes, Seqs, Ingested, Stretch;
    WellKeptParts(r);
    LastIsGreatest(r.events);
    AppendShape(r, e);
    HolesGrow(r, Ingested(r, e), e);
    if e.at > LastSeq(r.events) + 1 {
      NoteMissingCounts(r, e);
      KnownAsBoth(r, Ingested(r, e), e.at, Stretch(LastSeq(r.events) + 1, e.at - 1), waived);
    } else {
      AppendKeepsGaps(r, e);
      KnownAsBoth(r, Ingested(r, e), e.at, {}, waived);
    }
  }

  /** Into an empty window, the notice tells every hole exactly if the first event is the window's first, and else all but those beneath it. */
  lemma {:induction false} FirstArrivalTells(r: Replica, e: Event)
    requires WellKept(r) && HolesKnown(r, {}) && r.events == [] && r.windowStart.value <= e.at
    ensures HolesKnown(Ingested(r, e), {}) <==> e.at == r.windowStart.value
    ensures HolesKnown(Ingested(r, e), Stretch(r.windowStart.value, e.at) - {e.at})
  {
    hide WellKept, Ingested, Content, Noted, Stretch;
    var after := Ingested(r, e);
    FirstIsAlone(r, e);
    assert Holes(after) == Stretch(r.windowStart.value, e.at) - {e.at};
    if e.at == r.windowStart.value {
      assert Holes(after) == {};
    } else {
      assert r.windowStart.value in Holes(after);
    }
  }

  /** What a first event leaves: itself held, nothing noted, and everything beneath it missing. */
  lemma FirstIsAlone(r: Replica, e: Event)
    requires WellKept(r) && HolesKnown(r, {}) && r.events == [] && r.windowStart.value <= e.at
    ensures var after := Ingested(r, e);
      && after.events == [e] && Seqs(after.events) == {e.at} && LastSeq(after.events) == e.at
      && after.windowStart == r.windowStart && Seqs(after.pending) == {} && Noted(after.events, after.missing) == {}
    ensures forall x :: x in Stretch(r.windowStart.value, e.at) <==> r.windowStart.value <= x <= e.at
  {
    hide Ascending, Distinct, AllOpen, TotalLacking, Noting, PageFits, Lacking;
    assert [] + [e] == [e];
    Appended([], e);
    EmptyHoldsNothing([]);
    assert r.missing == [];
  }

  lemma ReplayTells(r: Replica, e: Event, waived: set<nat>)
    requires HolesKnown(r, waived) && r.events != [] && r.windowStart.value <= e.at <= LastSeq(r.events)
    ensures HolesKnown(Ingested(r, e), waived)
  {
    hide Noted, Holes, Content;
    Appended(r.pending, e);
    SameHoles(r, Ingested(r, e));
  }

  lemma SameHoles(r: Replica, after: Replica)
    requires r.windowStart.Some? && after.events == r.events && after.windowStart == r.windowStart
    ensures Holes(after) == Holes(r)
  {
  }

  lemma ArrivalTells(r: Replica, e: Event, waived: set<nat>)
    requires WellKept(r) && HolesKnown(r, waived)
    ensures HolesKnown(Ingested(r, e), Waived(r, waived, Arrive(e)))
  {
    hide WellKept, HolesKnown, Noting, Stretch;
    HolesKnownStart(r, waived);
    if e.at < r.windowStart.value {
      SameRunsSameHoles(r, Ingested(r, e), waived);
    } else if r.events == [] {
      FirstArrivalTells(r, e);
    } else if e.at <= LastSeq(r.events) {
      ReplayTells(r, e, waived);
    } else {
      AppendNotes(r, e, waived);
    }
  }

  lemma HolesKnownStart(r: Replica, waived: set<nat>)
    requires HolesKnown(r, waived)
    ensures r.windowStart.Some?
    ensures r.events == [] ==> waived == {}
  {
  }

  lemma SettledNotes(r: Replica)
    requires Ascending(r.events) && GapsCounted(r)
    ensures Noted(Settled(r).events, Settled(r).missing) == Noted(r.events, r.missing) - Seqs(Settled(r).events)
  {
    hide Content, Ascending, Distinct, AllOpen, TotalLacking, PageFits, InsertAll, Lacking, NewerFact;
    MergeKeepsGaps(r);
    NotedShrinks(r.events, Settled(r).events, r.missing);
    if r.pending != [] {
      var incoming := InsertAll([], r.pending);
      MergedIsKept(r.events, r.pending);
      var (f, at) := NewerFact(r.fact, r.factAt, incoming);
      var merged := r.(events := InsertAll(r.events, incoming), pending := [], fact := f, factAt := at);
      ApartBelow(r.missing, LastSeq(r.events), LastSeq(merged.events));
      ReconcileKeeps(merged);
    }
  }

  /** An ascending run that starts at `lo` and has as many events as seqs up to its last holds them all. */
  lemma {:induction false} CountedIsWhole(s: seq<Event>, lo: nat)
    requires Ascending(s) && s != [] && s[0].at == lo
    ensures LastSeq(s) - lo + 1 >= |s|
    ensures LastSeq(s) - lo + 1 == |s| ==> Seqs(s) == Stretch(lo, LastSeq(s))
    decreases |s|
  {
    hide Content, Seqs;
    var front, last := s[..|s| - 1], s[|s| - 1];
    EmptyHoldsNothing([]);
    assert s == front + [last];
    Appended(front, last);
    if |s| > 1 {
      CountedIsWhole(front, lo);
      assert last.at > LastSeq(front);
      if last.at - lo + 1 == |s| { OneMoreSeq(lo, last.at); }
    }
  }

  lemma OneMoreSeq(lo: nat, hi: nat)
    requires lo < hi
    ensures Stretch(lo, hi) == Stretch(lo, hi - 1) + {hi}
  {
  }

  /** A run the window keeps is the window, whole, to its own tail. */
  lemma CoversIsWhole(kept: seq<Event>, floor: nat)
    requires Ascending(kept) && Covers(kept, floor)
    ensures Seqs(kept) == Stretch(floor + 1, LastSeq(kept))
  {
    CountedIsWhole(kept, floor + 1);
  }

  /**
   A window set afresh starts at the newest 500 (or at 1), holds every seq from
   there to its own tail or nothing at all, and keeps no notice of a hole.
   */
  lemma {:induction false} WindowIsWhole(r: Replica, daemonLast: nat, keepEarlier: bool)
    requires WellKept(r) && !KeepsAsIs(r, daemonLast, keepEarlier)
    ensures var after := Windowed(r, daemonLast, keepEarlier);
      && after.windowStart == Some(if daemonLast > 500 then daemonLast - 499 else 1)
      && after.pending == [] && after.missing == [] && !after.gap.SequenceJump?
      && (after.events != [] ==>
            LastSeq(after.events) == LastSeq(r.events)
            && Seqs(after.events) == Stretch(after.windowStart.value, LastSeq(after.events)))
      && ResumeAfter(r, daemonLast, keepEarlier)
         == if after.events == [] then after.windowStart.value - 1 else LastSeq(after.events)
  {
    hide Content, Ascending, Seqs, Apart, AllOpen, Settled, Stretch, Distinct;
    MergeKeepsWell(r);
    var merged, floor := Settled(r), FloorOf(daemonLast);
    var kept := merged.events[Below(merged.events, floor + 1)..];
    SuffixAscends(merged.events, Below(merged.events, floor + 1));
    if Covers(kept, floor) { CoversIsWhole(kept, floor); }
  }

  lemma WindowTells(r: Replica, daemonLast: nat, keepEarlier: bool, waived: set<nat>)
    requires WellKept(r)
    requires r.windowStart.None? || HolesKnown(r, waived)
    ensures HolesKnown(Windowed(r, daemonLast, keepEarlier), Waived(r, waived, Window(daemonLast, keepEarlier)))
  {
    hide WellKept, KeepsAsIs, HolesKnown, Holes, HeldTo, Settled;
    if KeepsAsIs(r, daemonLast, keepEarlier) {
      KeptHasAStart(r, daemonLast, keepEarlier);
    } else {
      FreshWindowTells(r, daemonLast, keepEarlier);
    }
  }

  lemma KeptHasAStart(r: Replica, daemonLast: nat, keepEarlier: bool)
    requires KeepsAsIs(r, daemonLast, keepEarlier)
    ensures r.windowStart.Some?
  {
  }

  lemma FreshWindowTells(r: Replica, daemonLast: nat, keepEarlier: bool)
    requires WellKept(r) && !KeepsAsIs(r, daemonLast, keepEarlier)
    ensures HolesKnown(Windowed(r, daemonLast, keepEarlier), {})
  {
    hide Windowed, WellKept, KeepsAsIs, Seqs, HolesKnown;
    WindowIsWhole(r, daemonLast, keepEarlier);
    WholeTells(Windowed(r, daemonLast, keepEarlier));
  }

  /** A window with no hole and nothing noted tells every hole. */
  lemma WholeTells(r: Replica)
    requires r.windowStart.Some? && r.windowStart.value >= 1 && r.pending == [] && r.missing == []
    requires r.events != [] ==> Seqs(r.events) == Stretch(r.windowStart.value, LastSeq(r.events))
    ensures HolesKnown(r, {})
  {
    hide Seqs;
    EmptyHoldsNothing([]);
  }

  lemma PageFills(held: set<nat>, page: set<nat>, waiting: set<nat>, first: nat, start: nat, last: nat)
    requires 1 <= first <= start <= last && page == Stretch(first, start - 1)
    ensures Stretch(first, last) - (held + waiting + page)
         == (Stretch(start, last) - held) - (held + waiting + page)
  {
  }

  lemma LastStays(s: seq<Event>, t: seq<Event>)
    requires Ascending(s) && Ascending(t) && s != [] && Seqs(s) <= Seqs(t)
    requires forall x | x in Seqs(t) :: x <= LastSeq(s)
    ensures t != [] && LastSeq(t) == LastSeq(s)
  {
    hide Content, Ascending;
    LastIsGreatest(s);
    EmptyHoldsNothing(t);
    LastIsGreatest(t);
  }

  /** A whole page below the window, merged, leaves the holes that were, less what was merged. */
  lemma PageJoins(r: Replica, after: Replica, firstSeq: nat, waived: set<nat>)
    requires Ascending(r.events) && HolesKnown(r, waived)
    requires forall x | x in Seqs(r.pending) :: x < LastSeq(r.events)
    requires 1 <= firstSeq <= r.windowStart.value && Seqs(r.pageBuffer) == Stretch(firstSeq, r.windowStart.value - 1)
    requires Ascending(after.events) && after.windowStart == Some(firstSeq)
    requires Seqs(after.events) == Seqs(r.events) + Seqs(r.pending) + Seqs(r.pageBuffer)
    ensures LastSeq(after.events) >= LastSeq(r.events) && (r.events != [] ==> after.events != [])
    ensures Holes(after) == Holes(r) - Seqs(after.events)
    ensures forall x | x in Seqs(after.events) :: firstSeq <= x
  {
    hide Content, Ascending, Distinct, Noted, Seqs, Stretch;
    if r.events != [] {
      LastIsGreatest(r.events);
      LastStays(r.events, after.events);
      PageFills(Seqs(r.events), Seqs(r.pageBuffer), Seqs(r.pending), firstSeq, r.windowStart.value, LastSeq(r.events));
    } else {
      EmptyHoldsNothing(r.events);
      if after.events != [] { LastIsGreatest(after.events); }
    }
  }

  lemma KnownAsMerged(r: Replica, after: Replica, waived: set<nat>)
    requires HolesKnown(r, waived) && after.pending == [] && after.windowStart.Some? && after.windowStart.value >= 1
    requires forall x | x in Seqs(after.events) :: after.windowStart.value <= x
    requires Holes(after) == Holes(r) - Seqs(after.events)
    requires Noted(after.events, after.missing) == Noted(r.events, r.missing) - Seqs(after.events)
    requires LastSeq(after.events) >= LastSeq(r.events) && (r.events != [] ==> after.events != [])
    ensures HolesKnown(after, waived)
  {
    hide Holes, Noted;
    EmptyHoldsNothing([]);
  }

  lemma {:induction false} WholePageTells(r: Replica, firstSeq: nat, fillStopped: bool, waived: set<nat>)
    requires WellKept(r) && HolesKnown(r, waived) && r.page.Some? && PageIsWhole(r, firstSeq)
    ensures var before := r.(page := None, pageBuffer := [], fillStopped := fillStopped,
                             pending := WithPage(r.pending, r.pageBuffer));
      HolesKnown(Settled(before).(windowStart := Some(firstSeq)), waived)
  {
    hide Content, Ascending, Distinct, Settled, WithPage, Holes, Stretch, GapsCounted, Seqs, Noted;
    var before := r.(page := None, pageBuffer := [], fillStopped := fillStopped, pending := WithPage(r.pending, r.pageBuffer));
    var after := Settled(before).(windowStart := Some(firstSeq));
    WithPageHolds(r.pending, r.pageBuffer);
    GapsAreTheirOwn(r, before);
    MergeKeepsGaps(before);
    SettledNotes(before);
    PageJoins(r, after, firstSeq, waived);
    KnownAsMerged(r, after, waived);
  }

  lemma SettleTells(r: Replica, waived: set<nat>)
    requires WellKept(r) && HolesKnown(r, waived)
    ensures HolesKnown(Settled(r), waived)
  {
    hide Content, Ascending, Distinct, Settled, Holes, Stretch, GapsCounted, Seqs, Noted;
    var bare := r.(page := None, pageBuffer := []);
    MergeKeepsGaps(r);
    SettledNotes(r);
    EmptyHoldsNothing([]);
    SameRunsSameHoles(r, bare, waived);
    SameHoles(r, bare);
    PageJoins(bare, Settled(r), r.windowStart.value, waived);
    KnownAsMerged(r, Settled(r), waived);
  }

  lemma PageEndTells(r: Replica, id: nat, firstSeq: nat, failed: bool, waived: set<nat>)
    requires WellKept(r) && HolesKnown(r, waived) && TellsHoles(r, PageEnds(id, firstSeq, failed))
    ensures HolesKnown(PageEnded(r, id, firstSeq, failed), waived)
  {
    hide WellKept, HolesKnown, Settled, WithPage;
    if r.page.Some? && r.page.value.id == id && !failed {
      WholePageTells(r, firstSeq, failed, waived);
    } else {
      SameRunsSameHoles(r, PageEnded(r, id, firstSeq, failed), waived);
    }
  }

  lemma SameRunsSameHoles(r: Replica, after: Replica, waived: set<nat>)
    requires HolesKnown(r, waived) && after.events == r.events && after.pending == r.pending
    requires after.missing == r.missing && after.windowStart == r.windowStart
    ensures HolesKnown(after, waived)
  {
  }

  /** A dismissed notice leaves its holes untold, and only those. */
  lemma DismissTells(r: Replica, waived: set<nat>)
    requires WellKept(r) && HolesKnown(r, waived)
    ensures HolesKnown(GapDismissed(r), Waived(r, waived, Dismiss))
  {
    hide WellKept, Holes, Seqs, Noted;
    var after := GapDismissed(r);
    SameHoles(r, after);
    NothingNoted(r.events);
    HolesAreBelow(r);
  }

  lemma NothingNoted(s: seq<Event>)
    ensures Noted(s, []) == {}
  {
  }

  lemma HolesAreBelow(r: Replica)
    requires r.windowStart.Some?
    ensures forall x | x in Holes(r) :: x < LastSeq(r.events)
    ensures r.events == [] ==> Holes(r) == {}
  {
    if r.events != [] { assert LastSeq(r.events) in Seqs(r.events); }
  }

  lemma StepTells(r: Replica, step: Step, waived: set<nat>)
    requires WellKept(r) && HolesKnown(r, waived) && TellsHoles(r, step)
    ensures HolesKnown(Stepped(r, step), Waived(r, waived, step))
  {
    hide WellKept, HolesKnown, Ingested, Settled, Windowed, PageEnded, GapDismissed, Holes, Stretch;
    match step
    case Arrive(e) => ArrivalTells(r, e, waived);
    case Settle => SettleTells(r, waived);
    case Window(daemonLast, keepEarlier) => WindowTells(r, daemonLast, keepEarlier, waived);
    case PageEnds(id, firstSeq, failed) => PageEndTells(r, id, firstSeq, failed, waived);
    case Dismiss => DismissTells(r, waived);
    case _ => SameRunsSameHoles(r, Stepped(r, step), waived);
  }

  lemma {:induction false} RunTells(r: Replica, steps: seq<Step>, waived: set<nat>)
    requires WellKept(r) && HolesKnown(r, waived) && RunTellsHoles(r, steps)
    ensures HolesKnown(Run(r, steps), RunWaived(r, waived, steps))
    decreases |steps|
  {
    hide WellKept, HolesKnown, TellsHoles, Stepped, Waived;
    if steps != [] {
      RunTells(r, steps[..|steps| - 1], waived);
      RunKeepsWell(r, steps[..|steps| - 1]);
      StepTells(Run(r, steps[..|steps| - 1]), steps[|steps| - 1], RunWaived(r, waived, steps[..|steps| - 1]));
    }
  }

  /**
   From a window on, the notice names exactly how many seqs of the window are missing,
   but for those dismissed and those beneath the event that came first, and goes when
   the last of them is filled; only the daemon's own resync notice stands in its place.
   A page cut short and a rewound log end the claim, until the next window.
   */
  lemma {:induction false} NoticeIsExact(r: Replica, daemonLast: nat, keepEarlier: bool, steps: seq<Step>)
    requires WellKept(r) && r.windowStart.None?
    requires RunTellsHoles(Windowed(r, daemonLast, keepEarlier), steps)
    ensures var after := Run(Windowed(r, daemonLast, keepEarlier), steps);
      && after.windowStart.Some?
      && var told := Holes(after) - RunWaived(Windowed(r, daemonLast, keepEarlier), {}, steps);
         && (told == {} ==> !after.gap.SequenceJump?)
         && (told != {} ==> after.gap == SequenceJump(|told|) || after.gap.DaemonResync?)
  {
    hide Content, Ascending, Distinct, Run, Windowed, Holes, RunTellsHoles, RunWaived, KeepsAsIs;
    var start := Windowed(r, daemonLast, keepEarlier);
    NoneKeepsNothing(r, daemonLast, keepEarlier);
    WindowTells(r, daemonLast, keepEarlier, {});
    WindowKeepsWell(r, daemonLast, keepEarlier);
    RunTells(start, steps, {});
    RunKeepsWell(start, steps);
    var after := Run(start, steps);
    TotalIsCount(after.events, after.missing, LastSeq(after.events));
    NoticeCounts(after, RunWaived(start, {}, steps));
  }

  lemma NoneKeepsNothing(r: Replica, daemonLast: nat, keepEarlier: bool)
    requires r.windowStart.None?
    ensures !KeepsAsIs(r, daemonLast, keepEarlier)
  {
  }

  lemma NoticeCounts(r: Replica, waived: set<nat>)
    requires GapsCounted(r) && HolesKnown(r, waived) && TotalLacking(r.events, r.missing) == |Noted(r.events, r.missing)|
    ensures Holes(r) - waived == {} ==> !r.gap.SequenceJump?
    ensures Holes(r) - waived != {} ==> r.gap == SequenceJump(|Holes(r) - waived|) || r.gap.DaemonResync?
  {
    hide Content, Ascending, Seqs, Lacking, Apart, Holes;
    if r.missing != [] { assert Noted(r.events, r.missing) >= Lacking(r.events, r.missing[|r.missing| - 1]); }
  }

  // --------------------------------------------- what a resume delivers

  /** The log's events from `from` to `upTo`, one after the other. */
  function Delivery(log: map<nat, Event>, from: nat, upTo: nat): seq<Step>
    requires forall x | from <= x <= upTo :: x in log
    decreases upTo
  {
    if upTo < from then [] else if upTo == 0 then [Arrive(log[0])]
    else Delivery(log, from, upTo - 1) + [Arrive(log[upTo])]
  }

  /** One event after the tail (or the window's first, into an empty window) leaves no hole behind it. */
  lemma NextArrivalExtends(r: Replica, e: Event)
    requires WellKept(r) && r.pending == [] && r.windowStart.Some?
    requires r.events != [] ==> Seqs(r.events) == Stretch(r.windowStart.value, LastSeq(r.events))
    requires e.at == if r.events == [] then r.windowStart.value else LastSeq(r.events) + 1
    ensures var after := Ingested(r, e);
      && after.events == r.events + [e] && after.pending == [] && after.windowStart == r.windowStart
      && after.missing == r.missing && after.gap == r.gap
      && Seqs(after.events) == Stretch(r.windowStart.value, e.at)
  {
    hide Content, Ascending, Distinct, GapsCounted, PageFits;
    Appended(r.events, e);
    EmptyHoldsNothing(r.events);
    if r.events != [] { LastIsGreatest(r.events); }
  }

  lemma {:induction false} DeliveryExtends(r: Replica, log: map<nat, Event>, from: nat, upTo: nat)
    requires WellKept(r) && r.pending == [] && r.windowStart.Some?
    requires r.events != [] ==> Seqs(r.events) == Stretch(r.windowStart.value, LastSeq(r.events))
    requires from == if r.events == [] then r.windowStart.value else LastSeq(r.events) + 1
    requires 1 <= from && forall x | from <= x <= upTo :: x in log && log[x].at == x
    ensures var after := Run(r, Delivery(log, from, upTo));
      && WellKept(after) && after.pending == [] && after.windowStart == r.windowStart
      && after.missing == r.missing && after.gap == r.gap
      && if upTo < from then after == r
         else after.events != [] && LastSeq(after.events) == upTo
              && Seqs(after.events) == Stretch(r.windowStart.value, upTo)
    decreases upTo
  {
    hide WellKept, Seqs, Stretch, Ingested;
    RunKeepsWell(r, Delivery(log, from, upTo));
    if from <= upTo {
      var before := Delivery(log, from, upTo - 1);
      DeliveryExtends(r, log, from, upTo - 1);
      OneMoreStep(r, before, Arrive(log[upTo]));
      NextArrivalExtends(Run(r, before), log[upTo]);
    }
  }

  /**
   A window set afresh, and the log delivered from where it says to resume, hold
   exactly the newest 500 of the log (more, when more was already held past it).
   */
  lemma {:induction false} ResumeFillsWindow(r: Replica, daemonLast: nat, keepEarlier: bool, log: map<nat, Event>)
    requires WellKept(r) && !KeepsAsIs(r, daemonLast, keepEarlier) && daemonLast > 0
    requires forall x | 1 <= x <= daemonLast :: x in log && log[x].at == x
    ensures var after := Run(Windowed(r, daemonLast, keepEarlier),
                             Delivery(log, ResumeAfter(r, daemonLast, keepEarlier) + 1, daemonLast));
      && after.windowStart == Some(if daemonLast > 500 then daemonLast - 499 else 1)
      && after.events != [] && LastSeq(after.events) >= daemonLast
      && Seqs(after.events) == Stretch(after.windowStart.value, LastSeq(after.events))
      && !after.gap.SequenceJump?
  {
    hide WellKept, Seqs, Stretch, Windowed, Run, Delivery, KeepsAsIs, ResumeAfter;
    var start, resume := Windowed(r, daemonLast, keepEarlier), ResumeAfter(r, daemonLast, keepEarlier);
    WindowIsWhole(r, daemonLast, keepEarlier);
    WindowKeepsWell(r, daemonLast, keepEarlier);
    DeliveryExtends(start, log, resume + 1, daemonLast);
  }

  /**
   A reconnect keeps the window, pages and all, and adds what was missed, unless more
   than a window was: then the newest 500 stand alone.
   */
  lemma {:induction false} ReconnectKeepsPages(r: Replica, daemonLast: nat, log: map<nat, Event>)
    requires WellKept(r) && r.pending == [] && r.events != [] && r.windowStart.Some?
    requires Seqs(r.events) == Stretch(r.windowStart.value, LastSeq(r.events)) && !r.gap.SequenceJump?
    requires daemonLast > 0 && forall x | 1 <= x <= daemonLast :: x in log && log[x].at == x
    ensures var after := Run(Windowed(r, daemonLast, true), Delivery(log, ResumeAfter(r, daemonLast, true) + 1, daemonLast));
      && after.windowStart == Some(if daemonLast <= LastSeq(r.events) + 500 then r.windowStart.value else daemonLast - 499)
      && after.events != [] && LastSeq(after.events) == Max(LastSeq(r.events), daemonLast)
      && Seqs(after.events) == Stretch(after.windowStart.value, LastSeq(after.events))
      && !after.gap.SequenceJump?
  {
    hide WellKept, Seqs, Stretch, Run, Delivery, HeldTo;
    if daemonLast <= LastSeq(r.events) + 500 {
      DeliveryExtends(r, log, LastSeq(r.events) + 1, daemonLast);
    } else {
      ResumeFillsWindow(r, daemonLast, true, log);
      DroppedWindowEnds(r, daemonLast);
      var start := Windowed(r, daemonLast, true);
      WindowIsWhole(r, daemonLast, true);
      WindowKeepsWell(r, daemonLast, true);
      DeliveryExtends(start, log, ResumeAfter(r, daemonLast, true) + 1, daemonLast);
    }
  }

  /** A tail more than a window behind is dropped. */
  lemma DroppedWindowEnds(r: Replica, daemonLast: nat)
    requires WellKept(r) && r.pending == [] && daemonLast > LastSeq(r.events) + 500
    ensures Windowed(r, daemonLast, true).events == [] && ResumeAfter(r, daemonLast, true) == daemonLast - 500
  {
    hide Content;
    var floor := FloorOf(daemonLast);
    BelowIsBelow(r.events, floor + 1);
    if Below(r.events, floor + 1) < |r.events| { InOrder(r.events, Below(r.events, floor + 1), |r.events| - 1); }
  }

  // --------------------------------------------- what a page brings is kept

  /** What may come while a page is on its way: the log's own events, merges, and the reader's acts. */
  predicate WhileWaiting(log: map<nat, Event>, step: Step) {
    match step
    case Arrive(e) => e.at in log && log[e.at] == e
    case Resync(_) => true
    case Settle => true
    case AskPage(_) => true
    case Dismiss => true
    case _ => false
  }

  /** All a copy has, drawn or waiting, for a merge or for the end of a page. */
  function Had(r: Replica): set<nat> { Seqs(r.events) + Seqs(r.pending) + Seqs(r.pageBuffer) }

  predicate IsOfLog(log: map<nat, Event>, r: Replica) {
    FromLog(log, r.events) && FromLog(log, r.pending) && FromLog(log, r.pageBuffer)
  }

  /** Of a run of the log's own events, which it has is which seqs it holds. */
  lemma OfLogBySeq(log: map<nat, Event>, s: seq<Event>)
    requires FromLog(log, s)
    ensures Seqs(s) <= log.Keys
    ensures forall e :: e in s <==> e.at in Seqs(s) && e.at in log && log[e.at] == e
  {
    hide Content;
    forall x | x in Seqs(s) ensures x in log && log[x] in s && log[x].at == x { var i := HeldSeqs(s, x); }
    forall e | e in s ensures e.at in Seqs(s) && log[e.at] == e {
      var i :| 0 <= i < |s| && s[i] == e;
      SeqIsHeld(s, i);
    }
  }

  lemma {:induction false} InsertIsOfLog(log: map<nat, Event>, s: seq<Event>, e: Event)
    requires FromLog(log, s) && e.at in log && log[e.at] == e
    ensures FromLog(log, Insert(s, e))
    decreases |s|
  {
    if s != [] && LastSeq(s) > e.at { InsertIsOfLog(log, s[..|s| - 1], e); }
  }

  lemma {:induction false} InsertAllIsOfLog(log: map<nat, Event>, s: seq<Event>, incoming: seq<Event>)
    requires FromLog(log, s) && FromLog(log, incoming)
    ensures FromLog(log, InsertAll(s, incoming))
    decreases |incoming|
  {
    hide Insert;
    if incoming != [] {
      InsertAllIsOfLog(log, s, incoming[..|incoming| - 1]);
      InsertIsOfLog(log, InsertAll(s, incoming[..|incoming| - 1]), incoming[|incoming| - 1]);
    }
  }

  lemma {:induction false} WithPageIsOfLog(log: map<nat, Event>, pending: seq<Event>, page: seq<Event>)
    requires FromLog(log, pending) && FromLog(log, page)
    ensures FromLog(log, WithPage(pending, page))
    decreases |page|
  {
    hide Content;
    if page != [] { WithPageIsOfLog(log, pending, page[..|page| - 1]); }
  }

  lemma MergeIsOfLog(r: Replica, log: map<nat, Event>)
    requires Ascending(r.events) && FromLog(log, r.events) && FromLog(log, r.pending)
    ensures var after := Settled(r);
      && Ascending(after.events) && FromLog(log, after.events) && after.pending == []
      && Seqs(after.events) == Seqs(r.events) + Seqs(r.pending)
      && after.page == r.page && after.pageBuffer == r.pageBuffer && after.windowStart == r.windowStart
  {
    hide Ascending, Insert, InsertAll, NewerFact, StillOpen, TotalLacking, Content, FromLog;
    EmptyHoldsNothing(r.pending);
    if r.pending != [] {
      SettledEvents(r);
      MergedIsKept(r.events, r.pending);
      assert FromLog(log, []) by { FromNothing(log); }
      InsertAllIsOfLog(log, [], r.pending);
      InsertAllIsOfLog(log, r.events, InsertAll([], r.pending));
    }
  }

  lemma FromNothing(log: map<nat, Event>)
    ensures FromLog(log, [])
  {
  }

  lemma ArrivalIsHad(r: Replica, log: map<nat, Event>, e: Event)
    requires IsOfLog(log, r) && e.at in log && log[e.at] == e
    requires r.page.Some? && r.windowStart == Some(r.page.value.before)
    ensures var after := Ingested(r, e);
      && IsOfLog(log, after) && after.page == r.page && after.windowStart == r.windowStart
      && Had(after) == Had(r) + if e.at + WINDOW_SIZE >= r.page.value.before then {e.at} else {}
  {
    hide Content, Noting, Seqs, FromLog, LastSeq;
    var after := Ingested(r, e);
    IngestShape(r, e);
    AppendedIsOfLog(log, r.events, e);
    AppendedIsOfLog(log, r.pending, e);
    AppendedIsOfLog(log, r.pageBuffer, e);
    HadGrows(r, after, e);
  }

  /** Where an arrival goes: to one of three runs, or nowhere new. */
  lemma IngestShape(r: Replica, e: Event)
    ensures var after := Ingested(r, e);
      && after.page == r.page && after.windowStart == r.windowStart
      && (after.events == r.events || after.events == r.events + [e])
      && (after.pending == r.pending || after.pending == r.pending + [e])
      && (after.pageBuffer == r.pageBuffer || after.pageBuffer == r.pageBuffer + [e])
    ensures r.page.Some? && r.windowStart == Some(r.page.value.before) && e.at + WINDOW_SIZE < r.page.value.before ==>
              Ingested(r, e) == r
    ensures r.page.Some? && r.windowStart == Some(r.page.value.before) && e.at + WINDOW_SIZE >= r.page.value.before ==>
              var after := Ingested(r, e);
              || e.at in Seqs(r.pending) || e.at in Seqs(r.events)
              || after.events == r.events + [e] || after.pending == r.pending + [e] || after.pageBuffer == r.pageBuffer + [e]
  {
    hide Seqs, StillOpen, TotalLacking;
  }

  lemma HadGrows(r: Replica, after: Replica, e: Event)
    requires after.events == r.events || after.events == r.events + [e]
    requires after.pending == r.pending || after.pending == r.pending + [e]
    requires after.pageBuffer == r.pageBuffer || after.pageBuffer == r.pageBuffer + [e]
    ensures Had(after) == Had(r) || Had(after) == Had(r) + {e.at}
    ensures after.events == r.events + [e] || after.pending == r.pending + [e] || after.pageBuffer == r.pageBuffer + [e]
            ==> e.at in Had(after)
  {
    hide Seqs, Content;
    OneMoreSeqHeld(r.events, after.events, e);
    OneMoreSeqHeld(r.pending, after.pending, e);
    OneMoreSeqHeld(r.pageBuffer, after.pageBuffer, e);
  }

  lemma OneMoreSeqHeld(s: seq<Event>, t: seq<Event>, e: Event)
    requires t == s || t == s + [e]
    ensures forall x :: x in Seqs(t) <==> x in Seqs(s) || (t == s + [e] && x == e.at)
  {
    hide Seqs, Content;
    if t == s + [e] { Appended(s, e); } else { assert t == s && |s + [e]| > |s|; }
  }

  lemma AppendedIsOfLog(log: map<nat, Event>, s: seq<Event>, e: Event)
    requires FromLog(log, s) && e.at in log && log[e.at] == e
    ensures FromLog(log, s + [e])
  {
  }

  lemma WaitingStep(r: Replica, log: map<nat, Event>, step: Step)
    requires WellKept(r) && IsOfLog(log, r) && r.page.Some? && r.windowStart == Some(r.page.value.before)
    requires WhileWaiting(log, step)
    ensures var after := Stepped(r, step);
      && IsOfLog(log, after) && after.page == r.page && after.windowStart == r.windowStart
      && Had(after) == Had(r) + if step.Arrive? && step.e.at + WINDOW_SIZE >= r.page.value.before then {step.e.at} else {}
  {
    hide WellKept, Ingested, Settled, Seqs, FromLog;
    RunsAreKept(r);
    EmptyHoldsNothing([]);
    FromNothing(log);
    if step.Arrive? { ArrivalIsHad(r, log, step.e); }
    if step.Settle? { MergeIsOfLog(r, log); }
  }

  /** A step that brings `x` to a window starting at `start`, or to the page asked for below it. */
  predicate Brings(step: Step, x: nat, start: nat) {
    step.Arrive? && step.e.at == x && x + WINDOW_SIZE >= start
  }

  /** While a page is on its way, all that comes for it, or for the window, is had. */
  lemma {:induction false} WaitingHas(r: Replica, log: map<nat, Event>, steps: seq<Step>)
    requires WellKept(r) && IsOfLog(log, r) && r.page.Some? && r.windowStart == Some(r.page.value.before)
    requires forall i | 0 <= i < |steps| :: WhileWaiting(log, steps[i])
    ensures var after := Run(r, steps);
      && WellKept(after) && IsOfLog(log, after) && after.page == r.page && after.windowStart == r.windowStart
      && forall x :: x in Had(after) <==>
           x in Had(r) || exists i | 0 <= i < |steps| :: Brings(steps[i], x, r.page.value.before)
    decreases |steps|
  {
    hide WellKept, IsOfLog, Had, Stepped, WhileWaiting;
    RunKeepsWell(r, steps);
    if steps != [] {
      var front, last, start := steps[..|steps| - 1], steps[|steps| - 1], r.page.value.before;
      WaitingHas(r, log, front);
      WaitingStep(Run(r, front), log, last);
      forall x
        ensures (exists i | 0 <= i < |steps| :: Brings(steps[i], x, start))
           <==> Brings(last, x, start) || exists i | 0 <= i < |front| :: Brings(front[i], x, start)
      {
        if i :| 0 <= i < |steps| && Brings(steps[i], x, start) {
          if i < |front| { assert Brings(front[i], x, start); }
        }
        if i :| 0 <= i < |front| && Brings(front[i], x, start) { assert Brings(steps[i], x, start); }
        if Brings(last, x, start) { assert Brings(steps[|steps| - 1], x, start); }
      }
    }
  }

  lemma PageEndMerges(r: Replica, log: map<nat, Event>, firstSeq: nat)
    requires WellKept(r) && IsOfLog(log, r) && r.page.Some?
    ensures var after := PageEnded(r, r.page.value.id, firstSeq, false);
      && after.windowStart == Some(firstSeq) && after.page == None && after.pageBuffer == [] && after.pending == []
      && Ascending(after.events) && FromLog(log, after.events) && Seqs(after.events) == Had(r)
  {
    hide Content, Ascending, Distinct, Settled, WithPage, GapsCounted, Seqs, FromLog;
    WithPageHolds(r.pending, r.pageBuffer);
    WithPageIsOfLog(log, r.pending, r.pageBuffer);
    MergeIsOfLog(r.(page := None, pageBuffer := [], fillStopped := false, pending := WithPage(r.pending, r.pageBuffer)), log);
  }

  /**
   **A page asked for is kept, and nothing else changes what is held.** Once it ends, a
   copy of a log holds exactly the events it held or had waiting, and each event that came
   while it waited, in any order among merges and the reader's acts, that is the window's
   or within a page below it; and the window starts where the page said.
   */
  lemma {:induction false} PageIsKept(r: Replica, log: map<nat, Event>, id: nat, steps: seq<Step>, firstSeq: nat)
    requires WellKept(r) && r.page == None && r.windowStart.Some? && r.windowStart.value > 1
    requires forall e | e in r.events || e in r.pending :: e.at in log && log[e.at] == e
    requires forall i | 0 <= i < |steps| :: WhileWaiting(log, steps[i])
    ensures var after := Run(r, [AskPage(id)] + steps + [PageEnds(id, firstSeq, false)]);
      && after.windowStart == Some(firstSeq) && after.page == None && after.pending == [] && after.pageBuffer == []
      && (forall e :: e in after.events <==>
            || e in r.events || e in r.pending
            || (exists i | 0 <= i < |steps| :: steps[i] == Arrive(e) && e.at + 500 >= r.windowStart.value))
      && forall i, j | 0 <= i < j < |after.events| :: after.events[i].at < after.events[j].at
  {
    hide WellKept, Ingested, Settled, PageEnded, WhileWaiting, Seqs;
    var start := r.windowStart.value;
    var asked := PageBegun(r, id);
    StepKeepsWell(r, AskPage(id));
    NoPageWaits(r);
    EmptyHoldsNothing([]);
    WaitingHas(asked, log, steps);
    var before := Run(asked, steps);
    PageEndMerges(before, log, firstSeq);
    var after := PageEnded(before, id, firstSeq, false);
    RunFrom(r, AskPage(id), steps);
    OneMoreStep(r, [AskPage(id)] + steps, PageEnds(id, firstSeq, false));
    OfLogBySeq(log, after.events);
    OfLogBySeq(log, r.events);
    OfLogBySeq(log, r.pending);
    forall e
      ensures e in after.events <==>
        || e in r.events || e in r.pending
        || (exists i | 0 <= i < |steps| :: steps[i] == Arrive(e) && e.at + 500 >= start)
    {
      if e in after.events && e !in r.events && e !in r.pending {
        assert e.at in Had(before) && e.at !in Had(asked);
        var i :| 0 <= i < |steps| && Brings(steps[i], e.at, start);
        ComesFromLog(log, steps[i]);
      }
      if i :| 0 <= i < |steps| && steps[i] == Arrive(e) && e.at + 500 >= start {
        ComesFromLog(log, steps[i]);
        assert Brings(steps[i], e.at, start);
      }
    }
    forall i, j | 0 <= i < j < |after.events| ensures after.events[i].at < after.events[j].at { InOrder(after.events, i, j); }
  }

  lemma ComesFromLog(log: map<nat, Event>, step: Step)
    requires WhileWaiting(log, step)
    ensures step.Arrive? ==> step.e.at in log && log[step.e.at] == step.e
  {
  }

  lemma NoPageWaits(r: Replica)
    requires WellKept(r) && r.page == None
    ensures r.pageBuffer == []
  {
  }

  lemma {:induction false} RunFrom(r: Replica, first: Step, steps: seq<Step>)
    ensures Run(r, [first] + steps) == Run(Stepped(r, first), steps)
    decreases |steps|
  {
    hide Stepped;
    if steps == [] {
      OneMoreStep(r, [], first);
      assert [first] + steps == [] + [first];
    } else {
      RunFrom(r, first, steps[..|steps| - 1]);
      OneMoreStep(r, [first] + steps[..|steps| - 1], steps[|steps| - 1]);
      assert [first] + steps == [first] + steps[..|steps| - 1] + [steps[|steps| - 1]];
    }
  }

  /** A whole page, delivered in any order, fills the window down to its first seq. */
  lemma {:induction false} WholePageIsKept(r: Replica, log: map<nat, Event>, id: nat, steps: seq<Step>, firstSeq: nat)
    requires WellKept(r) && r.page == None && r.windowStart.Some?
    requires 1 <= firstSeq < r.windowStart.value <= firstSeq + 500
    requires forall e | e in r.events || e in r.pending :: e.at in log && log[e.at] == e
    requires forall i | 0 <= i < |steps| :: WhileWaiting(log, steps[i])
    requires forall x | firstSeq <= x < r.windowStart.value :: x in log && log[x].at == x && Arrive(log[x]) in steps
    ensures var after := Run(r, [AskPage(id)] + steps + [PageEnds(id, firstSeq, false)]);
      && after.windowStart == Some(firstSeq)
      && (forall x | firstSeq <= x < r.windowStart.value :: log[x] in after.events)
      && (forall e | e in r.events :: e in after.events)
      && (forall e | Arrive(e) in steps && e.at >= r.windowStart.value :: e in after.events)
  {
    hide WellKept, Run, WhileWaiting;
    PageIsKept(r, log, id, steps, firstSeq);
    forall e | Arrive(e) in steps && e.at + 500 >= r.windowStart.value
      ensures exists i | 0 <= i < |steps| :: steps[i] == Arrive(e) && e.at + 500 >= r.windowStart.value
    {
      var i :| 0 <= i < |steps| && steps[i] == Arrive(e);
    }
  }
}
