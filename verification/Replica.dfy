/**
 The phone's copy of one session's log: `SessionState`'s ingest, merge, window,
 page and gap rules (CodeConnectKit/Sources/CodeConnectKit/SessionState.swift).

 `Replica` is the state as a value and its functions are what each entry point
 does to it; `SessionLog` is the object the app holds, whose methods merge,
 search and filter with the loops the app runs and are proved to do the same.
 */
module Replica {
  import opened Wrappers

  const WINDOW_SIZE: nat := 500

  /** An event of the daemon's log: its seq, and what it says about the model in force. */
  datatype Event = Event(at: nat, fact: Option<string>, body: string)

  datatype Range = Range(lo: nat, hi: nat)

  datatype Gap = NoGap | DaemonResync(skipped: Option<nat>) | SequenceJump(missing: nat) | LogRewound

  datatype Page = Page(id: nat, before: nat)

  datatype Replica = Replica(
    events: seq<Event>,
    pending: seq<Event>,
    missing: seq<Range>,
    gap: Gap,
    windowStart: Option<nat>,
    page: Option<Page>,
    pageBuffer: seq<Event>,
    fillStopped: bool,
    fact: Option<string>,
    factAt: nat)

  // ------------------------------------------------------- ordered event runs

  /** Each event's seq is above the one before it. */
  predicate Ascending(s: seq<Event>) {
    |s| <= 1 || (s[|s| - 2].at < s[|s| - 1].at && Ascending(s[..|s| - 1]))
  }

  /** No two events of a run share a seq. */
  predicate Distinct(s: seq<Event>) {
    s == [] || (Distinct(s[..|s| - 1]) && s[|s| - 1].at !in Seqs(s[..|s| - 1]))
  }

  /** What a run holds, by seq. */
  function Content(s: seq<Event>): (m: map<nat, Event>)
    ensures forall x | x in m :: m[x].at == x
  {
    if s == [] then map[] else Content(s[..|s| - 1])[s[|s| - 1].at := s[|s| - 1]]
  }

  function Seqs(s: seq<Event>): set<nat> { Content(s).Keys }

  function LastSeq(s: seq<Event>): nat { if s == [] then 0 else s[|s| - 1].at }

  /** The number of events of an ascending run with a seq below `key`. */
  function Below(s: seq<Event>, key: nat): (r: nat)
    ensures r <= |s|
  {
    if s == [] then 0
    else if s[|s| - 1].at < key then |s|
    else Below(s[..|s| - 1], key)
  }

  /** One event put in its place in an ascending run; a seq already held keeps what it holds. */
  function Insert(s: seq<Event>, e: Event): seq<Event> {
    if s == [] || LastSeq(s) < e.at then s + [e]
    else if LastSeq(s) == e.at then s
    else Insert(s[..|s| - 1], e) + [s[|s| - 1]]
  }

  /** Events inserted one at a time, in the order given. */
  function InsertAll(s: seq<Event>, incoming: seq<Event>): seq<Event> {
    if incoming == [] then s
    else Insert(InsertAll(s, incoming[..|incoming| - 1]), incoming[|incoming| - 1])
  }

  // ------------------------------------------------------------------- gaps

  function Stretch(lo: nat, hi: nat): (r: set<nat>)
    ensures forall x :: x in r <==> lo <= x <= hi
    ensures |r| == if lo <= hi then hi - lo + 1 else 0
    decreases hi
  {
    if hi < lo then {} else if hi == 0 then {0} else Stretch(lo, hi - 1) + {hi}
  }

  /** The seqs of a range that `s` does not hold. */
  function Lacking(s: seq<Event>, range: Range): set<nat> {
    Stretch(range.lo, range.hi) - Seqs(s)
  }

  function TotalLacking(s: seq<Event>, ranges: seq<Range>): nat {
    if ranges == [] then 0
    else TotalLacking(s, ranges[..|ranges| - 1]) + |Lacking(s, ranges[|ranges| - 1])|
  }

  function StillOpen(s: seq<Event>, ranges: seq<Range>): seq<Range> {
    if ranges == [] then []
    else
      StillOpen(s, ranges[..|ranges| - 1])
      + if Lacking(s, ranges[|ranges| - 1]) == {} then [] else [ranges[|ranges| - 1]]
  }

  function Noting(r: Replica, range: Range): Replica {
    var open := StillOpen(r.events, r.missing + [range]);
    r.(missing := open, gap := SequenceJump(TotalLacking(r.events, open)))
  }

  function Reconciled(r: Replica): Replica {
    if r.missing == [] then r
    else
      var open := StillOpen(r.events, r.missing);
      if !r.gap.SequenceJump? then r.(missing := open)
      else if open == [] then r.(missing := [], gap := NoGap)
      else r.(missing := open, gap := SequenceJump(TotalLacking(r.events, open)))
  }

  // ------------------------------------------------------------ entry points

  /** The newer fact, by seq, of the one held and those a merge brings. */
  function NewerFact(fact: Option<string>, factAt: nat, incoming: seq<Event>): (Option<string>, nat) {
    if incoming == [] then (fact, factAt)
    else
      var (f, at) := NewerFact(fact, factAt, incoming[..|incoming| - 1]);
      var e := incoming[|incoming| - 1];
      if e.at > at && e.fact.Some? then (e.fact, e.at) else (f, at)
  }

  function Settled(r: Replica): Replica {
    if r.pending == [] then r
    else
      var incoming := InsertAll([], r.pending);
      var (f, at) := NewerFact(r.fact, r.factAt, incoming);
      Reconciled(r.(events := InsertAll(r.events, incoming), pending := [], fact := f, factAt := at))
  }

  function Ingested(r: Replica, e: Event): Replica {
    if r.windowStart.Some? && e.at < r.windowStart.value then
      if r.page.Some? && e.at + WINDOW_SIZE >= r.page.value.before
      then r.(pageBuffer := r.pageBuffer + [e]) else r
    else if r.events != [] && e.at <= LastSeq(r.events) then
      if e.at in Seqs(r.pending) || e.at in Seqs(r.events) then r
      else r.(pending := r.pending + [e])
    else
      var noted := if r.events != [] && e.at > LastSeq(r.events) + 1
                   then Noting(r, Range(LastSeq(r.events) + 1, e.at - 1)) else r;
      var placed := noted.(events := r.events + [e]);
      if e.fact.Some? then placed.(fact := e.fact, factAt := e.at) else placed
  }

  function Resynced(r: Replica, skipped: Option<nat>): Replica {
    r.(gap := DaemonResync(skipped))
  }

  function FloorOf(daemonLast: nat): nat {
    if daemonLast > WINDOW_SIZE then daemonLast - WINDOW_SIZE else 0
  }

  /** What is left of a run is the window from `floor + 1` to its own tail, with no hole. */
  predicate Covers(kept: seq<Event>, floor: nat) {
    kept != [] && kept[0].at == floor + 1 && kept[|kept| - 1].at - floor == |kept|
  }

  predicate KeepsAsIs(r: Replica, daemonLast: nat, keepEarlier: bool) {
    keepEarlier && r.windowStart.Some? && LastSeq(r.events) >= FloorOf(daemonLast)
  }

  /** A settled copy, held to the window whose floor is given. */
  function HeldTo(merged: Replica, floor: nat): Replica {
    var kept := merged.events[Below(merged.events, floor + 1)..];
    var dropsPage := merged.windowStart != Some(floor + 1);
    merged.(
      events := if Covers(kept, floor) then kept else [],
      page := if dropsPage then None else merged.page,
      pageBuffer := if dropsPage then [] else merged.pageBuffer,
      windowStart := Some(floor + 1),
      fillStopped := false,
      missing := [],
      gap := if merged.gap.SequenceJump? then NoGap else merged.gap)
  }

  function Windowed(r: Replica, daemonLast: nat, keepEarlier: bool): Replica {
    if KeepsAsIs(r, daemonLast, keepEarlier) then r else HeldTo(Settled(r), FloorOf(daemonLast))
  }

  /** Where the subscription resumes once the window is applied. */
  function ResumeAfter(r: Replica, daemonLast: nat, keepEarlier: bool): nat {
    var after := Windowed(r, daemonLast, keepEarlier);
    if KeepsAsIs(r, daemonLast, keepEarlier) || after.events != [] then LastSeq(after.events) else FloorOf(daemonLast)
  }

  function PageBegun(r: Replica, id: nat): Replica {
    if r.page.Some? || r.windowStart.None? || r.windowStart.value <= 1 then r
    else r.(page := Some(Page(id, r.windowStart.value)))
  }

  /** The page's events, each seq once, behind whatever was already waiting. */
  function WithPage(pending: seq<Event>, page: seq<Event>): seq<Event> {
    if page == [] then pending
    else
      var before := WithPage(pending, page[..|page| - 1]);
      var e := page[|page| - 1];
      if e.at in Seqs(before) then before else before + [e]
  }

  function PageEnded(r: Replica, id: nat, firstSeq: nat, failed: bool): Replica {
    if r.page.None? || r.page.value.id != id then r
    else
      var ended := r.(page := None, pageBuffer := [], fillStopped := failed);
      if failed then ended
      else Settled(ended.(pending := WithPage(r.pending, r.pageBuffer))).(windowStart := Some(firstSeq))
  }

  function PageCancelled(r: Replica): Replica { r.(page := None, pageBuffer := []) }

  function GapDismissed(r: Replica): Replica { r.(gap := NoGap, missing := []) }

  const Empty: Replica := Replica([], [], [], NoGap, None, None, [], false, None, 0)

  function Rewound(r: Replica): Replica { Empty.(gap := LogRewound, fillStopped := r.fillStopped) }

  // -------------------------------------------------------- what always holds

  /** Noted ranges lie apart, in order, all below `bound`. */
  predicate Apart(ranges: seq<Range>, bound: nat) {
    ranges == []
    || (var last := ranges[|ranges| - 1];
        last.lo <= last.hi < bound && Apart(ranges[..|ranges| - 1], last.lo))
  }

  /** Every noted range still lacks something. */
  predicate AllOpen(s: seq<Event>, ranges: seq<Range>) {
    ranges == [] || (AllOpen(s, ranges[..|ranges| - 1]) && Lacking(s, ranges[|ranges| - 1]) != {})
  }

  /** Held runs are ordered; what waits is below the tail, new, and each seq once. */
  predicate RunsKept(r: Replica) {
    && Ascending(r.events)
    && Distinct(r.pending)
    && (forall x | x in Seqs(r.pending) :: x < LastSeq(r.events) && x !in Seqs(r.events))
  }

  /** A page in flight lies right below the window, and only its own events wait for its end. */
  predicate PageFits(r: Replica) {
    if r.page.None? then r.pageBuffer == []
    else
      && r.windowStart == Some(r.page.value.before)
      && (forall x | x in Seqs(r.pageBuffer) :: x < r.page.value.before <= x + WINDOW_SIZE)
  }

  /** The notice counts what the noted ranges still lack, and stands only while they lack something. */
  predicate GapsCounted(r: Replica) {
    && Apart(r.missing, LastSeq(r.events))
    && AllOpen(r.events, r.missing)
    && (r.gap.SequenceJump? ==> r.missing != [] && r.gap.missing == TotalLacking(r.events, r.missing))
    && (r.missing != [] ==> r.gap.SequenceJump? || r.gap.DaemonResync?)
  }

  predicate WellKept(r: Replica) {
    RunsKept(r) && PageFits(r) && GapsCounted(r)
  }

  // ------------------------------------------------------------- the object

  class SessionLog {
    var events: seq<Event>
    var pendingMerge: seq<Event>
    var pendingSeqs: set<nat>
    var missingRanges: seq<Range>
    var gap: Gap
    var windowStart: Option<nat>
    var pageRequest: Option<Page>
    var pageBuffer: seq<Event>
    var fillStopped: bool
    var fact: Option<string>
    var factAt: nat

    ghost predicate Valid()
      reads this
    {
      WellKept(Value()) && pendingSeqs == Seqs(pendingMerge)
    }

    ghost function Value(): Replica
      reads this
    {
      Replica(events, pendingMerge, missingRanges, gap, windowStart, pageRequest, pageBuffer, fillStopped, fact, factAt)
    }

    constructor ()
      ensures Valid() && Value() == Empty
    {
      events, pendingMerge, pendingSeqs, missingRanges := [], [], {}, [];
      gap, windowStart, pageRequest, pageBuffer := NoGap, None, None, [];
      fillStopped, fact, factAt := false, None, 0;
    }

    /** `partitionPoint`, for the predicate `seq < key`. */
    static method PartitionPoint(s: seq<Event>, key: nat) returns (low: nat)
      requires Ascending(s)
      ensures low == Below(s, key)
    {
      low := 0;
      var high := |s|;
      while low < high
        invariant low <= Below(s, key) <= high <= |s|
      {
        var mid := low + (high - low) / 2;
        BelowSplits(s, key, mid);
        if s[mid].at < key { low := mid + 1; } else { high := mid; }
      }
    }

    /** `holds(seq:)`. */
    static method Holds(s: seq<Event>, key: nat) returns (held: bool)
      requires Ascending(s)
      ensures held <==> key in Seqs(s)
    {
      var index := PartitionPoint(s, key);
      HeldAtBelow(s, key);
      held := index < |s| && s[index].at == key;
    }

    /** `missingCount(in:)`: the distance between two ends, no scan. */
    static method MissingCount(s: seq<Event>, range: Range) returns (count: nat)
      requires Ascending(s) && range.lo <= range.hi
      ensures count == |Lacking(s, range)|
    {
      var lower := PartitionPoint(s, range.lo);
      var upper := PartitionPoint(s, range.hi + 1);
      LackingIsADistance(s, range);
      count := (range.hi - range.lo + 1) - (upper - lower);
    }

    /** `merged`: two ascending runs into one, the first winning a seq both hold. */
    static method Merged(existing: seq<Event>, incoming: seq<Event>) returns (out: seq<Event>)
      requires Ascending(existing) && Ascending(incoming)
      ensures out == InsertAll(existing, incoming)
    {
      hide Content, Ascending, InsertAll, MergedSoFar;
      out := [];
      var left, right := 0, 0;
      MergeStarts(existing, incoming);
      while left < |existing| && right < |incoming|
        invariant left <= |existing| && right <= |incoming|
        invariant MergedSoFar(out, existing, left, incoming, right)
      {
        var lhs, rhs := existing[left], incoming[right];
        if lhs.at < rhs.at {
          MergeTakesLeft(out, existing, left, incoming, right);
          out, left := out + [lhs], left + 1;
        } else if lhs.at > rhs.at {
          MergeTakesRight(out, existing, left, incoming, right);
          out, right := out + [rhs], right + 1;
        } else {
          MergeTakesBoth(out, existing, left, incoming, right);
          out, left, right := out + [lhs], left + 1, right + 1;
        }
      }
      if left == |existing| {
        MergeEndsRight(out, existing, incoming, right);
        assert existing[left..] == [];
      } else {
        MergeEndsLeft(out, existing, left, incoming);
        assert incoming[right..] == [];
      }
      out := out + existing[left..] + incoming[right..];
    }

    /** `sorted`, by seq. */
    static method Sorted(s: seq<Event>) returns (out: seq<Event>)
      ensures out == InsertAll([], s)
    {
      out := [];
      for i := 0 to |s|
        invariant out == InsertAll([], s[..i])
      {
        assert s[..i + 1][..i] == s[..i];
        out := Insert(out, s[i]);
      }
      assert s[..|s|] == s;
    }

    /** `missingRanges.removeAll { missingCount(in: $0) == 0 }` */
    static method DropFilled(s: seq<Event>, ranges: seq<Range>) returns (open: seq<Range>)
      requires Ascending(s) && forall i | 0 <= i < |ranges| :: ranges[i].lo <= ranges[i].hi
      ensures open == StillOpen(s, ranges)
    {
      open := [];
      for i := 0 to |ranges|
        invariant open == StillOpen(s, ranges[..i])
      {
        var count := MissingCount(s, ranges[i]);
        assert ranges[..i + 1][..i] == ranges[..i];
        if count != 0 { open := open + [ranges[i]]; }
      }
      assert ranges[..|ranges|] == ranges;
    }

    /** `totalMissing` */
    static method TotalMissing(s: seq<Event>, ranges: seq<Range>) returns (total: nat)
      requires Ascending(s) && forall i | 0 <= i < |ranges| :: ranges[i].lo <= ranges[i].hi
      ensures total == TotalLacking(s, ranges)
    {
      total := 0;
      for i := 0 to |ranges|
        invariant total == TotalLacking(s, ranges[..i])
      {
        var count := MissingCount(s, ranges[i]);
        assert ranges[..i + 1][..i] == ranges[..i];
        total := total + count;
      }
      assert ranges[..|ranges|] == ranges;
    }

    method Ingest(e: Event)
      requires Valid()
      modifies this
      ensures Valid() && Value() == Ingested(old(Value()), e)
    {
      hide Content, Ascending, InsertAll, Distinct, Apart, AllOpen, StillOpen, TotalLacking, Lacking;
      ghost var r := Value();
      IngestKeepsWell(r, e);
      if windowStart.Some? && e.at < windowStart.value {
        if pageRequest.Some? && e.at + WINDOW_SIZE >= pageRequest.value.before { pageBuffer := pageBuffer + [e]; }
        return;
      }
      if events != [] && e.at <= events[|events| - 1].at {
        var held := Holds(events, e.at);
        if e.at in pendingSeqs || held { return; }
        Appended(pendingMerge, e);
        pendingMerge, pendingSeqs := pendingMerge + [e], pendingSeqs + {e.at};
      } else {
        if events != [] && e.at > events[|events| - 1].at + 1 {
          NoteMissing(Range(events[|events| - 1].at + 1, e.at - 1));
        }
        events := events + [e];
        if e.fact.Some? { fact, factAt := e.fact, e.at; }
      }
    }

    method NoteMissing(range: Range)
      requires RunsKept(Value()) && Apart(missingRanges, LastSeq(events)) && range.lo <= range.hi
      modifies `missingRanges, `gap
      ensures Value() == Noting(old(Value()), range)
    {
      hide Content, Ascending, Distinct, Apart, AllOpen, Seqs, Below, Lacking;
      RangesAreProper(missingRanges, LastSeq(events));
      missingRanges := DropFilled(events, missingRanges + [range]);
      StillOpenIsSome(events, old(missingRanges) + [range]);
      var total := TotalMissing(events, missingRanges);
      gap := SequenceJump(total);
    }

    method ReconcileGap()
      requires Ascending(events) && Apart(missingRanges, LastSeq(events))
      modifies `missingRanges, `gap
      ensures Value() == Reconciled(old(Value()))
    {
      if missingRanges == [] { return; }
      RangesAreProper(missingRanges, LastSeq(events));
      missingRanges := DropFilled(events, missingRanges);
      StillOpenIsSome(events, old(missingRanges));
      if !gap.SequenceJump? { return; }
      if missingRanges == [] {
        gap := NoGap;
      } else {
        var total := TotalMissing(events, missingRanges);
        gap := SequenceJump(total);
      }
    }

    /** The loop over what a merge brings: a fact is taken only above the one held. */
    method TakeFacts(incoming: seq<Event>)
      modifies `fact, `factAt
      ensures (fact, factAt) == NewerFact(old(fact), old(factAt), incoming)
    {
      for i := 0 to |incoming|
        invariant (fact, factAt) == NewerFact(old(fact), old(factAt), incoming[..i])
      {
        assert incoming[..i + 1][..i] == incoming[..i];
        var e := incoming[i];
        if e.at > factAt && e.fact.Some? { fact, factAt := e.fact, e.at; }
      }
      assert incoming[..|incoming|] == incoming;
    }

    method MergePending()
      requires Ascending(events) && Apart(missingRanges, LastSeq(events)) && pendingSeqs == Seqs(pendingMerge)
      modifies this
      ensures Value() == Settled(old(Value()))
      ensures pendingSeqs == {} && (pendingMerge == [])
    {
      hide Content, Ascending, InsertAll, Distinct, Apart, AllOpen, StillOpen, TotalLacking, Lacking;
      EmptyHoldsNothing(pendingMerge);
      if pendingMerge == [] { return; }
      var incoming := Sorted(pendingMerge);
      MergedIsKept(events, pendingMerge);
      ApartBelow(missingRanges, LastSeq(events), LastSeq(InsertAll(events, incoming)));
      pendingMerge, pendingSeqs := [], {};
      events := Merged(events, incoming);
      TakeFacts(incoming);
      ReconcileGap();
    }

    /** After the merge: events that do not fill the window up to their own tail are let go. */
    method HoldTo(floor: nat)
      requires Ascending(events)
      modifies `events, `pageRequest, `pageBuffer, `windowStart, `fillStopped, `missingRanges, `gap
      ensures Value() == HeldTo(old(Value()), floor)
    {
      hide Ascending, Below, Content, Seqs;
      var below := PartitionPoint(events, floor + 1);
      ghost var r := Value();
      var kept := events[below..];
      assert kept == r.events[Below(r.events, floor + 1)..];
      var covers := kept != [] && kept[0].at == floor + 1 && kept[|kept| - 1].at - floor == |kept|;
      var drops := windowStart != Some(floor + 1);
      events, pageRequest, pageBuffer, windowStart, fillStopped, missingRanges, gap :=
        if covers then kept else [], if drops then None else pageRequest, if drops then [] else pageBuffer,
        Some(floor + 1), false, [], if gap.SequenceJump? then NoGap else gap;
    }

    method ApplyWindow(daemonLast: nat, keepEarlier: bool) returns (resumeAfter: nat)
      requires Valid()
      modifies this
      ensures Valid() && Value() == Windowed(old(Value()), daemonLast, keepEarlier)
      ensures resumeAfter == ResumeAfter(old(Value()), daemonLast, keepEarlier)
    {
      hide Content, Ascending, InsertAll, Distinct, Apart, WellKept, Settled, GapsCounted, HeldTo;
      ghost var r := Value();
      WindowKeepsWell(r, daemonLast, keepEarlier);
      WellKeptParts(r);
      var floor := if daemonLast > WINDOW_SIZE then daemonLast - WINDOW_SIZE else 0;
      var lastSeq := if events == [] then 0 else events[|events| - 1].at;
      if keepEarlier && windowStart.Some? && lastSeq >= floor { return lastSeq; }
      MergePending();
      MergeKeepsWell(r);
      WellKeptParts(Value());
      HoldTo(floor);
      resumeAfter := if events != [] then events[|events| - 1].at else floor;
      EmptyHoldsNothing(pendingMerge);
      HeldToKeepsPending(Settled(r), floor);
    }

    method BeginPage(id: nat) returns (asked: Option<Page>)
      requires Valid()
      modifies this`pageRequest
      ensures Valid() && Value() == PageBegun(old(Value()), id)
      ensures asked == if Value() == old(Value()) then None else pageRequest
    {
      if pageRequest.Some? || windowStart.None? || windowStart.value <= 1 { return None; }
      pageRequest := Some(Page(id, windowStart.value));
      asked := pageRequest;
    }

    /** The page's events, each seq once, behind whatever was already waiting. */
    method QueuePage(page: seq<Event>)
      requires pendingSeqs == Seqs(pendingMerge)
      modifies `pendingMerge, `pendingSeqs
      ensures pendingMerge == WithPage(old(pendingMerge), page) && pendingSeqs == Seqs(pendingMerge)
    {
      hide Content, Seqs;
      for i := 0 to |page|
        invariant pendingMerge == WithPage(old(pendingMerge), page[..i]) && pendingSeqs == Seqs(pendingMerge)
      {
        assert page[..i + 1][..i] == page[..i];
        if page[i].at !in pendingSeqs {
          Appended(pendingMerge, page[i]);
          pendingMerge, pendingSeqs := pendingMerge + [page[i]], pendingSeqs + {page[i].at};
        }
      }
      assert page[..|page|] == page;
    }

    method EndHistory(id: nat, firstSeq: nat, failed: bool)
      requires Valid()
      modifies this
      ensures Valid() && Value() == PageEnded(old(Value()), id, firstSeq, failed)
    {
      hide Content, Ascending, InsertAll, Distinct, Apart, AllOpen, StillOpen, TotalLacking, Lacking, Below, WellKept, Settled, Seqs, GapsCounted, RunsKept, PageFits;
      ghost var r := Value();
      PageEndKeepsWell(r, id, firstSeq, failed);
      WellKeptParts(r);
      if pageRequest.None? || pageRequest.value.id != id { return; }
      var page := pageBuffer;
      pageRequest, pageBuffer, fillStopped := None, [], failed;
      if failed { return; }
      QueuePage(page);
      MergePending();
      windowStart := Some(firstSeq);
      EmptyHoldsNothing(pendingMerge);
    }

    method DismissGap()
      requires Valid()
      modifies `gap, `missingRanges
      ensures Valid() && Value() == GapDismissed(old(Value()))
    {
      hide Content, Ascending, Distinct;
      gap, missingRanges := NoGap, [];
    }
  }

  // ---------------------------------------------- what insertion comes to

  lemma Appended(s: seq<Event>, e: Event)
    ensures Content(s + [e]) == Content(s)[e.at := e]
    ensures Seqs(s + [e]) == Seqs(s) + {e.at}
  {
    assert (s + [e])[..|s|] == s;
  }

  lemma TakeOneMore(s: seq<Event>, i: nat)
    requires i < |s|
    ensures Content(s[..i + 1]) == Content(s[..i])[s[i].at := s[i]]
  {
    assert s[..i + 1] == s[..i] + [s[i]];
    Appended(s[..i], s[i]);
  }

  lemma AscendingAppended(s: seq<Event>, e: Event)
    requires Ascending(s) && (s == [] || LastSeq(s) < e.at)
    ensures Ascending(s + [e])
  {
    assert (s + [e])[..|s|] == s;
  }

  lemma Neighbours(s: seq<Event>, i: nat)
    requires Ascending(s) && i + 1 < |s|
    ensures s[i].at < s[i + 1].at
  {
    if i + 2 < |s| { Neighbours(s[..|s| - 1], i); }
  }

  lemma InOrder(s: seq<Event>, i: nat, j: nat)
    requires Ascending(s) && i <= j < |s|
    ensures s[i].at <= s[j].at && (i < j ==> s[i].at < s[j].at)
    decreases j - i
  {
    if i < j {
      Neighbours(s, j - 1);
      InOrder(s, i, j - 1);
    }
  }

  lemma HeldSeqs(s: seq<Event>, x: nat) returns (i: nat)
    requires x in Seqs(s)
    ensures i < |s| && s[i].at == x
  {
    i := |s| - 1;
    if s[i].at != x { i := HeldSeqs(s[..i], x); }
  }

  lemma SeqIsHeld(s: seq<Event>, i: nat)
    requires i < |s|
    ensures s[i].at in Seqs(s)
  {
    if i < |s| - 1 { SeqIsHeld(s[..|s| - 1], i); }
  }

  lemma SeqsAreBelow(s: seq<Event>, x: nat)
    requires Ascending(s) && x in Seqs(s)
    ensures x <= LastSeq(s)
  {
    var i := HeldSeqs(s, x);
    InOrder(s, i, |s| - 1);
  }

  lemma BelowIsBelow(s: seq<Event>, key: nat)
    requires Ascending(s)
    ensures forall i | 0 <= i < |s| :: s[i].at < key <==> i < Below(s, key)
  {
    if s != [] {
      BelowIsBelow(s[..|s| - 1], key);
      forall i | 0 <= i < |s| ensures s[i].at < key <==> i < Below(s, key) {
        InOrder(s, i, |s| - 1);
        if i < |s| - 1 { assert s[..|s| - 1][i] == s[i]; }
      }
    }
  }

  lemma BelowSplits(s: seq<Event>, key: nat, i: nat)
    requires Ascending(s) && i < |s|
    ensures s[i].at < key <==> i < Below(s, key)
  {
    BelowIsBelow(s, key);
  }

  lemma HeldAtBelow(s: seq<Event>, key: nat)
    requires Ascending(s)
    ensures key in Seqs(s) <==> Below(s, key) < |s| && s[Below(s, key)].at == key
  {
    var k := Below(s, key);
    if k < |s| { SeqIsHeld(s, k); }
    if key in Seqs(s) {
      var i := HeldSeqs(s, key);
      BelowSplits(s, key, i);
      InOrder(s, k, i);
      BelowSplits(s, key, k);
    }
  }

  lemma WithoutLast(s: seq<Event>)
    requires Ascending(s) && s != []
    ensures LastSeq(s) !in Seqs(s[..|s| - 1])
    ensures Content(s[..|s| - 1]) == Content(s) - {LastSeq(s)}
  {
    if LastSeq(s) in Seqs(s[..|s| - 1]) { SeqsAreBelow(s[..|s| - 1], LastSeq(s)); }
  }

  /** An ascending run is determined by what it holds. */
  lemma {:induction false} AscendingIsDetermined(a: seq<Event>, b: seq<Event>)
    requires Ascending(a) && Ascending(b) && Content(a) == Content(b)
    ensures a == b
    decreases |a|
  {
    if a == [] && b == [] { return; }
    assert a != [] && b != [] by {
      if a != [] { SeqIsHeld(a, |a| - 1); }
      if b != [] { SeqIsHeld(b, |b| - 1); }
    }
    SeqsAreBelow(a, LastSeq(b));
    SeqsAreBelow(b, LastSeq(a));
    WithoutLast(a);
    WithoutLast(b);
    AscendingIsDetermined(a[..|a| - 1], b[..|b| - 1]);
  }

  lemma InsertAtEnd(s: seq<Event>, e: Event)
    requires Ascending(s) && (s == [] || LastSeq(s) < e.at)
    ensures Ascending(s + [e]) && e.at !in Seqs(s) && Content(s + [e]) == Content(s)[e.at := e]
  {
    Appended(s, e);
    AscendingAppended(s, e);
    if e.at in Seqs(s) { SeqsAreBelow(s, e.at); }
  }

  lemma InsertBeforeLast(front: seq<Event>, last: Event, e: Event, inner: seq<Event>)
    requires Ascending(inner) && inner != [] && e.at < last.at
    requires Content(inner) == if e.at in Seqs(front) then Content(front) else Content(front)[e.at := e]
    requires LastSeq(inner) == Max(LastSeq(front), e.at) && (front == [] || LastSeq(front) < last.at)
    ensures Ascending(inner + [last])
    ensures Content(inner + [last])
         == if e.at in Seqs(front + [last]) then Content(front + [last]) else Content(front + [last])[e.at := e]
  {
    hide Content, Ascending;
    Appended(inner, last);
    Appended(front, last);
    AscendingAppended(inner, last);
  }

  /** What an insertion adds, and that it keeps the run ascending. */
  lemma {:induction false} InsertAdds(s: seq<Event>, e: Event)
    requires Ascending(s)
    ensures Ascending(Insert(s, e)) && Insert(s, e) != []
    ensures Content(Insert(s, e)) == if e.at in Seqs(s) then Content(s) else Content(s)[e.at := e]
    ensures LastSeq(Insert(s, e)) == Max(LastSeq(s), e.at)
    decreases |s|
  {
    if s == [] || LastSeq(s) < e.at {
      InsertAtEnd(s, e);
    } else if LastSeq(s) == e.at {
      SeqIsHeld(s, |s| - 1);
    } else {
      var front, last := s[..|s| - 1], s[|s| - 1];
      assert s == front + [last];
      InsertAdds(front, e);
      InsertBeforeLast(front, last, e, Insert(front, e));
    }
  }

  /** Inserting a run one event at a time: what was held wins, and the first of a seq does. */
  lemma {:induction false} InsertAllAdds(s: seq<Event>, incoming: seq<Event>)
    requires Ascending(s)
    ensures Ascending(InsertAll(s, incoming))
    ensures Seqs(InsertAll(s, incoming)) == Seqs(s) + Seqs(incoming)
    ensures forall x | x in Seqs(s) :: Content(InsertAll(s, incoming))[x] == Content(s)[x]
    ensures LastSeq(s) <= LastSeq(InsertAll(s, incoming))
    decreases |incoming|
  {
    if incoming != [] {
      hide Insert;
      var front, e := incoming[..|incoming| - 1], incoming[|incoming| - 1];
      InsertAllAdds(s, front);
      InsertAdds(InsertAll(s, front), e);
      WithoutLastHolds(incoming);
    }
  }

  lemma WithoutLastHolds(s: seq<Event>)
    requires s != []
    ensures Seqs(s) == Seqs(s[..|s| - 1]) + {s[|s| - 1].at}
  {
  }

  lemma AscendingIsDistinct(s: seq<Event>)
    requires Ascending(s)
    ensures Distinct(s)
  {
    if s != [] {
      AscendingIsDistinct(s[..|s| - 1]);
      WithoutLast(s);
    }
  }

  lemma {:induction false} InsertAllOfDistinct(s: seq<Event>, incoming: seq<Event>)
    requires Ascending(s) && Distinct(incoming)
    ensures Content(InsertAll(s, incoming)) == Content(incoming) + Content(s)
    decreases |incoming|
  {
    if incoming != [] {
      var front, e := incoming[..|incoming| - 1], incoming[|incoming| - 1];
      var inner := InsertAll(s, front);
      InsertAllOfDistinct(s, front);
      InsertAllAdds(s, front);
      InsertAdds(inner, e);
      OneMoreOfDistinct(Content(inner), Content(front), Content(s), e);
    }
  }

  lemma OneMoreOfDistinct(inner: map<nat, Event>, front: map<nat, Event>, held: map<nat, Event>, e: Event)
    requires inner == front + held && e.at !in front
    ensures (if e.at in inner then inner else inner[e.at := e]) == front[e.at := e] + held
  {
  }

  ghost predicate MergedSoFar(out: seq<Event>, a: seq<Event>, i: nat, b: seq<Event>, j: nat)
    requires i <= |a| && j <= |b|
  {
    && Ascending(out) && Content(out) == Content(b[..j]) + Content(a[..i])
    && (out != [] && i < |a| ==> LastSeq(out) < a[i].at)
    && (out != [] && j < |b| ==> LastSeq(out) < b[j].at)
  }

  lemma MergeStarts(a: seq<Event>, b: seq<Event>)
    ensures MergedSoFar([], a, 0, b, 0)
  {
  }

  lemma MergeTakesLeft(out: seq<Event>, a: seq<Event>, i: nat, b: seq<Event>, j: nat)
    requires i < |a| && j <= |b| && Ascending(a) && MergedSoFar(out, a, i, b, j)
    requires j < |b| ==> a[i].at < b[j].at
    ensures MergedSoFar(out + [a[i]], a, i + 1, b, j)
  {
    hide Content, Ascending;
    TakeOneMore(a, i);
    Appended(out, a[i]);
    AscendingAppended(out, a[i]);
    if i + 1 < |a| { Neighbours(a, i); }
  }

  lemma MergeTakesRight(out: seq<Event>, a: seq<Event>, i: nat, b: seq<Event>, j: nat)
    requires i <= |a| && j < |b| && Ascending(b) && MergedSoFar(out, a, i, b, j)
    requires i < |a| ==> b[j].at < a[i].at
    ensures MergedSoFar(out + [b[j]], a, i, b, j + 1)
  {
    hide Content, Ascending;
    TakeOneMore(b, j);
    Appended(out, b[j]);
    AscendingAppended(out, b[j]);
    if b[j].at in Seqs(a[..i]) {
      EmptyHoldsNothing(out);
      assert b[j].at in Seqs(out);
      SeqsAreBelow(out, b[j].at);
    }
    if j + 1 < |b| { Neighbours(b, j); }
  }

  lemma MergeTakesBoth(out: seq<Event>, a: seq<Event>, i: nat, b: seq<Event>, j: nat)
    requires i < |a| && j < |b| && Ascending(a) && Ascending(b) && MergedSoFar(out, a, i, b, j)
    requires a[i].at == b[j].at
    ensures MergedSoFar(out + [a[i]], a, i + 1, b, j + 1)
  {
    hide Content, Ascending;
    TakeOneMore(a, i);
    TakeOneMore(b, j);
    Appended(out, a[i]);
    AscendingAppended(out, a[i]);
    if i + 1 < |a| { Neighbours(a, i); }
    if j + 1 < |b| { Neighbours(b, j); }
  }

  lemma MergeIsDone(out: seq<Event>, a: seq<Event>, b: seq<Event>)
    requires Ascending(a) && Ascending(b) && MergedSoFar(out, a, |a|, b, |b|)
    ensures out == InsertAll(a, b)
  {
    assert a[..|a|] == a && b[..|b|] == b;
    AscendingIsDistinct(b);
    InsertAllAdds(a, b);
    InsertAllOfDistinct(a, b);
    AscendingIsDetermined(out, InsertAll(a, b));
  }

  lemma TailMoves(out: seq<Event>, s: seq<Event>, i: nat)
    requires i < |s|
    ensures out + s[i..] == out + [s[i]] + s[i + 1..]
  {
  }

  /** What is left of the second run goes behind, once the first is taken. */
  lemma {:induction false} MergeEndsRight(out: seq<Event>, a: seq<Event>, b: seq<Event>, j: nat)
    requires j <= |b| && Ascending(a) && Ascending(b) && MergedSoFar(out, a, |a|, b, j)
    ensures out + b[j..] == InsertAll(a, b)
    decreases |b| - j
  {
    hide Content, Ascending, InsertAll, LastSeq;
    if j < |b| {
      MergeTakesRight(out, a, |a|, b, j);
      MergeEndsRight(out + [b[j]], a, b, j + 1);
      TailMoves(out, b, j);
    } else {
      MergeIsDone(out, a, b);
    }
  }

  lemma {:induction false} MergeEndsLeft(out: seq<Event>, a: seq<Event>, i: nat, b: seq<Event>)
    requires i <= |a| && Ascending(a) && Ascending(b) && MergedSoFar(out, a, i, b, |b|)
    ensures out + a[i..] == InsertAll(a, b)
    decreases |a| - i
  {
    hide Content, Ascending, InsertAll, LastSeq;
    if i < |a| {
      MergeTakesLeft(out, a, i, b, |b|);
      MergeEndsLeft(out + [a[i]], a, i + 1, b);
      TailMoves(out, a, i);
    } else {
      MergeIsDone(out, a, b);
    }
  }

  lemma LackingGrows(s: seq<Event>, e: Event, range: Range)
    requires e.at !in Seqs(s)
    ensures range.lo <= e.at <= range.hi ==> |Lacking(s, range)| == |Lacking(s + [e], range)| + 1
    ensures !(range.lo <= e.at <= range.hi) ==> Lacking(s + [e], range) == Lacking(s, range)
  {
    Appended(s, e);
    if range.lo <= e.at <= range.hi {
      assert Lacking(s, range) == Lacking(s + [e], range) + {e.at};
    }
  }

  lemma {:induction false} LackingIsADistance(s: seq<Event>, range: Range)
    requires Ascending(s) && range.lo <= range.hi
    ensures Below(s, range.lo) <= Below(s, range.hi + 1)
    ensures |Lacking(s, range)| == (range.hi - range.lo + 1) - (Below(s, range.hi + 1) - Below(s, range.lo))
    decreases |s|
  {
    hide Content, Ascending, Lacking, Stretch, Seqs;
    if s == [] {
      NothingHeld(s, range);
    } else {
      WithoutLastAscends(s);
      LackingIsADistance(s[..|s| - 1], range);
      WithoutLast(s);
      assert s == s[..|s| - 1] + [s[|s| - 1]];
      OneMoreLacking(s[..|s| - 1], s[|s| - 1], range);
    }
  }

  lemma NothingHeld(s: seq<Event>, range: Range)
    requires s == [] && range.lo <= range.hi
    ensures |Lacking(s, range)| == range.hi - range.lo + 1
  {
    assert Lacking(s, range) == Stretch(range.lo, range.hi);
  }

  lemma OneMoreLacking(front: seq<Event>, e: Event, range: Range)
    requires Ascending(front + [e]) && e.at !in Seqs(front) && range.lo <= range.hi
    requires Below(front, range.lo) <= Below(front, range.hi + 1)
    requires |Lacking(front, range)| == (range.hi - range.lo + 1) - (Below(front, range.hi + 1) - Below(front, range.lo))
    ensures Below(front + [e], range.lo) <= Below(front + [e], range.hi + 1)
    ensures |Lacking(front + [e], range)|
         == (range.hi - range.lo + 1) - (Below(front + [e], range.hi + 1) - Below(front + [e], range.lo))
  {
    hide Content, Ascending, Below, Stretch, Lacking;
    LackingGrows(front, e, range);
    BelowAppended(front, e, range.lo);
    BelowAppended(front, e, range.hi + 1);
  }

  lemma BelowAppended(s: seq<Event>, e: Event, key: nat)
    requires Ascending(s + [e])
    ensures Below(s + [e], key) == if e.at < key then |s| + 1 else Below(s, key)
    ensures e.at < key ==> Below(s, key) == |s|
  {
    var t := s + [e];
    assert t[..|s|] == s;
    if s != [] {
      Neighbours(t, |s| - 1);
      if e.at < key { WholeIsBelow(s, e.at, key); }
    }
  }

  lemma WholeIsBelow(s: seq<Event>, bound: nat, key: nat)
    requires Ascending(s) && (s == [] || LastSeq(s) < bound) && bound <= key
    ensures Below(s, key) == |s|
  {
  }

  // ------------------------------------------------- what every step keeps

  lemma {:induction false} RangesAreProper(ranges: seq<Range>, bound: nat)
    requires Apart(ranges, bound)
    ensures forall i | 0 <= i < |ranges| :: ranges[i].lo <= ranges[i].hi < bound
    decreases |ranges|
  {
    if ranges != [] { RangesAreProper(ranges[..|ranges| - 1], ranges[|ranges| - 1].lo); }
  }

  lemma ApartBelow(ranges: seq<Range>, bound: nat, higher: nat)
    requires Apart(ranges, bound) && bound <= higher
    ensures Apart(ranges, higher)
  {
  }

  lemma {:induction false} StillOpenIsSome(s: seq<Event>, ranges: seq<Range>)
    requires forall i | 0 <= i < |ranges| :: ranges[i].lo <= ranges[i].hi
    ensures forall i | 0 <= i < |StillOpen(s, ranges)| :: StillOpen(s, ranges)[i].lo <= StillOpen(s, ranges)[i].hi
    decreases |ranges|
  {
    if ranges != [] { StillOpenIsSome(s, ranges[..|ranges| - 1]); }
  }

  /** Dropping the filled ranges keeps the rest apart and open, and loses nothing still missing. */
  lemma {:induction false} StillOpenIsOpen(s: seq<Event>, ranges: seq<Range>, bound: nat)
    requires Apart(ranges, bound)
    ensures Apart(StillOpen(s, ranges), bound) && AllOpen(s, StillOpen(s, ranges))
    ensures TotalLacking(s, StillOpen(s, ranges)) == TotalLacking(s, ranges)
    ensures Noted(s, StillOpen(s, ranges)) == Noted(s, ranges)
    decreases |ranges|
  {
    hide Content, Seqs, Lacking, Stretch;
    if ranges != [] {
      var front, last := ranges[..|ranges| - 1], ranges[|ranges| - 1];
      StillOpenIsOpen(s, front, last.lo);
      var open := StillOpen(s, front);
      if Lacking(s, last) == {} {
        ApartBelow(open, last.lo, bound);
        assert StillOpen(s, ranges) == open + [] == open;
      } else {
        assert (open + [last])[..|open|] == open;
      }
    }
  }

  /** The seqs the noted ranges still lack. */
  function Noted(s: seq<Event>, ranges: seq<Range>): set<nat> {
    if ranges == [] then {} else Noted(s, ranges[..|ranges| - 1]) + Lacking(s, ranges[|ranges| - 1])
  }

  /** An event at or above every noted range changes nothing about them. */
  lemma {:induction false} AppendLeavesNoted(s: seq<Event>, e: Event, ranges: seq<Range>, bound: nat)
    requires Apart(ranges, bound) && bound <= e.at && e.at !in Seqs(s)
    ensures AllOpen(s + [e], ranges) == AllOpen(s, ranges)
    ensures TotalLacking(s + [e], ranges) == TotalLacking(s, ranges)
    ensures Noted(s + [e], ranges) == Noted(s, ranges)
    decreases |ranges|
  {
    hide Seqs, Content, Lacking;
    if ranges != [] {
      var last := ranges[|ranges| - 1];
      LackingGrows(s, e, last);
      AppendLeavesNoted(s, e, ranges[..|ranges| - 1], last.lo);
    }
  }

  lemma EmptyHoldsNothing(s: seq<Event>)
    ensures s == [] <==> Seqs(s) == {}
  {
    if s != [] { SeqIsHeld(s, |s| - 1); }
  }

  /** Merging what waits, in one pass, is inserting it one at a time. */
  lemma MergedIsKept(events: seq<Event>, pending: seq<Event>)
    requires Ascending(events)
    ensures Ascending(InsertAll([], pending)) && Ascending(InsertAll(events, InsertAll([], pending)))
    ensures LastSeq(events) <= LastSeq(InsertAll(events, InsertAll([], pending)))
    ensures Seqs(InsertAll(events, InsertAll([], pending))) == Seqs(events) + Seqs(pending)
  {
    hide Content, Ascending, InsertAll;
    NoneAscend();
    EmptyHoldsNothing([]);
    InsertAllAdds([], pending);
    InsertAllAdds(events, InsertAll([], pending));
  }

  lemma LastIsGreatest(s: seq<Event>)
    requires Ascending(s) && s != []
    ensures LastSeq(s) in Seqs(s) && forall x | x in Seqs(s) :: x <= LastSeq(s)
  {
    SeqIsHeld(s, |s| - 1);
    forall x | x in Seqs(s) ensures x <= LastSeq(s) { SeqsAreBelow(s, x); }
  }

  lemma ReconcileKeeps(r: Replica)
    requires Apart(r.missing, LastSeq(r.events)) && (r.gap.SequenceJump? ==> r.missing != [])
    requires r.missing != [] ==> r.gap.SequenceJump? || r.gap.DaemonResync?
    ensures GapsCounted(Reconciled(r)) && Noted(r.events, Reconciled(r).missing) == Noted(r.events, r.missing)
    ensures Reconciled(r) == r.(missing := Reconciled(r).missing, gap := Reconciled(r).gap)
    ensures r.missing == [] ==> Reconciled(r) == r
  {
    hide Lacking;
    if r.missing != [] { StillOpenIsOpen(r.events, r.missing, LastSeq(r.events)); }
  }

  lemma MergeKeepsGaps(r: Replica)
    requires Ascending(r.events) && GapsCounted(r)
    ensures Ascending(Settled(r).events) && GapsCounted(Settled(r)) && Settled(r).pending == []
    ensures Seqs(Settled(r).events) == Seqs(r.events) + Seqs(r.pending)
    ensures LastSeq(r.events) <= LastSeq(Settled(r).events)
    ensures Settled(r).windowStart == r.windowStart && Settled(r).page == r.page
    ensures Settled(r).pageBuffer == r.pageBuffer
  {
    hide Ascending, InsertAll, Apart, Content, TotalLacking, AllOpen, Reconciled, StillOpen;
    EmptyHoldsNothing(r.pending);
    if r.pending != [] {
      var incoming := InsertAll([], r.pending);
      MergedIsKept(r.events, r.pending);
      var (f, at) := NewerFact(r.fact, r.factAt, incoming);
      var merged := r.(events := InsertAll(r.events, incoming), pending := [], fact := f, factAt := at);
      ApartBelow(r.missing, LastSeq(r.events), LastSeq(merged.events));
      ReconcileKeeps(merged);
    }
  }

  lemma MergeKeepsWell(r: Replica)
    requires WellKept(r)
    ensures WellKept(Settled(r)) && Settled(r).pending == []
    ensures Seqs(Settled(r).events) == Seqs(r.events) + Seqs(r.pending)
    ensures LastSeq(Settled(r).events) == LastSeq(r.events)
  {
    hide Settled, Content, Ascending, Apart, AllOpen, TotalLacking;
    MergeKeepsGaps(r);
    var m := Settled(r);
    assert RunsKept(m) by { EmptyHoldsNothing([]); DistinctEmpty(); }
    if m.events != [] {
      LastIsGreatest(m.events);
      if r.events != [] { SeqsAreBelowAll(r.events); }
    }
  }

  lemma DistinctEmpty()
    ensures Distinct([])
  {
  }

  lemma SeqsAreBelowAll(s: seq<Event>)
    requires Ascending(s)
    ensures forall x | x in Seqs(s) :: x <= LastSeq(s)
  {
    forall x | x in Seqs(s) ensures x <= LastSeq(s) { SeqsAreBelow(s, x); }
  }

  lemma WellKeptParts(r: Replica)
    requires WellKept(r)
    ensures Ascending(r.events) && Apart(r.missing, LastSeq(r.events)) && GapsCounted(r)
  {
  }

  /** A hole just above the tail lies apart from the noted ones and is lacking whole. */
  lemma HoleAboveTail(s: seq<Event>, ranges: seq<Range>, range: Range)
    requires Ascending(s) && Apart(ranges, LastSeq(s)) && LastSeq(s) < range.lo <= range.hi
    ensures Apart(ranges + [range], range.hi + 1)
    ensures Lacking(s, range) == Stretch(range.lo, range.hi) != {}
    ensures Noted(s, ranges + [range]) == Noted(s, ranges) + Stretch(range.lo, range.hi)
    ensures StillOpen(s, ranges + [range]) != []
  {
    hide Content, Ascending;
    assert (ranges + [range])[..|ranges|] == ranges;
    ApartBelow(ranges, LastSeq(s), range.lo);
    SeqsAreBelowAll(s);
    assert range.lo in Stretch(range.lo, range.hi);
    assert Lacking(s, range) == Stretch(range.lo, range.hi);
  }

  lemma NoteMissingCounts(r: Replica, e: Event)
    requires Ascending(r.events) && GapsCounted(r) && e.at > LastSeq(r.events) + 1
    ensures GapsCounted(Noting(r, Range(LastSeq(r.events) + 1, e.at - 1)).(events := r.events + [e]))
    ensures Noted(r.events + [e], Noting(r, Range(LastSeq(r.events) + 1, e.at - 1)).missing)
         == Noted(r.events, r.missing) + Stretch(LastSeq(r.events) + 1, e.at - 1)
  {
    hide AllOpen, TotalLacking, Content, Ascending, Apart, Lacking, Noted, StillOpen, Seqs;
    var range := Range(LastSeq(r.events) + 1, e.at - 1);
    var all := r.missing + [range];
    InsertAtEnd(r.events, e);
    HoleAboveTail(r.events, r.missing, range);
    StillOpenIsOpen(r.events, all, e.at);
    AppendLeavesNoted(r.events, e, StillOpen(r.events, all), e.at);
    assert LastSeq(r.events + [e]) == e.at;
  }

  lemma RunsGrow(r: Replica, after: Replica, e: Event)
    requires RunsKept(r) && (r.events == [] || e.at > LastSeq(r.events))
    requires after.events == r.events + [e] && after.pending == r.pending
    ensures RunsKept(after)
  {
    hide Ascending, Content, Distinct;
    InsertAtEnd(r.events, e);
    Appended(r.events, e);
  }

  lemma AppendKeepsWell(r: Replica, e: Event)
    requires WellKept(r) && (r.events == [] || e.at > LastSeq(r.events))
    requires r.windowStart.Some? ==> r.windowStart.value <= e.at
    ensures WellKept(Ingested(r, e))
  {
    hide Ascending, AllOpen, TotalLacking, Apart, Content, Distinct, Noting, Seqs;
    if r.events != [] && e.at > LastSeq(r.events) + 1 {
      NoteMissingTouches(r, Range(LastSeq(r.events) + 1, e.at - 1));
      RunsGrow(r, Ingested(r, e), e);
      NoteMissingCounts(r, e);
    } else {
      RunsGrow(r, Ingested(r, e), e);
      AppendKeepsGaps(r, e);
    }
  }

  lemma NoteMissingTouches(r: Replica, range: Range)
    ensures Noting(r, range) == r.(missing := Noting(r, range).missing, gap := Noting(r, range).gap)
  {
  }

  lemma AppendKeepsGaps(r: Replica, e: Event)
    requires Ascending(r.events) && GapsCounted(r) && (r.events == [] || e.at > LastSeq(r.events))
    ensures GapsCounted(r.(events := r.events + [e]))
    ensures Noted(r.events + [e], r.missing) == Noted(r.events, r.missing)
  {
    hide Ascending, AllOpen, TotalLacking, Content;
    InsertAtEnd(r.events, e);
    AppendLeavesNoted(r.events, e, r.missing, LastSeq(r.events));
    ApartBelow(r.missing, LastSeq(r.events), e.at);
  }

  lemma DistinctAppended(s: seq<Event>, e: Event)
    requires Distinct(s) && e.at !in Seqs(s)
    ensures Distinct(s + [e]) && Seqs(s + [e]) == Seqs(s) + {e.at}
  {
    assert (s + [e])[..|s|] == s;
    Appended(s, e);
  }

  /** A replayed event waits; one held or already waiting changes nothing. */
  lemma ReplayKeepsWell(r: Replica, e: Event)
    requires WellKept(r) && r.events != [] && e.at <= LastSeq(r.events)
    requires r.windowStart.Some? ==> r.windowStart.value <= e.at
    ensures WellKept(Ingested(r, e))
  {
    hide Ascending, AllOpen, TotalLacking, Apart, Content, Noting, Distinct, GapsCounted, Seqs;
    LastIsGreatest(r.events);
    if e.at !in Seqs(r.pending) && e.at !in Seqs(r.events) {
      DistinctAppended(r.pending, e);
      GapsAreTheirOwn(r, Ingested(r, e));
    }
  }

  lemma GapsAreTheirOwn(r: Replica, after: Replica)
    requires GapsCounted(r) && after.events == r.events && after.missing == r.missing && after.gap == r.gap
    ensures GapsCounted(after)
  {
  }

  lemma BufferKeepsWell(r: Replica, e: Event)
    requires WellKept(r) && r.windowStart.Some? && e.at < r.windowStart.value
    ensures WellKept(Ingested(r, e))
  {
    hide Ascending, AllOpen, TotalLacking, Apart, Content, Noting, Distinct, GapsCounted, Seqs;
    Appended(r.pageBuffer, e);
    GapsAreTheirOwn(r, Ingested(r, e));
  }

  lemma IngestKeepsWell(r: Replica, e: Event)
    requires WellKept(r)
    ensures WellKept(Ingested(r, e))
  {
    hide WellKept, Ingested;
    if r.windowStart.Some? && e.at < r.windowStart.value {
      BufferKeepsWell(r, e);
    } else if r.events != [] && e.at <= LastSeq(r.events) {
      ReplayKeepsWell(r, e);
    } else {
      AppendKeepsWell(r, e);
    }
  }

  lemma WithoutLastAscends(s: seq<Event>)
    requires Ascending(s) && s != []
    ensures Ascending(s[..|s| - 1])
    ensures |s| >= 2 ==> s[|s| - 2].at < s[|s| - 1].at
  {
  }

  lemma {:induction false} SuffixAscends(s: seq<Event>, i: nat)
    requires Ascending(s) && i <= |s|
    ensures Ascending(s[i..])
    decreases |s|
  {
    hide Ascending;
    if i == |s| {
      NoneAscend();
      assert s[i..] == [];
    } else {
      var front, e := s[..|s| - 1], s[|s| - 1];
      WithoutLastAscends(s);
      SuffixAscends(front, i);
      AscendingAppended(front[i..], e);
      assert s[i..] == front[i..] + [e];
    }
  }

  lemma NoneAscend()
    ensures Ascending([])
  {
  }

  lemma WindowKeepsWell(r: Replica, daemonLast: nat, keepEarlier: bool)
    requires WellKept(r)
    ensures WellKept(Windowed(r, daemonLast, keepEarlier))
  {
    hide Content, AllOpen, TotalLacking, Apart, Settled, Ascending, Below;
    if !KeepsAsIs(r, daemonLast, keepEarlier) {
      MergeKeepsWell(r);
      var merged := Settled(r);
      SuffixAscends(merged.events, Below(merged.events, FloorOf(daemonLast) + 1));
      var kept := Windowed(r, daemonLast, keepEarlier).events;
      NothingMissing(kept, LastSeq(kept));
      NoneAscend();
      EmptyHoldsNothing([]);
      DistinctEmpty();
      MergeKeepsGaps(r);
    }
  }

  lemma NothingMissing(s: seq<Event>, bound: nat)
    ensures Apart([], bound) && AllOpen(s, [])
  {
  }

  lemma HeldToKeepsPending(merged: Replica, floor: nat)
    ensures HeldTo(merged, floor).pending == merged.pending
  {
  }

  lemma {:induction false} WithPageHolds(pending: seq<Event>, page: seq<Event>)
    requires Distinct(pending)
    ensures Distinct(WithPage(pending, page)) && Seqs(WithPage(pending, page)) == Seqs(pending) + Seqs(page)
    decreases |page|
  {
    if page != [] {
      var front, e := page[..|page| - 1], page[|page| - 1];
      WithPageHolds(pending, front);
      var before := WithPage(pending, front);
      Appended(before, e);
      assert (before + [e])[..|before|] == before;
    }
  }

  lemma PageEndKeepsWell(r: Replica, id: nat, firstSeq: nat, failed: bool)
    requires WellKept(r)
    ensures WellKept(PageEnded(r, id, firstSeq, failed))
  {
    hide Content, AllOpen, TotalLacking, Apart, Settled, Ascending, Distinct, WithPage;
    if r.page.Some? && r.page.value.id == id && !failed {
      MergeKeepsGaps(r.(page := None, pageBuffer := [], fillStopped := failed, pending := WithPage(r.pending, r.pageBuffer)));
      EmptyHoldsNothing([]);
      DistinctEmpty();
    }
  }
}
