/**
 How long a catch-up waits: no longer than there is something to ask for.

 Once every session of the catch-up's list has arrived, each look releases or leaves a
 page or a card on its way (`LookReleasesOrAsks`). What is shown here is that this ends:
 every answer, good or failed and in whatever order, leaves strictly less to ask for
 (`EveryAnswerIsProgress`), so a Mac that answers what it is asked sees the release after
 at most as many answers as there were cards and seqs left to ask for (`AnswersRelease`).

 `Kept(a, b)` is what a look's own work does to this account: nothing. It may begin
 requests and drop pins, but no listed card comes or goes and no window moves.
 */
module CatchUpWaiting {
  import opened Wrappers
  import opened Replica
  import opened CatchUp
  import opened CatchUpRuns
  import opened CatchUpWork
  import opened CatchUpReleases
  import opened CatchUpWatch
  import opened CatchUpLanding
  import opened CatchUpProgress
  import opened CatchUpCards
  import CatchUpSubscriptions

  /** What a session has on its way and holds fits the list: one request at a time, and each card at one seq. */
  predicate FlightFits(c: Chat, pending: seq<CardRef>) {
    && Coherent(c, pending) && !(c.pin.Some? && c.log.page.Some?)
    && (c.log.page.Some? ==> c.log.windowStart.Some? && c.log.windowStart.value > 0)
  }

  /** Between two states of one session nothing was answered: as much is still to ask for. */
  predicate OwesTheSame(c: Chat, d: Chat, pending: seq<CardRef>) {
    FlightFits(c, pending) ==> FlightFits(d, pending) && Owing(d, pending) == Owing(c, pending)
  }

  ghost predicate Kept(a: App, b: App) {
    && b.states == a.states && b.summaries == a.summaries && |b.chats| == |a.chats|
    && forall i | 0 <= i < |a.chats| ::
         && b.chats[i].key == a.chats[i].key
         && (SummaryFor(a.summaries, a.chats[i].key).Some? ==>
               OwesTheSame(a.chats[i], b.chats[i], SummaryFor(a.summaries, a.chats[i].key).value.pending))
  }

  lemma KeptChains(a: App, b: App, c: App)
    requires Kept(a, b) && Kept(b, c)
    ensures Kept(a, c)
  {
    hide SummaryFor, FlightFits, Owing;
  }

  lemma SameIsKept(a: App, b: App)
    requires b == a.(nextRequest := b.nextRequest)
    ensures Kept(a, b)
  {
    hide SummaryFor, FlightFits, Owing;
  }

  // ------------------------------------------------- a look keeps the account

  lemma PutIsKept(a: App, id: nat, c: Chat)
    requires id < |a.chats| && c.key == a.chats[id].key
    requires SummaryFor(a.summaries, c.key).Some? ==> OwesTheSame(a.chats[id], c, SummaryFor(a.summaries, c.key).value.pending)
    ensures Kept(a, Put(a, id, c))
  {
    hide SummaryFor, Current;
    PutLeaves(a, id, c);
    PutKeepsKey(a, id, c);
  }

  lemma PutKeepsKey(a: App, id: nat, c: Chat)
    requires id < |a.chats|
    ensures Put(a, id, c).chats[id].key == c.key
  {
    hide Current;
  }

  lemma PinsKeptOwes(p: Params, c: Chat, pending: seq<CardRef>)
    ensures OwesTheSame(c, PinsKept(p, c, pending), pending)
  {
    PinsStayExactly(p, c, pending);
    var d := PinsKept(p, c, pending);
    hide PinsKept;
    if FlightFits(c, pending) {
      forall ref | ref in pending ensures ref.requestID in d.pins <==> ref.requestID in c.pins {
        if ref.requestID in c.pins {
          var k := FirstNamed(pending, ref);
          assert pending[k] == CardRef(ref.requestID, c.pins[ref.requestID].at);
        }
      }
      assert Lacked(d, pending) == Lacked(c, pending);
    }
  }

  lemma {:induction false} FirstNamed(pending: seq<CardRef>, ref: CardRef) returns (k: nat)
    requires ref in pending
    ensures k < |pending| && pending[k].requestID == ref.requestID && forall j | 0 <= j < k :: pending[j].requestID != ref.requestID
    decreases |pending|
  {
    k := 0;
    if pending[0].requestID != ref.requestID {
      var n := FirstNamed(pending[1..], ref);
      k := n + 1;
      assert forall j | 1 <= j < k :: pending[j] == pending[1..][j - 1];
    }
  }

  lemma PinBegunOwes(c: Chat, ref: CardRef, id: nat, pending: seq<CardRef>)
    requires CanPin(c, ref) && ref in pending
    ensures OwesTheSame(c, PinBegun(c, ref, id), pending)
  {
    assert Lacked(PinBegun(c, ref, id), pending) == Lacked(c, pending);
  }

  lemma PageAskedOwes(c: Chat, id: nat, pending: seq<CardRef>)
    requires !c.log.fillStopped
    ensures OwesTheSame(c, PageAsked(c, id), pending)
  {
    assert Lacked(PageAsked(c, id), pending) == Lacked(c, pending);
  }

  lemma RebuiltOwes(p: Params, c: Chat, pending: seq<CardRef>)
    ensures OwesTheSame(c, Rebuilt(p, c), pending)
  {
    SettlingKeepsFill(c.log);
    hide Settled;
    assert Lacked(Rebuilt(p, c), pending) == Lacked(c, pending);
  }

  lemma CardsPinnedIsKept(p: Params, a: App, key: Key)
    requires Filed(a, a.states)
    ensures Kept(a, CardsPinned(p, a, key))
  {
    hide Put, PinsKept, PinBegun, SummaryFor, OwesTheSame, Kept, CanPin;
    SameIsKept(a, a);
    if a.ctl.connected && a.pagesHistory && a.listedOn == Some(a.ctl.generation) && HasState(a, key)
       && SummaryFor(a.summaries, key).Some? {
      var s := SummaryFor(a.summaries, key).value;
      var id, c := a.states[key], ChatOf(a, key);
      var kept := if Held(c) >= s.lastSeq then Put(a, id, PinsKept(p, c, s.pending)) else a;
      PinsKeptOwes(p, c, s.pending);
      PinsKeptFace(p, c, s.pending);
      PutIsKept(a, id, PinsKept(p, c, s.pending));
      KeptParts(a, kept);
      var d := kept.chats[id];
      var first := FirstToPin(d, s.pending);
      if first.Some? {
        FirstCanBePinned(d, s.pending);
        FirstIsListed(d, s.pending);
        PinBegunOwes(d, first.value, kept.nextRequest, s.pending);
        PinBegunFace(d, first.value, kept.nextRequest);
        PutIsKept(kept, id, PinBegun(d, first.value, kept.nextRequest));
        var begun := Put(kept, id, PinBegun(d, first.value, kept.nextRequest));
        KeptChains(a, kept, begun);
        SameIsKept(begun, begun.(nextRequest := kept.nextRequest + 1));
        KeptChains(a, begun, begun.(nextRequest := kept.nextRequest + 1));
      }
    }
  }

  lemma KeptParts(a: App, b: App)
    requires Kept(a, b)
    ensures b.states == a.states && b.summaries == a.summaries && |b.chats| == |a.chats|
    ensures forall i | 0 <= i < |a.chats| :: b.chats[i].key == a.chats[i].key
    ensures Filed(a, a.states) ==> Filed(b, b.states)
  {
    hide SummaryFor, OwesTheSame;
  }

  lemma WindowFilledIsKept(p: Params, a: App, key: Key)
    requires Filed(a, a.states)
    ensures Kept(a, WindowFilled(p, a, key))
  {
    hide Put, CardsPinned, SummaryFor, OwesTheSame, Kept, PageAsked;
    CardsPinnedIsKept(p, a, key);
    var pinned := CardsPinned(p, a, key);
    KeptParts(a, pinned);
    if HasState(pinned, key) && NeedsEarlierPage(p, ChatOf(pinned, key)) {
      var c := ChatOf(pinned, key);
      if SummaryFor(a.summaries, key).Some? { PageAskedOwes(c, pinned.nextRequest, SummaryFor(a.summaries, key).value.pending); }
      PageAskedFace(c, pinned.nextRequest);
      PutIsKept(pinned, pinned.states[key], PageAsked(c, pinned.nextRequest));
      var asked := Put(pinned, pinned.states[key], PageAsked(c, pinned.nextRequest));
      KeptChains(a, pinned, asked);
      SameIsKept(asked, asked.(nextRequest := pinned.nextRequest + 1));
      KeptChains(a, asked, asked.(nextRequest := pinned.nextRequest + 1));
    }
  }

  lemma RebuiltNowIsKept(p: Params, a: App, id: nat)
    requires Filed(a, a.states) && id < |a.chats|
    ensures Kept(a, RebuiltNow(p, a, id))
  {
    hide Put, WindowFilled, Rebuilt, SummaryFor, OwesTheSame, Kept;
    var c := a.chats[id];
    SameIsKept(a, a);
    if SummaryFor(a.summaries, c.key).Some? { RebuiltOwes(p, c, SummaryFor(a.summaries, c.key).value.pending); }
    RebuiltFace(p, c);
    PutIsKept(a, id, Rebuilt(p, c));
    var put := Put(a, id, Rebuilt(p, c));
    KeptParts(a, put);
    WindowFilledIsKept(p, put, c.key);
    KeptChains(a, put, WindowFilled(p, put, c.key));
  }

  lemma {:induction false} AllRebuiltIsKept(p: Params, a: App, keys: seq<Key>)
    requires Filed(a, a.states)
    ensures Kept(a, AllRebuilt(p, a, keys))
    decreases |keys|
  {
    hide RebuiltNow, Kept, Filed;
    SameIsKept(a, a);
    if keys != [] {
      var before, key := AllRebuilt(p, a, keys[..|keys| - 1]), keys[|keys| - 1];
      AllRebuiltIsKept(p, a, keys[..|keys| - 1]);
      KeptParts(a, before);
      if HasState(before, key) {
        RebuiltNowIsKept(p, before, before.states[key]);
        KeptChains(a, before, RebuiltNow(p, before, before.states[key]));
      }
    }
  }

  lemma {:induction false} AllFilledIsKept(p: Params, a: App, list: Fleet)
    requires Filed(a, a.states)
    ensures Kept(a, AllFilled(p, a, list))
    decreases |list|
  {
    hide WindowFilled, Kept, Filed;
    SameIsKept(a, a);
    if list != [] {
      var before, key := AllFilled(p, a, list[..|list| - 1]), list[|list| - 1].key;
      AllFilledIsKept(p, a, list[..|list| - 1]);
      KeptParts(a, before);
      WindowFilledIsKept(p, before, key);
      KeptChains(a, before, WindowFilled(p, before, key));
    }
  }

  lemma ReadiedIsKept(p: Params, a: App, list: Fleet)
    requires Filed(a, a.states)
    ensures Kept(a, Readied(p, a, list))
  {
    hide AllRebuilt, AllFilled, Kept, Filed;
    var built := AllRebuilt(p, a, p.listing(a.states.Keys));
    AllRebuiltIsKept(p, a, p.listing(a.states.Keys));
    KeptParts(a, built);
    AllFilledIsKept(p, built, list);
    KeptChains(a, built, Readied(p, a, list));
  }

  // ------------------------------------------------------- an answer comes

  /** One listed session is here: level with the list, and settled on this link. */
  predicate Arrived(a: App, s: Summary) {
    && s.key in a.states && a.states[s.key] < |a.chats|
    && LastSeq(a.chats[a.states[s.key]].log.events) >= s.lastSeq
    && s.key in a.subscribedAfter && a.subscribedAfter[s.key].generation == a.ctl.generation
  }

  predicate Waits(a: App, s: Summary) {
    Arrived(a, s) && SummaryFor(a.summaries, s.key) == Some(s)
    && FlightFits(a.chats[a.states[s.key]], s.pending)
  }

  /** A catch-up with the app in front and its link up, whose own list is still the latest and has all arrived. */
  ghost predicate Waiting(p: Params, a: App, list: Fleet) {
    && Standing(p, a) && a.ctl.open.Some? && a.ctl.open.value.list == Some(list)
    && a.ctl.connected && !a.ctl.wentToBackground && a.listedOn == Some(a.ctl.generation)
    && forall i | 0 <= i < |list| :: Waits(a, list[i])
  }

  /** An end of a request a session has on its way; a page ends above where it was asked from only by failing. */
  predicate EndsRequest(c: Chat, id: nat, firstSeq: nat, failed: bool) {
    || (c.pin.Some? && c.pin.value.id == id)
    || (c.log.page.Some? && c.log.page.value.id == id && c.log.windowStart.Some? && (failed || firstSeq < c.log.windowStart.value))
  }

  predicate Serves(a: App, list: Fleet, step: Step) {
    && step.HistoryEnd? && HasState(a, step.key) && EndsRequest(ChatOf(a, step.key), step.id, step.firstSeq, step.failed)
    && exists i | 0 <= i < |list| :: list[i].key == step.key
  }

  function OwingAt(a: App, s: Summary): nat {
    if HasState(a, s.key) then Owing(ChatOf(a, s.key), s.pending) else 0
  }

  /** All that the listed sessions may still ask for. */
  function TotalOwing(a: App, list: Fleet): nat {
    if list == [] then 0 else TotalOwing(a, list[..|list| - 1]) + OwingAt(a, list[|list| - 1])
  }

  lemma {:induction false} TotalsCompare(a: App, b: App, list: Fleet)
    requires forall i | 0 <= i < |list| :: OwingAt(b, list[i]) <= OwingAt(a, list[i])
    ensures TotalOwing(b, list) <= TotalOwing(a, list)
    ensures (exists i | 0 <= i < |list| :: OwingAt(b, list[i]) < OwingAt(a, list[i])) ==> TotalOwing(b, list) < TotalOwing(a, list)
    decreases |list|
  {
    hide OwingAt;
    if list != [] {
      var front := list[..|list| - 1];
      assert forall i | 0 <= i < |front| :: front[i] == list[i];
      TotalsCompare(a, b, front);
    }
  }

  lemma RequestEndGrows(p: Params, c: Chat, id: nat, firstSeq: nat, failed: bool)
    requires WellKept(c.log)
    ensures Held(RequestEnded(p, c, id, firstSeq, failed)) >= Held(c)
  {
    hide Settled, WithPage, Content, Ascending, Distinct, GapsCounted;
    if c.log.page.Some? && c.log.page.value.id == id && !failed {
      var before := c.log.(page := None, pageBuffer := [], fillStopped := failed, pending := WithPage(c.log.pending, c.log.pageBuffer));
      GapsAreTheirOwn(c.log, before);
      MergeKeepsGaps(before);
    }
  }

  lemma RequestEndFits(p: Params, c: Chat, pending: seq<CardRef>, id: nat, firstSeq: nat, failed: bool)
    requires FlightFits(c, pending) && EndsRequest(c, id, firstSeq, failed)
    ensures FlightFits(RequestEnded(p, c, id, firstSeq, failed), pending)
    ensures Owing(RequestEnded(p, c, id, firstSeq, failed), pending) < Owing(c, pending)
  {
    hide Settled, WithPage;
    EndsAreProgress(p, c, pending, id, firstSeq, failed);
    PageEndAsksNothing(c.log, id, firstSeq, failed);
  }

  /** The session answered waits for less, and every other for as much as it did. */
  lemma AnswerPut(p: Params, a: App, key: Key, id: nat, firstSeq: nat, failed: bool, s: Summary)
    requires Shaped(p, a) && HasState(a, key) && Waits(a, s) && EndsRequest(ChatOf(a, key), id, firstSeq, failed)
    ensures var b := Put(a, a.states[key], RequestEnded(p, ChatOf(a, key), id, firstSeq, failed));
      Waits(b, s) && OwingAt(b, s) <= OwingAt(a, s) && (s.key == key ==> OwingAt(b, s) < OwingAt(a, s))
  {
    hide RequestEnded, Put, FlightFits, Coherent, EndsRequest, SummaryFor, Owing, ChatSound, WellKept;
    var c := ChatOf(a, key);
    var d := RequestEnded(p, c, id, firstSeq, failed);
    SoundAt(p, a, a.states[key]);
    SoundLog(p, c);
    PutLeaves(a, a.states[key], d);
    if s.key == key {
      RequestEndFits(p, c, s.pending, id, firstSeq, failed);
      RequestEndGrows(p, c, id, firstSeq, failed);
      SameForOwing(d, Put(a, a.states[key], d).chats[a.states[key]], s.pending);
    } else {
      ShapedIsFiled(p, a);
      assert a.states[s.key] != a.states[key];
    }
  }

  lemma SameForOwing(c: Chat, d: Chat, pending: seq<CardRef>)
    requires d.log == c.log && d.pin == c.pin && d.pins == c.pins && d.unpinnable == c.unpinnable
    ensures FlightFits(c, pending) ==> FlightFits(d, pending)
    ensures Owing(d, pending) == Owing(c, pending)
  {
    assert Lacked(d, pending) == Lacked(c, pending);
  }

  lemma FillKeepsWaits(p: Params, a: App, b: App, s: Summary)
    requires Shaped(p, a) && Fills(p, a, b) && Kept(a, b) && Waits(a, s)
    ensures Waits(b, s) && OwingAt(b, s) == OwingAt(a, s)
  {
    hide Shaped, SummaryFor, FlightFits, Owing, Coherent;
    ShapedIsFiled(p, a);
    FillsKeepsArrivals(p, a, b);
    assert OwesTheSame(a.chats[a.states[s.key]], b.chats[a.states[s.key]], s.pending);
  }

  lemma AnswerFiled(p: Params, a: App, key: Key, id: nat, firstSeq: nat, failed: bool, list: Fleet)
    requires Shaped(p, a) && HasState(a, key) && EndsRequest(ChatOf(a, key), id, firstSeq, failed)
    requires forall i | 0 <= i < |list| :: Waits(a, list[i])
    ensures var b := HistoryFiled(p, a, key, id, firstSeq, failed);
      && Shaped(p, b) && b.ctl == Progressed(a.ctl) && b.listedOn == a.listedOn && b.releases == a.releases
      && forall i | 0 <= i < |list| ::
           Waits(b, list[i]) && OwingAt(b, list[i]) <= OwingAt(a, list[i]) && (list[i].key == key ==> OwingAt(b, list[i]) < OwingAt(a, list[i]))
  {
    hide Shaped, Fills, Works, Put, RequestEnded, WindowFilled, Waits, OwingAt, Kept;
    var c := ChatOf(a, key);
    var counted := a.(ctl := Progressed(a.ctl));
    var d := RequestEnded(p, c, id, firstSeq, failed);
    assert HistoryFiled(p, a, key, id, firstSeq, failed) == WindowFilled(p, Put(counted, a.states[key], d), key);
    ShapeIsChats(p, a, counted);
    SoundAt(p, a, a.states[key]);
    RequestEndIsSound(p, c, id, firstSeq, failed);
    RequestEndedFace(p, c, id, firstSeq, failed);
    PutWorks(p, counted, a.states[key], d);
    var put := Put(counted, a.states[key], d);
    WorksIsShaped(p, counted, put);
    PutLeaves(counted, a.states[key], d);
    ShapedIsFiled(p, put);
    WindowFilledFills(p, put, key);
    WindowFilledIsKept(p, put, key);
    FillsKeepsArrivals(p, put, WindowFilled(p, put, key));
    FillsIsShaped(p, put, WindowFilled(p, put, key));
    forall i | 0 <= i < |list|
      ensures var b := WindowFilled(p, put, key);
        Waits(b, list[i]) && OwingAt(b, list[i]) <= OwingAt(a, list[i]) && (list[i].key == key ==> OwingAt(b, list[i]) < OwingAt(a, list[i]))
    {
      ProgressKeepsWaits(a, counted, list[i]);
      AnswerPut(p, counted, key, id, firstSeq, failed, list[i]);
      FillKeepsWaits(p, put, WindowFilled(p, put, key), list[i]);
    }
  }

  lemma ProgressKeepsWaits(a: App, b: App, s: Summary)
    requires b == a.(ctl := b.ctl, past := b.past) && b.ctl.generation == a.ctl.generation
    ensures Waits(b, s) == Waits(a, s) && OwingAt(b, s) == OwingAt(a, s)
  {
    hide SummaryFor, FlightFits, Owing, Coherent;
  }

  /**
   **Every answer is progress.** A page or a card asked for ends, well or badly: the
   screen is released by that very step, or all are still waiting, with something on its
   way, and strictly less is left to ask for.
   */
  lemma {:induction false} EveryAnswerIsProgress(p: Params, a: App, list: Fleet, step: Step)
    requires Waiting(p, a, list) && Sane(p) && Serves(a, list, step)
    ensures var b := Stepped(p, a, step);
      || b.releases == a.releases + 1
      || (&& b.releases == a.releases && Waiting(p, b, list) && TotalOwing(b, list) < TotalOwing(a, list)
          && exists i | 0 <= i < |list| :: InFlight(b, list[i].key))
  {
    hide Standing, Shaped, Fills, Works, HistoryFiled, Waits, OwingAt, Advanced, Readied, EndsRequest, SummaryFor, InFlight, Kept;
    StandingParts(p, a);
    TickStands(p, a);
    StandingParts(p, Ticked(a));
    forall i | 0 <= i < |list| ensures Waits(Ticked(a), list[i]) && OwingAt(Ticked(a), list[i]) == OwingAt(a, list[i]) {
      ProgressKeepsWaits(a, Ticked(a), list[i]);
    }
    AnswerFiled(p, Ticked(a), step.key, step.id, step.firstSeq, step.failed, list);
    var mid := HistoryFiled(p, Ticked(a), step.key, step.id, step.firstSeq, step.failed);
    assert Stepped(p, a, step) == Advanced(p, mid);
    StepStands(p, a, step);
    assert Worked(p, Ticked(a), step).0 == mid;
    LookWaits(p, mid, list);
    var b := Advanced(p, mid);
    if b.releases == a.releases {
      var i :| 0 <= i < |list| && list[i].key == step.key;
      assert OwingAt(b, list[i]) < OwingAt(a, list[i]);
      TotalsCompare(a, b, list);
    }
  }

  /** A page or a card is on its way for a session. */
  predicate InFlight(a: App, key: Key) {
    && key in a.states && a.states[key] < |a.chats|
    && (a.chats[a.states[key]].log.page.Some? || a.chats[a.states[key]].pin.Some?)
  }

  lemma LookWaits(p: Params, a: App, list: Fleet)
    requires Waiting(p, a, list) && Sane(p)
    ensures var b := Advanced(p, a);
      || b.releases == a.releases + 1
      || (&& b.releases == a.releases && Waiting(p, b, list) && (forall i | 0 <= i < |list| :: OwingAt(b, list[i]) == OwingAt(a, list[i]))
          && exists i | 0 <= i < |list| :: InFlight(b, list[i].key))
  {
    hide Standing, Shaped, Fills, Works, OwingAt, Advanced, SummaryFor, FlightFits, Coherent, Kept, Matched;
    StandingParts(p, a);
    OpenIsOnLink(p, a);
    LookReleasesOrAsks(p, a);
    if Advanced(p, a).releases != a.releases + 1 {
      var ready := Readied(p, a, list);
      UnreleasedIsReadied(p, a, list);
      ReadiedFills(p, a, list);
      ShapedIsFiled(p, a);
      ReadiedIsKept(p, a, list);
      FillsKeepsArrivals(p, a, ready);
      AdvanceStands(p, a);
      forall i | 0 <= i < |list| ensures Waits(ready, list[i]) && OwingAt(ready, list[i]) == OwingAt(a, list[i]) {
        FillKeepsWaits(p, a, ready, list[i]);
      }
    }
  }

  lemma UnreleasedIsReadied(p: Params, a: App, list: Fleet)
    requires Waiting(p, a, list) && Sane(p) && Advanced(p, a).releases != a.releases + 1
    ensures Advanced(p, a) == Readied(p, a, list)
  {
    hide Shaped, Fills, SummaryFor, FlightFits, Coherent, Matched, AllRebuilt, AllFilled, IsCaughtUp, Released, Readied;
    OpenIsOnLink(p, a);
    forall i | 0 <= i < |list| ensures HasArrived(a, list[i], a.ctl.generation) { assert Waits(a, list[i]); }
    LookIs(p, a);
    ReadiedFills(p, a, list);
    FillsKeepsArrivals(p, a, Readied(p, a, list));
    ReleasedCounts(Readied(p, a, list), list);
  }

  /**
   **A catch-up whose sessions are here releases, once it is answered.** Of answers that
   each end a request then on its way, in any order, good or failed, no more can come
   before the release than there was left to ask for; and until it comes there is always
   one to answer.
   */
  lemma {:induction false} AnswersRelease(p: Params, a: App, list: Fleet, steps: seq<Step>)
    requires Waiting(p, a, list) && Sane(p)
    requires forall k | 0 <= k < |steps| :: Serves(Run(p, a, steps[..k]), list, steps[k])
    requires forall k | 0 <= k <= |steps| :: Run(p, a, steps[..k]).releases == a.releases
    ensures var b := Run(p, a, steps);
      && Waiting(p, b, list) && |steps| + TotalOwing(b, list) <= TotalOwing(a, list)
      && (steps != [] ==> exists i | 0 <= i < |list| :: InFlight(b, list[i].key))
    decreases |steps|
  {
    hide Waiting, Serves, Stepped, TotalOwing, InFlight;
    if steps != [] {
      var front, last := steps[..|steps| - 1], steps[|steps| - 1];
      assert forall k | 0 <= k <= |front| :: front[..k] == steps[..k];
      AnswersRelease(p, a, list, front);
      assert steps[..|front|] == front && steps[..|steps|] == steps;
      assert steps == front + [last];
      RunsOn(p, a, front, last);
      EveryAnswerIsProgress(p, Run(p, a, front), list, last);
    }
  }
}
