/**
 When a look at the catch-up releases it, and what it does when it does not
 (`advanceCatchUp` in CodeConnectKit/Sources/CodeConnectKit/AppModel.swift).

 What the other modules show of a release is what it may not do. This one is the other
 half: the conditions under which the screen is let go, each written out in the
 session's own fields, are enough (`ReleasesExactly`); and a look that finds everything
 the Mac listed here, and still does not release, has asked for what it waits for
 (`LookReleasesOrAsks`), unless nothing is left to ask for, when it releases at once
 (`WholeLogsRelease`). So a catch-up waits only for a frame that is on its way.

 `Fed(c, s)` is what one fill leaves behind. A fill of one session leaves every other
 as it was, because two keys never name one session object; so what each fill leaves
 still stands when the last of them is done.
 */
module CatchUpProgress {
  import opened Wrappers
  import opened Replica
  import opened CatchUp
  import opened CatchUpRuns
  import opened CatchUpWork
  import opened CatchUpReleases
  import opened CatchUpWatch
  import opened CatchUpLanding

  // ---------------------------------------------------- exactly when it releases

  /**
   **A look releases exactly when all that was listed is here and at rest.** Before
   anything is built, each listed session is known, holds at least the seq it is listed
   with, and was subscribed to on the catch-up's link. Once built and filled, each
   shows something or may ask for nothing earlier, has no page and no card on its way,
   and, where the Mac pages history, has each listed card inside its window, pinned or
   found missing.
   */
  lemma {:induction false} ReleasesExactly(p: Params, a: App)
    requires Standing(p, a) && Sane(p) && a.ctl.open.Some?
    ensures Advanced(p, a).releases == a.releases + 1
       <==> && !a.ctl.wentToBackground && a.ctl.open.value.list.Some?
            && var list := a.ctl.open.value.list.value;
               var ready := Readied(p, a, list);
               forall i | 0 <= i < |list| ::
                 var key := list[i].key;
                 && key in a.states && a.states[key] < |a.chats|
                 && LastSeq(a.chats[a.states[key]].log.events) >= list[i].lastSeq
                 && key in a.subscribedAfter && a.subscribedAfter[key].generation == a.ctl.open.value.generation
                 && key in ready.states && ready.states[key] < |ready.chats|
                 && var c := ready.chats[ready.states[key]];
                    && (c.log.windowStart == None || c.log.windowStart.value <= 1
                        || c.log.fillStopped || p.substantive(c.rows))
                    && c.log.page == None && c.pin == None
                    && (a.pagesHistory ==>
                          forall k | 0 <= k < |list[i].pending| ::
                            || c.log.windowStart == None || c.log.windowStart.value <= list[i].pending[k].at
                            || list[i].pending[k].requestID in c.pins || list[i].pending[k] in c.unpinnable)
    ensures Advanced(p, a).releases == a.releases + 1 <==> Advanced(p, a).ctl.open.None?
    ensures Advanced(p, a).releases != a.releases + 1 ==>
              Advanced(p, a).releases == a.releases && ScreenOf(Advanced(p, a)) == ScreenOf(a)
  {
    hide Standing, ScreenOf, Readied, Advanced;
    LookReleasesIff(p, a);
  }

  predicate ArrivedOn(a: App, s: Summary, generation: nat) {
    && s.key in a.states && a.states[s.key] < |a.chats|
    && LastSeq(a.chats[a.states[s.key]].log.events) >= s.lastSeq
    && s.key in a.subscribedAfter && a.subscribedAfter[s.key].generation == generation
  }

  lemma ArrivalIs(a: App, s: Summary, generation: nat)
    ensures HasArrived(a, s, generation) <==> ArrivedOn(a, s, generation)
  {
  }

  predicate RestsAt(p: Params, a: App, s: Summary) {
    && s.key in a.states && a.states[s.key] < |a.chats|
    && var c := a.chats[a.states[s.key]];
       && (c.log.windowStart == None || c.log.windowStart.value <= 1 || c.log.fillStopped || p.substantive(c.rows))
       && c.log.page == None && c.pin == None
       && (a.pagesHistory ==>
             forall k | 0 <= k < |s.pending| ::
               || c.log.windowStart == None || c.log.windowStart.value <= s.pending[k].at
               || s.pending[k].requestID in c.pins || s.pending[k] in c.unpinnable)
  }

  lemma CaughtUpIs(p: Params, a: App, s: Summary, generation: nat)
    ensures IsCaughtUp(p, a, s, generation) <==> HasArrived(a, s, generation) && RestsAt(p, a, s)
  {
  }

  lemma LookReleasesIff(p: Params, a: App)
    requires Standing(p, a) && Sane(p) && a.ctl.open.Some?
    ensures Advanced(p, a).releases == a.releases + 1
       <==> && !a.ctl.wentToBackground && a.ctl.open.value.list.Some?
            && var list := a.ctl.open.value.list.value;
               forall i | 0 <= i < |list| ::
                 ArrivedOn(a, list[i], a.ctl.open.value.generation) && RestsAt(p, Readied(p, a, list), list[i])
    ensures a.ctl.open.value.list.Some? ==> Readied(p, a, a.ctl.open.value.list.value).pagesHistory == a.pagesHistory
    ensures Advanced(p, a).releases == a.releases + 1 <==> Advanced(p, a).ctl.open.None?
    ensures Advanced(p, a).releases != a.releases + 1 ==>
              Advanced(p, a).releases == a.releases && ScreenOf(Advanced(p, a)) == ScreenOf(a)
  {
    hide Standing, Shaped, Works, Fills, Still, AllRebuilt, AllFilled, Released, ScreenOf, Readied, HasArrived, IsCaughtUp,
      Advanced, ArrivedOn, RestsAt;
    StandingParts(p, a);
    UnreadyLook(p, a);
    if a.ctl.open.value.list.Some? {
      var list, generation := a.ctl.open.value.list.value, a.ctl.open.value.generation;
      var ready := Readied(p, a, list);
      forall s: Summary ensures HasArrived(a, s, generation) <==> ArrivedOn(a, s, generation) {
        ArrivalIs(a, s, generation);
      }
      forall s: Summary
        ensures IsCaughtUp(p, ready, s, generation) <==> HasArrived(ready, s, generation) && RestsAt(p, ready, s)
      {
        CaughtUpIs(p, ready, s, generation);
      }
      if !a.ctl.wentToBackground && forall i | 0 <= i < |list| :: HasArrived(a, list[i], generation) { LookIs(p, a); }
      ReadiedFills(p, a, list);
      FillsKeepsArrivals(p, a, ready);
      ReadiedIsStill(p, a, list);
      StillCounts(a, ready);
      StillShows(a, ready);
      ReleasedCloses(ready, list);
      ReleasedCounts(ready, list);
    }
  }

  /** A look away, with no list, or before all have arrived, does nothing. */
  lemma UnreadyLook(p: Params, a: App)
    requires a.ctl.open.Some?
    ensures a.ctl.wentToBackground || a.ctl.open.value.list.None?
            || (exists i | 0 <= i < |a.ctl.open.value.list.value| ::
                  !HasArrived(a, a.ctl.open.value.list.value[i], a.ctl.open.value.generation))
            ==> Advanced(p, a) == a
  {
    hide HasArrived, IsCaughtUp, AllRebuilt, AllFilled, Released;
  }

  /** A fill changes nothing that an arrival is read off. */
  lemma FillsKeepsArrivals(p: Params, a: App, b: App)
    requires Fills(p, a, b)
    ensures Filed(a, a.states) ==> Filed(b, b.states)
    ensures b.ctl == a.ctl && b.states == a.states && |b.chats| == |a.chats| && b.subscribedAfter == a.subscribedAfter
    ensures b.pagesHistory == a.pagesHistory && b.summaries == a.summaries && b.listedOn == a.listedOn
    ensures b.releases == a.releases
    ensures forall i | 0 <= i < |a.chats| :: Held(b.chats[i]) == Held(a.chats[i])
    ensures forall s: Summary, g | HasArrived(a, s, g) :: HasArrived(b, s, g)
  {
    hide Shaped;
    assert Shaped(p, b);
    ShapedIsFiled(p, b);
  }

  lemma ShapedIsFiled(p: Params, a: App)
    requires Shaped(p, a)
    ensures Filed(a, a.states)
  {
    hide ChatSound;
  }

  lemma StillShows(a: App, b: App)
    requires Still(a, b) && Holding(a)
    ensures ScreenOf(b) == ScreenOf(a)
  {
    assert ScreenOf(b).faces == ScreenOf(a).faces;
  }

  lemma ReleasedCounts(a: App, list: Fleet)
    ensures Released(a, list).releases == a.releases + 1 && Released(a, list).ctl.open.None?
  {
    hide Committed;
  }

  // ------------------------------------------------- it releases, or it has asked

  /** Nothing more can be asked for one listed session: something is on its way, or nothing is wanted. */
  predicate Fed(p: Params, pages: bool, c: Chat, pending: seq<CardRef>) {
    || c.log.page.Some? || c.pin.Some?
    || (!NeedsEarlierPage(p, c) && (pages ==> forall i | 0 <= i < |pending| :: HoldsCard(c, pending[i])))
  }

  lemma {:induction false} NoneToPin(c: Chat, pending: seq<CardRef>)
    requires FirstToPin(c, pending).None?
    ensures forall i | 0 <= i < |pending| :: !CanPin(c, pending[i])
    decreases |pending|
  {
    if pending != [] {
      NoneToPin(c, pending[1..]);
      forall i | 0 <= i < |pending| ensures !CanPin(c, pending[i]) {
        if i > 0 { assert pending[i] == pending[1..][i - 1]; }
      }
    }
  }

  lemma {:induction false} FirstCanBePinned(c: Chat, pending: seq<CardRef>)
    requires FirstToPin(c, pending).Some?
    ensures CanPin(c, FirstToPin(c, pending).value)
    decreases |pending|
  {
    if !CanPin(c, pending[0]) { FirstCanBePinned(c, pending[1..]); }
  }

  /** What one change to a session leaves of it, shown or not. */
  lemma PutLeaves(a: App, id: nat, c: Chat)
    requires id < |a.chats|
    ensures var d := Put(a, id, c).chats[id];
      d.log == c.log && d.pin == c.pin && d.pins == c.pins && d.unpinnable == c.unpinnable && d.rows == c.rows
    ensures |Put(a, id, c).chats| == |a.chats| && Put(a, id, c) == a.(chats := Put(a, id, c).chats)
    ensures forall i | 0 <= i < |a.chats| && i != id :: Put(a, id, c).chats[i] == a.chats[i]
  {
    hide Current;
  }

  /** A fill of one key touches the session object it names, and no other. */
  predicate OnlyMoves(a: App, b: App, key: Key) {
    && b.states == a.states && |b.chats| == |a.chats|
    && forall i | 0 <= i < |a.chats| && (key in a.states ==> i != a.states[key]) :: b.chats[i] == a.chats[i]
  }

  lemma CardsPinnedFeeds(p: Params, a: App, s: Summary)
    requires HasState(a, s.key) && a.ctl.connected && a.listedOn == Some(a.ctl.generation)
    requires SummaryFor(a.summaries, s.key) == Some(s)
    ensures OnlyMoves(a, CardsPinned(p, a, s.key), s.key)
    ensures var c := CardsPinned(p, a, s.key).chats[a.states[s.key]];
      || c.log.page.Some? || c.pin.Some? || (a.pagesHistory ==> forall i | 0 <= i < |s.pending| :: HoldsCard(c, s.pending[i]))
  {
    hide Put, PinsKept;
    if a.pagesHistory {
      var id := a.states[s.key];
      var kept := if Held(ChatOf(a, s.key)) >= s.lastSeq then Put(a, id, PinsKept(p, ChatOf(a, s.key), s.pending)) else a;
      PutLeaves(a, id, PinsKept(p, ChatOf(a, s.key), s.pending));
      var c := kept.chats[id];
      var first := FirstToPin(c, s.pending);
      if first.Some? {
        FirstCanBePinned(c, s.pending);
        PutLeaves(kept, id, PinBegun(c, first.value, kept.nextRequest));
      } else {
        NoneToPin(c, s.pending);
      }
    }
  }

  lemma WindowFilledFeeds(p: Params, a: App, s: Summary)
    requires HasState(a, s.key) && a.ctl.connected && a.listedOn == Some(a.ctl.generation)
    requires SummaryFor(a.summaries, s.key) == Some(s) && Held(ChatOf(a, s.key)) >= s.lastSeq && Shaped(p, a)
    ensures OnlyMoves(a, WindowFilled(p, a, s.key), s.key)
    ensures Fed(p, a.pagesHistory, WindowFilled(p, a, s.key).chats[a.states[s.key]], s.pending)
  {
    hide Put, Shaped, CardsPinned, HoldsCard, Fills;
    CardsPinnedFeeds(p, a, s);
    var pinned := CardsPinned(p, a, s.key);
    CardsPinnedFills(p, a, s.key);
    FillsKeepsArrivals(p, a, pinned);
    var c := ChatOf(pinned, s.key);
    PutLeaves(pinned, a.states[s.key], PageAsked(c, pinned.nextRequest));
  }

  /** A listed session is here, and the list the screen follows says what it is waited for. */
  predicate Here(a: App, s: Summary) {
    HasState(a, s.key) && Held(ChatOf(a, s.key)) >= s.lastSeq && SummaryFor(a.summaries, s.key) == Some(s)
  }

  lemma HereStays(p: Params, a: App, b: App, s: Summary)
    requires Fills(p, a, b) && Here(a, s)
    ensures Here(b, s)
  {
    hide Shaped, SummaryFor;
  }

  lemma FeedsNext(p: Params, a: App, s: Summary, r: Summary)
    requires Shaped(p, a) && a.ctl.connected && a.listedOn == Some(a.ctl.generation) && Here(a, s) && Here(a, r)
    requires r == s || Fed(p, a.pagesHistory, ChatOf(a, r.key), r.pending)
    ensures var b := WindowFilled(p, a, s.key);
      HasState(b, r.key) && Fed(p, a.pagesHistory, ChatOf(b, r.key), r.pending)
  {
    hide Shaped, WindowFilled, Fed, SummaryFor;
    WindowFilledFeeds(p, a, s);
    ShapedIsFiled(p, a);
  }

  lemma {:induction false} AllFilledFeeds(p: Params, a: App, list: Fleet)
    requires Shaped(p, a) && a.ctl.connected && a.listedOn == Some(a.ctl.generation)
    requires forall i | 0 <= i < |list| :: Here(a, list[i])
    ensures forall i | 0 <= i < |list| ::
      var b := AllFilled(p, a, list); HasState(b, list[i].key) && Fed(p, a.pagesHistory, ChatOf(b, list[i].key), list[i].pending)
    decreases |list|
  {
    hide Shaped, Fills, WindowFilled, Fed, Here, HasState;
    if list != [] {
      var front, s := list[..|list| - 1], list[|list| - 1];
      var before := AllFilled(p, a, front);
      AllFilledFeeds(p, a, front);
      AllFilledFills(p, a, front);
      FillsIsShaped(p, a, before);
      FillsKeepsArrivals(p, a, before);
      forall i | 0 <= i < |list|
        ensures var b := AllFilled(p, a, list);
          HasState(b, list[i].key) && Fed(p, a.pagesHistory, ChatOf(b, list[i].key), list[i].pending)
      {
        HereStays(p, a, before, s);
        HereStays(p, a, before, list[i]);
        if i < |front| { assert list[i] == front[i]; }
        FeedsNext(p, before, s, list[i]);
      }
    }
  }

  lemma ReadiedFeeds(p: Params, a: App, list: Fleet)
    requires Shaped(p, a) && Sane(p) && a.ctl.connected && a.listedOn == Some(a.ctl.generation)
    requires forall i | 0 <= i < |list| :: Here(a, list[i])
    ensures Fills(p, a, Readied(p, a, list))
    ensures forall i | 0 <= i < |list| ::
      var b := Readied(p, a, list); HasState(b, list[i].key) && Fed(p, a.pagesHistory, ChatOf(b, list[i].key), list[i].pending)
  {
    hide Shaped, Fills, AllRebuilt, AllFilled, Fed, Here, HasState;
    var built := AllRebuilt(p, a, p.listing(a.states.Keys));
    AllRebuiltFills(p, a, p.listing(a.states.Keys));
    FillsIsShaped(p, a, built);
    FillsKeepsArrivals(p, a, built);
    forall i | 0 <= i < |list| ensures Here(built, list[i]) { HereStays(p, a, built, list[i]); }
    AllFilledFeeds(p, built, list);
    ReadiedFills(p, a, list);
  }

  /**
   **A catch-up waits only for what it has asked for.** On a link that is up, with the
   list it answers to still the latest, and each session of it here: a look releases, or
   it leaves some listed session with a page or a card on its way.
   */
  lemma {:induction false} LookReleasesOrAsks(p: Params, a: App)
    requires Standing(p, a) && Sane(p) && a.ctl.open.Some? && a.ctl.open.value.list.Some?
    requires a.ctl.connected && !a.ctl.wentToBackground && a.listedOn == Some(a.ctl.generation)
    requires var list := a.ctl.open.value.list.value;
      forall i | 0 <= i < |list| ::
        && list[i].key in a.states && a.states[list[i].key] < |a.chats|
        && LastSeq(a.chats[a.states[list[i].key]].log.events) >= list[i].lastSeq
        && list[i].key in a.subscribedAfter && a.subscribedAfter[list[i].key].generation == a.ctl.generation
        && SummaryFor(a.summaries, list[i].key) == Some(list[i])
    ensures Advanced(p, a).releases == a.releases + 1
         || exists i | 0 <= i < |a.ctl.open.value.list.value| ::
              var key := a.ctl.open.value.list.value[i].key;
              && key in Advanced(p, a).states && Advanced(p, a).states[key] < |Advanced(p, a).chats|
              && var c := Advanced(p, a).chats[Advanced(p, a).states[key]]; c.log.page.Some? || c.pin.Some?
  {
    hide Standing, Shaped, Works, Fills, AllRebuilt, AllFilled, Released, Matched, Readied, SummaryFor, NeedsEarlierPage, HoldsCard;
    StandingParts(p, a);
    OpenIsOnLink(p, a);
    var list := a.ctl.open.value.list.value;
    ReadiedFeeds(p, a, list);
    var ready := Readied(p, a, list);
    FillsKeepsArrivals(p, a, ready);
    ReleasedCounts(ready, list);
    LookIs(p, a);
    if i :| 0 <= i < |list| && !IsCaughtUp(p, ready, list[i], a.ctl.generation) {
      assert HasArrived(ready, list[i], a.ctl.generation);
      var c := ChatOf(ready, list[i].key);
      assert Fed(p, a.pagesHistory, c, list[i].pending);
      assert c.log.page.Some? || c.pin.Some?;
    }
  }

  /** A look at sessions that are all here: what it readied, and released if all is caught up. */
  lemma LookIs(p: Params, a: App)
    requires a.ctl.open.Some? && !a.ctl.wentToBackground && a.ctl.open.value.list.Some?
    requires forall i | 0 <= i < |a.ctl.open.value.list.value| ::
      HasArrived(a, a.ctl.open.value.list.value[i], a.ctl.open.value.generation)
    ensures var list, generation := a.ctl.open.value.list.value, a.ctl.open.value.generation;
            var ready := Readied(p, a, list);
      Advanced(p, a) == if forall i | 0 <= i < |list| :: IsCaughtUp(p, ready, list[i], generation)
                        then Released(ready, list) else ready
  {
    hide HasArrived, IsCaughtUp, AllRebuilt, AllFilled, Released;
  }

  // ------------------------------------------------- with nothing left to ask for

  /** No window cuts the log short, and nothing is on its way. */
  predicate AtRest(c: Chat) {
    c.log.page == None && c.pin == None && (c.log.windowStart == None || c.log.windowStart.value <= 1)
  }

  /** Seqs count from one. */
  predicate Numbered(list: Fleet) {
    forall i, k | 0 <= i < |list| && 0 <= k < |list[i].pending| :: list[i].pending[k].at >= 1
  }

  predicate RestKept(a: App, b: App) {
    && |b.chats| == |a.chats| && b.states == a.states && b.summaries == a.summaries
    && forall i | 0 <= i < |a.chats| && AtRest(a.chats[i]) :: AtRest(b.chats[i])
  }

  lemma {:induction false} SummaryIsNumbered(list: Fleet, key: Key)
    requires Numbered(list) && SummaryFor(list, key).Some?
    ensures forall k | 0 <= k < |SummaryFor(list, key).value.pending| :: SummaryFor(list, key).value.pending[k].at >= 1
    decreases |list|
  {
    if list[0].key != key {
      assert forall i | 0 <= i < |list[1..]| :: list[1..][i] == list[i + 1];
      SummaryIsNumbered(list[1..], key);
    }
  }

  lemma CardsPinnedRests(p: Params, a: App, key: Key)
    requires Numbered(a.summaries)
    ensures RestKept(a, CardsPinned(p, a, key))
  {
    hide Put, PinsKept, SummaryFor, Numbered;
    if a.ctl.connected && a.pagesHistory && a.listedOn == Some(a.ctl.generation) && HasState(a, key)
       && SummaryFor(a.summaries, key).Some? {
      SummaryIsNumbered(a.summaries, key);
      var s := SummaryFor(a.summaries, key).value;
      var id := a.states[key];
      var kept := if Held(ChatOf(a, key)) >= s.lastSeq then Put(a, id, PinsKept(p, ChatOf(a, key), s.pending)) else a;
      PutLeaves(a, id, PinsKept(p, ChatOf(a, key), s.pending));
      PinsKeptAsks(p, ChatOf(a, key), s.pending);
      var c := kept.chats[id];
      var first := FirstToPin(c, s.pending);
      if first.Some? {
        FirstIsListed(c, s.pending);
        FirstCanBePinned(c, s.pending);
        PutLeaves(kept, id, PinBegun(c, first.value, kept.nextRequest));
      }
    }
  }

  lemma PinsKeptAsks(p: Params, c: Chat, pending: seq<CardRef>)
    ensures PinsKept(p, c, pending).log == c.log && PinsKept(p, c, pending).pin == c.pin
  {
    hide Lists, Answered;
  }

  lemma {:induction false} FirstIsListed(c: Chat, pending: seq<CardRef>)
    requires FirstToPin(c, pending).Some?
    ensures FirstToPin(c, pending).value in pending
    decreases |pending|
  {
    if !CanPin(c, pending[0]) { FirstIsListed(c, pending[1..]); }
  }

  lemma WindowFilledRests(p: Params, a: App, key: Key)
    requires Numbered(a.summaries)
    ensures RestKept(a, WindowFilled(p, a, key))
  {
    hide Put, CardsPinned, SummaryFor, Numbered;
    CardsPinnedRests(p, a, key);
    var pinned := CardsPinned(p, a, key);
    if HasState(pinned, key) {
      PutLeaves(pinned, pinned.states[key], PageAsked(ChatOf(pinned, key), pinned.nextRequest));
    }
  }

  lemma RebuiltNowRests(p: Params, a: App, id: nat)
    requires Numbered(a.summaries) && id < |a.chats|
    ensures RestKept(a, RebuiltNow(p, a, id))
  {
    hide Put, WindowFilled, Numbered;
    var c := a.chats[id];
    SettlingKeepsWindow(c.log);
    PutLeaves(a, id, Rebuilt(p, c));
    WindowFilledRests(p, Put(a, id, Rebuilt(p, c)), c.key);
  }

  lemma {:induction false} AllRebuiltRests(p: Params, a: App, keys: seq<Key>)
    requires Numbered(a.summaries)
    ensures RestKept(a, AllRebuilt(p, a, keys))
    decreases |keys|
  {
    hide RebuiltNow, Numbered, AtRest;
    if keys != [] {
      var before, key := AllRebuilt(p, a, keys[..|keys| - 1]), keys[|keys| - 1];
      AllRebuiltRests(p, a, keys[..|keys| - 1]);
      if HasState(before, key) { RebuiltNowRests(p, before, before.states[key]); }
    }
  }

  lemma {:induction false} AllFilledRests(p: Params, a: App, list: Fleet)
    requires Numbered(a.summaries)
    ensures RestKept(a, AllFilled(p, a, list))
    decreases |list|
  {
    hide WindowFilled, Numbered, AtRest;
    if list != [] {
      AllFilledRests(p, a, list[..|list| - 1]);
      WindowFilledRests(p, AllFilled(p, a, list[..|list| - 1]), list[|list| - 1].key);
    }
  }

  /**
   **With whole logs at rest a look releases at once.** Every session listed is here,
   nothing is cut off below its window and nothing is on its way: the screen is let go,
   on that list, by this very look, link or no link.
   */
  lemma {:induction false} WholeLogsRelease(p: Params, a: App, list: Fleet)
    requires Standing(p, a) && Sane(p) && a.ctl.open.Some? && a.ctl.open.value.list == Some(list)
    requires !a.ctl.wentToBackground
    requires forall i, k | 0 <= i < |a.summaries| && 0 <= k < |a.summaries[i].pending| :: a.summaries[i].pending[k].at >= 1
    requires forall i, k | 0 <= i < |list| && 0 <= k < |list[i].pending| :: list[i].pending[k].at >= 1
    requires forall i | 0 <= i < |list| ::
      && list[i].key in a.states && a.states[list[i].key] < |a.chats|
      && list[i].key in a.subscribedAfter && a.subscribedAfter[list[i].key].generation == a.ctl.generation
      && var c := a.chats[a.states[list[i].key]];
         && LastSeq(c.log.events) >= list[i].lastSeq && c.log.page == None && c.pin == None
         && (c.log.windowStart == None || c.log.windowStart.value <= 1)
    ensures var b := Advanced(p, a);
      b.releases == a.releases + 1 && b.ctl.open == None && b.past.landed == list && b.shownSummaries == a.summaries
  {
    hide Standing, Shaped, Works, Fills, AllRebuilt, AllFilled, Released, Matched, Readied, IsCaughtUp;
    StandingParts(p, a);
    OpenIsOnLink(p, a);
    var ready := Readied(p, a, list);
    AllAtRest(p, a, list);
    ReadiedFills(p, a, list);
    FillsKeepsArrivals(p, a, ready);
    FillsKeepsBooks(p, a, ready);
    forall i | 0 <= i < |list| ensures IsCaughtUp(p, ready, list[i], a.ctl.generation) {
      assert HasArrived(a, list[i], a.ctl.generation);
      RestIsCaughtUp(p, ready, list[i], a.ctl.generation);
    }
    LookIs(p, a);
    ReleasedCounts(ready, list);
    ReleasedBooks(ready, list);
  }

  lemma AllAtRest(p: Params, a: App, list: Fleet)
    requires Numbered(a.summaries)
    ensures RestKept(a, Readied(p, a, list))
  {
    hide AllRebuilt, AllFilled, AtRest, Numbered;
    AllRebuiltRests(p, a, p.listing(a.states.Keys));
    AllFilledRests(p, AllRebuilt(p, a, p.listing(a.states.Keys)), list);
  }

  lemma RestIsCaughtUp(p: Params, a: App, s: Summary, generation: nat)
    requires HasArrived(a, s, generation) && AtRest(ChatOf(a, s.key))
    requires forall k | 0 <= k < |s.pending| :: s.pending[k].at >= 1
    ensures IsCaughtUp(p, a, s, generation)
  {
  }

  lemma OpenIsOnLink(p: Params, a: App)
    requires Standing(p, a) && a.ctl.open.Some?
    ensures a.ctl.open.value.generation == a.ctl.generation
  {
    hide Shaped, Holding;
  }

  // ------------------------------------------------- a run the reader removed

  lemma {:induction false} WithoutIsExact(list: Fleet, s: Summary, key: Key)
    ensures s in Without(list, key) <==> s in list && s.key != key
    decreases |list|
  {
    if list != [] {
      var front, last := list[..|list| - 1], list[|list| - 1];
      WithoutIsExact(front, s, key);
      assert s in list <==> s in front || s == last by { assert list == front + [last]; }
    }
  }

  /**
   **A removed run is waited for no longer.** With the screen held, a removal takes the run
   off the list waited for and the list drawn, with its session, its face and its mark, and
   nothing else; what is left to wait for is looked at then and there.
   */
  lemma {:induction false} RemovedIsNotWaitedFor(p: Params, a: App, key: Key)
    requires a.ctl.open.Some?
    ensures var mid := Worked(p, Ticked(a), RemovalConfirmed(key)).0;
      && Stepped(p, a, RemovalConfirmed(key)) == Advanced(p, mid)
      && mid.ctl.open.Some? && mid.ctl.open.value.progressed
      && mid.ctl.open.value.list.Some? == a.ctl.open.value.list.Some?
      && (a.ctl.open.value.list.Some? ==>
            forall s :: s in mid.ctl.open.value.list.value <==> s in a.ctl.open.value.list.value && s.key != key)
      && (forall s :: s in mid.shownSummaries <==> s in a.shownSummaries && s.key != key)
      && mid.states.Keys == a.states.Keys - {key} && (forall k | k in mid.states :: mid.states[k] == a.states[k])
      && mid.shownStates.Keys == a.shownStates.Keys - {key} && (forall k | k in mid.shownStates :: mid.shownStates[k] == a.shownStates[k])
      && mid.marks.Keys == a.marks.Keys - {key} && (forall k | k in mid.marks :: mid.marks[k] == a.marks[k])
      && mid.chats == a.chats
  {
    hide Advanced, Without;
    forall s: Summary
      ensures s in Without(a.shownSummaries, key) <==> s in a.shownSummaries && s.key != key
      ensures a.ctl.open.value.list.Some? ==>
                (s in Without(a.ctl.open.value.list.value, key) <==> s in a.ctl.open.value.list.value && s.key != key)
    {
      WithoutIsExact(a.shownSummaries, s, key);
      if a.ctl.open.value.list.Some? { WithoutIsExact(a.ctl.open.value.list.value, s, key); }
    }
  }
}
