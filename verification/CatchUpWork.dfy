/**
 What the catch-up's inner work keeps, held or live: the shape of the machine's
 model, every session's copy of its log well kept, and what is drawn level with
 what is held once it is built.

 `Works(a, b)` says that work went on: sessions may have been added, asked, filled and
 built, and each is still sound. `Fills(a, b)` is the narrower work a look does before
 it checks anything: no event comes or goes, and what was built stays built, which is
 why what the look checks is what it publishes. Both compose (`WorksChains`,
 `FillsChains`), so an operation over a whole list is its step for one session,
 repeated; and what is shown of one session (`PutWorks`, `PutFills`) is shown of the
 one place in the model that changed.
 */
module CatchUpWork {
  import opened Wrappers
  import opened Replica
  import ReplicaRuns
  import opened CatchUp
  import opened CatchUpRuns

  /** A dictionary enumerates its keys, and a timeline of nothing is empty. */
  ghost predicate Sane(p: Params) {
    (forall s: set<Key>, key: Key :: key in s ==> key in p.listing(s)) && p.draw([], map[]) == ""
  }

  predicate IsBuilt(c: Chat) { !c.rebuildDue && c.log.pending == [] }

  /** A session's copy is well kept, and drawn through its tail unless a rebuild is due. */
  predicate ChatSound(p: Params, c: Chat) {
    && WellKept(c.log)
    && (!c.rebuildDue ==>
          c.log.pending == [] && c.drawnThrough == Held(c) && c.rows == p.draw(c.log.events, c.pins))
  }

  ghost predicate AllSound(p: Params, a: App) {
    forall i | 0 <= i < |a.chats| :: ChatSound(p, a.chats[i])
  }

  /** The shape between steps: with no catch-up open, what is drawn is what is known. */
  ghost predicate Shaped(p: Params, a: App) {
    Filed(a, a.states) && AllSound(p, a)
  }

  /** Inner work: the bookkeeping and the list stay, and the shape is kept. */
  ghost predicate Works(p: Params, a: App, b: App) {
    && b.ctl == a.ctl && b.past == a.past && b.releases == a.releases && b.pagesHistory == a.pagesHistory
    && b.summaries == a.summaries && b.shownSummaries == a.shownSummaries && b.marks == a.marks
    && b.resetDue <= a.resetDue
    && |a.chats| <= |b.chats| && (forall i | 0 <= i < |a.chats| :: b.chats[i].key == a.chats[i].key)
    && Shaped(p, b)
    && (a.ctl.open.None? && a.shownStates == a.states ==> b.shownStates == b.states)
  }

  /** Work on what is drawn and asked for: nothing held changes, and what is built stays built. */
  ghost predicate Fills(p: Params, a: App, b: App) {
    && Works(p, a, b) && b.states == a.states && |b.chats| == |a.chats| && b.resetDue == a.resetDue
    && b.subscribed == a.subscribed && b.subscribedAfter == a.subscribedAfter && b.tasks == a.tasks && b.listedOn == a.listedOn
    && (forall i | 0 <= i < |a.chats| ::
          && Held(b.chats[i]) == Held(a.chats[i]) && b.chats[i].windowEpoch == a.chats[i].windowEpoch
          && b.chats[i].log.windowStart == a.chats[i].log.windowStart
          && (IsBuilt(a.chats[i]) ==> IsBuilt(b.chats[i])))
  }

  lemma WorksChains(p: Params, a: App, b: App, c: App)
    requires Works(p, a, b) && Works(p, b, c)
    ensures Works(p, a, c)
  {
    hide Shaped;
  }

  lemma FillsChains(p: Params, a: App, b: App, c: App)
    requires Fills(p, a, b) && Fills(p, b, c)
    ensures Fills(p, a, c)
  {
    hide Shaped;
  }

  lemma FillsIsShaped(p: Params, a: App, b: App)
    requires Fills(p, a, b)
    ensures Shaped(p, b) && Works(p, a, b) && |b.chats| == |a.chats| && b.states == a.states && b.ctl == a.ctl
  {
  }

  lemma WorksIsShaped(p: Params, a: App, b: App)
    requires Works(p, a, b)
    ensures Shaped(p, b) && b.ctl == a.ctl && b.past == a.past && |a.chats| <= |b.chats|
  {
  }

  // ------------------------------------------------------------- one session

  lemma SoundLog(p: Params, c: Chat)
    requires ChatSound(p, c)
    ensures WellKept(c.log)
  {
  }

  lemma DrawnIsSound(p: Params, c: Chat)
    requires WellKept(c.log) && (c.rebuildDue || c.log.pending == [])
    ensures ChatSound(p, Drawn(p, c))
  {
    hide WellKept;
  }

  lemma FreshIsSound(p: Params, key: Key, holds: bool)
    requires Sane(p)
    ensures ChatSound(p, Fresh(key, holds))
  {
    ReplicaRuns.ClearedKeepsWell(NoGap, false);
  }

  lemma IngestIsSound(p: Params, c: Chat, e: Event)
    requires ChatSound(p, c)
    ensures ChatSound(p, Ingest(c, e)) && Held(Ingest(c, e)) >= Held(c)
  {
    hide WellKept;
    IngestKeepsWell(c.log, e);
    IngestOnlyGrows(c.log, e);
  }

  lemma IngestOnlyGrows(r: Replica, e: Event)
    ensures LastSeq(Ingested(r, e).events) >= LastSeq(r.events)
  {
    hide Noting;
    NoteMissingTouches(r, Range(LastSeq(r.events) + 1, if e.at == 0 then 0 else e.at - 1));
  }

  lemma RebuiltIsSound(p: Params, c: Chat)
    requires ChatSound(p, c)
    ensures ChatSound(p, Rebuilt(p, c)) && Held(Rebuilt(p, c)) == Held(c) && IsBuilt(Rebuilt(p, c))
    ensures Rebuilt(p, c).windowEpoch == c.windowEpoch && Rebuilt(p, c).log.windowStart == c.log.windowStart
  {
    hide WellKept, Settled;
    MergeKeepsWell(c.log);
    SettlingKeepsWindow(c.log);
    DrawnIsSound(p, c.(log := Settled(c.log), rebuildDue := false));
  }

  lemma SettlingKeepsWindow(r: Replica)
    ensures Settled(r).windowStart == r.windowStart && Settled(r).page == r.page
  {
    hide InsertAll, NewerFact;
  }

  lemma PageIsSound(p: Params, c: Chat, id: nat)
    requires ChatSound(p, c)
    ensures ChatSound(p, PageAsked(c, id)) && Held(PageAsked(c, id)) == Held(c)
    ensures PageAsked(c, id).log.windowStart == c.log.windowStart
    ensures PageAsked(c, id).windowEpoch == c.windowEpoch && (IsBuilt(c) ==> IsBuilt(PageAsked(c, id)))
  {
    hide WellKept;
    ReplicaRuns.StepKeepsWell(c.log, ReplicaRuns.AskPage(id));
  }

  lemma PinsKeptIsSound(p: Params, c: Chat, pending: seq<CardRef>)
    requires ChatSound(p, c)
    ensures ChatSound(p, PinsKept(p, c, pending)) && Held(PinsKept(p, c, pending)) == Held(c)
    ensures PinsKept(p, c, pending).windowEpoch == c.windowEpoch
    ensures PinsKept(p, c, pending).rebuildDue == c.rebuildDue && PinsKept(p, c, pending).log == c.log
  {
    hide WellKept, Lists, Answered;
  }

  lemma WindowIsSound(p: Params, c: Chat, daemonLast: nat, keepEarlier: bool, pending: seq<CardRef>)
    requires ChatSound(p, c)
    ensures ChatSound(p, WindowApplied(p, c, daemonLast, keepEarlier, pending))
  {
    hide WellKept, Windowed, Trimmed, Settled, Below;
    WindowKeepsWell(c.log, daemonLast, keepEarlier);
    if !KeepsAsIs(c.log, daemonLast, keepEarlier) { ReplicaRuns.WindowIsWhole(c.log, daemonLast, keepEarlier); }
  }

  lemma RequestEndIsSound(p: Params, c: Chat, id: nat, firstSeq: nat, failed: bool)
    requires ChatSound(p, c)
    ensures ChatSound(p, RequestEnded(p, c, id, firstSeq, failed))
  {
    hide WellKept;
    PageEndKeepsWell(c.log, id, firstSeq, failed);
    PageEndSettles(c.log, id, firstSeq, failed);
  }

  lemma PageEndSettles(r: Replica, id: nat, firstSeq: nat, failed: bool)
    requires WellKept(r)
    ensures r.page.Some? && r.page.value.id == id && !failed ==> PageEnded(r, id, firstSeq, failed).pending == []
    ensures r.page.Some? && r.page.value.id == id && failed ==>
              PageEnded(r, id, firstSeq, failed).pending == r.pending && PageEnded(r, id, firstSeq, failed).events == r.events
  {
    hide Settled, WithPage, Content, Ascending;
    if r.page.Some? && r.page.value.id == id && !failed {
      var before := r.(page := None, pageBuffer := [], fillStopped := failed, pending := WithPage(r.pending, r.pageBuffer));
      GapsAreTheirOwn(r, before);
      MergeKeepsGaps(before);
    }
  }

  lemma CancelIsSound(p: Params, c: Chat)
    requires ChatSound(p, c)
    ensures ChatSound(p, Cancelled(c))
  {
    hide WellKept;
    ReplicaRuns.StepKeepsWell(c.log, ReplicaRuns.DropPage);
  }

  lemma CacheIsSound(p: Params, c: Chat, cached: seq<Event>)
    requires ChatSound(p, c) && Ascending(cached)
    ensures ChatSound(p, CacheLoaded(p, c, cached))
  {
    hide NewerFact, Content;
    if c.log.events == [] && c.log.pending == [] && c.log.windowStart.None? {
      EmptyHoldsNothing([]);
      DistinctEmpty();
      assert c.log.missing == [];
    }
  }

  lemma RewoundIsSound(p: Params, c: Chat)
    requires ChatSound(p, c) && Sane(p)
    ensures ChatSound(p, LogRewoundFor(c))
  {
    ReplicaRuns.ClearedKeepsWell(LogRewound, c.log.fillStopped);
  }

  lemma DismissIsSound(p: Params, c: Chat)
    requires ChatSound(p, c)
    ensures ChatSound(p, NoticeDismissed(c))
  {
    hide WellKept;
    ReplicaRuns.StepKeepsWell(c.log, ReplicaRuns.Dismiss);
  }

  // ------------------------------------------------------------ the inner work

  lemma NothingFills(p: Params, a: App, b: App)
    requires Shaped(p, a) && b == a.(nextRequest := b.nextRequest)
    ensures Fills(p, a, b)
  {
    hide ChatSound;
  }

  lemma PutWorks(p: Params, a: App, id: nat, c: Chat)
    requires Shaped(p, a) && id < |a.chats| && ChatSound(p, c) && c.key == a.chats[id].key
    ensures Works(p, a, Put(a, id, c))
    ensures Put(a, id, c).states == a.states && |Put(a, id, c).chats| == |a.chats|
    ensures Held(Put(a, id, c).chats[id]) == Held(c)
  {
    hide Committed, WellKept;
    CommittedKeeps(c, MarkOf(a, c.key), Live);
  }

  lemma PutFills(p: Params, a: App, id: nat, c: Chat)
    requires Shaped(p, a) && id < |a.chats| && ChatSound(p, c) && c.key == a.chats[id].key
    requires Held(c) == Held(a.chats[id]) && c.windowEpoch == a.chats[id].windowEpoch
    requires c.log.windowStart == a.chats[id].log.windowStart
    requires IsBuilt(a.chats[id]) ==> IsBuilt(c)
    ensures Fills(p, a, Put(a, id, c))
    ensures IsBuilt(c) ==> IsBuilt(Put(a, id, c).chats[id])
  {
    hide Committed, WellKept, Shaped, ChatSound;
    PutWorks(p, a, id, c);
    CommittedKeeps(c, MarkOf(a, c.key), Live);
  }

  lemma CardsPinnedFills(p: Params, a: App, key: Key)
    requires Shaped(p, a)
    ensures Fills(p, a, CardsPinned(p, a, key))
  {
    hide Put, PinsKept, PinBegun, FirstToPin, SummaryFor, Fills, ChatSound, CanPin;
    NothingFills(p, a, a);
    if a.ctl.connected && a.pagesHistory && a.listedOn == Some(a.ctl.generation) && HasState(a, key)
       && SummaryFor(a.summaries, key).Some? {
      var summary := SummaryFor(a.summaries, key).value;
      var id, c := a.states[key], ChatOf(a, key);
      SoundAt(p, a, id);
      var kept := if Held(c) >= summary.lastSeq then Put(a, id, PinsKept(p, c, summary.pending)) else a;
      if Held(c) >= summary.lastSeq {
        PinsKeptIsSound(p, c, summary.pending);
        PinsKeptFace(p, c, summary.pending);
        PutFills(p, a, id, PinsKept(p, c, summary.pending));
      }
      FillsIsShaped(p, a, kept);
      var d := kept.chats[id];
      var first := FirstToPin(d, summary.pending);
      if first.Some? {
        SoundAt(p, kept, id);
        PinBegunIsSound(p, d, first.value, kept.nextRequest);
        PutFills(p, kept, id, PinBegun(d, first.value, kept.nextRequest));
        var begun := Put(kept, id, PinBegun(d, first.value, kept.nextRequest));
        FillsIsShaped(p, kept, begun);
        NothingFills(p, begun, begun.(nextRequest := kept.nextRequest + 1));
        FillsChains(p, kept, begun, begun.(nextRequest := kept.nextRequest + 1));
        FillsChains(p, a, kept, begun.(nextRequest := kept.nextRequest + 1));
      }
    }
  }

  lemma SoundAt(p: Params, a: App, id: nat)
    requires Shaped(p, a) && id < |a.chats|
    ensures ChatSound(p, a.chats[id])
  {
  }

  lemma PinBegunIsSound(p: Params, c: Chat, ref: CardRef, id: nat)
    requires ChatSound(p, c)
    ensures ChatSound(p, PinBegun(c, ref, id)) && PinBegun(c, ref, id).key == c.key
    ensures PinBegun(c, ref, id).log == c.log && PinBegun(c, ref, id).windowEpoch == c.windowEpoch
    ensures PinBegun(c, ref, id).rebuildDue == c.rebuildDue
  {
  }

  lemma PageRequestedFills(p: Params, a: App, key: Key)
    requires Shaped(p, a)
    ensures Fills(p, a, PageRequested(a, key))
  {
    hide Put, Fills, PageAsked, ChatSound;
    NothingFills(p, a, a);
    if a.ctl.connected && HasState(a, key) && CanPage(ChatOf(a, key)) {
      var id, c := a.states[key], ChatOf(a, key);
      SoundAt(p, a, id);
      PageIsSound(p, c, a.nextRequest);
      PageAskedFace(c, a.nextRequest);
      PutFills(p, a, id, PageAsked(c, a.nextRequest));
      var asked := Put(a, id, PageAsked(c, a.nextRequest));
      FillsIsShaped(p, a, asked);
      NothingFills(p, asked, asked.(nextRequest := a.nextRequest + 1));
      FillsChains(p, a, asked, asked.(nextRequest := a.nextRequest + 1));
    }
  }

  lemma WindowFilledFills(p: Params, a: App, key: Key)
    requires Shaped(p, a)
    ensures Fills(p, a, WindowFilled(p, a, key))
  {
    hide Fills, CardsPinned, PageRequested, Shaped, SummaryFor;
    CardsPinnedFills(p, a, key);
    var pinned := CardsPinned(p, a, key);
    FillsIsShaped(p, a, pinned);
    PageRequestedFills(p, pinned, key);
    FillsChains(p, a, pinned, PageRequested(pinned, key));
  }

  lemma RebuiltNowFills(p: Params, a: App, id: nat)
    requires Shaped(p, a) && id < |a.chats|
    ensures Fills(p, a, RebuiltNow(p, a, id)) && id < |RebuiltNow(p, a, id).chats|
    ensures IsBuilt(RebuiltNow(p, a, id).chats[id])
  {
    hide Fills, Rebuilt, WindowFilled, Shaped, Put, ChatSound;
    NothingFills(p, a, a);
    SoundAt(p, a, id);
    var c := a.chats[id];
    if c.rebuildDue || c.log.pending != [] {
      var drawn := Put(a, id, Rebuilt(p, c));
      RebuiltFace(p, c);
      RebuiltIsSound(p, c);
      PutFills(p, a, id, Rebuilt(p, c));
      FillsIsShaped(p, a, drawn);
      WindowFilledFills(p, drawn, c.key);
      FillsKeepsBuilt(p, drawn, WindowFilled(p, drawn, c.key), id);
      FillsChains(p, a, drawn, WindowFilled(p, drawn, c.key));
    }
  }

  lemma FillsKeepsBuilt(p: Params, a: App, b: App, id: nat)
    requires Fills(p, a, b) && id < |a.chats| && IsBuilt(a.chats[id])
    ensures id < |b.chats| && IsBuilt(b.chats[id])
  {
  }

  /** Rebuilding every session leaves each of them built. */
  lemma {:induction false} AllRebuiltFills(p: Params, a: App, keys: seq<Key>)
    requires Shaped(p, a)
    ensures Fills(p, a, AllRebuilt(p, a, keys))
    ensures forall k | k in keys && HasState(a, k) :: IsBuilt(AllRebuilt(p, a, keys).chats[a.states[k]])
    decreases |keys|
  {
    hide Fills, RebuiltNow, Shaped, IsBuilt;
    if keys == [] {
      NothingFills(p, a, a);
    } else {
      var before, key := AllRebuilt(p, a, keys[..|keys| - 1]), keys[|keys| - 1];
      AllRebuiltFills(p, a, keys[..|keys| - 1]);
      FillsIsShaped(p, a, before);
      if HasState(before, key) {
        var after := RebuiltNow(p, before, before.states[key]);
        RebuiltNowFills(p, before, before.states[key]);
        FillsIsShaped(p, before, after);
        FillsChains(p, a, before, after);
        forall k | k in keys && HasState(a, k) ensures IsBuilt(after.chats[a.states[k]]) {
          if k != key {
            assert k in keys[..|keys| - 1];
            FillsKeepsBuilt(p, before, after, a.states[k]);
          }
        }
      } else {
        forall k | k in keys && HasState(a, k) ensures IsBuilt(before.chats[a.states[k]]) {
          assert k in keys[..|keys| - 1];
        }
      }
    }
  }

  lemma {:induction false} AllFilledFills(p: Params, a: App, list: Fleet)
    requires Shaped(p, a)
    ensures Fills(p, a, AllFilled(p, a, list))
    decreases |list|
  {
    hide Fills, WindowFilled, Shaped;
    if list == [] {
      NothingFills(p, a, a);
    } else {
      var before := AllFilled(p, a, list[..|list| - 1]);
      AllFilledFills(p, a, list[..|list| - 1]);
      FillsIsShaped(p, a, before);
      WindowFilledFills(p, before, list[|list| - 1].key);
      FillsChains(p, a, before, WindowFilled(p, before, list[|list| - 1].key));
    }
  }

  /** What a look at the catch-up checks is built, every session of it. */
  lemma {:induction false} ReadiedFills(p: Params, a: App, list: Fleet)
    requires Shaped(p, a) && Sane(p)
    ensures Fills(p, a, Readied(p, a, list))
    ensures forall k | HasState(a, k) :: IsBuilt(Readied(p, a, list).chats[a.states[k]])
  {
    hide Fills, AllRebuilt, AllFilled, Shaped, IsBuilt;
    var built := AllRebuilt(p, a, p.listing(a.states.Keys));
    AllRebuiltFills(p, a, p.listing(a.states.Keys));
    FillsIsShaped(p, a, built);
    AllFilledFills(p, built, list);
    var ready := Readied(p, a, list);
    FillsIsShaped(p, built, ready);
    FillsChains(p, a, built, ready);
    forall k | HasState(a, k) ensures IsBuilt(ready.chats[a.states[k]]) {
      assert k in a.states.Keys && k in p.listing(a.states.Keys);
      FillsKeepsBuilt(p, built, ready, a.states[k]);
    }
  }

  lemma ChatAdded(p: Params, a: App, key: Key, c: Chat)
    requires Shaped(p, a) && ChatSound(p, c) && c.key == key && key !in a.states
    ensures var b := a.(chats := a.chats + [c], states := a.states[key := |a.chats|],
                        shownStates := if a.ctl.open.Some? then a.shownStates else a.shownStates[key := |a.chats|]);
      Works(p, a, b)
  {
    hide ChatSound;
    var b := a.(chats := a.chats + [c], states := a.states[key := |a.chats|],
                shownStates := if a.ctl.open.Some? then a.shownStates else a.shownStates[key := |a.chats|]);
    forall k | k in b.states ensures b.states[k] < |b.chats| && b.chats[b.states[k]].key == k {
      if k != key { assert k in a.states; }
    }
    forall i | 0 <= i < |b.chats| ensures ChatSound(p, b.chats[i]) {
      if i < |a.chats| { assert b.chats[i] == a.chats[i]; }
    }
  }

  lemma StatedWorks(p: Params, a: App, key: Key)
    requires Shaped(p, a) && Sane(p)
    ensures Works(p, a, Stated(a, key))
    ensures forall i | 0 <= i < |a.chats| :: Stated(a, key).chats[i] == a.chats[i]
    ensures a.resetDue == Stated(a, key).resetDue
  {
    hide Works, Fresh, ChatSound;
    if HasState(a, key) {
      SameWorks(p, a, a);
    } else {
      assert key !in a.states;
      FreshIsSound(p, key, a.ctl.open.Some?);
      FreshIsKeyed(key, a.ctl.open.Some?);
      ChatAdded(p, a, key, Fresh(key, a.ctl.open.Some?));
    }
  }

  lemma FreshIsKeyed(key: Key, holds: bool)
    ensures Fresh(key, holds).key == key && Held(Fresh(key, holds)) == 0
  {
  }

  lemma SameWorks(p: Params, a: App, b: App)
    requires Shaped(p, a)
    requires b == a.(resetDue := b.resetDue, subscribed := b.subscribed, subscribedAfter := b.subscribedAfter, tasks := b.tasks)
    requires b.resetDue <= a.resetDue
    ensures Works(p, a, b)
  {
    hide ChatSound;
  }

  lemma WindowSetWorks(p: Params, a: App, key: Key, daemonLast: nat, keepEarlier: bool)
    requires Shaped(p, a) && HasState(a, key)
    ensures Works(p, a, WindowSet(p, a, key, daemonLast, keepEarlier))
  {
    hide Works, Fills, WindowApplied, WindowFilled, Shaped, Put, SummaryFor, ChatSound;
    var pending := match SummaryFor(a.summaries, key) case Some(s) => s.pending case None => [];
    SoundAt(p, a, a.states[key]);
    var c := WindowApplied(p, ChatOf(a, key), daemonLast, keepEarlier, pending);
    WindowAppliedFace(p, ChatOf(a, key), daemonLast, keepEarlier, pending);
    WindowIsSound(p, ChatOf(a, key), daemonLast, keepEarlier, pending);
    PutWorks(p, a, a.states[key], c);
    var put := Put(a, a.states[key], c);
    WorksIsShaped(p, a, put);
    WindowFilledFills(p, put, key);
    FillsIsShaped(p, put, WindowFilled(p, put, key));
    WorksChains(p, a, put, WindowFilled(p, put, key));
  }

  lemma RestartedWorks(p: Params, a: App, s: Summary)
    requires Shaped(p, a) && HasState(a, s.key)
    ensures Works(p, a, Restarted(p, a, s))
  {
    hide Works, WindowSet, Shaped;
    var set_ := WindowSet(p, a, s.key, s.lastSeq, false);
    WindowSetWorks(p, a, s.key, s.lastSeq, false);
    WorksIsShaped(p, a, set_);
    SameWorks(p, set_, Restarted(p, a, s));
    WorksChains(p, a, set_, Restarted(p, a, s));
  }

  lemma ListedWorks(p: Params, a: App, s: Summary, answers: bool)
    requires Shaped(p, a) && Sane(p)
    ensures Works(p, a, Listed(p, a, s, answers))
  {
    hide Works, Shaped, Stated, Restarted, Put, PinsKept, ChatSound;
    StatedWorks(p, a, s.key);
    var known := Stated(a, s.key);
    WorksIsShaped(p, a, known);
    var spends := a.ctl.open.None? || answers;
    var resetDue := spends && s.key in known.resetDue;
    var spent := if spends then known.(resetDue := known.resetDue - {s.key}) else known;
    SameWorks(p, known, spent);
    WorksChains(p, a, known, spent);
    WorksIsShaped(p, known, spent);
    var restarted := if resetDue && spent.pagesHistory && s.key in spent.subscribed then Restarted(p, spent, s) else spent;
    if resetDue && spent.pagesHistory && s.key in spent.subscribed {
      RestartedWorks(p, spent, s);
      WorksChains(p, a, spent, restarted);
      WorksIsShaped(p, spent, restarted);
    }
    if HasState(restarted, s.key) {
      var asked := SubscribeBegun(restarted, s, resetDue);
      SameWorks(p, restarted, asked);
      WorksChains(p, a, restarted, asked);
      WorksIsShaped(p, restarted, asked);
      if asked.pagesHistory && Held(ChatOf(asked, s.key)) >= s.lastSeq {
        SoundAt(p, asked, asked.states[s.key]);
        PinsKeptFace(p, ChatOf(asked, s.key), s.pending);
        PinsKeptIsSound(p, ChatOf(asked, s.key), s.pending);
        PutWorks(p, asked, asked.states[s.key], PinsKept(p, ChatOf(asked, s.key), s.pending));
        WorksChains(p, a, asked, Put(asked, asked.states[s.key], PinsKept(p, ChatOf(asked, s.key), s.pending)));
      }
    }
  }

  lemma {:induction false} AllListedWorks(p: Params, a: App, list: Fleet, answers: bool)
    requires Shaped(p, a) && Sane(p)
    ensures Works(p, a, AllListed(p, a, list, answers))
    decreases |list|
  {
    hide Works, Shaped, Listed;
    if list == [] {
      SameWorks(p, a, a);
    } else {
      var before, s := AllListed(p, a, list[..|list| - 1], answers), list[|list| - 1];
      AllListedWorks(p, a, list[..|list| - 1], answers);
      WorksIsShaped(p, a, before);
      ListedWorks(p, before, s, answers);
      WorksChains(p, a, before, Listed(p, before, s, answers));
    }
  }
}
