/**
 What holds of a catch-up over every interleaving of leaving, returning, links,
 lists, events, pages, cards, checks and the reader's own acts.

 Everything here comes down to one relation: `Still(a, b)`, under which the truth may
 have moved but no face on screen has. Each inner operation of the model is shown to
 be still while the screen is held, and the operations compose because the relation
 does (`StillChains`). A step is its work, which is still or is the reader's own edit
 (`StepMoves`), and then perhaps a look, which is still or is the release
 (`AdvanceIsStillOrReleases`); over a run, the screen is frozen (`ScreenIsFrozen`).
 */
module CatchUpRuns {
  import opened Wrappers
  import opened Replica
  import opened CatchUp

  // ---------------------------------------------------------- what is on screen

  /** One drawn run: what it shows, and every publication that got it there. */
  datatype Face = Face(shown: View, publications: seq<Publication>)

  datatype Screen = Screen(list: Fleet, faces: map<Key, Face>, marks: map<Key, nat>)

  function FaceOf(c: Chat): Face { Face(c.shown, c.publications) }

  function ScreenOf(a: App): Screen {
    Screen(a.shownSummaries,
           map key | key in a.shownStates && a.shownStates[key] < |a.chats| :: FaceOf(a.chats[a.shownStates[key]]),
           a.marks)
  }

  function MarkIn(marks: map<Key, nat>, key: Key): nat { if key in marks then marks[key] else 0 }

  function FaceDismissed(f: Face): Face {
    if f.shown.gap == NoGap then f
    else Face(f.shown.(gap := NoGap), f.publications + [GapDismissedByReader])
  }

  function FaceReviewed(f: Face, mark: nat): Face {
    if f.shown.reviewed == mark then f
    else Face(f.shown.(reviewed := mark), f.publications + [ReviewedByReader])
  }

  /** What the reader's own act does to the screen; nothing else does anything. */
  function Edited(s: Screen, step: Step): Screen {
    match step
    case RemovalConfirmed(key) =>
      Screen(Without(s.list, key),
             map k | k in s.faces && k != key :: s.faces[k],
             map k | k in s.marks && k != key :: s.marks[k])
    case DismissGap(key) =>
      if key in s.faces then s.(faces := s.faces[key := FaceDismissed(s.faces[key])]) else s
    case MarkReviewed(key) =>
      if key !in s.faces then s
      else
        var mark := Max(MarkIn(s.marks, key), s.faces[key].shown.drawnThrough);
        s.(faces := s.faces[key := FaceReviewed(s.faces[key], mark)], marks := s.marks[key := mark])
    case _ => s
  }

  function AllEdited(s: Screen, steps: seq<Step>): Screen
    decreases |steps|
  {
    if steps == [] then s else Edited(AllEdited(s, steps[..|steps| - 1]), steps[|steps| - 1])
  }

  // ------------------------------------------------------- the standing shape

  /** Every key names a session object filed under it. */
  ghost predicate Filed(a: App, index: map<Key, nat>) {
    forall key | key in index :: index[key] < |a.chats| && a.chats[index[key]].key == key
  }

  /** Every session drawn or known is held. */
  ghost predicate AllHold(a: App, index: map<Key, nat>) {
    forall key | key in index :: index[key] < |a.chats| && a.chats[index[key]].holds
  }

  /** While a catch-up is open, everything it could publish is held. */
  ghost predicate Holding(a: App) {
    && a.ctl.open.Some?
    && Filed(a, a.states) && Filed(a, a.shownStates)
    && AllHold(a, a.states) && AllHold(a, a.shownStates)
  }

  /** An object's own act: what it has published stays published. */
  predicate SameFace(c: Chat, d: Chat) {
    d.key == c.key && d.holds == c.holds && d.shown == c.shown && d.publications == c.publications
  }

  /** From `a` to `b` nothing a held session has published changed, and nothing was let go. */
  ghost predicate Quiet(a: App, b: App) {
    && a.ctl.open.Some? && b.ctl.open.Some? && b.ctl.open.value.epoch == a.ctl.open.value.epoch
    && b.releases == a.releases && b.marks == a.marks
    && b.shownSummaries == a.shownSummaries && b.shownStates == a.shownStates
    && |a.chats| <= |b.chats|
    && (forall i | 0 <= i < |a.chats| :: b.chats[i].key == a.chats[i].key)
    && (forall i | 0 <= i < |a.chats| && a.chats[i].holds :: SameFace(a.chats[i], b.chats[i]))
    && (forall i | |a.chats| <= i < |b.chats| ::
          b.chats[i].holds && b.chats[i].shown == NothingShown && b.chats[i].publications == [])
  }

  /** A step inside a held catch-up. */
  ghost predicate Still(a: App, b: App) {
    Quiet(a, b) && Holding(b)
  }

  lemma StillChains(a: App, b: App, c: App)
    requires Still(a, b) && Still(b, c)
    ensures Still(a, c)
  {
    forall i | |a.chats| <= i < |c.chats|
      ensures c.chats[i].holds && c.chats[i].shown == NothingShown && c.chats[i].publications == []
    {
      if i < |b.chats| { assert b.chats[i].shown == NothingShown; }
    }
  }

  // ---------------------------------------- no change of truth shows its face

  lemma PutIsStill(a: App, id: nat, c: Chat)
    requires Holding(a) && id < |a.chats| && SameFace(a.chats[id], c)
    ensures Still(a, Put(a, id, c))
  {
    hide Committed;
    CommittedKeeps(c, MarkOf(a, c.key), Live);
  }

  lemma CommittedKeeps(c: Chat, mark: nat, why: Publication)
    ensures Committed(c, mark, why).key == c.key && Committed(c, mark, why).holds == c.holds
    ensures Committed(c, mark, why) == c.(shown := Current(c, mark), publications := Committed(c, mark, why).publications)
    ensures Committed(c, mark, why).publications
         == if Current(c, mark) == c.shown then c.publications else c.publications + [why]
  {
  }

  lemma StatedIsStill(a: App, key: Key)
    requires Holding(a)
    ensures Still(a, Stated(a, key))
  {
    if !HasState(a, key) {
      assert key !in a.states;
      OneMoreChat(a, Stated(a, key), key);
    } else {
      SameObjectsAreStill(a, a);
    }
  }

  lemma OneMoreChat(a: App, b: App, key: Key)
    requires Holding(a) && b.ctl == a.ctl && b.releases == a.releases && b.marks == a.marks
    requires b.shownSummaries == a.shownSummaries && b.shownStates == a.shownStates
    requires b.chats == a.chats + [Fresh(key, true)] && b.states == a.states[key := |a.chats|]
    ensures Still(a, b)
  {
    forall k | k in b.states
      ensures b.states[k] < |b.chats| && b.chats[b.states[k]].key == k && b.chats[b.states[k]].holds
    {
      if k != key { assert k in a.states; }
    }
    forall k | k in b.shownStates
      ensures b.shownStates[k] < |b.chats| && b.chats[b.shownStates[k]].key == k && b.chats[b.shownStates[k]].holds
    {
    }
  }

  /** A change that leaves every session object, and what is on screen, alone. */
  predicate SameObjects(a: App, b: App) {
    && b.chats == a.chats && b.states == a.states && b.shownStates == a.shownStates
    && b.shownSummaries == a.shownSummaries && b.marks == a.marks && b.releases == a.releases
    && (a.ctl.open.Some? ==> b.ctl.open.Some? && b.ctl.open.value.epoch == a.ctl.open.value.epoch)
  }

  lemma SameObjectsAreStill(a: App, b: App)
    requires Holding(a) && SameObjects(a, b)
    ensures Still(a, b)
  {
  }

  lemma CardsPinnedIsStill(p: Params, a: App, key: Key)
    requires Holding(a)
    ensures Still(a, CardsPinned(p, a, key))
  {
    hide Put, PinsKept, PinBegun, FirstToPin, SummaryFor, Still;
    SameObjectsAreStill(a, a);
    if a.ctl.connected && a.pagesHistory && a.listedOn == Some(a.ctl.generation) && HasState(a, key)
       && SummaryFor(a.summaries, key).Some? {
      var summary := SummaryFor(a.summaries, key).value;
      var c := ChatOf(a, key);
      var kept := if Held(c) >= summary.lastSeq then Put(a, a.states[key], PinsKept(p, c, summary.pending)) else a;
      if Held(c) >= summary.lastSeq {
        PinsKeptFace(p, c, summary.pending);
        PutIsStill(a, a.states[key], PinsKept(p, c, summary.pending));
      }
      StillHolds(a, kept);
      var d := kept.chats[a.states[key]];
      var first := FirstToPin(d, summary.pending);
      if first.Some? {
        PinBegunFace(d, first.value, kept.nextRequest);
        PutIsStill(kept, a.states[key], PinBegun(d, first.value, kept.nextRequest));
        var begun := Put(kept, a.states[key], PinBegun(d, first.value, kept.nextRequest));
        StillHolds(kept, begun);
        SameObjectsAreStill(begun, begun.(nextRequest := kept.nextRequest + 1));
        StillChains(kept, begun, begun.(nextRequest := kept.nextRequest + 1));
        StillChains(a, kept, begun.(nextRequest := kept.nextRequest + 1));
      }
    }
  }

  lemma StillHolds(a: App, b: App)
    requires Still(a, b)
    ensures Holding(b) && |a.chats| <= |b.chats|
  {
  }

  lemma PinsKeptFace(p: Params, c: Chat, pending: seq<CardRef>)
    ensures SameFace(c, PinsKept(p, c, pending))
  {
  }

  lemma PinBegunFace(c: Chat, ref: CardRef, id: nat)
    ensures SameFace(c, PinBegun(c, ref, id))
  {
  }

  lemma PageRequestedIsStill(p: Params, a: App, key: Key)
    requires Holding(a)
    ensures Still(a, PageRequested(a, key))
  {
    hide Put, Still, PageAsked;
    SameObjectsAreStill(a, a);
    if a.ctl.connected && HasState(a, key) && CanPage(ChatOf(a, key)) {
      var asked := Put(a, a.states[key], PageAsked(ChatOf(a, key), a.nextRequest));
      PageAskedFace(ChatOf(a, key), a.nextRequest);
      PutIsStill(a, a.states[key], PageAsked(ChatOf(a, key), a.nextRequest));
      StillHolds(a, asked);
      SameObjectsAreStill(asked, asked.(nextRequest := a.nextRequest + 1));
      StillChains(a, asked, asked.(nextRequest := a.nextRequest + 1));
    }
  }

  lemma PageAskedFace(c: Chat, id: nat)
    ensures SameFace(c, PageAsked(c, id))
  {
  }

  lemma WindowFilledIsStill(p: Params, a: App, key: Key)
    requires Holding(a)
    ensures Still(a, WindowFilled(p, a, key))
  {
    hide Still, CardsPinned, PageRequested, Holding, SummaryFor;
    CardsPinnedIsStill(p, a, key);
    var pinned := CardsPinned(p, a, key);
    StillHolds(a, pinned);
    PageRequestedIsStill(p, pinned, key);
    StillChains(a, pinned, PageRequested(pinned, key));
  }

  lemma RebuiltFace(p: Params, c: Chat)
    ensures SameFace(c, Rebuilt(p, c))
  {
  }

  lemma RebuiltNowIsStill(p: Params, a: App, id: nat)
    requires Holding(a) && id < |a.chats|
    ensures Still(a, RebuiltNow(p, a, id))
  {
    hide Still, Rebuilt, WindowFilled, Holding, Put;
    SameObjectsAreStill(a, a);
    var drawn := Put(a, id, Rebuilt(p, a.chats[id]));
    RebuiltFace(p, a.chats[id]);
    PutIsStill(a, id, Rebuilt(p, a.chats[id]));
    StillHolds(a, drawn);
    WindowFilledIsStill(p, drawn, a.chats[id].key);
    StillChains(a, drawn, WindowFilled(p, drawn, a.chats[id].key));
  }

  lemma {:induction false} AllRebuiltIsStill(p: Params, a: App, keys: seq<Key>)
    requires Holding(a)
    ensures Still(a, AllRebuilt(p, a, keys))
    decreases |keys|
  {
    hide Still, RebuiltNow, Holding;
    if keys == [] {
      SameObjectsAreStill(a, a);
    } else {
      var before, key := AllRebuilt(p, a, keys[..|keys| - 1]), keys[|keys| - 1];
      AllRebuiltIsStill(p, a, keys[..|keys| - 1]);
      StillHolds(a, before);
      if HasState(before, key) {
        RebuiltNowIsStill(p, before, before.states[key]);
        StillChains(a, before, RebuiltNow(p, before, before.states[key]));
      }
    }
  }

  lemma {:induction false} AllFilledIsStill(p: Params, a: App, list: Fleet)
    requires Holding(a)
    ensures Still(a, AllFilled(p, a, list))
    decreases |list|
  {
    hide Still, WindowFilled, Holding;
    if list == [] {
      SameObjectsAreStill(a, a);
    } else {
      var before := AllFilled(p, a, list[..|list| - 1]);
      AllFilledIsStill(p, a, list[..|list| - 1]);
      StillHolds(a, before);
      WindowFilledIsStill(p, before, list[|list| - 1].key);
      StillChains(a, before, WindowFilled(p, before, list[|list| - 1].key));
    }
  }

  /** Everything a catch-up checks, with every session built and every fill begun. */
  function Readied(p: Params, a: App, list: Fleet): App {
    AllFilled(p, AllRebuilt(p, a, p.listing(a.states.Keys)), list)
  }

  lemma ReadiedIsStill(p: Params, a: App, list: Fleet)
    requires Holding(a)
    ensures Still(a, Readied(p, a, list))
  {
    hide Still, AllRebuilt, AllFilled, Holding;
    var built := AllRebuilt(p, a, p.listing(a.states.Keys));
    AllRebuiltIsStill(p, a, p.listing(a.states.Keys));
    StillHolds(a, built);
    AllFilledIsStill(p, built, list);
    StillChains(a, built, Readied(p, a, list));
  }

  /** A release of what `a` holds: every session of `ready` caught up with `list`, and put on screen. */
  ghost predicate Releases(p: Params, a: App, ready: App, list: Fleet, b: App) {
    && Still(a, ready) && b == Released(ready, list)
    && a.ctl.open.Some? && !a.ctl.wentToBackground
    && forall i | 0 <= i < |list| :: IsCaughtUp(p, ready, list[i], a.ctl.open.value.generation)
  }

  /** Looking at a catch-up either leaves the screen alone or releases it, whole. */
  lemma {:induction false} AdvanceIsStillOrReleases(p: Params, a: App)
    requires Holding(a)
    ensures var b := Advanced(p, a);
      || Still(a, b)
      || (&& a.ctl.open.value.list.Some?
          && Releases(p, a, Readied(p, a, a.ctl.open.value.list.value), a.ctl.open.value.list.value, b)
          && b.releases == a.releases + 1 && b.ctl.open.None?)
  {
    hide Still, AllRebuilt, AllFilled, Holding, IsCaughtUp, HasArrived, Released;
    SameObjectsAreStill(a, a);
    HoldingIsOpen(a);
    if a.ctl.open.value.list.Some? {
      var list := a.ctl.open.value.list.value;
      var ready := Readied(p, a, list);
      ReadiedIsStill(p, a, list);
      StillCounts(a, ready);
      ReleasedCloses(ready, list);
    }
  }

  lemma HoldingIsOpen(a: App)
    requires Holding(a)
    ensures a.ctl.open.Some?
  {
  }

  lemma StillCounts(a: App, b: App)
    requires Still(a, b)
    ensures a.ctl.open.Some? && b.ctl.open.Some? && b.releases == a.releases
  {
  }

  lemma ReleasedCloses(a: App, list: Fleet)
    ensures Released(a, list).ctl.open.None? && Released(a, list).releases == a.releases + 1
  {
  }

  // ------------------------------------------- every step of a held catch-up

  lemma ForgottenIsStill(a: App, gone: set<Key>)
    requires Holding(a)
    ensures Still(a, Forgotten(a, gone))
  {
  }

  lemma SubscribedToIsStill(a: App, key: Key, after: nat)
    requires Holding(a)
    ensures Still(a, SubscribedTo(a, key, after))
  {
    SameObjectsAreStill(a, SubscribedTo(a, key, after));
  }

  lemma WindowAppliedFace(p: Params, c: Chat, daemonLast: nat, keepEarlier: bool, pending: seq<CardRef>)
    ensures SameFace(c, WindowApplied(p, c, daemonLast, keepEarlier, pending))
  {
  }

  lemma WindowSetIsStill(p: Params, a: App, key: Key, daemonLast: nat, keepEarlier: bool)
    requires Holding(a) && HasState(a, key)
    ensures Still(a, WindowSet(p, a, key, daemonLast, keepEarlier))
  {
    hide Still, WindowApplied, WindowFilled, Holding, Put, SummaryFor;
    var pending := match SummaryFor(a.summaries, key) case Some(s) => s.pending case None => [];
    var c := WindowApplied(p, ChatOf(a, key), daemonLast, keepEarlier, pending);
    WindowAppliedFace(p, ChatOf(a, key), daemonLast, keepEarlier, pending);
    PutIsStill(a, a.states[key], c);
    var put := Put(a, a.states[key], c);
    StillHolds(a, put);
    WindowFilledIsStill(p, put, key);
    StillChains(a, put, WindowFilled(p, put, key));
  }

  lemma ListedIsStill(p: Params, a: App, s: Summary, answers: bool)
    requires Holding(a)
    ensures Still(a, Listed(p, a, s, answers))
  {
    hide Still, Holding, Stated, WindowSet, Put, PinsKept, SubscribedTo;
    StatedIsStill(a, s.key);
    var known := Stated(a, s.key);
    StillHolds(a, known);
    var spends := a.ctl.open.None? || answers;
    var resetDue := spends && s.key in known.resetDue;
    var spent := if spends then known.(resetDue := known.resetDue - {s.key}) else known;
    SameObjectsAreStill(known, spent);
    StillChains(a, known, spent);
    StillHolds(known, spent);
    var restarted := if resetDue && spent.pagesHistory && s.key in spent.subscribed then Restarted(p, spent, s) else spent;
    if resetDue && spent.pagesHistory && s.key in spent.subscribed {
      RestartedIsStill(p, spent, s);
      StillChains(a, spent, restarted);
      StillHolds(spent, restarted);
    }
    if HasState(restarted, s.key) {
      var asked := SubscribeBegun(restarted, s, resetDue);
      SameObjectsAreStill(restarted, asked);
      StillChains(a, restarted, asked);
      StillHolds(restarted, asked);
      if asked.pagesHistory && Held(ChatOf(asked, s.key)) >= s.lastSeq {
        PinsKeptFace(p, ChatOf(asked, s.key), s.pending);
        PutIsStill(asked, asked.states[s.key], PinsKept(p, ChatOf(asked, s.key), s.pending));
        StillChains(a, asked, Put(asked, asked.states[s.key], PinsKept(p, ChatOf(asked, s.key), s.pending)));
      }
    }
  }

  lemma RestartedIsStill(p: Params, a: App, s: Summary)
    requires Holding(a) && HasState(a, s.key)
    ensures Still(a, Restarted(p, a, s))
  {
    hide Still, Holding, WindowSet, SubscribedTo;
    var set_ := WindowSet(p, a, s.key, s.lastSeq, false);
    WindowSetIsStill(p, a, s.key, s.lastSeq, false);
    StillHolds(a, set_);
    var after := ResumeAfter(ChatOf(a, s.key).log, s.lastSeq, false);
    SubscribedToIsStill(set_, s.key, after);
    StillChains(a, set_, SubscribedTo(set_, s.key, after));
  }

  lemma {:induction false} AllListedIsStill(p: Params, a: App, list: Fleet, answers: bool)
    requires Holding(a)
    ensures Still(a, AllListed(p, a, list, answers))
    decreases |list|
  {
    hide Still, Holding, Listed;
    if list == [] {
      SameObjectsAreStill(a, a);
    } else {
      var before, s := AllListed(p, a, list[..|list| - 1], answers), list[|list| - 1];
      AllListedIsStill(p, a, list[..|list| - 1], answers);
      StillHolds(a, before);
      ListedIsStill(p, before, s, answers);
      StillChains(a, before, Listed(p, before, s, answers));
    }
  }

  lemma ListFiledIsStill(p: Params, a: App, list: Fleet)
    requires Holding(a)
    ensures Still(a, ListFiled(p, a, list))
  {
    hide Still, Holding, AllListed, Forgotten, Keys;
    HoldingIsOpen(a);
    var (taken, answers, writtenAt) := TakeReply(a);
    var aimed := if answers then taken.(ctl := ListHeld(taken.ctl, list), past := taken.past.(listAt := writtenAt))
                 else taken;
    var current := aimed.(summaries := list, listedOn := Some(a.ctl.generation));
    SameObjectsAreStill(a, current);
    StillHolds(a, current);
    ForgottenIsStill(current, current.states.Keys - Keys(list));
    var known := Forgotten(current, current.states.Keys - Keys(list));
    StillChains(a, current, known);
    StillHolds(current, known);
    AllListedIsStill(p, known, list, answers);
    StillChains(a, known, AllListed(p, known, list, answers));
  }

  lemma IngestFace(c: Chat, e: Event)
    ensures SameFace(c, Ingest(c, e))
  {
  }

  lemma EventFiledIsStill(p: Params, a: App, key: Key, e: Event, newCard: bool, sent: bool)
    requires Holding(a)
    ensures Still(a, EventFiled(p, a, key, e, newCard, sent))
  {
    hide Still, Holding, Put, Ingest, Requested, Stated, OwedSeq;
    StatedIsStill(a, key);
    var known := Stated(a, key);
    StillHolds(a, known);
    var c := Ingest(ChatOf(known, key), e);
    IngestFace(ChatOf(known, key), e);
    PutIsStill(known, known.states[key], c);
    var held := Put(known, known.states[key], c);
    PutFiles(known, known.states[key], c);
    StillChains(a, known, held);
    StillHolds(known, held);
    AskIsSame(held, sent);
    var asked := if newCard then Ask(held, sent) else held;
    SameObjectsAreStill(held, asked);
    StillChains(a, held, asked);
    StillCounts(a, asked);
    StillHolds(held, asked);
    SameObjectsAreStill(asked, asked.(ctl := Progressed(asked.ctl)));
    StillChains(a, asked, asked.(ctl := Progressed(asked.ctl)));
  }

  lemma AskIsSame(a: App, sent: bool)
    ensures SameObjects(a, Ask(a, sent))
    ensures Ask(a, sent).ctl.open.Some? == a.ctl.open.Some?
  {
  }

  lemma AimedHereIsSame(a: App, onNewLink: bool, sent: bool)
    requires a.ctl.open.Some?
    ensures SameObjects(a, AimedHere(a, onNewLink, sent))
  {
  }

  lemma CameBackIsSame(a: App, sent: bool)
    requires a.ctl.open.Some?
    ensures SameObjects(a, CameBack(a, sent).0)
  {
    hide AimedHere;
    if a.ctl.wentToBackground && a.ctl.connected {
      var back := a.(ctl := a.ctl.(wentToBackground := false), resetDue := a.states.Keys,
                     past := a.past.(returnedAt := a.past.clock));
      AimedHereIsSame(back, false, sent);
    }
  }

  lemma BecameActiveIsSame(a: App, sent: bool)
    requires a.ctl.open.Some?
    ensures SameObjects(a, BecameActive(a, sent))
  {
    hide CameBack, Ask;
    CameBackIsSame(a, sent);
    AskIsSame(CameBack(a, sent).0, sent);
  }

  lemma CancelledFace(c: Chat)
    ensures SameFace(c, Cancelled(c))
  {
  }

  /** What a link's end does to the sessions asked on it shows nowhere. */
  lemma {:induction false} CancelledAreStill(a: App, b: App)
    requires Holding(a) && b.ctl == a.ctl && b.releases == a.releases && b.marks == a.marks
    requires b.states == a.states && b.shownStates == a.shownStates && b.shownSummaries == a.shownSummaries
    requires |b.chats| == |a.chats|
    requires forall i | 0 <= i < |a.chats| :: b.chats[i] == a.chats[i]
                || b.chats[i] == (var c := Cancelled(a.chats[i]); if c.holds then c else Committed(c, MarkOf(a, c.key), Live))
    ensures Still(a, b)
  {
    hide Cancelled, Committed;
    forall i | 0 <= i < |a.chats|
      ensures b.chats[i].key == a.chats[i].key && b.chats[i].holds == a.chats[i].holds
      ensures a.chats[i].holds ==> SameFace(a.chats[i], b.chats[i])
    {
      CancelledFace(a.chats[i]);
      CommittedKeeps(Cancelled(a.chats[i]), MarkOf(a, a.chats[i].key), Live);
    }
  }

  lemma ConnectedIsStill(p: Params, a: App, pagesHistory: bool, sent: bool)
    requires Holding(a)
    ensures Still(a, Connected(a, pagesHistory, sent))
  {
    hide AimedHere, Cancelled, Committed, Still, Holding;
    HoldingIsOpen(a);
    var linked := a.(ctl := a.ctl.(generation := a.ctl.generation + 1, connected := true),
                     pagesHistory := pagesHistory, past := a.past.(writes := []));
    var aimed := AimedHere(linked, true, sent);
    AimedHereIsSame(linked, true, sent);
    SameObjectsAreStill(a, aimed);
    StillHolds(a, aimed);
    CancelledAreStill(aimed, Connected(a, pagesHistory, sent));
    StillChains(a, aimed, Connected(a, pagesHistory, sent));
  }

  lemma PutFiles(a: App, id: nat, c: Chat)
    requires id < |a.chats|
    ensures Put(a, id, c).states == a.states && |Put(a, id, c).chats| == |a.chats|
    ensures Put(a, id, c).ctl == a.ctl && Put(a, id, c).past == a.past
  {
  }

  lemma RequestEndedFace(p: Params, c: Chat, id: nat, firstSeq: nat, failed: bool)
    ensures SameFace(c, RequestEnded(p, c, id, firstSeq, failed))
  {
  }

  lemma HistoryFiledIsStill(p: Params, a: App, key: Key, id: nat, firstSeq: nat, failed: bool)
    requires Holding(a)
    ensures Still(a, HistoryFiled(p, a, key, id, firstSeq, failed))
  {
    hide Still, Holding, Put, RequestEnded, WindowFilled;
    SameObjectsAreStill(a, a);
    HoldingIsOpen(a);
    if !HasState(a, key) { return; }
    var c := ChatOf(a, key);
    var ours := (c.log.page.Some? && c.log.page.value.id == id) || (c.pin.Some? && c.pin.value.id == id);
    var counted := if ours then a.(ctl := Progressed(a.ctl)) else a;
    SameObjectsAreStill(a, counted);
    StillHolds(a, counted);
    var d := RequestEnded(p, c, id, firstSeq, failed);
    RequestEndedFace(p, c, id, firstSeq, failed);
    PutIsStill(counted, counted.states[key], d);
    var ended := Put(counted, counted.states[key], d);
    StillChains(a, counted, ended);
    StillHolds(counted, ended);
    WindowFilledIsStill(p, ended, key);
    StillChains(a, ended, WindowFilled(p, ended, key));
  }

  lemma CacheLoadedFace(p: Params, c: Chat, cached: seq<Event>)
    ensures SameFace(c, CacheLoaded(p, c, cached)) && SameFace(c, LogRewoundFor(c))
  {
  }

  lemma SubscriptionLoadedIsStill(p: Params, a: App, t: Subscribing, cached: seq<Event>)
    requires Holding(a)
    ensures Still(a, SubscriptionLoaded(p, a, t, cached)) && HasState(SubscriptionLoaded(p, a, t, cached), t.key)
    ensures SubscriptionLoaded(p, a, t, cached).states == Stated(a, t.key).states
  {
    hide Still, Holding, Put, CacheLoaded, Stated;
    StatedIsStill(a, t.key);
    var known := Stated(a, t.key);
    StillHolds(a, known);
    CacheLoadedFace(p, ChatOf(known, t.key), cached);
    PutIsStill(known, known.states[t.key], CacheLoaded(p, ChatOf(known, t.key), cached));
    PutFiles(known, known.states[t.key], CacheLoaded(p, ChatOf(known, t.key), cached));
    StillChains(a, known, SubscriptionLoaded(p, a, t, cached));
  }

  lemma RewindIsStill(a: App, key: Key, rewinds: bool) returns (ready: App)
    requires Holding(a) && HasState(a, key)
    ensures ready == if rewinds then Put(a, a.states[key], LogRewoundFor(ChatOf(a, key))) else a
    ensures Still(a, ready) && HasState(ready, key)
  {
    hide Still, Holding, Put, LogRewoundFor;
    SameObjectsAreStill(a, a);
    ready := a;
    if rewinds {
      RewoundFace(ChatOf(a, key));
      PutIsStill(a, a.states[key], LogRewoundFor(ChatOf(a, key)));
      PutFiles(a, a.states[key], LogRewoundFor(ChatOf(a, key)));
      ready := Put(a, a.states[key], LogRewoundFor(ChatOf(a, key)));
    }
  }

  lemma RewoundFace(c: Chat)
    ensures SameFace(c, LogRewoundFor(c))
  {
  }

  lemma SubscriptionFiledIsStill(p: Params, a: App, t: Subscribing, cached: seq<Event>)
    requires Holding(a)
    ensures Still(a, SubscriptionFiled(p, a, t, cached).0)
  {
    hide Still, Holding, Put, CacheLoaded, WindowSet, Stated, SubscribedTo, LogRewoundFor, ResumeAfter;
    var end := SubscriptionFiled(p, a, t, cached).0;
    if a.ctl.generation != t.generation {
      SameObjectsAreStill(a, end);
      return;
    }
    SubscriptionLoadedIsStill(p, a, t, cached);
    var loaded := SubscriptionLoaded(p, a, t, cached);
    StillHolds(a, loaded);
    var c := ChatOf(loaded, t.key);
    if c.windowEpoch != t.windowEpoch {
      if a.ctl.connected {
        var after := Max(Held(c), if c.log.windowStart.Some? && c.log.windowStart.value > 0 then c.log.windowStart.value - 1 else 0);
        SubscribedToIsStill(loaded, t.key, after);
        StillChains(a, loaded, end);
      }
      return;
    }
    var rewinds := Max(Held(c), LastSeq(cached)) > t.lastSeq;
    var ready := RewindIsStill(loaded, t.key, rewinds);
    StillChains(a, loaded, ready);
    StillHolds(loaded, ready);
    var log := ChatOf(ready, t.key).log;
    var keep := !rewinds && log.windowStart.Some? && !t.resetWindow;
    SameObjectsAreStill(ready, ready);
    WindowSetIsStill(p, ready, t.key, t.lastSeq, keep);
    var set_ := if ready.pagesHistory then WindowSet(p, ready, t.key, t.lastSeq, keep) else ready;
    StillChains(a, ready, set_);
    StillHolds(ready, set_);
    if !a.ctl.connected {
      SameObjectsAreStill(set_, end);
    } else {
      var after := if ready.pagesHistory then ResumeAfter(log, t.lastSeq, keep)
                   else if rewinds || Max(Held(c), LastSeq(cached)) == 0 then BackfillStart(t.lastSeq)
                   else Max(Held(c), LastSeq(cached));
      SubscribedToIsStill(set_, t.key, after);
    }
    StillChains(a, set_, end);
  }

  // ------------------------------------------------------- the reader's acts

  predicate ReadersAct(step: Step) {
    step.RemovalConfirmed? || step.DismissGap? || step.MarkReviewed?
  }

  /** A step of a held catch-up up to its look: the screen edited as the reader asked, and nothing else. */
  ghost predicate Moves(a: App, step: Step, b: App) {
    && Holding(b) && a.ctl.open.Some? && b.ctl.open.value.epoch == a.ctl.open.value.epoch
    && b.releases == a.releases && ScreenOf(b) == Edited(ScreenOf(a), step)
  }

  lemma StillMoves(a: App, step: Step, b: App)
    requires Holding(a) && Still(a, b) && !ReadersAct(step)
    ensures Moves(a, step, b)
  {
  }

  /** One face of the screen changed, in place; every other is its own object's. */
  lemma OneFaceChanges(a: App, b: App, key: Key, d: Chat)
    requires Holding(a) && key in a.shownStates
    requires d.key == key && d.holds == a.chats[a.shownStates[key]].holds
    requires b.chats == a.chats[a.shownStates[key] := d] && b.states == a.states && b.shownStates == a.shownStates
    requires b.ctl == a.ctl
    ensures Holding(b) && ScreenOf(b).faces == ScreenOf(a).faces[key := FaceOf(d)]
  {
    forall k | k in a.shownStates && k != key ensures a.shownStates[k] != a.shownStates[key] {
      assert a.chats[a.shownStates[k]].key == k;
    }
  }

  lemma FacesAreShown(a: App, key: Key)
    requires Holding(a)
    ensures key in ScreenOf(a).faces <==> key in a.shownStates
    ensures key in a.shownStates ==>
              && ScreenOf(a).faces[key] == FaceOf(a.chats[a.shownStates[key]])
              && a.chats[a.shownStates[key]].key == key && a.chats[a.shownStates[key]].holds
  {
  }

  lemma {:induction false} DismissMoves(a: App, key: Key)
    requires Holding(a)
    ensures Moves(a, DismissGap(key), GapDismissedFor(a, key))
  {
    hide ScreenOf, Holding, GapDismissed;
    FacesAreShown(a, key);
    HoldingIsFiled(a, key);
    if key in a.shownStates {
      OneFaceChanges(a, GapDismissedFor(a, key), key, NoticeDismissed(a.chats[a.shownStates[key]]));
    }
    ScreenParts(a, GapDismissedFor(a, key));
  }

  lemma HoldingIsFiled(a: App, key: Key)
    requires Holding(a)
    ensures a.ctl.open.Some? && (key in a.shownStates ==> a.shownStates[key] < |a.chats|)
  {
  }

  lemma ScreenParts(a: App, b: App)
    ensures ScreenOf(a) == Screen(a.shownSummaries, ScreenOf(a).faces, a.marks)
    ensures ScreenOf(b) == Screen(b.shownSummaries, ScreenOf(b).faces, b.marks)
  {
  }

  lemma {:induction false} ReviewMoves(a: App, key: Key)
    requires Holding(a)
    ensures Moves(a, MarkReviewed(key), ReviewedBy(a, key))
  {
    hide ScreenOf, Holding;
    FacesAreShown(a, key);
    HoldingIsFiled(a, key);
    if key in a.shownStates {
      var c := a.chats[a.shownStates[key]];
      var mark := Max(MarkOf(a, c.key), c.shown.drawnThrough);
      OneFaceChanges(a, ReviewedBy(a, key), key, ReviewMarked(c, mark));
    }
    ScreenParts(a, ReviewedBy(a, key));
  }

  lemma RowLeaves(a: App, b: App, key: Key)
    requires Holding(a) && b.chats == a.chats && b.ctl.open.Some?
    requires b.states == map k | k in a.states && k != key :: a.states[k]
    requires b.shownStates == map k | k in a.shownStates && k != key :: a.shownStates[k]
    ensures Holding(b) && ScreenOf(b).faces == map k | k in ScreenOf(a).faces && k != key :: ScreenOf(a).faces[k]
  {
  }

  /** The row of a run the reader removed leaves the screen, with its mark. */
  lemma {:induction false} RemovalMoves(a: App, key: Key)
    requires Holding(a)
    ensures Moves(a, RemovalConfirmed(key), RowGone(a, key))
  {
    hide ScreenOf, Holding, Without;
    HoldingIsOpen(a);
    var b := RowGone(a, key);
    assert b.states == map k | k in a.states && k != key :: a.states[k];
    RowLeaves(a, b, key);
    ScreenParts(a, b);
  }

  /** The steps that only move the catch-up's own bookkeeping. */
  predicate Bookkeeping(step: Step) {
    || step.Background? || step.Inactive? || step.Active? || step.LinkDown? || step.Refresh?
    || step.SessionsUnavailable? || step.StallCheck? || step.LaunchSettles?
  }

  lemma BookkeepingIsSame(p: Params, a: App, step: Step)
    requires a.ctl.open.Some? && Bookkeeping(step)
    ensures SameObjects(a, Worked(p, a, step).0)
  {
    hide CameBack, BecameActive, Ask, ListUnavailable;
    match step
    case Inactive(sent) => CameBackIsSame(a, sent);
    case Active(sent) => BecameActiveIsSame(a, sent);
    case Refresh(sent) => AskIsSame(a, sent);
    case SessionsUnavailable => UnavailableIsSame(a);
    case _ =>
  }

  lemma WorkIsStill(p: Params, a: App, step: Step)
    requires Holding(a) && !Bookkeeping(step) && !ReadersAct(step)
    ensures Still(a, Worked(p, a, step).0)
  {
    hide Holding, Still, ListFiled, EventFiled, HistoryFiled, SubscriptionFiled, RebuiltNow, Connected, ListCommitted;
    SameObjectsAreStill(a, a);
    HoldingIsOpen(a);
    match step {
      case Handshake(pages, sent) => ConnectedIsStill(p, a, pages, sent);
      case Sessions(list) =>
        ListFiledIsStill(p, a, list);
        StillHolds(a, ListFiled(p, a, list));
        HoldingIsOpen(ListFiled(p, a, list));
      case EventFor(key, e, newCard, sent) => EventFiledIsStill(p, a, key, e, newCard, sent);
      case Coalesced(chat) => if chat < |a.chats| { RebuiltNowIsStill(p, a, chat); }
      case HistoryEnd(key, id, firstSeq, failed) => HistoryFiledIsStill(p, a, key, id, firstSeq, failed);
      case SubscriptionReads(task, cached) =>
        if task < |a.tasks| {
          var u := a.(tasks := a.tasks[..task] + a.tasks[task + 1..]);
          SameObjectsAreStill(a, u);
          StillHolds(a, u);
          SubscriptionFiledIsStill(p, u, a.tasks[task], cached);
          StillChains(a, u, SubscriptionFiled(p, u, a.tasks[task], cached).0);
        }
      case ReachedTop(_) =>
    }
  }

  /** Every step of a held catch-up, up to its look, edits the screen as the reader asked and no more. */
  lemma {:induction false} StepMoves(p: Params, a: App, step: Step)
    requires Holding(a)
    ensures Moves(a, step, Worked(p, Ticked(a), step).0)
    ensures ReadersAct(step) || Still(a, Worked(p, Ticked(a), step).0)
  {
    hide Holding, Still, Removed, GapDismissedFor, ReviewedBy, RowGone, Moves, SameObjects, Worked;
    var t := Ticked(a);
    var mid := Worked(p, t, step).0;
    TickIsSame(a);
    SameObjectsAreStill(a, t);
    StillHolds(a, t);
    HoldingIsOpen(t);
    if ReadersAct(step) {
      ReaderMoves(p, t, step);
      MovesFromTick(a, t, step, mid);
    } else {
      if Bookkeeping(step) {
        BookkeepingIsSame(p, t, step);
        SameObjectsAreStill(t, mid);
      } else {
        WorkIsStill(p, t, step);
      }
      StillChains(a, t, mid);
      StillMoves(a, step, mid);
    }
  }

  lemma TickIsSame(a: App)
    ensures SameObjects(a, Ticked(a))
  {
  }

  lemma ReaderMoves(p: Params, a: App, step: Step)
    requires Holding(a) && ReadersAct(step)
    ensures Moves(a, step, Worked(p, a, step).0)
  {
    hide Holding, GapDismissedFor, ReviewedBy, RowGone, Moves;
    HoldingIsOpen(a);
    match step {
      case RemovalConfirmed(key) => RemovalMoves(a, key);
      case DismissGap(key) => DismissMoves(a, key);
      case MarkReviewed(key) => ReviewMoves(a, key);
    }
  }

  lemma UnavailableIsSame(a: App)
    requires a.ctl.open.Some?
    ensures SameObjects(a, ListUnavailable(a))
  {
  }

  lemma MovesFromTick(a: App, t: App, step: Step, b: App)
    requires t == a.(past := t.past) && Moves(t, step, b)
    ensures Moves(a, step, b)
  {
  }

  /** No step of the run released a catch-up. */
  predicate Unreleased(p: Params, a: App, steps: seq<Step>)
    decreases |steps|
  {
    steps == []
    || (Unreleased(p, a, steps[..|steps| - 1])
        && Run(p, a, steps).releases == Run(p, a, steps[..|steps| - 1]).releases)
  }

  /**
   **The screen is frozen.** From any step inside a catch-up to any later one with
   no release between, the same catch-up is open and the screen is what it was,
   edited by the reader's own acts alone.
   */
  lemma {:induction false} ScreenIsFrozen(p: Params, a: App, steps: seq<Step>)
    requires Holding(a) && Unreleased(p, a, steps)
    ensures Holding(Run(p, a, steps)) && a.ctl.open.Some?
    ensures Run(p, a, steps).ctl.open.value.epoch == a.ctl.open.value.epoch
    ensures ScreenOf(Run(p, a, steps)) == AllEdited(ScreenOf(a), steps)
    decreases |steps|
  {
    hide Worked, ScreenOf, Edited, Releases, Still, Readied, Advanced;
    HoldingIsOpen(a);
    if steps != [] {
      var front, last := steps[..|steps| - 1], steps[|steps| - 1];
      var before := Run(p, a, front);
      ScreenIsFrozen(p, a, front);
      var (mid, looks) := Worked(p, Ticked(before), last);
      StepMoves(p, before, last);
      if looks {
        AdvanceIsStillOrReleases(p, mid);
        StillShows(mid, Advanced(p, mid));
      }
    }
  }

  lemma StillShows(a: App, b: App)
    requires Holding(a) && Still(a, b)
    ensures Holding(b) && ScreenOf(b) == ScreenOf(a) && b.ctl.open.value.epoch == a.ctl.open.value.epoch
  {
  }
}
