/**
 What a return to the foreground owes each session: a window set afresh, by the first
 list that answers for it (`comeBack` and `applyList` in
 CodeConnectKit/Sources/CodeConnectKit/AppModel.swift).

 Every session known at the return is due a reset (`ReturnOwesResets`); the list that
 answers pays it, for each session it names, and no session's window moves for another's
 sake (`DueWindowsAreReset`).
 */
module CatchUpReturns {
  import opened Wrappers
  import opened Replica
  import ReplicaRuns
  import opened CatchUp
  import opened CatchUpRuns
  import opened CatchUpWork
  import opened CatchUpReleases
  import opened CatchUpWatch
  import opened CatchUpProgress
  import opened CatchUpSubscriptions

  /** A return owes every session known a reset, whichever of its two signs comes first, and only the first. */
  lemma {:induction false} ReturnOwesResets(p: Params, a: App, step: Step)
    requires step.Inactive? || step.Active?
    ensures var b := Stepped(p, a, step);
      && !b.ctl.wentToBackground && b.states == a.states
      && b.resetDue == if a.ctl.wentToBackground then a.states.Keys else a.resetDue
  {
    hide ScreenFrozen, Ask;
    var t := Ticked(a);
    var back := t.(ctl := t.ctl.(wentToBackground := false), resetDue := t.states.Keys, past := t.past.(returnedAt := t.past.clock));
    AimingOwes(back, step.sent);
    AskOwes(CameBack(t, step.sent).0, step.sent);
  }

  lemma AimingOwes(a: App, sent: bool)
    ensures var b := AimedHere(a, false, sent);
      b.resetDue == a.resetDue && b.states == a.states && b.ctl.wentToBackground == a.ctl.wentToBackground
  {
    hide ScreenFrozen, Ask;
    var held := ScreenFrozen(a, Aimed(a.ctl, false));
    FrozenOnlyHolds(a, Aimed(a.ctl, false));
    FrozenOwes(a, Aimed(a.ctl, false));
    AskOwes(held.(past := held.past.(aimedAt := held.past.clock)), sent);
  }

  lemma FrozenOwes(a: App, ctl: Control)
    ensures ScreenFrozen(a, ctl).resetDue == a.resetDue
  {
    hide AllHeld;
  }

  lemma AskOwes(a: App, sent: bool)
    ensures var b := Ask(a, sent);
      b.resetDue == a.resetDue && b.states == a.states && b.ctl.wentToBackground == a.ctl.wentToBackground
  {
  }

  // ------------------------------------------------- the list that answers pays

  /** Work for other sessions: this one's window, and what it is owed, stay. */
  predicate LeavesAlone(a: App, b: App, key: Key) {
    && HasState(a, key) && HasState(b, key)
    && ChatOf(b, key).log.windowStart == ChatOf(a, key).log.windowStart
    && (key in b.resetDue <==> key in a.resetDue) && (key in a.subscribed ==> key in b.subscribed)
    && b.pagesHistory == a.pagesHistory && b.ctl == a.ctl
  }

  lemma LeavesChains(a: App, b: App, c: App, key: Key)
    requires LeavesAlone(a, b, key) && LeavesAlone(b, c, key)
    ensures LeavesAlone(a, c, key)
  {
  }

  lemma SameLeaves(a: App, b: App, key: Key)
    requires HasState(a, key) && b.chats == a.chats && b.states == a.states && b.pagesHistory == a.pagesHistory && b.ctl == a.ctl
    requires (key in b.resetDue <==> key in a.resetDue) && (key in a.subscribed ==> key in b.subscribed)
    ensures LeavesAlone(a, b, key)
  {
  }

  lemma PutLeavesAlone(a: App, id: nat, c: Chat, key: Key)
    requires HasState(a, key) && id < |a.chats| && (id != a.states[key] || c.log.windowStart == ChatOf(a, key).log.windowStart)
    ensures LeavesAlone(a, Put(a, id, c), key)
  {
    hide Committed;
    PutLeaves(a, id, c);
  }

  lemma StatedLeavesAlone(a: App, key: Key, other: Key)
    requires HasState(a, key)
    ensures LeavesAlone(a, Stated(a, other), key)
  {
  }

  lemma FillsLeavesAlone(p: Params, a: App, b: App, key: Key)
    requires Fills(p, a, b) && HasState(a, key)
    ensures LeavesAlone(a, b, key)
  {
    hide Shaped;
  }

  lemma BegunLeavesAlone(a: App, s: Summary, resetWindow: bool, key: Key)
    requires HasState(a, key) && HasState(a, s.key)
    ensures LeavesAlone(a, SubscribeBegun(a, s, resetWindow), key) && HasState(SubscribeBegun(a, s, resetWindow), s.key)
  {
  }

  lemma SubscribedLeavesAlone(a: App, other: Key, after: nat, key: Key)
    requires HasState(a, key)
    ensures LeavesAlone(a, SubscribedTo(a, other, after), key)
  {
  }

  /** A window set for one session: its own start is the list's, and no other's moves. */
  lemma RestartSets(p: Params, a: App, s: Summary, key: Key)
    requires Shaped(p, a) && HasState(a, s.key) && HasState(a, key)
    ensures var b := Restarted(p, a, s);
      && HasState(b, s.key) && ChatOf(b, s.key).log.windowStart == Some(if s.lastSeq > 500 then s.lastSeq - 499 else 1)
      && (key != s.key ==> LeavesAlone(a, b, key)) && b.resetDue == a.resetDue && b.pagesHistory == a.pagesHistory
  {
    hide Fills, WindowApplied, WindowFilled, Shaped, Put, SummaryFor, Works, SubscribedTo, ResumeAfter, LeavesAlone, ChatSound;
    var id := a.states[s.key];
    var pending := match SummaryFor(a.summaries, s.key) case Some(s) => s.pending case None => [];
    var c := WindowApplied(p, ChatOf(a, s.key), s.lastSeq, false, pending);
    SoundAt(p, a, id);
    SoundLog(p, ChatOf(a, s.key));
    WindowAppliedFace(p, ChatOf(a, s.key), s.lastSeq, false, pending);
    FaceKeepsKey(ChatOf(a, s.key), c);
    WindowIsSound(p, ChatOf(a, s.key), s.lastSeq, false, pending);
    WindowStarts(p, ChatOf(a, s.key), s.lastSeq, pending);
    PutWorks(p, a, id, c);
    var put := Put(a, id, c);
    WorksIsShaped(p, a, put);
    PutLeaves(a, id, c);
    WindowFilledFills(p, put, s.key);
    var filled := WindowFilled(p, put, s.key);
    FillsIsShaped(p, put, filled);
    FillsLeavesAlone(p, put, filled, s.key);
    LeavesParts(put, filled, s.key);
    FillsOwes(p, put, filled);
    SubscribedLeavesAlone(filled, s.key, ResumeAfter(ChatOf(a, s.key).log, s.lastSeq, false), s.key);
    LeavesParts(filled, Restarted(p, a, s), s.key);
    SubscribedOwes(filled, s.key, ResumeAfter(ChatOf(a, s.key).log, s.lastSeq, false));
    if key != s.key {
      ShapedIsFiled(p, a);
      assert a.states[key] != id;
      PutLeavesAlone(a, id, c, key);
      LeavesParts(a, put, key);
      FillsLeavesAlone(p, put, filled, key);
      LeavesChains(a, put, filled, key);
      LeavesParts(a, filled, key);
      SubscribedLeavesAlone(filled, s.key, ResumeAfter(ChatOf(a, s.key).log, s.lastSeq, false), key);
      LeavesChains(a, filled, Restarted(p, a, s), key);
    }
  }

  lemma LeavesParts(a: App, b: App, key: Key)
    requires LeavesAlone(a, b, key)
    ensures HasState(a, key) && HasState(b, key) && ChatOf(b, key).log.windowStart == ChatOf(a, key).log.windowStart
    ensures (key in b.resetDue <==> key in a.resetDue) && b.pagesHistory == a.pagesHistory && b.ctl == a.ctl
    ensures key in a.subscribed ==> key in b.subscribed
  {
  }

  lemma FillsOwes(p: Params, a: App, b: App)
    requires Fills(p, a, b)
    ensures b.resetDue == a.resetDue && b.pagesHistory == a.pagesHistory
  {
    hide Shaped;
  }

  lemma SubscribedOwes(a: App, key: Key, after: nat)
    ensures SubscribedTo(a, key, after).resetDue == a.resetDue && SubscribedTo(a, key, after).pagesHistory == a.pagesHistory
  {
  }

  lemma WindowStarts(p: Params, c: Chat, daemonLast: nat, pending: seq<CardRef>)
    requires WellKept(c.log)
    ensures WindowApplied(p, c, daemonLast, false, pending).log.windowStart
         == Some(if daemonLast > 500 then daemonLast - 499 else 1)
  {
    hide Windowed, Trimmed, Settled, Below, WellKept;
    ReplicaRuns.WindowIsWhole(c.log, daemonLast, false);
  }

  /** One summary of a list that answers: its own due reset is paid, and no other session is touched. */
  lemma ListedResets(p: Params, a: App, s: Summary, answers: bool, key: Key)
    requires Shaped(p, a) && Sane(p) && HasState(a, key) && a.pagesHistory && (answers || a.ctl.open.None?)
    ensures var b := Listed(p, a, s, answers);
      && (key != s.key ==> LeavesAlone(a, b, key))
      && (key == s.key && key in a.resetDue && key in a.subscribed ==>
            && HasState(b, key) && key !in b.resetDue
            && ChatOf(b, key).log.windowStart == Some(if s.lastSeq > 500 then s.lastSeq - 499 else 1))
  {
    hide Shaped, Works, Stated, Restarted, Put, PinsKept, SubscribeBegun, LeavesAlone;
    var known := Stated(a, s.key);
    StatedLeavesAlone(a, key, s.key);
    LeavesParts(a, known, key);
    StatedWorks(p, a, s.key);
    WorksIsShaped(p, a, known);
    var resetDue := s.key in known.resetDue;
    var spent := known.(resetDue := known.resetDue - {s.key});
    ShapeIsChats(p, known, spent);
    if key != s.key { SameLeaves(known, spent, key); LeavesChains(a, known, spent, key); }
    var restarts := resetDue && spent.pagesHistory && s.key in spent.subscribed;
    var restarted := if restarts then Restarted(p, spent, s) else spent;
    if restarts {
      RestartSets(p, spent, s, key);
      if key != s.key { LeavesChains(a, spent, restarted, key); }
    }
    if key != s.key { LeavesParts(a, restarted, key); }
    assert HasState(restarted, key) && HasState(restarted, s.key);
    var asked := SubscribeBegun(restarted, s, resetDue);
    BegunLeavesAlone(restarted, s, resetDue, key);
    LeavesParts(restarted, asked, key);
    if key != s.key { LeavesChains(a, restarted, asked, key); }
    var c := ChatOf(asked, s.key);
    PinsKeptAsks(p, c, s.pending);
    var put := Put(asked, asked.states[s.key], PinsKept(p, c, s.pending));
    if key == s.key || asked.states[key] == asked.states[s.key] {
      PutLeavesAlone(asked, asked.states[s.key], PinsKept(p, c, s.pending), key);
    } else {
      PutLeavesAlone(asked, asked.states[s.key], PinsKept(p, c, s.pending), key);
    }
    LeavesParts(asked, put, key);
    if key != s.key { LeavesChains(a, asked, put, key); }
  }

  /**
   **A due window is reset by the list that answers.** Of a Mac that pages, each session due
   a reset and subscribed to has its window set to the newest 500 of what the list says it
   has, whatever else the list names, and is due none any more.
   */
  lemma {:induction false} DueWindowsAreReset(p: Params, a: App, list: Fleet, answers: bool, i: nat)
    requires Shaped(p, a) && Sane(p) && a.pagesHistory && (answers || a.ctl.open.None?)
    requires i < |list| && forall j | 0 <= j < |list| && j != i :: list[j].key != list[i].key
    requires list[i].key in a.states && a.states[list[i].key] < |a.chats|
    requires list[i].key in a.resetDue && list[i].key in a.subscribed
    ensures var b, key := AllListed(p, a, list, answers), list[i].key;
      && key in b.states && b.states[key] < |b.chats| && key !in b.resetDue
      && b.chats[b.states[key]].log.windowStart
         == Some(if list[i].lastSeq > 500 then list[i].lastSeq - 499 else 1)
    decreases |list|
  {
    hide Shaped, Works, Listed;
    var front, last, key := list[..|list| - 1], list[|list| - 1], list[i].key;
    var before := AllListed(p, a, front, answers);
    AllListedWorks(p, a, front, answers);
    WorksIsShaped(p, a, before);
    WorksKeepsPaging(p, a, before);
    if i == |front| {
      assert forall j | 0 <= j < |front| :: front[j] == list[j];
      OthersLeaveAlone(p, a, front, answers, key);
      ListedResets(p, before, last, answers, key);
    } else {
      assert front[i] == list[i] && forall j | 0 <= j < |front| :: front[j] == list[j];
      DueWindowsAreReset(p, a, front, answers, i);
      ListedResets(p, before, last, answers, key);
    }
  }

  lemma {:induction false} OthersLeaveAlone(p: Params, a: App, list: Fleet, answers: bool, key: Key)
    requires Shaped(p, a) && Sane(p) && HasState(a, key) && a.pagesHistory && (answers || a.ctl.open.None?)
    requires forall j | 0 <= j < |list| :: list[j].key != key
    ensures LeavesAlone(a, AllListed(p, a, list, answers), key)
    decreases |list|
  {
    hide Shaped, Works, Listed, LeavesAlone;
    if list == [] {
      SameLeaves(a, a, key);
    } else {
      var front := list[..|list| - 1];
      assert forall j | 0 <= j < |front| :: front[j] == list[j];
      OthersLeaveAlone(p, a, front, answers, key);
      var before := AllListed(p, a, front, answers);
      AllListedWorks(p, a, front, answers);
      WorksIsShaped(p, a, before);
      LeavesParts(a, before, key);
      ListedResets(p, before, list[|list| - 1], answers, key);
      LeavesChains(a, before, AllListed(p, a, list, answers), key);
    }
  }
}
