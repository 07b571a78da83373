/**
 The phone's catch-up: `AppModel` holding what is on screen while each
 `SessionState` replays what the Mac did, and changing it once
 (CodeConnectKit/Sources/CodeConnectKit/AppModel.swift, SessionState.swift).

 `Control` is the catch-up's own bookkeeping; `Chat` is one `SessionState`, its
 truth (`log`, rows, pins) beside what it has published (`shown`); `App` is the
 machine's model. The rows built from a run of events, and whether they show
 anything, are parameters (`Params`).
 */
module CatchUp {
  import opened Wrappers
  import opened Replica

  type Key = string

  /** An open card, as a list names it: its request, and the seq of the request's event. */
  datatype CardRef = CardRef(requestID: string, at: nat)

  datatype Summary = Summary(key: Key, lastSeq: nat, pending: seq<CardRef>)

  type Fleet = seq<Summary>

  function Keys(list: Fleet): set<Key> { set i | 0 <= i < |list| :: list[i].key }

  // ------------------------------------------------------ the catch-up itself

  datatype Open = Open(epoch: nat, generation: nat, position: Option<nat>, list: Option<Fleet>, progressed: bool)

  datatype Control = Control(
    generation: nat,
    connected: bool,
    wentToBackground: bool,
    launchSettled: bool,
    open: Option<Open>,
    epochs: nat,
    written: nat,
    answered: nat,
    countedOn: Option<nat>,
    redials: nat)

  /** Counting starts again on every link. */
  function Synced(c: Control): Control {
    if c.countedOn == Some(c.generation) then c
    else c.(countedOn := Some(c.generation), written := 0, answered := 0)
  }

  /** A `sessions` request, `sent` or refused by the socket. */
  function Requested(c: Control, sent: bool): Control {
    if !c.connected then c
    else
      var s := Synced(c);
      if !sent then s
      else
        var own := s.open.Some? && s.open.value.generation == s.generation && s.open.value.position.None?;
        s.(written := s.written + 1,
           open := if own then Some(s.open.value.(position := Some(s.written))) else s.open)
  }

  /** A reply takes the link's next position; is it one the catch-up asked for? */
  function ReplyTaken(c: Control): (Control, bool) {
    var s := Synced(c);
    (s.(answered := s.answered + 1),
     && s.open.Some? && s.open.value.generation == s.generation
     && s.open.value.position.Some? && s.answered >= s.open.value.position.value)
  }

  function ScreenHeld(c: Control): Control {
    if c.open.Some? then c
    else c.(epochs := c.epochs + 1, open := Some(Open(c.epochs + 1, c.generation, None, None, false)))
  }

  /** `openCatchUp`, up to its own request. */
  function Aimed(c: Control, onNewLink: bool): Control {
    var h := ScreenHeld(c);
    h.(open := Some(h.open.value.(generation := c.generation, list := None,
                                  position := if onNewLink then Some(0) else None)))
  }

  predicate HoldsOnLeaving(c: Control) { c.open.Some? || c.launchSettled }

  function Left(c: Control): Control {
    var away := c.(wentToBackground := true);
    if !HoldsOnLeaving(c) then away
    else
      var h := ScreenHeld(away);
      h.(open := Some(h.open.value.(list := None, position := None)))
  }

  function Progressed(c: Control): Control {
    if c.open.None? then c else c.(open := Some(c.open.value.(progressed := true)))
  }

  /** A reply that answers sets the list; only the first one is progress. */
  function ListHeld(c: Control, list: Fleet): Control {
    if c.open.None? then c
    else
      var o := c.open.value;
      c.(open := Some(o.(list := Some(list), progressed := o.progressed || o.list.None?)))
  }

  /** `checkCatchUp`: without progress the link is dropped; with it, the progress is used up. */
  function Checked(c: Control): Control {
    if c.open.None? || !c.connected || c.wentToBackground then c
    else if c.open.value.progressed then c.(open := Some(c.open.value.(progressed := false)))
    else c.(connected := false, redials := c.redials + 1)
  }

  /** The bookkeeping as the object it is. */
  class CatchUpControl {
    var generation: nat
    var isConnected: bool
    var wentToBackground: bool
    var launchSettled: bool
    var catchUp: Option<Open>
    var catchUpEpochs: nat
    var sessionsWritten: nat
    var sessionsAnswered: nat
    var sessionsCountGeneration: Option<nat>
    var redials: nat

    function Value(): Control
      reads this
    {
      Control(generation, isConnected, wentToBackground, launchSettled, catchUp, catchUpEpochs,
              sessionsWritten, sessionsAnswered, sessionsCountGeneration, redials)
    }

    constructor ()
      ensures Value() == Control(0, false, false, false, None, 0, 0, 0, None, 0)
    {
      generation, isConnected, wentToBackground, launchSettled := 0, false, false, false;
      catchUp, catchUpEpochs, redials := None, 0, 0;
      sessionsWritten, sessionsAnswered, sessionsCountGeneration := 0, 0, None;
    }

    method SyncSessionsCount()
      modifies `sessionsCountGeneration, `sessionsWritten, `sessionsAnswered
      ensures Value() == Synced(old(Value()))
    {
      if sessionsCountGeneration == Some(generation) { return; }
      sessionsCountGeneration := Some(generation);
      sessionsWritten, sessionsAnswered := 0, 0;
    }

    method RequestSessions(sent: bool)
      modifies `sessionsCountGeneration, `sessionsWritten, `sessionsAnswered, `catchUp
      ensures Value() == Requested(old(Value()), sent)
    {
      if !isConnected { return; }
      SyncSessionsCount();
      if !sent { return; }
      var position := sessionsWritten;
      sessionsWritten := sessionsWritten + 1;
      if catchUp.Some? && catchUp.value.generation == generation && catchUp.value.position.None? {
        catchUp := Some(catchUp.value.(position := Some(position)));
      }
    }

    method TakeSessionsReply() returns (answers: bool)
      modifies `sessionsCountGeneration, `sessionsWritten, `sessionsAnswered
      ensures (Value(), answers) == ReplyTaken(old(Value()))
    {
      SyncSessionsCount();
      var position := sessionsAnswered;
      sessionsAnswered := sessionsAnswered + 1;
      if catchUp.None? || catchUp.value.generation != generation || catchUp.value.position.None? { return false; }
      return position >= catchUp.value.position.value;
    }

    method HoldScreen()
      modifies `catchUp, `catchUpEpochs
      ensures Value() == ScreenHeld(old(Value()))
    {
      if catchUp.Some? { return; }
      catchUpEpochs := catchUpEpochs + 1;
      catchUp := Some(Open(catchUpEpochs, generation, None, None, false));
    }

    method OpenCatchUp(onNewLink: bool, sent: bool)
      modifies this
      ensures Value() == Requested(Aimed(old(Value()), onNewLink), sent)
    {
      HoldScreen();
      catchUp := Some(catchUp.value.(generation := generation, list := None,
                                     position := if onNewLink then Some(0) else None));
      RequestSessions(sent);
    }

    method Leave()
      modifies `catchUp, `catchUpEpochs, `wentToBackground
      ensures Value() == Left(old(Value()))
    {
      wentToBackground := true;
      if catchUp.None? && !launchSettled { return; }
      HoldScreen();
      catchUp := Some(catchUp.value.(list := None, position := None));
    }

    /** `comeBack`, with what it returns: true where it aimed. */
    method ComeBack(sent: bool) returns (asked: bool)
      modifies this
      ensures asked == (old(wentToBackground) && old(isConnected))
      ensures Value() == if asked then Requested(Aimed(old(Value()).(wentToBackground := false), false), sent)
                         else old(Value()).(wentToBackground := false)
    {
      if !wentToBackground { return false; }
      wentToBackground := false;
      if !isConnected { return false; }
      OpenCatchUp(false, sent);
      return true;
    }

    method CheckCatchUp()
      modifies `catchUp, `isConnected, `redials
      ensures Value() == Checked(old(Value()))
    {
      if catchUp.None? || !isConnected || wentToBackground { return; }
      if catchUp.value.progressed {
        catchUp := Some(catchUp.value.(progressed := false));
        return;
      }
      isConnected, redials := false, redials + 1;
    }
  }

  // ------------------------------------------------------------- one session

  datatype Pin = Pin(at: nat, resolved: bool)

  datatype PinRequest = PinRequest(id: nat, card: CardRef, arrived: Option<Event>)

  /** What a chat, its row and its cards draw of one run. */
  datatype View = View(
    rows: string, drawnThrough: nat, gap: Gap, windowStart: Option<nat>, loadingPage: bool,
    fact: Option<string>, reviewed: nat)

  datatype Publication = Live | Release | ReviewedByReader | GapDismissedByReader

  datatype Chat = Chat(
    key: Key,
    log: Replica,
    pins: map<string, Pin>,
    pin: Option<PinRequest>,
    unpinnable: set<CardRef>,
    rows: string,
    drawnThrough: nat,
    rebuildDue: bool,
    windowEpoch: nat,
    holds: bool,
    shown: View,
    publications: seq<Publication>)

  /** How rows are built, whether they show anything, and which events are cards or answer one. */
  datatype Params = Params(
    draw: (seq<Event>, map<string, Pin>) -> string,
    substantive: string -> bool,
    isCard: Event -> bool,
    answers: Event -> Option<string>,
    listing: set<Key> -> seq<Key>)

  const NothingShown: View := View("", 0, NoGap, None, false, None, 0)

  function Fresh(key: Key, holds: bool): Chat {
    Chat(key, Empty, map[], None, {}, "", 0, false, 0, holds, NothingShown, [])
  }

  function Held(c: Chat): nat { LastSeq(c.log.events) }

  /** The view a session would be shown with, were it published as it stands. */
  function Current(c: Chat, mark: nat): View {
    View(c.rows, c.drawnThrough, c.log.gap, c.log.windowStart, c.log.page.Some?, c.log.fact, mark)
  }

  function Committed(c: Chat, mark: nat, why: Publication): Chat {
    if Current(c, mark) == c.shown then c
    else c.(shown := Current(c, mark), publications := c.publications + [why])
  }

  function Drawn(p: Params, c: Chat): Chat {
    c.(rows := p.draw(c.log.events, c.pins), drawnThrough := Held(c))
  }

  predicate NeedsEarlierPage(p: Params, c: Chat) {
    && c.log.windowStart.Some? && c.log.windowStart.value > 1 && !c.log.fillStopped
    && !p.substantive(c.rows)
  }

  function Ingest(c: Chat, e: Event): Chat {
    var log := Ingested(c.log, e);
    var below := c.log.windowStart.Some? && e.at < c.log.windowStart.value;
    c.(log := log,
       pin := if below && c.pin.Some? && c.pin.value.card.at == e.at then Some(c.pin.value.(arrived := Some(e))) else c.pin,
       rebuildDue := c.rebuildDue || log.events != c.log.events || log.pending != c.log.pending)
  }

  /** `rebuildNow`, and the rebuild the coalescing window schedules. */
  function Rebuilt(p: Params, c: Chat): Chat {
    if !c.rebuildDue && c.log.pending == [] then c
    else Drawn(p, c.(log := Settled(c.log), rebuildDue := false))
  }

  predicate CanPin(c: Chat, ref: CardRef) {
    && c.log.page.None? && c.pin.None? && c.log.windowStart.Some? && ref.at < c.log.windowStart.value
    && ref.requestID !in c.pins && ref !in c.unpinnable
  }

  function PinBegun(c: Chat, ref: CardRef, id: nat): Chat {
    if CanPin(c, ref) then c.(pin := Some(PinRequest(id, ref, None))) else c
  }

  predicate CanPage(c: Chat) {
    c.log.page.None? && c.pin.None? && c.log.windowStart.Some? && c.log.windowStart.value > 1
  }

  function PageAsked(c: Chat, id: nat): Chat {
    if CanPage(c) then c.(log := PageBegun(c.log, id)) else c
  }

  /** `holds(card:)`: no window cuts the card off, or a pin or a failed fetch stands for it. */
  predicate HoldsCard(c: Chat, ref: CardRef) {
    c.log.windowStart.Some? ==>
      ref.at >= c.log.windowStart.value || ref.requestID in c.pins || ref in c.unpinnable
  }

  /** The list names a request at a seq: the first, when it names it at two. */
  predicate Lists(pending: seq<CardRef>, requestID: string, at: nat) {
    exists i | 0 <= i < |pending| ::
      pending[i] == CardRef(requestID, at) && forall j | 0 <= j < i :: pending[j].requestID != requestID
  }

  predicate Answered(p: Params, events: seq<Event>, requestID: string) {
    exists i | 0 <= i < |events| :: p.answers(events[i]) == Some(requestID)
  }

  function PinsKept(p: Params, c: Chat, pending: seq<CardRef>): Chat {
    var kept := map id | id in c.pins
      && (Lists(pending, id, c.pins[id].at) || c.pins[id].resolved || Answered(p, c.log.events, id)) :: c.pins[id];
    if kept == c.pins then c else Drawn(p, c.(pins := kept))
  }

  /** The card a list names at a seq: the first, when it names two. */
  function ListedAt(pending: seq<CardRef>, at: nat): Option<string> {
    if pending == [] then None
    else if pending[0].at == at then Some(pending[0].requestID)
    else ListedAt(pending[1..], at)
  }

  /** The open cards a window leaves below it stay, as pins, and an answer trimmed past one is remembered. */
  function Trimmed(p: Params, pins: map<string, Pin>, below: seq<Event>, pending: seq<CardRef>): map<string, Pin> {
    if below == [] then pins
    else
      var rest := Trimmed(p, pins, below[..|below| - 1], pending);
      var e := below[|below| - 1];
      if p.isCard(e) && ListedAt(pending, e.at).Some? then rest[ListedAt(pending, e.at).value := Pin(e.at, false)]
      else
        match p.answers(e)
        case Some(id) => if id in rest then rest[id := rest[id].(resolved := true)] else rest
        case None => rest
  }

  function WindowApplied(p: Params, c: Chat, daemonLast: nat, keepEarlier: bool, pending: seq<CardRef>): Chat {
    if KeepsAsIs(c.log, daemonLast, keepEarlier) then c.(windowEpoch := c.windowEpoch + 1)
    else
      var merged := Settled(c.log).events;
      Drawn(p, c.(
        log := Windowed(c.log, daemonLast, keepEarlier),
        pins := Trimmed(p, c.pins, merged[..Below(merged, FloorOf(daemonLast) + 1)], pending),
        pin := None, unpinnable := {},
        rebuildDue := false, windowEpoch := c.windowEpoch + 1))
  }

  function PinEnded(p: Params, c: Chat, failed: bool): Chat
    requires c.pin.Some?
  {
    var asked := c.pin.value;
    if failed || asked.arrived.None? || !p.isCard(asked.arrived.value) then c.(pin := None, unpinnable := c.unpinnable + {asked.card})
    else Drawn(p, c.(pin := None, pins := c.pins[asked.card.requestID := Pin(asked.card.at, false)]))
  }

  function RequestEnded(p: Params, c: Chat, id: nat, firstSeq: nat, failed: bool): Chat {
    if c.pin.Some? && c.pin.value.id == id then PinEnded(p, c, failed)
    else if c.log.page.None? || c.log.page.value.id != id then c
    else if failed then c.(log := PageEnded(c.log, id, firstSeq, true))
    else
      Drawn(p, c.(
        log := PageEnded(c.log, id, firstSeq, false),
        pins := map r | r in c.pins && c.pins[r].at < firstSeq :: c.pins[r],
        rebuildDue := false))
  }

  /** The link has gone: neither the page nor the card asked for on it will end. */
  function Cancelled(c: Chat): Chat {
    c.(log := PageCancelled(c.log), pin := None, unpinnable := {})
  }

  function CacheLoaded(p: Params, c: Chat, cached: seq<Event>): Chat {
    if c.log.events != [] || c.log.pending != [] || c.log.windowStart.Some? then c
    else
      var (f, at) := NewerFact(None, 0, cached);
      var log := c.log.(events := cached);
      Drawn(p, c.(log := if f.Some? then log.(fact := f, factAt := at) else log))
  }

  function LogRewoundFor(c: Chat): Chat {
    c.(log := Rewound(c.log), pins := map[], pin := None, unpinnable := {}, rows := "", drawnThrough := 0)
  }

  /** The reader's own acts, on screen at once. */
  function NoticeDismissed(c: Chat): Chat {
    var d := c.(log := GapDismissed(c.log));
    if c.shown.gap == NoGap then d
    else d.(shown := c.shown.(gap := NoGap), publications := c.publications + [GapDismissedByReader])
  }

  function ReviewMarked(c: Chat, mark: nat): Chat {
    if c.shown.reviewed == mark then c
    else c.(shown := c.shown.(reviewed := mark), publications := c.publications + [ReviewedByReader])
  }

  // ------------------------------------------------------------- the machine

  datatype Asked = Asked(generation: nat, after: nat)

  /** A subscription on its way: what it was started with. */
  datatype Subscribing = Subscribing(key: Key, generation: nat, windowEpoch: nat, lastSeq: nat, resetWindow: bool)

  /**
   What the link has carried, for the properties: the step each `sessions` request
   on it was written at, and the steps of the last aim, leave and return and of the
   request the held list answers; and the list the last release landed on, with that step.
   */
  datatype Past = Past(
    clock: nat, writes: seq<nat>, aimedAt: nat, returnedAt: nat, listAt: nat, landed: Fleet, landedAt: nat)

  datatype App = App(
    ctl: Control,
    past: Past,
    pagesHistory: bool,
    chats: seq<Chat>,
    states: map<Key, nat>,
    shownStates: map<Key, nat>,
    summaries: Fleet,
    shownSummaries: Fleet,
    listedOn: Option<nat>,
    resetDue: set<Key>,
    subscribed: set<Key>,
    subscribedAfter: map<Key, Asked>,
    tasks: seq<Subscribing>,
    marks: map<Key, nat>,
    departedMarks: set<Key>,
    releases: nat,
    nextRequest: nat)

  function MarkOf(a: App, key: Key): nat { if key in a.marks then a.marks[key] else 0 }

  predicate HasState(a: App, key: Key) { key in a.states && a.states[key] < |a.chats| }

  function ChatOf(a: App, key: Key): Chat
    requires HasState(a, key)
  {
    a.chats[a.states[key]]
  }

  /** A change to one session's truth, published at its end unless the session is held. */
  function Put(a: App, id: nat, c: Chat): App
    requires id < |a.chats|
  {
    a.(chats := a.chats[id := if c.holds then c else Committed(c, MarkOf(a, c.key), Live)])
  }

  /** `state(for:)`: created on demand, and on screen only when nothing holds it. */
  function Stated(a: App, key: Key): (r: App)
    ensures HasState(r, key)
  {
    if HasState(a, key) then a
    else
      a.(chats := a.chats + [Fresh(key, a.ctl.open.Some?)],
         states := a.states[key := |a.chats|],
         shownStates := if a.ctl.open.Some? then a.shownStates else a.shownStates[key := |a.chats|])
  }

  /** The summary the list held for a key: the first. */
  function SummaryFor(list: Fleet, key: Key): Option<Summary> {
    if list == [] then None
    else if list[0].key == key then Some(list[0])
    else SummaryFor(list[1..], key)
  }

  function FirstToPin(c: Chat, pending: seq<CardRef>): Option<CardRef> {
    if pending == [] then None
    else if CanPin(c, pending[0]) then Some(pending[0])
    else FirstToPin(c, pending[1..])
  }

  function CardsPinned(p: Params, a: App, key: Key): App {
    if !a.ctl.connected || !a.pagesHistory || a.listedOn != Some(a.ctl.generation)
       || !HasState(a, key) || SummaryFor(a.summaries, key).None? then a
    else
      var summary := SummaryFor(a.summaries, key).value;
      var kept := if Held(ChatOf(a, key)) >= summary.lastSeq
                  then Put(a, a.states[key], PinsKept(p, ChatOf(a, key), summary.pending)) else a;
      var c := kept.chats[a.states[key]];
      match FirstToPin(c, summary.pending)
      case None => kept
      case Some(ref) =>
        Put(kept, a.states[key], PinBegun(c, ref, kept.nextRequest)).(nextRequest := kept.nextRequest + 1)
  }

  function PageRequested(a: App, key: Key): App {
    if !a.ctl.connected || !HasState(a, key) || !CanPage(ChatOf(a, key)) then a
    else
      Put(a, a.states[key], PageAsked(ChatOf(a, key), a.nextRequest)).(nextRequest := a.nextRequest + 1)
  }

  /** `fillWindow`: the open cards a window lacks, then the page below one with nothing to show. */
  function WindowFilled(p: Params, a: App, key: Key): App {
    var pinned := CardsPinned(p, a, key);
    if !HasState(pinned, key) || !NeedsEarlierPage(p, ChatOf(pinned, key))
       || SummaryFor(a.summaries, key).None? || Held(ChatOf(pinned, key)) < SummaryFor(a.summaries, key).value.lastSeq
    then pinned
    else PageRequested(pinned, key)
  }

  function RebuiltNow(p: Params, a: App, id: nat): App
    requires id < |a.chats|
  {
    var c := a.chats[id];
    if !c.rebuildDue && c.log.pending == [] then a
    else WindowFilled(p, Put(a, id, Rebuilt(p, c)), c.key)
  }

  function AllRebuilt(p: Params, a: App, keys: seq<Key>): App
    decreases |keys|
  {
    if keys == [] then a
    else
      var before := AllRebuilt(p, a, keys[..|keys| - 1]);
      var key := keys[|keys| - 1];
      if HasState(before, key) then RebuiltNow(p, before, before.states[key]) else before
  }

  function AllFilled(p: Params, a: App, list: Fleet): App
    decreases |list|
  {
    if list == [] then a
    else WindowFilled(p, AllFilled(p, a, list[..|list| - 1]), list[|list| - 1].key)
  }

  /** Level with the summary, and asked for in this generation. */
  predicate HasArrived(a: App, s: Summary, generation: nat) {
    && HasState(a, s.key) && Held(ChatOf(a, s.key)) >= s.lastSeq
    && s.key in a.subscribedAfter && a.subscribedAfter[s.key].generation == generation
  }

  predicate IsCaughtUp(p: Params, a: App, s: Summary, generation: nat) {
    && HasArrived(a, s, generation)
    && var c := ChatOf(a, s.key);
       && !NeedsEarlierPage(p, c) && c.log.page.None? && c.pin.None?
       && (a.pagesHistory ==> forall i | 0 <= i < |s.pending| :: HoldsCard(c, s.pending[i]))
  }

  /** `commitList`: the list and its sessions are shown; marks of departed runs are dropped. */
  function ListCommitted(a: App): App {
    a.(marks := map key | key in a.marks && (key !in a.departedMarks || key in a.states) :: a.marks[key],
       departedMarks := {},
       shownSummaries := a.summaries,
       shownStates := a.states)
  }

  function ListPublished(a: App): App {
    if a.ctl.open.Some? then a else ListCommitted(a)
  }

  /** `releaseCatchUp`: let go, put every session's truth on screen, then the list. */
  function Released(a: App, list: Fleet): App {
    var let := seq(|a.chats|, i requires 0 <= i < |a.chats| =>
      if i in a.states.Values then Committed(a.chats[i].(holds := false), MarkOf(a, a.chats[i].key), Release)
      else a.chats[i]);
    ListCommitted(a.(ctl := a.ctl.(open := None, launchSettled := true), chats := let))
      .(releases := a.releases + 1, past := a.past.(landed := list, landedAt := a.past.listAt))
  }

  /** `advanceCatchUp` */
  function Advanced(p: Params, a: App): App {
    if a.ctl.open.None? || a.ctl.wentToBackground || a.ctl.open.value.list.None? then a
    else
      var o := a.ctl.open.value;
      if exists i | 0 <= i < |o.list.value| :: !HasArrived(a, o.list.value[i], o.generation) then a
      else
        var ready := AllFilled(p, AllRebuilt(p, a, p.listing(a.states.Keys)), o.list.value);
        if forall i | 0 <= i < |o.list.value| :: IsCaughtUp(p, ready, o.list.value[i], o.generation)
        then Released(ready, o.list.value) else ready
  }

  // ------------------------------------------------------- what happens to it

  /** Every session the screen draws now, held; new ones are held as they come. */
  function ScreenFrozen(a: App, ctl: Control): (b: App)
    ensures b.ctl == ctl && b.past == a.past
  {
    if a.ctl.open.Some? then a.(ctl := ctl)
    else
      a.(ctl := ctl, chats := AllHeld(a.chats, a.states))
  }

  function AllHeld(chats: seq<Chat>, states: map<Key, nat>): (held: seq<Chat>)
    ensures |held| == |chats|
    ensures forall i | 0 <= i < |chats| :: held[i] == chats[i].(holds := held[i].holds)
  {
    seq(|chats|, i requires 0 <= i < |chats| =>
      if i in states.Values then chats[i].(holds := true) else chats[i])
  }

  function Ask(a: App, sent: bool): App {
    var asked := Requested(a.ctl, sent);
    a.(ctl := asked,
       past := if a.ctl.connected && sent then a.past.(writes := a.past.writes + [a.past.clock]) else a.past)
  }

  function AimedHere(a: App, onNewLink: bool, sent: bool): App {
    var held := ScreenFrozen(a, Aimed(a.ctl, onNewLink));
    Ask(held.(past := held.past.(aimedAt := held.past.clock)), sent)
  }

  function LeftForBackground(a: App): App {
    var held := if HoldsOnLeaving(a.ctl) then ScreenFrozen(a, Left(a.ctl)) else a.(ctl := Left(a.ctl));
    held.(past := held.past.(aimedAt := held.past.clock))
  }

  /** `comeBack`, and whether it asked for this return's list. */
  function CameBack(a: App, sent: bool): (App, bool) {
    if !a.ctl.wentToBackground then (a, false)
    else
      var back := a.(ctl := a.ctl.(wentToBackground := false), resetDue := a.states.Keys,
                     past := a.past.(returnedAt := a.past.clock));
      if !a.ctl.connected then (back, false) else (AimedHere(back, false, sent), true)
  }

  function BecameActive(a: App, sent: bool): App {
    var (back, asked) := CameBack(a, sent);
    if asked then back else Ask(back, sent)
  }

  /** A new link: the catch-up aimed at it, and everything asked on the old one forgotten. */
  function Connected(a: App, pagesHistory: bool, sent: bool): App {
    var linked := a.(
      ctl := a.ctl.(generation := a.ctl.generation + 1, connected := true),
      pagesHistory := pagesHistory,
      past := a.past.(writes := []));
    var aimed := AimedHere(linked, true, sent);
    var gone := aimed.(subscribed := {}, subscribedAfter := map[]);
    gone.(chats := seq(|gone.chats|, i requires 0 <= i < |gone.chats| =>
      if i in gone.states.Values then
        var c := Cancelled(gone.chats[i]);
        if c.holds then c else Committed(c, MarkOf(gone, c.key), Live)
      else gone.chats[i]))
  }

  function Forgotten(a: App, gone: set<Key>): App {
    a.(subscribed := a.subscribed - gone,
       subscribedAfter := map key | key in a.subscribedAfter && key !in gone :: a.subscribedAfter[key],
       states := map key | key in a.states && key !in gone :: a.states[key],
       departedMarks := a.departedMarks + gone)
  }

  function SubscribedTo(a: App, key: Key, after: nat): App {
    if key in a.subscribedAfter && a.subscribedAfter[key].generation == a.ctl.generation
       && a.subscribedAfter[key].after <= after then a
    else a.(subscribedAfter := a.subscribedAfter[key := Asked(a.ctl.generation, after)])
  }

  /** `applyWindow` and its fill. */
  function WindowSet(p: Params, a: App, key: Key, daemonLast: nat, keepEarlier: bool): App
    requires HasState(a, key)
  {
    var pending := match SummaryFor(a.summaries, key) case Some(s) => s.pending case None => [];
    WindowFilled(p, Put(a, a.states[key], WindowApplied(p, ChatOf(a, key), daemonLast, keepEarlier, pending)), key)
  }

  function Restarted(p: Params, a: App, s: Summary): App
    requires HasState(a, s.key)
  {
    SubscribedTo(WindowSet(p, a, s.key, s.lastSeq, false), s.key, ResumeAfter(ChatOf(a, s.key).log, s.lastSeq, false))
  }

  function SubscribeBegun(a: App, s: Summary, resetWindow: bool): App
    requires HasState(a, s.key)
  {
    if s.key in a.subscribed then a
    else
      a.(subscribed := a.subscribed + {s.key},
         tasks := a.tasks + [Subscribing(s.key, a.ctl.generation, ChatOf(a, s.key).windowEpoch, s.lastSeq, resetWindow)])
  }

  /** One summary of a list: with a catch-up open, only a list that answers uses up a reset. */
  function Listed(p: Params, a: App, s: Summary, answers: bool): App {
    var known := Stated(a, s.key);
    var spends := a.ctl.open.None? || answers;
    var resetDue := spends && s.key in known.resetDue;
    var spent := if spends then known.(resetDue := known.resetDue - {s.key}) else known;
    var restarted := if resetDue && spent.pagesHistory && s.key in spent.subscribed then Restarted(p, spent, s) else spent;
    if !HasState(restarted, s.key) then restarted
    else
      var asked := SubscribeBegun(restarted, s, resetDue);
      if asked.pagesHistory && Held(ChatOf(asked, s.key)) >= s.lastSeq
      then Put(asked, asked.states[s.key], PinsKept(p, ChatOf(asked, s.key), s.pending))
      else asked
  }

  function AllListed(p: Params, a: App, list: Fleet, answers: bool): App
    decreases |list|
  {
    if list == [] then a
    else Listed(p, AllListed(p, a, list[..|list| - 1], answers), list[|list| - 1], answers)
  }

  /** The next reply on this link, taken; the step its request was written at, if it had one. */
  function TakeReply(a: App): (App, bool, nat) {
    var (ctl, answers) := ReplyTaken(a.ctl);
    var answered := Synced(a.ctl).answered;
    (a.(ctl := ctl), answers, if answered < |a.past.writes| then a.past.writes[answered] else a.past.clock)
  }

  /** A list that arrived, up to the look at the catch-up that follows it. */
  function ListFiled(p: Params, a: App, list: Fleet): App {
    var (taken, answers, writtenAt) := TakeReply(a);
    var aimed := if answers then taken.(ctl := ListHeld(taken.ctl, list), past := taken.past.(listAt := writtenAt))
                 else taken;
    var current := aimed.(summaries := list, listedOn := Some(a.ctl.generation));
    AllListed(p, Forgotten(current, current.states.Keys - Keys(list)), list, answers)
  }

  function ListUnavailable(a: App): App {
    var (taken, answers, _) := TakeReply(a);
    if answers then taken.(ctl := Progressed(taken.ctl)) else taken
  }

  function OwedSeq(o: Open, key: Key): Option<nat> {
    if o.list.None? then None
    else match SummaryFor(o.list.value, key) case Some(s) => Some(s.lastSeq) case None => None
  }

  /** An event, which is progress if it moves a tail that was below its target. */
  function EventFiled(p: Params, a: App, key: Key, e: Event, newCard: bool, sent: bool): App {
    var known := Stated(a, key);
    var heldThrough := Held(ChatOf(known, key));
    var held := Put(known, known.states[key], Ingest(ChatOf(known, key), e));
    var asked := if newCard then Ask(held, sent) else held;
    if asked.ctl.open.None? then asked
    else
      var target := OwedSeq(asked.ctl.open.value, key);
      var pays := target.Some? && heldThrough < target.value && Held(ChatOf(asked, key)) > heldThrough;
      if pays then asked.(ctl := Progressed(asked.ctl)) else asked
  }

  /** The end of a page or of a card asked for. */
  function HistoryFiled(p: Params, a: App, key: Key, id: nat, firstSeq: nat, failed: bool): App {
    if !HasState(a, key) then a
    else
      var c := ChatOf(a, key);
      var ours := (c.log.page.Some? && c.log.page.value.id == id) || (c.pin.Some? && c.pin.value.id == id);
      var counted := if ours then a.(ctl := Progressed(a.ctl)) else a;
      WindowFilled(p, Put(counted, counted.states[key], RequestEnded(p, c, id, firstSeq, failed)), key)
  }

  const INITIAL_BACKFILL: nat := 400

  function BackfillStart(lastSeq: nat): nat { if lastSeq > INITIAL_BACKFILL then lastSeq - INITIAL_BACKFILL else 0 }

  /** A subscription that has read the cache. */
  function SubscriptionLoaded(p: Params, a: App, t: Subscribing, cached: seq<Event>): App {
    var known := Stated(a, t.key);
    Put(known, known.states[t.key], CacheLoaded(p, ChatOf(known, t.key), cached))
  }

  /** The window is set and the session asked for, on the link the subscription began on only; and whether that settles it. */
  function SubscriptionFiled(p: Params, a: App, t: Subscribing, cached: seq<Event>): (App, bool) {
    if a.ctl.generation != t.generation then (a.(subscribed := a.subscribed - {t.key}), false)
    else
      var loaded := SubscriptionLoaded(p, a, t, cached);
      var c := ChatOf(loaded, t.key);
      if c.windowEpoch != t.windowEpoch then
        if !a.ctl.connected then (loaded, false)
        else
          (SubscribedTo(loaded, t.key,
             Max(Held(c), if c.log.windowStart.Some? && c.log.windowStart.value > 0 then c.log.windowStart.value - 1 else 0)),
           true)
      else
        var rewinds := Max(Held(c), LastSeq(cached)) > t.lastSeq;
        var ready := if rewinds then Put(loaded, loaded.states[t.key], LogRewoundFor(c)) else loaded;
        var log := ChatOf(ready, t.key).log;
        var keep := !rewinds && log.windowStart.Some? && !t.resetWindow;
        var set_ := if ready.pagesHistory then WindowSet(p, ready, t.key, t.lastSeq, keep) else ready;
        if !a.ctl.connected then (set_.(subscribed := set_.subscribed - {t.key}), false)
        else
          (SubscribedTo(set_, t.key,
             if ready.pagesHistory then ResumeAfter(log, t.lastSeq, keep)
             else if rewinds || Max(Held(c), LastSeq(cached)) == 0 then BackfillStart(t.lastSeq)
             else Max(Held(c), LastSeq(cached))),
           true)
  }

  function Without(list: Fleet, key: Key): Fleet {
    if list == [] then []
    else Without(list[..|list| - 1], key) + if list[|list| - 1].key == key then [] else [list[|list| - 1]]
  }

  /** A removal with the screen held: off the screen at once, and off the list waited for. */
  function RowGone(a: App, key: Key): App
    requires a.ctl.open.Some?
  {
    var o := a.ctl.open.value;
    var list := match o.list case Some(l) => Some(Without(l, key)) case None => None;
    Forgotten(a, {key}).(
      summaries := Without(a.summaries, key),
      shownSummaries := Without(a.shownSummaries, key),
      shownStates := map k | k in a.shownStates && k != key :: a.shownStates[k],
      marks := map k | k in a.marks && k != key :: a.marks[k],
      departedMarks := a.departedMarks - {key},
      ctl := a.ctl.(open := Some(o.(list := list, progressed := true))))
  }

  /** The Mac says the run is gone: `removeSession`, after the reply. */
  function Removed(a: App, key: Key): App {
    if a.ctl.open.Some? then RowGone(a, key)
    else ListPublished(Forgotten(a, {key}).(summaries := Without(a.summaries, key)))
  }

  function GapDismissedFor(a: App, key: Key): App {
    if key !in a.shownStates || a.shownStates[key] >= |a.chats| then a
    else a.(chats := a.chats[a.shownStates[key] := NoticeDismissed(a.chats[a.shownStates[key]])])
  }

  function ReviewedBy(a: App, key: Key): App {
    if key !in a.shownStates || a.shownStates[key] >= |a.chats| then a
    else
      var c := a.chats[a.shownStates[key]];
      var mark := Max(MarkOf(a, c.key), c.shown.drawnThrough);
      a.(marks := a.marks[c.key := mark], chats := a.chats[a.shownStates[key] := ReviewMarked(c, mark)])
  }

  datatype Step =
    | Background
    | Inactive(sent: bool)
    | Active(sent: bool)
    | LinkDown
    | Handshake(pages: bool, sent: bool)
    | Refresh(sent: bool)
    | Sessions(list: Fleet)
    | SessionsUnavailable
    | EventFor(key: Key, e: Event, newCard: bool, sent: bool)
    | Coalesced(chat: nat)
    | HistoryEnd(key: Key, id: nat, firstSeq: nat, failed: bool)
    | SubscriptionReads(task: nat, cached: seq<Event>)
    | RemovalConfirmed(key: Key)
    | StallCheck
    | LaunchSettles
    | DismissGap(key: Key)
    | MarkReviewed(key: Key)
    | ReachedTop(key: Key)

  /**
   What a step does, up to the look at the catch-up it may end with; and whether it does.
   A frame comes only on a link that is up. A removal is the one step that goes on from
   an answer after awaiting it, so the link may have gone, or the app come back, between.
   */
  function Worked(p: Params, a: App, step: Step): (App, bool) {
    match step
    case Background => (LeftForBackground(a), false)
    case Inactive(sent) => (CameBack(a, sent).0, false)
    case Active(sent) => (BecameActive(a, sent), false)
    case LinkDown => (a.(ctl := a.ctl.(connected := false)), false)
    case Handshake(pages, sent) => (Connected(a, pages, sent), false)
    case Refresh(sent) => (Ask(a, sent), false)
    case Sessions(list) => if a.ctl.connected then (ListPublished(ListFiled(p, a, list)), true) else (a, false)
    case SessionsUnavailable => (if a.ctl.connected then ListUnavailable(a) else a, false)
    case EventFor(key, e, newCard, sent) =>
      if a.ctl.connected then (EventFiled(p, a, key, e, newCard, sent), true) else (a, false)
    case Coalesced(chat) => (if chat < |a.chats| then RebuiltNow(p, a, chat) else a, false)
    case HistoryEnd(key, id, firstSeq, failed) =>
      if a.ctl.connected then (HistoryFiled(p, a, key, id, firstSeq, failed), true) else (a, false)
    case SubscriptionReads(task, cached) =>
      if task < |a.tasks|
      then SubscriptionFiled(p, a.(tasks := a.tasks[..task] + a.tasks[task + 1..]), a.tasks[task], cached)
      else (a, false)
    case RemovalConfirmed(key) => (Removed(a, key), true)
    case StallCheck => (a.(ctl := Checked(a.ctl)), false)
    case LaunchSettles => (a.(ctl := a.ctl.(launchSettled := true)), false)
    case DismissGap(key) => (GapDismissedFor(a, key), false)
    case MarkReviewed(key) => (ReviewedBy(a, key), false)
    case ReachedTop(key) => (if a.ctl.open.None? && a.pagesHistory then PageRequested(a, key) else a, false)
  }

  function Ticked(a: App): App { a.(past := a.past.(clock := a.past.clock + 1)) }

  /** One step, at the next tick of the model's clock. */
  function Stepped(p: Params, a: App, step: Step): App {
    var (b, looks) := Worked(p, Ticked(a), step);
    if looks then Advanced(p, b) else b
  }

  function Run(p: Params, a: App, steps: seq<Step>): App
    decreases |steps|
  {
    if steps == [] then a else Stepped(p, Run(p, a, steps[..|steps| - 1]), steps[|steps| - 1])
  }

  const Launched: App := App(
    Control(0, false, false, false, None, 0, 0, 0, None, 0), Past(0, [], 0, 0, 0, [], 0), false, [], map[], map[], [], [],
    None, {}, {}, map[], [], map[], {}, 0, 0)
}
