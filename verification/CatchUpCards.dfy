/**
 The open cards a window does not reach: `keepPins`, `beginPin`, `endHistory` and the
 pins `applyWindow` keeps
 (CodeConnectKit/Sources/CodeConnectKit/SessionState.swift).

 A card stands on screen because its event is in the window or because a pin stands for
 it. A pin comes from a window that left the card below it (`WindowKeepsCards`) or from a
 card asked for (`CardEnds`), and goes when no list names it and nothing has answered it
 (`PinsStayExactly`); and each page or card that ends leaves strictly less to ask for
 (`EndsAreProgress`).
 */
module CatchUpCards {
  import opened Wrappers
  import opened Replica
  import ReplicaRuns
  import opened CatchUp

  // ------------------------------------------------------ a card asked for

  /** What arrives for one session, in order. */
  function AllIngested(c: Chat, events: seq<Event>): Chat
    decreases |events|
  {
    if events == [] then c else Ingest(AllIngested(c, events[..|events| - 1]), events[|events| - 1])
  }

  /** The last of some events to come with a seq. */
  predicate Latest(events: seq<Event>, at: nat, e: Option<Event>) {
    && e.Some?
    && exists i | 0 <= i < |events| :: events[i] == e.value && e.value.at == at && forall j | i < j < |events| :: events[j].at != at
  }

  lemma {:induction false} WaitingForACard(c: Chat, events: seq<Event>)
    requires c.pin.Some? && c.log.windowStart.Some? && c.pin.value.card.at < c.log.windowStart.value
    ensures var d := AllIngested(c, events);
      && d.log.windowStart == c.log.windowStart && d.log.page == c.log.page && d.pins == c.pins && d.unpinnable == c.unpinnable
      && d.pin.Some? && d.pin == Some(c.pin.value.(arrived := d.pin.value.arrived))
      && (d.pin.value.arrived == c.pin.value.arrived || Latest(events, c.pin.value.card.at, d.pin.value.arrived))
      && ((exists i | 0 <= i < |events| :: events[i].at == c.pin.value.card.at) ==> Latest(events, c.pin.value.card.at, d.pin.value.arrived))
      && ((forall i | 0 <= i < |events| :: events[i].at != c.pin.value.card.at) ==> d.pin == c.pin)
    decreases |events|
  {
    hide Ingest, Latest;
    if events != [] {
      var front, last, at := events[..|events| - 1], events[|events| - 1], c.pin.value.card.at;
      var d := AllIngested(c, front);
      WaitingForACard(c, front);
      OneMoreArrives(d, last);
      LatestGrows(front, last, at, d.pin.value.arrived);
      assert events == front + [last];
    }
  }

  lemma OneMoreArrives(c: Chat, e: Event)
    requires c.pin.Some? && c.log.windowStart.Some? && c.pin.value.card.at < c.log.windowStart.value
    ensures var d := Ingest(c, e);
      && d.log.windowStart == c.log.windowStart && d.log.page == c.log.page && d.pins == c.pins && d.unpinnable == c.unpinnable
      && d.pin == if e.at == c.pin.value.card.at then Some(c.pin.value.(arrived := Some(e))) else c.pin
  {
    hide Noting, Seqs;
    NoteMissingTouches(c.log, Range(LastSeq(c.log.events) + 1, if e.at == 0 then 0 else e.at - 1));
  }

  lemma LatestGrows(front: seq<Event>, last: Event, at: nat, e: Option<Event>)
    ensures last.at == at ==> Latest(front + [last], at, Some(last))
    ensures last.at != at && Latest(front, at, e) ==> Latest(front + [last], at, e)
    ensures (exists i | 0 <= i < |front + [last]| :: (front + [last])[i].at == at)
       <==> last.at == at || exists i | 0 <= i < |front| :: front[i].at == at
  {
    var all := front + [last];
    assert all[|front|] == last && forall i | 0 <= i < |front| :: all[i] == front[i];
  }

  /**
   A card asked for is pinned exactly when its event came before the end, the last of its
   seq and a card's, and the end was good; otherwise it is known to be missing. Either way it is waited for no longer.
   */
  lemma {:induction false} CardEnds(p: Params, c: Chat, ref: CardRef, id: nat, events: seq<Event>, firstSeq: nat, failed: bool)
    requires c.log.page == None && c.pin == None && c.log.windowStart.Some? && ref.at < c.log.windowStart.value
    requires ref.requestID !in c.pins && ref !in c.unpinnable
    ensures var d := RequestEnded(p, AllIngested(PinBegun(c, ref, id), events), id, firstSeq, failed);
      var found := exists i | 0 <= i < |events| ::
                     && events[i].at == ref.at && p.isCard(events[i]) && forall j | i < j < |events| :: events[j].at != ref.at;
      && d.pin == None && d.log.windowStart == c.log.windowStart
      && (if found && !failed
          then d.pins == c.pins[ref.requestID := Pin(ref.at, false)] && d.unpinnable == c.unpinnable
               && d.rows == p.draw(d.log.events, d.pins)
          else d.pins == c.pins && d.unpinnable == c.unpinnable + {ref})
  {
    hide Ingest, Settled;
    WaitingForACard(PinBegun(c, ref, id), events);
  }

  /** A pin stays while the list names its card where it stands, or something has answered it; the rows are drawn without the rest. */
  lemma {:induction false} PinsStayExactly(p: Params, c: Chat, pending: seq<CardRef>)
    ensures var d := PinsKept(p, c, pending);
      && d == c.(pins := d.pins, rows := d.rows, drawnThrough := d.drawnThrough)
      && (forall id :: id in d.pins <==>
            && id in c.pins
            && ((exists k | 0 <= k < |pending| :: pending[k] == CardRef(id, c.pins[id].at)
                                                  && forall j | 0 <= j < k :: pending[j].requestID != id)
                || c.pins[id].resolved
                || exists i | 0 <= i < |c.log.events| :: p.answers(c.log.events[i]) == Some(id)))
      && (forall id | id in d.pins :: d.pins[id] == c.pins[id])
      && (d.pins != c.pins ==> d.rows == p.draw(c.log.events, d.pins) && d.drawnThrough == LastSeq(c.log.events))
      && (d.pins == c.pins ==> d == c)
  {
  }

  // -------------------------------------------- what a window leaves below it

  /** The list names a card at this event, first of any it names at that seq. */
  predicate NamedAt(p: Params, e: Event, pending: seq<CardRef>, id: string) {
    && p.isCard(e)
    && exists k | 0 <= k < |pending| :: pending[k] == CardRef(id, e.at) && forall j | 0 <= j < k :: pending[j].at != e.at
  }

  /** An event that answers a request, and is no listed card itself. */
  predicate Answers(p: Params, e: Event, pending: seq<CardRef>, id: string) {
    p.answers(e) == Some(id) && !(p.isCard(e) && exists k | 0 <= k < |pending| :: pending[k].at == e.at)
  }

  lemma {:induction false} ListedAtIs(pending: seq<CardRef>, at: nat)
    ensures ListedAt(pending, at).None? <==> forall k | 0 <= k < |pending| :: pending[k].at != at
    ensures forall id :: ListedAt(pending, at) == Some(id) <==>
      exists k | 0 <= k < |pending| :: pending[k] == CardRef(id, at) && forall j | 0 <= j < k :: pending[j].at != at
    decreases |pending|
  {
    if pending != [] {
      var rest := pending[1..];
      ListedAtIs(rest, at);
      if pending[0].at != at {
        forall id
          ensures (exists k | 0 <= k < |pending| :: pending[k] == CardRef(id, at) && forall j | 0 <= j < k :: pending[j].at != at)
             <==> (exists k | 0 <= k < |rest| :: rest[k] == CardRef(id, at) && forall j | 0 <= j < k :: rest[j].at != at)
        {
          if k :| 0 <= k < |pending| && pending[k] == CardRef(id, at) && forall j | 0 <= j < k :: pending[j].at != at {
            assert rest[k - 1] == pending[k];
          }
          if k :| 0 <= k < |rest| && rest[k] == CardRef(id, at) && forall j | 0 <= j < k :: rest[j].at != at {
            assert pending[k + 1] == rest[k] && forall j | 1 <= j < k + 1 :: pending[j] == rest[j - 1];
          }
        }
        if k :| 0 <= k < |pending| && pending[k].at == at { assert rest[k - 1] == pending[k]; }
      }
    }
  }

  /** What one event below the window does to the pins. */
  lemma TrimsOne(p: Params, pins: map<string, Pin>, below: seq<Event>, pending: seq<CardRef>, id: string)
    requires below != []
    ensures var rest, all, e := Trimmed(p, pins, below[..|below| - 1], pending), Trimmed(p, pins, below, pending), below[|below| - 1];
      && (NamedAt(p, e, pending, id) ==> id in all && all[id] == Pin(e.at, false))
      && (!NamedAt(p, e, pending, id) ==>
            && (id in all <==> id in rest)
            && (id in all ==> all[id] == if Answers(p, e, pending, id) then rest[id].(resolved := true) else rest[id]))
  {
    hide ListedAt;
    ListedAtIs(pending, below[|below| - 1].at);
  }

  /** The open cards a window leaves below it stay, as pins, and nothing else is pinned. */
  lemma {:induction false} WindowKeepsCards(p: Params, pins: map<string, Pin>, below: seq<Event>, pending: seq<CardRef>, id: string)
    ensures id in Trimmed(p, pins, below, pending)
       <==> id in pins || exists i | 0 <= i < |below| :: NamedAt(p, below[i], pending, id)
    decreases |below|
  {
    hide NamedAt, Answers, Trimmed;
    if below == [] {
      TrimsNone(p, pins, pending);
    } else {
      var front := below[..|below| - 1];
      WindowKeepsCards(p, pins, front, pending, id);
      TrimsOne(p, pins, below, pending, id);
      assert forall i | 0 <= i < |front| :: front[i] == below[i];
    }
  }

  /**
   A pin stands where the last event below that names its card does, and is answered
   exactly when something after that, below the window, answers it; a pin no event names
   keeps its place, and its answer if it had one.
   */
  lemma {:induction false} PinsRememberAnswers(
    p: Params, pins: map<string, Pin>, below: seq<Event>, pending: seq<CardRef>, id: string, from: int)
    requires -1 <= from < |below| && forall j | from < j < |below| :: !NamedAt(p, below[j], pending, id)
    requires if from == -1 then id in pins else NamedAt(p, below[from], pending, id)
    ensures var after, start := Trimmed(p, pins, below, pending), if from == -1 then pins[id] else Pin(below[from].at, false);
      && id in after && after[id].at == start.at
      && (after[id].resolved <==> start.resolved || exists j | from < j < |below| :: Answers(p, below[j], pending, id))
    decreases |below|
  {
    hide NamedAt, Answers, Trimmed;
    if below == [] {
      TrimsNone(p, pins, pending);
    } else {
      var front := below[..|below| - 1];
      TrimsOne(p, pins, below, pending, id);
      assert forall i | 0 <= i < |front| :: front[i] == below[i];
      if from < |front| { PinsRememberAnswers(p, pins, front, pending, id, from); }
    }
  }

  lemma TrimsNone(p: Params, pins: map<string, Pin>, pending: seq<CardRef>)
    ensures Trimmed(p, pins, [], pending) == pins
  {
  }

  /** The pins a window sets are those of what it leaves below it, merges included. */
  lemma {:induction false} WindowSetsPins(p: Params, c: Chat, daemonLast: nat, keepEarlier: bool, pending: seq<CardRef>)
    returns (below: seq<Event>, kept: seq<Event>)
    requires WellKept(c.log) && !(keepEarlier && c.log.windowStart.Some? && LastSeq(c.log.events) + 500 >= daemonLast)
    ensures below + kept == Settled(c.log).events
    ensures forall i | 0 <= i < |below| :: below[i].at == 0 || below[i].at + 500 <= daemonLast
    ensures forall i | 0 <= i < |kept| :: kept[i].at + 500 > daemonLast
    ensures var d := WindowApplied(p, c, daemonLast, keepEarlier, pending);
      && d.pins == Trimmed(p, c.pins, below, pending)
      && d.pin == None && d.unpinnable == {} && d.rows == p.draw(d.log.events, d.pins)
  {
    hide Settled, Trimmed, WellKept, Below, Ascending, Windowed;
    MergeKeepsWell(c.log);
    var merged := Settled(c.log).events;
    WellKeptAscends(Settled(c.log));
    below, kept := Parted(merged, FloorOf(daemonLast));
  }

  /** An ordered run, parted at a floor. */
  lemma Parted(s: seq<Event>, floor: nat) returns (below: seq<Event>, above: seq<Event>)
    requires Ascending(s)
    ensures below == s[..Below(s, floor + 1)] && above == s[Below(s, floor + 1)..] && below + above == s
    ensures forall i | 0 <= i < |below| :: below[i].at <= floor
    ensures forall i | 0 <= i < |above| :: above[i].at > floor
  {
    hide Below, Ascending;
    BelowIsBelow(s, floor + 1);
    below, above := s[..Below(s, floor + 1)], s[Below(s, floor + 1)..];
  }

  lemma WellKeptAscends(r: Replica)
    requires WellKept(r)
    ensures Ascending(r.events)
  {
  }

  // --------------------------------------------------- the cache, at a launch

  /** An empty copy takes what was cached, with the newest fact it states; any other keeps what it has. */
  lemma {:induction false} CacheFillsAnEmptyCopy(p: Params, c: Chat, cached: seq<Event>)
    requires Ascending(cached) && forall i | 0 <= i < |cached| :: cached[i].at > 0
    ensures var d := CacheLoaded(p, c, cached);
      if c.log.events == [] && c.log.pending == [] && c.log.windowStart == None then
        && d.log.events == cached && d.rows == p.draw(cached, c.pins) && d.drawnThrough == LastSeq(cached)
        && ((exists i | 0 <= i < |cached| :: cached[i].fact.Some?) ==> ReplicaRuns.NewestFact(Content(cached), d.log.fact, d.log.factAt))
        && ((forall i | 0 <= i < |cached| :: cached[i].fact.None?) ==> d.log.fact == c.log.fact)
      else d == c
  {
    hide NewerFact, Content, Ascending, ReplicaRuns.NewestFact;
    NothingStated();
    AscendingIsDistinct(cached);
    forall x | x in Seqs(cached) ensures x != 0 { var i := HeldSeqs(cached, x); }
    ReplicaRuns.NewerFactIsNewest(map[], None, 0, cached);
    assert Content(cached) + map[] == Content(cached);
    FactIsStated(cached);
  }

  lemma NothingStated()
    ensures ReplicaRuns.NewestFact(map[], None, 0)
  {
  }

  lemma {:induction false} FactIsStated(cached: seq<Event>)
    requires forall i | 0 <= i < |cached| :: cached[i].at > 0
    ensures NewerFact(None, 0, cached).0.Some? <==> exists i | 0 <= i < |cached| :: cached[i].fact.Some?
    ensures NewerFact(None, 0, cached).0.None? ==> NewerFact(None, 0, cached).1 == 0
    decreases |cached|
  {
    if cached != [] {
      var front := cached[..|cached| - 1];
      FactIsStated(front);
      assert forall i | 0 <= i < |front| :: front[i] == cached[i];
    }
  }

  // ------------------------------------------------- each end leaves less to ask

  /** The listed cards that are not at hand. */
  function Lacked(c: Chat, pending: seq<CardRef>): set<CardRef> {
    set ref | ref in pending
      && c.log.windowStart.Some? && ref.at < c.log.windowStart.value && ref.requestID !in c.pins && ref !in c.unpinnable
  }

  /** How much there is left that a session may ask for, or has asked for. */
  function Owing(c: Chat, pending: seq<CardRef>): nat {
    |Lacked(c, pending)|
    + (if c.log.windowStart.Some? && (c.log.page.Some? || !c.log.fillStopped) then c.log.windowStart.value else 0)
    + (if c.pin.Some? && c.pin.value.card !in Lacked(c, pending) then 1 else 0)
  }

  lemma FewerLacked(a: set<CardRef>, b: set<CardRef>)
    requires a <= b
    ensures |a| <= |b| && (a != b ==> |a| < |b|)
  {
    assert b == a + (b - a);
  }

  /** Each request the list names, the pins hold or the session asked for stands at one seq. */
  predicate Coherent(c: Chat, pending: seq<CardRef>) {
    && (forall r, s | r in pending && s in pending && r.requestID == s.requestID :: r.at == s.at)
    && (forall r | r in pending && r.requestID in c.pins :: c.pins[r.requestID].at == r.at)
    && (c.pin.Some? ==> forall r | r in pending && r.requestID == c.pin.value.card.requestID :: r.at == c.pin.value.card.at)
  }

  /** A page that ends brings its window lower or stops the fill; a card that ends is lacked no longer. */
  lemma {:induction false} EndsAreProgress(p: Params, c: Chat, pending: seq<CardRef>, id: nat, firstSeq: nat, failed: bool)
    requires Coherent(c, pending) && !(c.pin.Some? && c.log.page.Some?)
    requires if c.pin.Some? then c.pin.value.id == id
             else && c.log.page.Some? && c.log.page.value.id == id && c.log.windowStart.Some?
                  && (if failed then c.log.windowStart.value > 0 else firstSeq < c.log.windowStart.value)
    ensures Owing(RequestEnded(p, c, id, firstSeq, failed), pending) < Owing(c, pending)
  {
    hide Settled, WithPage;
    PageEndAsksNothing(c.log, id, firstSeq, failed);
    FewerLacked(Lacked(RequestEnded(p, c, id, firstSeq, failed), pending), Lacked(c, pending));
  }

  /**
   A good page takes the pins its window now reaches, draws the rest with it, and leaves
   every listed card at hand that was; a failed one only stops the fill.
   */
  lemma {:induction false} PageEnds(p: Params, c: Chat, pending: seq<CardRef>, id: nat, firstSeq: nat, failed: bool)
    requires Coherent(c, pending) && c.pin == None && c.log.page.Some? && c.log.page.value.id == id && c.log.windowStart.Some?
    ensures var d := RequestEnded(p, c, id, firstSeq, failed);
      && d.log.page == None && d.pin == None && d.unpinnable == c.unpinnable && d.log.fillStopped == failed
      && (failed ==> d.log.windowStart == c.log.windowStart && d.pins == c.pins && d.rows == c.rows && d.log.events == c.log.events)
      && (!failed ==>
            && d.log.windowStart == Some(firstSeq) && d.rows == p.draw(d.log.events, d.pins)
            && d.drawnThrough == LastSeq(d.log.events) && !d.rebuildDue
            && (forall r :: r in d.pins <==> r in c.pins && c.pins[r].at < firstSeq)
            && (forall r | r in d.pins :: d.pins[r] == c.pins[r]))
      && (firstSeq <= c.log.windowStart.value ==> Lacked(d, pending) <= Lacked(c, pending))
  {
    hide Settled, WithPage;
    PageEndAsksNothing(c.log, id, firstSeq, failed);
  }

  lemma PageEndAsksNothing(r: Replica, id: nat, firstSeq: nat, failed: bool)
    ensures r.page.Some? && r.page.value.id == id ==>
              var after := PageEnded(r, id, firstSeq, failed); after.page.None? && after.fillStopped == failed
  {
    SettlingKeepsFill(r.(page := None, pageBuffer := [], fillStopped := failed, pending := WithPage(r.pending, r.pageBuffer)));
    hide Settled, WithPage;
  }

  lemma SettlingKeepsFill(r: Replica)
    ensures Settled(r).windowStart == r.windowStart && Settled(r).page == r.page && Settled(r).fillStopped == r.fillStopped
  {
    hide InsertAll, NewerFact;
  }
}
