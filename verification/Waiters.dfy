/**
 Replies matched to requests by position: `DaemonConnection.request`, `deliver` and
 `abandon` (CodeConnectKit/Sources/CodeConnectKit/DaemonConnection.swift), for the
 requests of one key.

 The Mac answers what it was asked in order. An abandoned request leaves its place
 behind, a tombstone, so the reply it no longer waits for is not another's.
 */
module Waiters {
  import opened Wrappers

  /** One request's place; `live` while its caller still waits. */
  datatype Waiter = Waiter(ticket: nat, live: bool)

  /** The queue, the frames the Mac has yet to answer, and the one still on its way out. */
  datatype Line = Line(queue: seq<Waiter>, asked: seq<nat>, leaving: Option<nat>, nextTicket: nat)

  const Idle: Line := Line([], [], None, 0)

  predicate AnyLive(queue: seq<Waiter>) { exists i :: 0 <= i < |queue| && queue[i].live }

  function TicketAt(queue: seq<Waiter>, ticket: nat): (r: Option<nat>)
    ensures r.Some? ==> r.value < |queue| && queue[r.value].ticket == ticket
    ensures r.None? ==> forall i | 0 <= i < |queue| :: queue[i].ticket != ticket
  {
    if queue == [] then None
    else if queue[0].ticket == ticket then Some(0)
    else match TicketAt(queue[1..], ticket) case None => None case Some(i) => Some(i + 1)
  }

  function Abandoned(queue: seq<Waiter>, ticket: nat, keepTombstone: bool): seq<Waiter> {
    match TicketAt(queue, ticket)
    case None => queue
    case Some(i) =>
      if !queue[i].live then queue
      else if keepTombstone then queue[i := queue[i].(live := false)]
      else queue[..i] + queue[i + 1..]
  }

  /** One key's queue, as the connection holds it. */
  class WaiterQueue {
    var queue: seq<Waiter>
    var nextTicket: nat

    constructor ()
      ensures queue == [] && nextTicket == 0
    {
      queue, nextTicket := [], 0;
    }

    /** One live request at a time: a second is refused. */
    method Request() returns (ticket: Option<nat>)
      modifies this
      ensures old(AnyLive(queue)) ==> ticket.None? && queue == old(queue) && nextTicket == old(nextTicket)
      ensures !old(AnyLive(queue)) ==>
                && nextTicket == old(nextTicket) + 1 && ticket == Some(nextTicket)
                && queue == old(queue) + [Waiter(nextTicket, true)]
    {
      var i := 0;
      while i < |queue|
        invariant 0 <= i <= |queue| && forall k | 0 <= k < i :: !queue[k].live
      {
        if queue[i].live { return None; }
        i := i + 1;
      }
      nextTicket := nextTicket + 1;
      queue := queue + [Waiter(nextTicket, true)];
      return Some(nextTicket);
    }

    /** Deliver to the oldest place; a tombstone's reply is dropped. */
    method Deliver() returns (caller: Option<nat>)
      modifies `queue
      ensures queue == if old(queue) == [] then [] else old(queue)[1..]
      ensures caller == if old(queue) == [] || !old(queue)[0].live then None else Some(old(queue)[0].ticket)
    {
      if queue == [] { return None; }
      var waiter := queue[0];
      queue := queue[1..];
      return if waiter.live then Some(waiter.ticket) else None;
    }

    method Abandon(ticket: nat, keepTombstone: bool)
      modifies `queue
      ensures queue == Abandoned(old(queue), ticket, keepTombstone)
    {
      var i := 0;
      while i < |queue| && queue[i].ticket != ticket
        invariant 0 <= i <= |queue| && queue == old(queue) && forall k | 0 <= k < i :: queue[k].ticket != ticket
        invariant TicketAt(queue, ticket)
               == match TicketAt(queue[i..], ticket) case None => None case Some(n) => Some(i + n)
      {
        assert queue[i..][1..] == queue[i + 1..];
        i := i + 1;
      }
      if i == |queue| || !queue[i].live { return; }
      queue := if keepTombstone then queue[i := queue[i].(live := false)] else queue[..i] + queue[i + 1..];
    }
  }

  datatype Step = Ask | Leaves | CannotLeave | TimesOut(ticket: nat) | Replies | LinkDies

  /** One step of the connection, the Mac and the link. A lost link takes with it the frame still being written. */
  function Next(l: Line, step: Step): Line {
    match step
    case Ask =>
      if AnyLive(l.queue) then l
      else l.(queue := l.queue + [Waiter(l.nextTicket + 1, true)], leaving := Some(l.nextTicket + 1), nextTicket := l.nextTicket + 1)
    case Leaves => if l.leaving.None? then l else l.(asked := l.asked + [l.leaving.value], leaving := None)
    case CannotLeave =>
      if l.leaving.None? then l else l.(queue := Abandoned(l.queue, l.leaving.value, false), leaving := None)
    case TimesOut(ticket) => if ticket in l.asked then l.(queue := Abandoned(l.queue, ticket, true)) else l
    case Replies =>
      if l.asked == [] then l
      else l.(asked := l.asked[1..], queue := if l.queue == [] then [] else l.queue[1..])
    case LinkDies => l.(queue := [], asked := [], leaving := None)
  }

  /** Who is handed the next reply. */
  function HandedTo(l: Line): Option<nat> {
    if l.queue == [] || !l.queue[0].live then None else Some(l.queue[0].ticket)
  }

  function Run(l: Line, steps: seq<Step>): Line
    decreases |steps|
  {
    if steps == [] then l else Next(Run(l, steps[..|steps| - 1]), steps[|steps| - 1])
  }

  function Tickets(queue: seq<Waiter>): seq<nat> { seq(|queue|, i requires 0 <= i < |queue| => queue[i].ticket) }

  /** The queue's places are the Mac's unanswered requests in order, and behind them the one still leaving, its caller waiting. */
  ghost predicate Aligned(l: Line) {
    && Tickets(l.queue) == l.asked + (if l.leaving.Some? then [l.leaving.value] else [])
    && (l.leaving.Some? ==> l.queue[|l.queue| - 1].live)
    && (forall i | 0 <= i < |l.queue| - 1 :: !l.queue[i].live)
    && (forall i | 0 <= i < |l.queue| :: l.queue[i].ticket <= l.nextTicket)
    && (forall i, j | 0 <= i < j < |l.queue| :: l.queue[i].ticket < l.queue[j].ticket)
  }

  lemma AbandonedLast(l: Line)
    requires Aligned(l) && l.leaving.Some?
    ensures Abandoned(l.queue, l.leaving.value, false) == l.queue[..|l.queue| - 1]
  {
    assert Tickets(l.queue)[|l.queue| - 1] == l.leaving.value;
  }

  lemma StepAligns(l: Line, step: Step)
    requires Aligned(l)
    ensures Aligned(Next(l, step))
  {
    hide TicketAt, Abandoned;
    var b := Next(l, step);
    match step
    case Ask => if !AnyLive(l.queue) {
      if l.leaving.Some? { LeavingIsLive(l); }
      assert Tickets(b.queue) == Tickets(l.queue) + [l.nextTicket + 1];
    }
    case CannotLeave => if l.leaving.Some? {
      AbandonedLast(l);
      assert b.queue == l.queue[..|l.queue| - 1];
      assert l.asked == Tickets(l.queue)[..|l.queue| - 1] == Tickets(b.queue);
    }
    case TimesOut(ticket) => if ticket in l.asked { TimedOutAligns(l, ticket); }
    case Replies => if l.asked != [] {
      assert Tickets(l.queue) != [];
      assert Tickets(b.queue) == Tickets(l.queue)[1..];
      if l.leaving.Some? { assert |l.queue| > 1; }
    }
    case _ =>
  }

  lemma LeavingIsLive(l: Line)
    requires Aligned(l) && l.leaving.Some?
    ensures AnyLive(l.queue)
  {
    assert |l.queue| == |Tickets(l.queue)| > 0;
    assert l.queue[|l.queue| - 1].live;
  }

  lemma TimedOutAligns(l: Line, ticket: nat)
    requires Aligned(l) && ticket in l.asked
    ensures Aligned(Next(l, TimesOut(ticket)))
  {
    var b := Next(l, TimesOut(ticket));
    assert Tickets(b.queue) == Tickets(l.queue);
    if l.leaving.Some? {
      var k :| 0 <= k < |l.asked| && l.asked[k] == ticket;
      assert Tickets(l.queue)[k] == ticket && Tickets(l.queue)[|l.queue| - 1] == l.leaving.value;
      assert l.queue[k].ticket == ticket && k < |l.queue| - 1;
    }
  }

  lemma {:induction false} RunAligns(l: Line, steps: seq<Step>)
    requires Aligned(l)
    ensures Aligned(Run(l, steps))
    decreases |steps|
  {
    hide Aligned, Next;
    if steps != [] {
      RunAligns(l, steps[..|steps| - 1]);
      StepAligns(Run(l, steps[..|steps| - 1]), steps[|steps| - 1]);
    }
  }

  /**
   **No reply is handed to another's caller**: over every run of requests, failed sends,
   timeouts, late replies and lost links, the reply the Mac sends next is handed to the
   caller of the request it answers, or to nobody when that caller has given up.
   */
  lemma {:induction false} RepliesAreNotCrossed(steps: seq<Step>)
    ensures var l := Run(Idle, steps);
      l.asked != [] ==>
        && l.queue != [] && l.queue[0].ticket == l.asked[0]
        && (HandedTo(l) == Some(l.asked[0]) <==> l.queue[0].live)
        && (HandedTo(l) != Some(l.asked[0]) ==> HandedTo(l) == None)
  {
    RunAligns(Idle, steps);
    var l := Run(Idle, steps);
    if l.asked != [] { assert Tickets(l.queue)[0] == l.asked[0]; }
  }

  /** Without its tombstone, a timed-out request's late reply would be the next caller's. */
  lemma {:induction false} TombstoneIsNeeded()
    ensures var late := Line([Waiter(1, true)], [1], None, 1);
      var gone := late.(queue := Abandoned(late.queue, 1, false));
      var next := Next(Next(gone, Ask), Leaves);
      Aligned(late) && next.asked[0] == 1 && HandedTo(next) == Some(2)
  {
    var late := Line([Waiter(1, true)], [1], None, 1);
    assert TicketAt(late.queue, 1) == Some(0);
    var gone := late.(queue := Abandoned(late.queue, 1, false));
    assert gone.queue == [];
    assert !AnyLive(gone.queue);
  }

  /**
   A timed-out request keeps its place and lets the next one in: nobody waits in the queue
   any more, and the next request is taken, behind it.
   */
  lemma {:induction false} TimedOutLetsTheNextIn(steps: seq<Step>, ticket: nat)
    requires var l := Run(Idle, steps); ticket in l.asked && Waiter(ticket, true) in l.queue
    ensures var l := Run(Idle, steps);
      var after := Next(l, TimesOut(ticket));
      && (forall i | 0 <= i < |after.queue| :: !after.queue[i].live)
      && |after.queue| == |l.queue| && after.asked == l.asked
      && Next(after, Ask).queue == after.queue + [Waiter(l.nextTicket + 1, true)]
      && Next(after, Ask).leaving == Some(l.nextTicket + 1)
    ensures Next(Run(Idle, steps), Ask) == Run(Idle, steps)
  {
    RunAligns(Idle, steps);
    var l := Run(Idle, steps);
    var k :| 0 <= k < |l.queue| && l.queue[k] == Waiter(ticket, true);
    var i := TicketAt(l.queue, ticket).value;
    assert i == k == |l.queue| - 1;
    assert AnyLive(l.queue);
  }
}
