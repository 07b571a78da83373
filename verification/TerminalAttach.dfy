/**
 A connection's terminal from attach to close: `handle_terminal`, `Opening::defer`,
 `finish_terminal_open` and `abandon_terminal` (mac/ccd/src/ws_server.rs).

 Opening a terminal takes seconds and is awaited by nothing; what the phone sends behind
 its attach is parked, and applied when the terminal exists.
 */
module TerminalAttach {
  import opened Wrappers
  import TerminalStream

  const MaxIdBytes: nat := 64
  const MaxParkedFrames: nat := 128
  const MaxParkedBytes: nat := 64 * 1024

  type Id = seq<byte>
  type Bytes = seq<byte>

  datatype Code = ProtocolError | NotAuthorised | NotHosted | Unavailable | Superseded | Detached | SessionExited

  /** What an attach's session uid is: malformed, unknown, another agent's, or a Claude run. */
  datatype Uid = Malformed | Unknown | OtherAgent | Claude

  /** `encoded` is the length of the frame's base64 text; `decoded` is nothing when it does not decode. */
  datatype Message =
    | Attach(id: Id, cols: nat, rows: nat, credit: nat, uid: Uid)
    | Input(id: Id, encoded: nat, decoded: Option<Bytes>)
    | Resize(id: Id, cols: nat, rows: nat)
    | Credit(id: Id, n: nat)
    | Detach(id: Id)

  /** What the connection is: whether a paired device, and whether over a private transport. */
  datatype Link = Link(paired: bool, sealed: bool)

  /** A live terminal; `gone` once its writer has ended. */
  datatype Terminal = Terminal(
    id: Id, outstanding: nat, inputCredit: nat, typed: seq<Bytes>, cols: nat, rows: nat, gone: bool)

  datatype Opening = Opening(
    id: Id, cols: nat, rows: nat, credit: nat, parked: seq<Message>, parkedBytes: nat, parkedInput: nat)

  /** What the two ends said about attachments, in order. */
  datatype Entry = Asked(id: Id) | Attached(id: Id) | ClosedAs(id: Id, code: Code) | Output(id: Id, bytes: Bytes)

  datatype Conn = Conn(terminal: Option<Terminal>, opening: Option<Opening>, said: seq<Entry>)

  const Fresh: Conn := Conn(None, None, [])

  predicate GoodSize(cols: nat, rows: nat) { 2 <= cols <= 512 && 2 <= rows <= 256 }

  function Said(c: Conn, entry: Entry): Conn { c.(said := c.said + [entry]) }

  // ------------------------------------------------------------------- parking

  function Cost(m: Message): nat {
    match m
    case Attach(_, _, _, _, _) => MaxParkedBytes + 1
    case Input(id, encoded, _) => |id| + encoded
    case _ => |m.id|
  }

  function InputOf(m: Message): nat {
    if m.Input? && m.decoded.Some? then |m.decoded.value| else 0
  }

  predicate Decodes(m: Message) {
    m.Input? ==> m.decoded.Some? && |m.decoded.value| <= TerminalStream.MaxChunk
  }

  /** A frame parked behind an opening, or nothing when it may not be. */
  function Parked(o: Opening, m: Message): Option<Opening> {
    if !Decodes(m) then None
    else if m.Input? && o.parkedInput + InputOf(m) > TerminalStream.InitialInput then None
    else if |o.parked| >= MaxParkedFrames then None
    else if o.parkedBytes + Cost(m) > MaxParkedBytes then None
    else Some(o.(parked := o.parked + [m], parkedBytes := o.parkedBytes + Cost(m), parkedInput := o.parkedInput + InputOf(m)))
  }

  // ------------------------------------------------------------------ handling

  /** Why an attach is refused before it touches what it did not name. */
  function Refusal(link: Link, m: Message): Option<Code>
    requires m.Attach?
  {
    if m.id == [] || |m.id| > MaxIdBytes then Some(ProtocolError)
    else if !link.paired then Some(NotAuthorised)
    else if !link.sealed then Some(NotAuthorised)
    else if !GoodSize(m.cols, m.rows) then Some(ProtocolError)
    else if m.credit == 0 || m.credit > TerminalStream.MaxOutstanding then Some(ProtocolError)
    else match m.uid
      case Malformed => Some(NotHosted)
      case OtherAgent => Some(NotAuthorised)
      case Unknown => Some(NotHosted)
      case Claude => None
  }

  /** What the id of an attach already names goes first, and silently. */
  function Reused(c: Conn, id: Id): Conn {
    c.(terminal := if c.terminal.Some? && c.terminal.value.id == id then None else c.terminal,
       opening := if c.opening.Some? && c.opening.value.id == id then None else c.opening)
  }

  function Displaced(c: Conn): Conn {
    var unterminal := if c.terminal.None? then c else Said(c.(terminal := None), ClosedAs(c.terminal.value.id, Superseded));
    if c.opening.None? then unterminal
    else Said(unterminal.(opening := None), ClosedAs(c.opening.value.id, Superseded))
  }

  function Attaching(link: Link, c: Conn, m: Message): Conn
    requires m.Attach?
  {
    var reused := Reused(Said(c, Asked(m.id)), m.id);
    match Refusal(link, m)
    case Some(code) => Said(reused, ClosedAs(m.id, code))
    case None => Displaced(reused).(opening := Some(Opening(m.id, m.cols, m.rows, m.credit, [], 0, 0)))
  }

  predicate Names(c: Conn, id: Id) { c.terminal.Some? && c.terminal.value.id == id }

  function Failed(c: Conn, id: Id, code: Code): Conn { Said(c.(terminal := None), ClosedAs(id, code)) }

  function Applied(c: Conn, m: Message): Conn
    requires !m.Attach?
  {
    match m
    case Input(id, _, decoded) =>
      if !Names(c, id) then Said(c, ClosedAs(id, ProtocolError))
      else if !Decodes(m) then Failed(c, id, ProtocolError)
      else if decoded.value == [] then c
      else
        var t := c.terminal.value;
        if |decoded.value| > t.inputCredit then Failed(c, id, ProtocolError)
        else if t.gone then Failed(c, id, SessionExited)
        else c.(terminal := Some(t.(inputCredit := t.inputCredit - |decoded.value|, typed := t.typed + [decoded.value])))
    case Resize(id, cols, rows) =>
      if GoodSize(cols, rows) && Names(c, id) then c.(terminal := Some(c.terminal.value.(cols := cols, rows := rows))) else c
    case Credit(id, n) =>
      if !Names(c, id) then Said(c, ClosedAs(id, ProtocolError))
      else if c.terminal.value.outstanding + n > TerminalStream.MaxOutstanding then Failed(c, id, ProtocolError)
      else c.(terminal := Some(c.terminal.value.(outstanding := c.terminal.value.outstanding + n)))
    case Detach(id) => if Names(c, id) then Failed(c, id, Detached) else c
  }

  function Handled(link: Link, c: Conn, m: Message): Conn {
    if m.Attach? then Attaching(link, c, m)
    else if c.opening.None? then Applied(c, m)
    else match Parked(c.opening.value, m)
      case Some(o) => c.(opening := Some(o))
      case None => Said(c.(opening := None), ClosedAs(c.opening.value.id, ProtocolError))
  }

  function AllHandled(link: Link, c: Conn, ms: seq<Message>): Conn
    decreases |ms|
  {
    if ms == [] then c else Handled(link, AllHandled(link, c, ms[..|ms| - 1]), ms[|ms| - 1])
  }

  /** The terminal a verified attach becomes, before what was parked behind it. */
  function Installed(c: Conn): Conn
    requires c.opening.Some?
  {
    var o := c.opening.value;
    Said(c.(terminal := Some(Terminal(o.id, o.credit, TerminalStream.InitialInput, [], o.cols, o.rows, false)), opening := None),
         Attached(o.id))
  }

  /** An open that finished: refused for a reason, or the terminal, with the parked frames applied in order. */
  function Finished(link: Link, c: Conn, refused: Option<Code>): Conn {
    if c.opening.None? then c
    else match refused
      case Some(code) => Said(c.(opening := None), ClosedAs(c.opening.value.id, code))
      case None => AllHandled(link, Installed(c), c.opening.value.parked)
  }

  /** The connection, as the daemon's loop keeps it. */
  class Connection {
    const link: Link
    var terminal: Option<Terminal>
    var opening: Option<Opening>
    var said: seq<Entry>

    ghost function Value(): Conn reads this { Conn(terminal, opening, said) }

    constructor (link: Link)
      ensures Value() == Fresh && this.link == link
    {
      this.link := link;
      terminal, opening, said := None, None, [];
    }

    /** Park a frame, or say that it cannot be parked. */
    method Defer(m: Message) returns (parked: bool)
      requires opening.Some?
      modifies `opening
      ensures parked == Parked(old(opening.value), m).Some?
      ensures opening == if parked then Parked(old(opening.value), m) else old(opening)
    {
      var o := opening.value;
      var input := 0;
      if m.Input? {
        if m.decoded.None? || |m.decoded.value| > TerminalStream.MaxChunk { return false; }
        input := |m.decoded.value|;
        if o.parkedInput + input > TerminalStream.InitialInput { return false; }
      }
      if |o.parked| >= MaxParkedFrames || o.parkedBytes + Cost(m) > MaxParkedBytes { return false; }
      opening := Some(o.(parked := o.parked + [m], parkedBytes := o.parkedBytes + Cost(m), parkedInput := o.parkedInput + input));
      return true;
    }

    method Close(id: Id, code: Code)
      modifies `said
      ensures said == old(said) + [ClosedAs(id, code)]
    {
      said := said + [ClosedAs(id, code)];
    }

    method TakeAttach(m: Message)
      requires m.Attach?
      modifies this
      ensures Value() == Attaching(link, old(Value()), m)
    {
      said := said + [Asked(m.id)];
      if terminal.Some? && terminal.value.id == m.id { terminal := None; }
      if opening.Some? && opening.value.id == m.id { opening := None; }
      var refusal := Refusal(link, m);
      if refusal.Some? {
        Close(m.id, refusal.value);
        return;
      }
      if terminal.Some? {
        var existing := terminal.value.id;
        terminal := None;
        Close(existing, Superseded);
      }
      if opening.Some? {
        var displaced := opening.value.id;
        opening := None;
        Close(displaced, Superseded);
      }
      opening := Some(Opening(m.id, m.cols, m.rows, m.credit, [], 0, 0));
    }

    method TakeInput(m: Message)
      requires m.Input?
      modifies `terminal, `said
      ensures Value() == Applied(old(Value()), m)
    {
      if terminal.None? || terminal.value.id != m.id {
        Close(m.id, ProtocolError);
        return;
      }
      var t := terminal.value;
      if m.decoded.None? || |m.decoded.value| > TerminalStream.MaxChunk {
        terminal := None;
        Close(m.id, ProtocolError);
        return;
      }
      var bytes := m.decoded.value;
      if bytes == [] { return; }
      if |bytes| > t.inputCredit {
        terminal := None;
        Close(m.id, ProtocolError);
      } else if t.gone {
        terminal := None;
        Close(m.id, SessionExited);
      } else {
        terminal := Some(t.(inputCredit := t.inputCredit - |bytes|, typed := t.typed + [bytes]));
      }
    }

    method Handle(m: Message)
      modifies this
      ensures Value() == Handled(link, old(Value()), m)
    {
      if m.Attach? {
        TakeAttach(m);
        return;
      }
      if opening.Some? {
        var parked := Defer(m);
        if !parked {
          var refused := opening.value.id;
          opening := None;
          Close(refused, ProtocolError);
        }
        return;
      }
      match m
      case Input(_, _, _) => TakeInput(m);
      case Resize(id, cols, rows) =>
        if GoodSize(cols, rows) && terminal.Some? && terminal.value.id == id {
          terminal := Some(terminal.value.(cols := cols, rows := rows));
        }
      case Credit(id, n) =>
        if terminal.None? || terminal.value.id != id {
          Close(id, ProtocolError);
        } else if terminal.value.outstanding + n > TerminalStream.MaxOutstanding {
          terminal := None;
          Close(id, ProtocolError);
        } else {
          terminal := Some(terminal.value.(outstanding := terminal.value.outstanding + n));
        }
      case Detach(id) =>
        if terminal.Some? && terminal.value.id == id {
          terminal := None;
          Close(id, Detached);
        }
    }

    method FinishOpen(refused: Option<Code>)
      modifies this
      ensures Value() == Finished(link, old(Value()), refused)
    {
      if opening.None? { return; }
      var o := opening.value;
      opening := None;
      if refused.Some? {
        Close(o.id, refused.value);
        return;
      }
      terminal := Some(Terminal(o.id, o.credit, TerminalStream.InitialInput, [], o.cols, o.rows, false));
      said := said + [Attached(o.id)];
      assert Value() == Installed(old(Value()));
      var i := 0;
      while i < |o.parked|
        invariant 0 <= i <= |o.parked|
        invariant Value() == AllHandled(link, Installed(old(Value())), o.parked[..i])
      {
        Handle(o.parked[i]);
        i := i + 1;
        assert o.parked[..i][..i - 1] == o.parked[..i - 1];
      }
      assert o.parked[..i] == o.parked;
    }
  }

  // ------------------------------------------------------- parking is invisible

  predicate NoAttach(ms: seq<Message>) { forall i | 0 <= i < |ms| :: !ms[i].Attach? }

  lemma {:induction false} HandledInTurn(link: Link, c: Conn, a: seq<Message>, b: seq<Message>)
    ensures AllHandled(link, c, a + b) == AllHandled(link, AllHandled(link, c, a), b)
    decreases |b|
  {
    if b == [] {
      assert a + b == a;
    } else {
      assert (a + b)[..|a + b| - 1] == a + b[..|b| - 1];
      HandledInTurn(link, c, a, b[..|b| - 1]);
    }
  }

  function TotalCost(ms: seq<Message>): nat {
    if ms == [] then 0 else TotalCost(ms[..|ms| - 1]) + Cost(ms[|ms| - 1])
  }

  function TotalInput(ms: seq<Message>): nat {
    if ms == [] then 0 else TotalInput(ms[..|ms| - 1]) + InputOf(ms[|ms| - 1])
  }

  /** What may wait behind an opening. */
  predicate Parkable(ms: seq<Message>) {
    && |ms| <= MaxParkedFrames && TotalCost(ms) <= MaxParkedBytes && TotalInput(ms) <= TerminalStream.InitialInput
    && (forall i | 0 <= i < |ms| :: Decodes(ms[i]))
  }

  lemma {:induction false} PrefixParkable(ms: seq<Message>)
    requires ms != [] && Parkable(ms)
    ensures Parkable(ms[..|ms| - 1])
  {
  }

  /** An opening just asked for. */
  predicate JustAsked(c: Conn) {
    c.terminal.None? && c.opening.Some? && c.opening.value.parked == [] && c.opening.value.parkedBytes == 0 && c.opening.value.parkedInput == 0
  }

  function Holding(c: Conn, ms: seq<Message>): Conn
    requires c.opening.Some?
  {
    c.(opening := Some(c.opening.value.(parked := ms, parkedBytes := TotalCost(ms), parkedInput := TotalInput(ms))))
  }

  lemma {:induction false} ParkableIsParked(link: Link, c: Conn, ms: seq<Message>)
    requires JustAsked(c) && NoAttach(ms) && Parkable(ms)
    ensures AllHandled(link, c, ms) == Holding(c, ms)
    decreases |ms|
  {
    if ms != [] {
      PrefixParkable(ms);
      var front := ms[..|ms| - 1];
      assert forall i | 0 <= i < |front| :: front[i] == ms[i];
      ParkableIsParked(link, c, front);
      assert front + [ms[|ms| - 1]] == ms;
    }
  }

  lemma {:induction false} UnparkableIsRefused(link: Link, c: Conn, ms: seq<Message>)
    requires JustAsked(c) && NoAttach(ms) && !Parkable(ms)
    ensures AllHandled(link, c, ms).opening.None?
    decreases |ms|
  {
    var front, last := ms[..|ms| - 1], ms[|ms| - 1];
    assert forall i | 0 <= i < |front| :: front[i] == ms[i];
    if Parkable(front) {
      ParkableIsParked(link, c, front);
    } else {
      UnparkableIsRefused(link, c, front);
    }
  }

  /**
   **A frame behind an attach is refused exactly for what the protocol forbids**: the
   attach survives all that arrives behind it if and only if that is at most 128 frames,
   64 KiB of them, inputs that decode to a frame's worth each and one window together.
   */
  lemma {:induction false} ParkedExactly(link: Link, c: Conn, ms: seq<Message>)
    requires JustAsked(c) && NoAttach(ms)
    ensures AllHandled(link, c, ms).opening.Some? <==> Parkable(ms)
  {
    if Parkable(ms) {
      ParkableIsParked(link, c, ms);
    } else {
      UnparkableIsRefused(link, c, ms);
    }
  }

  /**
   **Waiting is invisible**: frames that arrived while the attach was opening leave the
   terminal, and everything said about it, exactly as if the terminal had been there when
   they arrived.
   */
  lemma {:induction false} WaitingIsInvisible(link: Link, c: Conn, ms: seq<Message>)
    requires JustAsked(c) && NoAttach(ms)
    requires AllHandled(link, c, ms).opening.Some?
    ensures Finished(link, AllHandled(link, c, ms), None) == AllHandled(link, Finished(link, c, None), ms)
  {
    ParkedExactly(link, c, ms);
    ParkableIsParked(link, c, ms);
    assert Installed(Holding(c, ms)) == Installed(c) == Finished(link, c, None);
  }

  // --------------------------------------------------------------- over a run

  datatype Step =
    | Hears(m: Message)
    | Opens(refused: Option<Code>)
    | Sends(bytes: Bytes)
    | Acks(n: nat)
    | WriterEnds
    | StreamEnds(code: Code)

  function Next(link: Link, c: Conn, step: Step): Conn {
    match step
    case Hears(m) => Handled(link, c, m)
    case Opens(refused) => Finished(link, c, refused)
    case Sends(bytes) =>
      if c.terminal.None? then c
      else
        var t := c.terminal.value;
        Said(c.(terminal := Some(t.(outstanding := TerminalStream.Settled(t.outstanding, |bytes|)))), Output(t.id, bytes))
    case Acks(n) =>
      if c.terminal.None? then c
      else c.(terminal := Some(c.terminal.value.(inputCredit := TerminalStream.Replenished(c.terminal.value.inputCredit, n))))
    case WriterEnds => if c.terminal.None? then c else c.(terminal := Some(c.terminal.value.(gone := true)))
    case StreamEnds(code) => if c.terminal.None? then c else Failed(c, c.terminal.value.id, code)
  }

  function Run(link: Link, steps: seq<Step>): Conn
    decreases |steps|
  {
    if steps == [] then Fresh else Next(link, Run(link, steps[..|steps| - 1]), steps[|steps| - 1])
  }

  /** What was last said about an id: nothing, that it was asked for, that it is attached (or sent output), or closed. */
  datatype Last = Nothing | WasAsked | WasAttached | WasClosed

  function After(last: Last, e: Entry, id: Id): Last {
    if e.id != id || e.Output? then last
    else if e.Asked? then WasAsked
    else if e.Attached? then WasAttached
    else WasClosed
  }

  function LastOf(said: seq<Entry>, id: Id): Last {
    if said == [] then Nothing else After(LastOf(said[..|said| - 1], id), said[|said| - 1], id)
  }

  /** Output is only ever said of an attachment attached and not closed since. */
  ghost predicate OutputIsAttached(said: seq<Entry>) {
    forall k | 0 <= k < |said| && said[k].Output? :: LastOf(said[..k], said[k].id) == WasAttached
  }

  /** A connection has a terminal or an opening, never both, and the record says which; nothing else is open or unanswered. */
  ghost predicate Stands(c: Conn) {
    && (c.terminal.None? || c.opening.None?)
    && (forall id: Id :: LastOf(c.said, id) == WasAttached <==> c.terminal.Some? && c.terminal.value.id == id)
    && (forall id: Id :: LastOf(c.said, id) == WasAsked <==> c.opening.Some? && c.opening.value.id == id)
    && OutputIsAttached(c.said)
    && (c.opening.Some? ==> NoAttach(c.opening.value.parked))
  }

  lemma SaidAll(said: seq<Entry>, e: Entry)
    ensures forall id: Id :: LastOf(said + [e], id) == After(LastOf(said, id), e, id)
  {
    assert (said + [e])[..|said|] == said;
  }

  lemma OutputStays(said: seq<Entry>, e: Entry)
    requires OutputIsAttached(said) && (e.Output? ==> LastOf(said, e.id) == WasAttached)
    ensures OutputIsAttached(said + [e])
  {
    var after := said + [e];
    forall k | 0 <= k < |after| && after[k].Output?
      ensures LastOf(after[..k], after[k].id) == WasAttached
    {
      if k < |said| { assert after[..k] == said[..k]; } else { assert after[..k] == said; }
    }
  }

  lemma AttachingStands(link: Link, c: Conn, m: Message)
    requires Stands(c) && m.Attach?
    ensures Stands(Attaching(link, c, m))
  {
    hide LastOf, OutputIsAttached;
    var heard := c.said + [Asked(m.id)];
    SaidAll(c.said, Asked(m.id));
    OutputStays(c.said, Asked(m.id));
    var reused := Reused(Said(c, Asked(m.id)), m.id);
    match Refusal(link, m)
    case Some(code) =>
      SaidAll(heard, ClosedAs(m.id, code));
      OutputStays(heard, ClosedAs(m.id, code));
    case None =>
      if reused.terminal.Some? {
        SaidAll(heard, ClosedAs(reused.terminal.value.id, Superseded));
        OutputStays(heard, ClosedAs(reused.terminal.value.id, Superseded));
      } else if reused.opening.Some? {
        SaidAll(heard, ClosedAs(reused.opening.value.id, Superseded));
        OutputStays(heard, ClosedAs(reused.opening.value.id, Superseded));
      }
  }

  lemma ClosingStands(c: Conn, id: Id, code: Code)
    requires Stands(c) && (c.opening.Some? ==> c.opening.value.id != id)
    ensures Stands(Said(c.(terminal := if Names(c, id) then None else c.terminal), ClosedAs(id, code)))
  {
    hide LastOf, OutputIsAttached;
    SaidAll(c.said, ClosedAs(id, code));
    OutputStays(c.said, ClosedAs(id, code));
  }

  lemma RefusedOpenStands(c: Conn, code: Code)
    requires Stands(c) && c.opening.Some?
    ensures Stands(Said(c.(opening := None), ClosedAs(c.opening.value.id, code)))
  {
    hide LastOf, OutputIsAttached;
    SaidAll(c.said, ClosedAs(c.opening.value.id, code));
    OutputStays(c.said, ClosedAs(c.opening.value.id, code));
  }

  lemma AppliedStands(c: Conn, m: Message)
    requires Stands(c) && !m.Attach? && c.opening.None?
    ensures Stands(Applied(c, m)) && Applied(c, m).opening.None?
  {
    hide LastOf, OutputIsAttached;
    ClosingStands(c, m.id, ProtocolError);
    ClosingStands(c, m.id, SessionExited);
    ClosingStands(c, m.id, Detached);
  }

  lemma HandledStands(link: Link, c: Conn, m: Message)
    requires Stands(c)
    ensures Stands(Handled(link, c, m))
    ensures c.opening.None? && !m.Attach? ==> Handled(link, c, m).opening.None?
  {
    hide LastOf, OutputIsAttached, Attaching, Applied;
    if m.Attach? {
      AttachingStands(link, c, m);
    } else if c.opening.None? {
      AppliedStands(c, m);
    } else {
      RefusedOpenStands(c, ProtocolError);
    }
  }

  lemma {:induction false} AllHandledStands(link: Link, c: Conn, ms: seq<Message>)
    requires Stands(c) && c.opening.None? && NoAttach(ms)
    ensures Stands(AllHandled(link, c, ms))
    ensures AllHandled(link, c, ms).opening.None?
    decreases |ms|
  {
    hide Stands, Handled;
    if ms != [] {
      assert forall i | 0 <= i < |ms| - 1 :: ms[..|ms| - 1][i] == ms[i];
      AllHandledStands(link, c, ms[..|ms| - 1]);
      HandledStands(link, AllHandled(link, c, ms[..|ms| - 1]), ms[|ms| - 1]);
    }
  }

  lemma InstalledStands(c: Conn)
    requires Stands(c) && c.opening.Some?
    ensures Stands(Installed(c))
  {
    hide LastOf, OutputIsAttached;
    SaidAll(c.said, Attached(c.opening.value.id));
    OutputStays(c.said, Attached(c.opening.value.id));
  }

  lemma StepStands(link: Link, c: Conn, step: Step)
    requires Stands(c)
    ensures Stands(Next(link, c, step))
  {
    hide LastOf, OutputIsAttached, Handled, AllHandled;
    match step
    case Hears(m) => HandledStands(link, c, m);
    case Opens(refused) =>
      if c.opening.Some? && refused.Some? {
        RefusedOpenStands(c, refused.value);
      } else if c.opening.Some? {
        InstalledStands(c);
        AllHandledStands(link, Installed(c), c.opening.value.parked);
      }
    case Sends(bytes) =>
      if c.terminal.Some? {
        SaidAll(c.said, Output(c.terminal.value.id, bytes));
        OutputStays(c.said, Output(c.terminal.value.id, bytes));
      }
    case StreamEnds(code) => if c.terminal.Some? { ClosingStands(c, c.terminal.value.id, code); }
    case _ =>
  }

  lemma {:induction false} RunStands(link: Link, steps: seq<Step>)
    ensures Stands(Run(link, steps))
    decreases |steps|
  {
    if steps != [] {
      hide Stands, Next;
      RunStands(link, steps[..|steps| - 1]);
      StepStands(link, Run(link, steps[..|steps| - 1]), steps[|steps| - 1]);
    }
  }

  /**
   **Nothing streams before an attach is announced, nor after its close**: in every run,
   output goes out only for an attachment that was announced attached and about which
   nothing has been asked or closed since.
   */
  lemma {:induction false} OutputOnlyWhileAttached(link: Link, steps: seq<Step>, k: nat)
    requires k < |Run(link, steps).said| && Run(link, steps).said[k].Output?
    ensures LastOf(Run(link, steps).said[..k], Run(link, steps).said[k].id) == WasAttached
  {
    RunStands(link, steps);
  }

  /**
   **Every attach is answered**: in every run, the one attachment asked for and not yet
   attached or closed is the one still opening; with none opening, every id ever asked
   for has been answered, and the only one attached is the live terminal.
   */
  lemma {:induction false} EveryAttachIsAnswered(link: Link, steps: seq<Step>, id: Id)
    ensures var c := Run(link, steps);
      && (LastOf(c.said, id) == WasAsked <==> c.opening.Some? && c.opening.value.id == id)
      && (LastOf(c.said, id) == WasAttached <==> c.terminal.Some? && c.terminal.value.id == id)
      && !(c.opening.Some? && c.terminal.Some?)
  {
    RunStands(link, steps);
  }

  /**
   A refused attach costs the connection nothing its own id did not name; a good one takes
   the place of whatever was live or opening, and says so to each other id it displaces.
   */
  lemma {:induction false} RefusedAttachCostsNothing(link: Link, steps: seq<Step>, m: Message)
    requires m.Attach?
    ensures var c := Run(link, steps);
      var after := Next(link, c, Hears(m));
      && (Refusal(link, m).Some? ==>
            && after.terminal == (if Names(c, m.id) then None else c.terminal)
            && after.opening == (if c.opening.Some? && c.opening.value.id == m.id then None else c.opening)
            && LastOf(after.said, m.id) == WasClosed)
      && (Refusal(link, m).None? ==>
            && after.terminal.None? && after.opening.Some? && after.opening.value.id == m.id
            && (forall other: Id | other != m.id ::
                  LastOf(after.said, other) != WasAttached && LastOf(after.said, other) != WasAsked))
  {
    RunStands(link, steps);
    StepStands(link, Run(link, steps), Hears(m));
    var c := Run(link, steps);
    var reused := Reused(Said(c, Asked(m.id)), m.id);
    if Refusal(link, m).Some? { SaidAll(reused.said, ClosedAs(m.id, Refusal(link, m).value)); }
  }

  /** What an attach must be to open a terminal, in the message's and the link's own fields. */
  predicate Welcome(link: Link, m: Message)
    requires m.Attach?
  {
    && link.paired && link.sealed && m.uid == Claude
    && 1 <= |m.id| <= 64 && 2 <= m.cols <= 512 && 2 <= m.rows <= 256 && 1 <= m.credit <= 256 * 1024
  }

  /** An attach opens a terminal exactly when it is welcome, as it asked; any other is closed with its reason. */
  lemma {:induction false} AttachOpensExactly(link: Link, steps: seq<Step>, m: Message)
    requires m.Attach?
    ensures var c := Run(link, steps);
      var after := Next(link, c, Hears(m));
      && (Welcome(link, m) <==>
            after.terminal == None && after.opening == Some(Opening(m.id, m.cols, m.rows, m.credit, [], 0, 0)))
      && (!Welcome(link, m) ==>
            after.said == c.said + [Asked(m.id), ClosedAs(m.id,
              if |m.id| < 1 || |m.id| > 64 then ProtocolError
              else if !link.paired || !link.sealed then NotAuthorised
              else if !(2 <= m.cols <= 512 && 2 <= m.rows <= 256 && 1 <= m.credit <= 256 * 1024) then ProtocolError
              else if m.uid == OtherAgent then NotAuthorised else NotHosted)])
  {
    hide LastOf, OutputIsAttached;
    var c := Run(link, steps);
    RunStands(link, steps);
    StepStands(link, c, Hears(m));
  }

  /** What a live terminal was typed: each frame's bytes for it, in order, as long as it lasts. */
  lemma {:induction false} LiveFramesAreApplied(link: Link, steps: seq<Step>, m: Message)
    requires !m.Attach? && Run(link, steps).terminal.Some?
    ensures var c := Run(link, steps);
      var t, after := c.terminal.value, Next(link, c, Hears(m));
      && (m.Input? && m.id == t.id && m.decoded.Some? && !t.gone && 1 <= |m.decoded.value| <= 16 * 1024 ==>
            (|m.decoded.value| <= t.inputCredit <==> after.terminal.Some?)
            && (after.terminal.Some? ==>
                  && after.terminal.value.typed == t.typed + [m.decoded.value]
                  && after.terminal.value.inputCredit + |m.decoded.value| == t.inputCredit))
      && (m.Credit? && m.id == t.id ==>
            (t.outstanding + m.n <= 256 * 1024 <==> after.terminal == Some(t.(outstanding := t.outstanding + m.n)))
            && (t.outstanding + m.n > 256 * 1024 <==> after.terminal == None))
      && (m.Resize? && m.id == t.id ==>
            after.terminal == Some(if 2 <= m.cols <= 512 && 2 <= m.rows <= 256 then t.(cols := m.cols, rows := m.rows) else t))
      && (m.Detach? ==> (after.terminal == None <==> m.id == t.id))
      && (m.id != t.id ==> after.terminal == c.terminal)
  {
    hide LastOf, OutputIsAttached;
    RunStands(link, steps);
  }
}
