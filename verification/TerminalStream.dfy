/**
 One live terminal's bytes under credit, both ways: `forward`, `deliver` and
 `write_client` (mac/ccd/src/terminal.rs) against the connection's ledger, `TerminalConn`
 and `write_terminal_chunk` (mac/ccd/src/ws_server.rs).

 The carrier's reader, the connection and the writer are three tasks; a run is any
 interleaving of their steps with what the pane prints and what the phone sends.
 */
module TerminalStream {
  import opened Wrappers

  const MaxChunk: nat := 16 * 1024
  const InitialInput: nat := 32 * 1024
  const MaxOutstanding: nat := 256 * 1024
  const QueueRoom: nat := 4
  const KeysPerLine: nat := 1024
  const MaxU32: nat := 0xFFFF_FFFF

  type Bytes = seq<byte>

  // ------------------------------------------------------------------ sequences

  function Joined(pieces: seq<Bytes>): Bytes {
    if pieces == [] then [] else Joined(pieces[..|pieces| - 1]) + pieces[|pieces| - 1]
  }

  lemma {:induction false} JoinedAppends(a: seq<Bytes>, b: seq<Bytes>)
    ensures Joined(a + b) == Joined(a) + Joined(b)
    decreases |b|
  {
    if b == [] {
      assert a + b == a;
    } else {
      var init, last := b[..|b| - 1], b[|b| - 1];
      assert a + b == (a + init) + [last];
      JoinedAppends(a, init);
      JoinedEnd(a + init, last);
      Regroup(Joined(a), Joined(init), last);
    }
  }

  lemma JoinedFront(pieces: seq<Bytes>)
    requires pieces != []
    ensures Joined(pieces) == pieces[0] + Joined(pieces[1..])
  {
    assert pieces == [pieces[0]] + pieces[1..];
    assert [pieces[0]][..0] == [];
    JoinedAppends([pieces[0]], pieces[1..]);
  }

  lemma JoinedEnd(pieces: seq<Bytes>, piece: Bytes)
    ensures Joined(pieces + [piece]) == Joined(pieces) + piece
  {
    assert (pieces + [piece])[..|pieces|] == pieces;
  }

  lemma Regroup(a: Bytes, b: Bytes, c: Bytes)
    ensures a + (b + c) == (a + b) + c
  {
  }

  function Sum(numbers: seq<nat>): nat {
    if numbers == [] then 0 else Sum(numbers[..|numbers| - 1]) + numbers[|numbers| - 1]
  }

  lemma {:induction false} SumFront(numbers: seq<nat>)
    requires numbers != []
    ensures Sum(numbers) == numbers[0] + Sum(numbers[1..])
  {
    if |numbers| > 1 {
      SumFront(numbers[..|numbers| - 1]);
      assert numbers[..|numbers| - 1][1..] == numbers[1..][..|numbers| - 2];
    }
  }

  lemma SumEnd(numbers: seq<nat>, n: nat)
    ensures Sum(numbers + [n]) == Sum(numbers) + n
  {
    assert (numbers + [n])[..|numbers|] == numbers;
  }

  // -------------------------------------------------------------- one chunk out

  /** What one turn of the forwarder takes: what the grant covers, and never more than a frame may carry. */
  function Take(owed: nat, permits: nat): nat { Min(owed, Min(permits, MaxChunk)) }

  predicate Frame(piece: Bytes) { 1 <= |piece| <= MaxChunk }

  lemma OneMoreFrame(sent: nat, take: nat)
    requires sent % MaxChunk == 0 && 1 <= take <= MaxChunk
    ensures (sent + take + MaxChunk - 1) / MaxChunk == (sent + MaxChunk - 1) / MaxChunk + 1
  {
  }

  /**
   Forward one decoded chunk under credit; `arrivals` is the credit that comes back
   before each turn. It sends exactly what the credit covers, in order, in whole
   frames, and never a sliver where more was covered.
   */
  method Forward(bytes: Bytes, initial: nat, arrivals: seq<nat>) returns (pieces: seq<Bytes>, permits: nat, used: nat)
    ensures used <= |arrivals| && permits == initial + Sum(arrivals[..used]) - |Joined(pieces)|
    ensures Joined(pieces) <= bytes
    ensures Joined(pieces) == bytes || (used == |arrivals| && permits == 0)
    ensures forall i | 0 <= i < |pieces| :: Frame(pieces[i])
    ensures arrivals == [] ==> |pieces| == (|Joined(pieces)| + MaxChunk - 1) / MaxChunk
  {
    var sent := 0;
    pieces, permits, used := [], initial, 0;
    assert Joined(pieces) == [] && Sum(arrivals[..0]) == 0;
    hide Joined;
    while sent < |bytes| && (permits > 0 || used < |arrivals|)
      invariant 0 <= sent <= |bytes| && used <= |arrivals|
      invariant Joined(pieces) == bytes[..sent]
      invariant permits == initial + Sum(arrivals[..used]) - sent
      invariant forall i | 0 <= i < |pieces| :: Frame(pieces[i])
      invariant arrivals == [] ==> |pieces| == (sent + MaxChunk - 1) / MaxChunk
      invariant arrivals == [] && sent < |bytes| && permits > 0 ==> sent % MaxChunk == 0
      decreases |bytes| - sent + |arrivals| - used
    {
      if used < |arrivals| {
        assert arrivals[..used + 1][..used] == arrivals[..used];
        permits, used := permits + arrivals[used], used + 1;
      }
      if permits > 0 {
        var want := Min(|bytes| - sent - 1, MaxChunk - 1);
        var extra := Min(want, permits - 1);
        var take := 1 + extra;
        var piece := bytes[sent..sent + take];
        assert bytes[..sent] + piece == bytes[..sent + take];
        JoinedEnd(pieces, piece);
        if sent % MaxChunk == 0 { OneMoreFrame(sent, take); }
        pieces, permits, sent := pieces + [piece], permits - take, sent + take;
      }
    }
  }

  // ---------------------------------------------------------- the whole stream

  /** The connection's two counts: output granted and not yet forwarded, and input still allowed. */
  datatype Ledger = Ledger(outstanding: nat, inputCredit: nat)

  /** The count after a chunk of `n` bytes is put on the wire; the source's subtraction stops at zero. */
  function Settled(outstanding: nat, n: nat): nat { if n <= outstanding then outstanding - n else 0 }

  function Replenished(inputCredit: nat, n: nat): nat { Min(inputCredit + n, MaxU32) }

  /**
   `rest`: the chunk being forwarded, less the pieces taken; `inHand`: a piece whose
   credit is spent and which waits for room in the queue. `granted`, `offered`, `accepted`
   and `returned` record all the phone granted, the pane printed, the phone had
   accepted, and was given back.
   */
  datatype Stream = Stream(
    attached: bool, open: bool, ledger: Ledger,
    permits: nat, rest: Bytes, inHand: Bytes, queue: seq<Bytes>, writing: Bytes, wire: seq<Bytes>,
    keys: seq<Bytes>, line: Bytes, whole: nat, pane: Bytes, acks: seq<nat>,
    granted: nat, offered: Bytes, accepted: Bytes, returned: nat)

  /** An attach that asked for `credit`, before its client is verified. */
  function Asked(credit: nat): Stream {
    Stream(false, true, Ledger(0, 0), credit, [], [], [], [], [], [], [], 0, [], [], credit, [], [], 0)
  }

  datatype Step =
    | Attached
    | Prints(bytes: Bytes) | Takes | Queues
    | Writes | Written
    | Grants(n: nat) | Types(keystrokes: Bytes)
    | NextInput | WritesLine | Acks
    | Closes

  function Next(s: Stream, step: Step): Stream {
    match step
    case Attached =>
      if s.attached || !s.open then s else s.(attached := true, ledger := Ledger(s.granted, InitialInput))
    case Prints(bytes) =>
      if s.rest + s.inHand != [] then s else s.(rest := bytes, offered := s.offered + bytes)
    case Takes =>
      var take := Take(|s.rest|, s.permits);
      if s.inHand != [] || take == 0 then s
      else s.(inHand := s.rest[..take], rest := s.rest[take..], permits := s.permits - take)
    case Queues =>
      if s.inHand == [] || |s.queue| >= QueueRoom then s else s.(queue := s.queue + [s.inHand], inHand := [])
    case Writes =>
      if !s.attached || !s.open || s.writing != [] || s.queue == [] then s
      else s.(writing := s.queue[0], queue := s.queue[1..],
              ledger := s.ledger.(outstanding := Settled(s.ledger.outstanding, |s.queue[0]|)))
    case Written => if s.writing == [] then s else s.(wire := s.wire + [s.writing], writing := [])
    case Grants(n) =>
      if !s.attached || !s.open then s
      else if s.ledger.outstanding + n > MaxOutstanding then s.(open := false)
      else s.(ledger := s.ledger.(outstanding := s.ledger.outstanding + n), permits := s.permits + n, granted := s.granted + n)
    case Types(bytes) =>
      if !s.attached || !s.open || bytes == [] then s
      else if |bytes| > MaxChunk || |bytes| > s.ledger.inputCredit then s.(open := false)
      else s.(ledger := s.ledger.(inputCredit := s.ledger.inputCredit - |bytes|), keys := s.keys + [bytes], accepted := s.accepted + bytes)
    case NextInput =>
      if s.line != [] || s.whole != 0 || s.keys == [] then s
      else s.(line := s.keys[0], whole := |s.keys[0]|, keys := s.keys[1..])
    case WritesLine =>
      if s.line == [] then s
      else
        var n := Min(|s.line|, KeysPerLine);
        var after := s.(pane := s.pane + s.line[..n], line := s.line[n..]);
        if n < |s.line| then after else after.(acks := s.acks + [s.whole], whole := 0)
    case Acks =>
      if !s.attached || !s.open || s.acks == [] then s
      else s.(acks := s.acks[1..], returned := s.returned + s.acks[0],
              ledger := s.ledger.(inputCredit := Replenished(s.ledger.inputCredit, s.acks[0])))
    case Closes => s.(open := false)
  }

  function Run(s: Stream, steps: seq<Step>): Stream
    decreases |steps|
  {
    if steps == [] then s else Next(Run(s, steps[..|steps| - 1]), steps[|steps| - 1])
  }

  /** The connection's terminal: the counts it updates in place, and what it answers. */
  class TerminalConn {
    var outstanding: nat
    var inputCredit: nat

    constructor (granted: nat)
      ensures outstanding == granted && inputCredit == InitialInput
    {
      outstanding, inputCredit := granted, InitialInput;
    }

    /** `terminal_credit`: refused when it would take what is outstanding past the ceiling. */
    method Grant(n: nat) returns (taken: bool)
      modifies `outstanding
      ensures taken <==> old(outstanding) + n <= MaxOutstanding
      ensures outstanding == if taken then old(outstanding) + n else old(outstanding)
    {
      if outstanding + n > MaxOutstanding { return false; }
      outstanding := outstanding + n;
      return true;
    }

    /** A chunk going on the wire is settled before it is written. */
    method Settle(chunk: Bytes)
      modifies `outstanding
      ensures outstanding == Settled(old(outstanding), |chunk|)
    {
      outstanding := if |chunk| <= outstanding then outstanding - |chunk| else 0;
    }

    /** `terminal_input`: refused when oversized or past what is left of the window. */
    method Spend(bytes: Bytes) returns (taken: bool)
      modifies `inputCredit
      ensures taken <==> |bytes| <= MaxChunk && |bytes| <= old(inputCredit)
      ensures inputCredit == if taken then old(inputCredit) - |bytes| else old(inputCredit)
    {
      if |bytes| > MaxChunk || |bytes| > inputCredit { return false; }
      inputCredit := inputCredit - |bytes|;
      return true;
    }

    method Replenish(delivered: nat)
      modifies `inputCredit
      ensures inputCredit == Replenished(old(inputCredit), delivered)
    {
      inputCredit := if inputCredit + delivered <= MaxU32 then inputCredit + delivered else MaxU32;
    }
  }

  // ------------------------------------------------------------------ invariants

  function Sent(s: Stream): Bytes { Joined(s.wire) + s.writing }

  predicate Frames(pieces: seq<Bytes>) { forall i | 0 <= i < |pieces| :: Frame(pieces[i]) }

  /** Every byte the pane printed is in one place, in the order it was printed. */
  ghost predicate OutputOrdered(s: Stream) {
    s.offered == Sent(s) + Joined(s.queue) + s.inHand + s.rest
  }

  /** Every byte granted is unspent, on its way, or sent. */
  ghost predicate OutputCounted(s: Stream) {
    && s.granted == s.permits + |s.inHand| + |Joined(s.queue)| + |Sent(s)|
    && (s.attached ==> s.ledger.outstanding == s.granted - |Sent(s)|)
    && (!s.attached ==> s.wire == [] && s.writing == [])
    && s.granted - |Sent(s)| <= MaxOutstanding
  }

  ghost predicate OutputFramed(s: Stream) {
    && Frames(s.wire) && Frames(s.queue) && |s.queue| <= QueueRoom
    && |s.writing| <= MaxChunk && |s.inHand| <= MaxChunk
  }

  ghost predicate InputOrdered(s: Stream) {
    s.accepted == s.pane + s.line + Joined(s.keys)
  }

  /** Every byte of the input window is free, unwritten, or written and not yet given back. */
  ghost predicate InputCounted(s: Stream) {
    && (s.attached ==> s.ledger.inputCredit + s.whole + |Joined(s.keys)| + Sum(s.acks) == InitialInput)
    && (!s.attached ==> s.accepted == [] && s.keys == [] && s.line == [] && s.whole == 0 && s.acks == [] && s.returned == 0)
    && |s.accepted| == s.returned + Sum(s.acks) + s.whole + |Joined(s.keys)|
    && |s.line| <= s.whole
    && (s.line == [] ==> s.whole == 0)
    && (forall i | 0 <= i < |s.keys| :: s.keys[i] != [])
  }

  ghost predicate Stands(s: Stream) {
    OutputOrdered(s) && OutputCounted(s) && OutputFramed(s) && InputOrdered(s) && InputCounted(s)
  }

  /** The output half of a stream, which only the reader, the connection and grants move. */
  ghost predicate OutputStands(s: Stream) { OutputOrdered(s) && OutputCounted(s) && OutputFramed(s) }

  ghost predicate InputStands(s: Stream) { InputOrdered(s) && InputCounted(s) }

  lemma TakesStands(s: Stream)
    requires OutputStands(s)
    ensures OutputStands(Next(s, Takes))
  {
    hide Joined;
    var b := Next(s, Takes);
    if b != s {
      assert s.rest == b.inHand + b.rest && s.inHand == [];
      Regroup(Sent(s) + Joined(s.queue), b.inHand, b.rest);
      assert Sent(s) + Joined(s.queue) + [] == Sent(s) + Joined(s.queue);
    }
  }

  lemma QueuesStands(s: Stream)
    requires OutputStands(s)
    ensures OutputStands(Next(s, Queues))
  {
    hide Joined;
    var b := Next(s, Queues);
    if b != s {
      JoinedEnd(s.queue, s.inHand);
      Regroup(Sent(s), Joined(s.queue), s.inHand);
      assert Sent(s) + Joined(b.queue) + [] == Sent(s) + Joined(b.queue);
    }
  }

  lemma WritesStands(s: Stream)
    requires OutputStands(s)
    ensures OutputStands(Next(s, Writes))
  {
    hide Joined;
    var b := Next(s, Writes);
    if b != s {
      JoinedFront(s.queue);
      assert Frame(s.queue[0]);
      assert s.writing == [] && Sent(s) == Joined(s.wire);
      Regroup(Joined(s.wire), s.queue[0], Joined(b.queue));
    }
  }

  lemma WrittenStands(s: Stream)
    requires OutputStands(s)
    ensures OutputStands(Next(s, Written))
  {
    hide Joined;
    var b := Next(s, Written);
    if b != s {
      JoinedEnd(s.wire, s.writing);
      assert Sent(b) == Sent(s);
      assert Frame(s.writing);
    }
  }

  lemma OtherOutputStands(s: Stream, step: Step)
    requires OutputStands(s) && (step.Prints? || step.Grants? || step.Attached?)
    ensures OutputStands(Next(s, step))
  {
    assert Joined([]) == [];
    hide Joined;
    var b := Next(s, step);
    if step.Prints? && b != s {
      assert s.rest == [] && s.inHand == [];
      var before := Sent(s) + Joined(s.queue);
      assert before + [] + [] == before && before + [] == before;
    }
  }

  lemma TypesStands(s: Stream, bytes: Bytes)
    requires InputStands(s)
    ensures InputStands(Next(s, Types(bytes)))
  {
    hide Sum;
    JoinedEnd(s.keys, bytes);
    Regroup(s.pane + s.line, Joined(s.keys), bytes);
  }

  lemma NextInputStands(s: Stream)
    requires InputStands(s)
    ensures InputStands(Next(s, NextInput))
  {
    hide Joined, Sum;
    var b := Next(s, NextInput);
    if b != s {
      JoinedFront(s.keys);
      assert s.line == [] && s.pane + [] == s.pane;
      Regroup(s.pane, s.keys[0], Joined(b.keys));
    }
  }

  lemma WritesLineStands(s: Stream)
    requires InputStands(s)
    ensures InputStands(Next(s, WritesLine))
  {
    hide Joined, Sum;
    var b := Next(s, WritesLine);
    if b != s {
      var n := Min(|s.line|, KeysPerLine);
      assert s.line == s.line[..n] + b.line;
      Regroup(s.pane, s.line[..n], b.line);
      SumEnd(s.acks, s.whole);
    }
  }

  lemma OtherInputStands(s: Stream, step: Step)
    requires InputStands(s) && (step.Acks? || step.Attached?)
    ensures InputStands(Next(s, step))
  {
    if s.acks != [] { SumFront(s.acks); }
  }

  /** Each half is untouched by the other's steps. */
  predicate SameInput(s: Stream, b: Stream) {
    && b.attached == s.attached && b.ledger.inputCredit == s.ledger.inputCredit
    && b.keys == s.keys && b.line == s.line && b.whole == s.whole && b.pane == s.pane && b.acks == s.acks
    && b.accepted == s.accepted && b.returned == s.returned
  }

  predicate SameOutput(s: Stream, b: Stream) {
    && b.attached == s.attached && b.ledger.outstanding == s.ledger.outstanding
    && b.permits == s.permits && b.rest == s.rest && b.inHand == s.inHand && b.queue == s.queue
    && b.writing == s.writing && b.wire == s.wire && b.granted == s.granted && b.offered == s.offered
  }

  lemma OutputStepsKeepInput(s: Stream, step: Step)
    requires step.Takes? || step.Queues? || step.Writes? || step.Written? || step.Prints? || step.Grants? || step.Closes?
    ensures SameInput(s, Next(s, step))
  {
    hide Settled, Take;
  }

  lemma InputStepsKeepOutput(s: Stream, step: Step)
    requires step.Types? || step.NextInput? || step.WritesLine? || step.Acks? || step.Closes?
    ensures SameOutput(s, Next(s, step))
  {
    hide Replenished, Min;
  }

  lemma SameInputStands(s: Stream, b: Stream)
    requires SameInput(s, b) && InputStands(s)
    ensures InputStands(b)
  {
    hide Joined, Sum;
  }

  lemma SameOutputStands(s: Stream, b: Stream)
    requires SameOutput(s, b) && OutputStands(s)
    ensures OutputStands(b)
  {
    hide Joined;
  }

  lemma StepStands(s: Stream, step: Step)
    requires Stands(s)
    ensures Stands(Next(s, step))
  {
    hide Next, OutputOrdered, OutputCounted, OutputFramed, InputOrdered, InputCounted, SameInput, SameOutput;
    assert OutputStands(s) && InputStands(s);
    var b := Next(s, step);
    if step.Types? || step.NextInput? || step.WritesLine? || step.Acks? || step.Closes? {
      InputStepsKeepOutput(s, step);
      SameOutputStands(s, b);
    }
    if step.Takes? || step.Queues? || step.Writes? || step.Written? || step.Prints? || step.Grants? || step.Closes? {
      OutputStepsKeepInput(s, step);
      SameInputStands(s, b);
    }
    match step
    case Takes => TakesStands(s);
    case Queues => QueuesStands(s);
    case Writes => WritesStands(s);
    case Written => WrittenStands(s);
    case Types(bytes) => TypesStands(s, bytes);
    case NextInput => NextInputStands(s);
    case WritesLine => WritesLineStands(s);
    case Acks => OtherInputStands(s, step);
    case Attached => OtherOutputStands(s, step); OtherInputStands(s, step);
    case Closes =>
    case _ => OtherOutputStands(s, step);
  }

  lemma {:induction false} RunStands(credit: nat, steps: seq<Step>)
    requires credit <= MaxOutstanding
    ensures Stands(Run(Asked(credit), steps))
    decreases |steps|
  {
    if steps != [] {
      hide Stands, Next;
      RunStands(credit, steps[..|steps| - 1]);
      StepStands(Run(Asked(credit), steps[..|steps| - 1]), steps[|steps| - 1]);
    }
  }

  // ---------------------------------------------------------------- main results

  /**
   **Output never exceeds credit**, over every interleaving: nothing is sent before the
   attach is verified; what is on the wire is the pane's output in order from its first
   byte, in frames of at most `MaxChunk`, and no longer than the credit granted; and
   what the phone may still be owed never passes the ceiling it was promised.
   */
  lemma {:induction false} OutputIsWithinCredit(credit: nat, steps: seq<Step>)
    requires credit <= MaxOutstanding
    ensures var s := Run(Asked(credit), steps);
      && (!s.attached ==> Sent(s) == [])
      && Sent(s) <= s.offered && |Sent(s)| <= s.granted
      && Frames(s.wire)
      && (s.attached ==> s.ledger.outstanding == s.granted - |Sent(s)| <= MaxOutstanding)
  {
    RunStands(credit, steps);
  }

  /**
   **Input never exceeds its window**: the pane is typed a prefix of what was accepted, in
   order, and at most one window of it waits unwritten; the window is exactly what was
   granted, less what was accepted, plus what was given back.
   */
  lemma {:induction false} InputIsWithinItsWindow(credit: nat, steps: seq<Step>)
    requires credit <= MaxOutstanding
    ensures var s := Run(Asked(credit), steps);
      && s.pane <= s.accepted && |s.accepted| - |s.pane| <= InitialInput
      && s.returned <= |s.pane|
      && (s.attached ==> s.ledger.inputCredit == InitialInput - |s.accepted| + s.returned)
  {
    RunStands(credit, steps);
    var s := Run(Asked(credit), steps);
    assert |s.accepted| == |s.pane| + |s.line| + |Joined(s.keys)|;
  }

  /** The ledger's saturating arithmetic never saturates: every count it keeps is exact. */
  lemma {:induction false} LedgerIsExact(credit: nat, steps: seq<Step>)
    requires credit <= MaxOutstanding
    ensures var s := Run(Asked(credit), steps);
      && (s.attached && s.queue != [] ==> |s.queue[0]| <= s.ledger.outstanding)
      && (s.attached && s.acks != [] ==> s.ledger.inputCredit + s.acks[0] <= InitialInput < MaxU32)
  {
    RunStands(credit, steps);
    var s := Run(Asked(credit), steps);
    if s.queue != [] { JoinedFront(s.queue); }
    if s.acks != [] { SumFront(s.acks); }
  }

  /**
   A grant closes the terminal exactly when it would let more than the ceiling be owed,
   counted in what was granted and sent; so a phone that gives back no more than it was
   sent is never refused, whatever its reader, its queue and its socket are doing.
   */
  lemma {:induction false} GrantIsRefusedExactly(credit: nat, steps: seq<Step>, n: nat)
    requires credit <= MaxOutstanding
    ensures var s := Run(Asked(credit), steps);
      s.attached && s.open ==>
        && (!Next(s, Grants(n)).open <==> s.granted + n - |Sent(s)| > MaxOutstanding)
        && (s.granted + n <= credit + |Joined(s.wire)| ==> Next(s, Grants(n)).open)
  {
    RunStands(credit, steps);
  }

  /** Input closes the terminal exactly when it is oversized or beyond the window less what was given back. */
  lemma {:induction false} InputIsRefusedExactly(credit: nat, steps: seq<Step>, bytes: Bytes)
    requires credit <= MaxOutstanding
    ensures var s := Run(Asked(credit), steps);
      s.attached && s.open && bytes != [] ==>
        (!Next(s, Types(bytes)).open <==>
          |bytes| > MaxChunk || |s.accepted| + |bytes| > InitialInput + s.returned)
  {
    RunStands(credit, steps);
  }

  // ------------------------------------------------------------------ progress

  predicate OursToDo(step: Step) {
    step.Takes? || step.Queues? || step.Writes? || step.Written? || step.NextInput? || step.WritesLine? || step.Acks?
  }

  /** How much the daemon still has to move with what it holds. */
  function ToMove(s: Stream): nat {
    5 * |s.rest| + (if s.inHand == [] then 0 else 4) + 3 * |s.queue| + (if s.writing == [] then 0 else 2)
    + 4 * |Joined(s.keys)| + 2 * |s.line| + |s.acks|
  }

  /** Each of the daemon's own steps, if it moves anything, uses some of a finite amount. */
  lemma {:induction false} DaemonStepsRunOut(s: Stream, step: Step)
    requires Stands(s) && OursToDo(step) && Next(s, step) != s
    ensures ToMove(Next(s, step)) < ToMove(s)
  {
    hide OutputOrdered, OutputCounted, InputOrdered, Joined, Sum;
    match step
    case NextInput => JoinedFront(s.keys);
    case _ =>
  }

  /**
   **Nothing is stuck**: when the daemon has no step left to take, the wire carries
   exactly what the pane printed, as far as the credit reaches — one byte of credit
   sends a byte — and every accepted keystroke has reached the pane and been given back.
   */
  lemma {:induction false} NothingIsStuck(credit: nat, steps: seq<Step>)
    requires credit <= MaxOutstanding
    ensures var s := Run(Asked(credit), steps);
      s.attached && s.open && (forall step | OursToDo(step) :: Next(s, step) == s) ==>
        && Joined(s.wire) == s.offered[..Min(|s.offered|, s.granted)]
        && s.pane == s.accepted && s.returned == |s.accepted| && s.ledger.inputCredit == InitialInput
  {
    RunStands(credit, steps);
    var s := Run(Asked(credit), steps);
    if s.attached && s.open && forall step | OursToDo(step) :: Next(s, step) == s {
      OutputHasDrained(s);
      InputHasDrained(s);
    }
  }

  lemma OutputHasDrained(s: Stream)
    requires Stands(s) && s.attached && s.open
    requires Next(s, Takes) == s && Next(s, Queues) == s && Next(s, Writes) == s && Next(s, Written) == s
    ensures Joined(s.wire) == s.offered[..Min(|s.offered|, s.granted)]
  {
    assert Next(s, Written).writing == [];
    assert s.queue != [] ==> |Next(s, Writes).queue| < |s.queue|;
    assert Next(s, Queues).inHand == [];
    var take := Take(|s.rest|, s.permits);
    assert |Next(s, Takes).rest| == |s.rest| - take;
  }

  lemma InputHasDrained(s: Stream)
    requires Stands(s) && s.attached && s.open
    requires Next(s, NextInput) == s && Next(s, WritesLine) == s && Next(s, Acks) == s
    ensures s.pane == s.accepted && s.returned == |s.accepted| && s.ledger.inputCredit == InitialInput
  {
    assert s.line != [] ==> |Next(s, WritesLine).line| < |s.line|;
    assert s.keys != [] && s.line == [] ==> |Next(s, NextInput).keys| < |s.keys|;
    assert s.acks != [] ==> |Next(s, Acks).acks| < |s.acks|;
  }

  // ------------------------------------------------- what was sent is what counts

  /** All the phone typed once it was attached. */
  function TypedSince(steps: seq<Step>): Bytes {
    if steps == [] then []
    else
      var front, last := steps[..|steps| - 1], steps[|steps| - 1];
      TypedSince(front) + if last.Types? && Attached in front then last.keystrokes else []
  }

  /** All the credit the phone granted once it was attached. */
  function GrantedSince(steps: seq<Step>): nat {
    if steps == [] then 0
    else
      var front, last := steps[..|steps| - 1], steps[|steps| - 1];
      GrantedSince(front) + if last.Grants? && Attached in front then last.n else 0
  }

  /** All the pane printed; the carrier's reader takes a chunk only once it has forwarded the last. */
  function PrintedIn(credit: nat, steps: seq<Step>): Bytes
    decreases |steps|
  {
    if steps == [] then []
    else
      var front, last := steps[..|steps| - 1], steps[|steps| - 1];
      var s := Run(Asked(credit), front);
      PrintedIn(credit, front) + if last.Prints? && s.rest == [] && s.inHand == [] then last.bytes else []
  }

  /** Nothing the phone sends on a terminal still open was passed over, and nothing the pane printed. */
  lemma {:induction false} AllHeardIsTaken(credit: nat, steps: seq<Step>)
    ensures var s := Run(Asked(credit), steps);
      && s.offered == PrintedIn(credit, steps)
      && (s.open ==>
            && (s.attached <==> Attached in steps)
            && s.accepted == TypedSince(steps) && s.granted == credit + GrantedSince(steps))
    decreases |steps|
  {
    if steps != [] {
      hide Next;
      var front, last := steps[..|steps| - 1], steps[|steps| - 1];
      AllHeardIsTaken(credit, front);
      assert steps == front + [last];
      StepIsHeard(Run(Asked(credit), front), last);
    }
  }

  /** What one step adds to the record of what was printed, typed and granted. */
  lemma StepIsHeard(s: Stream, step: Step)
    ensures var b := Next(s, step);
      && b.offered == s.offered + (if step.Prints? && s.rest == [] && s.inHand == [] then step.bytes else [])
      && (b.open ==>
            && s.open && (b.attached <==> s.attached || step.Attached?)
            && b.accepted == s.accepted + (if step.Types? && s.attached then step.keystrokes else [])
            && b.granted == s.granted + (if step.Grants? && s.attached then step.n else 0))
  {
    hide Settled, Replenished, Take, Min;
    assert s.offered + [] == s.offered && s.accepted + [] == s.accepted;
    assert s.rest + s.inHand == [] <==> s.rest == [] && s.inHand == [];
  }

  /**
   **What was typed is typed and what was printed is seen**: on a terminal still open
   with nothing left to do, the pane has had every keystroke sent since the attach, and
   the wire every byte printed as far as the attach's credit and the grants since reach.
   */
  lemma {:induction false} EverythingArrives(credit: nat, steps: seq<Step>)
    requires credit <= MaxOutstanding
    requires var s := Run(Asked(credit), steps);
      s.attached && s.open && forall step | OursToDo(step) :: Next(s, step) == s
    ensures var s, printed := Run(Asked(credit), steps), PrintedIn(credit, steps);
      && s.pane == TypedSince(steps)
      && Joined(s.wire) == printed[..Min(|printed|, credit + GrantedSince(steps))]
  {
    NothingIsStuck(credit, steps);
    AllHeardIsTaken(credit, steps);
  }
}
