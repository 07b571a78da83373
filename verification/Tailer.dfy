/**
 The daemon's transcript tailer (mac/ccd/src/tailer.rs) with the store's
 de-duplicating append (mac/ccd/src/store.rs).

 A transcript is a byte string that only grows. A poll reads one bounded window
 from a durable cursor, turns the complete lines of that window into facts and
 commits the facts with the new cursor in one transaction. The question the model
 answers is what the log holds after an arbitrary schedule of growth, polls,
 crashes and rescans: a function of the file alone.

 JSON decoding and SHA-256 are parameters (`Decoder`).
 */
module Tailer {
  import opened Wrappers

  const MAX_BYTES_PER_POLL: nat := 4 * 1024 * 1024
  const MAX_PARSE_ERRORS_PER_SCAN: nat := 32
  const MAX_ANCESTORS: nat := 64

  /** What an entry's type and subtype say it is. */
  datatype Role = Assistant | StopHookSummary | TurnDuration | OtherEntry

  datatype Entry = Entry(
    uuid: Option<string>,
    parent: Option<string>,
    role: Role,
    sidechain: bool,
    hookLabel: bool)

  datatype Parsed = Unreadable | NotAnObject | Object(entry: Entry)

  datatype Decoder = Decoder(parse: seq<byte> -> Parsed, sha: seq<byte> -> nat)

  /** `source_event_id`, with the source that scopes it. */
  datatype EventId =
    | ByUuid(uuid: string)
    | ByLineSha(sha: nat)
    | UnreadableLine(sha: nat)
    | OverlongWindow(start: nat, sha: nat)

  datatype Kind = TurnComplete | Recorded | Failure

  /** A fact; its `seq` in the log is its position, counted from 1. */
  datatype Event = Event(id: EventId, kind: Kind, entry: Option<Entry>)

  type Log = seq<Event>

  // ------------------------------------------------------------- the log

  predicate Has(log: Log, id: EventId) {
    exists i :: 0 <= i < |log| && log[i].id == id
  }

  /** `append_in_tx`: a fact whose identity is filed already is dropped. */
  function Absorb(log: Log, fact: Option<Event>): Log {
    match fact
    case None => log
    case Some(e) => if Has(log, e.id) then log else log + [e]
  }

  /** `append_batch_with_cursor`, the log's half. */
  function Commit(log: Log, batch: seq<Event>): Log {
    if batch == [] then log
    else Absorb(Commit(log, batch[..|batch| - 1]), Some(batch[|batch| - 1]))
  }

  /** The stored entry a uuid names: `transcript_entry`. */
  function FirstNamed(log: Log, uuid: string): Option<Entry> {
    if log == [] then None
    else if log[0].id == ByUuid(uuid) then log[0].entry
    else FirstNamed(log[1..], uuid)
  }

  /** The newest batch event a uuid names: `earlier.iter().rev().find(..)`. */
  function LastNamed(batch: seq<Event>, uuid: string): Option<Entry> {
    if batch == [] then None
    else if batch[|batch| - 1].id == ByUuid(uuid) then batch[|batch| - 1].entry
    else LastNamed(batch[..|batch| - 1], uuid)
  }

  function Lookup(batch: seq<Event>, log: Log, uuid: string): Option<Entry> {
    if Has(batch, ByUuid(uuid)) then LastNamed(batch, uuid) else FirstNamed(log, uuid)
  }

  // ------------------------------------------------------------ turn ends

  predicate IsMain(e: Entry, role: Role) {
    e.role == role && !e.sidechain
  }

  /** Walk the `parentUuid` chain back, at most `budget` entries. */
  function EndsTurn(batch: seq<Event>, log: Log, parent: Option<string>, budget: nat): bool
    decreases budget
  {
    if budget == 0 || parent.None? then false
    else
      match Lookup(batch, log, parent.value)
      case None => false
      case Some(e) =>
        if IsMain(e, StopHookSummary) then false
        else if e.role == Assistant then !e.sidechain
        else EndsTurn(batch, log, e.parent, budget - 1)
  }

  /** `ends_its_turn`, as the loop it is. */
  method EndsItsTurn(batch: seq<Event>, log: Log, duration: Entry) returns (ends: bool)
    ensures ends == EndsTurn(batch, log, duration.parent, MAX_ANCESTORS)
  {
    var parent := duration.parent;
    for n := 0 to MAX_ANCESTORS
      invariant EndsTurn(batch, log, duration.parent, MAX_ANCESTORS)
             == EndsTurn(batch, log, parent, MAX_ANCESTORS - n)
    {
      if parent.None? { return false; }
      var entry := Lookup(batch, log, parent.value);
      if entry.None? { return false; }
      if IsMain(entry.value, StopHookSummary) { return false; }
      if entry.value.role == Assistant { return !entry.value.sidechain; }
      parent := entry.value.parent;
    }
    return false;
  }

  function KindOf(e: Entry, batch: seq<Event>, log: Log): Kind {
    if IsMain(e, StopHookSummary) && !e.hookLabel then TurnComplete
    else if IsMain(e, TurnDuration) && EndsTurn(batch, log, e.parent, MAX_ANCESTORS) then TurnComplete
    else Recorded
  }

  function IdOf(dec: Decoder, text: seq<byte>, e: Entry): EventId {
    match e.uuid
    case Some(u) => ByUuid(u)
    case None => ByLineSha(dec.sha(text))
  }

  /** The fact one complete line makes, given what was filed before it. */
  function LineFact(dec: Decoder, text: seq<byte>, batch: seq<Event>, log: Log): Option<Event> {
    if text == [] then None
    else
      match dec.parse(text)
      case Unreadable => Some(Event(UnreadableLine(dec.sha(text)), Failure, None))
      case NotAnObject => None
      case Object(e) => Some(Event(IdOf(dec, text, e), KindOf(e, batch, log), Some(e)))
  }

  // ------------------------------------- the file's own division into spans

  /** The end of the first complete line of `file[from..limit]`, its newline included. */
  function LineEnd(file: seq<byte>, from: nat, limit: nat): (r: Option<nat>)
    requires from <= limit <= |file|
    ensures r.Some? ==> from < r.value <= limit && file[r.value - 1] == NEWLINE
                        && NEWLINE !in file[from..r.value - 1]
    ensures r.None? ==> NEWLINE !in file[from..limit]
    decreases limit - from
  {
    if from == limit then None
    else if file[from] == NEWLINE then Some(from + 1)
    else LineEnd(file, from + 1, limit)
  }

  datatype Span = Span(end: nat, overlong: bool)

  function WindowEnd(file: seq<byte>, from: nat): (r: nat)
    requires from <= |file|
    ensures from <= r <= |file|
  {
    Min(|file|, from + MAX_BYTES_PER_POLL)
  }

  /**
   The span that starts at `from`: a line that ends within a read of it, a full
   window of a line that does not, or nothing yet.
   */
  function NextSpan(file: seq<byte>, from: nat): (r: Option<Span>)
    requires from <= |file|
    ensures r.Some? ==> from < r.value.end <= |file|
  {
    match LineEnd(file, from, WindowEnd(file, from))
    case Some(end) => Some(Span(end, false))
    case None =>
      if WindowEnd(file, from) == from + MAX_BYTES_PER_POLL
      then Some(Span(from + MAX_BYTES_PER_POLL, true))
      else None
  }

  predicate Boundary(file: seq<byte>, from: nat, to: nat)
    requires from <= |file|
    decreases |file| - from
  {
    from == to
    || (NextSpan(file, from).Some? && NextSpan(file, from).value.end <= to
        && Boundary(file, NextSpan(file, from).value.end, to))
  }

  function SpanFact(dec: Decoder, file: seq<byte>, from: nat, span: Span, log: Log): Option<Event>
    requires from < span.end <= |file|
  {
    if span.overlong
    then Some(Event(OverlongWindow(from, dec.sha(file[from..span.end])), Failure, None))
    else LineFact(dec, file[from..span.end - 1], [], log)
  }

  /** The log a reader that takes one span at a time builds over `file[from..to]`. */
  function LogThrough(dec: Decoder, file: seq<byte>, from: nat, to: nat, log: Log): Log
    requires from <= |file| && Boundary(file, from, to)
    decreases |file| - from
  {
    if from == to then log
    else
      var span := NextSpan(file, from).value;
      LogThrough(dec, file, span.end, to, Absorb(log, SpanFact(dec, file, from, span, log)))
  }

  // --------------------------------------------------------------- one scan

  datatype Scan = Scan(
    pos: nat,
    events: seq<Event>,
    unparsed: nat,
    dropped: seq<Event>,
    lastLineStart: nat)

  function ScanLine(dec: Decoder, file: seq<byte>, s: Scan, end: nat, log: Log): Scan
    requires s.pos < end <= |file|
  {
    var fact := LineFact(dec, file[s.pos..end - 1], s.events, log);
    if fact.None? then s.(pos := end, lastLineStart := s.pos)
    else if fact.value.id.UnreadableLine? then
      if s.unparsed < MAX_PARSE_ERRORS_PER_SCAN
      then s.(pos := end, lastLineStart := s.pos, events := s.events + [fact.value], unparsed := s.unparsed + 1)
      else s.(pos := end, lastLineStart := s.pos, dropped := s.dropped + [fact.value], unparsed := s.unparsed + 1)
    else s.(pos := end, lastLineStart := s.pos, events := s.events + [fact.value])
  }

  function ScanLines(dec: Decoder, file: seq<byte>, limit: nat, s: Scan, log: Log): (r: Scan)
    requires s.pos <= limit <= |file|
    ensures s.pos <= r.pos <= limit
    decreases limit - s.pos
  {
    match LineEnd(file, s.pos, limit)
    case None => s
    case Some(end) => ScanLines(dec, file, limit, ScanLine(dec, file, s, end, log), log)
  }

  lemma LineIsRead(dec: Decoder, file: seq<byte>, limit: nat, s: Scan, log: Log)
    requires s.pos <= limit <= |file| && LineEnd(file, s.pos, limit).Some?
    ensures var end := LineEnd(file, s.pos, limit).value;
      var fact, b := LineFact(dec, file[s.pos..end - 1], s.events, log), ScanLine(dec, file, s, end, log);
      var unreadable := fact.Some? && fact.value.id.UnreadableLine?;
      && ScanLines(dec, file, limit, s, log) == ScanLines(dec, file, limit, b, log)
      && b.pos == end && b.lastLineStart == s.pos
      && b.unparsed == (if unreadable then s.unparsed + 1 else s.unparsed)
      && b.events == if fact.None? || (unreadable && s.unparsed >= MAX_PARSE_ERRORS_PER_SCAN) then s.events
                     else s.events + [fact.value]
  {
    hide LineFact;
  }

  lemma NoLineIsRead(dec: Decoder, file: seq<byte>, limit: nat, s: Scan, log: Log)
    requires s.pos <= limit <= |file| && LineEnd(file, s.pos, limit).None?
    ensures ScanLines(dec, file, limit, s, log) == s
  {
  }

  function StartOfScan(start: nat): Scan { Scan(start, [], 0, [], start) }

  /** `scan_file` over one read window: None when there is nothing to commit. */
  function ScanWindow(dec: Decoder, file: seq<byte>, start: nat, log: Log): (r: Option<Scan>)
    requires start <= |file|
    ensures r.Some? ==> start < r.value.pos <= |file| && start <= r.value.lastLineStart
  {
    var limit := WindowEnd(file, start);
    var s := ScanLines(dec, file, limit, StartOfScan(start), log);
    if s.pos > start then
      ScanStarts(dec, file, limit, StartOfScan(start), log);
      Some(s)
    else if limit - start < MAX_BYTES_PER_POLL then None
    else Some(Scan(limit, [Event(OverlongWindow(start, dec.sha(file[start..limit])), Failure, None)], 0, [], start))
  }

  lemma ScanStarts(dec: Decoder, file: seq<byte>, limit: nat, s: Scan, log: Log)
    requires s.pos <= limit <= |file|
    ensures var r := ScanLines(dec, file, limit, s, log);
            r.lastLineStart == s.lastLineStart || s.pos <= r.lastLineStart
    decreases limit - s.pos
  {
    match LineEnd(file, s.pos, limit)
    case None =>
    case Some(end) => ScanStarts(dec, file, limit, ScanLine(dec, file, s, end, log), log);
  }

  // ------------------------------------------------------------- the cursor

  /** The durable cursor: how far the file is read, and the last bytes it read. */
  datatype Cursor = Cursor(offset: nat, lastLineStart: nat, lastLineSha: nat)

  function Chomped(bytes: seq<byte>): seq<byte> {
    if bytes != [] && bytes[|bytes| - 1] == NEWLINE then bytes[..|bytes| - 1] else bytes
  }

  lemma ChompedLine(file: seq<byte>, from: nat, end: nat)
    requires from < end <= |file| && file[end - 1] == NEWLINE
    ensures Chomped(file[from..end]) == file[from..end - 1]
  {
    var line := file[from..end];
    assert line[|line| - 1] == file[end - 1] && line[..|line| - 1] == file[from..end - 1];
  }

  /** `verify_last_line`: the bytes the cursor read last are still there. */
  predicate LastLineVerifies(dec: Decoder, file: seq<byte>, c: Cursor)
    requires c.offset <= |file|
  {
    c.offset == 0
    || (c.lastLineStart < c.offset
        && dec.sha(Chomped(file[c.lastLineStart..c.offset])) == c.lastLineSha)
  }

  /** Where a poll starts: the cursor, or the top when the cursor cannot be trusted. */
  function StartOf(dec: Decoder, file: seq<byte>, c: Cursor, sameFile: bool): (r: nat)
    ensures r <= |file|
  {
    if sameFile && c.offset <= |file| && LastLineVerifies(dec, file, c) then c.offset else 0
  }

  /** One session's tail: its log and cursor, changed together or not at all. */
  class Tail {
    const dec: Decoder
    var log: Log
    var cursor: Cursor

    constructor (dec: Decoder)
      ensures this.dec == dec && log == [] && cursor == Cursor(0, 0, 0)
    {
      this.dec := dec;
      log := [];
      cursor := Cursor(0, 0, 0);
    }

    /** One complete line of a scan: filed, dropped past the cap, or no fact at all. */
    method ReadLine(text: seq<byte>, events: seq<Event>, unparsed: nat) returns (events': seq<Event>, unparsed': nat)
      ensures var fact := LineFact(dec, text, events, log);
              var unreadable := fact.Some? && fact.value.id.UnreadableLine?;
              && unparsed' == (if unreadable then unparsed + 1 else unparsed)
              && events' == if fact.None? || (unreadable && unparsed >= MAX_PARSE_ERRORS_PER_SCAN) then events
                            else events + [fact.value]
    {
      events', unparsed' := events, unparsed;
      if text == [] { return; }
      match dec.parse(text) {
        case Unreadable =>
          unparsed' := unparsed + 1;
          if unparsed' <= MAX_PARSE_ERRORS_PER_SCAN {
            events' := events + [Event(UnreadableLine(dec.sha(text)), Failure, None)];
          }
        case NotAnObject =>
        case Object(e) =>
          var kind := Recorded;
          if IsMain(e, StopHookSummary) && !e.hookLabel { kind := TurnComplete; }
          if IsMain(e, TurnDuration) {
            var ends := EndsItsTurn(events, log, e);
            if ends { kind := TurnComplete; }
          }
          events' := events + [Event(IdOf(dec, text, e), kind, Some(e))];
      }
    }

    /** Every complete line of the window, in order. */
    method ReadLines(file: seq<byte>, start: nat, limit: nat)
      returns (pos: nat, events: seq<Event>, lastLineStart: nat, lastLineSha: nat)
      requires start <= limit <= |file|
      ensures var s := ScanLines(dec, file, limit, StartOfScan(start), log);
              pos == s.pos && events == s.events && lastLineStart == s.lastLineStart
      ensures start <= pos <= limit
      ensures pos > start ==> lastLineStart < pos && file[pos - 1] == NEWLINE
                              && lastLineSha == dec.sha(file[lastLineStart..pos - 1])
    {
      hide LineFact, ScanLine, ScanLines, LineEnd;
      var unparsed: nat := 0;
      pos, events, lastLineStart, lastLineSha := start, [], start, 0;
      ghost var s := StartOfScan(start);
      var end := LineEnd(file, pos, limit);
      while end.Some?
        invariant start <= pos <= limit && end == LineEnd(file, pos, limit)
        invariant s.pos == pos && s.events == events && s.unparsed == unparsed && s.lastLineStart == lastLineStart
        invariant ScanLines(dec, file, limit, StartOfScan(start), log) == ScanLines(dec, file, limit, s, log)
        invariant pos > start ==> lastLineStart < pos && file[pos - 1] == NEWLINE
                                  && lastLineSha == dec.sha(file[lastLineStart..pos - 1])
        decreases limit - pos
      {
        LineIsRead(dec, file, limit, s, log);
        s := ScanLine(dec, file, s, end.value, log);
        var text := file[pos..end.value - 1];
        events, unparsed := ReadLine(text, events, unparsed);
        lastLineStart, lastLineSha, pos := pos, dec.sha(text), end.value;
        end := LineEnd(file, pos, limit);
      }
      NoLineIsRead(dec, file, limit, s, log);
    }

    /** `scan_file` from `start`: the facts of one window and the cursor that claims them. */
    method ScanFile(file: seq<byte>, start: nat) returns (scanned: bool, events: seq<Event>, next: Cursor)
      requires start <= |file|
      ensures scanned == ScanWindow(dec, file, start, log).Some?
      ensures scanned ==>
                var s := ScanWindow(dec, file, start, log).value;
                && events == s.events && next.offset == s.pos && next.lastLineStart == s.lastLineStart
      ensures scanned ==> next.offset <= |file| && LastLineVerifies(dec, file, next)
    {
      var limit := WindowEnd(file, start);
      var pos, found, lastLineStart, lastLineSha := ReadLines(file, start, limit);
      if pos > start {
        ChompedLine(file, lastLineStart, pos);
        return true, found, Cursor(pos, lastLineStart, lastLineSha);
      }
      if limit - start < MAX_BYTES_PER_POLL { return false, [], cursor; }
      var window := file[start..limit];
      assert Chomped(window) == window by { assert LineEnd(file, start, limit).None?; assert window[|window| - 1] != NEWLINE; }
      return true, [Event(OverlongWindow(start, dec.sha(window)), Failure, None)], Cursor(limit, start, dec.sha(window));
    }

    /** `poll_once`: nothing survives of a poll that stops before its commit. */
    method Poll(file: seq<byte>, sameFile: bool, survives: bool)
      modifies this
      ensures var start := StartOf(dec, file, old(cursor), sameFile);
              var scan := ScanWindow(dec, file, start, old(log));
              if scan.Some? && survives then
                && log == Commit(old(log), scan.value.events)
                && cursor.offset == scan.value.pos && LastLineVerifies(dec, file, cursor)
              else log == old(log) && cursor == old(cursor)
    {
      var start := StartOf(dec, file, cursor, sameFile);
      var scanned, events, next := ScanFile(file, start);
      if scanned && survives {
        log, cursor := Commit(log, events), next;
      }
    }
  }
}
