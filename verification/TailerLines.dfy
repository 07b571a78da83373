/**
 Which line of a transcript each fact is of, and that no line is passed over
 (mac/ccd/src/tailer.rs).

 `TailerRuns` shows that every schedule comes to one log, the one a reader taking the
 file a span at a time would build. Here that log is read back onto the file's own
 bytes: its facts are the first spans of each identity, in file order, each fact saying
 what its span says. An identity is what the format promises tells two entries apart, a
 uuid or else the bytes themselves; that the daemon files under a hash of the bytes is
 what `ShasTellTexts` is about.
 */
module TailerLines {
  import opened Wrappers
  import opened Tailer
  import opened TailerRuns

  /** What tells one span of a transcript from another. */
  datatype Identity =
    | OfUuid(uuid: string)
    | OfText(text: seq<byte>)
    | OfDamage(text: seq<byte>)
    | OfWindow(start: nat)

  datatype Line = Line(from: nat, span: Span, identity: Identity)

  ghost predicate IsSpan(file: seq<byte>, from: nat, span: Span) {
    from < span.end <= |file| && Boundary(file, 0, from) && NextSpan(file, from) == Some(span)
  }

  /** What a span of the file says it is: a blank line and one that decodes to no object say nothing. */
  ghost function Telling(dec: Decoder, file: seq<byte>, from: nat, span: Span): Option<Identity> {
    if !IsSpan(file, from, span) then None
    else if span.overlong then Some(OfWindow(from))
    else
      var text := file[from..span.end - 1];
      if text == [] then None
      else
        match dec.parse(text)
        case Unreadable => Some(OfDamage(text))
        case NotAnObject => None
        case Object(e) => Some(if e.uuid.Some? then OfUuid(e.uuid.value) else OfText(text))
  }

  /** No two different lines of the file share a hash. */
  ghost predicate ShasTellTexts(dec: Decoder, file: seq<byte>) {
    forall a, aEnd, b, bEnd |
      0 <= a < aEnd <= |file| && 0 <= b < bEnd <= |file|
      && IsSpan(file, a, Span(aEnd, false)) && IsSpan(file, b, Span(bEnd, false))
      && dec.sha(file[a..aEnd - 1]) == dec.sha(file[b..bEnd - 1]) ::
      file[a..aEnd - 1] == file[b..bEnd - 1]
  }

  /** A turn ends at an unlabelled summary, or at a duration whose chain proves it from what is filed before. */
  ghost predicate EndsATurn(before: Log, e: Entry) {
    && !e.sidechain
    && ((e.role == StopHookSummary && !e.hookLabel)
        || (e.role == TurnDuration && exists k: nat :: k < 64 && ProvesAnEnd(before, e.parent, k)))
  }

  /** A fact says what its span says: a decoded line's entry and whether it ends a turn, or that bytes were lost. */
  ghost predicate Says(dec: Decoder, file: seq<byte>, before: Log, fact: Event, line: Line) {
    && Telling(dec, file, line.from, line.span) == Some(line.identity)
    && if line.identity.OfDamage? || line.identity.OfWindow? then fact.kind == Failure && fact.entry == None
       else
         var p := dec.parse(file[line.from..line.span.end - 1]);
         && p.Object? && fact.entry == Some(p.entry)
         && fact.kind == if EndsATurn(before, p.entry) then TurnComplete else Recorded
  }

  function FiledAs(dec: Decoder, file: seq<byte>, identity: Identity): EventId {
    match identity
    case OfUuid(u) => ByUuid(u)
    case OfText(text) => ByLineSha(dec.sha(text))
    case OfDamage(text) => UnreadableLine(dec.sha(text))
    case OfWindow(start) =>
      OverlongWindow(start, if start + MAX_BYTES_PER_POLL <= |file| then dec.sha(file[start..start + MAX_BYTES_PER_POLL]) else 0)
  }

  ghost predicate Among(kept: seq<Line>, identity: Identity, at: nat) {
    exists i | 0 <= i < |kept| :: kept[i].identity == identity && kept[i].from <= at
  }

  /** A log read back onto the file's spans below `upTo`. */
  ghost predicate Paired(dec: Decoder, file: seq<byte>, log: Log, kept: seq<Line>, upTo: nat) {
    && |log| == |kept|
    && (forall i | 0 <= i < |kept| ::
          kept[i].from < upTo && log[i].id == FiledAs(dec, file, kept[i].identity) && Says(dec, file, log[..i], log[i], kept[i]))
    && (forall i, j | 0 <= i < j < |kept| :: kept[i].from < kept[j].from && kept[i].identity != kept[j].identity)
    && (forall from: nat, span | from < upTo && Telling(dec, file, from, span).Some? ::
          Among(kept, Telling(dec, file, from, span).value, from))
  }

  // ------------------------------------------------------ one identity, one id

  lemma SpanIsALine(file: seq<byte>, from: nat, span: Span)
    requires IsSpan(file, from, span)
    ensures span.overlong ==> span.end == from + MAX_BYTES_PER_POLL
  {
    hide Boundary, LineEnd;
  }

  lemma IdentityIsFiled(dec: Decoder, file: seq<byte>, from: nat, span: Span, log: Log)
    requires IsSpan(file, from, span)
    ensures var fact, x := SpanFact(dec, file, from, span, log), Telling(dec, file, from, span);
      && fact.Some? == x.Some?
      && (x.Some? ==> fact.value.id == FiledAs(dec, file, x.value) && Says(dec, file, log, fact.value, Line(from, span, x.value)))
  {
    hide Boundary, LineEnd, NextSpan, EndsTurn, ProvesAnEnd;
    SpanIsALine(file, from, span);
    var p := dec.parse(file[from..span.end - 1]);
    if p.Object? { TurnEndIsProved(log, p.entry.parent, MAX_ANCESTORS); }
  }

  /** Two spans of different identity are filed under different ids. */
  lemma IdentitiesAreApart(dec: Decoder, file: seq<byte>, a: Line, b: Line)
    requires ShasTellTexts(dec, file)
    requires Telling(dec, file, a.from, a.span) == Some(a.identity)
    requires Telling(dec, file, b.from, b.span) == Some(b.identity)
    requires FiledAs(dec, file, a.identity) == FiledAs(dec, file, b.identity)
    ensures a.identity == b.identity
  {
    hide Boundary, NextSpan;
    assert !a.span.overlong ==> a.span == Span(a.span.end, false);
    assert !b.span.overlong ==> b.span == Span(b.span.end, false);
  }

  // ---------------------------------------------------------- span by span

  /** Below the end of a span, the spans are those before it and itself. */
  lemma SpansBelow(file: seq<byte>, at: nat, span: Span, from: nat, other: Span)
    requires IsSpan(file, at, span) && IsSpan(file, from, other) && from < span.end
    ensures from < at || (from == at && other == span)
  {
    if from >= at { BoundariesNest(AnyDecoder(), file, 0, at, from, []); }
  }

  function AnyDecoder(): Decoder { Decoder(text => Unreadable, text => 0) }

  lemma OneMoreLine(dec: Decoder, file: seq<byte>, log: Log, kept: seq<Line>, from: nat, span: Span) returns (kept': seq<Line>)
    requires Paired(dec, file, log, kept, from) && ShasTellTexts(dec, file) && IsSpan(file, from, span)
    ensures from < span.end <= |file|
    ensures Paired(dec, file, Absorb(log, SpanFact(dec, file, from, span, log)), kept', span.end)
  {
    hide ShasTellTexts, IsSpan, Says, Telling, FiledAs, SpanFact;
    SpanIsInFile(file, from, span);
    var fact, x := SpanFact(dec, file, from, span, log), Telling(dec, file, from, span);
    IdentityIsFiled(dec, file, from, span, log);
    kept' := kept;
    if x.Some? && !Has(log, fact.value.id) { kept' := kept + [Line(from, span, x.value)]; }
    var log' := Absorb(log, fact);
    assert x.None? ==> log' == log;
    if x.Some? { HeldAsAmong(dec, file, log, kept, from, span); }
    forall i | 0 <= i < |kept'|
      ensures kept'[i].from < span.end && log'[i].id == FiledAs(dec, file, kept'[i].identity)
              && Says(dec, file, log'[..i], log'[i], kept'[i])
    {
      if i < |kept| { assert log'[..i] == log[..i]; } else { assert log'[..i] == log; }
    }
    forall s: nat, other | s < span.end && Telling(dec, file, s, other).Some?
      ensures Among(kept', Telling(dec, file, s, other).value, s)
    {
      TellingIsSpan(dec, file, s, other);
      SpansBelow(file, from, span, s, other);
      if s < from {
        StillAmong(kept, kept', Telling(dec, file, s, other).value, s);
      } else if |kept'| > |kept| {
        assert kept'[|kept|].identity == x.value;
      }
    }
  }

  lemma SpanIsInFile(file: seq<byte>, from: nat, span: Span)
    requires IsSpan(file, from, span)
    ensures from < span.end <= |file|
  {
  }

  lemma TellingIsSpan(dec: Decoder, file: seq<byte>, from: nat, span: Span)
    requires Telling(dec, file, from, span).Some?
    ensures IsSpan(file, from, span)
  {
  }

  lemma StillAmong(kept: seq<Line>, more: seq<Line>, identity: Identity, at: nat)
    requires kept <= more && Among(kept, identity, at)
    ensures Among(more, identity, at)
  {
    var i :| 0 <= i < |kept| && kept[i].identity == identity && kept[i].from <= at;
    assert more[i] == kept[i];
  }

  /** A span's id is in the log exactly when an earlier span has its identity. */
  lemma HeldAsAmong(dec: Decoder, file: seq<byte>, log: Log, kept: seq<Line>, from: nat, span: Span)
    requires Paired(dec, file, log, kept, from) && ShasTellTexts(dec, file) && Telling(dec, file, from, span).Some?
    ensures var x := Telling(dec, file, from, span).value;
      && (Has(log, FiledAs(dec, file, x)) <==> Among(kept, x, from))
      && (!Among(kept, x, from) ==> forall i | 0 <= i < |kept| :: kept[i].identity != x)
  {
    hide ShasTellTexts, IsSpan, Telling, FiledAs;
    var x := Telling(dec, file, from, span).value;
    if Has(log, FiledAs(dec, file, x)) {
      var i :| 0 <= i < |log| && log[i].id == FiledAs(dec, file, x);
      IdentitiesAreApart(dec, file, kept[i], Line(from, span, x));
    }
    if Among(kept, x, from) {
      var i :| 0 <= i < |kept| && kept[i].identity == x && kept[i].from <= from;
      assert log[i].id == FiledAs(dec, file, x);
    }
  }

  lemma {:induction false} LinesAreKept(dec: Decoder, file: seq<byte>, from: nat, upTo: nat, log: Log, kept: seq<Line>)
    returns (kept': seq<Line>)
    requires from <= |file| && Boundary(file, 0, from) && Boundary(file, from, upTo)
    requires Paired(dec, file, log, kept, from) && ShasTellTexts(dec, file)
    ensures Paired(dec, file, LogThrough(dec, file, from, upTo, log), kept', upTo)
    decreases |file| - from
  {
    hide Paired, ShasTellTexts, SpanFact, NextSpan;
    kept' := kept;
    if from != upTo {
      var span := NextSpan(file, from).value;
      assert IsSpan(file, from, span);
      kept' := OneMoreLine(dec, file, log, kept, from, span);
      BoundaryExtends(dec, file, 0, from, []);
      kept' := LinesAreKept(dec, file, span.end, upTo, Absorb(log, SpanFact(dec, file, from, span, log)), kept');
    }
  }

  // ------------------------------------------------------- lines, by their bytes

  /** A line of the file that a read can hold, its newline included. */
  predicate IsLine(file: seq<byte>, from: nat, end: nat) {
    && from < end <= |file| && end <= from + MAX_BYTES_PER_POLL
    && (from == 0 || file[from - 1] == NEWLINE) && file[end - 1] == NEWLINE
    && forall i | from <= i < end - 1 :: file[i] != NEWLINE
  }

  lemma {:induction false} LineStartIsReached(file: seq<byte>, at: nat, from: nat)
    requires at <= from <= |file| && (from == at || file[from - 1] == NEWLINE)
    ensures Boundary(file, at, from)
    decreases from - at
  {
    if at < from {
      var end := LineEnd(file, at, WindowEnd(file, at));
      if end.Some? {
        NoneBefore(file, at, end.value - 1, from - 1);
        LineStartIsReached(file, end.value, from);
      } else {
        NoneBefore(file, at, WindowEnd(file, at), from - 1);
        LineStartIsReached(file, WindowEnd(file, at), from);
      }
    }
  }

  lemma NoneBefore(file: seq<byte>, from: nat, limit: nat, at: nat)
    requires from <= limit <= |file| && from <= at < |file| && NEWLINE !in file[from..limit] && file[at] == NEWLINE
    ensures limit <= at
  {
    forall k | from <= k < limit ensures file[k] != NEWLINE {
      assert file[from..limit][k - from] == file[k];
    }
  }

  lemma LineIsASpan(file: seq<byte>, from: nat, end: nat)
    requires IsLine(file, from, end)
    ensures IsSpan(file, from, Span(end, false))
  {
    LineStartIsReached(file, 0, from);
    LineFound(file, from, WindowEnd(file, from), end);
  }

  // ------------------------------------------------------------ the record

  /**
   **Every line is on record, once, and says what it said.** A caught-up run that lost
   nothing to the cap holds one fact for each identity in the file, in the order of the
   spans that first had it: no two facts share an identity, and no span that says
   something lacks the fact of its own.
   */
  lemma {:induction false} EveryLineIsOnRecord(dec: Decoder, steps: seq<Step>, names: map<string, Entry>) returns (kept: seq<Line>)
    requires UuidsNameEntries(dec, Run(dec, Fresh, steps).file, names) && ShasTellTexts(dec, Run(dec, Fresh, steps).file)
    requires Lossless(dec, Fresh, steps) && CaughtUp(Run(dec, Fresh, steps))
    ensures |kept| == |Run(dec, Fresh, steps).log|
    ensures forall i, j | 0 <= i < j < |kept| :: kept[i].from < kept[j].from && kept[i].identity != kept[j].identity
    ensures var w := Run(dec, Fresh, steps);
      forall i | 0 <= i < |kept| :: Says(dec, w.file, w.log[..i], w.log[i], kept[i])
    ensures var file := Run(dec, Fresh, steps).file;
      forall from: nat, span | Telling(dec, file, from, span).Some? ::
        exists i | 0 <= i < |kept| :: kept[i].identity == Telling(dec, file, from, span).value && kept[i].from <= from
  {
    hide Paired, UuidsNameEntries, ShasTellTexts, Says, Telling, Run, Lossless, NextSpan;
    var w := Run(dec, Fresh, steps);
    CaughtUpLogIsTheFiles(dec, steps, names);
    NothingIsKept(dec, w.file);
    kept := LinesAreKept(dec, w.file, 0, w.cursor.offset, [], []);
    PairedIs(dec, w.file, w.log, kept, w.cursor.offset);
    forall from: nat, span | Telling(dec, w.file, from, span).Some?
      ensures Among(kept, Telling(dec, w.file, from, span).value, from)
    {
      TellingIsSpan(dec, w.file, from, span);
      SpanIsBelow(w.file, w.cursor.offset, from, span);
    }
  }

  /** Of the lines a read can hold, no decoded entry is missing from the log, told on the bytes alone. */
  lemma {:induction false} EveryEntryIsOnRecord(dec: Decoder, steps: seq<Step>, names: map<string, Entry>, from: nat, end: nat)
    returns (i: nat)
    requires UuidsNameEntries(dec, Run(dec, Fresh, steps).file, names) && ShasTellTexts(dec, Run(dec, Fresh, steps).file)
    requires Lossless(dec, Fresh, steps) && CaughtUp(Run(dec, Fresh, steps))
    requires IsLine(Run(dec, Fresh, steps).file, from, end) && from + 1 < end
    requires dec.parse(Run(dec, Fresh, steps).file[from..end - 1]).Object?
    ensures var w := Run(dec, Fresh, steps);
      i < |w.log| && w.log[i].entry == Some(dec.parse(w.file[from..end - 1]).entry)
  {
    hide UuidsNameEntries, ShasTellTexts, Says, IsSpan, Run, Lossless, NextSpan;
    var w := Run(dec, Fresh, steps);
    var kept := EveryLineIsOnRecord(dec, steps, names);
    LineIsASpan(w.file, from, end);
    var x := Telling(dec, w.file, from, Span(end, false)).value;
    i :| 0 <= i < |kept| && kept[i].identity == x && kept[i].from <= from;
    SaysSame(dec, w.file, w.log[..i], w.log[i], kept[i], Line(from, Span(end, false), x), names);
  }

  lemma NothingIsKept(dec: Decoder, file: seq<byte>)
    ensures Paired(dec, file, [], [], 0) && Boundary(file, 0, 0)
  {
  }

  lemma PairedIs(dec: Decoder, file: seq<byte>, log: Log, kept: seq<Line>, upTo: nat)
    requires Paired(dec, file, log, kept, upTo)
    ensures |log| == |kept|
    ensures forall i | 0 <= i < |kept| :: Says(dec, file, log[..i], log[i], kept[i])
    ensures forall i, j | 0 <= i < j < |kept| :: kept[i].from < kept[j].from && kept[i].identity != kept[j].identity
    ensures forall from: nat, span | from < upTo && Telling(dec, file, from, span).Some? ::
      Among(kept, Telling(dec, file, from, span).value, from)
  {
    hide Says, Telling, IsSpan;
  }

  /** Where nothing complete follows, every span has been read. */
  lemma SpanIsBelow(file: seq<byte>, at: nat, from: nat, span: Span)
    requires at <= |file| && Boundary(file, 0, at) && NextSpan(file, at).None? && IsSpan(file, from, span)
    ensures from < at
  {
    if at <= from { BoundariesNest(AnyDecoder(), file, 0, at, from, []); }
  }

  lemma SaysSame(dec: Decoder, file: seq<byte>, before: Log, fact: Event, line: Line, other: Line, names: map<string, Entry>)
    requires UuidsNameEntries(dec, file, names) && Says(dec, file, before, fact, line)
    requires !other.span.overlong && line.identity == other.identity
    requires Telling(dec, file, other.from, other.span) == Some(other.identity)
    requires dec.parse(file[other.from..other.span.end - 1]).Object?
    ensures fact.entry == Some(dec.parse(file[other.from..other.span.end - 1]).entry)
  {
    hide Boundary, EndsATurn;
    assert other.span == Span(other.span.end, false) && !line.span.overlong;
    assert line.span == Span(line.span.end, false);
  }
}
