/**
 What the tailer's log holds after any schedule of growth, polls, crashes and
 rescans, and which `turn_duration` ends its turn.
 */
module TailerRuns {
  import opened Wrappers
  import opened Tailer

  // ------------------------------------------------- spans of a growing file

  lemma LineEndIsStable(file: seq<byte>, from: nat, limit: nat, wider: nat)
    requires from <= limit <= wider <= |file|
    ensures LineEnd(file, from, limit).Some? ==> LineEnd(file, from, wider) == LineEnd(file, from, limit)
    ensures LineEnd(file, from, wider).Some? && LineEnd(file, from, wider).value <= limit
            ==> LineEnd(file, from, limit) == LineEnd(file, from, wider)
    decreases limit - from
  {
    if from < limit && file[from] != NEWLINE { LineEndIsStable(file, from + 1, limit, wider); }
  }

  lemma LineEndOfGrown(file: seq<byte>, more: seq<byte>, from: nat, limit: nat)
    requires from <= limit <= |file|
    ensures LineEnd(file + more, from, limit) == LineEnd(file, from, limit)
    decreases limit - from
  {
    if from < limit && file[from] != NEWLINE { LineEndOfGrown(file, more, from + 1, limit); }
  }

  /** A span, once complete, is the same span however the file grows. */
  lemma {:induction false} SpanOfGrown(file: seq<byte>, more: seq<byte>, from: nat)
    requires from <= |file| && NextSpan(file, from).Some?
    ensures NextSpan(file + more, from) == NextSpan(file, from)
  {
    LineEndOfGrown(file, more, from, WindowEnd(file, from));
    LineEndIsStable(file + more, from, WindowEnd(file, from), WindowEnd(file + more, from));
  }

  lemma SpanFactOfGrown(dec: Decoder, file: seq<byte>, more: seq<byte>, from: nat, span: Span, log: Log)
    requires from < span.end <= |file|
    ensures SpanFact(dec, file + more, from, span, log) == SpanFact(dec, file, from, span, log)
  {
    hide LineFact;
    assert (file + more)[from..span.end] == file[from..span.end];
    assert (file + more)[from..span.end - 1] == file[from..span.end - 1];
  }

  lemma BoundaryOfGrown(dec: Decoder, file: seq<byte>, more: seq<byte>, from: nat, to: nat, log: Log)
    requires from <= |file| && Boundary(file, from, to)
    ensures to <= |file| && Boundary(file + more, from, to)
    ensures LogThrough(dec, file + more, from, to, log) == LogThrough(dec, file, from, to, log)
    decreases |file| - from
  {
    hide NextSpan, LineEnd, SpanFact, Absorb;
    if from != to {
      var span := NextSpan(file, from).value;
      SpanOfGrown(file, more, from);
      SpanFactOfGrown(dec, file, more, from, span, log);
      BoundaryOfGrown(dec, file, more, span.end, to, Absorb(log, SpanFact(dec, file, from, span, log)));
    }
  }

  lemma BoundaryBounds(file: seq<byte>, from: nat, to: nat)
    requires from <= |file| && Boundary(file, from, to)
    ensures from <= to <= |file|
    decreases |file| - from
  {
    if from != to { BoundaryBounds(file, NextSpan(file, from).value.end, to); }
  }

  /** Boundaries are totally ordered: reading on from one meets every later one. */
  lemma BoundariesNest(dec: Decoder, file: seq<byte>, from: nat, mid: nat, to: nat, log: Log)
    requires from <= |file| && Boundary(file, from, mid) && Boundary(file, from, to) && mid <= to
    ensures mid <= |file| && Boundary(file, mid, to)
    ensures LogThrough(dec, file, from, to, log)
         == LogThrough(dec, file, mid, to, LogThrough(dec, file, from, mid, log))
    decreases |file| - from
  {
    BoundaryBounds(file, from, mid);
    if from != mid {
      var span := NextSpan(file, from).value;
      BoundaryBounds(file, span.end, mid);
      BoundariesNest(dec, file, span.end, mid, to, Absorb(log, SpanFact(dec, file, from, span, log)));
    }
  }

  lemma BoundaryExtends(dec: Decoder, file: seq<byte>, from: nat, mid: nat, log: Log)
    requires from <= |file| && Boundary(file, from, mid) && mid <= |file| && NextSpan(file, mid).Some?
    ensures Boundary(file, from, NextSpan(file, mid).value.end)
    ensures var at := LogThrough(dec, file, from, mid, log);
            LogThrough(dec, file, from, NextSpan(file, mid).value.end, log)
            == Absorb(at, SpanFact(dec, file, mid, NextSpan(file, mid).value, at))
    decreases |file| - from
  {
    BoundaryBounds(file, from, mid);
    if from != mid {
      var span := NextSpan(file, from).value;
      BoundaryBounds(file, span.end, mid);
      BoundaryExtends(dec, file, span.end, mid, Absorb(log, SpanFact(dec, file, from, span, log)));
    }
  }

  // -------------------------------------------------- identities name entries

  /** Claude's per-entry identity is one: within the file, a uuid names one entry. */
  ghost predicate UuidsNameEntries(dec: Decoder, file: seq<byte>, names: map<string, Entry>) {
    forall from, end | 0 <= from < end <= |file| && Boundary(file, 0, from)
                       && NextSpan(file, from) == Some(Span(end, false)) ::
      var p := dec.parse(file[from..end - 1]);
      p.Object? && p.entry.uuid.Some? ==> p.entry.uuid.value in names && names[p.entry.uuid.value] == p.entry
  }

  predicate Named(events: seq<Event>, names: map<string, Entry>) {
    forall i | 0 <= i < |events| && events[i].id.ByUuid? ::
      events[i].id.uuid in names && events[i].entry == Some(names[events[i].id.uuid])
  }

  lemma FirstNamedIs(log: Log, uuid: string, names: map<string, Entry>)
    requires Named(log, names)
    ensures FirstNamed(log, uuid) == if Has(log, ByUuid(uuid)) then Some(names[uuid]) else None
  {
    if log != [] {
      assert Named(log[1..], names);
      FirstNamedIs(log[1..], uuid, names);
      if log[0].id != ByUuid(uuid) && Has(log, ByUuid(uuid)) {
        var i :| 0 <= i < |log| && log[i].id == ByUuid(uuid);
        assert log[1..][i - 1].id == ByUuid(uuid);
      }
    }
  }

  lemma LastNamedIs(batch: seq<Event>, uuid: string, names: map<string, Entry>)
    requires Named(batch, names) && Has(batch, ByUuid(uuid))
    ensures uuid in names && LastNamed(batch, uuid) == Some(names[uuid])
  {
    var last := |batch| - 1;
    if batch[last].id != ByUuid(uuid) {
      var i :| 0 <= i < |batch| && batch[i].id == ByUuid(uuid);
      assert batch[..last][i].id == ByUuid(uuid);
      LastNamedIs(batch[..last], uuid, names);
    }
  }

  lemma CommitHas(log: Log, batch: seq<Event>, id: EventId)
    ensures Has(Commit(log, batch), id) <==> Has(log, id) || Has(batch, id)
  {
    if batch != [] {
      var last := |batch| - 1;
      var front, e := Commit(log, batch[..last]), batch[last];
      CommitHas(log, batch[..last], id);
      CommitHas(log, batch[..last], e.id);
      AbsorbHas(front, e, id);
      assert Has(batch, id) <==> Has(batch[..last], id) || e.id == id by {
        if i :| 0 <= i < |batch| && batch[i].id == id { assert i == last || batch[..last][i].id == id; }
        if i :| 0 <= i < last && batch[..last][i].id == id { assert batch[i].id == id; }
      }
    }
  }

  lemma AbsorbHas(log: Log, e: Event, id: EventId)
    ensures Has(Absorb(log, Some(e)), id) <==> Has(log, id) || e.id == id
  {
    if !Has(log, e.id) {
      var longer := log + [e];
      assert longer[|log|].id == e.id;
      if i :| 0 <= i < |log| && log[i].id == id { assert longer[i].id == id; }
    }
  }

  lemma CommitNamed(log: Log, batch: seq<Event>, names: map<string, Entry>)
    requires Named(log, names) && Named(batch, names)
    ensures Named(Commit(log, batch), names)
  {
    if batch != [] { CommitNamed(log, batch[..|batch| - 1], names); }
  }

  /** Reading ancestors from the batch and the log is reading them from the committed log. */
  lemma {:induction false} LookupIsCommitted(batch: seq<Event>, log: Log, uuid: string, names: map<string, Entry>)
    requires Named(batch, names) && Named(log, names)
    ensures Lookup(batch, log, uuid) == Lookup([], Commit(log, batch), uuid)
  {
    CommitNamed(log, batch, names);
    CommitHas(log, batch, ByUuid(uuid));
    FirstNamedIs(log, uuid, names);
    FirstNamedIs(Commit(log, batch), uuid, names);
    if Has(batch, ByUuid(uuid)) { LastNamedIs(batch, uuid, names); }
  }

  lemma EndsTurnIsCommitted(batch: seq<Event>, log: Log, parent: Option<string>, budget: nat, names: map<string, Entry>)
    requires Named(batch, names) && Named(log, names)
    ensures EndsTurn(batch, log, parent, budget) == EndsTurn([], Commit(log, batch), parent, budget)
    decreases budget
  {
    if budget > 0 && parent.Some? {
      LookupIsCommitted(batch, log, parent.value, names);
      var entry := Lookup(batch, log, parent.value);
      if entry.Some? { EndsTurnIsCommitted(batch, log, entry.value.parent, budget - 1, names); }
    }
  }

  // ------------------------------------------------------- one scan, exactly

  lemma FiledSpanIsHeld(dec: Decoder, file: seq<byte>, from: nat, to: nat, log: Log, id: EventId)
    requires from <= |file| && Boundary(file, from, to)
    ensures Has(log, id) ==> Has(LogThrough(dec, file, from, to, log), id)
    decreases |file| - from
  {
    if from != to {
      var span := NextSpan(file, from).value;
      var fact := SpanFact(dec, file, from, span, log);
      if fact.Some? { AbsorbHas(log, fact.value, id); }
      FiledSpanIsHeld(dec, file, span.end, to, Absorb(log, fact), id);
    }
  }

  /** What a scan in progress has to do with the canonical log: `hi` is as far as the log reaches. */
  ghost predicate ScanAgrees(dec: Decoder, file: seq<byte>, s: Scan, log: Log, hi: nat, names: map<string, Entry>) {
    && s.pos <= |file| && hi <= |file|
    && Boundary(file, 0, s.pos) && Boundary(file, 0, hi)
    && Named(log, names) && Named(s.events, names)
    && Commit(log, s.events) == LogThrough(dec, file, 0, Max(hi, s.pos), [])
  }

  lemma CommitOneMore(log: Log, batch: seq<Event>, e: Event)
    ensures Commit(log, batch + [e]) == Absorb(Commit(log, batch), Some(e))
  {
    assert (batch + [e])[..|batch|] == batch;
  }

  /** Every span below `hi` has its fact in the log that reaches `hi`. */
  lemma SpanIsHeld(dec: Decoder, file: seq<byte>, from: nat, hi: nat)
    requires from < hi <= |file| && Boundary(file, 0, from) && Boundary(file, 0, hi)
    ensures NextSpan(file, from).Some? && NextSpan(file, from).value.end <= hi
    ensures Boundary(file, 0, NextSpan(file, from).value.end)
    ensures var fact := SpanFact(dec, file, from, NextSpan(file, from).value, LogThrough(dec, file, 0, from, []));
            fact.Some? ==> Has(LogThrough(dec, file, 0, hi, []), fact.value.id)
  {
    var at := LogThrough(dec, file, 0, from, []);
    BoundariesNest(dec, file, 0, from, hi, []);
    var span := NextSpan(file, from).value;
    BoundaryExtends(dec, file, 0, from, []);
    BoundaryBounds(file, span.end, hi);
    var fact := SpanFact(dec, file, from, span, at);
    if fact.Some? {
      AbsorbHas(at, fact.value, fact.value.id);
      FiledSpanIsHeld(dec, file, span.end, hi, Absorb(at, fact), fact.value.id);
    }
  }

  /** Only a fact's kind depends on what was filed before it. */
  lemma LineFactKeepsItsId(dec: Decoder, text: seq<byte>, batch: seq<Event>, log: Log, batch': seq<Event>, log': Log)
    ensures var a, b := LineFact(dec, text, batch, log), LineFact(dec, text, batch', log');
            a.Some? == b.Some? && (a.Some? ==> a.value.id == b.value.id)
  {
  }

  lemma HeldFactAddsNothing(log: Log, fact: Option<Event>, canonical: Option<Event>)
    requires fact.Some? == canonical.Some?
    requires fact.Some? ==> fact.value.id == canonical.value.id && Has(log, canonical.value.id)
    ensures Absorb(log, fact) == log
  {
  }

  /** A line the log already holds adds nothing, whatever kind this read gives it. */
  lemma RereadLineAgrees(dec: Decoder, file: seq<byte>, from: nat, end: nat, hi: nat, batch: seq<Event>, log: Log)
    requires from < hi <= |file| && Boundary(file, 0, from) && Boundary(file, 0, hi)
    requires NextSpan(file, from) == Some(Span(end, false))
    requires Commit(log, batch) == LogThrough(dec, file, 0, hi, [])
    ensures end <= hi && Boundary(file, 0, end)
    ensures Absorb(Commit(log, batch), LineFact(dec, file[from..end - 1], batch, log)) == Commit(log, batch)
  {
    hide Boundary, LogThrough, LineFact, NextSpan, Absorb, Commit;
    SpanIsHeld(dec, file, from, hi);
    var text := file[from..end - 1];
    var at, here := LogThrough(dec, file, 0, from, []), Commit(log, batch);
    var fact, canonical := LineFact(dec, text, batch, log), LineFact(dec, text, [], at);
    LineFactKeepsItsId(dec, text, batch, log, [], at);
    assert SpanFact(dec, file, from, Span(end, false), at) == canonical;
    HeldFactAddsNothing(here, fact, canonical);
  }

  lemma LineFactIsCommitted(dec: Decoder, text: seq<byte>, batch: seq<Event>, log: Log, names: map<string, Entry>)
    requires Named(batch, names) && Named(log, names)
    ensures LineFact(dec, text, batch, log) == LineFact(dec, text, [], Commit(log, batch))
  {
    var p := dec.parse(text);
    if text != [] && p.Object? {
      EndsTurnIsCommitted(batch, log, p.entry.parent, MAX_ANCESTORS, names);
    }
  }

  /** One complete line read inside a scan does to the log what the one-span reader does. */
  lemma LineAgrees(dec: Decoder, file: seq<byte>, s: Scan, end: nat, log: Log, hi: nat, names: map<string, Entry>)
    requires ScanAgrees(dec, file, s, log, hi, names)
    requires NextSpan(file, s.pos) == Some(Span(end, false))
    ensures Boundary(file, 0, end)
    ensures Absorb(Commit(log, s.events), LineFact(dec, file[s.pos..end - 1], s.events, log))
         == LogThrough(dec, file, 0, Max(hi, end), [])
  {
    hide Boundary, LogThrough, LineFact, Absorb, Commit, NextSpan, LineEnd;
    if s.pos < hi {
      RereadLineAgrees(dec, file, s.pos, end, hi, s.events, log);
    } else {
      LineFactIsCommitted(dec, file[s.pos..end - 1], s.events, log, names);
      BoundaryExtends(dec, file, 0, s.pos, []);
    }
  }

  lemma LineIsNamed(dec: Decoder, file: seq<byte>, from: nat, end: nat, batch: seq<Event>, log: Log, names: map<string, Entry>)
    requires from < end <= |file| && UuidsNameEntries(dec, file, names)
    requires Boundary(file, 0, from) && NextSpan(file, from) == Some(Span(end, false))
    ensures var fact := LineFact(dec, file[from..end - 1], batch, log);
            fact.Some? ==> Named([fact.value], names)
  {
  }

  /** What a scan dropped past the cap on unreadable lines, and still has to file. */
  ghost predicate NothingNewDropped(s: Scan, log: Log) {
    forall i | 0 <= i < |s.dropped| :: Has(Commit(log, s.events), s.dropped[i].id)
  }

  // ------------------------------------------------ what the cap costs, read off the file

  /** The complete lines of `file[from..limit]` that do not decode, in order, as they would be filed. */
  function Undecodable(dec: Decoder, file: seq<byte>, from: nat, limit: nat): seq<EventId>
    requires from <= limit <= |file|
    decreases limit - from
  {
    match LineEnd(file, from, limit)
    case None => []
    case Some(end) => Damage(dec, file[from..end - 1]) + Undecodable(dec, file, end, limit)
  }

  function Damage(dec: Decoder, text: seq<byte>): (ids: seq<EventId>)
    ensures |ids| <= 1 && forall i | 0 <= i < |ids| :: ids[i].UnreadableLine?
  {
    if text != [] && dec.parse(text).Unreadable? then [UnreadableLine(dec.sha(text))] else []
  }

  /**
   The cap on unreadable lines spares a read: of the lines of its window that do not
   decode, each past the first `MAX_PARSE_ERRORS_PER_SCAN` is among those or on the log.
   */
  predicate CapSpares(dec: Decoder, file: seq<byte>, from: nat, log: Log)
    requires from <= |file|
  {
    var ids := Undecodable(dec, file, from, WindowEnd(file, from));
    forall i | MAX_PARSE_ERRORS_PER_SCAN <= i < |ids| :: ids[i] in ids[..MAX_PARSE_ERRORS_PER_SCAN] || Has(log, ids[i])
  }

  /** With no more such lines in the window than a scan files, it does. */
  lemma FewAreSpared(dec: Decoder, file: seq<byte>, from: nat, log: Log)
    requires from <= |file| && |Undecodable(dec, file, from, WindowEnd(file, from))| <= MAX_PARSE_ERRORS_PER_SCAN
    ensures CapSpares(dec, file, from, log)
  {
  }

  /** How many unreadable lines a scan may still file. */
  function Quota(s: Scan): nat {
    if s.unparsed <= MAX_PARSE_ERRORS_PER_SCAN then MAX_PARSE_ERRORS_PER_SCAN - s.unparsed else 0
  }

  /** From one state of a scan to a later one, over damaged lines `ids`: the quota's worth is filed, the rest dropped. */
  ghost predicate FilesFirst(s: Scan, r: Scan, ids: seq<EventId>) {
    && |r.dropped| == |s.dropped| + |ids| - Min(|ids|, Quota(s))
    && (forall i | |s.dropped| <= i < |r.dropped| :: r.dropped[i].id == ids[Quota(s) + i - |s.dropped|])
    && (forall i | 0 <= i < |s.dropped| :: r.dropped[i] == s.dropped[i])
    && Quota(r) == Quota(s) - Min(|ids|, Quota(s))
    && (forall id: EventId | id.UnreadableLine? :: Has(r.events, id) <==> Has(s.events, id) || id in ids[..Min(|ids|, Quota(s))])
  }

  lemma OneLineFilesFirst(dec: Decoder, file: seq<byte>, s: Scan, end: nat, log: Log)
    requires s.pos < end <= |file|
    ensures FilesFirst(s, ScanLine(dec, file, s, end, log), Damage(dec, file[s.pos..end - 1]))
  {
    var text := file[s.pos..end - 1];
    var ids, fact := Damage(dec, text), LineFact(dec, text, s.events, log);
    DamageIsItsFact(dec, text, s.events, log);
    hide LineFact, Damage;
    var r := ScanLine(dec, file, s, end, log);
    assert ids[..Min(|ids|, Quota(s))] == if Quota(s) > 0 then ids else [];
    forall id: EventId | id.UnreadableLine?
      ensures Has(r.events, id) <==> Has(s.events, id) || id in ids[..Min(|ids|, Quota(s))]
    {
      if fact.Some? { HasOneMore(s.events, fact.value, id); }
    }
  }

  lemma DamageIsItsFact(dec: Decoder, text: seq<byte>, batch: seq<Event>, log: Log)
    ensures var fact := LineFact(dec, text, batch, log);
      Damage(dec, text) == if fact.Some? && fact.value.id.UnreadableLine? then [fact.value.id] else []
  {
    hide KindOf;
  }

  lemma HasOneMore(events: seq<Event>, e: Event, id: EventId)
    ensures Has(events + [e], id) <==> Has(events, id) || e.id == id
  {
    var longer := events + [e];
    assert longer[|events|].id == e.id;
    if i :| 0 <= i < |events| && events[i].id == id { assert longer[i].id == id; }
  }

  lemma FilesFirstChains(s: Scan, m: Scan, r: Scan, a: seq<EventId>, b: seq<EventId>)
    requires FilesFirst(s, m, a) && FilesFirst(m, r, b)
    ensures FilesFirst(s, r, a + b)
  {
    var ids := a + b;
    forall i | |s.dropped| <= i < |r.dropped| ensures r.dropped[i].id == ids[Quota(s) + i - |s.dropped|] {
      if i < |m.dropped| { assert r.dropped[i] == m.dropped[i]; }
    }
    forall id: EventId | id.UnreadableLine?
      ensures Has(r.events, id) <==> Has(s.events, id) || id in ids[..Min(|ids|, Quota(s))]
    {
      if |a| <= Quota(s) {
        assert ids[..Min(|ids|, Quota(s))] == a + b[..Min(|b|, Quota(m))];
      } else {
        assert ids[..Min(|ids|, Quota(s))] == a[..Quota(s)] && b[..Min(|b|, Quota(m))] == [];
      }
    }
  }

  lemma {:induction false} LinesFileFirst(dec: Decoder, file: seq<byte>, limit: nat, s: Scan, log: Log)
    requires s.pos <= limit <= |file|
    ensures FilesFirst(s, ScanLines(dec, file, limit, s, log), Undecodable(dec, file, s.pos, limit))
    decreases limit - s.pos
  {
    hide FilesFirst, LineFact, Damage;
    var end := LineEnd(file, s.pos, limit);
    if end.Some? {
      var next := ScanLine(dec, file, s, end.value, log);
      OneLineFilesFirst(dec, file, s, end.value, log);
      LinesFileFirst(dec, file, limit, next, log);
      FilesFirstChains(s, next, ScanLines(dec, file, limit, s, log), Damage(dec, file[s.pos..end.value - 1]),
                       Undecodable(dec, file, end.value, limit));
    } else {
      NothingFiled(s);
    }
  }

  lemma NothingFiled(s: Scan)
    ensures FilesFirst(s, s, [])
  {
  }

  /** What the cap drops of a read is known before the read: it is lossless exactly when its window is spared. */
  lemma DropsAreTheWindows(dec: Decoder, file: seq<byte>, from: nat, log: Log)
    requires from <= |file|
    ensures var s := ScanLines(dec, file, WindowEnd(file, from), StartOfScan(from), log);
      NothingNewDropped(s, log) <==> CapSpares(dec, file, from, log)
  {
    var ids := Undecodable(dec, file, from, WindowEnd(file, from));
    var s := ScanLines(dec, file, WindowEnd(file, from), StartOfScan(from), log);
    LinesFileFirst(dec, file, WindowEnd(file, from), StartOfScan(from), log);
    UndecodableAreLines(dec, file, from, WindowEnd(file, from));
    forall i | 0 <= i < |s.dropped|
      ensures s.dropped[i].id == ids[MAX_PARSE_ERRORS_PER_SCAN + i]
      ensures Has(Commit(log, s.events), s.dropped[i].id)
         <==> ids[MAX_PARSE_ERRORS_PER_SCAN + i] in ids[..MAX_PARSE_ERRORS_PER_SCAN] || Has(log, ids[MAX_PARSE_ERRORS_PER_SCAN + i])
    {
      CommitHas(log, s.events, s.dropped[i].id);
      assert !Has([], s.dropped[i].id);
    }
    forall i | MAX_PARSE_ERRORS_PER_SCAN <= i < |ids| ensures s.dropped[i - MAX_PARSE_ERRORS_PER_SCAN].id == ids[i] { }
  }

  lemma {:induction false} UndecodableAreLines(dec: Decoder, file: seq<byte>, from: nat, limit: nat)
    requires from <= limit <= |file|
    ensures forall i | 0 <= i < |Undecodable(dec, file, from, limit)| :: Undecodable(dec, file, from, limit)[i].UnreadableLine?
    decreases limit - from
  {
    hide Damage;
    var end := LineEnd(file, from, limit);
    if end.Some? { UndecodableAreLines(dec, file, end.value, limit); }
  }

  /** The same of what a poll reads, an overlong window included. */
  lemma WindowDropsAre(dec: Decoder, file: seq<byte>, from: nat, log: Log)
    requires from <= |file| && ScanWindow(dec, file, from, log).Some?
    ensures NothingNewDropped(ScanWindow(dec, file, from, log).value, log) <==> CapSpares(dec, file, from, log)
  {
    hide CapSpares, ScanLines;
    DropsAreTheWindows(dec, file, from, log);
    var s := ScanLines(dec, file, WindowEnd(file, from), StartOfScan(from), log);
    if s.pos == from { NothingReadNothingDropped(dec, file, from, log); }
  }

  lemma NothingReadNothingDropped(dec: Decoder, file: seq<byte>, from: nat, log: Log)
    requires from <= |file| && ScanLines(dec, file, WindowEnd(file, from), StartOfScan(from), log).pos == from
    ensures CapSpares(dec, file, from, log)
  {
    LineIsPassed(dec, file, WindowEnd(file, from), StartOfScan(from), log);
    assert Undecodable(dec, file, from, WindowEnd(file, from)) == [];
  }

  lemma LineIsPassed(dec: Decoder, file: seq<byte>, limit: nat, s: Scan, log: Log)
    requires s.pos <= limit <= |file|
    ensures LineEnd(file, s.pos, limit).Some? ==> ScanLines(dec, file, limit, s, log).pos > s.pos
  {
  }

  lemma LimitCutsNoLine(file: seq<byte>, from: nat, limit: nat)
    requires from <= |file| && from <= limit <= WindowEnd(file, from)
    ensures LineEnd(file, from, limit).Some? ==> NextSpan(file, from) == Some(Span(LineEnd(file, from, limit).value, false))
  {
    LineEndIsStable(file, from, limit, WindowEnd(file, from));
  }

  /** Past the cap nothing unreadable is filed any more. */
  lemma NoMoreUnreadable(dec: Decoder, file: seq<byte>, limit: nat, s: Scan, log: Log, id: EventId)
    requires s.pos <= limit <= |file| && s.unparsed >= MAX_PARSE_ERRORS_PER_SCAN && id.UnreadableLine?
    ensures Has(Commit(log, ScanLines(dec, file, limit, s, log).events), id) == Has(Commit(log, s.events), id)
    decreases limit - s.pos
  {
    var end := LineEnd(file, s.pos, limit);
    if end.Some? {
      var next := ScanLine(dec, file, s, end.value, log);
      if next.events != s.events {
        var e := next.events[|s.events|];
        CommitOneMore(log, s.events, e);
        AbsorbHas(Commit(log, s.events), e, id);
      }
      NoMoreUnreadable(dec, file, limit, next, log, id);
    }
  }

  lemma DroppedOnlyGrows(dec: Decoder, file: seq<byte>, limit: nat, s: Scan, log: Log)
    requires s.pos <= limit <= |file|
    ensures s.dropped <= ScanLines(dec, file, limit, s, log).dropped
    decreases limit - s.pos
  {
    var end := LineEnd(file, s.pos, limit);
    if end.Some? { DroppedOnlyGrows(dec, file, limit, ScanLine(dec, file, s, end.value, log), log); }
  }

  /** One line of a scan keeps the log canonical, unless it is dropped and still owed. */
  lemma ScanLineAgrees(dec: Decoder, file: seq<byte>, s: Scan, end: nat, log: Log, hi: nat, names: map<string, Entry>)
    requires UuidsNameEntries(dec, file, names) && ScanAgrees(dec, file, s, log, hi, names)
    requires NextSpan(file, s.pos) == Some(Span(end, false))
    requires var next := ScanLine(dec, file, s, end, log);
             next.dropped != s.dropped ==> Has(Commit(log, s.events), next.dropped[|s.dropped|].id)
    ensures ScanAgrees(dec, file, ScanLine(dec, file, s, end, log), log, hi, names)
  {
    hide Boundary, LogThrough, LineFact, NextSpan, Commit, UuidsNameEntries;
    LineAgrees(dec, file, s, end, log, hi, names);
    LineIsNamed(dec, file, s.pos, end, s.events, log, names);
    var next := ScanLine(dec, file, s, end, log);
    var fact := LineFact(dec, file[s.pos..end - 1], s.events, log);
    if fact.Some? && next.events != s.events {
      CommitOneMore(log, s.events, fact.value);
      NamedTogether(s.events, fact.value, names);
    }
  }

  lemma NamedTogether(events: seq<Event>, e: Event, names: map<string, Entry>)
    requires Named(events, names) && Named([e], names)
    ensures Named(events + [e], names)
  {
    assert [e][0] == e;
  }

  lemma DroppedIsHeldNow(dec: Decoder, file: seq<byte>, limit: nat, s: Scan, end: nat, log: Log)
    requires s.pos <= limit <= |file| && LineEnd(file, s.pos, limit) == Some(end)
    requires NothingNewDropped(ScanLines(dec, file, limit, s, log), log)
    ensures var next := ScanLine(dec, file, s, end, log);
            next.dropped != s.dropped ==> Has(Commit(log, s.events), next.dropped[|s.dropped|].id)
  {
    var next := ScanLine(dec, file, s, end, log);
    if next.dropped != s.dropped {
      DroppedOnlyGrows(dec, file, limit, next, log);
      assert ScanLines(dec, file, limit, s, log).dropped[|s.dropped|] == next.dropped[|s.dropped|];
      NoMoreUnreadable(dec, file, limit, next, log, next.dropped[|s.dropped|].id);
    }
  }

  /** A scan that drops nothing new leaves the canonical log. */
  lemma ScanLinesAgree(dec: Decoder, file: seq<byte>, limit: nat, s: Scan, log: Log, hi: nat, names: map<string, Entry>)
    requires s.pos <= |file| && s.pos <= limit <= WindowEnd(file, s.pos)
    requires UuidsNameEntries(dec, file, names)
    requires ScanAgrees(dec, file, s, log, hi, names)
    requires NothingNewDropped(ScanLines(dec, file, limit, s, log), log)
    ensures ScanAgrees(dec, file, ScanLines(dec, file, limit, s, log), log, hi, names)
    decreases limit - s.pos
  {
    var end := LineEnd(file, s.pos, limit);
    if end.Some? {
      LimitCutsNoLine(file, s.pos, limit);
      DroppedIsHeldNow(dec, file, limit, s, end.value, log);
      ScanLineAgrees(dec, file, s, end.value, log, hi, names);
      ScanLinesAgree(dec, file, limit, ScanLine(dec, file, s, end.value, log), log, hi, names);
    }
  }

  lemma ScanStopsAtBoundary(dec: Decoder, file: seq<byte>, limit: nat, s: Scan, log: Log)
    requires s.pos <= |file| && s.pos <= limit <= WindowEnd(file, s.pos) && Boundary(file, 0, s.pos)
    ensures Boundary(file, 0, ScanLines(dec, file, limit, s, log).pos)
    decreases limit - s.pos
  {
    var end := LineEnd(file, s.pos, limit);
    if end.Some? {
      LimitCutsNoLine(file, s.pos, limit);
      BoundaryExtends(dec, file, 0, s.pos, []);
      ScanStopsAtBoundary(dec, file, limit, ScanLine(dec, file, s, end.value, log), log);
    }
  }

  lemma DroppedIsOwed(dec: Decoder, file: seq<byte>, s: Scan, end: nat, log: Log, to: nat)
    requires s.pos < end <= to <= |file| && Boundary(file, 0, s.pos) && Boundary(file, 0, to)
    requires NextSpan(file, s.pos) == Some(Span(end, false))
    requires ScanLine(dec, file, s, end, log).dropped != s.dropped
    ensures Has(LogThrough(dec, file, 0, to, []), ScanLine(dec, file, s, end, log).dropped[|s.dropped|].id)
  {
    hide Boundary, LogThrough, LineFact, NextSpan, Absorb, Commit;
    SpanIsHeld(dec, file, s.pos, to);
    LineFactKeepsItsId(dec, file[s.pos..end - 1], s.events, log, [], LogThrough(dec, file, 0, s.pos, []));
  }

  /** Everything a scan dropped is in the canonical log from where it stopped on. */
  lemma {:induction false} DroppedAreOwed(dec: Decoder, file: seq<byte>, limit: nat, s: Scan, log: Log, to: nat, i: nat)
    requires s.pos <= |file| && s.pos <= limit <= WindowEnd(file, s.pos) && Boundary(file, 0, s.pos)
    requires ScanLines(dec, file, limit, s, log).pos <= to <= |file| && Boundary(file, 0, to)
    requires |s.dropped| <= i < |ScanLines(dec, file, limit, s, log).dropped|
    ensures Has(LogThrough(dec, file, 0, to, []), ScanLines(dec, file, limit, s, log).dropped[i].id)
    decreases limit - s.pos
  {
    hide Boundary, LogThrough, LineFact, NextSpan, Absorb;
    var end := LineEnd(file, s.pos, limit);
    LimitCutsNoLine(file, s.pos, limit);
    BoundaryExtends(dec, file, 0, s.pos, []);
    var next := ScanLine(dec, file, s, end.value, log);
    if |next.dropped| <= i {
      DroppedAreOwed(dec, file, limit, next, log, to, i);
    } else {
      DroppedOnlyGrows(dec, file, limit, next, log);
      DroppedIsOwed(dec, file, s, end.value, log, to);
    }
  }

  /** One poll's read, with nothing assumed of it but where it starts. */
  ghost predicate Reaches(dec: Decoder, file: seq<byte>, log: Log, cursor: nat, hi: nat, names: map<string, Entry>) {
    && cursor <= hi <= |file|
    && Boundary(file, 0, cursor) && Boundary(file, 0, hi)
    && log == LogThrough(dec, file, 0, hi, [])
    && Named(log, names)
  }

  /** A poll commits the canonical log exactly when its scan dropped nothing the log still lacked. */
  lemma ScanIsCanonical(dec: Decoder, file: seq<byte>, log: Log, cursor: nat, hi: nat, names: map<string, Entry>)
    requires Reaches(dec, file, log, cursor, hi, names) && UuidsNameEntries(dec, file, names)
    ensures ScanWindow(dec, file, cursor, log).None? <==> NextSpan(file, cursor).None?
    ensures ScanWindow(dec, file, cursor, log).Some? ==>
              var s := ScanWindow(dec, file, cursor, log).value;
              && Boundary(file, 0, s.pos)
              && (Commit(log, s.events) == LogThrough(dec, file, 0, Max(hi, s.pos), []) <==> NothingNewDropped(s, log))
              && (NothingNewDropped(s, log) ==>
                    Reaches(dec, file, Commit(log, s.events), s.pos, Max(hi, s.pos), names))
  {
    var limit := WindowEnd(file, cursor);
    var first := StartOfScan(cursor);
    var s := ScanLines(dec, file, limit, first, log);
    LimitCutsNoLine(file, cursor, limit);
    assert ScanAgrees(dec, file, first, log, hi, names);
    ScanStopsAtBoundary(dec, file, limit, first, log);
    if s.pos > cursor {
      forall i | 0 <= i < |s.dropped|
        ensures Has(LogThrough(dec, file, 0, Max(hi, s.pos), []), s.dropped[i].id)
      {
        DroppedAreOwed(dec, file, limit, first, log, Max(hi, s.pos), i);
      }
      if NothingNewDropped(s, log) { ScanLinesAgree(dec, file, limit, first, log, hi, names); }
      if NothingNewDropped(s, log) { CommitNamed(log, s.events, names); }
    } else if limit - cursor == MAX_BYTES_PER_POLL {
      OverlongAgrees(dec, file, log, cursor, hi, names);
    }
  }

  /**
   A poll from any boundary the log has passed commits the canonical log, exactly
   when of the window's undecodable lines each past the cap is among the first of them
   or on the log already.
   */
  lemma {:induction false} PollIsCanonical(dec: Decoder, file: seq<byte>, log: Log, cursor: nat, hi: nat, names: map<string, Entry>)
    requires Reaches(dec, file, log, cursor, hi, names) && UuidsNameEntries(dec, file, names)
    ensures ScanWindow(dec, file, cursor, log).None? <==> NextSpan(file, cursor).None?
    ensures ScanWindow(dec, file, cursor, log).Some? ==>
              var s := ScanWindow(dec, file, cursor, log).value;
              && Boundary(file, 0, s.pos)
              && (Commit(log, s.events) == LogThrough(dec, file, 0, Max(hi, s.pos), []) <==> CapSpares(dec, file, cursor, log))
              && (CapSpares(dec, file, cursor, log) ==>
                    Reaches(dec, file, Commit(log, s.events), s.pos, Max(hi, s.pos), names))
  {
    hide CapSpares, NothingNewDropped, ScanWindow, Reaches, LogThrough, UuidsNameEntries, Commit;
    ReachesFits(dec, file, log, cursor, hi, names);
    ScanIsCanonical(dec, file, log, cursor, hi, names);
    if ScanWindow(dec, file, cursor, log).Some? { WindowDropsAre(dec, file, cursor, log); }
  }

  lemma ReachesFits(dec: Decoder, file: seq<byte>, log: Log, cursor: nat, hi: nat, names: map<string, Entry>)
    requires Reaches(dec, file, log, cursor, hi, names)
    ensures cursor <= hi <= |file|
  {
  }

  lemma OverlongAgrees(dec: Decoder, file: seq<byte>, log: Log, cursor: nat, hi: nat, names: map<string, Entry>)
    requires Reaches(dec, file, log, cursor, hi, names)
    requires NextSpan(file, cursor) == Some(Span(cursor + MAX_BYTES_PER_POLL, true))
    ensures var end := cursor + MAX_BYTES_PER_POLL;
            var fact := Event(OverlongWindow(cursor, dec.sha(file[cursor..end])), Failure, None);
            && Boundary(file, 0, end)
            && Commit(log, [fact]) == LogThrough(dec, file, 0, Max(hi, end), [])
            && Named(Commit(log, [fact]), names)
  {
    var end := cursor + MAX_BYTES_PER_POLL;
    var fact := Event(OverlongWindow(cursor, dec.sha(file[cursor..end])), Failure, None);
    CommitOneMore(log, [], fact);
    assert [] + [fact] == [fact];
    BoundaryExtends(dec, file, 0, cursor, []);
    if cursor < hi { SpanIsHeld(dec, file, cursor, hi); }
    CommitNamed(log, [fact], names);
  }

  // -------------------------------------- what the two conditions rule out

  /** A decoder to which every line is damage, told apart by its first byte. */
  function DamageDecoder(): Decoder {
    Decoder(text => Unreadable, (text: seq<byte>) => if text == [] then 0 else text[0] as nat)
  }

  /** `n` damaged lines, no two alike. */
  function Damaged(n: nat): seq<byte>
    requires n <= 100
    ensures |Damaged(n)| == 2 * n
    ensures forall i | 0 <= i < n :: Damaged(n)[2 * i] == (100 + i) as byte && Damaged(n)[2 * i + 1] == NEWLINE
  {
    if n == 0 then [] else Damaged(n - 1) + [(99 + n) as byte, NEWLINE]
  }

  function DamageFact(i: nat): Event { Event(UnreadableLine(100 + i), Failure, None) }

  function DamageFacts(n: nat): seq<Event> { seq(n, i requires i >= 0 => DamageFact(i)) }

  /** The scan of `Damaged(33)` after `i` of its lines. */
  function DamageScan(i: nat): Scan {
    Scan(2 * i, DamageFacts(if i < 32 then i else 32), i, if i <= 32 then [] else [DamageFact(32)],
         if i == 0 then 0 else 2 * i - 2)
  }

  lemma DamageStep(file: seq<byte>, i: nat)
    requires i < 33 && |file| == 66 && file[2 * i] == (100 + i) as byte && file[2 * i + 1] == NEWLINE
    ensures LineEnd(file, 2 * i, 66) == Some(2 * i + 2)
    ensures ScanLine(DamageDecoder(), file, DamageScan(i), 2 * i + 2, []) == DamageScan(i + 1)
  {
    assert file[2 * i..2 * i + 1] == [(100 + i) as byte];
    if i < 32 { assert DamageFacts(i + 1) == DamageFacts(i) + [DamageFact(i)]; }
  }

  lemma DamageIsScanned(file: seq<byte>, i: nat)
    requires i <= 33 && file == Damaged(33)
    ensures ScanLines(DamageDecoder(), file, 66, StartOfScan(0), [])
         == ScanLines(DamageDecoder(), file, 66, DamageScan(i), [])
  {
    if i == 0 {
      assert DamageFacts(0) == [];
    } else {
      DamageIsScanned(file, i - 1);
      DamageStep(file, i - 1);
    }
  }

  /** The 33rd unreadable line of one scan is lost: nothing in the log says it was there. */
  lemma {:induction false} CapLosesALine()
    ensures var dec, file := DamageDecoder(), Damaged(33);
            && ScanWindow(dec, file, 0, []).Some?
            && ScanWindow(dec, file, 0, []).value.pos == |file|
            && !Has(Commit([], ScanWindow(dec, file, 0, []).value.events), UnreadableLine(132))
            && |Undecodable(dec, file, 0, |file|)| == 33 && !CapSpares(dec, file, 0, [])
  {
    DamageIsScanned(Damaged(33), 33);
    var s := ScanWindow(DamageDecoder(), Damaged(33), 0, []).value;
    assert s.dropped == [DamageFact(32)] && s.events == DamageFacts(32);
    CommitHas([], s.events, UnreadableLine(132));
    assert s.dropped[0].id == UnreadableLine(132);
    DamageIsNotSpared(s);
  }

  lemma DamageIsNotSpared(s: Scan)
    requires ScanWindow(DamageDecoder(), Damaged(33), 0, []) == Some(s)
    requires s.dropped == [DamageFact(32)] && !Has(Commit([], s.events), UnreadableLine(132))
    requires ScanLines(DamageDecoder(), Damaged(33), 66, StartOfScan(0), []) == s
    ensures |Undecodable(DamageDecoder(), Damaged(33), 0, 66)| == 33 && !CapSpares(DamageDecoder(), Damaged(33), 0, [])
  {
    hide ScanWindow, ScanLines, Undecodable, CapSpares, Commit, Damaged;
    assert s.dropped[0].id == UnreadableLine(132);
    WindowDropsAre(DamageDecoder(), Damaged(33), 0, []);
    LinesFileFirst(DamageDecoder(), Damaged(33), 66, StartOfScan(0), []);
  }

  /** Two entries under one uuid: read in one batch they prove no end, read in two they prove one. */
  lemma {:induction false} ReusedUuidSplits()
    ensures var reply := Entry(Some("a"), None, Assistant, false, false);
            var other := Entry(Some("a"), None, OtherEntry, false, false);
            var batch := [Event(ByUuid("a"), Recorded, Some(reply)), Event(ByUuid("a"), Recorded, Some(other))];
            && !EndsTurn(batch, [], Some("a"), MAX_ANCESTORS)
            && EndsTurn([], Commit([], batch), Some("a"), MAX_ANCESTORS)
  {
    var reply := Entry(Some("a"), None, Assistant, false, false);
    var other := Entry(Some("a"), None, OtherEntry, false, false);
    var first, second := Event(ByUuid("a"), Recorded, Some(reply)), Event(ByUuid("a"), Recorded, Some(other));
    var batch := [first, second];
    assert batch[0].id == ByUuid("a");
    CommitOneMore([], [first], second);
    CommitOneMore([], [], first);
    assert [first] + [second] == batch && [] + [first] == [first];
    assert [first][0].id == ByUuid("a");
    assert Commit([], batch) == [first];
  }

  // ------------------------------------------------------------------- runs

  /** The file grows, or the tailer polls it: `survives` is false for a poll a crash cut short. */
  datatype Step = Grow(more: seq<byte>) | Poll(sameFile: bool, survives: bool)

  datatype World = World(file: seq<byte>, log: Log, cursor: Cursor)

  const Fresh: World := World([], [], Cursor(0, 0, 0))

  /** The cursor a committed scan saves. */
  function CursorOf(dec: Decoder, file: seq<byte>, s: Scan): Cursor
    requires s.lastLineStart <= s.pos <= |file|
  {
    Cursor(s.pos, s.lastLineStart, dec.sha(Chomped(file[s.lastLineStart..s.pos])))
  }

  lemma ScanEndsPastItsLastLine(dec: Decoder, file: seq<byte>, limit: nat, s: Scan, log: Log)
    requires s.pos <= limit <= |file|
    ensures var r := ScanLines(dec, file, limit, s, log); r.pos > s.pos ==> r.lastLineStart < r.pos
    decreases limit - s.pos
  {
    var end := LineEnd(file, s.pos, limit);
    if end.Some? { ScanEndsPastItsLastLine(dec, file, limit, ScanLine(dec, file, s, end.value, log), log); }
  }

  lemma ScanWindowIsLong(dec: Decoder, file: seq<byte>, start: nat, log: Log)
    requires start <= |file| && ScanWindow(dec, file, start, log).Some?
    ensures var s := ScanWindow(dec, file, start, log).value; s.lastLineStart < s.pos
  {
    ScanEndsPastItsLastLine(dec, file, WindowEnd(file, start), StartOfScan(start), log);
  }

  function Next(dec: Decoder, w: World, step: Step): World {
    match step
    case Grow(more) => w.(file := w.file + more)
    case Poll(sameFile, survives) =>
      var start := StartOf(dec, w.file, w.cursor, sameFile);
      var scan := ScanWindow(dec, w.file, start, w.log);
      if scan.Some? && survives then
        ScanWindowIsLong(dec, w.file, start, w.log);
        World(w.file, Commit(w.log, scan.value.events), CursorOf(dec, w.file, scan.value))
      else w
  }

  function Run(dec: Decoder, w: World, steps: seq<Step>): World
    decreases |steps|
  {
    if steps == [] then w else Run(dec, Next(dec, w, steps[0]), steps[1..])
  }

  /** The cap spares every poll of the run, as each finds the file and the log. */
  predicate Lossless(dec: Decoder, w: World, steps: seq<Step>)
    decreases |steps|
  {
    steps == []
    || (&& (steps[0].Poll? ==>
              CapSpares(dec, w.file, StartOf(dec, w.file, w.cursor, steps[0].sameFile), w.log))
        && Lossless(dec, Next(dec, w, steps[0]), steps[1..]))
  }

  ghost predicate Sound(dec: Decoder, w: World, hi: nat, names: map<string, Entry>) {
    Reaches(dec, w.file, w.log, w.cursor.offset, hi, names)
    && LastLineVerifies(dec, w.file, w.cursor)
  }

  lemma LineOfPrefix(dec: Decoder, file: seq<byte>, more: seq<byte>, from: nat, end: nat)
    requires from < end <= |file| && Boundary(file, 0, from) && NextSpan(file, from) == Some(Span(end, false))
    ensures Boundary(file + more, 0, from) && NextSpan(file + more, from) == Some(Span(end, false))
    ensures (file + more)[from..end - 1] == file[from..end - 1]
  {
    hide Boundary, LogThrough, NextSpan;
    BoundaryOfGrown(dec, file, more, 0, from, []);
    SpanOfGrown(file, more, from);
  }

  lemma NamesOfPrefix(dec: Decoder, file: seq<byte>, more: seq<byte>, names: map<string, Entry>)
    requires UuidsNameEntries(dec, file + more, names)
    ensures UuidsNameEntries(dec, file, names)
  {
    hide Boundary, LogThrough, NextSpan;
    forall from, end | 0 <= from < end <= |file| && Boundary(file, 0, from)
                       && NextSpan(file, from) == Some(Span(end, false))
      ensures var p := dec.parse(file[from..end - 1]);
              p.Object? && p.entry.uuid.Some? ==> p.entry.uuid.value in names && names[p.entry.uuid.value] == p.entry
    {
      LineOfPrefix(dec, file, more, from, end);
    }
  }

  lemma GrowKeepsSound(dec: Decoder, w: World, more: seq<byte>, hi: nat, names: map<string, Entry>)
    requires Sound(dec, w, hi, names)
    ensures Sound(dec, w.(file := w.file + more), hi, names)
  {
    hide Boundary, LogThrough, NextSpan;
    BoundaryOfGrown(dec, w.file, more, 0, w.cursor.offset, []);
    BoundaryOfGrown(dec, w.file, more, 0, hi, []);
    if w.cursor.lastLineStart < w.cursor.offset {
      assert (w.file + more)[w.cursor.lastLineStart..w.cursor.offset] == w.file[w.cursor.lastLineStart..w.cursor.offset];
    }
  }

  lemma PollKeepsSound(dec: Decoder, w: World, step: Step, hi: nat, names: map<string, Entry>) returns (hi': nat)
    requires step.Poll? && Sound(dec, w, hi, names) && UuidsNameEntries(dec, w.file, names)
    requires Lossless(dec, w, [step])
    ensures Sound(dec, Next(dec, w, step), hi', names)
  {
    hi' := hi;
    var start := StartOf(dec, w.file, w.cursor, step.sameFile);
    var scan := ScanWindow(dec, w.file, start, w.log);
    if scan.Some? && step.survives {
      PollIsCanonical(dec, w.file, w.log, start, hi, names);
      ScanWindowIsLong(dec, w.file, start, w.log);
      hi' := Max(hi, scan.value.pos);
    }
  }

  lemma FilesOnlyGrow(dec: Decoder, w: World, steps: seq<Step>) returns (more: seq<byte>)
    ensures Run(dec, w, steps).file == w.file + more
    decreases |steps|
  {
    hide ScanWindow, StartOf, Commit;
    if steps == [] {
      more := [];
    } else {
      var rest := FilesOnlyGrow(dec, Next(dec, w, steps[0]), steps[1..]);
      more := (if steps[0].Grow? then steps[0].more else []) + rest;
    }
  }

  lemma {:induction false} RunKeepsSound(dec: Decoder, w: World, steps: seq<Step>, hi: nat, names: map<string, Entry>) returns (hi': nat)
    requires Sound(dec, w, hi, names) && Lossless(dec, w, steps)
    requires UuidsNameEntries(dec, Run(dec, w, steps).file, names)
    ensures Sound(dec, Run(dec, w, steps), hi', names)
    decreases |steps|
  {
    if steps == [] { return hi; }
    var more := FilesOnlyGrow(dec, w, steps);
    NamesOfPrefix(dec, w.file, more, names);
    var now := hi;
    if steps[0].Grow? {
      GrowKeepsSound(dec, w, steps[0].more, hi, names);
    } else {
      now := PollKeepsSound(dec, w, steps[0], hi, names);
    }
    hi' := RunKeepsSound(dec, Next(dec, w, steps[0]), steps[1..], now, names);
  }

  /** Caught up: the cursor stands where nothing complete follows. */
  predicate CaughtUp(w: World) {
    w.cursor.offset <= |w.file| && NextSpan(w.file, w.cursor.offset).None?
  }

  /**
   **The log does not depend on the schedule.** Two runs that end over the same
   file, caught up, hold the same facts with the same sequence numbers, whatever
   the file grew by between polls, whichever polls crashed and whichever rescanned.
   */
  lemma {:induction false} ScheduleDoesNotMatter(dec: Decoder, a: seq<Step>, b: seq<Step>, names: map<string, Entry>)
    requires Run(dec, Fresh, a).file == Run(dec, Fresh, b).file
    requires UuidsNameEntries(dec, Run(dec, Fresh, a).file, names)
    requires Lossless(dec, Fresh, a) && Lossless(dec, Fresh, b)
    requires CaughtUp(Run(dec, Fresh, a)) && CaughtUp(Run(dec, Fresh, b))
    ensures Run(dec, Fresh, a).log == Run(dec, Fresh, b).log
    ensures Run(dec, Fresh, a).cursor.offset == Run(dec, Fresh, b).cursor.offset
  {
    var hiA := RunKeepsSound(dec, Fresh, a, 0, names);
    var hiB := RunKeepsSound(dec, Fresh, b, 0, names);
    var wa, wb := Run(dec, Fresh, a), Run(dec, Fresh, b);
    LastBoundary(dec, wa.file, wa.cursor.offset, hiA);
    LastBoundary(dec, wb.file, wb.cursor.offset, hiB);
    if wa.cursor.offset <= wb.cursor.offset {
      LastBoundary(dec, wa.file, wa.cursor.offset, wb.cursor.offset);
    } else {
      LastBoundary(dec, wa.file, wb.cursor.offset, wa.cursor.offset);
    }
  }

  lemma LastBoundary(dec: Decoder, file: seq<byte>, at: nat, beyond: nat)
    requires at <= beyond && at <= |file| && Boundary(file, 0, at) && Boundary(file, 0, beyond)
    requires NextSpan(file, at).None?
    ensures at == beyond
  {
    BoundariesNest(dec, file, 0, at, beyond, []);
  }

  /** A caught-up run holds exactly the log of a reader that took the spans one by one. */
  lemma {:induction false} CaughtUpLogIsTheFiles(dec: Decoder, steps: seq<Step>, names: map<string, Entry>)
    requires UuidsNameEntries(dec, Run(dec, Fresh, steps).file, names)
    requires Lossless(dec, Fresh, steps) && CaughtUp(Run(dec, Fresh, steps))
    ensures var w := Run(dec, Fresh, steps);
            && Boundary(w.file, 0, w.cursor.offset)
            && w.log == LogThrough(dec, w.file, 0, w.cursor.offset, [])
            && LastLineVerifies(dec, w.file, w.cursor)
  {
    var hi := RunKeepsSound(dec, Fresh, steps, 0, names);
    var w := Run(dec, Fresh, steps);
    LastBoundary(dec, w.file, w.cursor.offset, hi);
  }

  /** `n` polls of a file that stands still, none of them crashing. */
  function Polls(n: nat): seq<Step> { seq(n, i => Poll(true, true)) }

  lemma OnePollOn(dec: Decoder, w: World)
    requires w.cursor.offset <= |w.file| && LastLineVerifies(dec, w.file, w.cursor)
    ensures var next := Next(dec, w, Poll(true, true));
      && next.file == w.file && next.cursor.offset <= |w.file| && LastLineVerifies(dec, w.file, next.cursor)
      && (if CaughtUp(w) then next == w else next.cursor.offset > w.cursor.offset)
  {
    hide LineFact, ScanLines, Commit, LineEnd;
    var start := w.cursor.offset;
    var first := StartOfScan(start);
    LimitCutsNoLine(w.file, start, WindowEnd(w.file, start));
    LineIsPassed(dec, w.file, WindowEnd(w.file, start), first, w.log);
    if LineEnd(w.file, start, WindowEnd(w.file, start)).None? { NoLineIsRead(dec, w.file, WindowEnd(w.file, start), first, w.log); }
    if ScanWindow(dec, w.file, start, w.log).Some? { ScanWindowIsLong(dec, w.file, start, w.log); }
  }

  /** However far behind, polls catch up: each that finds the cursor's last line in place goes on from it. */
  lemma {:induction false} PollsCatchUp(dec: Decoder, w: World, n: nat)
    requires w.cursor.offset <= |w.file| && LastLineVerifies(dec, w.file, w.cursor)
    requires n >= |w.file| - w.cursor.offset
    ensures CaughtUp(Run(dec, w, Polls(n))) && Run(dec, w, Polls(n)).file == w.file
    decreases n
  {
    hide Next, LastLineVerifies, NextSpan;
    if n > 0 {
      OnePollOn(dec, w);
      assert Polls(n)[0] == Poll(true, true) && Polls(n)[1..] == Polls(n - 1);
      var next := Next(dec, w, Poll(true, true));
      if CaughtUp(w) {
        StaysCaughtUp(dec, w, n);
      } else {
        PollsCatchUp(dec, next, n - 1);
      }
    } else {
      NothingFollowsTheEnd(w.file);
    }
  }

  lemma {:induction false} StaysCaughtUp(dec: Decoder, w: World, n: nat)
    requires CaughtUp(w) && LastLineVerifies(dec, w.file, w.cursor)
    ensures Run(dec, w, Polls(n)) == w
    decreases n
  {
    hide Next, LastLineVerifies, NextSpan;
    if n > 0 {
      OnePollOn(dec, w);
      assert Polls(n)[0] == Poll(true, true) && Polls(n)[1..] == Polls(n - 1);
      StaysCaughtUp(dec, w, n - 1);
    }
  }

  lemma NothingFollowsTheEnd(file: seq<byte>)
    ensures NextSpan(file, |file|).None?
  {
  }

  // ------------------------------------------------- a line too long to hold

  /** Polls from `from` until the cursor is at or past `target`, none of them crashing. */
  function PollsToReach(dec: Decoder, file: seq<byte>, from: nat, target: nat, log: Log): nat
    requires from <= |file|
    decreases |file| - from
  {
    if from >= target then 0
    else
      match ScanWindow(dec, file, from, log)
      case None => 0
      case Some(s) => 1 + PollsToReach(dec, file, s.pos, target, Commit(log, s.events))
  }

  predicate NoNewline(file: seq<byte>, from: nat, to: nat)
    requires from <= to <= |file|
  {
    forall i | from <= i < to :: file[i] != NEWLINE
  }

  lemma NoLineYet(file: seq<byte>, from: nat, limit: nat)
    requires from <= limit <= |file| && NoNewline(file, from, limit)
    ensures LineEnd(file, from, limit).None?
    decreases limit - from
  {
    if from < limit { NoLineYet(file, from + 1, limit); }
  }

  lemma LineFound(file: seq<byte>, from: nat, limit: nat, end: nat)
    requires from < end <= limit <= |file| && NoNewline(file, from, end - 1) && file[end - 1] == NEWLINE
    ensures LineEnd(file, from, limit) == Some(end)
    decreases limit - from
  {
    if from + 1 < end { LineFound(file, from + 1, limit, end); }
  }

  lemma LineIsScanned(dec: Decoder, file: seq<byte>, from: nat, end: nat, log: Log)
    requires from < end <= |file| && end <= from + MAX_BYTES_PER_POLL
    requires NoNewline(file, from, end - 1) && file[end - 1] == NEWLINE
    ensures ScanWindow(dec, file, from, log).Some? && ScanWindow(dec, file, from, log).value.pos >= end
  {
    LineFound(file, from, WindowEnd(file, from), end);
  }

  lemma WindowIsSkipped(dec: Decoder, file: seq<byte>, from: nat, log: Log)
    requires from + MAX_BYTES_PER_POLL <= |file| && NoNewline(file, from, from + MAX_BYTES_PER_POLL)
    ensures ScanWindow(dec, file, from, log).Some?
    ensures ScanWindow(dec, file, from, log).value.pos == from + MAX_BYTES_PER_POLL
  {
    NoLineYet(file, from, from + MAX_BYTES_PER_POLL);
  }

  function PollsOwed(length: nat): nat { (length + MAX_BYTES_PER_POLL - 1) / MAX_BYTES_PER_POLL }

  lemma PollsOwedStep(length: nat)
    requires length > 0
    ensures PollsOwed(length)
         == if length <= MAX_BYTES_PER_POLL then 1 else 1 + PollsOwed(length - MAX_BYTES_PER_POLL)
  {
  }

  lemma OnePollMore(dec: Decoder, file: seq<byte>, from: nat, target: nat, log: Log)
    requires from <= |file| && from < target && ScanWindow(dec, file, from, log).Some?
    ensures var s := ScanWindow(dec, file, from, log).value;
            PollsToReach(dec, file, from, target, log)
            == 1 + if s.pos >= target then 0 else PollsToReach(dec, file, s.pos, target, Commit(log, s.events))
  {
  }

  /** A line of any length, its newline counted, is passed in `ceil(length / window)` polls. */
  lemma {:induction false} OverlongLineIsPassed(dec: Decoder, file: seq<byte>, from: nat, length: nat, log: Log)
    requires 0 < length && from + length <= |file|
    requires NoNewline(file, from, from + length - 1) && file[from + length - 1] == NEWLINE
    ensures PollsToReach(dec, file, from, from + length, log) == PollsOwed(length)
    decreases length
  {
    PollsOwedStep(length);
    if length <= MAX_BYTES_PER_POLL {
      LineIsScanned(dec, file, from, from + length, log);
      OnePollMore(dec, file, from, from + length, log);
    } else {
      WindowIsSkipped(dec, file, from, log);
      OnePollMore(dec, file, from, from + length, log);
      var s := ScanWindow(dec, file, from, log).value;
      OverlongLineIsPassed(dec, file, s.pos, length - MAX_BYTES_PER_POLL, Commit(log, s.events));
    }
  }

  // -------------------------------------------------------------- turn ends

  /** The `k`th entry back along the `parentUuid` chain, the parent itself being the 0th. */
  function Ancestor(log: Log, parent: Option<string>, k: nat): Option<Entry>
    decreases k
  {
    if k == 0 then
      if parent.Some? then Lookup([], log, parent.value) else None
    else
      var below := Ancestor(log, parent, k - 1);
      if below.Some? && below.value.parent.Some? then Lookup([], log, below.value.parent.value) else None
  }

  ghost predicate ProvesAnEnd(log: Log, parent: Option<string>, k: nat) {
    && Ancestor(log, parent, k).Some?
    && Ancestor(log, parent, k).value.role == Assistant && !Ancestor(log, parent, k).value.sidechain
    && forall j | 0 <= j < k ::
         && Ancestor(log, parent, j).Some?
         && Ancestor(log, parent, j).value.role != Assistant
         && !IsMain(Ancestor(log, parent, j).value, StopHookSummary)
  }

  lemma AncestorOfParent(log: Log, parent: Option<string>, k: nat)
    requires parent.Some? && Lookup([], log, parent.value).Some?
    ensures Ancestor(log, parent, k + 1) == Ancestor(log, Lookup([], log, parent.value).value.parent, k)
  {
    if k > 0 { AncestorOfParent(log, parent, k - 1); }
  }

  /**
   A `turn_duration` ends its turn if and only if, within 64 entries back along the
   chain and through no summary, the nearest assistant entry is the main
   conversation's. An unknown parent, a loop or a longer chain therefore proves nothing.
   */
  lemma {:induction false} TurnEndIsProved(log: Log, parent: Option<string>, budget: nat)
    ensures EndsTurn([], log, parent, budget) <==> exists k: nat :: k < budget && ProvesAnEnd(log, parent, k)
    decreases budget
  {
    if budget == 0 || parent.None? || Lookup([], log, parent.value).None? {
      forall k: nat | k < budget ensures !ProvesAnEnd(log, parent, k) {
        assert Ancestor(log, parent, 0).None?;
      }
      return;
    }
    var e := Lookup([], log, parent.value).value;
    assert Ancestor(log, parent, 0) == Some(e);
    TurnEndIsProved(log, e.parent, budget - 1);
    if IsMain(e, StopHookSummary) || e.role == Assistant {
      forall k: nat | 0 < k < budget ensures !ProvesAnEnd(log, parent, k) {
        assert Ancestor(log, parent, 0) == Some(e);
      }
      if e.role == Assistant && !e.sidechain { assert ProvesAnEnd(log, parent, 0); }
    } else {
      forall k: nat ensures ProvesAnEnd(log, parent, k + 1) <==> ProvesAnEnd(log, e.parent, k) {
        ProofMovesUp(log, parent, e, k);
      }
      assert !ProvesAnEnd(log, parent, 0);
      if k: nat :| k < budget && ProvesAnEnd(log, parent, k) {
        assert ProvesAnEnd(log, parent, (k - 1) + 1);
        assert ProvesAnEnd(log, e.parent, k - 1);
      }
      if k: nat :| k < budget - 1 && ProvesAnEnd(log, e.parent, k) {
        assert ProvesAnEnd(log, parent, k + 1);
      }
    }
  }

  lemma ProofMovesUp(log: Log, parent: Option<string>, e: Entry, k: nat)
    requires parent.Some? && Lookup([], log, parent.value) == Some(e)
    requires e.role != Assistant && !IsMain(e, StopHookSummary)
    ensures ProvesAnEnd(log, parent, k + 1) <==> ProvesAnEnd(log, e.parent, k)
  {
    forall j: nat ensures Ancestor(log, parent, j + 1) == Ancestor(log, e.parent, j) {
      AncestorOfParent(log, parent, j);
    }
    assert Ancestor(log, parent, 0) == Some(e);
    if ProvesAnEnd(log, e.parent, k) {
      forall j | 0 <= j < k + 1
        ensures && Ancestor(log, parent, j).Some? && Ancestor(log, parent, j).value.role != Assistant
                && !IsMain(Ancestor(log, parent, j).value, StopHookSummary)
      {
        if j > 0 { assert Ancestor(log, parent, (j - 1) + 1) == Ancestor(log, e.parent, j - 1); }
      }
    }
    if ProvesAnEnd(log, parent, k + 1) {
      forall j | 0 <= j < k
        ensures && Ancestor(log, e.parent, j).Some? && Ancestor(log, e.parent, j).value.role != Assistant
                && !IsMain(Ancestor(log, e.parent, j).value, StopHookSummary)
      {
        assert Ancestor(log, parent, j + 1) == Ancestor(log, e.parent, j);
      }
    }
  }

  /** What follows a turn's last reply, newest first, down to the reply itself. */
  ghost predicate ChainsBack(log: Log, parent: Option<string>, tail: seq<Entry>, reply: Entry)
    decreases |tail|
  {
    && parent.Some?
    && if tail == [] then Lookup([], log, parent.value) == Some(reply)
       else && Lookup([], log, parent.value) == Some(tail[0])
            && tail[0].role != Assistant && tail[0].role != TurnDuration
            && ChainsBack(log, tail[0].parent, tail[1..], reply)
  }

  function Summaries(tail: seq<Entry>, labelledToo: bool): nat {
    if tail == [] then 0
    else (if IsMain(tail[0], StopHookSummary) && (labelledToo || !tail[0].hookLabel) then 1 else 0)
         + Summaries(tail[1..], labelledToo)
  }

  /** How many facts of one finished turn are filed as its end. */
  function EndsFiled(log: Log, tail: seq<Entry>, duration: Entry): nat {
    Summaries(tail, false) + (if KindOf(duration, [], log) == TurnComplete then 1 else 0)
  }

  lemma {:induction false} WalkMeetsSummaries(log: Log, parent: Option<string>, tail: seq<Entry>, reply: Entry, budget: nat)
    requires ChainsBack(log, parent, tail, reply) && |tail| < budget
    requires reply.role == Assistant
    ensures EndsTurn([], log, parent, budget) <==> Summaries(tail, true) == 0 && !reply.sidechain
    decreases |tail|
  {
    if tail != [] { WalkMeetsSummaries(log, tail[0].parent, tail[1..], reply, budget - 1); }
  }

  lemma {:induction false} UnlabelledAreFewer(tail: seq<Entry>)
    ensures Summaries(tail, false) <= Summaries(tail, true)
    decreases |tail|
  {
    if tail != [] { UnlabelledAreFewer(tail[1..]); }
  }

  /**
   **One end per finished turn**, exactly when its Stop hooks wrote no summary at all
   or one that carries no `hookLabel`. A turn whose only summaries are labelled files
   none: a labelled one is no end, and still stops the walk from its `turn_duration`.
   */
  lemma {:induction false} OneEndPerTurn(log: Log, tail: seq<Entry>, reply: Entry, duration: Entry)
    requires ChainsBack(log, duration.parent, tail, reply) && |tail| < MAX_ANCESTORS
    requires reply.role == Assistant && !reply.sidechain && IsMain(duration, TurnDuration)
    ensures EndsFiled(log, tail, duration) == 1
            <==> Summaries(tail, false) == 1 || Summaries(tail, true) == 0
    ensures EndsFiled(log, tail, duration) == 0
            <==> Summaries(tail, false) == 0 && Summaries(tail, true) > 0
  {
    WalkMeetsSummaries(log, duration.parent, tail, reply, MAX_ANCESTORS);
    UnlabelledAreFewer(tail);
  }
}
