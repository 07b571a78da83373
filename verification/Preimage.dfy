/**
 What a mutation's `payload_hash` is taken over (mac/protocol/src/hash.rs, and the
 phone's copy in CodeConnectKit/Sources/CodeConnectKit/CodexWire.swift): a tag, then
 each field behind a newline, its length in bytes, and a colon. The digest itself is
 not part of this model; what is proved is that the bytes under it tell everything.
 */
module Preimage {
  import opened Wrappers

  type Bytes = seq<byte>

  const ZERO: byte := 48
  const COLON: byte := 58

  /** A decimal number, most significant digit first, no leading zero. */
  function Decimal(n: nat): (d: Bytes)
    ensures |d| >= 1 && forall i | 0 <= i < |d| :: ZERO <= d[i] < COLON
  {
    if n < 10 then [(48 + n) as byte] else Decimal(n / 10) + [(48 + n % 10) as byte]
  }

  function Prefixed(field: Bytes): Bytes { [NEWLINE] + Decimal(|field|) + [COLON] + field }

  function Fields(fields: seq<Bytes>): Bytes {
    if fields == [] then [] else Prefixed(fields[0]) + Fields(fields[1..])
  }

  function Material(tag: Bytes, fields: seq<Bytes>): Bytes { tag + Fields(fields) }

  /** The preimage as the loop both ends run. */
  method BuildMaterial(tag: Bytes, fields: seq<Bytes>) returns (material: Bytes)
    ensures material == Material(tag, fields)
  {
    material := tag;
    for i := 0 to |fields|
      invariant material + Fields(fields[i..]) == Material(tag, fields)
    {
      ghost var before := material;
      material := material + [NEWLINE];
      material := material + Decimal(|fields[i]|);
      material := material + [COLON];
      material := material + fields[i];
      assert fields[i..][0] == fields[i] && fields[i..][1..] == fields[i + 1..];
      assert material == before + Prefixed(fields[i]);
      assert before + (Prefixed(fields[i]) + Fields(fields[i + 1..])) == material + Fields(fields[i + 1..]);
    }
    assert fields[|fields|..] == [];
  }

  // ------------------------------------------------------------- reading it back

  function Value(digits: Bytes): nat
    requires forall i | 0 <= i < |digits| :: ZERO <= digits[i] < COLON
  {
    if digits == [] then 0
    else Value(digits[..|digits| - 1]) * 10 + (digits[|digits| - 1] as int - 48)
  }

  /** How many bytes come before the first that is not a digit. */
  function DigitRun(s: Bytes): (n: nat)
    ensures n <= |s| && forall i | 0 <= i < n :: ZERO <= s[i] < COLON
  {
    if s != [] && ZERO <= s[0] < COLON then 1 + DigitRun(s[1..]) else 0
  }

  /** How many bytes come before the first newline. */
  function LineRun(s: Bytes): (n: nat)
    ensures n <= |s| && NEWLINE !in s[..n]
  {
    if s != [] && s[0] != NEWLINE then 1 + LineRun(s[1..]) else 0
  }

  function ReadFields(s: Bytes): Option<seq<Bytes>>
    decreases |s|
  {
    if s == [] then Some([])
    else if s[0] != NEWLINE then None
    else
      var n := DigitRun(s[1..]);
      if 1 + n >= |s| || s[1 + n] != COLON then None
      else
        var length, body := Value(s[1..][..n]), s[2 + n..];
        if length > |body| then None
        else match ReadFields(body[length..]) case None => None case Some(rest) => Some([body[..length]] + rest)
  }

  function ReadMaterial(s: Bytes): Option<(Bytes, seq<Bytes>)> {
    var n := LineRun(s);
    match ReadFields(s[n..]) case None => None case Some(fields) => Some((s[..n], fields))
  }

  lemma {:induction false} DecimalIsItsValue(n: nat)
    ensures Value(Decimal(n)) == n
    decreases n
  {
    if n < 10 {
      assert Decimal(n)[..0] == [];
    } else {
      DecimalIsItsValue(n / 10);
      assert Decimal(n)[..|Decimal(n)| - 1] == Decimal(n / 10);
    }
  }

  lemma {:induction false} DigitsEndAtColon(digits: Bytes, rest: Bytes)
    requires forall i | 0 <= i < |digits| :: ZERO <= digits[i] < COLON
    ensures DigitRun(digits + [COLON] + rest) == |digits|
    decreases |digits|
  {
    var s := digits + [COLON] + rest;
    if digits == [] {
      assert s[0] == COLON;
    } else {
      assert s[0] == digits[0] && s[1..] == digits[1..] + [COLON] + rest;
      DigitsEndAtColon(digits[1..], rest);
    }
  }

  /** A prefixed field, with anything after it, says where it ends. */
  lemma OneFieldReads(field: Bytes, rest: Bytes, s: Bytes)
    requires s == Prefixed(field) + rest
    ensures s != [] && s[0] == NEWLINE
    ensures var n := DigitRun(s[1..]);
      && 1 + n < |s| && s[1 + n] == COLON && Value(s[1..][..n]) == |field| && s[2 + n..] == field + rest
  {
    hide Value, DigitRun;
    var digits := Decimal(|field|);
    assert s[1..] == digits + [COLON] + (field + rest);
    DigitsEndAtColon(digits, field + rest);
    DecimalIsItsValue(|field|);
    assert s[1..][..|digits|] == digits && s[1 + |digits|] == COLON;
    assert s[2 + |digits|..] == field + rest;
  }

  lemma ReadsOneMore(s: Bytes, field: Bytes, rest: Bytes, more: seq<Bytes>)
    requires s != [] && s[0] == NEWLINE
    requires var n := DigitRun(s[1..]);
      && 1 + n < |s| && s[1 + n] == COLON && Value(s[1..][..n]) == |field| && s[2 + n..] == field + rest
    requires ReadFields(rest) == Some(more)
    ensures ReadFields(s) == Some([field] + more)
  {
    hide Value, DigitRun;
    var body := field + rest;
    assert body[..|field|] == field && body[|field|..] == rest;
  }

  /** The fields are read back whole, whatever bytes they hold. */
  lemma {:induction false} FieldsReadBack(fields: seq<Bytes>)
    ensures ReadFields(Fields(fields)) == Some(fields)
    decreases |fields|
  {
    hide Prefixed, ReadFields, DigitRun, Value;
    if fields == [] {
      NothingReads([]);
    } else {
      FieldsReadBack(fields[1..]);
      OneFieldReads(fields[0], Fields(fields[1..]), Fields(fields));
      ReadsOneMore(Fields(fields), fields[0], Fields(fields[1..]), fields[1..]);
      assert [fields[0]] + fields[1..] == fields;
    }
  }

  lemma NothingReads(s: Bytes)
    requires s == []
    ensures ReadFields(s) == Some([])
  {
  }

  lemma {:induction false} TagEndsAtLine(tag: Bytes, rest: Bytes)
    requires NEWLINE !in tag && (rest == [] || rest[0] == NEWLINE)
    ensures LineRun(tag + rest) == |tag|
    decreases |tag|
  {
    if tag == [] {
      assert tag + rest == rest;
    } else {
      assert (tag + rest)[1..] == tag[1..] + rest;
      TagEndsAtLine(tag[1..], rest);
    }
  }

  /** **The preimage can be read back**: tag and fields, for every field of any bytes. */
  lemma {:induction false} MaterialReadsBack(tag: Bytes, fields: seq<Bytes>)
    requires NEWLINE !in tag
    ensures ReadMaterial(Material(tag, fields)) == Some((tag, fields))
  {
    var s := Material(tag, fields);
    TagEndsAtLine(tag, Fields(fields));
    assert s[..|tag|] == tag && s[|tag|..] == Fields(fields);
    FieldsReadBack(fields);
  }

  /** A tag with a newline in it could be read as a shorter tag and a field: no verb's has one. */
  lemma {:induction false} TagWithALineIsAmbiguous()
    ensures Material([1] + Prefixed([2]), []) == Material([1], [[2]])
  {
    assert [[2]][1..] == [] && Fields([[2]]) == Prefixed([2]) + [];
  }

  // -------------------------------------------------------------- the mutations

  datatype Mutation =
    | SendText(session: Bytes, submit: bool, text: Bytes)
    | Answer(request: Bytes, payload: Bytes, option: Bytes, thread: Bytes, decision: Bytes)
    | Interrupt(session: Bytes, turn: Bytes)
    | Compose(session: Bytes, text: Bytes)

  function Ascii(s: string): (b: Bytes)
    requires forall i | 0 <= i < |s| :: s[i] as int < 128
    ensures |b| == |s| && forall i | 0 <= i < |s| :: b[i] as int == s[i] as int
  {
    if s == "" then [] else Ascii(s[..|s| - 1]) + [(s[|s| - 1] as int) as byte]
  }

  function Tag(m: Mutation): Bytes {
    match m
    case SendText(_, _, _) => Ascii("codeconnect.send_text.v1")
    case Answer(_, _, _, _, _) => Ascii("codeconnect.answer.v1")
    case Interrupt(_, _) => Ascii("codeconnect.interrupt.v1")
    case Compose(_, _) => Ascii("codeconnect.compose.v1")
  }

  function FieldsOf(m: Mutation): seq<Bytes> {
    match m
    case SendText(session, submit, text) => [session, Ascii(if submit then "submit" else "stage"), text]
    case Answer(request, payload, option, thread, decision) => [request, payload, option, thread, decision]
    case Interrupt(session, turn) => [session, turn]
    case Compose(session, text) => [session, text]
  }

  function PreimageOf(m: Mutation): Bytes { Material(Tag(m), FieldsOf(m)) }

  lemma NoLineInTag(m: Mutation)
    ensures NEWLINE !in Tag(m)
  {
    var tag := Tag(m);
    forall i | 0 <= i < |tag| ensures tag[i] != NEWLINE { }
  }

  lemma TagsTellVerbs(a: Mutation, b: Mutation)
    requires Tag(a) == Tag(b)
    ensures a.SendText? == b.SendText? && a.Answer? == b.Answer?
    ensures a.Interrupt? == b.Interrupt? && a.Compose? == b.Compose?
  {
    var s, i := "codeconnect.send_text.v1", "codeconnect.interrupt.v1";
    assert |s| == |i| == 24 && |"codeconnect.answer.v1"| == 21 && |"codeconnect.compose.v1"| == 22;
    assert Ascii(s)[12] as int == s[12] as int == 's' as int && Ascii(i)[12] as int == i[12] as int == 'i' as int;
  }

  /**
   **One preimage, one mutation**: across verbs, sessions, flags and every way of
   splitting the same bytes into fields.
   */
  lemma {:induction false} OnePreimageOneMutation(a: Mutation, b: Mutation)
    requires PreimageOf(a) == PreimageOf(b)
    ensures a == b
  {
    hide Ascii, Material, ReadMaterial, Tag;
    NoLineInTag(a);
    NoLineInTag(b);
    MaterialReadsBack(Tag(a), FieldsOf(a));
    MaterialReadsBack(Tag(b), FieldsOf(b));
    TagsTellVerbs(a, b);
    FieldsTellMutation(a, b);
  }

  lemma FieldsTellMutation(a: Mutation, b: Mutation)
    requires FieldsOf(a) == FieldsOf(b)
    requires a.SendText? == b.SendText? && a.Answer? == b.Answer? && a.Interrupt? == b.Interrupt?
    ensures a == b
  {
    hide Ascii;
    var f, g := FieldsOf(a), FieldsOf(b);
    assert f[0] == g[0] && f[1] == g[1];
    if a.SendText? {
      assert f[2] == g[2];
      assert |Ascii("submit")| == 6 && |Ascii("stage")| == 5;
    } else if a.Answer? {
      assert f[2] == g[2] && f[3] == g[3] && f[4] == g[4];
    }
  }
}
