/**
 * The key/value message body the invoker exchanges with the manager over its
 * websocket (module `raw_msg` and the `send`/`recv` dispatch of
 * src/server/websocket.rs).  A body is a sequence of '\n'-terminated lines
 * "KEY VALUE", one of which names the message type, optionally followed by a
 * "DATA" line after which every byte is raw payload.
 *
 * The writer names the type line "TYPE" while the reader only recognises
 * "TPYE"; both are modelled as written, and the lemmas below say exactly
 * what a reader makes of a writer's output.  Text is modelled as bytes; the
 * lossy UTF-8 decoding of each line is not modelled.
 */
module RawMsg {
  import opened Wrappers
  import opened Text
  import Judge

  type Bytes = seq<byte>
  type KeyValue = (Bytes, Bytes)

  const TYPE: Bytes := [84, 89, 80, 69]    // "TYPE", the key the writer uses
  const TPYE: Bytes := [84, 80, 89, 69]    // "TPYE", the key the reader looks for
  const DATA: Bytes := [68, 65, 84, 65]    // "DATA"
  const NO_TYPE: string := "cannot parse raw msg, field 'TYPE' not found"

  /** A `Body` as a value: its type, its fields in insertion order, its optional raw data. */
  datatype BodyValue = BodyValue(typ: Bytes, fields: seq<KeyValue>, data: Option<Bytes>)

  predicate Space(b: byte)
  {
    IsSpace(b)
  }

  // ------------------------------------------------------------- reading

  /**
   * One line, its '\n' included, as key and value: cut at the first space
   * (a line with no space has an empty value), both halves trimmed.
   * `SplitLineIsSplitOnce` states it with the general text operations.
   */
  function SplitLine(line: Bytes): KeyValue
  {
    match SpaceAt(line, 0)
    case None => (TrimBack(TrimFront(line)), [])
    case Some(k) => (TrimBack(TrimFront(line[..k])), TrimBack(TrimFront(line[k + 1..])))
  }

  /** The first space at or after `from`. */
  function SpaceAt(line: Bytes, from: nat): (r: Option<nat>)
    ensures r.Some? ==> from <= r.value < |line|
    decreases |line| - from
  {
    if from >= |line| then None else if line[from] == SPACE then Some(from) else SpaceAt(line, from + 1)
  }

  /** White space dropped from the front. */
  function TrimFront(s: Bytes): Bytes
    decreases |s|
  {
    if |s| > 0 && Space(s[0]) then TrimFront(s[1..]) else s
  }

  /** White space dropped from the back. */
  function TrimBack(s: Bytes): Bytes
    decreases |s|
  {
    if |s| > 0 && Space(s[|s| - 1]) then TrimBack(s[..|s| - 1]) else s
  }

  lemma {:induction false} SpaceAtFrom(line: Bytes, from: nat)
    requires from <= |line| && SPACE !in line[..from]
    ensures SpaceAt(line, from) == IndexOf(line, SPACE)
    decreases |line| - from
  {
    if from < |line| && line[from] != SPACE {
      assert line[..from + 1] == line[..from] + [line[from]];
      SpaceAtFrom(line, from + 1);
    } else if from == |line| {
      assert line[..from] == line;
    }
  }

  lemma {:induction false} TrimFrontIsTrimStart(s: Bytes)
    ensures TrimFront(s) == TrimStart(s, Space)
    decreases |s|
  {
    if |s| > 0 && Space(s[0]) {
      TrimFrontIsTrimStart(s[1..]);
    }
  }

  lemma {:induction false} TrimBackIsTrimEnd(s: Bytes)
    ensures TrimBack(s) == TrimEnd(s, Space)
    decreases |s|
  {
    if |s| > 0 && Space(s[|s| - 1]) {
      TrimBackIsTrimEnd(s[..|s| - 1]);
    }
  }

  lemma TrimBytesIsTrim(s: Bytes)
    ensures TrimBack(TrimFront(s)) == Trim(s, Space)
  {
    TrimFrontIsTrimStart(s);
    TrimBackIsTrimEnd(TrimStart(s, Space));
  }

  /** `SplitLine` is the cut at the first space followed by `trim` of both halves; the halves come out trimmed. */
  lemma SplitLineIsSplitOnce(line: Bytes)
    ensures var parts := match SplitOnce(line, SPACE) case Some(p) => p case None => (line, []);
      SplitLine(line) == (Trim(parts.0, Space), Trim(parts.1, Space))
    ensures Trimmed(SplitLine(line).0, Space) && Trimmed(SplitLine(line).1, Space)
    ensures SPACE !in line ==> SplitLine(line).1 == []
  {
    SpaceAtFrom(line, 0);
    match SpaceAt(line, 0)
    case None =>
      TrimBytesIsTrim(line);
    case Some(k) =>
      TrimBytesIsTrim(line[..k]);
      TrimBytesIsTrim(line[k + 1..]);
  }

  /** The type after reading a line other than DATA: a TPYE line sets it. */
  function StepType(kv: KeyValue, typ: Option<Bytes>): Option<Bytes>
  {
    if kv.0 == TPYE then Some(kv.1) else typ
  }

  /** The fields after reading a line other than DATA: any line but TPYE is appended. */
  function StepFields(kv: KeyValue, fields: seq<KeyValue>): seq<KeyValue>
  {
    if kv.0 == TPYE then fields else fields + [kv]
  }

  /** What the parse has gathered: the type (if a TPYE line was seen), the other fields, the data. */
  datatype Parsed = Parsed(typ: Option<Bytes>, fields: seq<KeyValue>, data: Option<Bytes>)

  /**
   * The parse of the lines left in `buf`, given the type and fields found so
   * far: only '\n'-terminated lines are read; a DATA line ends the parse and
   * hands over every remaining byte; a TPYE line sets the type; any other
   * line is appended as a field.
   */
  function Scan(buf: Bytes, typ: Option<Bytes>, fields: seq<KeyValue>): Parsed
    decreases |buf|
  {
    match LineEnd(buf, 0)
    case None => Parsed(typ, fields, None)
    case Some(i) =>
      var kv := SplitLine(buf[..i + 1]);
      if kv.0 == DATA then Parsed(typ, fields, Some(buf[i + 1..]))
      else Scan(buf[i + 1..], StepType(kv, typ), StepFields(kv, fields))
  }

  /** The position of the first newline at or after `from` (`position` on the bytes). */
  function LineEnd(buf: Bytes, from: nat): (r: Option<nat>)
    ensures r.Some? ==> from <= r.value < |buf|
    decreases |buf| - from
  {
    if from >= |buf| then None else if buf[from] == NL then Some(from) else LineEnd(buf, from + 1)
  }

  lemma {:induction false} LineEndFrom(buf: Bytes, from: nat)
    requires from <= |buf| && NL !in buf[..from]
    ensures LineEnd(buf, from) == IndexOf(buf, NL)
    decreases |buf| - from
  {
    if from < |buf| && buf[from] != NL {
      assert buf[..from + 1] == buf[..from] + [buf[from]];
      LineEndFrom(buf, from + 1);
    }
  }

  /** The search finds the first newline. */
  lemma LineEndIsIndexOf(buf: Bytes)
    ensures LineEnd(buf, 0) == IndexOf(buf, NL)
  {
    LineEndFrom(buf, 0);
  }

  lemma LineEndAfter(pre: Bytes, rest: Bytes)
    requires NL !in pre
    ensures LineEnd(pre + [NL] + rest, 0) == Some(|pre|)
    ensures (pre + [NL] + rest)[..|pre| + 1] == pre + [NL] && (pre + [NL] + rest)[|pre| + 1..] == rest
  {
    IndexOfAfter(pre, NL, rest);
    LineEndIsIndexOf(pre + [NL] + rest);
  }

  /** `Body::try_from`: the gathered body, or the error when no TPYE line was seen. */
  function Decode(buf: Bytes): (r: Result<BodyValue, string>)
    ensures r.Failure? ==> r.error == NO_TYPE
  {
    var p := Scan(buf, None, []);
    if p.typ.None? then Failure(NO_TYPE) else Success(BodyValue(p.typ.value, p.fields, p.data))
  }

  /** `Body::try_from` as the loop that advances through the buffer line by line. */
  method TryFrom(buf: Bytes) returns (r: Result<BodyValue, string>)
    ensures r == Decode(buf)
  {
    var rest := buf;
    var typ: Option<Bytes> := None;
    var fields: seq<KeyValue> := [];
    var data: Option<Bytes> := None;
    while true
      invariant Scan(rest, typ, fields) == Scan(buf, None, [])
      decreases |rest|
    {
      var pos := LineEnd(rest, 0);
      if pos.None? {
        data := None;
        break;
      }
      var line := rest[..pos.value + 1];
      var kv := SplitLine(line);
      rest := rest[pos.value + 1..];
      if kv.0 == DATA {
        data := Some(rest);
        assert Parsed(typ, fields, data) == Scan(buf, None, []);
        break;
      } else if kv.0 == TPYE {
        typ := Some(kv.1);
      } else {
        fields := fields + [kv];
      }
    }
    assert Parsed(typ, fields, data) == Scan(buf, None, []);
    if typ.None? {
      return Failure(NO_TYPE);
    }
    return Success(BodyValue(typ.value, fields, data));
  }

  // ------------------------------------------------------------- writing

  /** "k v\n". */
  function Line(key: Bytes, value: Bytes): Bytes
  {
    key + [SPACE] + value + [NL]
  }

  /** One line per field, in order. */
  function FieldLines(fs: seq<KeyValue>): Bytes
  {
    if fs == [] then [] else Line(fs[0].0, fs[0].1) + FieldLines(fs[1..])
  }

  /** "DATA\n" and the raw bytes, when there are data. */
  function DataPart(data: Option<Bytes>): Bytes
  {
    match data
    case Some(d) => DATA + [NL] + d
    case None => []
  }

  /** The body written with `typeKey` naming its type line. */
  function EncodeWith(typeKey: Bytes, b: BodyValue): Bytes
  {
    Line(typeKey, b.typ) + FieldLines(b.fields) + DataPart(b.data)
  }

  /** `Body::into_bytes`: "TYPE t\n", "k v\n" per field in insertion order, then "DATA\n" and the data. */
  function Encode(b: BodyValue): Bytes
  {
    EncodeWith(TYPE, b)
  }

  lemma {:induction false} FieldLinesSnoc(fs: seq<KeyValue>, f: KeyValue)
    ensures FieldLines(fs + [f]) == FieldLines(fs) + Line(f.0, f.1)
    decreases |fs|
  {
    if fs == [] {
      assert fs + [f] == [f];
    } else {
      assert (fs + [f])[1..] == fs[1..] + [f];
      FieldLinesSnoc(fs[1..], f);
    }
  }

  /** The body as `raw_msg::Body` holds it while a message is being built. */
  class Body {
    var typ: Bytes
    var fields: seq<KeyValue>
    var data: Option<Bytes>

    function Value(): BodyValue
      reads this
    {
      BodyValue(typ, fields, data)
    }

    /** `Body::new`: the type, no fields, no data. */
    constructor(typ: Bytes)
      ensures Value() == BodyValue(typ, [], None)
    {
      this.typ := typ;
      fields := [];
      data := None;
    }

    /** `add_field`: the field goes last. */
    method AddField(name: Bytes, value: Bytes)
      modifies this
      ensures Value() == old(Value()).(fields := old(fields) + [(name, value)])
    {
      fields := fields + [(name, value)];
    }

    /** `add_fields`: the fields go last, in the order given. */
    method AddFields(fs: seq<KeyValue>)
      modifies this
      ensures Value() == old(Value()).(fields := old(fields) + fs)
    {
      var i := 0;
      while i < |fs|
        invariant 0 <= i <= |fs|
        invariant Value() == old(Value()).(fields := old(fields) + fs[..i])
      {
        assert fs[..i + 1] == fs[..i] + [fs[i]];
        AddField(fs[i].0, fs[i].1);
        i := i + 1;
      }
      assert fs[..|fs|] == fs;
    }

    /** `set_data`: replaces any data set before. */
    method SetData(d: Bytes)
      modifies this
      ensures Value() == old(Value()).(data := Some(d))
    {
      data := Some(d);
    }

    /** `into_bytes`, appending line by line. */
    method IntoBytes() returns (buf: Bytes)
      ensures buf == Encode(Value())
    {
      buf := Line(TYPE, typ);
      for i := 0 to |fields|
        invariant buf == Line(TYPE, typ) + FieldLines(fields[..i])
      {
        FieldLinesSnoc(fields[..i], fields[i]);
        assert fields[..i + 1] == fields[..i] + [fields[i]];
        buf := buf + Line(fields[i].0, fields[i].1);
      }
      assert fields[..|fields|] == fields;
      if data.Some? {
        buf := buf + (DATA + [NL] + data.value);
      }
    }
  }

  // ------------------------------------------------------------- reading what was written

  /** A key that survives a write and a read: no white space at all (so no space and no newline). */
  predicate KeyOk(k: Bytes)
  {
    forall i :: 0 <= i < |k| ==> !Space(k[i])
  }

  /** A value that survives a write and a read: no newline and no white space at either end. */
  predicate ValueOk(v: Bytes)
  {
    NL !in v && Trimmed(v, Space)
  }

  predicate FieldOk(f: KeyValue)
  {
    KeyOk(f.0) && f.0 != DATA && ValueOk(f.1)
  }

  /** A body every line of which reads back as it was written. */
  predicate WellFormed(b: BodyValue)
  {
    ValueOk(b.typ) && forall i :: 0 <= i < |b.fields| ==> FieldOk(b.fields[i])
  }

  /** The type the reader ends up with after the fields `fs`: the value of the last TPYE field, if any. */
  function TypeSeen(fs: seq<KeyValue>, typ: Option<Bytes>): Option<Bytes>
  {
    if fs == [] then typ else TypeSeen(fs[1..], StepType(fs[0], typ))
  }

  /** The fields the reader keeps: all but the TPYE ones, in order. */
  function Kept(fs: seq<KeyValue>): seq<KeyValue>
  {
    if fs == [] then [] else (if fs[0].0 == TPYE then [] else [fs[0]]) + Kept(fs[1..])
  }

  lemma KeyTrims(k: Bytes)
    requires KeyOk(k)
    ensures TrimBack(TrimFront(k)) == k
  {
    TrimBytesIsTrim(k);
    TrimOfTrimmed(k, Space);
  }

  lemma ValueTrims(v: Bytes)
    requires ValueOk(v)
    ensures TrimBack(TrimFront(v + [NL])) == v
  {
    TrimBytesIsTrim(v + [NL]);
    TrimPadded([], v, [NL], Space);
    assert [] + v + [NL] == v + [NL];
  }

  /** A written line splits back into its key and value. */
  lemma SplitLineOf(k: Bytes, v: Bytes)
    requires KeyOk(k) && ValueOk(v)
    ensures SplitLine(Line(k, v)) == (k, v)
  {
    assert SPACE !in k by {
      forall i | 0 <= i < |k| ensures k[i] != SPACE {
        assert !Space(k[i]);
      }
    }
    var line := Line(k, v);
    assert line == k + [SPACE] + (v + [NL]);
    IndexOfAfter(k, SPACE, v + [NL]);
    SpaceAtFrom(line, 0);
    assert line[..|k|] == k;
    KeyTrims(k);
    ValueTrims(v);
  }

  /** Reading one written line: a TPYE line sets the type, any other is kept as a field. */
  lemma ScanLine(k: Bytes, v: Bytes, rest: Bytes, typ: Option<Bytes>, fields: seq<KeyValue>)
    requires FieldOk((k, v))
    ensures Scan(Line(k, v) + rest, typ, fields) == Scan(rest, StepType((k, v), typ), StepFields((k, v), fields))
  {
    var pre := k + [SPACE] + v;
    assert NL !in pre by {
      forall i | 0 <= i < |pre| ensures pre[i] != NL {
        if i < |k| {
          assert !Space(k[i]);
        }
      }
    }
    assert Line(k, v) + rest == pre + [NL] + rest;
    LineEndAfter(pre, rest);
    SplitLineOf(k, v);
  }

  lemma KeptStep(fs: seq<KeyValue>, acc: seq<KeyValue>)
    requires fs != []
    ensures StepFields(fs[0], acc) + Kept(fs[1..]) == acc + Kept(fs)
  {
    if fs[0].0 != TPYE {
      assert Kept(fs) == [fs[0]] + Kept(fs[1..]);
    }
  }

  lemma ScanFirstField(fs: seq<KeyValue>, rest: Bytes, typ: Option<Bytes>, acc: seq<KeyValue>)
    requires fs != [] && FieldOk(fs[0])
    ensures Scan(FieldLines(fs) + rest, typ, acc) ==
      Scan(FieldLines(fs[1..]) + rest, StepType(fs[0], typ), StepFields(fs[0], acc))
  {
    assert FieldLines(fs) + rest == Line(fs[0].0, fs[0].1) + (FieldLines(fs[1..]) + rest);
    ScanLine(fs[0].0, fs[0].1, FieldLines(fs[1..]) + rest, typ, acc);
  }

  lemma {:induction false} ScanFieldLines(fs: seq<KeyValue>, rest: Bytes, typ: Option<Bytes>, acc: seq<KeyValue>)
    requires forall i :: 0 <= i < |fs| ==> FieldOk(fs[i])
    ensures Scan(FieldLines(fs) + rest, typ, acc) == Scan(rest, TypeSeen(fs, typ), acc + Kept(fs))
    decreases |fs|
  {
    if fs == [] {
      assert FieldLines(fs) + rest == rest && acc + Kept(fs) == acc;
    } else {
      var f, tl := fs[0], fs[1..];
      ScanFirstField(fs, rest, typ, acc);
      ScanFieldLines(tl, rest, StepType(f, typ), StepFields(f, acc));
      KeptStep(fs, acc);
    }
  }

  /** A line whose key reads as DATA ends the parse: every byte after it is the data, verbatim. */
  lemma DataLineTakesRest(pre: Bytes, rest: Bytes, typ: Option<Bytes>, acc: seq<KeyValue>)
    requires NL !in pre && SplitLine(pre + [NL]).0 == DATA
    ensures Scan(pre + [NL] + rest, typ, acc) == Parsed(typ, acc, Some(rest))
  {
    LineEndAfter(pre, rest);
  }

  lemma ScanDataPart(data: Option<Bytes>, typ: Option<Bytes>, acc: seq<KeyValue>)
    ensures Scan(DataPart(data), typ, acc) == Parsed(typ, acc, data)
  {
    if data.Some? {
      DataHeaderKey();
      DataLineTakesRest(DATA, data.value, typ, acc);
    }
  }

  /** The line that opens the data part reads as the key DATA. */
  lemma DataHeaderKey()
    ensures NL !in DATA && SplitLine(DATA + [NL]).0 == DATA
  {
    assert SPACE !in DATA + [NL];
    SplitLineIsSplitOnce(DATA + [NL]);
    assert Trimmed(DATA, Space);
    TrimPadded([], DATA, [NL], Space);
    assert [] + DATA + [NL] == DATA + [NL];
  }

  /** Both type keys are well-formed keys, distinct from DATA and from each other. */
  lemma TypeKeysOk()
    ensures KeyOk(TYPE) && TYPE != DATA && KeyOk(TPYE) && TPYE != DATA && TYPE != TPYE
  {
  }

  lemma ScanTypeLine(typeKey: Bytes, b: BodyValue)
    requires FieldOk((typeKey, b.typ))
    ensures Scan(EncodeWith(typeKey, b), None, []) ==
      Scan(FieldLines(b.fields) + DataPart(b.data), StepType((typeKey, b.typ), None), StepFields((typeKey, b.typ), []))
  {
    var tail := FieldLines(b.fields) + DataPart(b.data);
    assert EncodeWith(typeKey, b) == Line(typeKey, b.typ) + tail;
    ScanLine(typeKey, b.typ, tail, None, []);
  }

  /** What the reader makes of a well-formed body written with `typeKey` on its type line. */
  lemma ScanEncoded(typeKey: Bytes, b: BodyValue)
    requires WellFormed(b) && FieldOk((typeKey, b.typ))
    ensures Scan(EncodeWith(typeKey, b), None, []) ==
      Parsed(TypeSeen(b.fields, StepType((typeKey, b.typ), None)), StepFields((typeKey, b.typ), []) + Kept(b.fields), b.data)
  {
    var typ := StepType((typeKey, b.typ), None);
    var acc := StepFields((typeKey, b.typ), []);
    ScanTypeLine(typeKey, b);
    ScanFieldLines(b.fields, DataPart(b.data), typ, acc);
    ScanDataPart(b.data, TypeSeen(b.fields, typ), acc + Kept(b.fields));
  }

  lemma {:induction false} TypeSeenSome(fs: seq<KeyValue>, typ: Option<Bytes>)
    ensures TypeSeen(fs, typ).Some? <==> typ.Some? || exists i :: 0 <= i < |fs| && fs[i].0 == TPYE
    decreases |fs|
  {
    if fs != [] {
      TypeSeenSome(fs[1..], StepType(fs[0], typ));
      if exists i :: 0 <= i < |fs[1..]| && fs[1..][i].0 == TPYE {
        var i :| 0 <= i < |fs[1..]| && fs[1..][i].0 == TPYE;
        assert fs[i + 1].0 == TPYE;
      }
      if exists i :: 0 <= i < |fs| && fs[i].0 == TPYE {
        var i :| 0 <= i < |fs| && fs[i].0 == TPYE;
        if i > 0 {
          assert fs[1..][i - 1].0 == TPYE;
        }
      }
    }
  }

  lemma {:induction false} NoTpyeField(fs: seq<KeyValue>, typ: Option<Bytes>)
    requires forall i :: 0 <= i < |fs| ==> fs[i].0 != TPYE
    ensures TypeSeen(fs, typ) == typ && Kept(fs) == fs
    decreases |fs|
  {
    if fs != [] {
      assert fs[0].0 != TPYE;
      NoTpyeField(fs[1..], typ);
      assert [fs[0]] + fs[1..] == fs;
    }
  }

  /** The reader's result on a well-formed body written with the writer's TYPE key. */
  lemma ScanEncodedAsWritten(b: BodyValue)
    requires WellFormed(b)
    ensures Scan(Encode(b), None, []) == Parsed(TypeSeen(b.fields, None), [(TYPE, b.typ)] + Kept(b.fields), b.data)
  {
    TypeKeysOk();
    ScanEncoded(TYPE, b);
    assert StepType((TYPE, b.typ), None) == None;
    assert StepFields((TYPE, b.typ), []) == [(TYPE, b.typ)];
  }

  /**
   * Reading what `into_bytes` wrote: the TYPE line comes back as an ordinary
   * first field, so the read succeeds exactly when the body carries a field
   * literally named TPYE, whose last value then becomes the type.
   */
  lemma DecodeEncode(b: BodyValue)
    requires WellFormed(b)
    ensures Decode(Encode(b)).Success? <==> exists i :: 0 <= i < |b.fields| && b.fields[i].0 == TPYE
    ensures Decode(Encode(b)) == match TypeSeen(b.fields, None)
      case None => Failure(NO_TYPE)
      case Some(t) => Success(BodyValue(t, [(TYPE, b.typ)] + Kept(b.fields), b.data))
  {
    ScanEncodedAsWritten(b);
    TypeSeenSome(b.fields, None);
  }

  /** In particular a body without a TPYE field never reads back: its type turns up as a field named TYPE. */
  lemma EncodedTypeReadAsField(b: BodyValue)
    requires WellFormed(b) && forall i :: 0 <= i < |b.fields| ==> b.fields[i].0 != TPYE
    ensures Decode(Encode(b)) == Failure(NO_TYPE)
    ensures Scan(Encode(b), None, []).fields == [(TYPE, b.typ)] + b.fields
    ensures Scan(Encode(b), None, []).data == b.data
  {
    ScanEncodedAsWritten(b);
    NoTpyeField(b.fields, None);
  }

  /** Written with the key the reader expects, every well-formed body reads back unchanged. */
  lemma ReaderFormatRoundTrip(b: BodyValue)
    requires WellFormed(b) && forall i :: 0 <= i < |b.fields| ==> b.fields[i].0 != TPYE
    ensures Decode(EncodeWith(TPYE, b)) == Success(b)
  {
    TypeKeysOk();
    ScanEncoded(TPYE, b);
    assert StepType((TPYE, b.typ), None) == Some(b.typ);
    assert StepFields((TPYE, b.typ), []) == [];
    NoTpyeField(b.fields, Some(b.typ));
    assert [] + b.fields == b.fields;
  }

  lemma LineEndPrefix(a: Bytes, b: Bytes)
    requires NL in a
    ensures LineEnd(a + b, 0) == LineEnd(a, 0)
  {
    LineEndIsIndexOf(a);
    LineEndIsIndexOf(a + b);
    var i := IndexOf(a, NL).value;
    assert (a + b)[i] == NL;
    assert (a + b)[..i] == a[..i];
  }

  /** The first line of `lines + tail` is the first line of `lines` when `lines` holds a newline. */
  lemma ScanAppendAt(lines: Bytes, tail: Bytes, i: nat)
    requires LineEnd(lines, 0) == Some(i)
    ensures LineEnd(lines + tail, 0) == Some(i)
    ensures (lines + tail)[..i + 1] == lines[..i + 1]
    ensures (lines + tail)[i + 1..] == lines[i + 1..] + tail
  {
    LineEndIsIndexOf(lines);
    LineEndPrefix(lines, tail);
  }

  /** The parse once `tail` follows the buffer: nothing changes, except that data taken by a DATA line extend to the end. */
  function WithTail(p: Parsed, tail: Bytes): Parsed
  {
    match p.data
    case None => p
    case Some(d) => p.(data := Some(d + tail))
  }

  /**
   * Bytes after the last newline are never read as lines: appended to a
   * buffer of complete lines, a fragment with no newline changes nothing,
   * unless a DATA line came first, and then it only extends the data.
   */
  lemma {:induction false} UnterminatedIgnored(lines: Bytes, tail: Bytes, typ: Option<Bytes>, acc: seq<KeyValue>)
    requires NL !in tail && Complete(lines)
    ensures Scan(lines + tail, typ, acc) == WithTail(Scan(lines, typ, acc), tail)
    decreases |lines|
  {
    if lines == [] {
      assert lines + tail == tail;
      LineEndIsIndexOf(tail);
    } else {
      assert lines[|lines| - 1] in lines;
      LineEndIsIndexOf(lines);
      var i := LineEnd(lines, 0).value;
      ScanAppendAt(lines, tail, i);
      var kv := SplitLine(lines[..i + 1]);
      var rest := lines[i + 1..];
      if kv.0 == DATA {
        ScanStepData(lines, i, typ, acc);
        ScanStepData(lines + tail, i, typ, acc);
      } else {
        ScanStep(lines, i, typ, acc);
        ScanStep(lines + tail, i, typ, acc);
        CompleteSuffix(lines, i + 1);
        UnterminatedIgnored(rest, tail, StepType(kv, typ), StepFields(kv, acc));
      }
    }
  }

  /** A buffer of complete lines: empty, or ending with a newline. */
  predicate Complete(lines: Bytes)
  {
    lines == [] || lines[|lines| - 1] == NL
  }

  lemma CompleteSuffix(lines: Bytes, k: nat)
    requires Complete(lines) && k <= |lines|
    ensures Complete(lines[k..])
  {
    if k < |lines| {
      assert lines[k..][|lines| - k - 1] == lines[|lines| - 1];
    }
  }

  /** `Scan` with its first line ending at `i`, one line unfolded. */
  lemma ScanStep(lines: Bytes, i: nat, typ: Option<Bytes>, acc: seq<KeyValue>)
    requires LineEnd(lines, 0) == Some(i)
    ensures SplitLine(lines[..i + 1]).0 != DATA ==>
      Scan(lines, typ, acc) == Scan(lines[i + 1..], StepType(SplitLine(lines[..i + 1]), typ), StepFields(SplitLine(lines[..i + 1]), acc))
  {
  }

  /** `Scan` with its first line ending at `i`, that line being DATA. */
  lemma ScanStepData(lines: Bytes, i: nat, typ: Option<Bytes>, acc: seq<KeyValue>)
    requires LineEnd(lines, 0) == Some(i)
    ensures SplitLine(lines[..i + 1]).0 == DATA ==> Scan(lines, typ, acc) == Parsed(typ, acc, Some(lines[i + 1..]))
  {
  }

  /** In particular, without a DATA line the data stay absent whatever unterminated bytes follow. */
  lemma UnterminatedLeavesNoData(lines: Bytes, tail: Bytes)
    requires NL !in tail && Complete(lines)
    requires Scan(lines, None, []).data.None?
    ensures Decode(lines + tail) == Decode(lines)
    ensures Scan(lines + tail, None, []).data.None?
  {
    UnterminatedIgnored(lines, tail, None, []);
  }

  // ------------------------------------------------------------- the field index

  /** `raw_msg::Msg`: the body and, for each key, the position it maps to. */
  datatype Msg = Msg(index: map<Bytes, nat>, body: BodyValue)

  /** The index `enumerate().map(..).collect()` builds: each key is inserted in order, later positions overwriting earlier ones. */
  function Index(fields: seq<KeyValue>): (m: map<Bytes, nat>)
    ensures forall k :: k in m ==> m[k] < |fields| && fields[m[k]].0 == k
    ensures forall i :: 0 <= i < |fields| ==> fields[i].0 in m
    decreases |fields|
  {
    if fields == [] then map[]
    else
      var n := |fields| - 1;
      var m := Index(fields[..n]);
      assert forall i :: 0 <= i < n ==> fields[..n][i] == fields[i];
      m[fields[n].0 := n]
  }

  /** `Msg::from`. */
  function FromBody(b: BodyValue): Msg
  {
    Msg(Index(b.fields), b)
  }

  /** Position `i` holds the last field keyed `name`. */
  predicate IsLast(fields: seq<KeyValue>, name: Bytes, i: nat)
  {
    i < |fields| && fields[i].0 == name && forall j :: i < j < |fields| ==> fields[j].0 != name
  }

  /** `Msg::field`: the value at the indexed position. */
  function Field(m: Msg, name: Bytes): (r: Option<Bytes>)
    requires forall k :: k in m.index ==> m.index[k] < |m.body.fields|
    ensures r.Some? <==> name in m.index
  {
    if name in m.index then Some(m.body.fields[m.index[name]].1) else None
  }

  /** `Msg::field_eq`: false when the field is absent. */
  function FieldEq(m: Msg, name: Bytes, value: Bytes): (r: bool)
    requires forall k :: k in m.index ==> m.index[k] < |m.body.fields|
    ensures r ==> Field(m, name).Some?
  {
    match Field(m, name)
    case None => false
    case Some(v) => v == value
  }

  lemma {:induction false} IndexIsLast(fields: seq<KeyValue>, name: Bytes)
    ensures name in Index(fields) ==> IsLast(fields, name, Index(fields)[name])
    decreases |fields|
  {
    if fields != [] {
      var n := |fields| - 1;
      var m := Index(fields[..n]);
      assert Index(fields) == m[fields[n].0 := n];
      IndexIsLast(fields[..n], name);
      if fields[n].0 == name {
        assert Index(fields)[name] == n;
      } else if name in m {
        var i := m[name];
        assert Index(fields)[name] == i;
        assert fields[..n][i] == fields[i];
        forall j | i < j < |fields| ensures fields[j].0 != name {
          if j < n {
            assert fields[..n][j] == fields[j];
          }
        }
      }
    }
  }

  /**
   * A message read from a body answers `field(name)` with the value of the
   * last field keyed `name`, or None when there is none; `field_eq` holds
   * exactly when that value is the one asked about.
   */
  lemma FieldOfBody(b: BodyValue, name: Bytes, value: Bytes)
    ensures Field(FromBody(b), name).None? <==> forall i :: 0 <= i < |b.fields| ==> b.fields[i].0 != name
    ensures forall i: nat :: IsLast(b.fields, name, i) ==> Field(FromBody(b), name) == Some(b.fields[i].1)
    ensures FieldEq(FromBody(b), name, value) <==> exists i: nat :: IsLast(b.fields, name, i) && b.fields[i].1 == value
  {
    IndexIsLast(b.fields, name);
    if name in Index(b.fields) {
      var k := Index(b.fields)[name];
      assert IsLast(b.fields, name, k);
      forall i: nat | IsLast(b.fields, name, i) ensures i == k {
      }
    }
  }

  // ------------------------------------------------------------- receiving

  const AUTH_VERDICT: Bytes := Ascii("AUTH_VERDICT")
  const AUTH_CHALLENGE: Bytes := Ascii("AUTH_CHALLENGE")
  const START: Bytes := Ascii("START")
  const STOP: Bytes := Ascii("STOP")
  const CLOSE: Bytes := Ascii("CLOSE")
  const VERDICT: Bytes := Ascii("VERDICT")
  const APPROVED: Bytes := Ascii("APPROVED")

  /** The messages `recv` hands to the invoker; a challenge's payload is kept as bytes. */
  datatype Income = AuthVerdict(approved: bool) | Challenge(data: Bytes) | Start(data: Bytes) | Stop | Close

  /**
   * What `recv` makes of one frame: None for a frame it logs and skips (one
   * that does not parse, an unknown type, a START or AUTH_CHALLENGE without
   * data).
   */
  function Classify(frame: Bytes): (r: Option<Income>)
    ensures Decode(frame).Failure? ==> r.None?
    ensures r.Some? && (r.value.Start? || r.value.Challenge?) ==> Decode(frame).value.data == Some(r.value.data)
  {
    match Decode(frame)
    case Failure(_) => None
    case Success(b) =>
      var m := FromBody(b);
      if b.typ == AUTH_VERDICT then Some(AuthVerdict(FieldEq(m, VERDICT, APPROVED)))
      else if b.typ == AUTH_CHALLENGE then (if b.data.None? then None else Some(Challenge(b.data.value)))
      else if b.typ == START then (if b.data.None? then None else Some(Start(b.data.value)))
      else if b.typ == STOP then Some(Stop)
      else if b.typ == CLOSE then Some(Close)
      else None
  }

  /** The frame a manager writes, in the reader's own format, for each message. */
  function ServerFrame(m: Income): Bytes
  {
    EncodeWith(TPYE, match m
      case AuthVerdict(a) => BodyValue(AUTH_VERDICT, [(VERDICT, if a then APPROVED else Ascii("DENIED"))], None)
      case Challenge(d) => BodyValue(AUTH_CHALLENGE, [], Some(d))
      case Start(d) => BodyValue(START, [], Some(d))
      case Stop => BodyValue(STOP, [], None)
      case Close => BodyValue(CLOSE, [], None))
  }

  lemma AsciiKeyOk(s: string)
    requires forall i :: 0 <= i < |s| ==> 'A' <= s[i] <= 'Z' || s[i] == '_'
    ensures KeyOk(Ascii(s)) && ValueOk(Ascii(s))
  {
    assert forall i :: 0 <= i < |s| ==> Ascii(s)[i] == s[i] as int;
  }

  /** Every message, written in the reader's format, is received as itself. */
  lemma ClassifyServerFrame(m: Income)
    ensures Classify(ServerFrame(m)) == Some(m)
  {
    match m
    case AuthVerdict(a) => ClassifyAuthVerdict(a);
    case Challenge(d) => ClassifyChallenge(d);
    case Start(d) => ClassifyStart(d);
    case Stop => ClassifyStop();
    case Close => ClassifyClose();
  }

  lemma ClassifyAuthVerdict(a: bool)
    ensures Classify(ServerFrame(AuthVerdict(a))) == Some(AuthVerdict(a))
  {
    AsciiKeyOk("AUTH_VERDICT");
    AsciiKeyOk("VERDICT");
    AsciiKeyOk("APPROVED");
    AsciiKeyOk("DENIED");
    assert VERDICT != TPYE && VERDICT != DATA;
    assert Ascii("DENIED") != APPROVED;
    var b := BodyValue(AUTH_VERDICT, [(VERDICT, if a then APPROVED else Ascii("DENIED"))], None);
    ReaderFormatRoundTrip(b);
    FieldOfBody(b, VERDICT, APPROVED);
    assert IsLast(b.fields, VERDICT, 0);
  }

  lemma ClassifyChallenge(d: Bytes)
    ensures Classify(ServerFrame(Challenge(d))) == Some(Challenge(d))
  {
    AsciiKeyOk("AUTH_CHALLENGE");
    ReaderFormatRoundTrip(BodyValue(AUTH_CHALLENGE, [], Some(d)));
  }

  lemma ClassifyStart(d: Bytes)
    ensures Classify(ServerFrame(Start(d))) == Some(Start(d))
  {
    AsciiKeyOk("START");
    ReaderFormatRoundTrip(BodyValue(START, [], Some(d)));
  }

  lemma ClassifyStop()
    ensures Classify(ServerFrame(Stop)) == Some(Stop)
  {
    AsciiKeyOk("STOP");
    ReaderFormatRoundTrip(BodyValue(STOP, [], None));
  }

  lemma ClassifyClose()
    ensures Classify(ServerFrame(Close)) == Some(Close)
  {
    AsciiKeyOk("CLOSE");
    assert START[1] != CLOSE[1];
    ReaderFormatRoundTrip(BodyValue(CLOSE, [], None));
  }

  /** The outcome of one `recv`: a message after `consumed` frames, a failed read, or still waiting for frames. */
  datatype Received = Received(msg: Income, consumed: nat) | ReadFailed(cause: string, consumed: nat) | Waiting

  /** What `recv` makes of one read: the read error, or the frame's classification. */
  function Outcome(read: Result<Bytes, string>): (r: Result<Option<Income>, string>)
    ensures read.Failure? <==> r.Failure?
    ensures read.Failure? ==> r.error == read.error
    ensures read.Success? ==> r.value == Classify(read.value)
  {
    match read
    case Failure(e) => Failure(e)
    case Success(frame) => Success(Classify(frame))
  }

  /** An outcome `recv` passes over: a frame that is not one of its messages. */
  predicate Skipped(o: Result<Option<Income>, string>)
  {
    o == Success(None)
  }

  /**
   * `recv` over the outcomes of the reads the socket delivers in turn:
   * skipped frames are passed over; the first frame that classifies, or the
   * first failed read (reported under "reading websocket messages"), ends
   * the call.
   */
  function NextMessage(outcomes: seq<Result<Option<Income>, string>>): (r: Received)
    ensures r.Received? ==>
      1 <= r.consumed <= |outcomes| && outcomes[r.consumed - 1] == Success(Some(r.msg))
    ensures r.ReadFailed? ==>
      1 <= r.consumed <= |outcomes| && outcomes[r.consumed - 1] == Failure(r.cause)
    ensures !r.Waiting? ==> forall i :: 0 <= i < r.consumed - 1 ==> Skipped(outcomes[i])
    ensures r.Waiting? ==> forall i :: 0 <= i < |outcomes| ==> Skipped(outcomes[i])
    decreases |outcomes|
  {
    if outcomes == [] then Waiting
    else
      match outcomes[0]
      case Failure(e) => ReadFailed(e, 1)
      case Success(Some(m)) => Received(m, 1)
      case Success(None) =>
        match NextMessage(outcomes[1..])
        case Received(m, k) => Received(m, k + 1)
        case ReadFailed(e, k) => ReadFailed(e, k + 1)
        case Waiting => Waiting
  }

  /** The outcomes of a run of reads. */
  function Outcomes(frames: seq<Result<Bytes, string>>): (r: seq<Result<Option<Income>, string>>)
    ensures |r| == |frames| && forall i :: 0 <= i < |frames| ==> r[i] == Outcome(frames[i])
  {
    seq(|frames|, i requires 0 <= i < |frames| => Outcome(frames[i]))
  }

  lemma {:induction false} NextMessageAfterSkips(outcomes: seq<Result<Option<Income>, string>>, n: nat)
    requires n <= |outcomes| && forall i :: 0 <= i < n ==> Skipped(outcomes[i])
    ensures NextMessage(outcomes) == match NextMessage(outcomes[n..])
      case Received(m, k) => Received(m, k + n)
      case ReadFailed(e, k) => ReadFailed(e, k + n)
      case Waiting => Waiting
    decreases n
  {
    if n > 0 {
      assert Skipped(outcomes[0]);
      assert outcomes[1..][n - 1..] == outcomes[n..];
      NextMessageAfterSkips(outcomes[1..], n - 1);
    }
  }

  /** `recv`'s loop: read a frame, skip it or return its message. */
  method Recv(frames: seq<Result<Bytes, string>>) returns (r: Received)
    ensures r == NextMessage(Outcomes(frames))
  {
    ghost var outcomes := Outcomes(frames);
    var i := 0;
    while i < |frames|
      invariant 0 <= i <= |frames|
      invariant forall j :: 0 <= j < i ==> Skipped(outcomes[j])
    {
      match frames[i] {
        case Failure(e) =>
          NextMessageAfterSkips(outcomes, i);
          return ReadFailed(e, i + 1);
        case Success(frame) =>
          var m := Classify(frame);
          if m.Some? {
            NextMessageAfterSkips(outcomes, i);
            return Received(m.value, i + 1);
          }
      }
      i := i + 1;
    }
    NextMessageAfterSkips(outcomes, i);
    return Waiting;
  }

  // ------------------------------------------------------------- sending

  datatype FullVerdict = Ok(score: nat, groupsScore: seq<nat>) | Ce(msg: string) | Te(msg: string)

  /**
   * The messages `send` writes.  A time is the text `f64`'s `Display`
   * produces; a token is the 128-bit value of the UUID.
   */
  datatype Outgo =
    | Token(token: nat, name: string)
    | FullVerdictMsg(full: FullVerdict)
    | TestVerdict(testId: nat, verdict: Judge.Verdict, time: string, memory: nat, data: Bytes)
    | Exited(code: byte, message: string)
    | Error(msg: string)
    | OpError(msg: string)
    | ChallengeSolution(data: Bytes)

  function Decimal(n: nat): Bytes
  {
    Ascii(NatToString(n))
  }

  /** Every group score in decimal followed by one space. */
  function GroupsText(scores: seq<nat>): Bytes
  {
    if scores == [] then [] else Decimal(scores[0]) + [SPACE] + GroupsText(scores[1..])
  }

  /** The type and fields `send` gives each message, before `into_bytes`. */
  function SendBody(m: Outgo): BodyValue
  {
    match m
    case FullVerdictMsg(v) =>
      var fs := match v
        case Ok(score, groups) =>
          [(Ascii("NAME"), Ascii("OK")), (Ascii("SUM"), Decimal(score)), (Ascii("GROUPS"), GroupsText(groups))]
        case Ce(msg) => [(Ascii("NAME"), Ascii("CE")), (Ascii("MESSAGE"), Utf8(msg))]
        case Te(msg) => [(Ascii("NAME"), Ascii("TE")), (Ascii("MESSAGE"), Utf8(msg))];
      BodyValue(Ascii("VERDICT"), fs, None)
    case TestVerdict(id, verdict, time, memory, data) =>
      BodyValue(Ascii("TEST"), [(Ascii("ID"), Decimal(id)), (Ascii("VERDCIT"), Ascii(Judge.Show(verdict))),
                                (Ascii("TIME"), Utf8(time)), (Ascii("MEMORY"), Decimal(memory))], Some(data))
    case Exited(code, message) =>
      BodyValue(Ascii("EXITED"), [(Ascii("CODE"), Decimal(code)), (Ascii("MESSAGE"), Utf8(message))], None)
    case Error(msg) => BodyValue(Ascii("ERROR"), [(Ascii("MESSAGE"), Utf8(msg))], None)
    case OpError(msg) => BodyValue(Ascii("OPERROR"), [(Ascii("MESSAGE"), Utf8(msg))], None)
    case Token(token, name) => BodyValue(Ascii("TOKEN"), [(Ascii("ID"), Decimal(token)), (Ascii("KEY"), Utf8(name))], None)
    case ChallengeSolution(data) => BodyValue(Ascii("AUTH"), [], Some(data))
  }

  /** `send`: the body built through `Body`'s methods, then written out. */
  method Send(m: Outgo) returns (frame: Bytes)
    ensures frame == Encode(SendBody(m))
  {
    var b := SendBody(m);
    var body := new Body(b.typ);
    body.AddFields(b.fields);
    assert [] + b.fields == b.fields;
    if b.data.Some? {
      body.SetData(b.data.value);
    }
    assert body.Value() == b;
    frame := body.IntoBytes();
  }

  /** No message `send` writes carries a TPYE field, so none of its frames parses when read back. */
  lemma SentFramesUnreadable(m: Outgo)
    requires WellFormed(SendBody(m))
    ensures Decode(Encode(SendBody(m))) == Failure(NO_TYPE)
  {
    SendKeys(m, SendBody(m).fields);
    EncodedTypeReadAsField(SendBody(m));
  }

  /** None of the keys `send` writes is "TPYE". */
  lemma SendKeys(m: Outgo, fs: seq<KeyValue>)
    requires fs == SendBody(m).fields
    ensures forall i :: 0 <= i < |fs| ==> fs[i].0 != TPYE
  {
    forall i | 0 <= i < |fs| ensures fs[i].0 != TPYE {
      assert fs[i].0[1] != TPYE[1] || |fs[i].0| != 4;
    }
  }

  /** A test verdict goes out under the key "VERDCIT": a reader asking for "VERDICT" finds nothing. */
  lemma TestVerdictKey(id: nat, verdict: Judge.Verdict, time: string, memory: nat, data: Bytes)
    ensures Field(FromBody(SendBody(TestVerdict(id, verdict, time, memory, data))), VERDICT) == None
    ensures Field(FromBody(SendBody(TestVerdict(id, verdict, time, memory, data))), Ascii("VERDCIT")) ==
      Some(Ascii(Judge.Show(verdict)))
  {
    VerdictUnderMisspeltKey(SendBody(TestVerdict(id, verdict, time, memory, data)));
  }

  /** A body whose keys are those of a test verdict: its second value sits under "VERDCIT", none under "VERDICT". */
  lemma VerdictUnderMisspeltKey(b: BodyValue)
    requires |b.fields| == 4
    requires b.fields[0].0 == Ascii("ID") && b.fields[1].0 == Ascii("VERDCIT")
    requires b.fields[2].0 == Ascii("TIME") && b.fields[3].0 == Ascii("MEMORY")
    ensures Field(FromBody(b), VERDICT) == None
    ensures Field(FromBody(b), Ascii("VERDCIT")) == Some(b.fields[1].1)
  {
    TestVerdictKeys(b.fields);
    FieldOfBody(b, VERDICT, []);
    FieldOfBody(b, Ascii("VERDCIT"), []);
    assert IsLast(b.fields, Ascii("VERDCIT"), 1);
  }

  /** The keys of a test verdict: only the second is "VERDCIT", and none is "VERDICT". */
  lemma TestVerdictKeys(fs: seq<KeyValue>)
    requires |fs| == 4
    requires fs[0].0 == Ascii("ID") && fs[1].0 == Ascii("VERDCIT") && fs[2].0 == Ascii("TIME") && fs[3].0 == Ascii("MEMORY")
    ensures forall i :: 0 <= i < 4 ==> fs[i].0 != VERDICT
    ensures fs[2].0 != Ascii("VERDCIT") && fs[3].0 != Ascii("VERDCIT")
  {
    assert Ascii("VERDCIT")[4] != VERDICT[4];
  }

}
