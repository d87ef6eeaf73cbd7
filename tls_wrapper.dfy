/** The TLS record-layer wrapper: VEIL packets are framed as TLSPlaintext records
    (section 5.1 of RFC 8446) of content type application_data, without any encryption.
    A record is a 5-byte header (content type, legacy_version, big-endian 16-bit length)
    followed by at most 2^14 payload bytes. */
module TlsWrapper {

  import opened Wrappers

  newtype uint8 = x: int | 0 <= x < 0x100
  newtype uint16 = x: int | 0 <= x < 0x1_0000

  // TLSContentType codes (section 5.1 of RFC 8446)
  const ChangeCipherSpec: uint8 := 0x14
  const Alert: uint8 := 0x15
  const Handshake: uint8 := 0x16
  const ApplicationData: uint8 := 0x17

  /** legacy_version of every record: TLS 1.2. */
  const Tls12Version: uint16 := 0x0303

  /** kMaxTLSRecordPayload: 2^14 bytes. */
  const MaxRecordPayload: nat := 16384

  /** kTLSRecordHeaderSize. */
  const RecordHeaderSize: nat := 5

  /** The content type is held as its raw byte, as the C++ enum class can hold any byte. */
  datatype RecordHeader = RecordHeader(contentType: uint8, legacyVersion: uint16, length: uint16)

  /** A default-initialised TLSRecordHeader. */
  const DefaultHeader := RecordHeader(ApplicationData, Tls12Version, 0)

  /** The four content types `parse_header` accepts. */
  predicate IsKnownContentType(t: uint8)
  {
    t == ChangeCipherSpec || t == Alert || t == Handshake || t == ApplicationData
  }

  lemma ConstantsMatchRfc()
    ensures RecordHeaderSize == 5 && MaxRecordPayload == 0x4000
    ensures ChangeCipherSpec == 20 && Alert == 21 && Handshake == 22 && ApplicationData == 23
    ensures forall t: uint8 :: IsKnownContentType(t) <==> 0x14 <= t <= 0x17
  {
  }

  /** `write_be_u16`: appends the high byte, then the low byte. */
  function WriteBeU16(out: seq<uint8>, value: uint16): (r: seq<uint8>)
  {
    out + [(value / 0x100) as uint8, (value % 0x100) as uint8]
  }

  /** `read_be_u16`. */
  function ReadBeU16(data: seq<uint8>, offset: nat): uint16
    requires offset + 2 <= |data|
  {
    (data[offset] as int * 0x100 + data[offset + 1] as int) as uint16
  }

  /** Reading back what `write_be_u16` appended gives the value, and the bytes before
      are untouched. */
  lemma BeU16RoundTrip(out: seq<uint8>, value: uint16)
    ensures |WriteBeU16(out, value)| == |out| + 2
    ensures WriteBeU16(out, value)[..|out|] == out
    ensures ReadBeU16(WriteBeU16(out, value), |out|) == value
  {
    var r := WriteBeU16(out, value);
    assert r[|out|] as int == value as int / 0x100;
    assert r[|out| + 1] as int == value as int % 0x100;
  }

  /** `build_header`: type byte, then legacy_version and length, each big-endian. */
  function BuildHeader(header: RecordHeader): (r: seq<uint8>)
    ensures |r| == RecordHeaderSize
    ensures r[0] == header.contentType
    ensures r[1] as int == header.legacyVersion as int / 0x100
    ensures r[2] as int == header.legacyVersion as int % 0x100
    ensures r[3] as int == header.length as int / 0x100
    ensures r[4] as int == header.length as int % 0x100
    ensures ReadBeU16(r, 1) == header.legacyVersion && ReadBeU16(r, 3) == header.length
  {
    var withVersion := WriteBeU16([header.contentType], header.legacyVersion);
    BeU16RoundTrip([header.contentType], header.legacyVersion);
    BeU16RoundTrip(withVersion, header.length);
    WriteBeU16(withVersion, header.length)
  }

  /** `parse_header`: the header and the offset where its payload starts. It rejects a
      buffer shorter than a header, an unknown content type and a length over 2^14; it does
      not look at legacy_version. */
  function ParseHeader(data: seq<uint8>): (r: Option<(RecordHeader, nat)>)
    ensures r.Some? <==>
      |data| >= RecordHeaderSize && IsKnownContentType(data[0])
      && ReadBeU16(data, 3) as nat <= MaxRecordPayload
    ensures r.Some? ==>
      r.value.1 == RecordHeaderSize
      && r.value.0 == RecordHeader(data[0], ReadBeU16(data, 1), ReadBeU16(data, 3))
  {
    if |data| < RecordHeaderSize then None
    else
      var header := RecordHeader(data[0], ReadBeU16(data, 1), ReadBeU16(data, 3));
      if !IsKnownContentType(header.contentType) then None
      else if header.length as nat > MaxRecordPayload then None
      else Some((header, RecordHeaderSize))
  }

  /** Any header of a known type and admissible length survives `build_header` followed by
      `parse_header`, whatever its legacy_version. */
  lemma ParseBuildRoundTrip(header: RecordHeader, rest: seq<uint8>)
    requires IsKnownContentType(header.contentType)
    requires header.length as nat <= MaxRecordPayload
    ensures ParseHeader(BuildHeader(header) + rest) == Some((header, RecordHeaderSize))
  {
    var bytes := BuildHeader(header) + rest;
    assert bytes[..RecordHeaderSize] == BuildHeader(header);
    assert ReadBeU16(bytes, 1) == ReadBeU16(BuildHeader(header), 1);
    assert ReadBeU16(bytes, 3) == ReadBeU16(BuildHeader(header), 3);
  }

  /** A header whose type byte is not one of the four codes is refused. */
  lemma ParseRejectsUnknownType(header: RecordHeader, rest: seq<uint8>)
    requires !IsKnownContentType(header.contentType)
    ensures ParseHeader(BuildHeader(header) + rest) == None
  {
    assert (BuildHeader(header) + rest)[0] == header.contentType;
  }

  /** A header announcing more than 2^14 payload bytes is refused. */
  lemma ParseRejectsOversizedLength(header: RecordHeader, rest: seq<uint8>)
    requires header.length as nat > MaxRecordPayload
    ensures ParseHeader(BuildHeader(header) + rest) == None
  {
    var bytes := BuildHeader(header) + rest;
    assert ReadBeU16(bytes, 3) == ReadBeU16(BuildHeader(header), 3);
  }

  /** `unwrap`: the payload of the first record, which must be application_data and
      complete; bytes after that record are ignored. */
  function Unwrap(record: seq<uint8>): (r: Option<seq<uint8>>)
    ensures r.Some? <==>
      |record| >= RecordHeaderSize && record[0] == ApplicationData
      && ReadBeU16(record, 3) as nat <= MaxRecordPayload
      && |record| >= RecordHeaderSize + ReadBeU16(record, 3) as nat
    ensures r.Some? ==>
      r.value == record[RecordHeaderSize..RecordHeaderSize + ReadBeU16(record, 3) as nat]
  {
    match ParseHeader(record)
    case None => None
    case Some((header, payloadOffset)) =>
      if header.contentType != ApplicationData then None
      else if |record| < payloadOffset + header.length as nat then None
      else Some(record[payloadOffset..payloadOffset + header.length as nat])
  }

  /** The application_data record carrying `chunk`, as `wrap` emits it. */
  function Record(chunk: seq<uint8>): seq<uint8>
    requires |chunk| <= MaxRecordPayload
  {
    BuildHeader(RecordHeader(ApplicationData, Tls12Version, |chunk| as uint16)) + chunk
  }

  /** Every chunk fits in one record. */
  predicate WellSized(chunks: seq<seq<uint8>>)
  {
    forall i :: 0 <= i < |chunks| ==> |chunks[i]| <= MaxRecordPayload
  }

  /** How `wrap` cuts its input: full 2^14-byte chunks, then the rest. The input is never
      cut into zero chunks: empty input is one empty chunk. */
  function Chunks(data: seq<uint8>): (r: seq<seq<uint8>>)
    ensures WellSized(r) && |r| > 0
    decreases |data|
  {
    if |data| <= MaxRecordPayload then [data]
    else [data[..MaxRecordPayload]] + Chunks(data[MaxRecordPayload..])
  }

  function Flatten(chunks: seq<seq<uint8>>): seq<uint8>
  {
    if chunks == [] then [] else chunks[0] + Flatten(chunks[1..])
  }

  /** The records of the chunks, concatenated. */
  function Frame(chunks: seq<seq<uint8>>): seq<uint8>
    requires WellSized(chunks)
  {
    if chunks == [] then [] else Record(chunks[0]) + Frame(chunks[1..])
  }

  /** The bytes `wrap` produces. */
  function Wrapped(data: seq<uint8>): seq<uint8>
  {
    Frame(Chunks(data))
  }

  /** `max(1, ceil(|data| / 2^14))`. */
  function RecordCount(data: seq<uint8>): nat
  {
    if |data| == 0 then 1 else (|data| + MaxRecordPayload - 1) / MaxRecordPayload
  }

  /** The chunking loses nothing, keeps the order, fills every chunk but the last, and
      leaves the last chunk empty only for empty input. */
  lemma {:induction false} ChunksShape(data: seq<uint8>)
    ensures Flatten(Chunks(data)) == data
    ensures |Chunks(data)| == RecordCount(data)
    ensures forall i :: 0 <= i < |Chunks(data)| - 1 ==> |Chunks(data)[i]| == MaxRecordPayload
    ensures var last := Chunks(data)[|Chunks(data)| - 1];
      if data == [] then last == [] else 1 <= |last| <= MaxRecordPayload
    decreases |data|
  {
    if |data| > MaxRecordPayload {
      var rest := data[MaxRecordPayload..];
      ChunksShape(rest);
      var cs := Chunks(data);
      assert cs[1..] == Chunks(rest);
      assert data == data[..MaxRecordPayload] + rest;
      assert (|data| + MaxRecordPayload - 1) / MaxRecordPayload
          == (|rest| + MaxRecordPayload - 1) / MaxRecordPayload + 1;
    } else {
      assert Chunks(data)[1..] == [];
    }
  }

  lemma {:induction false} FrameSize(chunks: seq<seq<uint8>>)
    requires WellSized(chunks)
    ensures |Frame(chunks)| == RecordHeaderSize * |chunks| + |Flatten(chunks)|
  {
    if chunks != [] {
      FrameSize(chunks[1..]);
    }
  }

  /** The size of `wrap`'s output: one 5-byte header per record plus the data. */
  lemma WrapSize(data: seq<uint8>)
    ensures |Wrapped(data)| == RecordCount(data) * RecordHeaderSize + |data|
  {
    ChunksShape(data);
    FrameSize(Chunks(data));
  }

  /** Empty input becomes exactly the bytes of a default header: one record of length 0. */
  lemma WrapEmpty()
    ensures Wrapped([]) == BuildHeader(DefaultHeader)
    ensures |Wrapped([])| == RecordHeaderSize
  {
    assert Chunks([]) == [[]];
    assert Frame([[]]) == Record([]) + Frame([]);
  }

  /** The first record of a concatenation is unwrapped on its own. */
  lemma UnwrapFirstRecord(chunk: seq<uint8>, rest: seq<uint8>)
    requires |chunk| <= MaxRecordPayload
    ensures Unwrap(Record(chunk) + rest) == Some(chunk)
  {
    var header := RecordHeader(ApplicationData, Tls12Version, |chunk| as uint16);
    ParseBuildRoundTrip(header, chunk + rest);
    assert Record(chunk) + rest == BuildHeader(header) + (chunk + rest);
  }

  /** Records carrying `chunks` followed by `rest`: the first header read from them
      describes the first chunk. */
  lemma {:induction false} FrameRecords(chunks: seq<seq<uint8>>, rest: seq<uint8>)
    requires WellSized(chunks) && chunks != []
    ensures Frame(chunks) + rest == Record(chunks[0]) + (Frame(chunks[1..]) + rest)
  {
  }

  /** The only record of `unwrap` applied to `wrap`'s output is the first 2^14 bytes of the
      input, or all of it when it is shorter. */
  lemma UnwrapOfWrap(data: seq<uint8>)
    ensures Unwrap(Wrapped(data)) ==
      Some(if |data| <= MaxRecordPayload then data else data[..MaxRecordPayload])
  {
    var cs := Chunks(data);
    FrameRecords(cs, []);
    assert Frame(cs) == Frame(cs) + [];
    UnwrapFirstRecord(cs[0], Frame(cs[1..]));
  }

  /** Prefix `p` to an optional payload; an absent payload stays absent. */
  function Prepend(p: seq<uint8>, r: Option<seq<uint8>>): Option<seq<uint8>>
  {
    match r
    case None => None
    case Some(q) => Some(p + q)
  }

  /** What `unwrap_all` returns: the payloads of consecutive records, concatenated, as long
      as every record unwraps; empty input gives the empty payload. */
  function Deframe(data: seq<uint8>): Option<seq<uint8>>
    decreases |data|
  {
    if |data| == 0 then Some([])
    else match Unwrap(data)
      case None => None
      case Some(p) => Prepend(p, Deframe(data[RecordHeaderSize + |p|..]))
  }

  /** Unwrapping all records that carry `chunks` yields their concatenation, and then
      whatever the following bytes yield. */
  lemma {:induction false} DeframeFrame(chunks: seq<seq<uint8>>, rest: seq<uint8>)
    requires WellSized(chunks)
    ensures Deframe(Frame(chunks) + rest) == Prepend(Flatten(chunks), Deframe(rest))
  {
    if chunks == [] {
      assert Frame(chunks) + rest == rest;
      match Deframe(rest)
      case None =>
      case Some(q) => assert [] + q == q;
    } else {
      var c := chunks[0];
      var tail := Frame(chunks[1..]) + rest;
      FrameRecords(chunks, rest);
      UnwrapFirstRecord(c, tail);
      var data := Record(c) + tail;
      assert data[RecordHeaderSize + |c|..] == tail;
      DeframeFrame(chunks[1..], rest);
      match Deframe(rest)
      case None =>
      case Some(q) => assert c + (Flatten(chunks[1..]) + q) == Flatten(chunks) + q;
    }
  }

  /** The round trip: `unwrap_all(wrap(d)) == d` for every input. */
  lemma UnwrapAllOfWrap(data: seq<uint8>)
    ensures Deframe(Wrapped(data)) == Some(data)
  {
    DeframeFrame(Chunks(data), []);
    assert Frame(Chunks(data)) + [] == Frame(Chunks(data));
    ChunksShape(data);
    assert Flatten(Chunks(data)) + [] == data;
  }

  /** Valid records followed by bytes that do not start a valid record (a truncated record,
      a foreign content type, a bad length) make `unwrap_all` fail as a whole. */
  lemma UnwrapAllRejectsTrailingGarbage(chunks: seq<seq<uint8>>, bad: seq<uint8>)
    requires WellSized(chunks)
    requires bad != [] && Unwrap(bad) == None
    ensures Deframe(Frame(chunks) + bad) == None
  {
    DeframeFrame(chunks, bad);
  }

  /** A reading of a byte stream as a list of records (header and payload) of any known
      type; it fails where `parse_header` fails or a payload is incomplete. */
  ghost function ParseRecords(data: seq<uint8>): Option<seq<(RecordHeader, seq<uint8>)>>
    decreases |data|
  {
    if |data| == 0 then Some([])
    else match ParseHeader(data)
      case None => None
      case Some((header, payloadOffset)) =>
        var end := payloadOffset + header.length as nat;
        if |data| < end then None
        else match ParseRecords(data[end..])
          case None => None
          case Some(records) => Some([(header, data[payloadOffset..end])] + records)
  }

  /** The records `wrap` means to emit for `chunks`: one application_data record with
      legacy_version 0x0303 per chunk, its length field the chunk's size. */
  function RecordsOf(chunks: seq<seq<uint8>>): (r: seq<(RecordHeader, seq<uint8>)>)
    requires WellSized(chunks)
    ensures |r| == |chunks|
    ensures forall i :: 0 <= i < |chunks| ==>
      r[i] == (RecordHeader(ApplicationData, Tls12Version, |chunks[i]| as uint16), chunks[i])
  {
    if chunks == [] then []
    else ([(RecordHeader(ApplicationData, Tls12Version, |chunks[0]| as uint16), chunks[0])]
          + RecordsOf(chunks[1..]))
  }

  lemma {:induction false} ParseRecordsOfFrame(chunks: seq<seq<uint8>>)
    requires WellSized(chunks)
    ensures ParseRecords(Frame(chunks)) == Some(RecordsOf(chunks))
  {
    if chunks != [] {
      var c := chunks[0];
      var header := RecordHeader(ApplicationData, Tls12Version, |c| as uint16);
      var tail := Frame(chunks[1..]);
      ParseBuildRoundTrip(header, c + tail);
      assert Frame(chunks) == BuildHeader(header) + (c + tail);
      var data := Frame(chunks);
      assert data[RecordHeaderSize..RecordHeaderSize + |c|] == c;
      assert data[RecordHeaderSize + |c|..] == tail;
      ParseRecordsOfFrame(chunks[1..]);
    }
  }

  /** The records of `wrap`'s output, read back from its bytes: one per chunk, each of type
      application_data with legacy_version 0x0303, carrying the chunks in order (whose sizes
      `ChunksShape` gives). */
  lemma WrapRecords(data: seq<uint8>)
    ensures ParseRecords(Wrapped(data)) == Some(RecordsOf(Chunks(data)))
  {
    ParseRecordsOfFrame(Chunks(data));
  }

  /** `wrap`: a do-while loop that emits at least one record and then one record per
      2^14-byte chunk of the input. */
  method Wrap(data: seq<uint8>) returns (result: seq<uint8>)
    ensures result == Wrapped(data)
  {
    result := [];
    var offset := 0;
    var more := true;  // the do-while condition, evaluated after each record
    while more
      invariant offset <= |data|
      invariant more ==> offset == 0 || offset < |data|
      invariant more ==> result + Wrapped(data[offset..]) == Wrapped(data)
      invariant !more ==> result == Wrapped(data)
      decreases |data| - offset, more
    {
      var remaining := data[offset..];
      assert Wrapped(data[offset..]) == Frame(Chunks(remaining));
      var chunkSize := if MaxRecordPayload < |data| - offset then MaxRecordPayload else |data| - offset;
      var header := RecordHeader(ApplicationData, Tls12Version, chunkSize as uint16);
      var headerBytes := BuildHeader(header);
      var chunk := data[offset..offset + chunkSize];
      FrameRecords(Chunks(remaining), []);
      assert Frame(Chunks(remaining)) + [] == Frame(Chunks(remaining));
      assert Chunks(remaining)[0] == chunk;
      if |remaining| > MaxRecordPayload {
        assert Chunks(remaining)[1..] == Chunks(data[offset + chunkSize..]);
      } else {
        assert Chunks(remaining)[1..] == [];
      }
      result := result + headerBytes + chunk;
      offset := offset + chunkSize;
      more := offset < |data|;
    }
  }

  /** `unwrap_all` read as its loop runs: the payloads gathered so far, then the records
      from `offset` on. */
  function DeframeFrom(data: seq<uint8>, offset: nat, acc: seq<uint8>): Option<seq<uint8>>
    requires offset <= |data|
    decreases |data| - offset
  {
    if offset == |data| then Some(acc)
    else match Unwrap(data[offset..])
      case None => None
      case Some(p) => DeframeFrom(data, offset + RecordHeaderSize + |p|, acc + p)
  }

  /** The loop's reading agrees with the record-by-record one. */
  lemma {:induction false} DeframeFromMeaning(data: seq<uint8>, offset: nat, acc: seq<uint8>)
    requires offset <= |data|
    ensures DeframeFrom(data, offset, acc) == Prepend(acc, Deframe(data[offset..]))
    decreases |data| - offset
  {
    var remaining := data[offset..];
    if offset == |data| {
      assert remaining == [] && acc + [] == acc;
    } else if Unwrap(remaining).Some? {
      var p := Unwrap(remaining).value;
      var next := offset + RecordHeaderSize + |p|;
      assert remaining[RecordHeaderSize + |p|..] == data[next..];
      assert Deframe(remaining) == Prepend(p, Deframe(data[next..]));
      assert DeframeFrom(data, offset, acc) == DeframeFrom(data, next, acc + p);
      DeframeFromMeaning(data, next, acc + p);
      PrependAppend(acc, p, Deframe(data[next..]));
    }
  }

  /** Prepending in two steps is prepending the concatenation. */
  lemma PrependAppend(a: seq<uint8>, b: seq<uint8>, r: Option<seq<uint8>>)
    ensures Prepend(a + b, r) == Prepend(a, Prepend(b, r))
  {
    match r
    case None =>
    case Some(q) => assert (a + b) + q == a + (b + q);
  }

  /** Read from the start with nothing gathered, the loop's reading is `Deframe`. */
  lemma DeframeFromAll(data: seq<uint8>)
    ensures DeframeFrom(data, 0, []) == Deframe(data)
  {
    DeframeFromMeaning(data, 0, []);
    assert data[0..] == data;
    match Deframe(data)
    case None =>
    case Some(q) => assert [] + q == q;
  }

  /** `unwrap_all`: a loop over the records that stops with none at the first invalid or
      incomplete one. Each pass makes the checks `unwrap` makes on the unread part (a
      header that parses, application_data, the whole payload present) and moves past the
      record. */
  method UnwrapAll(data: seq<uint8>) returns (r: Option<seq<uint8>>)
    ensures r == Deframe(data)
  {
    ghost var whole := DeframeFrom(data, 0, []);
    DeframeFromAll(data);
    var result: seq<uint8> := [];
    var offset: nat := 0;
    while offset < |data|
      invariant offset <= |data|
      invariant DeframeFrom(data, offset, result) == whole
      decreases |data| - offset
    {
      var unwrapped := Unwrap(data[offset..]);
      if unwrapped.None? {
        return None;
      }
      var payload := unwrapped.value;
      result := result + payload;
      offset := offset + RecordHeaderSize + |payload|;
    }
    return Some(result);
  }
}
