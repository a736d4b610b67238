/** The PNG chunk reader and the stripping of textual metadata. The chunk layout is that of section 3.2 of RFC 2083; the
    checksum is a parameter. */
module PngChunks {
  import opened Wrappers
  import opened Bytes

  const PNG: seq<byte> := [0x89, 0x50, 0x4E, 0x47, 0x0D, 0x0A, 0x1A, 0x0A]
  const IEND: seq<byte> := [0x49, 0x45, 0x4E, 0x44]
  const TEXT_CHUNKS: set<seq<byte>> := {[0x74, 0x45, 0x58, 0x74], [0x7A, 0x54, 0x58, 0x74], [0x69, 0x54, 0x58, 0x74]}

  datatype Chunk = Chunk(kind: seq<byte>, data: seq<byte>, raw: seq<byte>)

  datatype Problem = InvalidPng | InvalidCrc | TrailingData | MissingEnd

  /** Four bytes, most significant first. */
  function Number(b: seq<byte>): nat
    requires |b| == 4
  {
    b[0] as int * 0x100_0000 + b[1] as int * 0x1_0000 + b[2] as int * 0x100 + b[3] as int
  }

  /** One chunk: its length, its kind and its data must fit, and its checksum must match. */
  function Next(raw: seq<byte>, offset: nat, crc: seq<byte> -> nat): (r: Result<Chunk, Problem>)
    requires offset < |raw|
    ensures r.Success? ==> |r.value.raw| > 0 && offset + |r.value.raw| <= |raw|
  {
    if offset + 12 > |raw| then Failure(InvalidPng)
    else
      var end := offset + 12 + Number(raw[offset..offset + 4]);
      if end > |raw| then Failure(InvalidPng)
      else
        var kind, data := raw[offset + 4..offset + 8], raw[offset + 8..end - 4];
        if crc(kind + data) != Number(raw[end - 4..end]) then Failure(InvalidCrc)
        else Success(Chunk(kind, data, raw[offset..end]))
  }

  /** What is read at each offset of a file. */
  type Reader = nat -> Result<Chunk, Problem>

  function ReaderOf(raw: seq<byte>, crc: seq<byte> -> nat): Reader {
    (offset: nat) => if offset < |raw| then Next(raw, offset, crc) else Failure(MissingEnd)
  }

  ghost predicate Advances(read: Reader, size: nat) {
    forall o: nat | o < size && read(o).Success? :: |read(o).value.raw| > 0 && o + |read(o).value.raw| <= size
  }

  /** Reads the chunks from an offset on, after those already read. */
  function Scan(read: Reader, size: nat, offset: nat, chunks: seq<Chunk>): Result<seq<Chunk>, Problem>
    requires offset <= size && Advances(read, size)
    decreases size - offset
  {
    if offset == size then Failure(MissingEnd)
    else
      var next := read(offset);
      if next.Failure? then Failure(next.error)
      else if next.value.kind != IEND then Scan(read, size, offset + |next.value.raw|, chunks + [next.value])
      else if offset + |next.value.raw| != size then Failure(TrailingData)
      else Success(chunks + [next.value])
  }

  function Chunks(raw: seq<byte>, crc: seq<byte> -> nat): Result<seq<Chunk>, Problem> {
    if !(PNG <= raw) then Failure(InvalidPng) else Scan(ReaderOf(raw, crc), |raw|, |PNG|, [])
  }

  /** The reading loop. */
  method ScanChunks(read: Reader, size: nat, from: nat) returns (r: Result<seq<Chunk>, Problem>)
    requires from <= size && Advances(read, size)
    ensures r == Scan(read, size, from, [])
  {
    var offset, chunks := from, [];
    while offset < size
      invariant offset <= size
      invariant Scan(read, size, from, []) == Scan(read, size, offset, chunks)
    {
      var next := read(offset);
      if next.Failure? { return Failure(next.error); }
      chunks := chunks + [next.value];
      offset := offset + |next.value.raw|;
      if next.value.kind == IEND {
        return if offset != size then Failure(TrailingData) else Success(chunks);
      }
    }
    return Failure(MissingEnd);
  }

  method ReadChunks(raw: seq<byte>, crc: seq<byte> -> nat) returns (r: Result<seq<Chunk>, Problem>)
    ensures r == Chunks(raw, crc)
  {
    if !(PNG <= raw) { return Failure(InvalidPng); }
    r := ScanChunks(ReaderOf(raw, crc), |raw|, |PNG|);
  }

  function Join(chunks: seq<Chunk>): seq<byte> {
    if chunks == [] then [] else chunks[0].raw + Join(chunks[1..])
  }

  /** One chunk in the layout of the standard: length, kind, data and checksum of kind and data. */
  predicate WellFormed(c: Chunk, crc: seq<byte> -> nat) {
    && |c.kind| == 4 && |c.raw| == 12 + |c.data|
    && Number(c.raw[..4]) == |c.data| && c.raw[4..8] == c.kind && c.raw[8..|c.raw| - 4] == c.data
    && Number(c.raw[|c.raw| - 4..]) == crc(c.kind + c.data)
  }

  /** A list of chunks of the given form that ends with its only end chunk. */
  predicate Ended(chunks: seq<Chunk>, form: Chunk -> bool) {
    && chunks != [] && form(chunks[0])
    && if chunks[0].kind == IEND then |chunks| == 1 else Ended(chunks[1..], form)
  }

  function FormOf(crc: seq<byte> -> nat): Chunk -> bool {
    c => WellFormed(c, crc)
  }

  predicate WellEnded(chunks: seq<Chunk>, crc: seq<byte> -> nat) {
    Ended(chunks, FormOf(crc))
  }

  predicate Holds(raw: seq<byte>, offset: nat, bytes: seq<byte>) {
    offset + |bytes| <= |raw| && raw[offset..offset + |bytes|] == bytes
  }

  /** Whatever is read at an offset has the given form, and its bytes are there. */
  ghost predicate ReadsOnly(read: Reader, raw: seq<byte>, form: Chunk -> bool) {
    forall o: nat | o < |raw| && read(o).Success? :: form(read(o).value) && Holds(raw, o, read(o).value.raw)
  }

  /** A chunk of the given form whose bytes are at an offset is read there. */
  ghost predicate ReadsAll(read: Reader, raw: seq<byte>, form: Chunk -> bool) {
    && (forall c | form(c) :: |c.raw| > 0)
    && forall o: nat, c | o < |raw| && form(c) && Holds(raw, o, c.raw) :: read(o) == Success(c)
  }

  lemma SliceOfHeld(raw: seq<byte>, offset: nat, bytes: seq<byte>, from: nat, to: nat)
    requires Holds(raw, offset, bytes) && from <= to <= |bytes|
    ensures raw[offset + from..offset + to] == bytes[from..to]
  {
    forall k | 0 <= k < to - from ensures raw[offset + from..offset + to][k] == bytes[from..to][k] {
      assert raw[offset..offset + |bytes|][from + k] == bytes[from + k];
    }
  }

  /** The four parts of a chunk, in the file and in its own bytes, are the same. */
  lemma PartsOfHeld(raw: seq<byte>, offset: nat, bytes: seq<byte>)
    requires Holds(raw, offset, bytes) && |bytes| >= 12
    ensures var end := offset + |bytes|;
            && raw[offset..offset + 4] == bytes[..4] && raw[offset + 4..offset + 8] == bytes[4..8]
            && raw[offset + 8..end - 4] == bytes[8..|bytes| - 4] && raw[end - 4..end] == bytes[|bytes| - 4..]
  {
    SliceOfHeld(raw, offset, bytes, 0, 4);
    SliceOfHeld(raw, offset, bytes, 4, 8);
    var last := |bytes| - 4;
    assert raw[offset + 8..offset + |bytes| - 4] == bytes[8..last] by { SliceOfHeld(raw, offset, bytes, 8, last); }
    assert raw[offset + |bytes| - 4..offset + |bytes|] == bytes[last..] by { SliceOfHeld(raw, offset, bytes, last, |bytes|); }
  }

  lemma ReadHead(raw: seq<byte>, offset: nat, crc: seq<byte> -> nat)
    requires offset < |raw| && Next(raw, offset, crc).Success?
    ensures var c := Next(raw, offset, crc).value; WellFormed(c, crc) && Holds(raw, offset, c.raw)
  {
    PartsOfHeld(raw, offset, Next(raw, offset, crc).value.raw);
  }

  /** A well-formed chunk is found again wherever it is written. */
  lemma WrittenHead(raw: seq<byte>, offset: nat, c: Chunk, crc: seq<byte> -> nat)
    requires offset < |raw| && WellFormed(c, crc) && Holds(raw, offset, c.raw)
    ensures Next(raw, offset, crc) == Success(c)
  {
    PartsOfHeld(raw, offset, c.raw);
  }

  lemma ReaderReads(raw: seq<byte>, crc: seq<byte> -> nat)
    ensures var read := ReaderOf(raw, crc);
            Advances(read, |raw|) && ReadsOnly(read, raw, FormOf(crc)) && ReadsAll(read, raw, FormOf(crc))
  {
    var read := ReaderOf(raw, crc);
    forall o: nat | o < |raw| && read(o).Success? ensures WellFormed(read(o).value, crc) && Holds(raw, o, read(o).value.raw) {
      ReadHead(raw, o, crc);
    }
    forall o: nat, c | o < |raw| && WellFormed(c, crc) && Holds(raw, o, c.raw) ensures read(o) == Success(c) {
      WrittenHead(raw, o, c, crc);
    }
  }

  lemma HeldSplits(raw: seq<byte>, offset: nat, bytes: seq<byte>)
    requires Holds(raw, offset, bytes)
    ensures raw[offset..] == bytes + raw[offset + |bytes|..]
  {
  }

  lemma {:induction false} ReadingSplits(read: Reader, raw: seq<byte>, offset: nat, before: seq<Chunk>, form: Chunk -> bool)
    returns (tail: seq<Chunk>)
    requires offset <= |raw| && Advances(read, |raw|) && ReadsOnly(read, raw, form) && Scan(read, |raw|, offset, before).Success?
    ensures Scan(read, |raw|, offset, before) == Success(before + tail)
    ensures Ended(tail, form) && raw[offset..] == Join(tail)
    decreases |raw| - offset
  {
    var first := read(offset).value;
    assert form(first) && Holds(raw, offset, first.raw);
    HeldSplits(raw, offset, first.raw);
    if first.kind == IEND {
      tail := [first];
      assert tail[1..] == [] && raw[offset + |first.raw|..] == [];
    } else {
      var rest := ReadingSplits(read, raw, offset + |first.raw|, before + [first], form);
      tail := [first] + rest;
      assert before + [first] + rest == before + tail;
      assert tail[1..] == rest;
    }
  }

  lemma JoinSplits(raw: seq<byte>, offset: nat, chunks: seq<Chunk>)
    requires offset <= |raw| && chunks != [] && raw[offset..] == Join(chunks)
    ensures var end := offset + |chunks[0].raw|;
            end <= |raw| && raw[offset..end] == chunks[0].raw && raw[end..] == Join(chunks[1..])
  {
    assert raw[offset..][..|chunks[0].raw|] == chunks[0].raw;
    assert raw[offset..][|chunks[0].raw|..] == Join(chunks[1..]);
  }

  lemma {:induction false} WritingReads(read: Reader, raw: seq<byte>, offset: nat, before: seq<Chunk>, chunks: seq<Chunk>,
                                        form: Chunk -> bool)
    requires offset <= |raw| && Advances(read, |raw|) && ReadsAll(read, raw, form)
    requires Ended(chunks, form) && raw[offset..] == Join(chunks)
    ensures Scan(read, |raw|, offset, before) == Success(before + chunks)
    decreases |chunks|
  {
    var first, tail := chunks[0], chunks[1..];
    JoinSplits(raw, offset, chunks);
    assert form(first) && |first.raw| > 0 && Holds(raw, offset, first.raw);
    assert read(offset) == Success(first);
    if first.kind == IEND {
      assert chunks == [first] && |raw[offset + |first.raw|..]| == 0;
    } else {
      WritingReads(read, raw, offset + |first.raw|, before + [first], tail, form);
      assert before + [first] + tail == before + chunks;
    }
  }

  /** Reading is the inverse of writing: the accepted files are exactly the signature followed by a well-ended list of
      well-formed chunks, and that list is what is read. */
  lemma ReadingInvertsWriting(raw: seq<byte>, chunks: seq<Chunk>, crc: seq<byte> -> nat)
    ensures Chunks(raw, crc) == Success(chunks) <==> WellEnded(chunks, crc) && raw == PNG + Join(chunks)
  {
    var read := ReaderOf(raw, crc);
    ReaderReads(raw, crc);
    if Chunks(raw, crc) == Success(chunks) {
      var tail := ReadingSplits(read, raw, |PNG|, [], FormOf(crc));
      assert [] + tail == tail == chunks;
      assert raw == raw[..|PNG|] + raw[|PNG|..];
    }
    if WellEnded(chunks, crc) && raw == PNG + Join(chunks) {
      assert raw[|PNG|..] == Join(chunks);
      WritingReads(read, raw, |PNG|, [], chunks, FormOf(crc));
      assert [] + chunks == chunks;
    }
  }

  function WithoutText(chunks: seq<Chunk>): seq<Chunk> {
    if chunks == [] then []
    else (if chunks[0].kind in TEXT_CHUNKS then [] else [chunks[0]]) + WithoutText(chunks[1..])
  }

  /** Removes the textual chunks; a file that cannot be read is left alone. */
  method StripPngText(raw: seq<byte>, crc: seq<byte> -> nat) returns (r: Result<seq<byte>, Problem>)
    ensures Chunks(raw, crc).Failure? ==> r == Failure(Chunks(raw, crc).error)
    ensures Chunks(raw, crc).Success? ==>
              && r == Success(PNG + Join(WithoutText(Chunks(raw, crc).value)))
              && Chunks(r.value, crc) == Success(WithoutText(Chunks(raw, crc).value))
  {
    var chunks := ReadChunks(raw, crc);
    if chunks.Failure? { return Failure(chunks.error); }
    ReadingInvertsWriting(raw, chunks.value, crc);
    StrippingKeepsTheEnd(chunks.value, crc);
    ReadingInvertsWriting(PNG + Join(WithoutText(chunks.value)), WithoutText(chunks.value), crc);
    return Success(PNG + Join(WithoutText(chunks.value)));
  }

  lemma PrependIsWellEnded(first: Chunk, kept: seq<Chunk>, crc: seq<byte> -> nat)
    requires WellFormed(first, crc) && first.kind != IEND && WellEnded(kept, crc)
    ensures WellEnded([first] + kept, crc)
  {
    assert ([first] + kept)[1..] == kept;
  }

  lemma EndIsNoText()
    ensures IEND !in TEXT_CHUNKS
  {
    assert IEND[0] == 0x49;
    assert forall kind: seq<byte> | kind in TEXT_CHUNKS :: |kind| == 4 && kind[0] != 0x49;
  }

  lemma {:induction false} StrippingKeepsTheEnd(chunks: seq<Chunk>, crc: seq<byte> -> nat)
    requires WellEnded(chunks, crc)
    ensures WellEnded(WithoutText(chunks), crc)
    decreases |chunks|
  {
    var first, kept := chunks[0], WithoutText(chunks[1..]);
    EndIsNoText();
    if first.kind == IEND {
      assert chunks[1..] == [];
      assert WithoutText(chunks) == [first] + [] == chunks;
    } else {
      StrippingKeepsTheEnd(chunks[1..], crc);
      if first.kind !in TEXT_CHUNKS { PrependIsWellEnded(first, kept, crc); } else { assert [] + kept == kept; }
    }
  }

  /** Stripping looks at one chunk after the other and keeps their order. */
  lemma {:induction false} StrippingKeepsTheOrder(before: seq<Chunk>, c: Chunk, after: seq<Chunk>)
    ensures WithoutText(before + [c] + after) == WithoutText(before) + (if IsText(c.kind) then [] else [c]) + WithoutText(after)
    decreases |before|
  {
    TextKinds(c.kind);
    if before == [] {
      assert [] + [c] + after == [c] + after && ([c] + after)[1..] == after;
    } else {
      assert (before + [c] + after)[1..] == before[1..] + [c] + after;
      StrippingKeepsTheOrder(before[1..], c, after);
    }
  }

  predicate Spells(kind: seq<byte>, name: string) {
    |kind| == |name| && forall k | 0 <= k < |name| :: kind[k] as int == name[k] as int
  }

  /** The three textual kinds, by name. */
  predicate IsText(kind: seq<byte>) {
    Spells(kind, "tEXt") || Spells(kind, "zTXt") || Spells(kind, "iTXt")
  }

  lemma TextKinds(kind: seq<byte>)
    ensures kind in TEXT_CHUNKS <==> IsText(kind)
    ensures kind == IEND <==> Spells(kind, "IEND")
  {
    if |kind| == 4 { assert kind == [kind[0], kind[1], kind[2], kind[3]]; }
  }

  lemma {:induction false} StrippedHasNoText(chunks: seq<Chunk>)
    ensures forall c <- WithoutText(chunks) :: c.kind !in TEXT_CHUNKS
    ensures multiset(WithoutText(chunks)) <= multiset(chunks)
    ensures forall c <- chunks | c.kind !in TEXT_CHUNKS :: multiset(WithoutText(chunks))[c] == multiset(chunks)[c]
    decreases |chunks|
  {
    if chunks != [] {
      StrippedHasNoText(chunks[1..]);
      assert chunks == [chunks[0]] + chunks[1..];
    }
  }

  lemma {:induction false} NothingMoreToStrip(chunks: seq<Chunk>)
    requires forall c <- chunks :: c.kind !in TEXT_CHUNKS
    ensures WithoutText(chunks) == chunks
    decreases |chunks|
  {
    if chunks != [] {
      NothingMoreToStrip(chunks[1..]);
      assert chunks == [chunks[0]] + chunks[1..];
    }
  }

  /** The stripped file holds no textual chunk, every other chunk as often as before, and stripping it again gives the
      same bytes. */
  lemma StrippingIsIdempotent(raw: seq<byte>, crc: seq<byte> -> nat)
    requires Chunks(raw, crc).Success?
    ensures var kept := WithoutText(Chunks(raw, crc).value);
            var once := PNG + Join(kept);
            && Chunks(once, crc) == Success(kept) && PNG + Join(WithoutText(kept)) == once
            && (forall c <- kept :: c.kind !in TEXT_CHUNKS)
            && forall c <- Chunks(raw, crc).value | c.kind !in TEXT_CHUNKS ::
                 multiset(kept)[c] == multiset(Chunks(raw, crc).value)[c]
  {
    var chunks := Chunks(raw, crc).value;
    ReadingInvertsWriting(raw, chunks, crc);
    StrippingKeepsTheEnd(chunks, crc);
    StrippedHasNoText(chunks);
    NothingMoreToStrip(WithoutText(chunks));
    ReadingInvertsWriting(PNG + Join(WithoutText(chunks)), WithoutText(chunks), crc);
  }
}
