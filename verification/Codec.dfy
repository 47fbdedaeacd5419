/** The byte layout of a stored log entry (core/plog.cpp, packed little-endian records). */
module Codec {
  import opened Modular
  import opened Ptype
  import opened Plog

  type Bytes = seq<Byte>

  // ---------------------------------------------------------------- integers

  function Pow256(k: nat): nat {
    if k == 0 then 1 else 256 * Pow256(k - 1)
  }

  function PutInt(n: nat, k: nat): (b: Bytes)
    ensures |b| == k
    decreases k
  {
    if k == 0 then [] else [n % 256] + PutInt(n / 256, k - 1)
  }

  function GetInt(b: Bytes): nat {
    if b == [] then 0 else b[0] + 256 * GetInt(b[1..])
  }

  lemma {:induction false} IntRoundTrip(n: nat, k: nat)
    requires n < Pow256(k)
    ensures GetInt(PutInt(n, k)) == n
    decreases k
  {
    if k > 0 {
      IntRoundTrip(n / 256, k - 1);
      assert PutInt(n, k)[1..] == PutInt(n / 256, k - 1);
    }
  }

  // ---------------------------------------------------------------- proposals

  const HEADER: nat := 68
  const ENTRY_HEAD: nat := 9
  const VERSION: nat := 0x11

  const FIELDS: nat := 11

  /** The width of each header field, in order: five words, two halves, two ints, two words. */
  function Width(i: nat): nat {
    if i < 5 then 8 else if i < 7 then 2 else if i < 9 then 4 else 8
  }

  /** Bytes taken by `n` fields from field `i` on. */
  function Span(i: nat, n: nat): nat
    decreases n
  {
    if n == 0 then 0 else Width(i) + Span(i + 1, n - 1)
  }

  /** Header fields in order, the size of the value among them. */
  function Fields(p: Proposal): seq<nat> {
    [p.pid, p.term, p.pinst, p.entry, p.lastChosen, p.lastChosenFrom, p.proposer, |p.data|, p.status, p.opaqueId, p.valueId]
  }

  function FromFields(f: seq<nat>, data: Bytes): Proposal
    requires |f| == FIELDS
  {
    Proposal(f[0], f[1], f[2], f[3], f[4], f[5], f[6], f[8], f[9], f[10], data)
  }

  /** Every field fits its width, as the C++ field types guarantee. */
  predicate Fit(fs: seq<nat>, i: nat)
    decreases |fs|
  {
    fs == [] || (fs[0] < Pow256(Width(i)) && Fit(fs[1..], i + 1))
  }

  predicate Wellformed(p: Proposal) {
    Fit(Fields(p), 0)
  }

  function PutAll(fs: seq<nat>, i: nat): (b: Bytes)
    ensures |b| == Span(i, |fs|)
    decreases |fs|
  {
    if fs == [] then [] else PutInt(fs[0], Width(i)) + PutAll(fs[1..], i + 1)
  }

  /** `n` fields from field `i` on, read from the front of `b`. */
  function GetAll(b: Bytes, i: nat, n: nat): (fs: seq<nat>)
    requires Span(i, n) <= |b|
    ensures |fs| == n
    decreases |b|
  {
    if n == 0 then [] else [GetInt(b[..Width(i)])] + GetAll(b[Width(i)..], i + 1, n - 1)
  }

  lemma Parted(first: Bytes, tail: Bytes)
    ensures (first + tail)[..|first|] == first && (first + tail)[|first|..] == tail
  {
  }

  /** What is written for a run of fields: the first one, and the others behind it. */
  lemma PutThenRest(fs: seq<nat>, i: nat, rest: Bytes) returns (first: Bytes, tail: Bytes)
    requires fs != [] && fs[0] < Pow256(Width(i))
    ensures |first| == Width(i) && GetInt(first) == fs[0] && tail == PutAll(fs[1..], i + 1) + rest
    ensures PutAll(fs, i) + rest == first + tail
  {
    first, tail := PutInt(fs[0], Width(i)), PutAll(fs[1..], i + 1) + rest;
    IntRoundTrip(fs[0], Width(i));
  }

  /** Reading a run of fields takes the first one and goes on behind it. */
  lemma GetThenRest(first: Bytes, tail: Bytes, i: nat, n: nat)
    requires 0 < n && |first| == Width(i) && Span(i + 1, n - 1) <= |tail|
    ensures Span(i, n) <= |first + tail| && GetAll(first + tail, i, n) == [GetInt(first)] + GetAll(tail, i + 1, n - 1)
  {
    Parted(first, tail);
  }

  /** If the other fields are read back, so are all of them. */
  lemma OneMoreField(fs: seq<nat>, i: nat, rest: Bytes)
    requires fs != [] && fs[0] < Pow256(Width(i))
    requires GetAll(PutAll(fs[1..], i + 1) + rest, i + 1, |fs| - 1) == fs[1..]
    ensures GetAll(PutAll(fs, i) + rest, i, |fs|) == fs
  {
    var first, tail := PutThenRest(fs, i, rest);
    GetThenRest(first, tail, i, |fs|);
    assert [fs[0]] + fs[1..] == fs;
  }

  lemma {:induction false} FieldsRoundTrip(fs: seq<nat>, i: nat, rest: Bytes)
    requires Fit(fs, i)
    ensures GetAll(PutAll(fs, i) + rest, i, |fs|) == fs
    decreases |fs|
  {
    if fs != [] {
      FieldsRoundTrip(fs[1..], i + 1, rest);
      OneMoreField(fs, i, rest);
    }
  }

  lemma SpanOfHeader()
    ensures Span(0, FIELDS) == HEADER
  {
  }

  function PutHeader(p: Proposal): (b: Bytes)
    ensures |b| == HEADER
  {
    SpanOfHeader();
    PutAll(Fields(p), 0)
  }

  function PutProposal(p: Proposal): (b: Bytes)
    ensures |b| == HEADER + |p.data|
  {
    PutHeader(p) + p.data
  }

  /** The header fields at an offset; none if the header would lie outside the buffer. */
  function GetHeader(b: Bytes, at: nat): (h: Option<seq<nat>>)
    ensures h.Some? <==> at + HEADER <= |b|
    ensures h.Some? ==> |h.value| == FIELDS
  {
    SpanOfHeader();
    if |b| < at + HEADER then None else Some(GetAll(b[at..], 0, FIELDS))
  }

  /** The size field lies behind five words and two halves, and takes an int. */
  const SIZE_AT: nat := 44
  const SIZE_END: nat := 48

  /** The size field of the header at an offset; none if that field would lie outside the buffer. */
  function SizeAt(b: Bytes, at: nat): (n: Option<nat>)
    ensures n.Some? <==> at + SIZE_END <= |b|
  {
    if |b| < at + SIZE_END then None else Some(GetInt(b[at + SIZE_AT..at + SIZE_END]))
  }

  /** The fields after the first one are those of the rest. */
  lemma FieldLater(b: Bytes, i: nat, n: nat, j: nat)
    requires Span(i, n) <= |b| && 0 < j < n
    ensures Width(i) <= |b| && Span(i + 1, n - 1) <= |b[Width(i)..]| && Span(i, j) == Width(i) + Span(i + 1, j - 1)
    ensures GetAll(b, i, n)[j] == GetAll(b[Width(i)..], i + 1, n - 1)[j - 1]
  {
  }

  lemma FieldFirst(b: Bytes, i: nat, n: nat)
    requires Span(i, n) <= |b| && 0 < n
    ensures Width(i) <= |b| && GetAll(b, i, n)[0] == GetInt(b[..Width(i)])
  {
  }

  /** Field `j` read from field `i` on is the integer that ends at `end`. */
  ghost predicate FieldIs(b: Bytes, i: nat, n: nat, j: nat, at: nat, end: nat) {
    Span(i, n) <= |b| && j < n && at <= end <= |b| && GetAll(b, i, n)[j] == GetInt(b[at..end])
  }

  lemma FieldMoves(b: Bytes, i: nat, n: nat, j: nat, at: nat, end: nat)
    requires Span(i, n) <= |b| && 0 < j < n && Width(i) <= |b|
    requires FieldIs(b[Width(i)..], i + 1, n - 1, j - 1, at, end)
    ensures FieldIs(b, i, n, j, Width(i) + at, Width(i) + end)
  {
    FieldLater(b, i, n, j);
    SliceOfRest(b, Width(i), at, end);
  }

  lemma FieldStarts(b: Bytes, i: nat, n: nat)
    requires Span(i, n) <= |b| && 0 < n
    ensures FieldIs(b, i, n, 0, 0, Width(i))
  {
    FieldFirst(b, i, n);
  }

  lemma RestHolds(b: Bytes, i: nat, n: nat, j: nat)
    requires Span(i, n) <= |b| && 0 < j < n
    ensures Width(i) <= |b| && Span(i + 1, n - 1) <= |b[Width(i)..]| && Span(i, j) == Width(i) + Span(i + 1, j - 1)
  {
  }

  /** A field read from a run of fields is the integer at its place. */
  lemma {:induction false} FieldAt(b: Bytes, i: nat, n: nat, j: nat) returns (at: nat, end: nat)
    requires Span(i, n) <= |b| && j < n
    ensures FieldIs(b, i, n, j, at, end) && at == Span(i, j) && end == at + Width(i + j)
    decreases j
  {
    if j == 0 {
      FieldStarts(b, i, n);
      at, end := 0, Width(i);
    } else {
      RestHolds(b, i, n, j);
      at, end := FieldAt(b[Width(i)..], i + 1, n - 1, j - 1);
      FieldMoves(b, i, n, j, at, end);
      assert i + 1 + (j - 1) == i + j;
      at, end := Width(i) + at, Width(i) + end;
    }
  }

  lemma SliceOfRest(b: Bytes, w: nat, from: nat, to: nat)
    requires from <= to && w + to <= |b|
    ensures b[w..][from..to] == b[w + from..w + to]
  {
  }

  lemma SpanToSize()
    ensures Span(0, 7) == SIZE_AT && Span(0, FIELDS) == HEADER
  {
    assert Span(0, 7) == 8 + Span(1, 6) == 16 + Span(2, 5) == 24 + Span(3, 4) == 32 + Span(4, 3);
    assert Span(4, 3) == 8 + Span(5, 2) && Span(5, 2) == 2 + Span(6, 1) && Span(6, 1) == 2;
    SpanOfHeader();
  }

  /** Where a whole header can be read, so can its size field, and both readings agree. */
  lemma SizeOfHeader(b: Bytes, at: nat)
    requires at + HEADER <= |b|
    ensures SizeAt(b, at) == Some(GetHeader(b, at).value[7])
  {
    SpanToSize();
    var from, to := FieldAt(b[at..], 0, FIELDS, 7);
    assert b[at..][SIZE_AT..SIZE_END] == b[at + SIZE_AT..at + SIZE_END];
  }

  lemma HeaderRoundTrip(p: Proposal, before: Bytes, after: Bytes)
    requires Wellformed(p)
    ensures GetHeader(before + PutHeader(p) + after, |before|) == Some(Fields(p))
  {
    SpanOfHeader();
    assert (before + PutHeader(p) + after)[|before|..] == PutHeader(p) + after;
    FieldsRoundTrip(Fields(p), 0, after);
  }

  // ---------------------------------------------------------------- entries

  /** What is stored in the first and in the second place: an accepted proposal displaces the promise. */
  function First(e: Entry): Proposal {
    if e.accepted.Some? then e.accepted.value else DUMMY
  }

  function Second(e: Entry): Proposal {
    if e.accepted.None? && e.promised.Some? then e.promised.value else DUMMY
  }

  function PairSize(p: Proposal, q: Proposal): nat {
    ENTRY_HEAD - 1 + HEADER + |p.data| + HEADER + |q.data|
  }

  /** The size field, truncated to 32 bits. */
  function SizeWord(p: Proposal, q: Proposal): (b: Bytes)
    ensures |b| == 4
  {
    PutInt(PairSize(p, q) % Pow256(4), 4)
  }

  /** Size, version and two proposals, back to back. */
  function EncodePair(p: Proposal, q: Proposal): Bytes {
    SizeWord(p, q) + PutInt(VERSION, 4) + PutProposal(p) + PutProposal(q)
  }

  function TotalSize(e: Entry): nat {
    PairSize(First(e), Second(e))
  }

  function Encode(e: Entry): Bytes {
    EncodePair(First(e), Second(e))
  }

  datatype Decoded = Bad(code: int) | OutOfBounds | Good(entry: Entry)

  /**
   * Only the two size fields are read before they are compared with the length; the headers and values are
   * copied afterwards. Reading outside the buffer, which the original does not check for, is its own outcome.
   */
  function Decode(b: Bytes): Decoded {
    if |b| < ENTRY_HEAD then Bad(UNMARSHAL_PLOG_FAIL)
    else if GetInt(b[..4]) != |b| then Bad(INVALID_PLOG_DATA)
    else
      match SizeAt(b, 8)
      case None => OutOfBounds
      case Some(n1) =>
        var at2 := 8 + HEADER + n1;
        match SizeAt(b, at2)
        case None => OutOfBounds
        case Some(n2) =>
          if (n1 + n2) % Pow256(4) + 2 * HEADER != |b| - ENTRY_HEAD + 1 then Bad(INVALID_PLOG_DATA)
          else if |b| < at2 + HEADER + n2 then OutOfBounds
          else
            Good(Entry(Some(FromFields(GetHeader(b, at2).value, b[at2 + HEADER..at2 + HEADER + n2])),
                       Some(FromFields(GetHeader(b, 8).value, b[8 + HEADER..at2]))))
  }

  predicate EntryWellformed(e: Entry) {
    && (e.accepted.Some? ==> Wellformed(e.accepted.value))
    && (e.promised.Some? ==> Wellformed(e.promised.value))
  }

  lemma Widths()
    ensures Pow256(2) == 0x1_0000 && Pow256(4) == 0x1_0000_0000 && Pow256(8) == 0x1_0000_0000_0000_0000
  {
    assert Pow256(2) == 256 * Pow256(1);
    assert Pow256(4) == 256 * Pow256(3) == 256 * 256 * Pow256(2);
    assert Pow256(6) == 256 * Pow256(5) == 256 * 256 * Pow256(4);
    assert Pow256(8) == 256 * Pow256(7) == 256 * 256 * Pow256(6);
  }

  lemma {:induction false} SmallFits(fs: seq<nat>, i: nat)
    requires forall j :: 0 <= j < |fs| ==> fs[j] <= 1
    ensures Fit(fs, i)
    decreases |fs|
  {
    if fs != [] {
      assert Pow256(Width(i)) == 256 * Pow256(Width(i) - 1);
      PowPositive(Width(i) - 1);
      SmallFits(fs[1..], i + 1);
    }
  }

  lemma PowPositive(k: nat)
    ensures Pow256(k) >= 1
  {
  }

  lemma DummyWellformed()
    ensures Wellformed(DUMMY)
  {
    assert |DUMMY.data| == 1;
    SmallFits(Fields(DUMMY), 0);
  }

  lemma FieldsGiveBack(p: Proposal)
    ensures FromFields(Fields(p), p.data) == p && Fields(p)[7] == |p.data|
  {
  }

  /** Where the parts of an encoded entry lie. */
  lemma Layout(head: Bytes, h1: Bytes, d1: Bytes, h2: Bytes, d2: Bytes)
    requires |head| == 8 && |h1| == |h2| == HEADER
    ensures var b := head + (h1 + d1) + (h2 + d2);
            var at2 := 8 + HEADER + |d1|;
            && |b| == at2 + HEADER + |d2|
            && b == head + h1 + (d1 + (h2 + d2))
            && b == (head + (h1 + d1)) + h2 + d2
            && |head + (h1 + d1)| == at2
            && b[..4] == head[..4]
            && b[8 + HEADER..at2] == d1 && b[at2 + HEADER..at2 + HEADER + |d2|] == d2
  {
  }

  /** What decoding makes of a buffer whose headers and values are known. */
  lemma DecodeParts(b: Bytes, f1: seq<nat>, d1: Bytes, f2: seq<nat>, d2: Bytes)
    requires |f1| == |f2| == FIELDS && f1[7] == |d1| && f2[7] == |d2|
    requires var at2 := 8 + HEADER + |d1|;
             && |b| == at2 + HEADER + |d2| < Pow256(4) && GetInt(b[..4]) == |b|
             && GetHeader(b, 8) == Some(f1) && GetHeader(b, at2) == Some(f2)
             && b[8 + HEADER..at2] == d1 && b[at2 + HEADER..at2 + HEADER + |d2|] == d2
    ensures Decode(b) == Good(Entry(Some(FromFields(f2, d2)), Some(FromFields(f1, d1))))
  {
    SizeOfHeader(b, 8);
    SizeOfHeader(b, 8 + HEADER + |d1|);
    Small(|d1| + |d2|, Pow256(4));
  }

  /** Two headers with their values, glued together, are found again. */
  lemma PairRoundTrip(p: Proposal, q: Proposal, head: Bytes, b: Bytes)
    requires Wellformed(p) && Wellformed(q) && |head| == 8
    requires b == head + (PutHeader(p) + p.data) + (PutHeader(q) + q.data)
    requires |b| < Pow256(4) && GetInt(head[..4]) == |b|
    ensures Decode(b) == Good(Entry(Some(q), Some(p)))
  {
    var h1, h2 := PutHeader(p), PutHeader(q);
    Layout(head, h1, p.data, h2, q.data);
    HeaderRoundTrip(p, head, p.data + (h2 + q.data));
    HeaderRoundTrip(q, head + (h1 + p.data), q.data);
    FieldsGiveBack(p);
    FieldsGiveBack(q);
    DecodeParts(b, Fields(p), p.data, Fields(q), q.data);
  }

  /** What an entry becomes by being written and read back: both places are filled, with the dummy where nothing was. */
  function Reloaded(e: Entry): Entry {
    Entry(Some(Second(e)), Some(First(e)))
  }

  lemma WordReads(n: nat, k: nat, rest: Bytes)
    requires n < Pow256(k)
    ensures GetInt((PutInt(n, k) + rest)[..k]) == n
  {
    assert (PutInt(n, k) + rest)[..k] == PutInt(n, k);
    IntRoundTrip(n, k);
  }

  lemma EncodeSize(p: Proposal, q: Proposal)
    ensures |EncodePair(p, q)| == PairSize(p, q)
  {
  }

  lemma DecodePair(p: Proposal, q: Proposal)
    requires Wellformed(p) && Wellformed(q) && PairSize(p, q) < Pow256(4)
    ensures Decode(EncodePair(p, q)) == Good(Entry(Some(q), Some(p)))
  {
    Small(PairSize(p, q), Pow256(4));
    WordReads(PairSize(p, q), 4, PutInt(VERSION, 4));
    EncodeSize(p, q);
    PairRoundTrip(p, q, SizeWord(p, q) + PutInt(VERSION, 4), EncodePair(p, q));
  }

  /** Decoding an encoding succeeds and gives exactly what was stored, for every entry whose size fits 32 bits. */
  lemma EntryRoundTrip(e: Entry)
    requires EntryWellformed(e) && TotalSize(e) < Pow256(4)
    ensures Decode(Encode(e)) == Good(Reloaded(e))
  {
    DummyWellformed();
    DecodePair(First(e), Second(e));
  }

  /** Writing a reloaded entry once more keeps an accepted proposal but drops a promise. */
  lemma ReencodeIff(e: Entry)
    requires EntryWellformed(e) && TotalSize(e) < Pow256(4)
    ensures Encode(Reloaded(e)) == Encode(e) <==> e.accepted.Some? || e.promised.None? || e.promised == Some(DUMMY)
  {
    if e.accepted.Some? || e.promised.None? || e.promised == Some(DUMMY) {
      assert First(Reloaded(e)) == First(e) && Second(Reloaded(e)) == Second(e);
    } else if Encode(Reloaded(e)) == Encode(e) {
      DummyWellformed();
      SmallPair();
      DecodePair(First(e), Second(e));
      DecodePair(DUMMY, DUMMY);
    }
  }

  lemma SmallPair()
    ensures PairSize(DUMMY, DUMMY) < Pow256(4)
  {
    Widths();
  }

  /** A second round trip changes nothing for entries that had accepted a proposal. */
  lemma AcceptedIsFixedPoint(e: Entry)
    requires EntryWellformed(e) && TotalSize(e) < Pow256(4) && e.accepted.Some?
    ensures Decode(Encode(Reloaded(e))) == Good(Reloaded(e)) && Reloaded(e) == Entry(Some(DUMMY), e.accepted)
  {
    EntryRoundTrip(e);
    ReencodeIff(e);
  }

  // ---------------------------------------------------------------- where each byte lies

  /** Byte `i` of a number, the low byte first. */
  function ByteOf(n: nat, i: nat): Byte
    decreases i
  {
    if i == 0 then n % 256 else ByteOf(n / 256, i - 1)
  }

  /** Integers are stored low byte first. */
  lemma {:induction false} LittleEndian(n: nat, k: nat, i: nat)
    requires i < k
    ensures PutInt(n, k)[i] == ByteOf(n, i)
    decreases k
  {
    if i > 0 {
      LittleEndian(n / 256, k - 1, i - 1);
    }
  }

  /** Field `j` of a written run of fields takes these bytes. */
  ghost predicate PutsAt(fs: seq<nat>, i: nat, j: nat, at: nat, end: nat) {
    j < |fs| && at <= end <= |PutAll(fs, i)| && PutAll(fs, i)[at..end] == PutInt(fs[j], Width(i + j))
  }

  lemma PutsFirst(fs: seq<nat>, i: nat)
    requires fs != []
    ensures PutsAt(fs, i, 0, 0, Width(i))
  {
  }

  lemma PutsLater(fs: seq<nat>, i: nat, j: nat, at: nat, end: nat)
    requires fs != [] && PutsAt(fs[1..], i + 1, j, at, end)
    ensures PutsAt(fs, i, j + 1, Width(i) + at, Width(i) + end)
  {
    var w := Width(i);
    var all, tail := PutAll(fs, i), PutAll(fs[1..], i + 1);
    assert all == PutInt(fs[0], w) + tail;
    assert all[w..] == tail;
    SliceOfRest(all, w, at, end);
    assert i + 1 + j == i + (j + 1);
  }

  lemma {:induction false} PutsField(fs: seq<nat>, i: nat, j: nat)
    requires j < |fs|
    ensures PutsAt(fs, i, j, Span(i, j), Span(i, j) + Width(i + j))
    decreases j
  {
    if j == 0 {
      PutsFirst(fs, i);
    } else {
      PutsField(fs[1..], i + 1, j - 1);
      PutsLater(fs, i, j - 1, Span(i + 1, j - 1), Span(i + 1, j - 1) + Width(i + j));
    }
  }

  lemma SpanGrows(n: nat)
    ensures Span(0, n + 1) == Span(0, n) + Width(n)
  {
    SpanEnds(0, n);
  }

  lemma {:induction false} SpanEnds(i: nat, n: nat)
    ensures Span(i, n + 1) == Span(i, n) + Width(i + n)
    decreases n
  {
    if n > 0 {
      SpanEnds(i + 1, n - 1);
    }
  }

  /** The number stands at this place, in so many bytes. */
  ghost predicate Stands(b: Bytes, at: nat, width: nat, n: nat) {
    at + width <= |b| && b[at..at + width] == PutInt(n, width)
  }

  /** The place of each header field: five words, two halves, two ints, two words. */
  function Place(j: nat): nat {
    if j <= 5 then 8 * j else if j <= 7 then 40 + 2 * (j - 5) else if j <= 9 then 44 + 4 * (j - 7) else 52 + 8 * (j - 9)
  }

  /** What stands there: pid, term, instance, entry, last chosen entry and its proposer, proposer, size, status, cookie, value id. */
  function FieldOf(p: Proposal, j: nat): nat {
    if j == 0 then p.pid
    else if j == 1 then p.term
    else if j == 2 then p.pinst
    else if j == 3 then p.entry
    else if j == 4 then p.lastChosen
    else if j == 5 then p.lastChosenFrom
    else if j == 6 then p.proposer
    else if j == 7 then |p.data|
    else if j == 8 then p.status
    else if j == 9 then p.opaqueId
    else p.valueId
  }

  lemma {:induction false} PlaceIs(j: nat)
    requires j < FIELDS
    ensures Span(0, j) == Place(j)
  {
    if j > 0 {
      PlaceIs(j - 1);
      SpanGrows(j - 1);
    }
  }

  lemma FieldPlace(p: Proposal, j: nat)
    requires j < FIELDS
    ensures Stands(PutHeader(p), Place(j), Width(j), FieldOf(p, j))
  {
    PutsField(Fields(p), 0, j);
    PlaceIs(j);
    assert Fields(p)[j] == FieldOf(p, j);
  }

  /** The place of every field in a header, and the width it has there. */
  lemma FieldPlaces(p: Proposal)
    ensures forall j :: 0 <= j < FIELDS ==> Stands(PutHeader(p), Place(j), Width(j), FieldOf(p, j))
  {
    forall j | 0 <= j < FIELDS
      ensures Stands(PutHeader(p), Place(j), Width(j), FieldOf(p, j))
    {
      FieldPlace(p, j);
    }
  }

  lemma HeadStands(n: nat, version: nat, k: nat, rest: Bytes)
    requires n < Pow256(k)
    ensures Stands(PutInt(n % Pow256(k), k) + PutInt(version, k) + rest, 0, k, n)
    ensures Stands(PutInt(n % Pow256(k), k) + PutInt(version, k) + rest, k, k, version)
  {
    Small(n, Pow256(k));
    var b := PutInt(n, k) + PutInt(version, k) + rest;
    assert b[0..0 + k] == PutInt(n, k) && b[k..k + k] == PutInt(version, k);
  }

  /** The two records lie behind the head, each header before its value. */
  lemma RecordPlaces(head: Bytes, h1: Bytes, d1: Bytes, h2: Bytes, d2: Bytes)
    requires |head| == 8 && |h1| == |h2| == HEADER
    ensures var b := head + (h1 + d1) + (h2 + d2);
            var at2 := 8 + HEADER + |d1|;
            && |b| == at2 + HEADER + |d2|
            && b[8..8 + HEADER] == h1 && b[8 + HEADER..at2] == d1
            && b[at2..at2 + HEADER] == h2 && b[at2 + HEADER..] == d2
  {
  }

  lemma PairHead(p: Proposal, q: Proposal, b: Bytes)
    requires b == EncodePair(p, q) && PairSize(p, q) < Pow256(4)
    ensures |b| == PairSize(p, q) && Stands(b, 0, 4, PairSize(p, q)) && Stands(b, 4, 4, 17)
  {
    EncodeSize(p, q);
    HeadStands(PairSize(p, q), VERSION, 4, PutProposal(p) + PutProposal(q));
    Regrouped(SizeWord(p, q), PutInt(VERSION, 4), PutProposal(p), PutProposal(q));
  }

  lemma PairRecords(p: Proposal, q: Proposal, b: Bytes)
    requires b == EncodePair(p, q)
    ensures var at2 := 8 + HEADER + |p.data|;
            && |b| == at2 + HEADER + |q.data|
            && b[8..8 + HEADER] == PutHeader(p) && b[8 + HEADER..at2] == p.data
            && b[at2..at2 + HEADER] == PutHeader(q) && b[at2 + HEADER..] == q.data
  {
    var head := SizeWord(p, q) + PutInt(VERSION, 4);
    EncodeParts(p, q, head);
    RecordPlaces(head, PutHeader(p), p.data, PutHeader(q), q.data);
  }

  /** An encoded entry: total size, version 17, and the two records, back to back. */
  lemma EntryPlaces(e: Entry)
    requires TotalSize(e) < Pow256(4)
    ensures var b, p, q := Encode(e), First(e), Second(e);
            var at2 := 8 + HEADER + |p.data|;
            && |b| == TotalSize(e) == at2 + HEADER + |q.data|
            && Stands(b, 0, 4, TotalSize(e)) && Stands(b, 4, 4, 17)
            && b[8..8 + HEADER] == PutHeader(p) && b[8 + HEADER..at2] == p.data
            && b[at2..at2 + HEADER] == PutHeader(q) && b[at2 + HEADER..] == q.data
  {
    PairHead(First(e), Second(e), Encode(e));
    PairRecords(First(e), Second(e), Encode(e));
  }

  lemma Regrouped(a: Bytes, b: Bytes, c: Bytes, d: Bytes)
    ensures a + b + c + d == a + b + (c + d)
  {
  }

  lemma EncodeParts(p: Proposal, q: Proposal, head: Bytes)
    requires head == SizeWord(p, q) + PutInt(VERSION, 4)
    ensures |head| == 8 && EncodePair(p, q) == head + (PutHeader(p) + p.data) + (PutHeader(q) + q.data)
  {
  }

  // ---------------------------------------------------------------- malformed buffers

  lemma {:induction false} IntBound(b: Bytes)
    ensures GetInt(b) < Pow256(|b|)
    decreases |b|
  {
    if b != [] {
      IntBound(b[1..]);
    }
  }

  lemma SizeFits(b: Bytes, at: nat)
    requires at + SIZE_END <= |b|
    ensures SizeAt(b, at).value < Pow256(4)
  {
    IntBound(b[at + SIZE_AT..at + SIZE_END]);
  }

  /** The buffer is long enough to be looked at, and says so itself. */
  predicate Sized(b: Bytes) {
    ENTRY_HEAD <= |b| && GetInt(b[..4]) == |b|
  }

  /** The 32-bit sum of two sizes is what is left of the buffer. */
  predicate SumFits(b: Bytes, n1: nat, n2: nat) {
    (n1 + n2) % Pow256(4) + 2 * HEADER + 8 == |b|
  }

  /**
   * Where the reads run past the end: the first size field lies outside, or the second one does where the
   * first size puts it, or the sum of the sizes wraps and fits although the first value alone is too long.
   */
  predicate ReadsOutside(b: Bytes) {
    |b| < 8 + SIZE_END ||
    var n1 := SizeAt(b, 8).value;
    || |b| < 8 + HEADER + n1 + SIZE_END
    || (|b| < 8 + 2 * HEADER + n1 && SumFits(b, n1, SizeAt(b, 8 + HEADER + n1).value))
  }

  /** A 32-bit sum of two sizes that gives the rest of the buffer is their sum, or wraps when the first one is longer than the rest. */
  lemma SumIsExact(n1: nat, n2: nat, rest: nat, word: nat)
    requires rest < word && n1 < word && n2 < word
    ensures (n1 + n2) % word == rest ==> n1 + n2 == if n1 <= rest then rest else rest + word
    ensures n1 + n2 == rest ==> (n1 + n2) % word == rest
  {
    if n1 + n2 < word {
      Small(n1 + n2, word);
    } else {
      Residue(n1 + n2, word, 1, n1 + n2 - word);
    }
  }

  /**
   * Exactly which buffers make the original read past their end, and exactly which decode: those whose two
   * values fill what the headers leave.
   */
  lemma OutOfBoundsIff(b: Bytes)
    ensures Decode(b) == OutOfBounds <==> Sized(b) && ReadsOutside(b)
    ensures Decode(b).Good? <==>
              && Sized(b) && 8 + SIZE_END <= |b|
              && var n1 := SizeAt(b, 8).value;
                 8 + 2 * HEADER + n1 <= |b| && n1 + SizeAt(b, 8 + HEADER + n1).value == |b| - 8 - 2 * HEADER
  {
    if Sized(b) && 8 + SIZE_END <= |b| {
      var n1 := SizeAt(b, 8).value;
      if 8 + HEADER + n1 + SIZE_END <= |b| {
        IntBound(b[..4]);
        SizeFits(b, 8);
        SizeFits(b, 8 + HEADER + n1);
        if 8 + 2 * HEADER <= |b| {
          SumIsExact(n1, SizeAt(b, 8 + HEADER + n1).value, |b| - 8 - 2 * HEADER, Pow256(4));
        }
      }
    }
  }

  lemma {:induction false} IntBack(b: Bytes)
    ensures PutInt(GetInt(b), |b|) == b
    decreases |b|
  {
    if b != [] {
      IntBack(b[1..]);
      assert GetInt(b) % 256 == b[0] && GetInt(b) / 256 == GetInt(b[1..]);
    }
  }

  /** If the other fields are written as they were read, so are all of them. */
  lemma FieldBack(b: Bytes, i: nat, n: nat)
    requires 0 < n && Span(i, n) <= |b|
    requires Width(i) <= |b| && Span(i + 1, n - 1) <= |b[Width(i)..]|
    requires PutAll(GetAll(b[Width(i)..], i + 1, n - 1), i + 1) == b[Width(i)..][..Span(i + 1, n - 1)]
    ensures PutAll(GetAll(b, i, n), i) == b[..Span(i, n)]
  {
    var w := Width(i);
    var first, rest := GetInt(b[..w]), GetAll(b[w..], i + 1, n - 1);
    assert GetAll(b, i, n) == [first] + rest;
    IntBack(b[..w]);
    assert ([first] + rest)[1..] == rest;
    PrefixParts(b, w, Span(i + 1, n - 1));
  }

  lemma PrefixParts(b: Bytes, w: nat, m: nat)
    requires w + m <= |b|
    ensures b[..w] + b[w..][..m] == b[..w + m]
  {
  }

  lemma {:induction false} FieldsBack(b: Bytes, i: nat, n: nat)
    requires Span(i, n) <= |b|
    ensures PutAll(GetAll(b, i, n), i) == b[..Span(i, n)]
    decreases n
  {
    if n > 0 {
      FieldsBack(b[Width(i)..], i + 1, n - 1);
      FieldBack(b, i, n);
    }
  }

  lemma FieldsBackAt(b: Bytes, at: nat, n: nat, size: nat)
    requires size == Span(0, n) && at + size <= |b|
    ensures PutAll(GetAll(b[at..], 0, n), 0) == b[at..at + size]
  {
    FieldsBack(b[at..], 0, n);
    SliceOfRest(b, at, 0, size);
  }

  lemma SameFields(f: seq<nat>, data: Bytes)
    requires |f| == FIELDS && f[7] == |data|
    ensures Fields(FromFields(f, data)) == f && FromFields(f, data).data == data
  {
  }

  lemma WrittenAs(p: Proposal, f: seq<nat>, bytes: Bytes)
    requires Fields(p) == f && PutAll(f, 0) == bytes
    ensures PutProposal(p) == bytes + p.data
  {
  }

  /** A proposal taken from a header and a value is written as those. */
  lemma HeaderBack(b: Bytes, at: nat, data: Bytes, f: seq<nat>)
    requires at + HEADER <= |b| && SizeAt(b, at) == Some(|data|) && GetHeader(b, at) == Some(f)
    ensures PutProposal(FromFields(f, data)) == b[at..at + HEADER] + data
  {
    SpanOfHeader();
    SizeOfHeader(b, at);
    FieldsBackAt(b, at, FIELDS, HEADER);
    SameFields(f, data);
    WrittenAs(FromFields(f, data), f, b[at..at + HEADER]);
  }

  lemma TwoRecords(b: Bytes, at: nat)
    requires 8 + HEADER <= at && at + HEADER <= |b|
    ensures b[8..] == b[8..8 + HEADER] + b[8 + HEADER..at] + (b[at..at + HEADER] + b[at + HEADER..])
  {
  }

  /** What a successful reading found. */
  ghost predicate Found(b: Bytes, e: Entry, at2: nat) {
    && 8 + HEADER <= at2 && at2 + HEADER <= |b|
    && SizeAt(b, 8) == Some(at2 - 8 - HEADER) && SizeAt(b, at2) == Some(|b| - at2 - HEADER)
    && GetHeader(b, 8).Some? && GetHeader(b, at2).Some?
    && e.accepted == Some(FromFields(GetHeader(b, 8).value, b[8 + HEADER..at2]))
    && e.promised == Some(FromFields(GetHeader(b, at2).value, b[at2 + HEADER..]))
  }

  lemma GoodFound(b: Bytes, e: Entry) returns (at2: nat)
    requires Decode(b) == Good(e)
    ensures Found(b, e, at2)
  {
    IntBound(b[..4]);
    var n1 := SizeAt(b, 8).value;
    at2 := 8 + HEADER + n1;
    var n2 := SizeAt(b, at2).value;
    Fits(n1, n2, Pow256(4), |b|);
    assert b[at2 + HEADER..at2 + HEADER + n2] == b[at2 + HEADER..];
  }

  lemma Fits(n1: nat, n2: nat, m: nat, size: nat)
    requires 0 < m && size < m && 8 + HEADER + n1 + HEADER + n2 <= size && (n1 + n2) % m + 2 * HEADER + 8 == size
    ensures 8 + HEADER + n1 + HEADER + n2 == size
  {
    Small(n1 + n2, m);
  }

  lemma FoundBytes(b: Bytes, e: Entry, at2: nat)
    requires Found(b, e, at2)
    ensures b[8..] == PutProposal(e.accepted.value) + PutProposal(e.promised.value)
  {
    HeaderBack(b, 8, b[8 + HEADER..at2], GetHeader(b, 8).value);
    HeaderBack(b, at2, b[at2 + HEADER..], GetHeader(b, at2).value);
    TwoRecords(b, at2);
  }

  /**
   * What a buffer decodes to, whoever wrote it: the two proposals whose records are its bytes behind the head,
   * the accepted one first. So no two buffers of one version word decode to the same entry.
   */
  lemma DecodesTo(b: Bytes, e: Entry)
    requires Decode(b) == Good(e)
    ensures e.accepted.Some? && e.promised.Some?
    ensures b[8..] == PutProposal(e.accepted.value) + PutProposal(e.promised.value)
    ensures GetInt(b[..4]) == |b|
  {
    var at2 := GoodFound(b, e);
    FoundBytes(b, e, at2);
  }

  /** The two error codes tell a buffer too short for a head from one whose sizes do not fit. */
  lemma CodeOfBad(b: Bytes)
    ensures |b| < ENTRY_HEAD ==> Decode(b) == Bad(UNMARSHAL_PLOG_FAIL)
    ensures Decode(b).Bad? && ENTRY_HEAD <= |b| ==> Decode(b) == Bad(INVALID_PLOG_DATA)
  {
  }

  // One buffer for each way of reading past the end, and one that is rejected without.

  function Zeros(n: nat): Bytes {
    seq(n, _ => 0)
  }

  lemma {:induction false} ZeroInt(b: Bytes)
    requires forall i :: 0 <= i < |b| ==> b[i] == 0
    ensures GetInt(b) == 0
    decreases |b|
  {
    if b != [] {
      ZeroInt(b[1..]);
    }
  }

  lemma LowByte(b: Bytes)
    requires b != [] && forall i :: 0 < i < |b| ==> b[i] == 0
    ensures GetInt(b) == b[0]
  {
    ZeroInt(b[1..]);
  }

  /** Nine bytes that name their own length, with no room for a size field. */
  lemma TruncatedReadsOutside()
    ensures Decode([9] + Zeros(8)) == OutOfBounds
  {
    LowByte(([9] + Zeros(8))[..4]);
  }

  /** All of 130 bytes, both size fields 0: there is no room for the second header, but it is never read. */
  lemma ShortIsRejected()
    ensures Decode([130] + Zeros(129)) == Bad(INVALID_PLOG_DATA)
  {
    var b := [130] + Zeros(129);
    LowByte(b[..4]);
    ZeroInt(b[52..56]);
    ZeroInt(b[120..124]);
    Small(0, Pow256(4));
    Widths();
  }

  /** A first size of 1 and a second one of 2^32 - 1: their sum wraps to what 144 bytes leave. */
  function Wrapped(): Bytes {
    [144] + Zeros(51) + ([1] + Zeros(68)) + [255, 255, 255, 255] + Zeros(19)
  }

  lemma AllOnes(k: nat)
    ensures GetInt(seq(k, _ => 255)) == Pow256(k) - 1
  {
    if k > 0 {
      AllOnes(k - 1);
      assert seq(k, _ => 255)[1..] == seq(k - 1, _ => 255);
    }
  }

  lemma WrappedReadsOutside()
    ensures Decode(Wrapped()) == OutOfBounds
  {
    var b := Wrapped();
    assert |b| == 144 && b[0] == 144 && b[52] == 1;
    LowByte(b[..4]);
    LowByte(b[52..56]);
    assert b[121..125] == seq(4, _ => 255);
    AllOnes(4);
    Widths();
    OutOfBoundsIff(b);
  }

  // ---------------------------------------------------------------- filling the buffer

  /** Copies `src` over `buf` from `at` on. */
  function Blit(buf: Bytes, at: nat, src: Bytes): (r: Bytes)
    requires at + |src| <= |buf|
    ensures |r| == |buf| && r[..at] == buf[..at] && r[at..at + |src|] == src && r[at + |src|..] == buf[at + |src|..]
  {
    buf[..at] + src + buf[at + |src|..]
  }

  /** Copying the version, the size and the two records into a zeroed buffer lays them out back to back. */
  lemma BlitParts(zero: Bytes, size: Bytes, version: Bytes, r1: Bytes, r2: Bytes)
    requires |size| == |version| == 4 && |zero| == 8 + |r1| + |r2|
    ensures Blit(Blit(Blit(Blit(zero, 4, version), 0, size), 8, r1), 8 + |r1|, r2) == size + version + r1 + r2
  {
    var b1 := Blit(zero, 4, version);
    var b2 := Blit(b1, 0, size);
    assert b2[..8] == size + version;
    var b3 := Blit(b2, 8, r1);
    assert b3[..8 + |r1|] == size + version + r1;
  }

  /** Sizes the buffer first and then copies the parts into place, one after the other. */
  method Fill(size: Bytes, version: Bytes, r1: Bytes, r2: Bytes) returns (output: Bytes)
    requires |size| == |version| == 4
    ensures output == size + version + r1 + r2
  {
    output := seq(8 + |r1| + |r2|, i => 0);
    BlitParts(output, size, version, r1, r2);
    output := Blit(output, 4, version);
    output := Blit(output, 0, size);
    output := Blit(output, 8, r1);
    output := Blit(output, 8 + |r1|, r2);
  }

  class StoredEntry {
    var accepted: Option<Proposal>
    var promised: Option<Proposal>

    function Value(): Entry
      reads this
    {
      Entry(promised, accepted)
    }

    constructor (e: Entry)
      ensures Value() == e
    {
      promised, accepted := e.promised, e.accepted;
    }

    method SerializeTo() returns (output: Bytes, size: nat)
      requires TotalSize(Value()) < Pow256(4)
      ensures output == Encode(Value()) && size == |output|
    {
      var p1 := if accepted.Some? then accepted.value else DUMMY;
      var p2 := if promised.Some? && accepted.None? then promised.value else DUMMY;
      output := Fill(SizeWord(p1, p2), PutInt(VERSION, 4), PutProposal(p1), PutProposal(p2));
      size := |output|;
    }

    method UnserializeFrom(from: Bytes) returns (code: int, readable: bool)
      modifies this
      ensures readable <==> !(Sized(from) && ReadsOutside(from))
      ensures match Decode(from)
              case Good(e) => code == OK && Value() == e
              case Bad(c) => code == c && Value() == old(Value())
              case OutOfBounds => Value() == old(Value())
    {
      OutOfBoundsIff(from);
      code, readable := OK, true;
      if |from| < ENTRY_HEAD {
        code := UNMARSHAL_PLOG_FAIL;
        return;
      }
      if GetInt(from[..4]) != |from| {
        code := INVALID_PLOG_DATA;
        return;
      }
      var n1 := SizeAt(from, 8);
      if n1.None? {
        readable := false;
        return;
      }
      var end1 := 8 + HEADER + n1.value;
      var n2 := SizeAt(from, end1);
      if n2.None? {
        readable := false;
        return;
      }
      if (n1.value + n2.value) % Pow256(4) + 2 * HEADER != |from| - ENTRY_HEAD + 1 {
        code := INVALID_PLOG_DATA;
        return;
      }
      var end2 := end1 + HEADER + n2.value;
      if |from| < end2 {
        readable := false;
        return;
      }
      accepted := Some(FromFields(GetHeader(from, 8).value, from[8 + HEADER..end1]));
      promised := Some(FromFields(GetHeader(from, end1).value, from[end1 + HEADER..end2]));
    }
  }
}

/** What reading an entry back from storage means for the requests that follow. */
module Reload {
  import opened Ptype
  import opened Plog
  import opened AcceptorSpec
  import opened Codec

  /** The log after prepare, accept and chosen requests, each with what storage holds for its entry. */
  function LogRun(g: Log, rs: seq<(Request, Option<Entry>)>): Log
    decreases |rs|
  {
    if rs == [] then g else LogRun(LogStep(g, rs[0].0, rs[0].1), rs[1..])
  }

  predicate NoChoose(rs: seq<(Request, Option<Entry>)>) {
    forall i :: 0 <= i < |rs| ==> !rs[i].0.Choose?
  }

  /** No run of prepare and accept requests, to this entry or to others, ever changes it. */
  ghost predicate Frozen(g: Log, e: nat) {
    forall rs: seq<(Request, Option<Entry>)> :: NoChoose(rs) ==> LogRun(g, rs).At(e) == g.At(e)
  }

  /** The log has something chosen at or past the entry, so that prepares and accepts for it are refused. */
  predicate Overtaken(g: Log, e: nat) {
    g.lastChosen != NONE && g.lastChosen >= e
  }

  /** A proposal that carries neither of the two statuses the accept handler knows. */
  predicate Blocked(ent: Entry) {
    ent.accepted.Some? && ent.accepted.value.status !in {ACCEPTED, CHOSEN}
  }

  /** One prepare or accept request leaves a cached entry alone if it is for another entry, refused, or blocked. */
  lemma StaysCached(g: Log, r: Request, stored: Option<Entry>, e: nat)
    requires e in g.entries && !r.Choose? && (Overtaken(g, e) || Blocked(g.entries[e]))
    ensures var g' := LogStep(g, r, stored);
            e in g'.entries && g'.entries[e] == g.entries[e] && g'.lastChosen == g.lastChosen
  {
  }

  lemma {:induction false} StaysFrozen(g: Log, rs: seq<(Request, Option<Entry>)>, e: nat)
    requires e in g.entries && NoChoose(rs) && (Overtaken(g, e) || Blocked(g.entries[e]))
    ensures LogRun(g, rs).At(e) == g.At(e)
    decreases |rs|
  {
    if rs != [] {
      StaysCached(g, rs[0].0, rs[0].1, e);
      StaysFrozen(LogStep(g, rs[0].0, rs[0].1), rs[1..], e);
    }
  }

  /** Repeating the accepted proposal is answered for, and clears the promise. */
  lemma RepeatClears(g: Log, e: nat, pp: Proposal)
    requires e in g.entries && !Overtaken(g, e) && pp.entry == e && Repeats(g.entries[e], pp)
    ensures LogStep(g, Accept(pp, true), None).At(e) == g.entries[e].(promised := None)
  {
  }

  /**
   * Exactly when reloading freezes an entry in a log: when the log has already chosen something at or past
   * it, or when the entry had accepted nothing, so that the dummy takes the accepted place and carries no
   * accepted status, or something with no accepted status itself.
   */
  lemma FrozenIff(g: Log, e: nat, x: Entry)
    requires e in g.entries && g.entries[e] == Reloaded(x)
    ensures Frozen(g, e) <==>
            Overtaken(g, e) || x.accepted.None? || x.accepted.value.status !in {ACCEPTED, CHOSEN}
  {
    if Overtaken(g, e) || Blocked(g.entries[e]) {
      forall rs: seq<(Request, Option<Entry>)> | NoChoose(rs)
        ensures LogRun(g, rs).At(e) == g.At(e)
      {
        StaysFrozen(g, rs, e);
      }
    } else {
      var pp := g.entries[e].accepted.value.(entry := e);
      var rs: seq<(Request, Option<Entry>)> := [(Accept(pp, true), None)];
      RepeatClears(g, e, pp);
      assert rs[1..] == [];
      assert LogRun(g, rs) == LogRun(LogStep(g, rs[0].0, rs[0].1), rs[1..]) == LogStep(g, rs[0].0, rs[0].1);
      assert NoChoose(rs);
    }
  }

  /** The one request that moves a frozen dummy is a chosen request with pid 0 and value id 0, which commits it. */
  lemma ThawsIff(e: Entry, r: Request)
    requires e.accepted.None?
    ensures EntryStep(Reloaded(e), r) != Reloaded(e) <==> r.Choose? && r.body.pid == 0 && r.body.valueId == 0
    ensures r.Choose? && r.body.pid == 0 && r.body.valueId == 0 ==>
              EntryStep(Reloaded(e), r).accepted == Some(DUMMY.(status := if r.saved then CHOSEN else ACCEPTED))
  {
  }
}
