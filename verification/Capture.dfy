/**
 * Splitting a BPF read buffer into frames (src/net/capture.rs:207-249).
 *
 * `Split` says what the frames from an offset on are, record by record; the method finds them
 * by moving the offset, and its spans stay inside the buffer whatever the buffer holds.
 */
module Capture {
  import opened Bytes

  const HEADER_MIN: nat := 18

  datatype Span = Span(start: nat, end: nat)

  /** How the header at an offset is read. */
  datatype Format = Format(hdrlen: (seq<Byte>, nat) -> nat, caplen: (seq<Byte>, nat) -> nat)

  /** `word_align`: the next multiple of four, counted up in words. */
  function Align(length: nat): (r: nat)
    ensures length <= r < length + 4
  {
    if length == 0 then 0 else if length <= 4 then 4 else 4 + Align(length - 4)
  }

  /** It is the source's `(length + 3) & !3`. */
  lemma {:induction false} AlignRoundsUp(length: nat)
    ensures Align(length) == (length + 3) / 4 * 4
  {
    if length > 4 {
      AlignRoundsUp(length - 4);
    }
  }

  /** A whole record stands at the offset. */
  predicate HasRecord(b: seq<Byte>, f: Format, offset: nat) {
    && offset + HEADER_MIN <= |b| && f.hdrlen(b, offset) >= HEADER_MIN && f.caplen(b, offset) > 0
    && offset + f.hdrlen(b, offset) + f.caplen(b, offset) <= |b|
  }

  /** Where the frame of the record at an offset stands. */
  function FrameAt(b: seq<Byte>, f: Format, offset: nat): (s: Span)
    requires HasRecord(b, f, offset)
    ensures offset < s.start < s.end <= |b|
  {
    var start := offset + f.hdrlen(b, offset);
    Span(start, start + f.caplen(b, offset))
  }

  function After(b: seq<Byte>, f: Format, offset: nat): (next: nat)
    requires HasRecord(b, f, offset)
    ensures FrameAt(b, f, offset).end <= next
  {
    offset + Align(f.hdrlen(b, offset) + f.caplen(b, offset))
  }

  /** A part of a buffer, byte by byte. */
  function Cut(b: seq<Byte>, start: nat, end: nat): seq<Byte>
    requires end <= |b|
    decreases end - start
  {
    if start >= end then [] else [b[start]] + Cut(b, start + 1, end)
  }

  lemma {:induction false} CutIsSlice(b: seq<Byte>, start: nat, end: nat)
    requires start <= end <= |b|
    ensures Cut(b, start, end) == b[start..end]
    decreases end - start
  {
    if start < end {
      CutIsSlice(b, start + 1, end);
      assert b[start..end] == [b[start]] + b[start + 1..end];
    }
  }

  lemma {:induction false} CutShifts(a: seq<Byte>, t: seq<Byte>, start: nat, end: nat)
    requires end <= |t|
    ensures Cut(a + t, |a| + start, |a| + end) == Cut(t, start, end)
    decreases end - start
  {
    if start < end {
      CutShifts(a, t, start + 1, end);
      assert (a + t)[|a| + start] == t[start];
    }
  }

  /** The frames of a buffer from an offset on, record by record. */
  function Split(b: seq<Byte>, f: Format, offset: nat): seq<seq<Byte>>
    decreases |b| - offset
  {
    if !HasRecord(b, f, offset) then []
    else
      var s := FrameAt(b, f, offset);
      [Cut(b, s.start, s.end)] + Split(b, f, After(b, f, offset))
  }

  /** Every span is a non-empty part of what ends at the limit, and each ends before the next starts. */
  predicate InOrder(spans: seq<Span>, limit: nat) {
    spans == [] ||
    var last := spans[|spans| - 1];
    last.start < last.end <= limit && InOrder(spans[..|spans| - 1], last.start)
  }

  lemma {:induction false} InOrderMeans(spans: seq<Span>, limit: nat)
    requires InOrder(spans, limit)
    ensures forall i :: 0 <= i < |spans| ==> spans[i].start < spans[i].end <= limit
    ensures forall i, j :: 0 <= i < j < |spans| ==> spans[i].end <= spans[j].start
  {
    if spans != [] {
      var init, last := spans[..|spans| - 1], spans[|spans| - 1];
      InOrderMeans(init, last.start);
      assert forall i :: 0 <= i < |init| ==> spans[i] == init[i];
    }
  }

  lemma Earlier(spans: seq<Span>, sooner: nat, later: nat)
    requires InOrder(spans, sooner) && sooner <= later
    ensures InOrder(spans, later)
  {
  }

  /** `all` is the slices of the spans, in order, followed by `left`. */
  predicate Joined(b: seq<Byte>, spans: seq<Span>, left: seq<seq<Byte>>, all: seq<seq<Byte>>)
    decreases |spans|
  {
    if spans == [] then left == all
    else
      var last := spans[|spans| - 1];
      last.start <= last.end <= |b| && Joined(b, spans[..|spans| - 1], [Cut(b, last.start, last.end)] + left, all)
  }

  /** That is: one slice per span, at the same place, and then `left`. */
  lemma {:induction false} JoinedMeans(b: seq<Byte>, spans: seq<Span>, left: seq<seq<Byte>>, all: seq<seq<Byte>>)
    requires InOrder(spans, |b|) && Joined(b, spans, left, all)
    ensures |all| == |spans| + |left| && forall i :: 0 <= i < |left| ==> all[|spans| + i] == left[i]
    ensures forall i :: 0 <= i < |spans| ==> spans[i].start < spans[i].end <= |b| && all[i] == b[spans[i].start..spans[i].end]
    decreases |spans|
  {
    if spans != [] {
      var init, last := spans[..|spans| - 1], spans[|spans| - 1];
      var more := [Cut(b, last.start, last.end)] + left;
      Earlier(init, last.start, |b|);
      JoinedMeans(b, init, more, all);
      assert all[|init|] == more[0];
      CutIsSlice(b, last.start, last.end);
      forall i | 0 <= i < |left| ensures all[|spans| + i] == left[i] {
        assert all[|init| + (i + 1)] == more[i + 1];
      }
      forall i | 0 <= i < |spans| ensures spans[i].start < spans[i].end <= |b| && all[i] == b[spans[i].start..spans[i].end] {
        if i < |init| {
          assert spans[i] == init[i];
        }
      }
    }
  }

  /** The spans found so far, and that what is left to find starts at the offset. */
  predicate Progress(b: seq<Byte>, f: Format, spans: seq<Span>, offset: nat, all: seq<seq<Byte>>) {
    InOrder(spans, |b|) && InOrder(spans, offset) && Joined(b, spans, Split(b, f, offset), all)
  }

  lemma ProgressStep(b: seq<Byte>, f: Format, spans: seq<Span>, offset: nat, all: seq<seq<Byte>>, s: Span, next: nat)
    requires Progress(b, f, spans, offset, all) && HasRecord(b, f, offset) && s == FrameAt(b, f, offset) && next == After(b, f, offset)
    ensures Progress(b, f, spans + [s], next, all)
  {
    var more := spans + [s];
    assert more[..|spans|] == spans;
    Earlier(spans, offset, s.start);
  }

  method Scan(buffer: seq<Byte>, f: Format, ghost all: seq<seq<Byte>>) returns (spans: seq<Span>)
    requires all == Split(buffer, f, 0)
    ensures InOrder(spans, |buffer|) && Joined(buffer, spans, [], all)
  {
    spans := [];
    var offset := 0;
    while offset + HEADER_MIN <= |buffer|
      invariant Progress(buffer, f, spans, offset, all)
      decreases |buffer| - offset
    {
      var caplen := f.caplen(buffer, offset);
      var hdrlen := f.hdrlen(buffer, offset);
      if hdrlen < HEADER_MIN || caplen == 0 {
        SplitNil(buffer, f, offset);
        return;
      }
      var start := offset + hdrlen;
      var end := start + caplen;
      if end > |buffer| {
        SplitNil(buffer, f, offset);
        return;
      }
      var next := offset + Align(hdrlen + caplen);
      ProgressStep(buffer, f, spans, offset, all, Span(start, end), next);
      spans := spans + [Span(start, end)];
      offset := next;
    }
    SplitNil(buffer, f, offset);
  }

  // ----- the source's header

  function Le16(low: int, high: int): (r: int)
    ensures 0 <= low && 0 <= high ==> 0 <= r
  {
    low + 0x100 * high
  }

  function Caplen(b: seq<Byte>, offset: nat): nat {
    if offset + HEADER_MIN > |b| then 0
    else Le16(b[offset + 8], b[offset + 9]) + 0x1_0000 * Le16(b[offset + 10], b[offset + 11])
  }

  function Hdrlen(b: seq<Byte>, offset: nat): nat {
    if offset + HEADER_MIN > |b| then 0 else Le16(b[offset + 16], b[offset + 17])
  }

  const DARWIN := Format(Hdrlen, Caplen)

  /** `bpf_frames`. The spans are the slices the source returns. */
  method BpfFrames(buffer: seq<Byte>) returns (spans: seq<Span>)
    ensures InOrder(spans, |buffer|)
    ensures Joined(buffer, spans, [], Split(buffer, DARWIN, 0))
  {
    spans := Scan(buffer, DARWIN, Split(buffer, DARWIN, 0));
  }

  // ----- the encoder's side

  /** A record as the kernel lays it out; the header may be longer than the part that is read. */
  datatype Record = Record(stamp: seq<Byte>, datalen: seq<Byte>, extra: seq<Byte>, frame: seq<Byte>, padding: seq<Byte>) {
    predicate Valid() {
      && |stamp| == 8 && |datalen| == 4 && HEADER_MIN + |extra| < U16
      && 0 < |frame| < U32
      && |padding| == Align(HEADER_MIN + |extra| + |frame|) - (HEADER_MIN + |extra| + |frame|)
    }

    function Header(): seq<Byte> {
      stamp + Little(|frame|, 4) + datalen + Little(HEADER_MIN + |extra|, 2) + extra
    }
  }

  lemma TwoBytes(n: nat)
    requires n < U16
    ensures Little(n, 2) == [n % 0x100, n / 0x100]
  {
    assert Little(n / 0x100, 1) == [n / 0x100 % 0x100] + Little(n / 0x100 / 0x100, 0);
  }

  lemma FourBytes(n: nat)
    requires n < U32
    ensures Little(n, 4) == [n % 0x100, n / 0x100 % 0x100, n / 0x1_0000 % 0x100, n / 0x100_0000]
  {
    assert Little(n, 4) == [n % 0x100] + Little(n / 0x100, 3);
    assert Little(n / 0x100, 3) == [n / 0x100 % 0x100] + Little(n / 0x1_0000, 2);
    TwoBytes(n / 0x1_0000);
  }

  lemma Words(n: nat)
    ensures Le16(n % 0x100, n / 0x100 % 0x100) + 0x1_0000 * Le16(n / 0x1_0000 % 0x100, n / 0x100_0000) == n
  {
    assert n / 0x100 / 0x100 == n / 0x1_0000 && n / 0x1_0000 / 0x100 == n / 0x100_0000;
    assert n == n % 0x100 + 0x100 * (n / 0x100);
    assert n / 0x100 == n / 0x100 % 0x100 + 0x100 * (n / 0x1_0000);
    assert n / 0x1_0000 == n / 0x1_0000 % 0x100 + 0x100 * (n / 0x100_0000);
  }

  lemma Layout(stamp: seq<Byte>, cap: seq<Byte>, data: seq<Byte>, hdr: seq<Byte>, rest: seq<Byte>)
    requires |stamp| == 8 && |cap| == |data| == 4 && |hdr| == 2
    ensures var b := stamp + cap + data + hdr + rest;
            && Caplen(b, 0) == Le16(cap[0], cap[1]) + 0x1_0000 * Le16(cap[2], cap[3])
            && Hdrlen(b, 0) == Le16(hdr[0], hdr[1])
  {
    var b := stamp + cap + data + hdr + rest;
    assert b[8] == cap[0] && b[9] == cap[1] && b[10] == cap[2] && b[11] == cap[3];
    assert b[16] == hdr[0] && b[17] == hdr[1];
  }

  lemma Assoc<T>(a: seq<T>, b: seq<T>, c: seq<T>)
    ensures a + b + c == a + (b + c)
  {
  }

  /** A header stands as written, whatever follows it. */
  lemma HeaderReads(r: Record, rest: seq<Byte>)
    requires r.Valid()
    ensures |r.Header()| == HEADER_MIN + |r.extra|
    ensures Caplen(r.Header() + rest, 0) == |r.frame| && Hdrlen(r.Header() + rest, 0) == |r.Header()|
  {
    var n, h := |r.frame|, HEADER_MIN + |r.extra|;
    var cap, hdr := Little(n, 4), Little(h, 2);
    Layout(r.stamp, cap, r.datalen, hdr, r.extra + rest);
    Assoc(r.stamp + cap + r.datalen + hdr, r.extra, rest);
    FourBytes(n);
    Words(n);
    TwoBytes(h);
  }

  /** What is read at an offset does not depend on what stands before it. */
  ghost predicate Local(f: Format) {
    forall a: seq<Byte>, t: seq<Byte>, k: nat :: a != [] && k + HEADER_MIN <= |t| ==>
      f.hdrlen(a + t, |a| + k) == f.hdrlen(t, k) && f.caplen(a + t, |a| + k) == f.caplen(t, k)
  }

  lemma DarwinIsLocal()
    ensures Local(DARWIN)
  {
    forall a: seq<Byte>, t: seq<Byte>, k: nat | a != [] && k + HEADER_MIN <= |t|
      ensures DARWIN.hdrlen(a + t, |a| + k) == DARWIN.hdrlen(t, k) && DARWIN.caplen(a + t, |a| + k) == DARWIN.caplen(t, k)
    {
      Shifted(a, t, k);
    }
  }

  lemma Shifted(a: seq<Byte>, t: seq<Byte>, k: nat)
    requires k + HEADER_MIN <= |t|
    ensures Caplen(a + t, |a| + k) == Caplen(t, k) && Hdrlen(a + t, |a| + k) == Hdrlen(t, k)
  {
  }

  /** What stands after a non-empty part of a buffer is split as if it stood alone. */
  lemma {:induction false} SplitShifts(a: seq<Byte>, t: seq<Byte>, f: Format, k: nat)
    requires a != [] && Local(f)
    ensures Split(a + t, f, |a| + k) == Split(t, f, k)
    decreases |t| - k
  {
    if HasRecord(t, f, k) {
      SplitShifts(a, t, f, After(t, f, k));
      RecordShifts(a, t, f, k);
      ConsShifts(a, t, f, k, Split(t, f, After(t, f, k)));
    } else {
      NilShifts(a, t, f, k);
    }
  }

  lemma ConsShifts(a: seq<Byte>, t: seq<Byte>, f: Format, k: nat, rest: seq<seq<Byte>>)
    requires HasRecord(t, f, k) && HasRecord(a + t, f, |a| + k)
    requires FrameAt(a + t, f, |a| + k) == Span(|a| + FrameAt(t, f, k).start, |a| + FrameAt(t, f, k).end)
    requires Split(a + t, f, After(a + t, f, |a| + k)) == rest
    ensures Split(a + t, f, |a| + k) == [Cut(t, FrameAt(t, f, k).start, FrameAt(t, f, k).end)] + rest
  {
    CutShifts(a, t, FrameAt(t, f, k).start, FrameAt(t, f, k).end);
  }

  lemma SplitAs(b: seq<Byte>, f: Format, offset: nat, s: Span, frame: seq<Byte>, next: nat, rest: seq<seq<Byte>>)
    requires HasRecord(b, f, offset) && FrameAt(b, f, offset) == s && Cut(b, s.start, s.end) == frame
    requires After(b, f, offset) == next && Split(b, f, next) == rest
    ensures Split(b, f, offset) == [frame] + rest
  {
  }

  lemma NilShifts(a: seq<Byte>, t: seq<Byte>, f: Format, k: nat)
    requires a != [] && Local(f) && !HasRecord(t, f, k)
    ensures Split(a + t, f, |a| + k) == [] == Split(t, f, k)
  {
    RecordShifts(a, t, f, k);
  }

  lemma SplitNil(b: seq<Byte>, f: Format, offset: nat)
    requires !HasRecord(b, f, offset)
    ensures Split(b, f, offset) == []
  {
  }

  lemma RecordShifts(a: seq<Byte>, t: seq<Byte>, f: Format, k: nat)
    requires a != [] && Local(f)
    ensures HasRecord(a + t, f, |a| + k) <==> HasRecord(t, f, k)
    ensures HasRecord(t, f, k) ==> FrameAt(a + t, f, |a| + k) == Span(|a| + FrameAt(t, f, k).start, |a| + FrameAt(t, f, k).end)
    ensures HasRecord(t, f, k) ==> After(a + t, f, |a| + k) == |a| + After(t, f, k)
  {
    if k + HEADER_MIN <= |t| {
      assert f.hdrlen(a + t, |a| + k) == f.hdrlen(t, k) && f.caplen(a + t, |a| + k) == f.caplen(t, k);
    }
  }

  /** A record as the splitter sees it: a header that gives both lengths, the frame, the padding. */
  datatype Piece = Piece(header: seq<Byte>, frame: seq<Byte>, padding: seq<Byte>) {
    function Bytes(): seq<Byte> {
      header + frame + padding
    }
  }

  ghost predicate Laid(p: Piece, f: Format) {
    && |p.header| >= HEADER_MIN && |p.frame| > 0
    && Align(|p.header| + |p.frame|) == |p.header| + |p.frame| + |p.padding|
    && forall rest :: f.hdrlen(p.header + rest, 0) == |p.header| && f.caplen(p.header + rest, 0) == |p.frame|
  }

  lemma Middle(a: seq<Byte>, b: seq<Byte>, c: seq<Byte>)
    requires a != []
    ensures Cut(a + b + c, |a|, |a| + |b|) == b
  {
    CutIsSlice(a + b + c, |a|, |a| + |b|);
    assert (a + b + c)[|a|..|a| + |b|] == b;
  }

  /** The record at the front of a buffer, whatever padding and records follow its frame. */
  lemma FrontPiece(p: Piece, f: Format, after: seq<Byte>)
    requires Laid(p, f)
    ensures Split(p.header + p.frame + after, f, 0) == [p.frame] + Split(p.header + p.frame + after, f, |p.Bytes()|)
  {
    var b := p.header + p.frame + after;
    Assoc(p.header, p.frame, after);
    assert f.hdrlen(b, 0) == |p.header| && f.caplen(b, 0) == |p.frame|;
    Middle(p.header, p.frame, after);
    SplitAs(b, f, 0, Span(|p.header|, |p.header| + |p.frame|), p.frame, |p.Bytes()|, Split(b, f, |p.Bytes()|));
  }

  lemma FirstPiece(p: Piece, f: Format, rest: seq<Byte>)
    requires Laid(p, f) && Local(f)
    ensures Split(p.Bytes() + rest, f, 0) == [p.frame] + Split(rest, f, 0)
  {
    FrontPiece(p, f, p.padding + rest);
    Assoc(p.header + p.frame, p.padding, rest);
    SplitShifts(p.Bytes(), rest, f, 0);
  }

  /** The last record, with its padding complete or cut short by the buffer's end. */
  lemma LastPiece(p: Piece, f: Format, padding: seq<Byte>)
    requires Laid(p, f) && |padding| <= |p.padding|
    ensures Split(p.header + p.frame + padding, f, 0) == [p.frame]
  {
    FrontPiece(p, f, padding);
    SplitNil(p.header + p.frame + padding, f, |p.Bytes()|);
  }

  function Packed(pieces: seq<Piece>): seq<Byte> {
    if pieces == [] then [] else pieces[0].Bytes() + Packed(pieces[1..])
  }

  function FramesOf(pieces: seq<Piece>): seq<seq<Byte>> {
    if pieces == [] then [] else [pieces[0].frame] + FramesOf(pieces[1..])
  }

  ghost predicate AllLaid(pieces: seq<Piece>, f: Format) {
    pieces == [] || (Laid(pieces[0], f) && AllLaid(pieces[1..], f))
  }

  lemma PackedNil(pieces: seq<Piece>, f: Format, tail: seq<Byte>)
    requires pieces == []
    ensures Split(Packed(pieces) + tail, f, 0) == FramesOf(pieces) + Split(tail, f, 0)
  {
    assert Packed(pieces) + tail == tail;
  }

  lemma PackedCons(pieces: seq<Piece>, f: Format, tail: seq<Byte>)
    requires AllLaid(pieces, f) && Local(f) && pieces != []
    ensures Split(Packed(pieces) + tail, f, 0) == [pieces[0].frame] + Split(Packed(pieces[1..]) + tail, f, 0)
  {
    FirstPiece(pieces[0], f, Packed(pieces[1..]) + tail);
    Assoc(pieces[0].Bytes(), Packed(pieces[1..]), tail);
  }

  lemma {:induction false} PiecesSplit(pieces: seq<Piece>, f: Format, tail: seq<Byte>)
    requires AllLaid(pieces, f) && Local(f)
    ensures Split(Packed(pieces) + tail, f, 0) == FramesOf(pieces) + Split(tail, f, 0)
  {
    if pieces == [] {
      PackedNil(pieces, f, tail);
    } else {
      PiecesSplit(pieces[1..], f, tail);
      PackedCons(pieces, f, tail);
      Assoc([pieces[0].frame], FramesOf(pieces[1..]), Split(tail, f, 0));
    }
  }

  // ----- for the records the kernel writes

  function PieceOf(r: Record): Piece {
    Piece(r.Header(), r.frame, r.padding)
  }

  lemma RecordIsLaid(r: Record)
    requires r.Valid()
    ensures Laid(PieceOf(r), DARWIN)
  {
    HeaderReads(r, []);
    forall rest ensures DARWIN.hdrlen(r.Header() + rest, 0) == |r.Header()| && DARWIN.caplen(r.Header() + rest, 0) == |r.frame| {
      HeaderReads(r, rest);
    }
  }

  function PiecesOf(records: seq<Record>): seq<Piece> {
    if records == [] then [] else [PieceOf(records[0])] + PiecesOf(records[1..])
  }

  predicate AllValid(records: seq<Record>) {
    forall i :: 0 <= i < |records| ==> records[i].Valid()
  }

  lemma {:induction false} RecordsAreLaid(records: seq<Record>)
    requires AllValid(records)
    ensures AllLaid(PiecesOf(records), DARWIN)
  {
    if records != [] {
      RecordIsLaid(records[0]);
      RecordsAreLaid(records[1..]);
      assert PiecesOf(records)[1..] == PiecesOf(records[1..]);
    }
  }

  lemma {:induction false} FramesOfRecords(records: seq<Record>)
    ensures |FramesOf(PiecesOf(records))| == |records|
    ensures forall i :: 0 <= i < |records| ==> FramesOf(PiecesOf(records))[i] == records[i].frame
  {
    if records != [] {
      FramesOfRecords(records[1..]);
      assert PiecesOf(records)[1..] == PiecesOf(records[1..]);
    }
  }

  /**
   * For every list of records and whatever follows it, the splitter returns exactly the
   * records' frames, in order, and then the frames of what follows.
   */
  lemma PackedSplits(records: seq<Record>, tail: seq<Byte>)
    requires AllValid(records)
    ensures var frames := FramesOf(PiecesOf(records));
            && |frames| == |records| && (forall i :: 0 <= i < |records| ==> frames[i] == records[i].frame)
            && Split(Packed(PiecesOf(records)) + tail, DARWIN, 0) == frames + Split(tail, DARWIN, 0)
  {
    DarwinIsLocal();
    RecordsAreLaid(records);
    FramesOfRecords(records);
    PiecesSplit(PiecesOf(records), DARWIN, tail);
  }

  /** A last record gives its frame even if the buffer ends before its padding does. */
  lemma LastRecord(r: Record, padding: seq<Byte>)
    requires r.Valid() && |padding| <= |r.padding|
    ensures Split(r.Header() + r.frame + padding, DARWIN, 0) == [r.frame]
  {
    RecordIsLaid(r);
    LastPiece(PieceOf(r), DARWIN, padding);
  }
}
