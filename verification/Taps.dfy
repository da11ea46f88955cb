/** internal/tap: the tee that frames a server-sent event stream while the adapter reads it. */
module Taps {

  newtype byte = b: int | 0 <= b < 256

  const LF: byte := 10
  const CR: byte := 13

  /** maxTeeBuffer (tap.go). */
  const CAP := 0x10_0000

  predicate LfLfAt(b: seq<byte>, i: int) {
    0 <= i && i + 2 <= |b| && b[i] == LF && b[i + 1] == LF
  }

  predicate CrLfAt(b: seq<byte>, i: int) {
    0 <= i && i + 4 <= |b| && b[i] == CR && b[i + 1] == LF && b[i + 2] == CR && b[i + 3] == LF
  }

  /** bytes.Index(b, "\n\n"). */
  function FirstLfLf(b: seq<byte>, from: nat): (i: int)
    ensures i == -1 || (i >= from && LfLfAt(b, i))
    ensures forall j | from <= j && (i == -1 || j < i) :: !LfLfAt(b, j)
    decreases |b| - from
  {
    if from + 2 > |b| then -1 else if LfLfAt(b, from) then from else FirstLfLf(b, from + 1)
  }

  /** bytes.Index(b, "\r\n\r\n"). */
  function FirstCrLf(b: seq<byte>, from: nat): (i: int)
    ensures i == -1 || (i >= from && CrLfAt(b, i))
    ensures forall j | from <= j && (i == -1 || j < i) :: !CrLfAt(b, j)
    decreases |b| - from
  {
    if from + 4 > |b| then -1 else if CrLfAt(b, from) then from else FirstCrLf(b, from + 1)
  }

  /** Where the first frame of `b` ends and how wide its terminator is; (-1, 0) if it does not. */
  function FrameEnd(b: seq<byte>): (r: (int, int))
    ensures r == (-1, 0) || (0 <= r.0 && 2 <= r.1 && r.0 + r.1 <= |b|)
  {
    var lf, crlf := FirstLfLf(b, 0), FirstCrLf(b, 0);
    if lf < 0 && crlf < 0 then (-1, 0)
    else if lf < 0 || (crlf >= 0 && crlf < lf) then (crlf, 4)
    else (lf, 2)
  }

  /** The frames of a whole stream. */
  function Frames(b: seq<byte>): seq<seq<byte>>
    decreases |b|
  {
    var (end, width) := FrameEnd(b);
    if end < 0 then [] else [b[..end]] + Frames(b[end + width..])
  }

  /** What follows the last complete frame. */
  function Rest(b: seq<byte>): seq<byte>
    decreases |b|
  {
    var (end, width) := FrameEnd(b);
    if end < 0 then b else Rest(b[end + width..])
  }

  /** Where a match lies wholly in `a`, what follows `a` does not matter. */
  lemma MatchesStay(a: seq<byte>, b: seq<byte>)
    ensures forall j | j + 2 <= |a| :: LfLfAt(a + b, j) == LfLfAt(a, j)
    ensures forall j | j + 4 <= |a| :: CrLfAt(a + b, j) == CrLfAt(a, j)
    ensures forall j | CrLfAt(a + b, j) :: !LfLfAt(a + b, j + 1) && !LfLfAt(a + b, j + 2)
  {
  }

  /** The match that starts first also completes first: bytes that arrive later cannot move the
      end of a frame, whichever of the two terminators closed it. */
  lemma FrameEndIsStable(a: seq<byte>, b: seq<byte>)
    requires FrameEnd(a).0 >= 0
    ensures FrameEnd(a + b) == FrameEnd(a)
  {
    MatchesStay(a, b);
    var (end, width) := FrameEnd(a);
    var crlf := FirstCrLf(a + b, 0);
    if width == 2 {
      assert LfLfAt(a + b, end);
      assert crlf == -1 || crlf + 4 <= |a| || !LfLfAt(a + b, crlf + 1);
      assert FirstLfLf(a + b, 0) == end;
    } else {
      assert CrLfAt(a + b, end);
      assert crlf == end;
      assert FirstLfLf(a + b, 0) != end + 1;
    }
  }

  lemma FrameStep(b: seq<byte>)
    requires FrameEnd(b).0 >= 0
    ensures var (end, width) := FrameEnd(b);
            Frames(b) == [b[..end]] + Frames(b[end + width..]) && Rest(b) == Rest(b[end + width..])
  {
  }

  lemma FrameStepExtended(a: seq<byte>, b: seq<byte>)
    requires FrameEnd(a).0 >= 0
    ensures var (end, width) := FrameEnd(a); var rest := a[end + width..];
            Frames(a + b) == [a[..end]] + Frames(rest + b) && Rest(a + b) == Rest(rest + b)
  {
    var (end, width) := FrameEnd(a);
    FrameEndIsStable(a, b);
    FrameStep(a + b);
    assert (a + b)[..end] == a[..end];
    assert (a + b)[end + width..] == a[end + width..] + b;
  }

  lemma Associate<T>(a: seq<T>, b: seq<T>, c: seq<T>)
    ensures a + (b + c) == (a + b) + c
  {
  }

  /** Framing in two parts, the residue of the first carried over, is framing the whole. */
  lemma {:induction false} FramesSplit(a: seq<byte>, b: seq<byte>)
    ensures Frames(a + b) == Frames(a) + Frames(Rest(a) + b)
    ensures Rest(a + b) == Rest(Rest(a) + b)
    decreases |a|
  {
    var (end, width) := FrameEnd(a);
    if end < 0 {
      assert Frames(a) == [] && Rest(a) == a;
    } else {
      var rest := a[end + width..];
      FrameStepExtended(a, b);
      FramesSplit(rest, b);
      FrameStep(a);
      Associate([a[..end]], Frames(rest), Frames(Rest(rest) + b));
    }
  }

  lemma {:induction false} RestIsUnframed(b: seq<byte>)
    ensures FrameEnd(Rest(b)).0 < 0
    decreases |b|
  {
    var (end, width) := FrameEnd(b);
    if end >= 0 {
      RestIsUnframed(b[end + width..]);
    }
  }

  class SseTee {
    var buf: seq<byte>
    var frames: seq<seq<byte>>    // the frames passed to ParseFrame

    constructor ()
      ensures buf == [] && frames == []
    {
      buf, frames := [], [];
    }

    /** Hand over every complete frame in the buffer. */
    method Drain()
      modifies this
      ensures frames == old(frames) + Frames(old(buf)) && buf == Rest(old(buf))
    {
      while true
        invariant frames + Frames(buf) == old(frames) + Frames(old(buf))
        invariant Rest(buf) == Rest(old(buf))
        decreases |buf|
      {
        var (end, width) := FrameEnd(buf);
        if end < 0 {
          return;
        }
        FrameStep(buf);
        ghost var later := Frames(buf[end + width..]);
        assert frames + ([buf[..end]] + later) == (frames + [buf[..end]]) + later;
        frames := frames + [buf[..end]];
        buf := buf[end + width..];
      }
    }

    /** sseTee.Read after the underlying reader delivered `p`. */
    method Read(p: seq<byte>) returns (passed: seq<byte>)
      modifies this
      ensures passed == p
      ensures p == [] ==> buf == old(buf) && frames == old(frames)
      ensures p != [] ==> frames == old(frames) + Frames(old(buf) + p)
      ensures p != [] ==> buf == if |Rest(old(buf) + p)| > CAP then [] else Rest(old(buf) + p)
    {
      if p != [] {
        buf := buf + p;
        Drain();
        if |buf| > CAP {
          buf := [];
        }
      }
      passed := p;
    }
  }

  // ---- reads of any size ----

  datatype Tee = Tee(buf: seq<byte>, frames: seq<seq<byte>>)

  /** One read, as Read's contract states it. */
  function AfterRead(t: Tee, p: seq<byte>): Tee {
    if p == [] then t
    else
      var rest := Rest(t.buf + p);
      Tee(if |rest| > CAP then [] else rest, t.frames + Frames(t.buf + p))
  }

  function AfterReads(chunks: seq<seq<byte>>): Tee {
    if chunks == [] then Tee([], [])
    else AfterRead(AfterReads(chunks[..|chunks| - 1]), chunks[|chunks| - 1])
  }

  function Stream(chunks: seq<seq<byte>>): seq<byte> {
    if chunks == [] then [] else Stream(chunks[..|chunks| - 1]) + chunks[|chunks| - 1]
  }

  /** No read leaves more unframed bytes than the buffer may keep. */
  predicate WithinCap(chunks: seq<seq<byte>>) {
    forall n | 0 <= n <= |chunks| :: |Rest(Stream(chunks[..n]))| <= CAP
  }

  /** Chunk independence: however the stream is cut into reads, the tee emits the frames of the
      stream read at once. */
  lemma {:induction false} ChunkIndependence(chunks: seq<seq<byte>>)
    requires WithinCap(chunks)
    ensures AfterReads(chunks) == Tee(Rest(Stream(chunks)), Frames(Stream(chunks)))
  {
    if chunks != [] {
      var last := |chunks| - 1;
      var before, p := chunks[..last], chunks[last];
      assert forall n | 0 <= n <= last :: before[..n] == chunks[..n];
      ChunkIndependence(before);
      FramesSplit(Stream(before), p);
      if p == [] {
        assert Stream(before) + p == Stream(before);
      } else {
        assert chunks[..|chunks|] == chunks;
      }
    }
  }

  /** With the buffer of one mebibyte that the tee keeps: as long as no read leaves more than that
      unframed, cutting makes no difference. */
  lemma MebibyteIsKept(chunks: seq<seq<byte>>)
    requires forall n | 0 <= n <= |chunks| :: |Rest(Stream(chunks[..n]))| <= 1024 * 1024
    ensures AfterReads(chunks).frames == Frames(Stream(chunks))
    ensures AfterReads(chunks).buf == Rest(Stream(chunks))
  {
    ChunkIndependence(chunks);
  }

  /** And one read that leaves more loses just that, and none of the frames it completed. */
  lemma OversizedResidueIsDropped(chunks: seq<seq<byte>>, last: seq<byte>)
    requires forall n | 0 <= n <= |chunks| :: |Rest(Stream(chunks[..n]))| <= 1024 * 1024
    requires |Rest(Stream(chunks + [last]))| > 1024 * 1024
    ensures AfterReads(chunks + [last]) == Tee([], Frames(Stream(chunks + [last])))
  {
    MebibyteIsKept(chunks);
    assert (chunks + [last])[..|chunks|] == chunks == chunks[..|chunks|];
    FramesSplit(Stream(chunks), last);
    assert Stream(chunks) + [] == Stream(chunks);
  }

  /** The tee never holds more than that between reads, whatever it is fed. */
  lemma {:induction false} BufferStaysBounded(chunks: seq<seq<byte>>)
    ensures |AfterReads(chunks).buf| <= 1024 * 1024
  {
    if chunks != [] {
      BufferStaysBounded(chunks[..|chunks| - 1]);
    }
  }

  // ---- a reference that never searches ----

  predicate EndsWithLfLf(b: seq<byte>) {
    LfLfAt(b, |b| - 2)
  }

  predicate EndsWithCrLf(b: seq<byte>) {
    CrLfAt(b, |b| - 4)
  }

  /** The reference: take bytes one at a time and close a frame the moment a blank line is
      complete. */
  function ByByte(b: seq<byte>): Tee {
    if b == [] then Tee([], [])
    else
      var t := ByByte(b[..|b| - 1]);
      var next := t.buf + [b[|b| - 1]];
      if EndsWithLfLf(next) then Tee([], t.frames + [next[..|next| - 2]])
      else if EndsWithCrLf(next) then Tee([], t.frames + [next[..|next| - 4]])
      else Tee(next, t.frames)
  }

  /** Where nothing was complete, one more byte can only complete a blank line at the very end. */
  lemma OneMoreByte(b: seq<byte>, x: byte)
    requires FrameEnd(b).0 < 0
    ensures FrameEnd(b + [x]) ==
            if EndsWithLfLf(b + [x]) then (|b| - 1, 2)
            else if EndsWithCrLf(b + [x]) then (|b| - 3, 4)
            else (-1, 0)
  {
    var next := b + [x];
    forall j | 0 <= j && j + 2 < |next|
      ensures !LfLfAt(next, j)
    {
      assert !LfLfAt(b, j);
    }
    forall j | 0 <= j && j + 4 < |next|
      ensures !CrLfAt(next, j)
    {
      assert !CrLfAt(b, j);
    }
  }

  /** Searching for the earliest match and watching for the first completed blank line frame
      every stream alike. */
  lemma {:induction false} FramesMeanBlankLines(b: seq<byte>)
    ensures ByByte(b) == Tee(Rest(b), Frames(b))
  {
    if b != [] {
      var before, x := b[..|b| - 1], b[|b| - 1];
      assert b == before + [x];
      FramesMeanBlankLines(before);
      FramesSplit(before, [x]);
      RestIsUnframed(before);
      LastByte(Rest(before), x);
    }
  }

  /** What one more byte makes of bytes that hold no complete frame. */
  lemma LastByte(r: seq<byte>, x: byte)
    requires FrameEnd(r).0 < 0
    ensures var next := r + [x];
            && Frames(next) == (if EndsWithLfLf(next) then [next[..|next| - 2]]
                                else if EndsWithCrLf(next) then [next[..|next| - 4]] else [])
            && Rest(next) == if EndsWithLfLf(next) || EndsWithCrLf(next) then [] else next
  {
    var next := r + [x];
    OneMoreByte(r, x);
    var (end, width) := FrameEnd(next);
    if end >= 0 {
      FrameStep(next);
      assert next[end + width..] == [];
      assert Frames([]) == [] && Rest([]) == [];
      assert [next[..end]] + [] == [next[..end]];
    }
  }

  // ---- against the standard's empty line ----

  /** Where the line end that the LF at `p` completes begins: at its CR, or at the LF itself. */
  function LineEnd(b: seq<byte>, p: nat): nat
    requires p < |b|
  {
    if p > 0 && b[p - 1] == CR then p - 1 else p
  }

  /** An empty line in the sense of section 9.2.5 of the WHATWG HTML standard, for LF and CRLF line
      ends: the line end completed at `p` follows another line end, or nothing. */
  predicate EmptyLine(b: seq<byte>, p: nat) {
    p < |b| && b[p] == LF && (LineEnd(b, p) == 0 || b[LineEnd(b, p) - 1] == LF)
  }

  predicate FirstEmptyLine(b: seq<byte>, p: nat) {
    EmptyLine(b, p) && forall q | 0 <= q < p :: !EmptyLine(b, q)
  }

  /** The empty line at `p` is a CRLF after a bare LF. */
  predicate CrLfAfterLf(b: seq<byte>, p: nat) {
    EmptyLine(b, p) && LineEnd(b, p) == p - 1 && p >= 2 && (p == 2 || b[p - 3] != CR)
  }

  /** An empty line FrameEnd sees: not the very first line, where there is nothing to close, and not
      a CRLF after a bare LF, which the standard takes for an empty line and FrameEnd does not. */
  predicate Separates(b: seq<byte>, p: nat) {
    EmptyLine(b, p) && LineEnd(b, p) > 0 && !CrLfAfterLf(b, p)
  }

  /** The frame that FrameEnd finds is closed by the line end at `p`. */
  predicate Closes(b: seq<byte>, p: nat) {
    FrameEnd(b).0 >= 0 && FrameEnd(b).0 + FrameEnd(b).1 == p + 1
  }

  /** No match of either terminator completes before the one FrameEnd chooses. */
  lemma NothingCompletesEarlier(b: seq<byte>, i: nat)
    ensures LfLfAt(b, i) ==> FrameEnd(b).0 >= 0 && FrameEnd(b).0 + FrameEnd(b).1 <= i + 2
    ensures CrLfAt(b, i) ==> FrameEnd(b).0 >= 0 && FrameEnd(b).0 + FrameEnd(b).1 <= i + 4
  {
    var lf, crlf := FirstLfLf(b, 0), FirstCrLf(b, 0);
    assert lf >= 0 ==> LfLfAt(b, lf);
    assert crlf >= 0 ==> CrLfAt(b, crlf);
  }

  /** Every frame is closed by an empty line of that kind. */
  lemma FramesCloseAtEmptyLines(b: seq<byte>)
    requires FrameEnd(b).0 >= 0
    ensures Separates(b, FrameEnd(b).0 + FrameEnd(b).1 - 1)
  {
    var (end, width) := FrameEnd(b);
    assert if width == 2 then LfLfAt(b, end) else CrLfAt(b, end);
  }

  lemma SeparatorIsMatched(b: seq<byte>, p: nat)
    requires Separates(b, p)
    ensures FrameEnd(b).0 >= 0 && FrameEnd(b).0 + FrameEnd(b).1 <= p + 1
  {
    if LineEnd(b, p) == p {
      assert LfLfAt(b, p - 1);
      NothingCompletesEarlier(b, p - 1);
    } else {
      assert CrLfAt(b, p - 3);
      NothingCompletesEarlier(b, p - 3);
    }
  }

  /** Exactly where a frame is closed, in any stream: at the first empty line FrameEnd sees. */
  lemma FrameClosesExactly(b: seq<byte>, p: nat)
    ensures Closes(b, p) <==> Separates(b, p) && forall q | 0 <= q < p :: !Separates(b, q)
  {
    if FrameEnd(b).0 >= 0 {
      FramesCloseAtEmptyLines(b);
    }
    forall q | 0 <= q <= p && Separates(b, q)
      ensures FrameEnd(b).0 >= 0 && FrameEnd(b).0 + FrameEnd(b).1 <= q + 1
    {
      SeparatorIsMatched(b, q);
    }
  }

  /** So of the standard's empty lines the first one closes the first frame, with these two
      exceptions. */
  lemma FirstEmptyLineCloses(b: seq<byte>, p: nat)
    requires FirstEmptyLine(b, p)
    ensures Closes(b, p) <==> LineEnd(b, p) > 0 && !CrLfAfterLf(b, p)
  {
    FrameClosesExactly(b, p);
  }

  /** With one kind of line end throughout, the second exception does not arise. */
  lemma UniformLineEndsClose(b: seq<byte>, p: nat)
    requires FirstEmptyLine(b, p) && LineEnd(b, p) > 0
    requires CR !in b || forall i | 0 <= i < |b| && b[i] == LF :: i > 0 && b[i - 1] == CR
    ensures Closes(b, p)
  {
    FirstEmptyLineCloses(b, p);
    assert b[LineEnd(b, p) - 1] == LF;
  }

  /** Line ends of lone carriage returns, which the standard also knows, close nothing at all. */
  lemma LoneCrsCloseNothing(b: seq<byte>)
    requires LF !in b
    ensures Frames(b) == [] && Rest(b) == b
  {
    assert forall j :: !LfLfAt(b, j) && !CrLfAt(b, j);
  }
}
