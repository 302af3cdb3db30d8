/** The index of the JPEG frames of an AVI file: one pass over reads of any size. */
module JpegIndex {
  import opened Bytes

  /** The scan starts behind the 12-byte file header. */
  const SCAN_START := 12

  datatype Frame = Frame(offset: nat, size: nat)

  /** Two-byte markers that lie within the first `n` bytes (section B.1.1.3 of ITU-T T.81). */
  predicate Soi(file: seq<byte>, n: nat, i: nat)
    requires n <= |file|
  {
    SCAN_START <= i && i + 2 <= n && file[i] == 0xFF && file[i + 1] == 0xD8
  }

  predicate Eoi(file: seq<byte>, n: nat, i: nat)
    requires n <= |file|
  {
    SCAN_START <= i && i + 2 <= n && file[i] == 0xFF && file[i + 1] == 0xD9
  }

  /** Where the frame before number `k` ends. */
  function End(frames: seq<Frame>, k: nat): nat
    requires k <= |frames|
  {
    if k == 0 then SCAN_START else frames[k - 1].offset + frames[k - 1].size
  }

  /** Frame `k` starts at the first SOI behind the frame before it, and ends with the first EOI that
      follows. */
  ghost predicate IsNextFrame(file: seq<byte>, n: nat, from: nat, f: Frame)
    requires n <= |file|
  {
    && from <= f.offset && f.size >= 4
    && Soi(file, n, f.offset) && Eoi(file, n, f.offset + f.size - 2)
    && (forall i :: from <= i < f.offset ==> !Soi(file, n, i))
    && (forall i :: f.offset <= i < f.offset + f.size - 2 ==> !Eoi(file, n, i))
  }

  ghost predicate FrameAt(file: seq<byte>, n: nat, frames: seq<Frame>, k: nat)
    requires n <= |file| && k < |frames|
  {
    IsNextFrame(file, n, End(frames, k), frames[k])
  }

  ghost predicate AllFrames(file: seq<byte>, n: nat, frames: seq<Frame>)
    requires n <= |file|
  {
    forall k :: 0 <= k < |frames| ==> FrameAt(file, n, frames, k)
  }

  /** What is open behind the last frame: nothing, or a frame whose SOI was seen. */
  ghost predicate IsOpen(file: seq<byte>, n: nat, from: nat, inside: bool, start: nat)
    requires n <= |file|
  {
    if inside then
      && from <= start && Soi(file, n, start)
      && (forall i :: from <= i < start ==> !Soi(file, n, i))
      && (forall i :: start <= i ==> !Eoi(file, n, i))
    else forall i :: from <= i ==> !Soi(file, n, i)
  }

  /** The index of the first `n` bytes, said without any scanning order. */
  ghost predicate Indexed(file: seq<byte>, n: nat, frames: seq<Frame>, inside: bool, start: nat)
    requires n <= |file|
  {
    && AllFrames(file, n, frames)
    && IsOpen(file, n, End(frames, |frames|), inside, start)
  }

  lemma {:induction false} NextFrameIsUnique(file: seq<byte>, n: nat, from: nat, f: Frame, g: Frame)
    requires n <= |file| && IsNextFrame(file, n, from, f) && IsNextFrame(file, n, from, g)
    ensures f == g
  {
    assert !(f.offset < g.offset) && !(g.offset < f.offset);
    assert !(f.offset + f.size - 2 < g.offset + g.size - 2);
  }

  lemma {:induction false} NoFrameWhereOpen(file: seq<byte>, n: nat, from: nat, f: Frame, inside: bool, start: nat)
    requires n <= |file| && IsNextFrame(file, n, from, f)
    ensures !IsOpen(file, n, from, inside, start)
  {
  }

  lemma {:induction false} CommonFrames(file: seq<byte>, n: nat, a: seq<Frame>, b: seq<Frame>, k: nat)
    requires n <= |file| && k <= |a| && k <= |b|
    requires AllFrames(file, n, a) && AllFrames(file, n, b)
    ensures a[..k] == b[..k]
  {
    if k > 0 {
      CommonFrames(file, n, a, b, k - 1);
      assert FrameAt(file, n, a, k - 1) && FrameAt(file, n, b, k - 1);
      assert k > 1 ==> a[..k - 1][k - 2] == b[..k - 1][k - 2];
      assert End(a, k - 1) == End(b, k - 1);
      NextFrameIsUnique(file, n, End(a, k - 1), a[k - 1], b[k - 1]);
      assert a[..k] == a[..k - 1] + [a[k - 1]] && b[..k] == b[..k - 1] + [b[k - 1]];
    }
  }

  /** Frames that go on where others stop leave nothing open there. */
  lemma {:induction false} NothingOpenBefore(file: seq<byte>, n: nat, a: seq<Frame>, b: seq<Frame>, inside: bool, start: nat)
    requires n <= |file| && AllFrames(file, n, a) && AllFrames(file, n, b) && |a| < |b|
    ensures !IsOpen(file, n, End(a, |a|), inside, start)
  {
    var k := |a|;
    CommonFrames(file, n, a, b, k);
    assert k > 0 ==> a[..k][k - 1] == b[..k][k - 1];
    assert FrameAt(file, n, b, k);
    NoFrameWhereOpen(file, n, End(b, k), b[k], inside, start);
  }

  /** There is only one index, so every way of reading the file in pieces finds the same. */
  lemma {:induction false} IndexIsUnique(file: seq<byte>, n: nat, a: seq<Frame>, inside: bool, start: nat,
                                         b: seq<Frame>, inside': bool, start': nat)
    requires n <= |file| && Indexed(file, n, a, inside, start) && Indexed(file, n, b, inside', start')
    ensures a == b && inside == inside' && (inside ==> start == start')
  {
    if |a| < |b| {
      NothingOpenBefore(file, n, a, b, inside, start);
    } else if |b| < |a| {
      NothingOpenBefore(file, n, b, a, inside', start');
    } else {
      CommonFrames(file, n, a, b, |a|);
      assert a[..|a|] == a && b[..|b|] == b;
    }
  }

  /** Indexed frames are ordered, disjoint and in bounds. */
  lemma {:induction false} FramesAreDisjoint(file: seq<byte>, n: nat, frames: seq<Frame>, inside: bool, start: nat, i: nat, j: nat)
    requires n <= |file| && Indexed(file, n, frames, inside, start) && i < j < |frames|
    ensures SCAN_START <= frames[i].offset
    ensures frames[i].offset + frames[i].size <= frames[j].offset
    ensures frames[j].offset + frames[j].size <= n
    decreases j
  {
    assert FrameAt(file, n, frames, j) && FrameAt(file, n, frames, i);
    if i < j - 1 {
      FramesAreDisjoint(file, n, frames, inside, start, i, j - 1);
    }
  }

  // ---------------------------------------------------------------- one byte more

  lemma {:induction false} MarkersBefore(file: seq<byte>, n: nat, i: nat)
    requires n < |file|
    ensures Soi(file, n, i) ==> Soi(file, n + 1, i)
    ensures Eoi(file, n, i) ==> Eoi(file, n + 1, i)
    ensures Soi(file, n + 1, i) && !Soi(file, n, i) ==> i + 2 == n + 1
    ensures Eoi(file, n + 1, i) && !Eoi(file, n, i) ==> i + 2 == n + 1
  {
  }

  lemma {:induction false} FrameStays(file: seq<byte>, n: nat, from: nat, f: Frame)
    requires n < |file| && IsNextFrame(file, n, from, f)
    ensures IsNextFrame(file, n + 1, from, f)
  {
    var next := n + 1;
    forall i | from <= i < f.offset
      ensures !Soi(file, next, i)
    {
      MarkersBefore(file, n, i);
    }
    forall i | f.offset <= i < f.offset + f.size - 2
      ensures !Eoi(file, next, i)
    {
      MarkersBefore(file, n, i);
    }
  }

  lemma {:induction false} FramesStay(file: seq<byte>, n: nat, frames: seq<Frame>)
    requires n < |file| && AllFrames(file, n, frames)
    ensures AllFrames(file, n + 1, frames)
  {
    var next := n + 1;
    forall k | 0 <= k < |frames|
      ensures FrameAt(file, next, frames, k)
    {
      assert FrameAt(file, n, frames, k);
      FrameStays(file, n, End(frames, k), frames[k]);
    }
  }

  lemma {:induction false} EndIsWithin(file: seq<byte>, n: nat, frames: seq<Frame>)
    requires SCAN_START <= n <= |file| && AllFrames(file, n, frames)
    ensures End(frames, |frames|) <= n
    ensures frames != [] ==> 0 < End(frames, |frames|) && file[End(frames, |frames|) - 1] == 0xD9
  {
    if frames != [] {
      assert FrameAt(file, n, frames, |frames| - 1);
    }
  }

  /** A marker that is complete with byte `n` starts at byte `n - 1`. */
  predicate EndsHere(file: seq<byte>, n: nat, second: byte)
    requires n < |file|
  {
    n > SCAN_START && file[n - 1] == 0xFF && file[n] == second
  }

  lemma {:induction false} OpensAt(file: seq<byte>, n: nat, frames: seq<Frame>)
    requires SCAN_START <= n < |file| && Indexed(file, n, frames, false, 0) && EndsHere(file, n, 0xD8)
    ensures Indexed(file, n + 1, frames, true, n - 1)
  {
    var next := n + 1;
    FramesStay(file, n, frames);
    EndIsWithin(file, n, frames);
    assert Soi(file, n + 1, n - 1);
    forall i | End(frames, |frames|) <= i < n - 1
      ensures !Soi(file, next, i)
    {
      MarkersBefore(file, n, i);
    }
  }

  lemma {:induction false} StaysOut(file: seq<byte>, n: nat, frames: seq<Frame>)
    requires SCAN_START <= n < |file| && Indexed(file, n, frames, false, 0)
    requires !EndsHere(file, n, 0xD8)
    ensures Indexed(file, n + 1, frames, false, 0)
  {
    var next := n + 1;
    FramesStay(file, n, frames);
    forall i | End(frames, |frames|) <= i
      ensures !Soi(file, next, i)
    {
      MarkersBefore(file, n, i);
    }
  }

  lemma {:induction false} StaysIn(file: seq<byte>, n: nat, frames: seq<Frame>, start: nat)
    requires SCAN_START <= n < |file| && Indexed(file, n, frames, true, start)
    requires !EndsHere(file, n, 0xD9)
    ensures Indexed(file, n + 1, frames, true, start)
  {
    var next := n + 1;
    FramesStay(file, n, frames);
    MarkersBefore(file, n, start);
    forall i | End(frames, |frames|) <= i < start
      ensures !Soi(file, next, i)
    {
      MarkersBefore(file, n, i);
    }
    forall i | start <= i
      ensures !Eoi(file, next, i)
    {
      MarkersBefore(file, n, i);
    }
  }

  lemma {:induction false} ClosedFrame(file: seq<byte>, n: nat, from: nat, start: nat)
    requires SCAN_START <= n < |file| && IsOpen(file, n, from, true, start) && EndsHere(file, n, 0xD9)
    ensures n + 1 >= start + 4
    ensures IsNextFrame(file, n + 1, from, Frame(start, n + 1 - start))
    ensures IsOpen(file, n + 1, n + 1, false, 0)
  {
    var next := n + 1;
    assert file[start + 1] == 0xD8 && file[n - 1] == 0xFF && file[n] == 0xD9;
    assert Eoi(file, n + 1, n - 1);
    MarkersBefore(file, n, start);
    forall i | from <= i < start
      ensures !Soi(file, next, i)
    {
      MarkersBefore(file, n, i);
    }
    forall i | start <= i < n - 1
      ensures !Eoi(file, next, i)
    {
      MarkersBefore(file, n, i);
    }
  }

  lemma {:induction false} ClosesAt(file: seq<byte>, n: nat, frames: seq<Frame>, start: nat)
    requires SCAN_START <= n < |file| && Indexed(file, n, frames, true, start) && EndsHere(file, n, 0xD9)
    ensures n + 1 >= start + 4
    ensures Indexed(file, n + 1, frames + [Frame(start, n + 1 - start)], false, 0)
  {
    var next := n + 1;
    FramesStay(file, n, frames);
    ClosedFrame(file, n, End(frames, |frames|), start);
    var more := frames + [Frame(start, n + 1 - start)];
    forall k | 0 <= k < |more|
      ensures FrameAt(file, next, more, k)
    {
      assert k < |frames| ==> FrameAt(file, n + 1, frames, k);
      assert k > 0 ==> more[k - 1] == frames[k - 1];
      assert End(more, k) == End(frames, k);
    }
  }

  // ---------------------------------------------------------------- the scanner

  /** The sizes' maximum, zero for none. */
  ghost predicate IsMaximum(frames: seq<Frame>, m: nat) {
    && (forall k :: 0 <= k < |frames| ==> frames[k].size <= m)
    && (frames != [] ==> exists k :: 0 <= k < |frames| && frames[k].size == m)
    && (frames == [] ==> m == 0)
  }

  lemma {:induction false} MaximumOneMore(frames: seq<Frame>, m: nat, f: Frame)
    requires IsMaximum(frames, m) && f.size > 0
    ensures IsMaximum(frames + [f], if f.size > m then f.size else m)
  {
    var more := frames + [f];
    if frames != [] && f.size <= m {
      var k :| 0 <= k < |frames| && frames[k].size == m;
      assert more[k].size == m;
    }
    assert more[|frames|] == f;
  }

  /** The part of `idle_video_t` the scan fills. */
  class IdleVideo {
    const frames: array<Frame>
    var frameCount: nat
    var maxFrameBytes: nat
    var inside: bool
    var start: nat

    ghost predicate Valid()
      reads this
    {
      frameCount <= frames.Length
    }

    ghost function Index(): seq<Frame>
      reads this, frames
      requires Valid()
    {
      frames[..frameCount]
    }

    /** The first `n` bytes are indexed. */
    ghost predicate Scanned(file: seq<byte>, n: nat)
      reads this, frames
    {
      && Valid() && SCAN_START <= n <= |file|
      && Indexed(file, n, Index(), inside, start) && (!inside ==> start == 0)
      && IsMaximum(Index(), maxFrameBytes)
    }

    /** The first `n` bytes hold one frame more than there is room for. */
    ghost predicate TooMany(file: seq<byte>, n: nat, found: seq<Frame>, extra: Frame)
    {
      n <= |file| && |found| == frames.Length && Indexed(file, n, found + [extra], false, 0)
    }

    constructor (capacity: nat)
      ensures Valid() && fresh(frames) && frames.Length == capacity && Index() == [] && !inside && start == 0
      ensures maxFrameBytes == 0
    {
      frames := new Frame[capacity](_ => Frame(0, 0));
      frameCount, maxFrameBytes, inside, start := 0, 0, false, 0;
    }

    method AddFrame(f: Frame)
      requires Valid() && frameCount < frames.Length
      modifies this`frameCount, this`maxFrameBytes, frames
      ensures Valid() && Index() == old(Index()) + [f]
      ensures maxFrameBytes == if f.size > old(maxFrameBytes) then f.size else old(maxFrameBytes)
    {
      frames[frameCount] := f;
      frameCount := frameCount + 1;
      if f.size > maxFrameBytes {
        maxFrameBytes := f.size;
      }
    }

    /** One byte; `previous` is the one before it, if this scan has seen one. */
    method ScanByte(current: byte, at: nat, havePrevious: bool, previous: byte, ghost file: seq<byte>) returns (ok: bool)
      requires Scanned(file, at) && at < |file| && current == file[at]
      requires havePrevious == (at > SCAN_START) && (havePrevious ==> previous == file[at - 1])
      modifies this, frames
      ensures ok ==> Scanned(file, at + 1)
      ensures !ok ==> Valid() && start <= at && TooMany(file, at + 1, Index(), Frame(start, at + 1 - start))
    {
      if havePrevious && !inside && previous == 0xFF && current == 0xD8 {
        OpensAt(file, at, Index());
        start := at - 1;
        inside := true;
      } else if havePrevious && inside && previous == 0xFF && current == 0xD9 {
        ClosesAt(file, at, Index(), start);
        if frameCount >= frames.Length {
          return false;
        }
        MaximumOneMore(Index(), maxFrameBytes, Frame(start, at + 1 - start));
        AddFrame(Frame(start, at + 1 - start));
        inside, start := false, 0;
      } else if inside {
        StaysIn(file, at, Index(), start);
      } else {
        StaysOut(file, at, Index());
      }
      ok := true;
    }

    /** `idle_video_index_jpeg_frames` over the reads of the file behind its header. The index is that of
        all that was read, however it was cut into reads. */
    method IndexJpegFrames(file: seq<byte>, cuts: seq<seq<byte>>, readFails: bool)
      returns (err: EspErr, ghost stop: nat, ghost extra: Frame)
      requires Valid() && Index() == [] && !inside && start == 0 && maxFrameBytes == 0
      requires |file| >= SCAN_START && Flatten(cuts) == file[SCAN_START..]
      modifies this, frames
      ensures Valid()
      ensures err != InvalidSize ==> Scanned(file, |file|)
      ensures err == OK <==> err != InvalidSize && !readFails && !inside && Index() != []
      ensures err == NotFound ==> Index() == []
      ensures err == Fail ==> readFails || inside
      ensures err == InvalidSize ==> TooMany(file, stop, Index(), extra)
    {
      var havePrevious, previous: byte, absolute: nat := false, 0, SCAN_START;
      assert file[SCAN_START..] == Flatten(cuts);
      for c := 0 to |cuts|
        invariant Scanned(file, absolute) && file[absolute..] == Flatten(cuts[c..])
        invariant havePrevious == (absolute > SCAN_START) && (havePrevious ==> previous == file[absolute - 1])
      {
        var chunk := cuts[c];
        assert cuts[c..][0] == chunk && cuts[c..][1..] == cuts[c + 1..];
        assert file[absolute..] == chunk + Flatten(cuts[c + 1..]);
        ghost var base := absolute;
        for index := 0 to |chunk|
          invariant absolute == base + index && base + |chunk| <= |file| && Scanned(file, absolute)
          invariant file[base..] == chunk + Flatten(cuts[c + 1..])
          invariant havePrevious == (absolute > SCAN_START) && (havePrevious ==> previous == file[absolute - 1])
        {
          var current := chunk[index];
          assert current == file[base..][index] == file[absolute];
          var ok := ScanByte(current, absolute, havePrevious, previous, file);
          if !ok {
            return InvalidSize, absolute + 1, Frame(start, absolute + 1 - start);
          }
          previous, havePrevious := current, true;
          absolute := absolute + 1;
        }
        assert file[absolute..] == file[base..][|chunk|..];
      }
      assert cuts[|cuts|..] == [] && Flatten<byte>([]) == [];
      assert |file[absolute..]| == 0;
      stop, extra := |file|, Frame(0, 0);
      if readFails || inside {
        err := Fail;
      } else {
        err := if frameCount == 0 then NotFound else OK;
      }
    }
  }
}
