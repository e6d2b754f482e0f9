/**
 * The frame retention buffer (CircularFrameBuffer.cpp): a double-ended queue
 * of frames, oldest first, with a running total of their sizes in bytes. It
 * evicts from the front either to keep the number of frames within a count
 * capacity, or, in megabyte mode, to keep the running total within a byte
 * budget.
 *
 * A texture is an opaque handle; only its descriptor enters the size
 * computation, which is done in the source's machine arithmetic: the row
 * pitch in 32-bit unsigned arithmetic (the descriptor's fields are `UINT`),
 * the products after it in 64-bit `size_t`.
 */
module FrameBuffer {

  const UINT_MOD: int := 0x1_0000_0000
  const SIZE_T_MOD: int := 0x1_0000_0000_0000_0000

  type uint32 = x: int | 0 <= x < 0x1_0000_0000

  /** The fields of `D3D11_TEXTURE2D_DESC` the size computation reads; `format` is the numeric `DXGI_FORMAT` code. */
  datatype TextureDesc = TextureDesc(width: uint32, height: uint32, arraySize: uint32, format: uint32)

  type TextureId = nat

  /** An entry of the deque: the texture, the file name it will be saved under, and its size in bytes. */
  datatype Frame = Frame(texture: TextureId, filename: string, size: nat)

  /** `(Width * Format * 8 + 7) / 8` evaluated in 32-bit unsigned arithmetic. */
  function RowPitch(d: TextureDesc): (pitch: nat)
    ensures pitch == (d.width * d.format) % 0x2000_0000
    ensures d.width * d.format < 0x2000_0000 ==> pitch == d.width * d.format
  {
    var times8 := ((d.width * d.format) % UINT_MOD * 8) % UINT_MOD;
    RowPitchArithmetic(d.width * d.format);
    ((times8 + 7) % UINT_MOD) / 8
  }

  /**
   * The arithmetic behind `RowPitch`: the numerator of the division is a
   * multiple of 8 even after wrapping, so adding 7 never carries into the
   * quotient and never wraps.
   */
  lemma RowPitchArithmetic(x: nat)
    ensures ((((x % UINT_MOD) * 8) % UINT_MOD + 7) % UINT_MOD) / 8 == x % 0x2000_0000
  {
    var r := x % 0x2000_0000;
    var q := x / 0x2000_0000;
    assert x == q * 0x2000_0000 + r;
    assert x % UINT_MOD == (q % 8) * 0x2000_0000 + r by {
      assert x == (q / 8) * UINT_MOD + ((q % 8) * 0x2000_0000 + r);
    }
    var y := (q % 8) * 0x2000_0000 + r;
    assert y * 8 == (q % 8) * UINT_MOD + r * 8;
    assert (y * 8) % UINT_MOD == r * 8;
    assert (r * 8 + 7) % UINT_MOD == r * 8 + 7;
    assert (r * 8 + 7) / 8 == r;
  }

  /** `calculate_frame_size`: row pitch times height times array size, wrapping at 2^64. */
  function FrameSize(d: TextureDesc): (size: nat)
    ensures size < SIZE_T_MOD
    ensures d.width * d.format < 0x2000_0000 && d.width * d.format * d.height * d.arraySize < SIZE_T_MOD
            ==> size == d.width * d.format * d.height * d.arraySize
  {
    var slicePitch := (RowPitch(d) * d.height) % SIZE_T_MOD;
    FrameSizeArithmetic(d);
    (slicePitch * d.arraySize) % SIZE_T_MOD
  }

  lemma FrameSizeArithmetic(d: TextureDesc)
    ensures d.width * d.format < 0x2000_0000 && d.width * d.format * d.height * d.arraySize < SIZE_T_MOD
            ==> ((RowPitch(d) * d.height) % SIZE_T_MOD * d.arraySize) % SIZE_T_MOD
                == d.width * d.format * d.height * d.arraySize
  {
    var wf := d.width * d.format;
    if wf < 0x2000_0000 && wf * d.height * d.arraySize < SIZE_T_MOD {
      var p := RowPitch(d);
      assert p == wf;
      MulBelow(p, d.height, 0x2000_0000, UINT_MOD);
      var slice := p * d.height;
      assert slice % SIZE_T_MOD == slice;
      assert slice * d.arraySize == wf * d.height * d.arraySize;
    }
  }

  lemma MulBelow(a: nat, b: nat, boundA: nat, boundB: nat)
    requires a < boundA && b < boundB
    ensures a * b < boundA * boundB
  {
    assert a * b <= a * boundB;
    assert a * boundB < boundA * boundB;
  }

  /** The sum of the sizes of `frames`. */
  function TotalSize(frames: seq<Frame>): nat {
    if frames == [] then 0 else frames[0].size + TotalSize(frames[1..])
  }

  lemma {:induction false} TotalSizeAppend(frames: seq<Frame>, f: Frame)
    ensures TotalSize(frames + [f]) == TotalSize(frames) + f.size
  {
    if frames != [] {
      assert (frames + [f])[1..] == frames[1..] + [f];
      TotalSizeAppend(frames[1..], f);
    }
  }

  /**
   * How many frames megabyte mode evicts before admitting a frame of
   * `incoming` bytes: it drops the oldest while the total plus `incoming`
   * exceeds the budget and frames remain.
   */
  function SizeEvictions(frames: seq<Frame>, capacity: nat, incoming: nat): (k: nat)
    ensures k <= |frames|
    ensures forall j :: 0 <= j < k ==> TotalSize(frames[j..]) + incoming > capacity
    ensures k == |frames| || TotalSize(frames[k..]) + incoming <= capacity
    decreases |frames|
  {
    if frames != [] && TotalSize(frames) + incoming > capacity then
      var k := 1 + SizeEvictions(frames[1..], capacity, incoming);
      assert forall j :: 1 <= j <= |frames| ==> frames[j..] == frames[1..][j - 1..];
      k
    else
      assert frames[0..] == frames;
      0
  }

  /** How many frames `add_frame` evicts: at most one in count mode, as many as needed in megabyte mode. */
  function Evictions(frames: seq<Frame>, capacity: nat, asMegabytes: bool, incoming: nat): (k: nat)
    requires asMegabytes || capacity >= 1 || frames != []
    ensures k <= |frames|
  {
    if asMegabytes then SizeEvictions(frames, capacity, incoming)
    else if |frames| == capacity then 1
    else 0
  }

  /** The deque after `add_frame(f)`: the survivors, oldest first, then `f`. */
  function Admit(frames: seq<Frame>, capacity: nat, asMegabytes: bool, f: Frame): (r: seq<Frame>)
    requires asMegabytes || capacity >= 1 || frames != []
    ensures 1 <= |r| <= |frames| + 1 && r[|r| - 1] == f
  {
    frames[Evictions(frames, capacity, asMegabytes, f.size)..] + [f]
  }

  class CircularFrameBuffer {
    var frames: seq<Frame>
    var memoryUsage: nat
    const capacity: nat
    const asMegabytes: bool

    /** The counter is the total of the stored sizes; the capacity holds as documented. */
    ghost predicate Valid()
      reads this
    {
      && memoryUsage == TotalSize(frames)
      && (!asMegabytes ==> |frames| <= capacity)
      && (asMegabytes ==> memoryUsage <= capacity || |frames| == 1)
    }

    constructor (capacity: nat, asMegabytes: bool)
      ensures Valid()
      ensures frames == [] && memoryUsage == 0
      ensures this.capacity == capacity && this.asMegabytes == asMegabytes
    {
      this.capacity := capacity;
      this.asMegabytes := asMegabytes;
      frames := [];
      memoryUsage := 0;
    }

    /**
     * `add_frame`. In count mode at capacity 0 the source pops the front of
     * an empty deque, which is undefined; the precondition excludes it.
     */
    method AddFrame(texture: TextureId, desc: TextureDesc, filename: string)
      requires Valid()
      requires asMegabytes || capacity >= 1
      modifies this
      ensures Valid()
      ensures frames == Admit(old(frames), capacity, asMegabytes, Frame(texture, filename, FrameSize(desc)))
    {
      var frameSize := FrameSize(desc);
      var f := Frame(texture, filename, frameSize);
      if asMegabytes {
        EvictForSize(frameSize);
        SizeModeAdmit(old(frames), capacity, f);
      } else {
        CountModeAdmit(frames, capacity, f);
        if |frames| == capacity {
          memoryUsage := memoryUsage - frames[0].size;
          frames := frames[1..];
        }
      }
      TotalSizeAppend(frames, f);
      frames := frames + [f];
      memoryUsage := memoryUsage + frameSize;
    }

    /** The eviction loop of megabyte mode: drop the oldest while the incoming frame would exceed the budget. */
    method EvictForSize(frameSize: nat)
      requires memoryUsage == TotalSize(frames)
      modifies this
      ensures frames == old(frames)[SizeEvictions(old(frames), capacity, frameSize)..]
      ensures memoryUsage == TotalSize(frames)
    {
      ghost var evicted := 0;
      while memoryUsage + frameSize > capacity && frames != []
        invariant 0 <= evicted <= |old(frames)|
        invariant frames == old(frames)[evicted..]
        invariant memoryUsage == TotalSize(frames)
        invariant forall j :: 0 <= j < evicted ==> TotalSize(old(frames)[j..]) + frameSize > capacity
        decreases |frames|
      {
        assert frames[1..] == old(frames)[evicted + 1..];
        memoryUsage := memoryUsage - frames[0].size;
        frames := frames[1..];
        evicted := evicted + 1;
      }
      SizeEvictionsUnique(old(frames), capacity, frameSize, evicted);
    }

    /**
     * `save_frames`, reduced to its iteration: each stored frame is written
     * under its file name, oldest first, and the buffer is left as it is.
     */
    method SaveFrames() returns (written: seq<(string, TextureId)>)
      ensures |written| == |frames|
      ensures forall i :: 0 <= i < |frames| ==> written[i] == (frames[i].filename, frames[i].texture)
    {
      written := [];
      for i := 0 to |frames|
        invariant |written| == i
        invariant forall j :: 0 <= j < i ==> written[j] == (frames[j].filename, frames[j].texture)
      {
        written := written + [(frames[i].filename, frames[i].texture)];
      }
    }
  }

  /** The stopping rule determines the number of evictions. */
  lemma SizeEvictionsUnique(frames: seq<Frame>, capacity: nat, incoming: nat, k: nat)
    requires k <= |frames|
    requires forall j :: 0 <= j < k ==> TotalSize(frames[j..]) + incoming > capacity
    requires k == |frames| || TotalSize(frames[k..]) + incoming <= capacity
    ensures SizeEvictions(frames, capacity, incoming) == k
  {
    var e := SizeEvictions(frames, capacity, incoming);
    if e < k {
      assert false;
    } else if k < e {
      assert false;
    }
  }

  /** No drift: the total of the new deque is the old total less the evicted frames plus the new one. */
  lemma {:induction false} AdmitTotal(frames: seq<Frame>, capacity: nat, asMegabytes: bool, f: Frame)
    requires asMegabytes || capacity >= 1 || frames != []
    ensures var k := Evictions(frames, capacity, asMegabytes, f.size);
      TotalSize(Admit(frames, capacity, asMegabytes, f)) == TotalSize(frames) - TotalSize(frames[..k]) + f.size
  {
    var k := Evictions(frames, capacity, asMegabytes, f.size);
    TotalSizeAppend(frames[k..], f);
    TotalSizeSplit(frames, k);
  }

  lemma {:induction false} TotalSizeSplit(frames: seq<Frame>, k: nat)
    requires k <= |frames|
    ensures TotalSize(frames) == TotalSize(frames[..k]) + TotalSize(frames[k..])
  {
    if k > 0 {
      assert frames[..k][1..] == frames[1..][..k - 1];
      assert frames[k..] == frames[1..][k - 1..];
      TotalSizeSplit(frames[1..], k - 1);
    }
  }

  /** The new frame always ends up last, behind a suffix of the old frames in their old order. */
  lemma AdmitKeepsOrder(frames: seq<Frame>, capacity: nat, asMegabytes: bool, f: Frame)
    requires asMegabytes || capacity >= 1 || frames != []
    ensures var r := Admit(frames, capacity, asMegabytes, f);
      && r != [] && r[|r| - 1] == f
      && exists k :: 0 <= k <= |frames| && r[..|r| - 1] == frames[k..]
  {
    var k := Evictions(frames, capacity, asMegabytes, f.size);
    var r := Admit(frames, capacity, asMegabytes, f);
    assert r[..|r| - 1] == frames[k..];
  }

  /** Count mode: below capacity nothing is evicted, at capacity exactly the oldest frame; the count bound is kept. */
  lemma CountModeAdmit(frames: seq<Frame>, capacity: nat, f: Frame)
    requires capacity >= 1 && |frames| <= capacity
    ensures |frames| < capacity ==> Admit(frames, capacity, false, f) == frames + [f]
    ensures |frames| == capacity ==> Admit(frames, capacity, false, f) == frames[1..] + [f]
    ensures |Admit(frames, capacity, false, f)| <= capacity
  {
    assert frames[0..] == frames;
  }

  /**
   * Megabyte mode: the new frame is always admitted; afterwards the total is
   * within the budget, or the deque holds the new frame alone. Nothing is
   * evicted when the new frame fits.
   */
  lemma SizeModeAdmit(frames: seq<Frame>, capacity: nat, f: Frame)
    ensures var r := Admit(frames, capacity, true, f);
      TotalSize(r) <= capacity || r == [f]
    ensures TotalSize(frames) + f.size <= capacity ==> Admit(frames, capacity, true, f) == frames + [f]
  {
    var k := SizeEvictions(frames, capacity, f.size);
    TotalSizeAppend(frames[k..], f);
    assert frames[0..] == frames;
    if k == |frames| {
      assert frames[k..] == [];
    }
  }

  /** Count capacity 2, three frames of 100 bytes: the first is evicted, 200 bytes remain. */
  lemma CountModeExample()
    ensures var a, b, c := Frame(1, "a", 100), Frame(2, "b", 100), Frame(3, "c", 100);
      var r := Admit(Admit(Admit([], 2, false, a), 2, false, b), 2, false, c);
      r == [b, c] && TotalSize(r) == 200
  {
    var a, b, c := Frame(1, "a", 100), Frame(2, "b", 100), Frame(3, "c", 100);
    assert Admit([], 2, false, a) == [a];
    assert Admit([a], 2, false, b) == [a, b];
    assert Admit([a, b], 2, false, c) == [a, b][1..] + [c] == [b, c];
    assert TotalSize([b, c]) == 100 + TotalSize([c]);
  }

  /** Byte budget 150, frames of 100 and then 80 bytes: the first must go, 80 bytes remain. */
  lemma SizeModeExample()
    ensures var a, b := Frame(1, "a", 100), Frame(2, "b", 80);
      var r := Admit(Admit([], 150, true, a), 150, true, b);
      r == [b] && TotalSize(r) == 80
  {
    var a, b := Frame(1, "a", 100), Frame(2, "b", 80);
    assert TotalSize([a]) == 100;
    assert SizeEvictions([a], 150, 80) == 1 by {
      assert [a][1..] == [];
    }
    assert Admit([a], 150, true, b) == [a][1..] + [b] == [b];
  }
}
