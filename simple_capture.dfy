/**
 * The capture session (SimpleCapture.cpp): it samples the frames the capture
 * feed delivers at a throttled rate into a count-bounded vector, tears itself
 * down at most once, and on the save path writes its frames as numbered
 * still images.
 *
 * Frames are opaque ids, and the clock is a millisecond timestamp passed in
 * by the caller. The GPU copy of an admitted frame, the encoder and the file
 * system are not modelled; what the session does with them is recorded as a
 * ghost history of events, so that the order of the teardown steps and the
 * single run of the teardown body can be stated.
 */
module Capture {
  import opened Conversions

  type FrameId = nat

  /** C++ `/` on `int`: the quotient truncated toward zero. */
  function CppDiv(a: int, b: int): (q: int)
    requires b != 0
    ensures var r := a - q * b;
      (r == 0 || (r < 0) == (a < 0)) && (if r < 0 then -r else r) < (if b < 0 then -b else b)
  {
    var m := (if a < 0 then -a else a) / (if b < 0 then -b else b);
    CppDivRemainder(a, b, m);
    if (a < 0) != (b < 0) then -m else m
  }

  lemma CppDivRemainder(a: int, b: int, m: int)
    requires b != 0
    requires m == (if a < 0 then -a else a) / (if b < 0 then -b else b)
    ensures var q := if (a < 0) != (b < 0) then -m else m;
      var r := a - q * b;
      (r == 0 || (r < 0) == (a < 0)) && (if r < 0 then -r else r) < (if b < 0 then -b else b)
  {
    var aa := if a < 0 then -a else a;
    var bb := if b < 0 then -b else b;
    var rr := aa - m * bb;
    assert 0 <= rr < bb;
    var q := if (a < 0) != (b < 0) then -m else m;
    if a < 0 {
      assert q * b == -(m * bb);
      assert a - q * b == -rr;
    } else {
      assert q * b == m * bb;
      assert a - q * b == rr;
    }
  }

  /** `m_frameInterval = 1000 / framerate`, in milliseconds. */
  function FrameInterval(framerate: int32): (ms: int)
    requires framerate != 0
    ensures framerate > 0 ==> 0 <= ms <= 1000
    ensures framerate < 0 ==> -1000 <= ms <= 0
  {
    var m := 1000 / (if framerate < 0 then 0 - framerate as int else framerate as int);
    DivAtMost(1000, if framerate < 0 then 0 - framerate as int else framerate as int);
    assert CppDiv(1000, framerate) == if framerate < 0 then -m else m;
    CppDiv(1000, framerate)
  }

  lemma DivAtMost(a: nat, b: nat)
    requires b > 0
    ensures 0 <= a / b <= a
  {
    var q, r := a / b, a % b;
    assert a == q * b + r && 0 <= r;
    assert q >= 0;
    MulAtLeast(q, b);
  }

  lemma MulAtLeast(q: nat, b: nat)
    requires b > 0
    ensures q <= q * b
  {
    assert q * b == q + q * (b - 1);
  }

  /** A positive rate gives the floor of 1000 / rate; above 1000 frames a second nothing is throttled. */
  lemma PositiveFrameInterval(framerate: int32)
    requires framerate > 0
    ensures FrameInterval(framerate) == 1000 / framerate
    ensures framerate > 1000 ==> FrameInterval(framerate) == 0
  {
    var q := 1000 / framerate;
    assert FrameInterval(framerate) == q;
    if framerate > 1000 {
      DivSmall(1000, framerate);
    }
  }

  /** A negative rate gives a non-positive interval, so every frame is stored. */
  lemma NegativeFrameInterval(framerate: int32)
    requires framerate < 0
    ensures FrameInterval(framerate) <= 0
  {
    var b: int := 0 - framerate as int;
    var m := 1000 / b;
    assert m >= 0;
    assert FrameInterval(framerate) == -m;
  }

  lemma DivSmall(a: nat, b: nat)
    requires a < b
    ensures a / b == 0
  {
  }

  /** A string of `n` zeros. */
  function Zeros(n: nat): (z: string)
    ensures |z| == n && forall i :: 0 <= i < n ==> z[i] == '0'
  {
    seq(n, _ => '0')
  }

  /** `std::setw(width) << std::setfill('0')` applied to the digits `s`. */
  function ZeroPad(s: string, width: nat): (padded: string)
    ensures |padded| == if |s| < width then width else |s|
    ensures padded[|padded| - |s|..] == s
    ensures forall i :: 0 <= i < |padded| - |s| ==> padded[i] == '0'
  {
    Zeros(if |s| < width then width - |s| else 0) + s
  }

  /** The name `SaveFrames` gives the `k`-th frame (counting from 1): `screenshot` + `k` padded to four digits + `.jpg`. */
  function ScreenshotName(k: nat): (name: string)
    ensures |name| >= 14 && name[..10] == "screenshot" && name[|name| - 4..] == ".jpg"
  {
    "screenshot" + ZeroPad(NatToString(k), 4) + ".jpg"
  }

  /** The number in a screenshot name, read back, is the frame's position: nothing is truncated. */
  lemma ScreenshotNameNumber(k: nat)
    ensures |ScreenshotName(k)| >= 14
    ensures var name := ScreenshotName(k);
      AllDigits(name[10..|name| - 4]) && DigitsValue(name[10..|name| - 4]) == k
  {
    var d := NatToString(k);
    var z := Zeros(if |d| < 4 then 4 - |d| else 0);
    var middle := z + d;
    assert middle == ZeroPad(d, 4);
    var name := ScreenshotName(k);
    assert name == "screenshot" + middle + ".jpg";
    assert |middle| >= 4;
    assert name[10..|name| - 4] == middle;
    DigitsValueLeadingZeros(z, d);
    DigitsValueOfNatToString(k);
  }

  /** Different positions get different names, so no saved frame overwrites another. */
  lemma ScreenshotNamesDistinct(k1: nat, k2: nat)
    requires k1 != k2
    ensures ScreenshotName(k1) != ScreenshotName(k2)
  {
    ScreenshotNameNumber(k1);
    ScreenshotNameNumber(k2);
  }

  lemma ScreenshotNameExamples()
    ensures ScreenshotName(1) == "screenshot0001.jpg"
    ensures ScreenshotName(12345) == "screenshot12345.jpg"
  {
    FirstName();
    FiveDigitName();
  }

  lemma FirstName()
    ensures ScreenshotName(1) == "screenshot0001.jpg"
  {
    PaddedOne();
    assert "screenshot" + "0001" + ".jpg" == "screenshot0001.jpg";
  }

  lemma FiveDigitName()
    ensures ScreenshotName(12345) == "screenshot12345.jpg"
  {
    FiveDigits();
    assert ZeroPad("12345", 4) == "12345" by {
      assert Zeros(0) == [];
    }
    assert "screenshot" + "12345" + ".jpg" == "screenshot12345.jpg";
  }

  lemma PaddedOne()
    ensures ZeroPad(NatToString(1), 4) == "0001"
  {
    assert NatToString(1) == "1";
    assert Zeros(3) == "000";
  }

  lemma FiveDigits()
    ensures NatToString(12345) == "12345"
  {
    assert NatToString(12) == "1" + "2";
    assert NatToString(123) == "12" + "3";
    assert NatToString(1234) == "123" + "4";
    assert NatToString(12345) == "1234" + "5";
  }

  /** What the session does beyond its own fields, in order. */
  datatype SessionEvent =
    | CaptureStarted(time: int)
    | SessionClosed
    | FramePoolClosed
    | FramesSaved(folder: string, files: seq<(string, FrameId)>)
    | ResourcesReleased

  ghost function Closures(events: seq<SessionEvent>): nat {
    if events == [] then 0
    else Closures(events[..|events| - 1]) + (if events[|events| - 1] == SessionClosed then 1 else 0)
  }

  ghost function Saves(events: seq<SessionEvent>): nat {
    if events == [] then 0
    else Saves(events[..|events| - 1]) + (if events[|events| - 1].FramesSaved? then 1 else 0)
  }

  /** Nothing was saved before (or together with) a closing of the session. */
  ghost predicate SavedOnlyAfterClose(events: seq<SessionEvent>) {
    forall i, j :: 0 <= i <= j < |events| && events[i].FramesSaved? ==> events[j] != SessionClosed
  }

  lemma {:induction false} CountsAppend(events: seq<SessionEvent>, more: seq<SessionEvent>)
    ensures Closures(events + more) == Closures(events) + Closures(more)
    ensures Saves(events + more) == Saves(events) + Saves(more)
  {
    if more != [] {
      var last := |more| - 1;
      assert (events + more)[..|events + more| - 1] == events + more[..last];
      CountsAppend(events, more[..last]);
    } else {
      assert events + more == events;
    }
  }

  class SimpleCapture {
    const frameInterval: int
    const framesBufferSize: int
    var frames: seq<FrameId>
    var lastFrameTime: int
    var closed: bool
    /** Whether the capture session has been started, so that the feed delivers frames. */
    ghost var started: bool
    /** The times at which frames were admitted. */
    ghost var admissions: seq<int>
    ghost var events: seq<SessionEvent>

    ghost predicate Valid()
      reads this
    {
      && (framesBufferSize > 0 ==> |frames| <= framesBufferSize)
      && (forall i :: 0 < i < |admissions| ==> admissions[i] - admissions[i - 1] >= frameInterval)
      && (admissions != [] ==> admissions[|admissions| - 1] <= lastFrameTime)
      && Closures(events) == (if closed then 1 else 0)
      && Saves(events) <= Closures(events)
      && SavedOnlyAfterClose(events)
    }

    /**
     * The constructor's interval and capacity setup. A frame rate of 0 is a
     * division by zero in the source; the precondition excludes it.
     * `m_lastFrameTime` starts at the clock's epoch, time 0.
     */
    constructor (framerate: int32, framesBufferSize: int32)
      requires framerate != 0
      ensures Valid()
      ensures frameInterval == FrameInterval(framerate) && this.framesBufferSize == framesBufferSize
      ensures frames == [] && lastFrameTime == 0 && !closed && !started
      ensures admissions == [] && events == []
    {
      frameInterval := FrameInterval(framerate);
      this.framesBufferSize := framesBufferSize;
      frames := [];
      lastFrameTime := 0;
      closed := false;
      started := false;
      admissions := [];
      events := [];
    }

    /**
     * `StartCapture`: fails once the session is closed; otherwise sets the
     * time baseline and then starts the feed. `now` is the clock reading,
     * which never goes back.
     */
    method StartCapture(now: int) returns (ok: bool)
      requires Valid()
      requires now >= lastFrameTime
      modifies this
      ensures Valid()
      ensures ok == !old(closed)
      ensures ok ==> lastFrameTime == now && started && events == old(events) + [CaptureStarted(now)]
      ensures !ok ==> lastFrameTime == old(lastFrameTime) && started == old(started) && events == old(events)
      ensures frames == old(frames) && closed == old(closed) && admissions == old(admissions)
    {
      if closed {
        return false;
      }
      lastFrameTime := now;
      DeliverEvent(CaptureStarted(now));
      started := true;
      ok := true;
    }

    /**
     * `OnFrameArrived`: the feed calls it only once the session has started.
     * A frame is stored when at least `frameInterval` ms have passed since the
     * last stored frame (or the baseline); at capacity the oldest is erased
     * first. A capacity of 0 erases from an empty vector, which is undefined
     * and excluded; a negative capacity never equals the frame count, so the
     * vector is then unbounded.
     */
    method OnFrameArrived(frame: FrameId, now: int) returns (stored: bool)
      requires Valid()
      requires started && framesBufferSize != 0
      requires now >= lastFrameTime
      modifies this
      ensures Valid()
      ensures stored <==> now - old(lastFrameTime) >= frameInterval
      ensures stored ==> && frames == (if |old(frames)| == framesBufferSize then old(frames)[1..] else old(frames)) + [frame]
                         && lastFrameTime == now
                         && admissions == old(admissions) + [now]
      ensures !stored ==> frames == old(frames) && lastFrameTime == old(lastFrameTime) && admissions == old(admissions)
      ensures closed == old(closed) && started == old(started) && events == old(events)
    {
      var timeSinceLastFrame := now - lastFrameTime;
      stored := timeSinceLastFrame >= frameInterval;
      if stored {
        if |frames| == framesBufferSize {
          frames := frames[1..];
        }
        frames := frames + [frame];
        admissions := admissions + [now];
        lastFrameTime := now;
      }
    }

    /** `Close`: the compare-and-swap on `m_closed` lets the body run only for the first closing call. */
    method Close()
      requires Valid()
      modifies this
      ensures Valid()
      ensures closed
      ensures !old(closed) ==> events == old(events) + [SessionClosed, FramePoolClosed, ResourcesReleased]
      ensures old(closed) ==> events == old(events)
      ensures frames == old(frames) && lastFrameTime == old(lastFrameTime) && started == old(started)
      ensures admissions == old(admissions)
    {
      var wasOpen := !closed;
      if wasOpen {
        closed := true;
        CloseEvents([SessionClosed, FramePoolClosed, ResourcesReleased]);
      }
    }

    /**
     * `CloseAndSave`: the same compare-and-swap as `Close`. The first closing
     * call closes the session and the frame pool, saves the frames and
     * releases the resources; every later call does nothing.
     */
    method CloseAndSave(folder: string)
      requires Valid()
      modifies this
      ensures Valid()
      ensures closed
      ensures !old(closed) ==> events == old(events) + [SessionClosed, FramePoolClosed,
                                   FramesSaved(folder, Screenshots(old(frames))), ResourcesReleased]
      ensures old(closed) ==> events == old(events)
      ensures frames == old(frames) && lastFrameTime == old(lastFrameTime) && started == old(started)
      ensures admissions == old(admissions)
    {
      var wasOpen := !closed;
      if wasOpen {
        closed := true;
        var files := SaveFrames();
        CloseEvents([SessionClosed, FramePoolClosed, FramesSaved(folder, files), ResourcesReleased]);
      }
    }

    /** `SaveFrames`: the `k`-th frame in buffer order goes to `ScreenshotName(k)`. */
    method SaveFrames() returns (files: seq<(string, FrameId)>)
      ensures files == Screenshots(frames)
    {
      files := [];
      var i := 1;
      for j := 0 to |frames|
        invariant i == j + 1
        invariant files == Screenshots(frames[..j])
      {
        assert frames[..j + 1] == frames[..j] + [frames[j]];
        ScreenshotsSnoc(frames[..j], frames[j]);
        files := files + [(ScreenshotName(i), frames[j])];
        i := i + 1;
      }
      assert frames[..|frames|] == frames;
    }

    /** Records an event that opens no teardown. */
    ghost method DeliverEvent(e: SessionEvent)
      requires Valid() && e.CaptureStarted?
      modifies this`events
      ensures Valid() && events == old(events) + [e]
    {
      CountsAppend(events, [e]);
      CountsSingleton(e);
      events := events + [e];
    }

    /** Records the events of the one run of the teardown body, the session having just been marked closed. */
    ghost method CloseEvents(body: seq<SessionEvent>)
      requires Closures(events) == 0 && Saves(events) == 0 && closed
      requires body == [SessionClosed, FramePoolClosed, ResourcesReleased]
               || (|body| == 4 && body[0] == SessionClosed && body[1] == FramePoolClosed
                   && body[2].FramesSaved? && body[3] == ResourcesReleased)
      requires (framesBufferSize > 0 ==> |frames| <= framesBufferSize)
      requires (forall i :: 0 < i < |admissions| ==> admissions[i] - admissions[i - 1] >= frameInterval)
      requires (admissions != [] ==> admissions[|admissions| - 1] <= lastFrameTime)
      modifies this`events
      ensures Valid() && events == old(events) + body
    {
      NoSaves(events);
      CountsAppend(events, body);
      BodyCounts(body);
      events := events + body;
    }
  }

  /** The names and frames `SaveFrames` writes, in buffer order. */
  function Screenshots(frames: seq<FrameId>): (files: seq<(string, FrameId)>)
    ensures |files| == |frames|
    ensures forall k :: 0 <= k < |frames| ==> files[k] == (ScreenshotName(k + 1), frames[k])
  {
    seq(|frames|, k requires 0 <= k < |frames| => (ScreenshotName(k + 1), frames[k]))
  }

  lemma ScreenshotsSnoc(frames: seq<FrameId>, f: FrameId)
    ensures Screenshots(frames + [f]) == Screenshots(frames) + [(ScreenshotName(|frames| + 1), f)]
  {
  }

  /** The names `SaveFrames` uses are pairwise distinct. */
  lemma ScreenshotsDistinct(frames: seq<FrameId>, i: nat, j: nat)
    requires i < j < |frames|
    ensures Screenshots(frames)[i].0 != Screenshots(frames)[j].0
  {
    ScreenshotNamesDistinct(i + 1, j + 1);
  }

  lemma {:induction false} NoSaves(events: seq<SessionEvent>)
    requires Saves(events) == 0
    ensures forall j :: 0 <= j < |events| ==> !events[j].FramesSaved?
  {
    if events != [] {
      NoSaves(events[..|events| - 1]);
      forall j | 0 <= j < |events| - 1 ensures !events[j].FramesSaved? {
        assert events[j] == events[..|events| - 1][j];
      }
    }
  }

  lemma BodyCounts(body: seq<SessionEvent>)
    requires body == [SessionClosed, FramePoolClosed, ResourcesReleased]
             || (|body| == 4 && body[0] == SessionClosed && body[1] == FramePoolClosed
                 && body[2].FramesSaved? && body[3] == ResourcesReleased)
    ensures Closures(body) == 1 && Saves(body) <= 1
  {
    var head := [body[0], body[1]];
    assert head == [body[0]] + [body[1]];
    CountsSingleton(body[0]);
    CountsSingleton(body[1]);
    CountsAppend([body[0]], [body[1]]);
    assert Closures(head) == 1 && Saves(head) == 0;
    var tail := body[2..];
    assert body == head + tail;
    CountsAppend(head, tail);
    if |body| == 3 {
      assert tail == [body[2]];
      CountsSingleton(body[2]);
    } else {
      assert tail == [body[2]] + [body[3]];
      CountsSingleton(body[2]);
      CountsSingleton(body[3]);
      CountsAppend([body[2]], [body[3]]);
    }
  }

  lemma CountsSingleton(e: SessionEvent)
    ensures Closures([e]) == (if e == SessionClosed then 1 else 0)
    ensures Saves([e]) == (if e.FramesSaved? then 1 else 0)
  {
    assert [e][..0] == [];
  }
}
