/**
 * The ColourClock view: its time, layout and drawing state, the methods that
 * draw a frame onto the off-screen canvas, and the start/stop logic of the
 * periodic tick that redraws it.  The single-threaded executor is reduced to
 * its queue of scheduled tasks; a task is live while it is queued and not
 * cancelled.
 */
module Clock {
  import opened ColourWheel
  import opened TimeModel
  import opened Drawing

  datatype Option<T> = None | Some(value: T)

  /** A periodic task of the executor: its handle, initial delay and fixed delay in ms, and whether it was cancelled. */
  datatype Task = Task(id: nat, initialDelay: nat, delay: nat, cancelled: bool)

  /** The number of live (not cancelled) tasks in a queue. */
  function LiveCount(q: seq<Task>): (n: nat)
    ensures n <= |q|
    ensures n == 0 <==> forall i :: 0 <= i < |q| ==> q[i].cancelled
  {
    if q == [] then 0 else (if q[0].cancelled then 0 else 1) + LiveCount(q[1..])
  }

  /** Appending a task adds one live task exactly when it is not cancelled. */
  lemma {:induction false} LiveCountAppend(q: seq<Task>, t: Task)
    ensures LiveCount(q + [t]) == LiveCount(q) + (if t.cancelled then 0 else 1)
  {
    if q != [] {
      assert (q + [t])[1..] == q[1..] + [t];
      LiveCountAppend(q[1..], t);
    }
  }

  /** ScheduledFuture.cancel: every queued copy of the task with this handle is marked cancelled. */
  function Cancel(q: seq<Task>, id: nat): (r: seq<Task>)
    ensures |r| == |q|
    ensures forall i :: 0 <= i < |q| ==> r[i].id == q[i].id && (r[i].cancelled <==> q[i].cancelled || q[i].id == id)
    ensures forall i :: 0 <= i < |q| ==> r[i].(cancelled := q[i].cancelled) == q[i]
  {
    seq(|q|, i requires 0 <= i < |q| => if q[i].id == id then q[i].(cancelled := true) else q[i])
  }

  /** The executor's remove(task): the first queued occurrence of the task is taken out. */
  function RemoveFirst(q: seq<Task>, t: Task): (r: seq<Task>)
    ensures t in q ==> |r| == |q| - 1
    ensures t !in q ==> r == q
    ensures multiset(r) == multiset(q) - multiset{t}
  {
    if q == [] then []
    else
      assert q == [q[0]] + q[1..];
      if q[0] == t then q[1..]
      else
        var rest := RemoveFirst(q[1..], t);
        assert multiset([q[0]] + rest) == multiset{q[0]} + multiset(rest);
        [q[0]] + rest
  }

  class ColourClock {
    // The time shown, as set by the last updateTime.
    var mHours: real
    var mMinutes: real
    var mSeconds: real

    // The layout, as set by the last onSizeChanged.
    var centreX: real
    var centreY: real
    var bandWidth: real

    /** The canvas over the backing bitmap; none before the first resize. */
    var painting: Canvas?
    var ticking: bool
    var isDrawing: bool
    var started: bool

    /** The handle of the scheduled tick task, if any. */
    var clockTicker: Option<nat>
    /** The executor's queue of scheduled tasks. */
    var tickerQueue: seq<Task>
    /** The handle the next scheduled task will get. */
    var nextTaskId: nat
    /** How many redraws of the view have been requested from the host (postInvalidate). */
    var invalidations: nat

    /**
     * The object invariant: a handle is held exactly while ticking, and then
     * the queue holds exactly one live task, the one with that handle;
     * drawing has started only once there is a canvas.
     */
    ghost predicate Valid()
      reads this
    {
      && (ticking <==> clockTicker.Some?)
      && LiveCount(tickerQueue) == (if ticking then 1 else 0)
      && (forall i :: 0 <= i < |tickerQueue| && !tickerQueue[i].cancelled ==>
            clockTicker == Some(tickerQueue[i].id))
      && (started ==> painting != null)
    }

    /** The constructors' init(): nothing drawn yet, and the tick is started at once. */
    constructor ()
      ensures Valid()
      ensures ticking && LiveCount(tickerQueue) == 1
      ensures !started && !isDrawing && painting == null && invalidations == 0
    {
      mHours, mMinutes, mSeconds := 0.0, 0.0, 0.0;
      centreX, centreY, bandWidth := 0.0, 0.0, 0.0;
      painting := null;
      ticking, isDrawing, started := false, false, false;
      clockTicker := None;
      tickerQueue := [];
      nextTaskId := 0;
      invalidations := 0;
      new;
      StartTick();
    }

    /**
     * updateTime: reads the clock (passed in: the calendar's hour and minute,
     * the system millisecond count and the eased sub-second fraction) into the
     * time fields; once started, it also draws a frame on the canvas and asks
     * the host to redraw.
     */
    method UpdateTime(hour: int, min: int, millis: int, eased: real)
      requires Valid()
      requires 0.0 <= eased < 1.0
      modifies this`mHours, this`mMinutes, this`mSeconds, this`isDrawing, this`invalidations, painting
      ensures Valid()
      ensures ClockTime(mHours, mMinutes, mSeconds) == Sample(hour, min, millis, eased)
      ensures started ==> !isDrawing
      ensures !started ==> isDrawing == old(isDrawing)
      ensures !started ==> invalidations == old(invalidations) && (painting != null ==> unchanged(painting))
      ensures started ==>
        && painting.commands == old(painting.commands) + Frame(bandWidth, mHours, mMinutes, mSeconds)
        && invalidations == old(invalidations) + 1
    {
      var secInt := JavaDiv(JavaRem(millis, 60000), 1000);
      var mSecFrac := eased;
      mSeconds := secInt as real + mSecFrac;
      mMinutes := min as real + mSeconds / 60.0;
      mHours := hour as real + mMinutes / 60.0;
      mMinutes := mMinutes.Floor as real; // the hour is done, so the minute hand may jump
      if started {
        DrawClock(painting);
        invalidations := invalidations + 1;
      }
    }

    /** getAngleColour, up to the HSV triple the platform packs into a colour. */
    function GetAngleColour(theta: real): (c: Colour)
      ensures c.FromHsv? && c.hsv.s == 1.0 && 0.0 <= c.hsv.h < 360.0 && 0.5 <= c.hsv.v <= 1.0
    {
      FromHsv(AngleColour(theta))
    }

    /** drawNumbers: the twelve numerals, then the sixty tick marks. */
    method DrawNumbers(tPainting: Canvas)
      modifies tPainting
      ensures tPainting.commands == old(tPainting.commands) + Numerals(bandWidth) + Ticks(bandWidth)
    {
      var i := 1;
      while i <= 12
        invariant 1 <= i <= 13
        invariant tPainting.commands == old(tPainting.commands) + Numerals(bandWidth)[..i - 1]
      {
        var angle := (i * 30 - 90) as real;
        tPainting.Draw(Text(i, Polar(angle, Bands(NumberPos, bandWidth)), Bands(3.0, bandWidth)));
        assert Numerals(bandWidth)[..i] == Numerals(bandWidth)[..i - 1] + [Numeral(bandWidth, i)];
        i := i + 1;
      }
      assert Numerals(bandWidth)[..12] == Numerals(bandWidth);
      i := 0;
      while i < 60
        invariant 0 <= i <= 60
        invariant tPainting.commands == old(tPainting.commands) + Numerals(bandWidth) + Ticks(bandWidth)[..i]
      {
        var angle := (i * 6 - 90) as real;
        var tel := bandWidth / 3.0;
        var tsl := if i % 5 == 0 then bandWidth else bandWidth / 2.0;
        var strokeWidth;
        if i % 5 == 0 {
          strokeWidth := Bands(MinWidth, bandWidth) * 0.75;
        } else {
          strokeWidth := Bands(SecWidth, bandWidth) * 0.75;
        }
        tPainting.Draw(Line(Polar(angle, Bands(InnerPos, bandWidth) - tel - tsl),
                            Polar(angle, Bands(InnerPos, bandWidth) - tel), strokeWidth));
        assert Ticks(bandWidth)[..i + 1] == Ticks(bandWidth)[..i] + [TickMark(bandWidth, i)];
        i := i + 1;
      }
      assert Ticks(bandWidth)[..60] == Ticks(bandWidth);
    }

    /** drawClock: one whole frame, flagged as in progress while it is drawn. */
    method DrawClock(tPainting: Canvas)
      modifies this`isDrawing, tPainting
      ensures !isDrawing
      ensures tPainting.commands == old(tPainting.commands) + Frame(bandWidth, mHours, mMinutes, mSeconds)
    {
      ghost var before := tPainting.commands;
      ghost var bw := bandWidth;
      isDrawing := true;
      var hourAng := HourAngle(mHours);
      var minAng := MinuteAngle(mMinutes);
      var secAng := MinuteAngle(mSeconds);
      ghost var outer := Circle(Centre, Bands(OuterPos, bw), Bands(0.125, bw), White, Black);
      ghost var inner := Circle(Centre, Bands(InnerPos, bw), Bands(0.125, bw), White, Black);
      DrawCircle(OuterPos, 0.125, White, Black, tPainting); // outer face
      DrawCircle(InnerPos, 0.125, White, Black, tPainting); // inner face
      DrawNumbers(tPainting);
      Extend(before, outer, inner);
      Extend(before, outer + inner, Numerals(bw));
      Extend(before, outer + inner + Numerals(bw), Ticks(bw));
      ghost var drawn := Dial(bw);
      DrawLine(hourAng, HourPos, HourWidth, tPainting);
      DrawCircleAt(hourAng, HourPos - 2.0, 1.5, HourWidth, GetAngleColour(hourAng), Black, tPainting);
      Handed(before, drawn, bw, hourAng, HourPos, HourWidth, HourPos - 2.0, 1.5);
      drawn := drawn + HandWithJoint(bw, hourAng, HourPos, HourWidth, HourPos - 2.0, 1.5);
      DrawLine(minAng, MinPos, MinWidth, tPainting);
      DrawCircleAt(minAng, MinPos - 1.25, 1.0, MinWidth, GetAngleColour(minAng), Black, tPainting);
      Handed(before, drawn, bw, minAng, MinPos, MinWidth, MinPos - 1.25, 1.0);
      drawn := drawn + HandWithJoint(bw, minAng, MinPos, MinWidth, MinPos - 1.25, 1.0);
      DrawLine(secAng, SecPos, SecWidth, tPainting);
      DrawCircleAt(secAng, SecPos - 0.75, 0.5, SecWidth, GetAngleColour(secAng), Black, tPainting);
      Handed(before, drawn, bw, secAng, SecPos, SecWidth, SecPos - 0.75, 0.5);
      drawn := drawn + HandWithJoint(bw, secAng, SecPos, SecWidth, SecPos - 0.75, 0.5);
      DrawCircle(2.0, 0.5, White, Black, tPainting); // centre dot
      Extend(before, drawn, Circle(Centre, Bands(2.0, bw), Bands(0.5, bw), White, Black));
      isDrawing := false;
    }

    /** drawCircle around the centre: a filled disc, then its outline. */
    method DrawCircle(radiusFactor: real, strokeWFactor: real, fillCol: Colour, strokeCol: Colour, tPainting: Canvas)
      modifies tPainting
      ensures tPainting.commands == old(tPainting.commands) +
        Circle(Centre, Bands(radiusFactor, bandWidth), Bands(strokeWFactor, bandWidth), fillCol, strokeCol)
    {
      tPainting.Draw(Disc(Centre, Bands(radiusFactor, bandWidth), fillCol));
      tPainting.Draw(Ring(Centre, Bands(radiusFactor, bandWidth), strokeCol, Bands(strokeWFactor, bandWidth)));
    }

    /** drawCircle along a clock angle: a filled disc lengthFactor bands out, then its outline. */
    method DrawCircleAt(angle: real, lengthFactor: real, radiusFactor: real, strokeWFactor: real,
                        fillCol: Colour, strokeCol: Colour, tPainting: Canvas)
      modifies tPainting
      ensures tPainting.commands == old(tPainting.commands) +
        Joint(bandWidth, angle, lengthFactor, radiusFactor, strokeWFactor, fillCol, strokeCol)
    {
      var at := Polar(Screen(angle), Bands(lengthFactor, bandWidth));
      tPainting.Draw(Disc(at, Bands(radiusFactor, bandWidth), fillCol));
      tPainting.Draw(Ring(at, Bands(radiusFactor, bandWidth), strokeCol, Bands(strokeWFactor, bandWidth)));
    }

    /** drawLine: a line from the centre along a clock angle, lengthFactor bands long. */
    method DrawLine(angle: real, lengthFactor: real, widthFactor: real, tPainting: Canvas)
      modifies tPainting
      ensures tPainting.commands == old(tPainting.commands) + [Hand(bandWidth, angle, lengthFactor, widthFactor)]
    {
      tPainting.Draw(Line(Centre, Polar(Screen(angle), Bands(lengthFactor, bandWidth)), Bands(widthFactor, bandWidth)));
    }

    /**
     * onSizeChanged: a fresh canvas of the new size, the centre and band width
     * recomputed, drawing started, and a frame drawn at once.  The bitmap
     * allocation rejects a size that is not positive; then nothing changes.
     */
    method OnSizeChanged(width: int, height: int, hour: int, min: int, millis: int, eased: real)
      returns (ok: bool)
      requires Valid()
      requires 0.0 <= eased < 1.0
      modifies this
      ensures Valid()
      ensures ok <==> width > 0 && height > 0
      ensures !ok ==> unchanged(this)
      ensures ok ==>
        && fresh(painting) && painting.width == width && painting.height == height
        && centreX == width as real / 2.0 && centreY == height as real / 2.0
        && bandWidth == BandWidth(width, height)
        && started && !isDrawing
        && ClockTime(mHours, mMinutes, mSeconds) == Sample(hour, min, millis, eased)
        && painting.commands == Frame(bandWidth, mHours, mMinutes, mSeconds)
        && invalidations == old(invalidations) + 1
        && ticking == old(ticking) && clockTicker == old(clockTicker)
        && tickerQueue == old(tickerQueue) && nextTaskId == old(nextTaskId)
    {
      if width <= 0 || height <= 0 {
        return false;
      }
      painting := new Canvas(width, height);
      centreX := width as real / 2.0;
      centreY := height as real / 2.0;
      var clockRadius := (if width - 16 < height - 16 then width - 16 else height - 16) as real / 2.0;
      bandWidth := clockRadius / 16.0;
      started := true;
      UpdateTime(hour, min, millis, eased);
      assert painting.commands == [] + Frame(bandWidth, mHours, mMinutes, mSeconds);
      assert [] + Frame(bandWidth, mHours, mMinutes, mSeconds) == Frame(bandWidth, mHours, mMinutes, mSeconds);
      ok := true;
    }

    /** stopTick: cancel the tick, clear the executor's queue and drop the handle. */
    method StopTick()
      requires Valid()
      requires clockTicker.Some?
      modifies this`ticking, this`clockTicker, this`tickerQueue
      ensures Valid()
      ensures !ticking && clockTicker == None && tickerQueue == []
      ensures LiveCount(tickerQueue) == 0
    {
      ticking := false;
      tickerQueue := Cancel(tickerQueue, clockTicker.value);
      var pending := tickerQueue;
      var i := 0;
      while i < |pending|
        invariant 0 <= i <= |pending|
        invariant tickerQueue == pending[i..]
        invariant !ticking && clockTicker == old(clockTicker)
      {
        tickerQueue := RemoveFirst(tickerQueue, pending[i]);
        i := i + 1;
      }
      clockTicker := None;
    }

    /** startTick: schedule the tick every 50 ms, unless it is already scheduled. */
    method StartTick()
      requires Valid()
      modifies this`ticking, this`clockTicker, this`tickerQueue, this`nextTaskId
      ensures Valid()
      ensures ticking && LiveCount(tickerQueue) == 1
      ensures old(ticking) ==>
        clockTicker == old(clockTicker) && tickerQueue == old(tickerQueue) && nextTaskId == old(nextTaskId)
      ensures !old(ticking) ==>
        && clockTicker == Some(old(nextTaskId))
        && tickerQueue == old(tickerQueue) + [Task(old(nextTaskId), 0, 50, false)]
        && nextTaskId == old(nextTaskId) + 1
    {
      if !ticking {
        ticking := true;
        var refreshRate := 50;
        LiveCountAppend(tickerQueue, Task(nextTaskId, 0, refreshRate, false));
        clockTicker := Some(nextTaskId);
        tickerQueue := tickerQueue + [Task(nextTaskId, 0, refreshRate, false)];
        nextTaskId := nextTaskId + 1;
      }
    }
  }

  /**
   * The host's lifecycle: create the view (which starts the tick), resume
   * (start again), pause (stop) and resume once more.  Starting twice keeps
   * one live task; stopping leaves none.
   */
  method Lifecycle() returns (afterResume: nat, afterPause: nat, afterSecondResume: nat)
    ensures afterResume == 1 && afterPause == 0 && afterSecondResume == 1
  {
    var clock := new ColourClock();
    clock.StartTick();
    afterResume := LiveCount(clock.tickerQueue);
    clock.StopTick();
    afterPause := LiveCount(clock.tickerQueue);
    clock.StartTick();
    afterSecondResume := LiveCount(clock.tickerQueue);
  }
}
