# ColourClock in Dafny

A model of the `ColourClock` view of the ColourClock Android application. The view is an analogue clock:

- The face has two rings, twelve numerals and sixty tick marks.
- An hour, a minute and a second hand each carry a round "joint" marker part-way along.
- Each marker is filled with a colour taken from a colour wheel by the hand's angle: red at the top, yellow at the right, dark green at the bottom and blue at the left.
- A periodic task, every 50 ms, reads the clock and redraws the face on an off-screen canvas.

The model has four modules, one per part of the class:

- `ColourWheel` (`colour_wheel.dfy`) covers `getAngleColour`.
  - The angle is first reduced by Java's floating-point `%`, which truncates toward zero. It is then mapped piecewise-linearly, in four 90-degree segments, to a hue/saturation/value triple.
  - The wheel stops at the triple. Packing it into an ARGB integer is a platform call.
- `TimeModel` (`time_model.dfy`) covers the time decomposition of `updateTime`.
  - The inputs are the calendar hour and minute, the millisecond count and the eased sub-second fraction.
  - Java's truncating long `/` and `%` are written out.
  - The hour value is computed from the unfloored minutes. The minutes are floored afterwards.
- `Drawing` (`drawing.dfy`) covers the canvas.
  - The canvas is a `Canvas` object recording the sequence of drawing commands made on it.
  - Positions are in polar form around the view's centre: a screen angle in degrees, where a clock angle `a` is the screen angle `a - 90`, and a distance.
  - Specification functions describe what each drawing routine appends: `Circle`, `Hand`, `Joint`, `Numerals`, `Ticks`, `Dial` and `Frame`.
  - The layout constants are defined here.
- `Clock` (`colour_clock.dfy`) is the `ColourClock` class itself.
  - It has the time, layout, canvas and tick fields.
  - `UpdateTime`, `OnSizeChanged`, `DrawNumbers`, `DrawClock`, `DrawCircle` (around the centre), `DrawCircleAt` (along an angle) and `DrawLine` are methods that append to the canvas. Each is proved against the `Drawing` functions.
  - `StartTick` and `StopTick` update the tick state. The executor is reduced to its queue of scheduled tasks, and `Valid()` is the class invariant: a handle is held exactly while ticking, and then exactly one queued task is live.

Floating-point numbers are modelled as exact reals, so `60f / 90f` is exactly 2/3.

Three details of the code that the model keeps:

- The band width is `min(width - 16, height - 16) / 2 / 16`. The 16-pixel margin is subtracted before halving.
- A resize to a non-positive size is not skipped by a guard. The bitmap allocation at the start of `onSizeChanged` rejects it before any field is written. `OnSizeChanged` models this as a failed call (`ok == false`) that changes nothing.
- At 03:15:30.000 the hour value is `3 + 15.5/60` (about 3.2583), which `TimeModel.QuarterPastThreeAndAHalf` states.

## Model

| member | source | states |
|---|---|---|
| ColourWheel.Trunc | app/src/main/java/org/gringene/colourclock/ColourClock.java:91 | rounding toward zero: the integer lies between 0 and x, less than one away from x, on each side of zero |
| ColourWheel.Reduce | app/src/main/java/org/gringene/colourclock/ColourClock.java:91 | Java `theta % 360`: the result keeps the sign of theta, lies in [0,360) for theta >= 0 and in (-360,0] for theta < 0, and differs from theta by a whole number of turns |
| ColourWheel.AngleColour | app/src/main/java/org/gringene/colourclock/ColourClock.java:89-104 | for every angle, saturation is 1, the hue lies in [0,360) and the value in [0.5,1]; a negative remainder gives the default (0,1,1) |
| ColourWheel.ReduceKeepsTurn | app/src/main/java/org/gringene/colourclock/ColourClock.java:91 | an angle already in [0,360) is unchanged by the reduction |
| ColourWheel.ExactlyOneSegment | app/src/main/java/org/gringene/colourclock/ColourClock.java:94-104 | for a reduced angle, some branch's guard holds, no two hold, and the colour is that branch's formula |
| ColourWheel.Anchors | app/src/main/java/org/gringene/colourclock/ColourClock.java:94-104 | 0 -> (0,1,1), 90 -> (60,1,1), 180 -> (120,1,0.5), 270 -> (240,1,1) |
| ColourWheel.Continuity | app/src/main/java/org/gringene/colourclock/ColourClock.java:94-104 | each segment's formula at its upper end equals the colour shown there (90, 180, 270); at 360 the last segment reaches hue 360 with the value of the red at 0 |
| ColourWheel.HueIncreases | app/src/main/java/org/gringene/colourclock/ColourClock.java:94-104 | the hue is strictly increasing over [0,360) |
| ColourWheel.DarkestAtBottom | app/src/main/java/org/gringene/colourclock/ColourClock.java:96-104 | value 0.5 exactly at 180; value 1 exactly on [0,90] and [270,360) |
| ColourWheel.Periodic | app/src/main/java/org/gringene/colourclock/ColourClock.java:91-104 | adding whole turns to a non-negative angle does not change its colour |
| ColourWheel.ReduceFirst | app/src/main/java/org/gringene/colourclock/ColourClock.java:91-104 | for theta >= 0, the colour of the reduced angle is the colour of theta |
| ColourWheel.NegativeAngles | app/src/main/java/org/gringene/colourclock/ColourClock.java:91-104 | a negative angle that is not a whole number of turns keeps a negative remainder and matches no branch; every negative angle gets the default (0,1,1) |
| TimeModel.JavaDiv | app/src/main/java/org/gringene/colourclock/ColourClock.java:75 | Java long division by a positive divisor: the quotient has the sign of the dividend |
| TimeModel.JavaRem | app/src/main/java/org/gringene/colourclock/ColourClock.java:75 | Java long remainder: in [0,d) for a >= 0 and in (-d,0] for a < 0 |
| TimeModel.DivRem | app/src/main/java/org/gringene/colourclock/ColourClock.java:75 | the operators fit together as Java defines them: `d * (a / d) + a % d == a` for every a |
| TimeModel.JavaDivOdd | app/src/main/java/org/gringene/colourclock/ColourClock.java:75 | the quotient is truncated toward zero, not floored: negating the dividend negates the quotient |
| TimeModel.SecondOfMinute | app/src/main/java/org/gringene/colourclock/ColourClock.java:75 | `(millis % 60000) / 1000` lies in [0,59] for millis >= 0 and in [-59,0] otherwise |
| TimeModel.Sample | app/src/main/java/org/gringene/colourclock/ColourClock.java:75-81 | seconds lie in [secInt, secInt+1); minutes are whole and equal `min`; hours = hour + (min + seconds/60)/60, taken from the unfloored minutes, so hour <= hours < hour+1 |
| TimeModel.HoursMonotone | app/src/main/java/org/gringene/colourclock/ColourClock.java:78-81 | a later time of day (by hour, then minute, then seconds) never gives a smaller hour value |
| TimeModel.QuarterPastThreeAndAHalf | app/src/main/java/org/gringene/colourclock/ColourClock.java:75-81 | 03:15:30.000 with no easing gives hours 3 + 15.5/60, minutes 15, seconds 30 |
| Drawing.BandWidth | app/src/main/java/org/gringene/colourclock/ColourClock.java:212-213 | the outer ring radius (16 bands) plus an 8-pixel margin is half the shorter side; the band width is positive exactly when both sides exceed 16 |
| Drawing.TickRule | app/src/main/java/org/gringene/colourclock/ColourClock.java:122-135 | tick i runs along screen angle i*6-90 and ends at 11 bands less a third of a band; it is one band long and 0.1875 bands wide exactly when i % 5 == 0, and half a band long and 0.09375 bands wide otherwise |
| Drawing.NumeralRule | app/src/main/java/org/gringene/colourclock/ColourClock.java:114-120 | numeral i sits at clock angle 30i, 13.5 bands out, midway between the rings |
| Drawing.FrameOrder | app/src/main/java/org/gringene/colourclock/ColourClock.java:146-156 | a frame is 87 commands: outer ring (16 bands), inner ring (11), numerals 1 to 12, ticks 0 to 59, hour, minute and second hand each followed by its joint, centre dot (2) |
| Drawing.HandsAndJoints | app/src/main/java/org/gringene/colourclock/ColourClock.java:141-155 | hands at hours*30, minutes*6 and seconds*6 degrees, 6.5, 9 and 10 bands long; the joints lie on the same directions 2, 1.25 and 0.75 bands short of the tips, radii 1.5, 1 and 0.5 bands, filled with the wheel colour of the hand's angle and outlined in black at the hand's width |
| Drawing.Canvas.constructor | app/src/main/java/org/gringene/colourclock/ColourClock.java:208-209 | a new canvas over a bitmap of the given size has that size and nothing drawn on it |
| Drawing.Canvas.Draw | app/src/main/java/org/gringene/colourclock/ColourClock.java:167-170 | a drawing call appends its command to what is already on the canvas |
| Clock.LiveCount | app/src/main/java/org/gringene/colourclock/ColourClock.java:236-237 | the number of live tasks is zero exactly when every queued task is cancelled |
| Clock.LiveCountAppend | app/src/main/java/org/gringene/colourclock/ColourClock.java:236-237 | scheduling a task that is not cancelled adds exactly one live task |
| Clock.Cancel | app/src/main/java/org/gringene/colourclock/ColourClock.java:225 | cancelling a handle marks exactly the tasks with that handle cancelled and changes nothing else |
| Clock.RemoveFirst | app/src/main/java/org/gringene/colourclock/ColourClock.java:227 | removal takes one occurrence of the task out of the queue (as multisets), and leaves a queue without it unchanged |
| Clock.ColourClock.constructor | app/src/main/java/org/gringene/colourclock/ColourClock.java:54-68 | a new view holds the invariant, is ticking with one live task, has no canvas and has not started drawing |
| Clock.ColourClock.UpdateTime | app/src/main/java/org/gringene/colourclock/ColourClock.java:70-87 | the time fields become the sampled time; before the first resize nothing else changes (canvas, drawing flag and redraw count keep their values); afterwards exactly one frame for the new time is appended to the canvas and one redraw is requested |
| Clock.ColourClock.GetAngleColour | app/src/main/java/org/gringene/colourclock/ColourClock.java:89-107 | the colour is the wheel colour: saturation 1, hue in [0,360), value in [0.5,1] |
| Clock.ColourClock.DrawNumbers | app/src/main/java/org/gringene/colourclock/ColourClock.java:109-137 | the canvas gains the twelve numerals in order and then the sixty ticks in order |
| Clock.ColourClock.DrawClock | app/src/main/java/org/gringene/colourclock/ColourClock.java:139-160 | the canvas gains exactly one frame for the current time and band width; `isDrawing` is false on exit |
| Clock.ColourClock.DrawCircle | app/src/main/java/org/gringene/colourclock/ColourClock.java:162-171 | the canvas gains a disc around the centre in the fill colour and then its outline, both radiusFactor bands, the outline strokeWFactor bands wide |
| Clock.ColourClock.DrawCircleAt | app/src/main/java/org/gringene/colourclock/ColourClock.java:173-187 | the canvas gains a disc lengthFactor bands out along the clock angle, then its outline |
| Clock.ColourClock.DrawLine | app/src/main/java/org/gringene/colourclock/ColourClock.java:189-195 | the canvas gains one line from the centre, lengthFactor bands along the clock angle, widthFactor bands wide |
| Clock.ColourClock.OnSizeChanged | app/src/main/java/org/gringene/colourclock/ColourClock.java:207-219 | a positive size gives a fresh canvas of that size, the centre (w/2, h/2), the band width `BandWidth(w, h)`, drawing started, the sampled time and exactly one frame on the new canvas, with a redraw requested and the tick state untouched; a non-positive size fails and changes nothing |
| Clock.ColourClock.StopTick | app/src/main/java/org/gringene/colourclock/ColourClock.java:222-230 | requires a held handle (the source dereferences it); afterwards not ticking, no handle, an empty queue and no live task |
| Clock.ColourClock.StartTick | app/src/main/java/org/gringene/colourclock/ColourClock.java:232-239 | ticking with exactly one live task afterwards; when already ticking nothing changes; otherwise one task with a 0 ms initial delay and a 50 ms fixed delay is queued and its handle kept |
| Clock.Lifecycle | app/src/main/java/org/gringene/colourclock/ColourClock.java:222-239 | creating the view and starting again leaves one live task; stopping leaves none; starting after that leaves one again |

## Left out

- The Android `Canvas`, `Paint`, `Bitmap` and `Rect` are platform calls. Commands are recorded instead of pixels. Paint state is not modelled: brush style, stroke cap, text alignment, the text size set in `onSizeChanged`, the final `setStrokeWidth(1)` and the repeated `setStrokeWidth` in the angled `drawCircle`.
- `Color.HSVToColor` is a platform call, so the wheel stops at the HSV triple.
- The numeral baseline correction by half the text height is left out: it needs `getTextBounds`, a font-metrics call. The numeral text is recorded as its integer.
- The projections with `Math.cos`, `Math.sin` and `Math.PI` are transcendental. Positions stay in polar form, and centred points use the `Centre` point, which stands for (`centreX`, `centreY`).
- The sine easing of the sub-second fraction is transcendental. It is an input known to lie in [0,1).
- `Time.setToNow` and `System.currentTimeMillis` read the wall clock. Their values are parameters of `UpdateTime` and `OnSizeChanged`.
- The concurrency of the `ScheduledThreadPoolExecutor` is left out: task execution on the worker thread, `cancel(true)` interrupting a running tick, and the `onDraw`/`invalidate` retry while `isDrawing` is set. `postInvalidate` is counted in `invalidations`.
- `ClockActivity` and `ClockTicker` are lifecycle glue and a forwarding runnable, so they are not part of this model. `Clock.Lifecycle` plays the create/resume/pause/resume order directly.
- Float and double rounding is left out; all arithmetic is exact.
- The `oldWidth` and `oldHeight` parameters of `onSizeChanged` are unused by the source and omitted.
- Clock.ColourClock.StartTick: the handle is a fresh integer, not a `ScheduledFuture` object.
- Clock.ColourClock.OnSizeChanged: the exception thrown by the bitmap allocation on a non-positive size is modelled as `ok == false` with no state change, not as an exception that propagates to the caller.
