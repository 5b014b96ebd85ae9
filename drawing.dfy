/**
 * The clock face as a list of drawing commands.  The platform canvas is
 * replaced by a Canvas object that records, in order, the commands drawn on
 * it; positions are kept in polar form around the view's centre (a screen
 * angle in degrees and a distance), so no sine or cosine is needed.  A clock
 * angle of 0 degrees (twelve o'clock) is the screen angle -90 (straight up).
 * All lengths are the layout factors of the source times the band width, the
 * sixteenth of the face radius.
 */
module Drawing {
  import opened ColourWheel

  // Layout constants, in sixteenths of the face radius.
  const OuterPos: real := 16.0
  const InnerPos: real := 11.0
  const NumberPos: real := (OuterPos + InnerPos) / 2.0
  const SecPos: real := 10.0
  const MinPos: real := 9.0
  const HourPos: real := 6.5
  const HourWidth: real := 0.5
  const MinWidth: real := 0.25
  const SecWidth: real := 0.125

  /** A point of the view: its centre, or a screen angle (degrees) and a distance from the centre. */
  datatype Point = Centre | Polar(deg: real, dist: real)

  /** The colours the face is drawn in; joint markers are filled from the colour wheel. */
  datatype Colour = White | Black | FromHsv(hsv: Hsv)

  /**
   * One drawing call: a filled disc, a circle outline of a stroke width, a
   * straight line of a stroke width (every line of the face is drawn with the
   * black brush), or a numeral.
   */
  datatype Command =
    | Disc(at: Point, radius: real, fill: Colour)
    | Ring(at: Point, radius: real, stroke: Colour, width: real)
    | Line(from: Point, to: Point, width: real)
    | Text(numeral: int, at: Point, size: real)

  /** The off-screen canvas over the backing bitmap: its size and what has been drawn on it. */
  class Canvas {
    const width: int
    const height: int
    var commands: seq<Command>

    constructor (width: int, height: int)
      ensures this.width == width && this.height == height
      ensures commands == []
    {
      this.width := width;
      this.height := height;
      commands := [];
    }

    method Draw(c: Command)
      modifies this
      ensures commands == old(commands) + [c]
    {
      commands := commands + [c];
    }
  }

  /** Drawing more onto a canvas that already shows `before + drawn` extends `drawn`. */
  lemma Extend(before: seq<Command>, drawn: seq<Command>, more: seq<Command>)
    ensures before + drawn + more == before + (drawn + more)
  {
  }

  /** Drawing a hand and then its joint after `before + drawn` extends `drawn` by both. */
  lemma Handed(before: seq<Command>, drawn: seq<Command>, bw: real, angle: real, lengthFactor: real,
               widthFactor: real, jointFactor: real, jointRadius: real)
    ensures before + drawn + [Hand(bw, angle, lengthFactor, widthFactor)]
            + Joint(bw, angle, jointFactor, jointRadius, widthFactor, FromHsv(AngleColour(angle)), Black)
            == before + (drawn + HandWithJoint(bw, angle, lengthFactor, widthFactor, jointFactor, jointRadius))
  {
    var hand := [Hand(bw, angle, lengthFactor, widthFactor)];
    var joint := Joint(bw, angle, jointFactor, jointRadius, widthFactor, FromHsv(AngleColour(angle)), Black);
    Extend(before + drawn, hand, joint);
    Extend(before, drawn, hand + joint);
  }

  /** A length of `factor` bands. */
  function Bands(factor: real, bw: real): real {
    factor * bw
  }

  /** The clock angle of the hour hand: 360/12 degrees per hour. */
  function HourAngle(hours: real): real {
    hours * 30.0
  }

  /** The clock angle of the minute or second hand: 360/60 degrees per minute or second. */
  function MinuteAngle(minutes: real): real {
    minutes * 6.0
  }

  /** The screen angle of a clock angle: twelve o'clock points straight up. */
  function Screen(angle: real): real {
    angle - 90.0
  }

  /** The band width for a view of the given size: the face radius, 8 pixels inside the shorter side, over 16. */
  function BandWidth(width: int, height: int): (bw: real)
    ensures 2.0 * (OuterPos * bw + 8.0) == (if width < height then width else height) as real
    ensures bw > 0.0 <==> width > 16 && height > 16
  {
    var clockRadius := (if width - 16 < height - 16 then width - 16 else height - 16) as real / 2.0;
    clockRadius / 16.0
  }

  /** What one call of drawCircle records: the disc in the fill colour, then its outline. */
  function Circle(at: Point, radius: real, strokeWidth: real, fill: Colour, stroke: Colour): seq<Command> {
    [Disc(at, radius, fill), Ring(at, radius, stroke, strokeWidth)]
  }

  /** A hand: a line from the centre toward a clock angle, lengthFactor bands long. */
  function Hand(bw: real, angle: real, lengthFactor: real, widthFactor: real): Command {
    Line(Centre, Polar(Screen(angle), Bands(lengthFactor, bw)), Bands(widthFactor, bw))
  }

  /** A joint marker: a circle on a hand's direction, lengthFactor bands out. */
  function Joint(bw: real, angle: real, lengthFactor: real, radiusFactor: real, strokeFactor: real,
                 fill: Colour, stroke: Colour): seq<Command> {
    Circle(Polar(Screen(angle), Bands(lengthFactor, bw)), Bands(radiusFactor, bw), Bands(strokeFactor, bw), fill, stroke)
  }

  /** Numeral i of the dial. */
  function Numeral(bw: real, i: int): Command {
    Text(i, Polar((i * 30 - 90) as real, Bands(NumberPos, bw)), Bands(3.0, bw))
  }

  /** Tick mark i of the dial: a radial line ending a third of a band inside the inner ring. */
  function TickMark(bw: real, i: int): Command {
    var angle := (i * 6 - 90) as real;
    var tel := bw / 3.0;
    var tsl := if i % 5 == 0 then bw else bw / 2.0;
    var width := if i % 5 == 0 then Bands(MinWidth, bw) * 0.75 else Bands(SecWidth, bw) * 0.75;
    Line(Polar(angle, Bands(InnerPos, bw) - tel - tsl), Polar(angle, Bands(InnerPos, bw) - tel), width)
  }

  /** The numerals 1 to 12, in drawing order. */
  function Numerals(bw: real): seq<Command> {
    seq(12, i => Numeral(bw, i + 1))
  }

  /** The 60 tick marks, in drawing order. */
  function Ticks(bw: real): seq<Command> {
    seq(60, i => TickMark(bw, i))
  }

  /** The length of a radial line. */
  function RadialLength(c: Command): real
    requires c.Line? && c.from.Polar? && c.to.Polar?
  {
    c.to.dist - c.from.dist
  }

  /** The dial: outer ring, inner ring, the numerals and the ticks. */
  function Dial(bw: real): seq<Command> {
    Circle(Centre, Bands(OuterPos, bw), Bands(0.125, bw), White, Black)
    + Circle(Centre, Bands(InnerPos, bw), Bands(0.125, bw), White, Black)
    + Numerals(bw) + Ticks(bw)
  }

  /** A hand followed by its joint marker, filled with the wheel colour of the hand's angle. */
  function HandWithJoint(bw: real, angle: real, lengthFactor: real, widthFactor: real,
                         jointFactor: real, jointRadius: real): seq<Command> {
    [Hand(bw, angle, lengthFactor, widthFactor)]
    + Joint(bw, angle, jointFactor, jointRadius, widthFactor, FromHsv(AngleColour(angle)), Black)
  }

  /**
   * One frame as drawClock draws it: the dial, then the hour, minute and
   * second hands, each with its joint marker, and last the centre dot.
   */
  function Frame(bw: real, hours: real, minutes: real, seconds: real): seq<Command> {
    Dial(bw)
    + HandWithJoint(bw, HourAngle(hours), HourPos, HourWidth, HourPos - 2.0, 1.5)
    + HandWithJoint(bw, MinuteAngle(minutes), MinPos, MinWidth, MinPos - 1.25, 1.0)
    + HandWithJoint(bw, MinuteAngle(seconds), SecPos, SecWidth, SecPos - 0.75, 0.5)
    + Circle(Centre, Bands(2.0, bw), Bands(0.5, bw), White, Black)
  }

  /**
   * Every tick runs along its own 6-degree direction and ends at the same
   * radius; it is a major tick (one band long, drawn with the minute-hand
   * stroke) exactly when its index is a multiple of 5, and a minor one (half a
   * band, second-hand stroke) otherwise.
   */
  lemma TickRule(bw: real, i: int)
    requires bw > 0.0 && 0 <= i < 60
    ensures TickMark(bw, i).from.Polar? && TickMark(bw, i).to.Polar?
    ensures TickMark(bw, i).from.deg == TickMark(bw, i).to.deg == (i * 6 - 90) as real
    ensures TickMark(bw, i).to.dist == InnerPos * bw - bw / 3.0
    ensures RadialLength(TickMark(bw, i)) == bw <==> i % 5 == 0
    ensures RadialLength(TickMark(bw, i)) == bw / 2.0 <==> i % 5 != 0
    ensures TickMark(bw, i).width == 0.1875 * bw <==> i % 5 == 0
    ensures TickMark(bw, i).width == 0.09375 * bw <==> i % 5 != 0
  {
  }

  /** The numerals sit midway between the two rings, at 30-degree steps starting from one o'clock. */
  lemma NumeralRule(bw: real, i: int)
    requires 1 <= i <= 12
    ensures Numeral(bw, i).at == Polar(Screen(30.0 * i as real), 13.5 * bw)
    ensures NumberPos == (OuterPos + InnerPos) / 2.0 == 13.5
  {
  }

  /** The drawing order of one frame: 87 commands in fixed positions. */
  lemma FrameOrder(bw: real, hours: real, minutes: real, seconds: real)
    ensures |Frame(bw, hours, minutes, seconds)| == 87
    ensures Frame(bw, hours, minutes, seconds)[0..2] == Circle(Centre, 16.0 * bw, 0.125 * bw, White, Black)
    ensures Frame(bw, hours, minutes, seconds)[2..4] == Circle(Centre, 11.0 * bw, 0.125 * bw, White, Black)
    ensures forall i :: 4 <= i < 16 ==> Frame(bw, hours, minutes, seconds)[i] == Numeral(bw, i - 3)
    ensures forall i :: 0 <= i < 60 ==> Frame(bw, hours, minutes, seconds)[16 + i] == TickMark(bw, i)
    ensures Frame(bw, hours, minutes, seconds)[76].Line? && Frame(bw, hours, minutes, seconds)[77].Disc?
    ensures Frame(bw, hours, minutes, seconds)[79].Line? && Frame(bw, hours, minutes, seconds)[80].Disc?
    ensures Frame(bw, hours, minutes, seconds)[82].Line? && Frame(bw, hours, minutes, seconds)[83].Disc?
    ensures Frame(bw, hours, minutes, seconds)[85..87] == Circle(Centre, 2.0 * bw, 0.5 * bw, White, Black)
  {
    var f := Frame(bw, hours, minutes, seconds);
    var head := Circle(Centre, Bands(OuterPos, bw), Bands(0.125, bw), White, Black)
                + Circle(Centre, Bands(InnerPos, bw), Bands(0.125, bw), White, Black);
    assert f[..76] == Dial(bw);
    assert Dial(bw)[..4] == head;
    assert f[0..2] == head[0..2] == Circle(Centre, 16.0 * bw, 0.125 * bw, White, Black);
    assert f[2..4] == head[2..4] == Circle(Centre, 11.0 * bw, 0.125 * bw, White, Black);
    assert f[4..16] == Numerals(bw);
    assert f[16..76] == Ticks(bw);
    assert f[85..87] == Circle(Centre, Bands(2.0, bw), Bands(0.5, bw), White, Black);
    forall i | 4 <= i < 16 ensures f[i] == Numeral(bw, i - 3) {
      assert f[i] == f[4..16][i - 4];
    }
    forall i | 0 <= i < 60 ensures f[16 + i] == TickMark(bw, i) {
      assert f[16 + i] == f[16..76][i];
    }
  }

  /**
   * The hands and their joints: hand k runs from the centre along its clock
   * angle (hours x 30, minutes x 6, seconds x 6 degrees) to its tip; its joint
   * sits on the same direction, 2, 1.25 and 0.75 bands short of the tip, with
   * radius 1.5, 1 and 0.5 bands, filled with the wheel colour of the hand's
   * angle.
   */
  lemma HandsAndJoints(bw: real, hours: real, minutes: real, seconds: real)
    ensures var f := Frame(bw, hours, minutes, seconds);
      && f[76] == Line(Centre, Polar(Screen(hours * 30.0), 6.5 * bw), 0.5 * bw)
      && f[77] == Disc(Polar(Screen(hours * 30.0), f[76].to.dist - 2.0 * bw), 1.5 * bw,
                       FromHsv(AngleColour(hours * 30.0)))
      && f[79] == Line(Centre, Polar(Screen(minutes * 6.0), 9.0 * bw), 0.25 * bw)
      && f[80] == Disc(Polar(Screen(minutes * 6.0), f[79].to.dist - 1.25 * bw), bw,
                       FromHsv(AngleColour(minutes * 6.0)))
      && f[82] == Line(Centre, Polar(Screen(seconds * 6.0), 10.0 * bw), 0.125 * bw)
      && f[83] == Disc(Polar(Screen(seconds * 6.0), f[82].to.dist - 0.75 * bw), 0.5 * bw,
                       FromHsv(AngleColour(seconds * 6.0)))
      && f[78] == Ring(f[77].at, f[77].radius, Black, 0.5 * bw)
      && f[81] == Ring(f[80].at, f[80].radius, Black, 0.25 * bw)
      && f[84] == Ring(f[83].at, f[83].radius, Black, 0.125 * bw)
  {
    var f := Frame(bw, hours, minutes, seconds);
    FrameOrder(bw, hours, minutes, seconds);
    assert Bands(HourPos - 2.0, bw) == 6.5 * bw - 2.0 * bw;
    assert Bands(MinPos - 1.25, bw) == 9.0 * bw - 1.25 * bw;
    assert Bands(SecPos - 0.75, bw) == 10.0 * bw - 0.75 * bw;
    assert f[76..79] == HandWithJoint(bw, HourAngle(hours), HourPos, HourWidth, HourPos - 2.0, 1.5);
    assert f[79..82] == HandWithJoint(bw, MinuteAngle(minutes), MinPos, MinWidth, MinPos - 1.25, 1.0);
    assert f[82..85] == HandWithJoint(bw, MinuteAngle(seconds), SecPos, SecWidth, SecPos - 0.75, 0.5);
  }
}
