/**
  A pipe is one segment of an obstacle: a top segment hanging from the
  ceiling or a bottom segment standing on the floor. Gameplay pipes get a
  random gap position; preview pipes sit at a fixed, centred gap and loop
  from the left edge back to the right edge instead of leaving the field.
 */
module Pipes {
  import opened Config

  datatype Pipe = Pipe(
    x: real,
    width: real,
    isTop: bool,
    isPreview: bool,
    y: real,
    height: real,
    passed: bool)

  /** Range over which a gameplay gap may start, above its minimum position. */
  function AvailableSpace(c: Canvas): real {
    c.height - PipeGap - 2.0 * MinPipeHeight
  }

  /** Top edge of the gap of a gameplay pipe built with random value r. */
  function RandomGapPosition(r: Random, c: Canvas): real {
    MinPipeHeight + r * AvailableSpace(c)
  }

  /** Top edge of the gap of every preview pipe: the gap is centred. */
  function PreviewGapPosition(c: Canvas): real {
    c.height / 2.0 - PipeGap / 2.0
  }

  /** The segment on one side of a gap whose top edge is at gapPosition. */
  function Segment(x: real, isTop: bool, isPreview: bool, gapPosition: real, c: Canvas): (p: Pipe)
    ensures p.x == x && p.width == PipeWidth && !p.passed
    ensures p.isTop == isTop && p.isPreview == isPreview
    ensures isTop ==> p.y == 0.0 && p.height == gapPosition
    ensures !isTop ==> p.y == gapPosition + PipeGap && p.y + p.height == c.height
  {
    if isTop then
      Pipe(x, PipeWidth, isTop, isPreview, 0.0, gapPosition, false)
    else
      var y := gapPosition + PipeGap;
      Pipe(x, PipeWidth, isTop, isPreview, y, c.height - y, false)
  }

  /** A gameplay pipe; every construction draws its own random value r. */
  function NewPipe(x: real, isTop: bool, r: Random, c: Canvas): (p: Pipe)
    ensures p.x == x && p.width == PipeWidth && p.isTop == isTop
    ensures !p.isPreview && !p.passed
    ensures isTop ==> p.y == 0.0
    ensures !isTop ==> p.y + p.height == c.height
  {
    Segment(x, isTop, false, RandomGapPosition(r, c), c)
  }

  /** A preview pipe: its gap is centred and no random value is drawn. */
  function NewPreviewPipe(x: real, isTop: bool, c: Canvas): (p: Pipe)
    ensures p.x == x && p.width == PipeWidth && p.isTop == isTop
    ensures p.isPreview && !p.passed
    ensures isTop ==> p.y == 0.0
    ensures !isTop ==> p.y + p.height == c.height
  {
    Segment(x, isTop, true, PreviewGapPosition(c), c)
  }

  /** One tick of motion; a preview pipe that left the field re-enters at the right edge. */
  function Update(p: Pipe, c: Canvas): (q: Pipe)
    ensures q == p.(x := q.x)
    ensures !p.isPreview ==> q.x == p.x - PipeSpeed
    ensures p.isPreview && p.x - PipeSpeed + p.width < 0.0 ==> q.x == c.width
    ensures p.isPreview && p.x - PipeSpeed + p.width >= 0.0 ==> q.x == p.x - PipeSpeed
  {
    var moved := p.(x := p.x - PipeSpeed);
    if moved.isPreview && moved.x + moved.width < 0.0 then moved.(x := c.width) else moved
  }

  /** The two looping preview pairs: one at the right edge, one further right. */
  function PreviewPipes(c: Canvas): (ps: seq<Pipe>)
    ensures |ps| == 4
    ensures forall i :: 0 <= i < 4 ==> ps[i].isPreview && !ps[i].passed && ps[i].width == PipeWidth
    ensures ps[0].isTop && !ps[1].isTop && ps[2].isTop && !ps[3].isTop
    ensures ps[0].x == ps[1].x == c.width
    ensures ps[2].x == ps[3].x == c.width + PreviewPairSpacing
    ensures ps[0].height + PipeGap + ps[1].height == c.height
    ensures ps[2].height + PipeGap + ps[3].height == c.height
  {
    [NewPreviewPipe(c.width, true, c), NewPreviewPipe(c.width, false, c),
     NewPreviewPipe(c.width + PreviewPairSpacing, true, c),
     NewPreviewPipe(c.width + PreviewPairSpacing, false, c)]
  }

  /** The pipe's trailing edge is still right of the field's left edge. */
  predicate OnScreen(p: Pipe) {
    p.x + p.width > 0.0
  }

  /** Where a preview pipe always stays: never fully left of the field, never beyond the second pair's start. */
  predicate InPreviewLane(p: Pipe, c: Canvas) {
    && p.isPreview
    && p.width == PipeWidth
    && p.x + p.width >= 0.0
    && p.x <= c.width + PreviewPairSpacing
  }

  // ---------------------------------------------------------------------------
  // Properties
  // ---------------------------------------------------------------------------

  /** r * a stays in [0, a] for r in [0, 1) and a >= 0, strictly below a when a > 0. */
  lemma ScaledBelow(r: Random, a: real)
    requires a >= 0.0
    ensures 0.0 <= r * a <= a
    ensures a > 0.0 ==> r * a < a
  {
    assert a - r * a == (1.0 - r) * a;
  }

  /** A product of reals is zero only if a factor is. */
  lemma ProductOfNonzero(a: real, b: real)
    requires b != 0.0
    ensures a * b == 0.0 <==> a == 0.0
  {
    if a > 0.0 && b > 0.0 { assert a * b > 0.0; }
    if a < 0.0 && b < 0.0 { assert a * b == (-a) * (-b); assert (-a) * (-b) > 0.0; }
    if a > 0.0 && b < 0.0 { assert a * b == -(a * (-b)); assert a * (-b) > 0.0; }
    if a < 0.0 && b > 0.0 { assert a * b == -((-a) * b); assert (-a) * b > 0.0; }
  }

  /** The random gap position lies in [MinPipeHeight, MinPipeHeight + AvailableSpace],
      strictly below the top of that range when there is spare room. */
  lemma RandomGapBounds(r: Random, c: Canvas)
    requires AvailableSpace(c) >= 0.0
    ensures MinPipeHeight <= RandomGapPosition(r, c) <= MinPipeHeight + AvailableSpace(c)
    ensures AvailableSpace(c) > 0.0 ==> RandomGapPosition(r, c) < MinPipeHeight + AvailableSpace(c)
  {
    var a := AvailableSpace(c);
    ScaledBelow(r, a);
    assert RandomGapPosition(r, c) == MinPipeHeight + r * a;
  }

  /** Segment extents for any gap position in the safe range. */
  lemma SegmentExtents(x: real, g: real, c: Canvas)
    requires MinPipeHeight <= g <= MinPipeHeight + AvailableSpace(c)
    ensures var top := Segment(x, true, false, g, c);
      MinPipeHeight <= top.height <= c.height - PipeGap - MinPipeHeight
    ensures var bottom := Segment(x, false, false, g, c);
      bottom.height >= MinPipeHeight && bottom.y + bottom.height == c.height
    ensures g < MinPipeHeight + AvailableSpace(c) ==>
      Segment(x, true, false, g, c).height < c.height - PipeGap - MinPipeHeight
    ensures g < MinPipeHeight + AvailableSpace(c) ==> Segment(x, false, false, g, c).height > MinPipeHeight
  {
  }

  /** With room for a gap and two minimum segments, a random gameplay pipe keeps
      both of its segment extents at least MinPipeHeight; strictly more on the
      bottom (and strictly less than the maximum on the top) when there is spare room. */
  lemma RandomPipeExtents(x: real, r: Random, c: Canvas)
    requires c.height >= PipeGap + 2.0 * MinPipeHeight
    ensures var top := NewPipe(x, true, r, c);
      MinPipeHeight <= top.height <= c.height - PipeGap - MinPipeHeight
    ensures var top := NewPipe(x, true, r, c);
      AvailableSpace(c) > 0.0 ==> top.height < c.height - PipeGap - MinPipeHeight
    ensures var bottom := NewPipe(x, false, r, c);
      bottom.height >= MinPipeHeight && bottom.y + bottom.height == c.height
    ensures var bottom := NewPipe(x, false, r, c);
      AvailableSpace(c) > 0.0 ==> bottom.height > MinPipeHeight
  {
    RandomGapBounds(r, c);
    SegmentExtents(x, RandomGapPosition(r, c), c);
  }

  /** Two gameplay pipes spawned together each draw their own random value, so
      the opening between them is PipeGap shifted by the difference of the draws. */
  lemma RandomPairOpening(x: real, rTop: Random, rBottom: Random, c: Canvas)
    ensures NewPipe(x, false, rBottom, c).y - NewPipe(x, true, rTop, c).height
         == PipeGap + (rBottom - rTop) * AvailableSpace(c)
  {
    assert rBottom * AvailableSpace(c) - rTop * AvailableSpace(c) == (rBottom - rTop) * AvailableSpace(c);
  }

  /** The opening of a spawned pair is exactly PipeGap if and only if both draws
      agree (whenever there is any room to randomise in). */
  lemma RandomPairOpeningExact(x: real, rTop: Random, rBottom: Random, c: Canvas)
    requires AvailableSpace(c) != 0.0
    ensures NewPipe(x, false, rBottom, c).y - NewPipe(x, true, rTop, c).height == PipeGap
        <==> rTop == rBottom
  {
    RandomPairOpening(x, rTop, rBottom, c);
    ProductOfNonzero(rBottom - rTop, AvailableSpace(c));
  }

  /** On an 800-unit canvas the two independent draws can place the bottom
      segment above the top segment's lower edge: the pair has no opening. */
  lemma RandomPairCanClose()
    ensures var c: Canvas := Surface(400.0, 800.0);
      NewPipe(400.0, false, 0.0, c).y < NewPipe(400.0, true, 0.9, c).height
  {
  }

  /** Preview pairs always leave exactly PipeGap between their segments. */
  lemma PreviewPairOpening(x: real, c: Canvas)
    ensures NewPreviewPipe(x, true, c).height + PipeGap + NewPreviewPipe(x, false, c).height == c.height
    ensures NewPreviewPipe(x, false, c).y - NewPreviewPipe(x, true, c).height == PipeGap
  {
  }

  /** A preview pipe never leaves its lane, however many ticks pass. */
  lemma PreviewPipeStaysInLane(p: Pipe, c: Canvas)
    requires InPreviewLane(p, c)
    ensures InPreviewLane(Update(p, c), c)
  {
  }

  /** n ticks of motion of a gameplay pipe. */
  function UpdateTimes(p: Pipe, n: nat, c: Canvas): Pipe
    decreases n
  {
    if n == 0 then p else UpdateTimes(Update(p, c), n - 1, c)
  }

  /** A gameplay pipe moves at constant speed: after n ticks it is n * PipeSpeed further left and otherwise unchanged. */
  lemma {:induction false} GameplayPipeDrift(p: Pipe, n: nat, c: Canvas)
    requires !p.isPreview
    ensures UpdateTimes(p, n, c) == p.(x := p.x - (n as real) * PipeSpeed)
    decreases n
  {
    if n > 0 {
      GameplayPipeDrift(Update(p, c), n - 1, c);
    }
  }

  /** A gameplay pipe spawned 60 units in and 60 wide is at the left edge, still
      on screen, after 30 ticks, and first leaves the screen after 60 ticks. */
  lemma PipeLeavesAfterSixtyTicks(p: Pipe, c: Canvas)
    requires !p.isPreview && p.x == 60.0 && p.width == 60.0
    ensures UpdateTimes(p, 30, c).x == 0.0 && OnScreen(UpdateTimes(p, 30, c))
    ensures OnScreen(UpdateTimes(p, 59, c)) && !OnScreen(UpdateTimes(p, 60, c))
  {
    GameplayPipeDrift(p, 30, c);
    GameplayPipeDrift(p, 59, c);
    GameplayPipeDrift(p, 60, c);
  }
}
