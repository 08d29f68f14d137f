/**
  The bird: gravity integration with a ceiling clamp, a jump that overwrites
  the velocity, the preview bird's automatic jump, and the inset box test
  against a pipe.
 */
module Birds {
  import opened Config
  import opened Pipes

  datatype Bird = Bird(
    x: real,
    y: real,
    width: real,
    height: real,
    velocity: real,
    gravity: real)

  /** A bird at rest at (x, y) with the game's size and gravity. */
  function NewBird(x: real, y: real): (b: Bird)
    ensures b.x == x && b.y == y && b.velocity == 0.0
    ensures b.width == BirdWidth && b.height == BirdHeight && b.gravity == Gravity
  {
    Bird(x, y, BirdWidth, BirdHeight, 0.0, Gravity)
  }

  /** The bird every game and every preview starts with: left side, vertically centred. */
  function SpawnBird(c: Canvas): (b: Bird)
    ensures b.x == BirdStartX && b.y == c.height / 2.0 && b.y >= 0.0 && b.velocity == 0.0
  {
    NewBird(BirdStartX, c.height / 2.0)
  }

  function Jump(b: Bird): Bird {
    b.(velocity := JumpForce)
  }

  /** Below this height the preview bird jumps on its own. */
  function PreviewJumpLine(c: Canvas): real {
    c.height / 2.0 + PreviewJumpDepth
  }

  /** One tick: gravity, then position, then the ceiling clamp, then (for the
      preview bird only) the automatic jump when it has sunk below the line. */
  function Update(b: Bird, isPreview: bool, c: Canvas): (b': Bird)
    ensures b'.y >= 0.0
    ensures b'.x == b.x && b'.width == b.width && b'.height == b.height && b'.gravity == b.gravity
    ensures b.y + b.velocity + b.gravity >= 0.0 ==> b'.y == b.y + b.velocity + b.gravity
    ensures b.y + b.velocity + b.gravity < 0.0 ==> b'.y == 0.0
    ensures !(isPreview && b'.y > PreviewJumpLine(c)) ==>
      b'.velocity == (if b.y + b.velocity + b.gravity < 0.0 then 0.0 else b.velocity + b.gravity)
    ensures isPreview && b'.y > PreviewJumpLine(c) ==> b'.velocity == JumpForce
  {
    var v := b.velocity + b.gravity;
    var moved := b.(velocity := v, y := b.y + v);
    var clamped := if moved.y < 0.0 then moved.(y := 0.0, velocity := 0.0) else moved;
    if isPreview && clamped.y > PreviewJumpLine(c) then Jump(clamped) else clamped
  }

  /** The collision test: the boxes, each shrunk by CollisionBuffer horizontally,
      overlap in x, and the bird reaches into the pipe vertically (a top pipe
      counts as reaching up forever, a bottom pipe down forever). */
  function CheckCollision(b: Bird, p: Pipe): bool
  {
    && b.x + CollisionBuffer < p.x + p.width - CollisionBuffer
    && b.x + b.width - CollisionBuffer > p.x + CollisionBuffer
    && ((p.isTop && b.y < p.height) || (!p.isTop && b.y + b.height > p.y))
  }

  // ---------------------------------------------------------------------------
  // Properties
  // ---------------------------------------------------------------------------

  /** Inset horizontal extents of the bird and of the pipe. */
  function BirdSpan(b: Bird): (real, real) {
    (b.x + CollisionBuffer, b.x + b.width - CollisionBuffer)
  }

  function PipeSpan(p: Pipe): (real, real) {
    (p.x + CollisionBuffer, p.x + p.width - CollisionBuffer)
  }

  /** The point t lies strictly inside the open interval a. */
  predicate Inside(t: real, a: (real, real)) {
    a.0 < t < a.1
  }

  /** Two open intervals share a point. */
  ghost predicate IntervalsMeet(a: (real, real), b: (real, real)) {
    exists t :: Inside(t, a) && Inside(t, b)
  }

  /** When both inset spans are proper intervals, the collision test's
      horizontal part holds exactly when the inset spans share a point. */
  lemma HorizontalTestIsOverlap(b: Bird, p: Pipe)
    requires BirdSpan(b).0 < BirdSpan(b).1 && PipeSpan(p).0 < PipeSpan(p).1
    ensures (b.x + CollisionBuffer < p.x + p.width - CollisionBuffer
             && b.x + b.width - CollisionBuffer > p.x + CollisionBuffer)
        <==> IntervalsMeet(BirdSpan(b), PipeSpan(p))
  {
    var lo := if BirdSpan(b).0 < PipeSpan(p).0 then PipeSpan(p).0 else BirdSpan(b).0;
    var hi := if BirdSpan(b).1 < PipeSpan(p).1 then BirdSpan(b).1 else PipeSpan(p).1;
    if lo < hi {
      var mid := (lo + hi) / 2.0;
      assert Inside(mid, BirdSpan(b)) && Inside(mid, PipeSpan(p));
    }
  }

  /** No collision when the inset spans do not share a point. */
  lemma NoCollisionApart(b: Bird, p: Pipe)
    requires BirdSpan(b).0 < BirdSpan(b).1 && PipeSpan(p).0 < PipeSpan(p).1
    requires !IntervalsMeet(BirdSpan(b), PipeSpan(p))
    ensures !CheckCollision(b, p)
  {
    HorizontalTestIsOverlap(b, p);
  }

  /** A bird entirely inside the opening misses both segments around it, and a
      bird that overlaps horizontally and reaches into a segment hits it. */
  lemma CollisionIffReachesSegment(b: Bird, p: Pipe)
    requires BirdSpan(b).0 < BirdSpan(b).1 && PipeSpan(p).0 < PipeSpan(p).1
    ensures CheckCollision(b, p) <==>
      IntervalsMeet(BirdSpan(b), PipeSpan(p))
      && (if p.isTop then b.y < p.height else b.y + b.height > p.y)
  {
    HorizontalTestIsOverlap(b, p);
  }

  /** A bird whose vertical extent lies inside the opening of a pair hits neither segment. */
  lemma InsideGapHitsNeither(b: Bird, top: Pipe, bottom: Pipe)
    requires top.isTop && !bottom.isTop
    requires top.height <= b.y && b.y + b.height <= bottom.y
    ensures !CheckCollision(b, top) && !CheckCollision(b, bottom)
  {
  }

  /** A bird vertically inside a preview pair's centred opening passes it. */
  lemma PreviewGapIsSafe(b: Bird, x: real, c: Canvas)
    requires PreviewGapPosition(c) <= b.y && b.y + b.height <= PreviewGapPosition(c) + PipeGap
    ensures !CheckCollision(b, NewPreviewPipe(x, true, c))
    ensures !CheckCollision(b, NewPreviewPipe(x, false, c))
  {
    InsideGapHitsNeither(b, NewPreviewPipe(x, true, c), NewPreviewPipe(x, false, c));
  }

  /** A jump sets the velocity to JumpForce whatever it was and leaves position, size and gravity alone. */
  lemma JumpOverwritesVelocity(b: Bird, v: real)
    ensures Jump(b).velocity == JumpForce
    ensures Jump(b.(velocity := v)) == Jump(b)
    ensures Jump(Jump(b)) == Jump(b)
    ensures Jump(b).x == b.x && Jump(b).y == b.y && Jump(b).gravity == b.gravity
    ensures Jump(b).width == b.width && Jump(b).height == b.height
  {
  }

  /** After any tick the bird is not above the field, so of the two boundary
      conditions only the ground can end a game. */
  lemma UpdatedBirdOnlyHitsGround(b: Bird, isPreview: bool, c: Canvas)
    ensures var b' := Update(b, isPreview, c);
      (b'.y + b'.height > c.height - GroundHeight || b'.y < 0.0)
      <==> b'.y + b'.height > c.height - GroundHeight
  {
  }

  /** Starting at rest at y = 100, one gameplay tick gives velocity 0.2 and y = 100.2. */
  lemma FirstTickFromRest(c: Canvas)
    ensures Update(NewBird(BirdStartX, 100.0), false, c).velocity == 0.2
    ensures Update(NewBird(BirdStartX, 100.0), false, c).y == 100.2
  {
  }
}
