/**
  The game's state and everything that changes it: the input handlers, the
  start/end transitions, the delayed return to preview, the per-tick pipe
  bookkeeping and the two frame routines (gameplay and preview).

  The clock and the random source are parameters: `now` is the millisecond
  time a call would read, and each gameplay pipe construction takes its own
  random value in [0, 1).
 */
module Game {
  import opened Config
  import opened Pipes
  import opened Birds

  datatype GameState = GameState(
    canvas: Canvas,
    // gameplay
    bird: Bird,
    pipes: seq<Pipe>,
    score: nat,
    gameRunning: bool,
    gameOver: bool,
    lastPipeTime: int,
    // preview (attract mode)
    previewMode: bool,
    previewBird: Bird,
    previewPipes: seq<Pipe>,
    lastPreviewJump: int)

  /** The state once the page has loaded: preview mode with a centred bird and two looping pairs. */
  function Init(c: Canvas): (s: GameState)
    ensures s.canvas == c && s.previewMode && !s.gameRunning && !s.gameOver
    ensures s.score == 0 && s.pipes == [] && s.lastPipeTime == 0 && s.lastPreviewJump == 0
    ensures s.bird == s.previewBird == SpawnBird(c) && s.previewPipes == PreviewPipes(c)
  {
    GameState(c, SpawnBird(c), [], 0, false, false, 0, true, SpawnBird(c), PreviewPipes(c), 0)
  }

  // ---------------------------------------------------------------------------
  // Mode transitions
  // ---------------------------------------------------------------------------

  /** Leaves preview (or a finished game) for a fresh running game. */
  function StartGame(s: GameState, now: int): (t: GameState)
    ensures !t.previewMode && t.gameRunning && !t.gameOver
    ensures t.score == 0 && t.pipes == [] && t.bird == SpawnBird(s.canvas) && t.lastPipeTime == now
    ensures t.canvas == s.canvas && t.previewBird == s.previewBird
    ensures t.previewPipes == s.previewPipes && t.lastPreviewJump == s.lastPreviewJump
  {
    s.(previewMode := false, gameRunning := true, gameOver := false, score := 0,
       pipes := [], bird := SpawnBird(s.canvas), lastPipeTime := now)
  }

  /** The restart button: hides the game-over panel, then starts a game. */
  function ResetGame(s: GameState, now: int): (t: GameState)
    ensures t == StartGame(s, now)
  {
    StartGame(s, now)
  }

  /** The jump key: starts a game from preview, jumps while running, and is ignored otherwise. */
  function HandleJump(s: GameState, now: int): (t: GameState)
    ensures s.previewMode ==> t == StartGame(s, now)
    ensures !s.previewMode && !s.gameRunning ==> t == s
    ensures !s.previewMode && s.gameRunning ==> t == s.(bird := Jump(s.bird)) && t.bird.velocity == JumpForce
  {
    if s.previewMode then StartGame(s, now)
    else if !s.gameRunning then s
    else s.(bird := Jump(s.bird))
  }

  /** Stops the running game; everything else, including the score, is kept. */
  function EndGame(s: GameState): (t: GameState)
    ensures !t.gameRunning && t.gameOver
    ensures t.score == s.score && t.bird == s.bird && t.pipes == s.pipes && t.previewMode == s.previewMode
    ensures t.previewBird == s.previewBird && t.previewPipes == s.previewPipes
    ensures t == s.(gameRunning := false, gameOver := true)
  {
    s.(gameRunning := false, gameOver := true)
  }

  /** The callback scheduled by EndGame: if the game is still over, return to
      preview with a fresh preview bird and fresh looping pipes. */
  function GameOverTimer(s: GameState): (t: GameState)
    ensures !s.gameOver ==> t == s
    ensures s.gameOver ==> t.previewMode && t.previewBird == SpawnBird(s.canvas) && t.previewPipes == PreviewPipes(s.canvas)
    ensures s.gameOver ==> t == s.(previewMode := true, previewBird := t.previewBird, previewPipes := t.previewPipes)
  {
    if s.gameOver then
      s.(previewMode := true, previewBird := SpawnBird(s.canvas), previewPipes := PreviewPipes(s.canvas))
    else s
  }

  // ---------------------------------------------------------------------------
  // Spawning
  // ---------------------------------------------------------------------------

  /** The spawn gate: strictly more than PipeFrequency ms since the last spawn. */
  predicate SpawnDue(s: GameState, now: int) {
    now - s.lastPipeTime > PipeFrequency
  }

  /** When the gate is open, appends a top and then a bottom pipe at the right
      edge, each built with its own random value, and restarts the gate. */
  function SpawnPipes(s: GameState, now: int, rTop: Random, rBottom: Random): (t: GameState)
    ensures !SpawnDue(s, now) ==> t == s
    ensures SpawnDue(s, now) ==> t == s.(pipes := t.pipes, lastPipeTime := now)
    ensures SpawnDue(s, now) ==>
      && |t.pipes| == |s.pipes| + 2
      && t.pipes[..|s.pipes|] == s.pipes
      && t.pipes[|s.pipes|].isTop && !t.pipes[|s.pipes| + 1].isTop
      && t.pipes[|s.pipes|].x == t.pipes[|s.pipes| + 1].x == s.canvas.width
      && !t.pipes[|s.pipes|].isPreview && !t.pipes[|s.pipes| + 1].isPreview
      && !t.pipes[|s.pipes|].passed && !t.pipes[|s.pipes| + 1].passed
    ensures SpawnDue(s, now) ==>
      t.pipes == s.pipes + [NewPipe(s.canvas.width, true, rTop, s.canvas), NewPipe(s.canvas.width, false, rBottom, s.canvas)]
  {
    if SpawnDue(s, now) then
      s.(pipes := s.pipes + [NewPipe(s.canvas.width, true, rTop, s.canvas)]
                           + [NewPipe(s.canvas.width, false, rBottom, s.canvas)],
         lastPipeTime := now)
    else s
  }

  // ---------------------------------------------------------------------------
  // Moving, scoring and colliding
  // ---------------------------------------------------------------------------

  /** After this tick's move, the pipe is a not-yet-passed bottom pipe whose
      trailing edge is left of the bird's left edge: it scores a point. */
  predicate Scores(b: Bird, p: Pipe, c: Canvas) {
    var q := Pipes.Update(p, c);
    q.x + q.width < b.x && !q.passed && !q.isTop
  }

  /** One loop iteration before the collision test: move the pipe, mark it passed if it scores. */
  function Advance(b: Bird, p: Pipe, c: Canvas): Pipe {
    if Scores(b, p, c) then Pipes.Update(p, c).(passed := true) else Pipes.Update(p, c)
  }

  function AdvanceAll(b: Bird, ps: seq<Pipe>, c: Canvas): (qs: seq<Pipe>)
    ensures |qs| == |ps| && forall i :: 0 <= i < |ps| ==> qs[i] == Advance(b, ps[i], c)
  {
    seq(|ps|, i requires 0 <= i < |ps| => Advance(b, ps[i], c))
  }

  /** Number of pipes in ps that score this tick. */
  function CountScoring(b: Bird, ps: seq<Pipe>, c: Canvas): nat
    decreases |ps|
  {
    if |ps| == 0 then 0 else (if Scores(b, ps[0], c) then 1 else 0) + CountScoring(b, ps[1..], c)
  }

  /** Number of bottom pipes in ps that have not been passed yet. */
  function CountUnpassedBottom(ps: seq<Pipe>): nat
    decreases |ps|
  {
    if |ps| == 0 then 0 else (if !ps[0].passed && !ps[0].isTop then 1 else 0) + CountUnpassedBottom(ps[1..])
  }

  /** Some pipe, once advanced, collides with the bird. */
  predicate Crashes(b: Bird, ps: seq<Pipe>, c: Canvas) {
    exists i :: 0 <= i < |ps| && CheckCollision(b, Advance(b, ps[i], c))
  }

  /** Outcome of the loop over the pipes: the pipe list as the loop leaves it,
      the points gained, whether it stopped on a collision, and how many pipes it visited. */
  datatype Sweep = Sweep(pipes: seq<Pipe>, gained: nat, hit: bool, visited: nat)

  /** The loop of the per-tick pipe update: each visited pipe is moved and maybe
      marked passed; the loop stops right after the first pipe that collides,
      leaving the pipes after it untouched. */
  function SweepPipes(b: Bird, ps: seq<Pipe>, c: Canvas): (r: Sweep)
    ensures |r.pipes| == |ps| && r.visited <= |ps|
    ensures forall i :: 0 <= i < r.visited ==> r.pipes[i] == Advance(b, ps[i], c)
    ensures forall i :: r.visited <= i < |ps| ==> r.pipes[i] == ps[i]
    ensures r.hit ==> 0 < r.visited && CheckCollision(b, r.pipes[r.visited - 1])
    ensures forall i :: 0 <= i < r.visited - 1 ==> !CheckCollision(b, r.pipes[i])
    ensures !r.hit ==> r.visited == |ps| && forall i :: 0 <= i < |ps| ==> !CheckCollision(b, r.pipes[i])
    ensures r.gained == CountScoring(b, ps[..r.visited], c)
    decreases |ps|
  {
    if |ps| == 0 then Sweep([], 0, false, 0)
    else
      var q := Advance(b, ps[0], c);
      var point := if Scores(b, ps[0], c) then 1 else 0;
      assert ps[..1][1..] == [];
      if CheckCollision(b, q) then
        Sweep([q] + ps[1..], point, true, 1)
      else
        var rest := SweepPipes(b, ps[1..], c);
        assert ps[..rest.visited + 1][1..] == ps[1..][..rest.visited];
        Sweep([q] + rest.pipes, point + rest.gained, rest.hit, rest.visited + 1)
  }

  /** `a` is `b` with some elements left out, the rest in their original order. */
  predicate Subsequence<T(==)>(a: seq<T>, b: seq<T>)
    decreases |b|
  {
    if |a| == 0 then true
    else if |b| == 0 then false
    else (a[0] == b[0] && Subsequence(a[1..], b[1..])) || Subsequence(a, b[1..])
  }

  /** Number of pipes in ps still on screen. */
  function CountOnScreen(ps: seq<Pipe>): nat
    decreases |ps|
  {
    if |ps| == 0 then 0 else (if OnScreen(ps[0]) then 1 else 0) + CountOnScreen(ps[1..])
  }

  /** The pruning filter: keeps exactly the pipes still on screen, in order. */
  function Survivors(ps: seq<Pipe>): (r: seq<Pipe>)
    ensures forall p :: p in r ==> OnScreen(p) && p in ps
    ensures forall p :: p in ps && OnScreen(p) ==> p in r
    ensures Subsequence(r, ps)
    ensures |r| == CountOnScreen(ps)
    decreases |ps|
  {
    if |ps| == 0 then []
    else if OnScreen(ps[0]) then
      var rest := Survivors(ps[1..]);
      assert ([ps[0]] + rest)[1..] == rest;
      [ps[0]] + rest
    else
      Survivors(ps[1..])
  }

  /** The per-tick pipe update: move, score and test every pipe; on a collision
      end the game and return at once, otherwise drop the pipes that left the screen. */
  function UpdatePipes(s: GameState): (t: GameState)
    ensures t.score >= s.score
    ensures t == s.(pipes := t.pipes, score := t.score, gameRunning := t.gameRunning, gameOver := t.gameOver)
    ensures Crashes(s.bird, s.pipes, s.canvas) ==>
      !t.gameRunning && t.gameOver && |t.pipes| == |s.pipes|
    ensures Crashes(s.bird, s.pipes, s.canvas) ==>
      var sw := SweepPipes(s.bird, s.pipes, s.canvas);
      t.pipes == sw.pipes && t.score == s.score + sw.gained
    ensures !Crashes(s.bird, s.pipes, s.canvas) ==>
      && t.gameRunning == s.gameRunning && t.gameOver == s.gameOver
      && t.score == s.score + CountScoring(s.bird, s.pipes, s.canvas)
      && t.pipes == Survivors(AdvanceAll(s.bird, s.pipes, s.canvas))
  {
    var sw := SweepPipes(s.bird, s.pipes, s.canvas);
    if sw.hit then
      EndGame(s.(pipes := sw.pipes, score := s.score + sw.gained))
    else
      assert s.pipes[..sw.visited] == s.pipes;
      assert sw.pipes == AdvanceAll(s.bird, s.pipes, s.canvas);
      s.(pipes := Survivors(sw.pipes), score := s.score + sw.gained)
  }

  // ---------------------------------------------------------------------------
  // Boundaries and the preview bird's timed jump
  // ---------------------------------------------------------------------------

  /** The bird's bottom is below the top of the ground strip, or its top is above the field. */
  predicate OutOfBounds(b: Bird, c: Canvas) {
    b.y + b.height > c.height - GroundHeight || b.y < 0.0
  }

  function CheckBoundaries(s: GameState): (t: GameState)
    ensures OutOfBounds(s.bird, s.canvas) ==> t == EndGame(s)
    ensures !OutOfBounds(s.bird, s.canvas) ==> t == s
  {
    if OutOfBounds(s.bird, s.canvas) then EndGame(s) else s
  }

  /** The preview bird jumps when more than PreviewJumpInterval ms passed since its last timed jump. */
  function MakePreviewBirdJump(s: GameState, now: int): (t: GameState)
    ensures now - s.lastPreviewJump > PreviewJumpInterval ==>
      && t.previewBird == Jump(s.previewBird)
      && t.previewBird.velocity == JumpForce && t.previewBird.y == s.previewBird.y
      && t.lastPreviewJump == now
    ensures now - s.lastPreviewJump <= PreviewJumpInterval ==> t == s
    ensures t == s.(previewBird := t.previewBird, lastPreviewJump := t.lastPreviewJump)
  {
    if now - s.lastPreviewJump > PreviewJumpInterval then
      s.(previewBird := Jump(s.previewBird), lastPreviewJump := now)
    else s
  }

  // ---------------------------------------------------------------------------
  // Frames
  // ---------------------------------------------------------------------------

  /** One preview frame: loop the preview pipes, maybe jump on the timer, then
      move the preview bird (which may also jump on its own). */
  function PreviewLoop(s: GameState, now: int): (t: GameState)
    ensures !s.previewMode ==> t == s
    ensures s.previewMode ==>
      && |t.previewPipes| == |s.previewPipes|
      && (forall i :: 0 <= i < |s.previewPipes| ==> t.previewPipes[i] == Pipes.Update(s.previewPipes[i], s.canvas))
      && t.previewBird.y >= 0.0
      && t.previewBird.x == s.previewBird.x
    ensures s.previewMode ==>
      var m := MakePreviewBirdJump(s.(previewPipes := t.previewPipes), now);
      && t.previewBird == Birds.Update(m.previewBird, true, s.canvas)
      && t.lastPreviewJump == m.lastPreviewJump
    ensures t == s.(previewPipes := t.previewPipes, previewBird := t.previewBird, lastPreviewJump := t.lastPreviewJump)
  {
    if !s.previewMode then s
    else
      var moved := s.(previewPipes := seq(|s.previewPipes|, i requires 0 <= i < |s.previewPipes| =>
                                            Pipes.Update(s.previewPipes[i], s.canvas)));
      var timed := MakePreviewBirdJump(moved, now);
      timed.(previewBird := Birds.Update(timed.previewBird, true, s.canvas))
  }

  /** One gameplay frame: move the bird; while running, spawn and update the
      pipes; then check the field's boundaries. Nothing happens once the game is over. */
  function GameLoop(s: GameState, now: int, rTop: Random, rBottom: Random): (t: GameState)
    ensures s.gameOver ==> t == s
    ensures t.score >= s.score
    ensures !s.gameOver ==> t.bird == Birds.Update(s.bird, false, s.canvas)
    ensures !s.gameOver && !s.gameRunning ==> t.pipes == s.pipes && t.score == s.score
    ensures !s.gameOver && t.gameOver ==> !t.gameRunning
    ensures t.gameRunning ==> s.gameRunning
    ensures t.canvas == s.canvas && t.previewMode == s.previewMode && t.previewBird == s.previewBird
    ensures t.previewPipes == s.previewPipes && t.lastPreviewJump == s.lastPreviewJump
    ensures !s.gameOver && s.gameRunning ==>
      var u := UpdatePipes(SpawnPipes(s.(bird := t.bird), now, rTop, rBottom));
      t.pipes == u.pipes && t.score == u.score
    ensures !s.gameOver && s.gameRunning ==> t.lastPipeTime == SpawnPipes(s, now, rTop, rBottom).lastPipeTime
    ensures !s.gameRunning ==> t.lastPipeTime == s.lastPipeTime
    ensures !s.gameOver ==> t.gameRunning == (s.gameRunning && !t.gameOver)
  {
    if s.gameOver then s
    else
      var moved := s.(bird := Birds.Update(s.bird, false, s.canvas));
      var piped := if moved.gameRunning then UpdatePipes(SpawnPipes(moved, now, rTop, rBottom)) else moved;
      CheckBoundaries(piped)
  }

  /** The frame routine that is scheduled: the preview loop while in preview, the game loop otherwise. */
  function Frame(s: GameState, now: int, rTop: Random, rBottom: Random): (t: GameState)
    ensures s.previewMode ==>
      t == s.(previewPipes := t.previewPipes, previewBird := t.previewBird, lastPreviewJump := t.lastPreviewJump)
    ensures !s.previewMode ==>
      && t.previewMode == s.previewMode && t.previewBird == s.previewBird
      && t.previewPipes == s.previewPipes && t.lastPreviewJump == s.lastPreviewJump
  {
    if s.previewMode then PreviewLoop(s, now) else GameLoop(s, now, rTop, rBottom)
  }

  // ---------------------------------------------------------------------------
  // Events
  // ---------------------------------------------------------------------------

  /** What can happen to the game: a key press, a button click, an animation
      frame, or the delayed callback armed when a game ends. */
  datatype Event =
    | SpaceKey(now: int)
    | StartClick(now: int)
    | RestartClick(now: int)
    | AnimationFrame(now: int, rTop: Random, rBottom: Random)
    | GameOverTimerFired

  function Step(s: GameState, e: Event): GameState {
    match e
    case SpaceKey(now) => HandleJump(s, now)
    case StartClick(now) => StartGame(s, now)
    case RestartClick(now) => ResetGame(s, now)
    case AnimationFrame(now, rTop, rBottom) => Frame(s, now, rTop, rBottom)
    case GameOverTimerFired => GameOverTimer(s)
  }

  function Run(s: GameState, es: seq<Event>): GameState
    decreases |es|
  {
    if |es| == 0 then s else Run(Step(s, es[0]), es[1..])
  }
}
