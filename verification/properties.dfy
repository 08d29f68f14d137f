/**
  Properties of the game model that relate several operations: score
  accounting, the passed flag, spawn rate limiting, when a frame ends a game,
  the invariant every reachable state keeps, the mode diagram, and the
  in-place pipe loop agreeing with its functional description.
 */
module GameProperties {
  import opened Config
  import opened Pipes
  import opened Birds
  import opened Game

  // ---------------------------------------------------------------------------
  // Scoring and the passed flag
  // ---------------------------------------------------------------------------

  /** Advancing a pipe moves it and may set passed; passed is never cleared,
      and it is only ever set on a bottom pipe whose trailing edge is now left of the bird. */
  lemma AdvanceOnlySetsPassed(b: Bird, p: Pipe, c: Canvas)
    ensures Advance(b, p, c) == Pipes.Update(p, c).(passed := Advance(b, p, c).passed)
    ensures p.passed ==> Advance(b, p, c).passed
    ensures Advance(b, p, c).passed && !p.passed ==>
      !p.isTop && Advance(b, p, c).x + Advance(b, p, c).width < b.x
  {
  }

  /** Only not-yet-passed bottom pipes can score. */
  lemma {:induction false} ScoringNeedsUnpassedBottom(b: Bird, ps: seq<Pipe>, c: Canvas)
    ensures CountScoring(b, ps, c) <= CountUnpassedBottom(ps)
    decreases |ps|
  {
    if |ps| > 0 {
      ScoringNeedsUnpassedBottom(b, ps[1..], c);
    }
  }

  /** Counting over a prefix never gives more points than over the whole list. */
  lemma {:induction false} ScoringPrefix(b: Bird, ps: seq<Pipe>, k: nat, c: Canvas)
    requires k <= |ps|
    ensures CountScoring(b, ps[..k], c) <= CountScoring(b, ps, c)
    decreases |ps|
  {
    if k > 0 {
      assert ps[..k][1..] == ps[1..][..k - 1];
      ScoringPrefix(b, ps[1..], k - 1, c);
    }
  }

  /** A tick's pipe update adds at most one point per bottom pipe not yet passed, and never takes points away. */
  lemma UpdatePipesScoreBound(s: GameState)
    ensures s.score <= UpdatePipes(s).score <= s.score + CountUnpassedBottom(s.pipes)
  {
    var sw := SweepPipes(s.bird, s.pipes, s.canvas);
    ScoringPrefix(s.bird, s.pipes, sw.visited, s.canvas);
    ScoringNeedsUnpassedBottom(s.bird, s.pipes, s.canvas);
  }

  /** Across a tick's pipe update, passed is never cleared and is set only on bottom pipes:
      the pipes the loop leaves behind are, index by index, advanced or untouched
      copies of the pipes before it (on a collision the list is not pruned). */
  lemma SweepKeepsPassedRules(b: Bird, ps: seq<Pipe>, c: Canvas)
    ensures var r := SweepPipes(b, ps, c).pipes;
      forall i :: 0 <= i < |ps| ==>
        && r[i].isTop == ps[i].isTop && r[i].isPreview == ps[i].isPreview
        && (ps[i].passed ==> r[i].passed)
        && (r[i].passed && !ps[i].passed ==> !ps[i].isTop)
  {
    var sw := SweepPipes(b, ps, c);
    forall i | 0 <= i < |ps|
      ensures sw.pipes[i].isTop == ps[i].isTop && sw.pipes[i].isPreview == ps[i].isPreview
      ensures ps[i].passed ==> sw.pipes[i].passed
      ensures sw.pipes[i].passed && !ps[i].passed ==> !ps[i].isTop
    {
      if i < sw.visited {
        AdvanceOnlySetsPassed(b, ps[i], c);
      }
    }
  }

  // ---------------------------------------------------------------------------
  // Spawning
  // ---------------------------------------------------------------------------

  /** However much time passes, one call spawns at most one pair; and two calls
      no more than PipeFrequency ms apart spawn at most one pair between them. */
  lemma SpawnRateLimited(s: GameState, now1: int, now2: int, r1: Random, r2: Random, r3: Random, r4: Random)
    requires now1 <= now2 <= now1 + PipeFrequency
    ensures |SpawnPipes(s, now1, r1, r2).pipes| <= |s.pipes| + 2
    ensures |SpawnPipes(SpawnPipes(s, now1, r1, r2), now2, r3, r4).pipes| <= |s.pipes| + 2
  {
  }

  /** Pruning never adds a pipe. */
  lemma {:induction false} CountOnScreenAtMost(ps: seq<Pipe>)
    ensures CountOnScreen(ps) <= |ps|
    decreases |ps|
  {
    if |ps| > 0 {
      CountOnScreenAtMost(ps[1..]);
    }
  }

  /** Two gameplay frames no more than PipeFrequency ms apart spawn at most one
      pair between them: after a running frame that spawns, the next frame does
      not spawn (its spawn timer is still the first frame's) and adds no pipe. */
  lemma GameFrameSpawnRateLimited(s: GameState, now1: int, now2: int, r1: Random, r2: Random, r3: Random, r4: Random)
    requires s.gameRunning && !s.gameOver && SpawnDue(s, now1)
    requires now2 <= now1 + PipeFrequency
    ensures var t := GameLoop(s, now1, r1, r2);
      t.lastPipeTime == now1 && |GameLoop(t, now2, r3, r4).pipes| <= |t.pipes|
    ensures GameLoop(GameLoop(s, now1, r1, r2), now2, r3, r4).lastPipeTime == now1
  {
    var t := GameLoop(s, now1, r1, r2);
    if t.gameRunning {
      var moved := t.(bird := Birds.Update(t.bird, false, t.canvas));
      assert SpawnPipes(moved, now2, r3, r4) == moved;
      CountOnScreenAtMost(AdvanceAll(moved.bird, moved.pipes, moved.canvas));
    }
  }

  /** After a timed preview jump, no further timed jump happens for PreviewJumpInterval ms. */
  lemma PreviewJumpRateLimited(s: GameState, now1: int, now2: int)
    requires now1 - s.lastPreviewJump > PreviewJumpInterval
    requires now2 <= now1 + PreviewJumpInterval
    ensures var t := MakePreviewBirdJump(s, now1);
      MakePreviewBirdJump(t, now2) == t
  {
  }

  // ---------------------------------------------------------------------------
  // When a gameplay frame ends the game
  // ---------------------------------------------------------------------------

  /** A frame of a running game ends it exactly when, after the bird moved and
      pipes spawned, some advanced pipe collides with the bird or the bird's
      bottom is below the ground line; being above the field never happens. */
  lemma GameLoopEndsIffCrashOrGround(s: GameState, now: int, rTop: Random, rBottom: Random)
    requires s.gameRunning && !s.gameOver
    ensures var b := Birds.Update(s.bird, false, s.canvas);
      GameLoop(s, now, rTop, rBottom).gameOver
      <==> Crashes(b, SpawnPipes(s, now, rTop, rBottom).pipes, s.canvas)
           || b.y + b.height > s.canvas.height - GroundHeight
  {
    var moved := s.(bird := Birds.Update(s.bird, false, s.canvas));
    assert SpawnPipes(moved, now, rTop, rBottom).pipes == SpawnPipes(s, now, rTop, rBottom).pipes;
    UpdatedBirdOnlyHitsGround(s.bird, false, s.canvas);
  }

  // ---------------------------------------------------------------------------
  // The reachable-state invariant
  // ---------------------------------------------------------------------------

  /** The three flags describe one of three modes, no bird is above the field,
      gameplay pipes never loop, and the four preview pipes stay in their lane. */
  ghost predicate Inv(s: GameState) {
    && (s.gameRunning ==> !s.gameOver && !s.previewMode)
    && (!s.previewMode ==> s.gameRunning || s.gameOver)
    && s.bird.y >= 0.0 && s.previewBird.y >= 0.0
    && (forall p :: p in s.pipes ==> !p.isPreview)
    && |s.previewPipes| == 4
    && (forall p :: p in s.previewPipes ==> InPreviewLane(p, s.canvas))
  }

  lemma InitInv(c: Canvas)
    ensures Inv(Init(c))
  {
  }

  lemma UpdatePipesKeepsGameplayPipes(s: GameState)
    requires forall p :: p in s.pipes ==> !p.isPreview
    ensures forall p :: p in UpdatePipes(s).pipes ==> !p.isPreview
  {
    var sw := SweepPipes(s.bird, s.pipes, s.canvas);
    SweepKeepsPassedRules(s.bird, s.pipes, s.canvas);
    forall p | p in sw.pipes ensures !p.isPreview {
      var k :| 0 <= k < |sw.pipes| && sw.pipes[k] == p;
      assert s.pipes[k] in s.pipes;
    }
    if !sw.hit {
      assert sw.pipes == AdvanceAll(s.bird, s.pipes, s.canvas);
    }
  }

  lemma GameLoopInv(s: GameState, now: int, rTop: Random, rBottom: Random)
    requires Inv(s) && !s.previewMode
    ensures Inv(GameLoop(s, now, rTop, rBottom))
  {
    if !s.gameOver {
      var moved := s.(bird := Birds.Update(s.bird, false, s.canvas));
      if moved.gameRunning {
        var spawned := SpawnPipes(moved, now, rTop, rBottom);
        assert forall p :: p in spawned.pipes ==> !p.isPreview by {
          if SpawnDue(moved, now) {
            assert spawned.pipes == s.pipes + [spawned.pipes[|s.pipes|], spawned.pipes[|s.pipes| + 1]];
          }
        }
        UpdatePipesKeepsGameplayPipes(spawned);
      }
    }
  }

  lemma PreviewLoopInv(s: GameState, now: int)
    requires Inv(s)
    ensures Inv(PreviewLoop(s, now))
  {
    if s.previewMode {
      var t := PreviewLoop(s, now);
      forall p | p in t.previewPipes ensures InPreviewLane(p, s.canvas) {
        var k :| 0 <= k < |t.previewPipes| && t.previewPipes[k] == p;
        assert s.previewPipes[k] in s.previewPipes;
        PreviewPipeStaysInLane(s.previewPipes[k], s.canvas);
      }
    }
  }

  /** Every event keeps the invariant. */
  lemma StepInv(s: GameState, e: Event)
    requires Inv(s)
    ensures Inv(Step(s, e))
  {
    match e
    case AnimationFrame(now, rTop, rBottom) =>
      if s.previewMode { PreviewLoopInv(s, now); } else { GameLoopInv(s, now, rTop, rBottom); }
    case _ =>
  }

  /** Every state reachable from the loaded page satisfies the invariant. */
  lemma {:induction false} RunInv(s: GameState, es: seq<Event>)
    requires Inv(s)
    ensures Inv(Run(s, es))
    decreases |es|
  {
    if |es| > 0 {
      StepInv(s, es[0]);
      RunInv(Step(s, es[0]), es[1..]);
    }
  }

  lemma ReachableInv(c: Canvas, es: seq<Event>)
    ensures Inv(Run(Init(c), es))
  {
    InitInv(c);
    RunInv(Init(c), es);
  }

  // ---------------------------------------------------------------------------
  // The mode diagram
  // ---------------------------------------------------------------------------

  datatype Mode = Preview | Running | Over

  function ModeOf(s: GameState): Mode {
    if s.previewMode then Preview else if s.gameRunning then Running else Over
  }

  /** Under the invariant the flags match the mode exactly. */
  lemma ModeFlags(s: GameState)
    requires Inv(s)
    ensures ModeOf(s) == Preview <==> s.previewMode && !s.gameRunning
    ensures ModeOf(s) == Running <==> !s.previewMode && s.gameRunning && !s.gameOver
    ensures ModeOf(s) == Over <==> !s.previewMode && !s.gameRunning && s.gameOver
  {
  }

  /** The transitions the game allows: preview to running, running to over,
      over back to preview or (by restart) to running, and a restart from anywhere. */
  predicate AllowedMove(m: Mode, m': Mode) {
    m == m' || m' == Running || (m == Running && m' == Over) || (m == Over && m' == Preview)
  }

  /** Every event follows the mode diagram; the last two clauses spell out the
      two moves AllowedMove excludes: preview straight to over, and running
      straight to preview. */
  lemma StepFollowsModeDiagram(s: GameState, e: Event)
    requires Inv(s)
    ensures AllowedMove(ModeOf(s), ModeOf(Step(s, e)))
    ensures ModeOf(s) == Preview ==> ModeOf(Step(s, e)) != Over
    ensures ModeOf(s) == Running ==> ModeOf(Step(s, e)) != Preview
  {
  }

  /** A jump in preview starts a fresh game; a jump while over is ignored. */
  lemma JumpByMode(s: GameState, now: int)
    requires Inv(s)
    ensures ModeOf(s) == Preview ==>
      var t := HandleJump(s, now);
      ModeOf(t) == Running && t.score == 0 && t.pipes == [] && t.bird == SpawnBird(s.canvas)
    ensures ModeOf(s) == Over ==> HandleJump(s, now) == s
    ensures ModeOf(s) == Running ==> HandleJump(s, now).bird.velocity == JumpForce
  {
  }

  /** The score only goes down when a new game starts, and then to zero. */
  lemma ScoreOnlyResetsOnStart(s: GameState, e: Event)
    requires Step(s, e).score < s.score
    ensures e.SpaceKey? || e.StartClick? || e.RestartClick?
    ensures Step(s, e).score == 0
  {
  }

  /** A pending return to preview that fires before the new game ends does
      nothing. The timer itself is not cancelled: see StaleTimerReturnsEarly. */
  lemma RestartDisarmsTimer(s: GameState, now: int)
    ensures GameOverTimer(StartGame(s, now)) == StartGame(s, now)
  {
  }

  /** The timer armed by an earlier game is never cancelled: if a restarted game
      has ended by the time it fires, it returns to preview at once, however
      little time has passed since that second game ended. */
  lemma StaleTimerReturnsEarly(s: GameState, now: int)
    requires s.gameOver
    ensures var t := GameOverTimer(EndGame(Run(s, [RestartClick(now)])));
      t.previewMode && t.gameOver && t.previewBird == SpawnBird(s.canvas)
  {
  }

  /** The delayed return to preview keeps the last game's score, the gameplay
      pipes and the game-over flag; only a new game clears them. */
  lemma TimerKeepsGameplayState(s: GameState)
    requires s.gameOver
    ensures GameOverTimer(s).score == s.score && GameOverTimer(s).pipes == s.pipes
    ensures GameOverTimer(s).gameOver && ModeOf(GameOverTimer(s)) == Preview
  {
  }

  // ---------------------------------------------------------------------------
  // The pipe loop written as the source writes it
  // ---------------------------------------------------------------------------

  /** The loop over the pipes, in place, with its early exit on a collision. */
  method SweepInPlace(b: Bird, ps: seq<Pipe>, c: Canvas) returns (pipes: seq<Pipe>, gained: nat, hit: bool)
    ensures var sw := SweepPipes(b, ps, c);
      pipes == sw.pipes && gained == sw.gained && hit == sw.hit
  {
    pipes := ps;
    gained := 0;
    var i := 0;
    while i < |pipes|
      invariant 0 <= i <= |pipes| == |ps|
      invariant forall j :: 0 <= j < i ==> pipes[j] == Advance(b, ps[j], c)
      invariant forall j :: i <= j < |pipes| ==> pipes[j] == ps[j]
      invariant forall j :: 0 <= j < i ==> !CheckCollision(b, Advance(b, ps[j], c))
      invariant gained == CountScoring(b, ps[..i], c)
    {
      var p := Pipes.Update(pipes[i], c);
      if p.x + p.width < b.x && !p.passed && !p.isTop {
        p := p.(passed := true);
        gained := gained + 1;
      }
      assert p == Advance(b, ps[i], c);
      CountScoringStep(b, ps, i, c);
      pipes := pipes[i := p];
      if CheckCollision(b, p) {
        SweepStopsAtFirstCollision(b, ps, c, i);
        SweepPipesDetermined(b, ps, c, pipes, i + 1);
        hit := true;
        return;
      }
      i := i + 1;
    }
    hit := false;
    SweepWithoutCollision(b, ps, c);
    SweepPipesDetermined(b, ps, c, pipes, i);
    assert ps[..i] == ps;
  }

  /** The pipes a sweep leaves are fixed by how many it visited. */
  lemma SweepPipesDetermined(b: Bird, ps: seq<Pipe>, c: Canvas, pipes: seq<Pipe>, k: nat)
    requires k == SweepPipes(b, ps, c).visited && |pipes| == |ps|
    requires forall j :: 0 <= j < k ==> pipes[j] == Advance(b, ps[j], c)
    requires forall j :: k <= j < |ps| ==> pipes[j] == ps[j]
    ensures pipes == SweepPipes(b, ps, c).pipes
  {
  }

  /** When no advanced pipe collides, the sweep visits every pipe without a hit. */
  lemma SweepWithoutCollision(b: Bird, ps: seq<Pipe>, c: Canvas)
    requires forall j :: 0 <= j < |ps| ==> !CheckCollision(b, Advance(b, ps[j], c))
    ensures !SweepPipes(b, ps, c).hit && SweepPipes(b, ps, c).visited == |ps|
  {
  }

  /** The per-tick pipe update as the source writes it: the in-place loop, then
      either the game ends (no pruning) or the off-screen pipes are dropped. */
  method UpdatePipesInPlace(s: GameState) returns (t: GameState)
    ensures t == UpdatePipes(s)
  {
    var pipes, gained, hit := SweepInPlace(s.bird, s.pipes, s.canvas);
    if hit {
      t := EndGame(s.(pipes := pipes, score := s.score + gained));
      return;
    }
    t := s.(pipes := Survivors(pipes), score := s.score + gained);
  }

  /** Counting one more pipe of the prefix adds that pipe's point. */
  lemma {:induction false} CountScoringStep(b: Bird, ps: seq<Pipe>, i: nat, c: Canvas)
    requires i < |ps|
    ensures CountScoring(b, ps[..i + 1], c) == CountScoring(b, ps[..i], c) + (if Scores(b, ps[i], c) then 1 else 0)
    decreases i
  {
    if i > 0 {
      assert ps[..i + 1][1..] == ps[1..][..i];
      assert ps[..i][1..] == ps[1..][..i - 1];
      CountScoringStep(b, ps[1..], i - 1, c);
    }
  }

  /** The loop stops at the first pipe that collides once advanced. */
  lemma SweepStopsAtFirstCollision(b: Bird, ps: seq<Pipe>, c: Canvas, i: nat)
    requires i < |ps| && CheckCollision(b, Advance(b, ps[i], c))
    requires forall j :: 0 <= j < i ==> !CheckCollision(b, Advance(b, ps[j], c))
    ensures SweepPipes(b, ps, c).hit && SweepPipes(b, ps, c).visited == i + 1
  {
  }
}
