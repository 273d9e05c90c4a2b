/** One level of the game: the frame of border blocks, the level's own
    blocks, the balls and the paddle, and the per-frame rules that end the
    level (animations/GameLevel.java). */
module GameLevels {
  import opened JavaText
  import opened Geometry
  import opened Fills
  import opened Blocks
  import opened Paddles

  /** An integer cell shared between the level, its listeners and the game
      that owns the score and the lives. */
  class Counter {
    var value: int

    constructor (value: int)
      ensures this.value == value
    {
      this.value := value;
    }

    method Increase(n: int)
      modifies this
      ensures value == old(value) + n
    {
      value := value + n;
    }

    method Decrease(n: int)
      modifies this
      ensures value == old(value) - n
    {
      value := value - n;
    }
  }

  /** What a level description supplies. */
  datatype LevelInfo = LevelInfo(
    levelName: string,
    numberOfBlocksToRemove: int,
    numberOfBalls: int,
    initialBallVelocities: seq<Velocity>,
    paddleWidth: int,
    paddleSpeed: int,
    blocks: seq<Block>)

  /** A ball as the level places it: centre, radius, colour and velocity. */
  datatype Ball = Ball(cx: real, cy: real, radius: int, color: Color, velocity: Velocity)

  /** The values the per-frame rules read and write. */
  datatype LevelCounters = LevelCounters(score: int, lives: int, remainingBlocks: int, remainingBalls: int, running: bool)

  const ClearBonus: int := 100

  /** The end-of-frame rules: clearing the blocks is worth 100 points and
      ends the level; losing every ball costs a life and ends the level;
      both can happen in the same frame. */
  function FrameRule(c: LevelCounters): (r: LevelCounters)
    ensures r.remainingBlocks == c.remainingBlocks && r.remainingBalls == c.remainingBalls
    ensures r.score == if c.remainingBlocks == 0 then c.score + ClearBonus else c.score
    ensures r.lives == if c.remainingBalls == 0 then c.lives - 1 else c.lives
    ensures r.running <==> c.running && c.remainingBlocks != 0 && c.remainingBalls != 0
  {
    var afterWin := if c.remainingBlocks == 0 then c.(score := c.score + ClearBonus, running := false) else c;
    if afterWin.remainingBalls == 0 then afterWin.(lives := afterWin.lives - 1, running := false) else afterWin
  }

  /** The counters after n frames. */
  function Frames(c: LevelCounters, n: nat): LevelCounters
    decreases n
  {
    if n == 0 then c else Frames(FrameRule(c), n - 1)
  }

  /** While blocks and balls remain, frames leave score, lives and the
      running flag alone. */
  lemma {:induction false} QuietFrames(c: LevelCounters, n: nat)
    requires c.remainingBlocks != 0 && c.remainingBalls != 0
    ensures Frames(c, n) == c
    decreases n
  {
    if n > 0 {
      assert FrameRule(c) == c;
      QuietFrames(c, n - 1);
    }
  }

  /** With no block left, every further frame pays the bonus again: the
      level relies on the runner stopping after the first frame that clears
      the running flag. */
  lemma {:induction false} ClearedFramesRepeatBonus(c: LevelCounters, n: nat)
    requires c.remainingBlocks == 0 && c.remainingBalls != 0
    ensures Frames(c, n).score == c.score + n * ClearBonus
    ensures n > 0 ==> !Frames(c, n).running
    decreases n
  {
    if n > 0 {
      ClearedFramesRepeatBonus(FrameRule(c), n - 1);
    }
  }

  /** A level that has stopped never starts running again on its own. */
  lemma {:induction false} StoppedStaysStopped(c: LevelCounters, n: nat)
    requires !c.running
    ensures !Frames(c, n).running
    decreases n
  {
    if n > 0 {
      StoppedStaysStopped(FrameRule(c), n - 1);
    }
  }

  /** The colours of the first six block rows, top to bottom. */
  const RowColors: seq<Color> := [Yellow, Red, Orange, Green, Cyan, Magenta]

  /** The colour of a block row: one of six for rows 0 to 5, white below. */
  function ChooseColor(index: int): (c: Color)
    ensures 0 <= index < |RowColors| ==> c == RowColors[index]
    ensures !(0 <= index < |RowColors|) ==> c == White
  {
    match index
    case 0 => Yellow
    case 1 => Red
    case 2 => Orange
    case 3 => Green
    case 4 => Cyan
    case 5 => Magenta
    case _ => White
  }

  /** The six coloured rows all differ, and none of them is white. */
  lemma RowColorsDistinct(i: int, j: int)
    requires 0 <= i < 6 && 0 <= j < 6 && i != j
    ensures ChooseColor(i) != ChooseColor(j)
    ensures ChooseColor(i) != White
  {
  }

  /** The fill texts of the border blocks: slot 1 is grey. */
  const FrameFillTexts: seq<string> := ["", "color(gray)"]

  /** The border fill has no image and paints slot 1 grey. */
  lemma FrameFillTables()
    ensures Loadable(FrameFillTexts)
    ensures ImageTable(FrameFillTexts) == map[]
    ensures ColorTable(FrameFillTexts) == map[1 := FromSpec("color(gray)")]
  {
    assert !IsImage(FrameFillTexts[1]) by {
      assert FrameFillTexts[1][..|ImagePrefix|][0] == 'c';
    }
  }

  /** Java's int division by two, which rounds toward zero. */
  function Half(w: int): (h: int)
    ensures w >= 0 ==> 0 <= w - 2 * h <= 1
    ensures w < 0 ==> -1 <= w - 2 * h <= 0
  {
    if w >= 0 then w / 2 else -((-w) / 2)
  }

  /** Halving commutes with negation, as truncation toward zero does. */
  lemma HalfNegates(w: int)
    ensures Half(-w) == -Half(w)
  {
  }

  /** The paddle's starting rectangle: 15 high at y = 565, its left edge
      half its width (rounded toward zero) left of x = 400. */
  function StartPaddle(width: int): (r: Rect)
    ensures r.y == 565.0 && r.width == width as real && r.height == 15.0
    ensures width >= 0 && width % 2 == 0 ==> r.x + r.width / 2.0 == 400.0
    ensures width >= 0 && width % 2 == 1 ==> r.x + r.width / 2.0 == 400.5
  {
    Rect((400 - Half(width)) as real, 565.0, width as real, 15.0)
  }

  /** The balls of a level: light grey, radius 5, at (400, 550), the i-th
      moving with the level's i-th velocity; none for a count below one. */
  function StartBalls(count: int, velocities: seq<Velocity>): (bs: seq<Ball>)
    requires count <= |velocities|
    ensures |bs| == if count > 0 then count else 0
    ensures forall i :: 0 <= i < |bs| ==> bs[i] == Ball(400.0, 550.0, 5, LightGray, velocities[i])
  {
    if count <= 0 then [] else seq(count, i requires 0 <= i < count => Ball(400.0, 550.0, 5, LightGray, velocities[i]))
  }

  /** `n` copies of `ls`, one after the other. */
  function Repeat(ls: seq<HitListener>, n: nat): (r: seq<HitListener>)
    ensures |r| == n * |ls|
  {
    if n == 0 then [] else Repeat(ls, n - 1) + ls
  }

  /** How many times b appears in bs. */
  function Occurrences(bs: seq<Block>, b: Block): nat
  {
    if |bs| == 0 then 0 else Occurrences(bs[..|bs| - 1], b) + (if bs[|bs| - 1] == b then 1 else 0)
  }

  /** The count is the multiplicity of b in the multiset of bs. */
  lemma {:induction false} OccurrencesIsMultiplicity(bs: seq<Block>, b: Block)
    ensures Occurrences(bs, b) == multiset(bs)[b]
  {
    if |bs| > 0 {
      OccurrencesIsMultiplicity(bs[..|bs| - 1], b);
      assert bs == bs[..|bs| - 1] + [bs[|bs| - 1]];
    }
  }

  class GameLevel {
    const levelInfo: LevelInfo
    const score: Counter
    const lives: Counter
    const remainingBlocks: Counter
    const remainingBalls: Counter
    var running: bool
    /** The blocks added to the game, as sprites and as collidables, in order. */
    var gameBlocks: seq<Block>
    var balls: seq<Ball>
    var paddle: Paddle?

    /** The level's own counters are distinct from each other and from the
        score and lives it was given. */
    predicate Valid()
      reads this
    {
      remainingBlocks != remainingBalls &&
      remainingBlocks != score && remainingBlocks != lives &&
      remainingBalls != score && remainingBalls != lives
    }

    function Counters(): LevelCounters
      reads this, score, lives, remainingBlocks, remainingBalls
    {
      LevelCounters(score.value, lives.value, remainingBlocks.value, remainingBalls.value, running)
    }

    constructor (levelInfo: LevelInfo, score: Counter, lives: Counter)
      ensures Valid() && fresh(remainingBlocks) && fresh(remainingBalls)
      ensures this.levelInfo == levelInfo && this.score == score && this.lives == lives
      ensures remainingBlocks.value == levelInfo.numberOfBlocksToRemove && remainingBalls.value == 0
      ensures running && gameBlocks == [] && balls == [] && paddle == null
    {
      this.levelInfo := levelInfo;
      remainingBlocks := new Counter(levelInfo.numberOfBlocksToRemove);
      remainingBalls := new Counter(0);
      this.score := score;
      this.lives := lives;
      running := true;
      gameBlocks := [];
      balls := [];
      paddle := null;
    }

    function ShouldStop(): (stop: bool)
      reads this
      ensures stop <==> !running
    {
      !running
    }

    /** The counter rules of one frame; the result tells whether "p" or "P"
        was held, which opens the pause screen. When the score and the lives
        are one counter, the bonus and the penalty both land on it. */
    method DoOneFrame(keys: set<string>) returns (paused: bool)
      requires Valid()
      modifies this`running, score, lives
      ensures paused <==> "p" in keys || "P" in keys
      ensures score != lives ==> Counters() == FrameRule(old(Counters()))
      ensures score == lives ==>
                score.value == old(score.value) + (if old(remainingBlocks.value) == 0 then ClearBonus else 0)
                                                - (if old(remainingBalls.value) == 0 then 1 else 0)
      ensures running == FrameRule(old(Counters())).running
    {
      paused := "p" in keys || "P" in keys;
      if remainingBlocks.value == 0 {
        score.Increase(ClearBonus);
        running := false;
      }
      if remainingBalls.value == 0 {
        lives.Decrease(1);
        running := false;
      }
    }

    /** The four border blocks, none with hit points, in the order they are
        added: top, left, death region (the only one with the ball remover)
        and right. */
    ghost predicate IsFrame(bs: seq<Block>)
      reads set b | b in bs, set b | b in bs :: b.fill
    {
      |bs| == 4 && bs[0].fill != null &&
      bs[0].fill.images == map[] && bs[0].fill.colors == map[1 := FromSpec("color(gray)")] &&
      bs[0].Holds(Rect(0.0, 20.0, 780.0, 25.0), bs[0].fill, Some(Gray), 0, []) &&
      bs[1].Holds(Rect(0.0, 20.0, 25.0, 650.0), bs[0].fill, Some(Gray), 0, []) &&
      bs[2].Holds(Rect(-50.0, 610.0, 850.0, 20.0), bs[0].fill, Some(Gray), 0, [BallRemover]) &&
      bs[3].Holds(Rect(775.0, 20.0, 25.0, 650.0), bs[0].fill, Some(Gray), 0, [])
    }

    method BuildsFrame()
      modifies this`gameBlocks
      ensures |gameBlocks| == |old(gameBlocks)| + 4 && gameBlocks[..|old(gameBlocks)|] == old(gameBlocks)
      ensures IsFrame(gameBlocks[|old(gameBlocks)|..])
      ensures forall k :: |old(gameBlocks)| <= k < |gameBlocks| ==> fresh(gameBlocks[k]) && fresh(gameBlocks[k].fill)
    {
      var s := new string[2];
      s[0] := "";
      s[1] := "color(gray)";
      assert s[..] == FrameFillTexts;
      FrameFillTables();
      var f := new Fill(s);
      var frameBlock1 := new Block.WithHitPoints(Rect(0.0, 20.0, 780.0, 25.0), f, Some(Gray), 0);
      var frameBlock2 := new Block.WithHitPoints(Rect(0.0, 20.0, 25.0, 650.0), f, Some(Gray), 0);
      var frameBlock4 := new Block.WithHitPoints(Rect(775.0, 20.0, 25.0, 650.0), f, Some(Gray), 0);
      var frameBlock3 := new Block.WithListener(Rect(-50.0, 610.0, 850.0, 20.0), f, Some(Gray), 0, BallRemover);
      var frame := [frameBlock1, frameBlock2, frameBlock3, frameBlock4];
      assert IsFrame(frame);
      gameBlocks := gameBlocks + frame;
      assert gameBlocks[|old(gameBlocks)|..] == frame;
    }

    /** Gives every level block the block remover and the score tracker, in
        that order (once per appearance in the list), and adds it to the game. */
    method BuildsBlocks()
      modifies this`gameBlocks, set b | b in levelInfo.blocks
      ensures gameBlocks == old(gameBlocks) + levelInfo.blocks
      ensures forall b :: b in levelInfo.blocks ==>
        b.hitListeners == old(b.hitListeners) + Repeat([BlockRemover, ScoreTracker], Occurrences(levelInfo.blocks, b)) &&
        b.hitPoints == old(b.hitPoints) && b.delivered == old(b.delivered)
    {
      var listHL := [BlockRemover, ScoreTracker];
      var bs := levelInfo.blocks;
      var i := 0;
      while i < |bs|
        invariant 0 <= i <= |bs|
        invariant gameBlocks == old(gameBlocks) + bs[..i]
        invariant forall b :: b in bs ==>
          b.hitListeners == old(b.hitListeners) + Repeat(listHL, Occurrences(bs[..i], b)) &&
          b.hitPoints == old(b.hitPoints) && b.delivered == old(b.delivered)
      {
        var block := bs[i];
        assert bs[..i + 1][..i] == bs[..i];
        ghost var before := block.hitListeners;
        block.AddHitListeners(listHL);
        gameBlocks := gameBlocks + [block];
        forall b | b in bs
          ensures b.hitListeners == old(b.hitListeners) + Repeat(listHL, Occurrences(bs[..i + 1], b))
        {
          if b == block {
            assert before + listHL == old(b.hitListeners) + (Repeat(listHL, Occurrences(bs[..i], b)) + listHL);
          }
        }
        i := i + 1;
      }
      assert bs[..i] == bs;
    }

    /** Places the balls and a new orange paddle, and counts the balls. */
    method BuildsBallsAndPuddle()
      requires Valid()
      requires levelInfo.numberOfBalls <= |levelInfo.initialBallVelocities|
      modifies this`balls, this`paddle, remainingBalls
      ensures balls == old(balls) + StartBalls(levelInfo.numberOfBalls, levelInfo.initialBallVelocities)
      ensures remainingBalls.value == old(remainingBalls.value) + levelInfo.numberOfBalls
      ensures paddle != null && fresh(paddle)
      ensures paddle.rect == StartPaddle(levelInfo.paddleWidth)
      ensures paddle.color == Orange && paddle.speedPaddle == levelInfo.paddleSpeed
    {
      var n := levelInfo.numberOfBalls;
      ghost var expected := StartBalls(n, levelInfo.initialBallVelocities);
      var i := 0;
      while i < n
        invariant n > 0 ==> 0 <= i <= n
        invariant n <= 0 ==> i == 0
        invariant balls == old(balls) + expected[..i]
        invariant remainingBalls.value == old(remainingBalls.value)
      {
        var v := levelInfo.initialBallVelocities[i];
        assert expected[..i + 1] == expected[..i] + [Ball(400.0, 550.0, 5, LightGray, Velocity(v.dx, v.dy))];
        balls := balls + [Ball(400.0, 550.0, 5, LightGray, Velocity(v.dx, v.dy))];
        i := i + 1;
      }
      assert expected[..i] == expected;
      var width := levelInfo.paddleWidth;
      paddle := new Paddle(Rect((400 - Half(width)) as real, 565.0, width as real, 15.0), Orange, levelInfo.paddleSpeed);
      remainingBalls.Increase(n);
    }

    /** The frame first, then the level's blocks. */
    method Initialize()
      modifies this`gameBlocks, set b | b in levelInfo.blocks
      ensures |gameBlocks| == |old(gameBlocks)| + 4 + |levelInfo.blocks|
      ensures gameBlocks[..|old(gameBlocks)|] == old(gameBlocks)
      ensures IsFrame(gameBlocks[|old(gameBlocks)|..|old(gameBlocks)| + 4])
      ensures gameBlocks[|old(gameBlocks)| + 4..] == levelInfo.blocks
      ensures forall b :: b in levelInfo.blocks ==>
        b.hitListeners == old(b.hitListeners) + Repeat([BlockRemover, ScoreTracker], Occurrences(levelInfo.blocks, b)) &&
        b.hitPoints == old(b.hitPoints) && b.delivered == old(b.delivered)
    {
      BuildsFrame();
      ghost var frame := gameBlocks[|old(gameBlocks)|..];
      BuildsBlocks();
      assert gameBlocks[|old(gameBlocks)|..|old(gameBlocks)| + 4] == frame;
    }
  }
}
