/** The per-frame horizontal movement of the player in makeguns' game loop:
    the A and D keys move the player left and right at a fixed speed, the
    sprite faces the last direction pressed, and the frame's length in
    seconds comes from a millisecond tick counter. Positions and seconds are
    `real` (the source uses `float`; rounding is not modelled). */
module Movement {

  /** Horizontal speed in logical pixels per second. */
  const Speed: real := 75.0
  /** Side of the square player sprite, in logical pixels. */
  const SpriteSize: real := 32.0
  /** Logical height of the play area; the floor is drawn at this y. */
  const LogH: int := 320
  const Floor: real := LogH as real
  /** The tick counter is an unsigned 64-bit number of milliseconds. */
  const TicksModulus: int := 0x1_0000_0000_0000_0000

  type Ticks = t: int | 0 <= t < TicksModulus

  /** What the loop carries from one frame to the next. */
  datatype FrameState = FrameState(playerX: real, flipHorizontal: bool, prevTime: Ticks)

  /** What one frame reads: the two keys, the tick counter, and whether a
      quit event arrived during the frame's event polling. */
  datatype FrameInput = FrameInput(keyA: bool, keyD: bool, nowTime: Ticks, quit: bool)

  datatype Rect = Rect(x: real, y: real, w: real, h: real)
  datatype Flip = FlipNone | FlipHorizontal

  /** The sprite copy a frame asks the renderer for. */
  datatype Draw = Draw(src: Rect, dst: Rect, flip: Flip)

  const SpriteSource: Rect := Rect(0.0, 0.0, 32.0, 32.0)

  /** Milliseconds between two readings of the counter, subtracted as
      unsigned 64-bit numbers. */
  function ElapsedTicks(prev: Ticks, now: Ticks): (d: nat)
    ensures d < TicksModulus
    ensures prev <= now ==> d == now - prev
    ensures now < prev ==> d == now - prev + TicksModulus
  {
    (now - prev) % TicksModulus
  }

  /** The frame's length in seconds. */
  function DeltaSeconds(prev: Ticks, now: Ticks): (dt: real)
    ensures 0.0 <= dt
    ensures prev <= now ==> dt * 1000.0 == (now - prev) as real
  {
    ElapsedTicks(prev, now) as real / 1000.0
  }

  /** The signed horizontal speed the keys ask for: A pulls left, D pushes
      right, and both together cancel. */
  function MoveAmount(keyA: bool, keyD: bool): (m: real)
    ensures m == -Speed <==> keyA && !keyD
    ensures m == Speed <==> keyD && !keyA
    ensures m == 0.0 <==> keyA == keyD
  {
    (if keyA then -Speed else 0.0) + (if keyD then Speed else 0.0)
  }

  /** The facing flag after a frame: D is looked at after A, so D wins; with
      neither key the previous facing persists. */
  function Facing(flipHorizontal: bool, keyA: bool, keyD: bool): (f: bool)
    ensures keyD ==> !f
    ensures keyA && !keyD ==> f
    ensures !keyA && !keyD ==> f == flipHorizontal
  {
    if keyD then false else if keyA then true else flipHorizontal
  }

  /** The state after one frame. */
  function Advance(s: FrameState, input: FrameInput): FrameState
  {
    FrameState(s.playerX + MoveAmount(input.keyA, input.keyD) * DeltaSeconds(s.prevTime, input.nowTime),
               Facing(s.flipHorizontal, input.keyA, input.keyD),
               input.nowTime)
  }

  /** The state after the loop has run over `inputs`: it stops after the
      first frame in which a quit event arrived, or when the inputs run out. */
  function Simulate(s: FrameState, inputs: seq<FrameInput>): FrameState
    decreases |inputs|
  {
    if inputs == [] then s
    else if inputs[0].quit then Advance(s, inputs[0])
    else Simulate(Advance(s, inputs[0]), inputs[1..])
  }

  /** How many frames the loop runs over `inputs`. */
  function FrameCount(inputs: seq<FrameInput>): nat
    decreases |inputs|
  {
    if inputs == [] then 0
    else if inputs[0].quit then 1
    else 1 + FrameCount(inputs[1..])
  }

  /** The seconds the frames that run add up to. */
  function Elapsed(prev: Ticks, inputs: seq<FrameInput>): real
    decreases |inputs|
  {
    if inputs == [] then 0.0
    else DeltaSeconds(prev, inputs[0].nowTime)
         + (if inputs[0].quit then 0.0 else Elapsed(inputs[0].nowTime, inputs[1..]))
  }

  /** The tick counter never goes backwards over the frames that run. */
  predicate Monotone(prev: Ticks, inputs: seq<FrameInput>)
    decreases |inputs|
  {
    inputs == [] ||
    (prev <= inputs[0].nowTime && (inputs[0].quit || Monotone(inputs[0].nowTime, inputs[1..])))
  }

  /** The sprite copy a frame ends with: the player's 32x32 sprite at its x
      on the floor, mirrored when it faces left. */
  function DrawOf(st: FrameState): Draw
  {
    Draw(SpriteSource, Rect(st.playerX, Floor - SpriteSize, SpriteSize, SpriteSize),
         if st.flipHorizontal then FlipHorizontal else FlipNone)
  }

  /** The sprite copies the loop asks for over `inputs`, one per frame run. */
  function Draws(s: FrameState, inputs: seq<FrameInput>): seq<Draw>
    decreases |inputs|
  {
    if inputs == [] then []
    else
      var next := Advance(s, inputs[0]);
      [DrawOf(next)] + (if inputs[0].quit then [] else Draws(next, inputs[1..]))
  }

  /** One iteration of the game loop's body, without its SDL calls: the
      frame length, the movement block, the sprite rectangles and the
      roll-forward of the previous tick reading. */
  method Frame(s: FrameState, input: FrameInput) returns (next: FrameState, draw: Draw)
    ensures next == Advance(s, input)
    ensures next.prevTime == input.nowTime
    ensures draw.src == SpriteSource
    ensures draw.dst == Rect(next.playerX, Floor - SpriteSize, SpriteSize, SpriteSize)
    ensures draw.flip == FlipHorizontal <==> next.flipHorizontal
    ensures draw == DrawOf(next)
  {
    var deltaTime := DeltaSeconds(s.prevTime, input.nowTime);
    var playerX, flipHorizontal := s.playerX, s.flipHorizontal;

    var moveAmount := 0.0;
    if input.keyA {
      moveAmount := moveAmount - Speed;
      flipHorizontal := true;
    }
    if input.keyD {
      moveAmount := moveAmount + Speed;
      flipHorizontal := false;
    }
    playerX := playerX + moveAmount * deltaTime;

    var dst := Rect(playerX, Floor - SpriteSize, SpriteSize, SpriteSize);
    draw := Draw(SpriteSource, dst, if flipHorizontal then FlipHorizontal else FlipNone);
    next := FrameState(playerX, flipHorizontal, input.nowTime);
  }

  /** The game loop: it runs frames while no quit event has arrived. A quit
      event stops the loop only after the frame it arrived in has finished. */
  method Run(s: FrameState, inputs: seq<FrameInput>) returns (last: FrameState, draws: seq<Draw>)
    ensures last == Simulate(s, inputs)
    ensures draws == Draws(s, inputs)
    ensures |draws| == FrameCount(inputs) <= |inputs|
    ensures forall k :: 0 <= k < |draws| ==> draws[k].dst.y == Floor - SpriteSize
  {
    last, draws := s, [];
    var running := true;
    var i := 0;
    while running && i < |inputs|
      invariant 0 <= i <= |inputs|
      invariant running ==> Simulate(s, inputs) == Simulate(last, inputs[i..])
      invariant running ==> Draws(s, inputs) == draws + Draws(last, inputs[i..])
      invariant !running ==> Simulate(s, inputs) == last && Draws(s, inputs) == draws
    {
      var rest := inputs[i..];
      assert rest[0] == inputs[i] && rest[1..] == inputs[i + 1..];
      var draw;
      last, draw := Frame(last, inputs[i]);
      draws := draws + [draw];
      running := !inputs[i].quit;
      i := i + 1;
    }
    assert running ==> inputs[i..] == [];
    DrawsPerFrame(s, inputs);
  }

  /** The loop draws one sprite per frame it runs, always standing on the
      floor. */
  lemma {:induction false} DrawsPerFrame(s: FrameState, inputs: seq<FrameInput>)
    ensures |Draws(s, inputs)| == FrameCount(inputs) <= |inputs|
    ensures forall k :: 0 <= k < |Draws(s, inputs)| ==> Draws(s, inputs)[k].dst.y == Floor - SpriteSize
    decreases |inputs|
  {
    if inputs != [] && !inputs[0].quit {
      DrawsPerFrame(Advance(s, inputs[0]), inputs[1..]);
    }
  }

  // ---------------------------------------------------------------------
  // Properties of one frame

  /** The player moves by exactly the key speed times the frame length, so
      never more than `Speed` pixels per second. */
  lemma AdvanceMovesBy(s: FrameState, input: FrameInput)
    ensures Advance(s, input).playerX - s.playerX
            == MoveAmount(input.keyA, input.keyD) * DeltaSeconds(s.prevTime, input.nowTime)
    ensures -Speed * DeltaSeconds(s.prevTime, input.nowTime) <= Advance(s, input).playerX - s.playerX
            <= Speed * DeltaSeconds(s.prevTime, input.nowTime)
  {
  }

  /** With no key held, or with both held, the player stays put; with no key
      held the facing is kept too. */
  lemma BalancedKeysKeepPosition(s: FrameState, input: FrameInput)
    requires input.keyA == input.keyD
    ensures Advance(s, input).playerX == s.playerX
    ensures !input.keyA ==> Advance(s, input).flipHorizontal == s.flipHorizontal
  {
  }

  // ---------------------------------------------------------------------
  // Properties of many frames

  /** The frame lengths telescope: over a counter that never goes backwards
      they add up to the difference between the last and first readings. */
  lemma {:induction false} ElapsedTelescopes(s: FrameState, inputs: seq<FrameInput>)
    requires Monotone(s.prevTime, inputs)
    ensures Elapsed(s.prevTime, inputs) * 1000.0 == (Simulate(s, inputs).prevTime - s.prevTime) as real
    decreases |inputs|
  {
    if inputs != [] && !inputs[0].quit {
      ElapsedTelescopes(Advance(s, inputs[0]), inputs[1..]);
    }
  }

  /** Over any run the player travels no farther than `Speed` times the
      seconds that passed. */
  lemma {:induction false} DisplacementBounded(s: FrameState, inputs: seq<FrameInput>)
    ensures -Speed * Elapsed(s.prevTime, inputs) <= Simulate(s, inputs).playerX - s.playerX
            <= Speed * Elapsed(s.prevTime, inputs)
    decreases |inputs|
  {
    if inputs != [] {
      AdvanceMovesBy(s, inputs[0]);
      if !inputs[0].quit {
        DisplacementBounded(Advance(s, inputs[0]), inputs[1..]);
      }
    }
  }

  /** While neither key is held the player neither moves nor turns. */
  lemma {:induction false} NoKeysNoChange(s: FrameState, inputs: seq<FrameInput>)
    requires forall k :: 0 <= k < |inputs| ==> !inputs[k].keyA && !inputs[k].keyD
    ensures Simulate(s, inputs).playerX == s.playerX
    ensures Simulate(s, inputs).flipHorizontal == s.flipHorizontal
    decreases |inputs|
  {
    if inputs != [] {
      BalancedKeysKeepPosition(s, inputs[0]);
      if !inputs[0].quit {
        NoKeysNoChange(Advance(s, inputs[0]), inputs[1..]);
      }
    }
  }

  /** After a run the previous-tick reading is that of the last frame run. */
  lemma {:induction false} RunEndsOnLastFrame(s: FrameState, inputs: seq<FrameInput>)
    requires inputs != []
    ensures 0 < FrameCount(inputs) <= |inputs|
    ensures Simulate(s, inputs).prevTime == inputs[FrameCount(inputs) - 1].nowTime
    decreases |inputs|
  {
    if !inputs[0].quit && |inputs| > 1 {
      RunEndsOnLastFrame(Advance(s, inputs[0]), inputs[1..]);
    }
  }
}
