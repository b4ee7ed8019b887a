# makeguns core in Dafny

This project models the logic of makeguns, a small SDL side-scroller. Three
parts of it hold logic.

- **Periodic timer** (`Timers`, `timer.dfy`). `Timer` is a class with a
  fixed `length`, an accumulated `time` and a `timeout` flag. `Step(dt)`
  clears the flag and adds `dt`. When the time reaches the length, it takes
  one period off (once, not in a loop) and raises the flag. `Reset()` clears
  the time and the flag. The value `TimerState` and the functions `Stepped`,
  `Cleared` and `SteppedAll` specify the methods, and the lemmas are stated
  over them. `length` is a `const` because the source has no setter for it.
  The length constructor leaves `timeout` unassigned, as the source does, so
  nothing is known about the flag until the first `Step` or `Reset`.
- **Per-frame movement** (`Movement`, `movement.dfy`). This is the body of
  the game loop without its SDL calls. `Frame` computes the frame length in
  seconds from a 64-bit millisecond tick counter, using unsigned
  subtraction. It turns the A/D keys into a speed of -75, 0 or +75 pixels
  per second and updates the facing flag (D is checked after A, so D wins).
  It moves the player, builds the sprite's source and destination
  rectangles, and rolls the previous tick reading forward. `Run` is the
  loop. It stops after the frame in which a quit event arrives, or when the
  inputs run out. `Advance`, `Simulate`, `Draws`, `FrameCount` and `Elapsed` are the
  value-level specification, and the lemmas are stated over them.
- **Game objects** (`GameObjects`, `gameobject.dfy`). These are the player
  state enum, the payload and the defaults of the `PlayerData()` and
  `GameObject()` constructors. The source stores the payload in an untagged
  union next to a separate `ObjectType` field. Here the payload is a sum
  type and the type is computed from it, so the two cannot disagree.

The default constructor (makeguns/timer.h:10) gives a timer length 0. From a
non-negative time, such a timer fires on every non-negative step, and its time
is the running total of the steps (`ZeroLengthAccumulates`).

## Model

| member | source | states |
|---|---|---|
| `Timers.Timer.constructor` | makeguns/timer.h:10 | the default timer has length 0, time 0 and the flag down |
| `Timers.Timer.WithLength` | makeguns/timer.cpp:3 | the length constructor sets the length and a zero time, and promises nothing about the flag |
| `Timers.Timer.Step` | makeguns/timer.cpp:5-14 | the new state is one `Stepped` of the old one; the flag is up iff old time + dt reaches the length; the length cannot change |
| `Timers.Timer.HasTimedOut` | makeguns/timer.cpp:16 | returns the flag and changes nothing |
| `Timers.Timer.GetTime` | makeguns/timer.h:13 | returns the time and changes nothing |
| `Timers.Timer.GetLength` | makeguns/timer.h:14 | returns the length and changes nothing |
| `Timers.Timer.Reset` | makeguns/timer.cpp:18-21 | time becomes 0 and the flag goes down; the length cannot change |
| `Timers.StepFiresIff` | makeguns/timer.cpp:6-13 | a step fires iff time + dt >= length; without firing the time grows by dt; on firing it becomes time + dt - length; the length is kept |
| `Timers.StepWrapsOnce` | makeguns/timer.cpp:9-13 | only one period is taken off, so a step of at least two periods leaves the time at or above the length |
| `Timers.StepKeepsRange` | makeguns/timer.cpp:7-13 | if 0 <= time < length and 0 <= dt <= length, the time stays in that range after a step |
| `Timers.ZeroLengthStepFires` | makeguns/timer.cpp:5-14 | a zero-length timer fires on every non-negative step, and its time grows by dt |
| `Timers.FullPeriodFromZero` | makeguns/timer.cpp:5-14 | from time 0, a step of one full length fires and leaves the time at 0 |
| `Timers.HalfPeriodTwice` | makeguns/timer.cpp:5-14 | from time 0, two steps of half a length fire only on the second step, which leaves the time at 0 |
| `Timers.ResetIdempotent` | makeguns/timer.cpp:18-21 | reset keeps the length, clears the time and the flag, and a second reset changes nothing |
| `Timers.SteppedAllKeepsLength` | makeguns/timer.h:5-16 | no sequence of steps changes the length |
| `Timers.SteppedAllKeepsRange` | makeguns/timer.cpp:7-13 | the range invariant holds across any number of steps, each no longer than one length |
| `Timers.ZeroLengthAccumulates` | makeguns/timer.h:10 | for the default length 0 and a non-negative starting time, every non-negative step fires and the time is the starting time plus the sum of the steps |
| `Movement.ElapsedTicks` | makeguns/makeguns.cpp:82-83 | the tick difference is an unsigned 64-bit subtraction: the plain difference when the counter did not go back, otherwise that difference plus 2^64 |
| `Movement.DeltaSeconds` | makeguns/makeguns.cpp:83 | the frame length is never negative, and is (now - prev) / 1000 seconds when the counter did not go back |
| `Movement.MoveAmount` | makeguns/makeguns.cpp:102-110 | the speed is -75 iff only A is held, +75 iff only D is held, and 0 iff both or neither are held |
| `Movement.Facing` | makeguns/makeguns.cpp:103-110 | D held means facing right (not flipped); A held alone means flipped; with neither key the facing persists |
| `Movement.Frame` | makeguns/makeguns.cpp:82-128 | one loop body: the next state is `Advance`; prevTime becomes nowTime; the draw is `DrawOf` the new state: the sprite at (playerX, floor - 32) with size 32x32 from source (0, 0, 32, 32), flipped iff facing left |
| `Movement.Run` | makeguns/makeguns.cpp:79-129 | the loop's final state is `Simulate` of the inputs and its draws are `Draws` of them: for each frame run, the sprite at that frame's playerX and facing; one draw per frame, always at y = floor - 32, up to and including the first quit frame |
| `Movement.DrawsPerFrame` | makeguns/makeguns.cpp:117-124 | the loop issues exactly one sprite draw per frame it runs, and every one stands at y = floor - 32 whatever the input |
| `Movement.AdvanceMovesBy` | makeguns/makeguns.cpp:111 | playerX changes by exactly moveAmount x deltaTime, so by at most 75 x deltaTime either way |
| `Movement.BalancedKeysKeepPosition` | makeguns/makeguns.cpp:102-111 | with both keys or neither held the player stays put; with neither key the facing is kept |
| `Movement.ElapsedTelescopes` | makeguns/makeguns.cpp:82-128 | when the tick counter never goes back, the frame lengths of a run add up to (last nowTime - first prevTime) / 1000 |
| `Movement.DisplacementBounded` | makeguns/makeguns.cpp:101-111 | over any run, the player moves at most 75 x the total seconds elapsed, in either direction |
| `Movement.NoKeysNoChange` | makeguns/makeguns.cpp:101-111 | over a run with no key held, the player neither moves nor turns |
| `Movement.RunEndsOnLastFrame` | makeguns/makeguns.cpp:128 | after a run, prevTime is the tick reading of the last frame run |
| `GameObjects.TypeOf` | makeguns/gameobject.h:17-23 | the type tag is player, level or enemy exactly when the payload is player, level or enemy data |
| `GameObjects.NewPlayerData` | makeguns/gameobject.h:9-12 | new player data starts idle |
| `GameObjects.NewGameObject` | makeguns/gameobject.h:25-40 | a new object is a level object with level payload, direction 1, zero position, velocity and acceleration, animation index -1 (no active animation), no animations and no texture |

## Left out

- Window and renderer setup and teardown (`initialize`, `cleanup`, makeguns/makeguns.cpp:136-176): calls into SDL only.
- Event polling (makeguns/makeguns.cpp:84-99): the model keeps one thing from it, whether a quit event arrived in the frame, as an input. Window-resize events are left out because they change only the window size, which the modelled code never reads.
- Clearing and presenting the frame (makeguns/makeguns.cpp:113-115, 122-127): these are calls into SDL. The model keeps what the sprite-drawing call is given as a `Draw` value.
- Texture loading and unloading and the animation table in `Resources` (makeguns/makeguns.cpp:20-47): these are I/O against the renderer.
- `Animation` (makeguns/animation.h): only declarations are shown, so it is a record of a timer state and a frame count, with no behaviour.
- `float` rounding: times, lengths and positions are `real`, and the conversion of the 64-bit tick difference to seconds is exact.
- The keyboard state, the clock and the quit event come from SDL. They are parameters of each frame (`FrameInput`).
- `Timers.Timer.GetTime` and `Timers.Timer.GetLength`: the source declares these but does not show their definitions, so they are modelled as plain reads of the fields.
