/**
  The frame-indexed controller input history and the edge/delta view derived
  from it (src/input.rs, without the USB adapter).

  Frame `f >= 1` is stored at index `f - 1` of `gameInputs`; frames 0 and -1
  read the all-neutral `emptyInputs`, so nothing is ever "pressed" or "moved"
  before the match starts.
*/
module Input {

  // ---------------------------------------------------------------------
  // Raw samples and their derived view
  // ---------------------------------------------------------------------

  /** One raw reading of one controller slot. The analog values are the
      filtered readings of the adapter, taken here as exact reals. */
  datatype ControllerInput = ControllerInput(
    pluggedIn: bool,
    a: bool, b: bool, x: bool, y: bool,
    left: bool, right: bool, down: bool, up: bool,
    start: bool, z: bool, r: bool, l: bool,
    stickX: real, stickY: real, cStickX: real, cStickY: real,
    rTrigger: real, lTrigger: real)

  /** A digital button: held now, and pressed (off -> on) this frame. */
  datatype Button = Button(value: bool, press: bool)

  /** A stick axis or a trigger: current value and change since the previous frame. */
  datatype Stick = Stick(value: real, diff: real)
  datatype Trigger = Trigger(value: real, diff: real)

  /** What the game sees of one controller on one frame. */
  datatype PlayerInput = PlayerInput(
    pluggedIn: bool,
    a: Button, b: Button, x: Button, y: Button,
    left: Button, right: Button, down: Button, up: Button,
    start: Button, z: Button, r: Button, l: Button,
    stickX: Stick, stickY: Stick, cStickX: Stick, cStickY: Stick,
    rTrigger: Trigger, lTrigger: Trigger)

  /** Names for the twelve buttons and the six analog axes, so that one
      statement can speak of all of them. */
  datatype ButtonName = A | B | X | Y | Left | Right | Down | Up | Start | Z | R | L
  datatype AxisName = StickX | StickY | CStickX | CStickY | RTrigger | LTrigger

  function Held(c: ControllerInput, name: ButtonName): bool
  {
    match name
    case A => c.a
    case B => c.b
    case X => c.x
    case Y => c.y
    case Left => c.left
    case Right => c.right
    case Down => c.down
    case Up => c.up
    case Start => c.start
    case Z => c.z
    case R => c.r
    case L => c.l
  }

  function Raw(c: ControllerInput, axis: AxisName): real
  {
    match axis
    case StickX => c.stickX
    case StickY => c.stickY
    case CStickX => c.cStickX
    case CStickY => c.cStickY
    case RTrigger => c.rTrigger
    case LTrigger => c.lTrigger
  }

  function ButtonOf(p: PlayerInput, name: ButtonName): Button
  {
    match name
    case A => p.a
    case B => p.b
    case X => p.x
    case Y => p.y
    case Left => p.left
    case Right => p.right
    case Down => p.down
    case Up => p.up
    case Start => p.start
    case Z => p.z
    case R => p.r
    case L => p.l
  }

  function ValueOf(p: PlayerInput, axis: AxisName): real
  {
    match axis
    case StickX => p.stickX.value
    case StickY => p.stickY.value
    case CStickX => p.cStickX.value
    case CStickY => p.cStickY.value
    case RTrigger => p.rTrigger.value
    case LTrigger => p.lTrigger.value
  }

  function DiffOf(p: PlayerInput, axis: AxisName): real
  {
    match axis
    case StickX => p.stickX.diff
    case StickY => p.stickY.diff
    case CStickX => p.cStickX.diff
    case CStickY => p.cStickY.diff
    case RTrigger => p.rTrigger.diff
    case LTrigger => p.lTrigger.diff
  }

  /** `ControllerInput::empty`: an unplugged controller at rest. */
  function EmptyController(): (c: ControllerInput)
    ensures !c.pluggedIn
    ensures forall name :: !Held(c, name)
    ensures forall axis :: Raw(c, axis) == 0.0
  {
    ControllerInput(false,
      false, false, false, false, false, false, false, false, false, false, false, false,
      0.0, 0.0, 0.0, 0.0, 0.0, 0.0)
  }

  /** `PlayerInput::empty`: nothing held, nothing pressed, nothing moved. */
  function EmptyPlayerInput(): (p: PlayerInput)
    ensures !p.pluggedIn
    ensures forall name :: ButtonOf(p, name) == Button(false, false)
    ensures forall axis :: ValueOf(p, axis) == 0.0 && DiffOf(p, axis) == 0.0
  {
    var off := Button(false, false);
    var still := Stick(0.0, 0.0);
    PlayerInput(false,
      off, off, off, off, off, off, off, off, off, off, off, off,
      still, still, still, still, Trigger(0.0, 0.0), Trigger(0.0, 0.0))
  }

  function Edge(now: bool, before: bool): Button
  {
    Button(now, now && !before)
  }

  /** The view of one controller on a frame, given its sample on that frame
      (`cur`) and on the frame before (`prev`); an unplugged controller reads
      as `PlayerInput::empty()` whatever its stale raw fields hold. */
  function PlayerInputOf(cur: ControllerInput, prev: ControllerInput): (p: PlayerInput)
    ensures p.pluggedIn == cur.pluggedIn
    ensures !cur.pluggedIn ==> p == EmptyPlayerInput()
  {
    if cur.pluggedIn then
      PlayerInput(true,
        Edge(cur.a, prev.a), Edge(cur.b, prev.b), Edge(cur.x, prev.x), Edge(cur.y, prev.y),
        Edge(cur.left, prev.left), Edge(cur.right, prev.right),
        Edge(cur.down, prev.down), Edge(cur.up, prev.up),
        Edge(cur.start, prev.start), Edge(cur.z, prev.z), Edge(cur.r, prev.r), Edge(cur.l, prev.l),
        Stick(cur.stickX, cur.stickX - prev.stickX),
        Stick(cur.stickY, cur.stickY - prev.stickY),
        Stick(cur.cStickX, cur.cStickX - prev.cStickX),
        Stick(cur.cStickY, cur.cStickY - prev.cStickY),
        Trigger(cur.rTrigger, cur.rTrigger - prev.rTrigger),
        Trigger(cur.lTrigger, cur.lTrigger - prev.lTrigger))
    else
      EmptyPlayerInput()
  }

  /** Every button of the view: `value` is the raw bit of a plugged-in
      controller, and `press` is `value` with the button released on the
      previous sample. */
  lemma ButtonIsEdge(cur: ControllerInput, prev: ControllerInput, name: ButtonName)
    ensures ButtonOf(PlayerInputOf(cur, prev), name).value == (cur.pluggedIn && Held(cur, name))
    ensures ButtonOf(PlayerInputOf(cur, prev), name).press
            == (ButtonOf(PlayerInputOf(cur, prev), name).value && !Held(prev, name))
  {
    match name
    case A => case B => case X => case Y => case Left => case Right =>
    case Down => case Up => case Start => case Z => case R => case L =>
  }

  /** Every stick and trigger of the view: the raw value of a plugged-in
      controller, and its exact change since the previous sample. */
  lemma AxisIsDelta(cur: ControllerInput, prev: ControllerInput, axis: AxisName)
    ensures ValueOf(PlayerInputOf(cur, prev), axis) == (if cur.pluggedIn then Raw(cur, axis) else 0.0)
    ensures DiffOf(PlayerInputOf(cur, prev), axis) == (if cur.pluggedIn then Raw(cur, axis) - Raw(prev, axis) else 0.0)
  {
    match axis
    case StickX => case StickY => case CStickX => case CStickY => case RTrigger => case LTrigger =>
  }

  /** The view of every controller slot: slot `i` of `curs` against slot `i` of `prevs`. */
  function PlayerInputsOf(curs: seq<ControllerInput>, prevs: seq<ControllerInput>): seq<PlayerInput>
    requires |curs| <= |prevs|
  {
    seq(|curs|, i requires 0 <= i < |curs| => PlayerInputOf(curs[i], prevs[i]))
  }

  /** Whether any controller in the sample holds start (plugged in or not). */
  predicate AnyStart(samples: seq<ControllerInput>)
  {
    exists i :: 0 <= i < |samples| && samples[i].start
  }

  // ---------------------------------------------------------------------
  // Recording a frame
  // ---------------------------------------------------------------------

  /** How many recorded frames survive the pops of `game_update(frame)`:
      the loop pops `len + 1 - frame` times, and popping an empty history does nothing. */
  function KeptBeforeRecording(len: nat, frame: nat): nat
  {
    if frame == 0 then 0 else if frame - 1 < len then frame - 1 else len
  }

  /** The history after `game_update(frame)` recorded `sample`. */
  function Recorded(history: seq<seq<ControllerInput>>, sample: seq<ControllerInput>, frame: nat)
    : (r: seq<seq<ControllerInput>>)
    ensures 1 <= frame <= |history| + 1 ==> |r| == frame
    ensures frame == 0 ==> r == [sample]
    ensures frame > |history| + 1 ==> r == history + [sample]
    ensures |r| >= 1 && r[|r| - 1] == sample
    ensures forall i :: 0 <= i < |r| - 1 ==> i < |history| && r[i] == history[i]
    ensures frame >= 1 ==> forall i :: 0 <= i < frame - 1 && i < |history| ==> r[i] == history[i]
  {
    history[..KeptBeforeRecording(|history|, frame)] + [sample]
  }

  // ---------------------------------------------------------------------
  // The buffer itself
  // ---------------------------------------------------------------------

  class Input {
    /** One neutral sample per controller slot (four per adapter); never changes. */
    const emptyInputs: seq<ControllerInput>
    /** The sample polled for this frame. */
    var currentInputs: seq<ControllerInput>
    /** Recorded samples: frame `f >= 1` at index `f - 1`. */
    var gameInputs: seq<seq<ControllerInput>>
    /** Whether start was held at the last `StartPressed` call. */
    var prevStart: bool

    ghost predicate Valid()
    {
      forall i :: 0 <= i < |emptyInputs| ==> emptyInputs[i] == EmptyController()
    }

    /** Every sample has one entry per slot; true once the adapters have been polled
        since the history was last reset. */
    ghost predicate Uniform()
      reads this`currentInputs, this`gameInputs
    {
      && |currentInputs| == |emptyInputs|
      && forall k :: 0 <= k < |gameInputs| ==> |gameInputs[k]| == |emptyInputs|
    }

    /** The state `Input::new` builds once `adapterCount` adapters have been opened. */
    constructor (adapterCount: nat)
      ensures Valid()
      ensures |emptyInputs| == 4 * adapterCount
      ensures currentInputs == [] && gameInputs == [] && !prevStart
    {
      emptyInputs := seq(4 * adapterCount, _ => EmptyController());
      currentInputs := [];
      gameInputs := [];
      prevStart := false;
    }

    /** `update`: store the sample just polled from the adapters. */
    method Update(sample: seq<ControllerInput>)
      modifies this`currentInputs
      ensures currentInputs == sample
    {
      currentInputs := sample;
    }

    /** `reset_history`. */
    method ResetHistory()
      modifies this`gameInputs
      ensures gameInputs == []
    {
      gameInputs := [];
    }

    /** `game_update`: throw away frame `frame` and everything recorded after it,
        then record the current sample as frame `frame`. */
    method GameUpdate(frame: nat)
      modifies this`gameInputs
      ensures gameInputs == Recorded(old(gameInputs), currentInputs, frame)
    {
      ghost var before := gameInputs;
      var k := frame;
      var end := |gameInputs| + 1;
      while k < end
        invariant frame <= end ==> frame <= k <= end
        invariant frame > end ==> k == frame
        invariant |gameInputs| == if k - frame <= |before| then |before| - (k - frame) else 0
        invariant gameInputs == before[..|gameInputs|]
      {
        if |gameInputs| > 0 {
          gameInputs := gameInputs[..|gameInputs| - 1];
        }
        k := k + 1;
      }
      gameInputs := gameInputs + [currentInputs];
    }

    /** `get_inputs`: the sample of frame `frame`, neutral for frames 0 and -1.
        Beyond the recorded frames the source's `unwrap` fails. */
    function GetInputs(frame: int): (r: seq<ControllerInput>)
      reads this`gameInputs
      requires -1 <= frame <= |gameInputs|
      ensures frame <= 0 ==> r == emptyInputs
      ensures (forall k :: 0 <= k < |gameInputs| ==> |gameInputs[k]| == |emptyInputs|)
              ==> |r| == |emptyInputs|
    {
      if frame == 0 || frame == -1 then emptyInputs else gameInputs[frame - 1]
    }

    /** What `players(frame)` needs in order not to fail: the frame is recorded and
        its predecessor has a sample for every slot it has. */
    predicate PlayersDefined(frame: nat)
      reads this`gameInputs
    {
      frame <= |gameInputs| && |GetInputs(frame)| <= |GetInputs(frame - 1)|
    }

    function PlayersAt(frame: nat): seq<PlayerInput>
      reads this`gameInputs
      requires PlayersDefined(frame)
    {
      PlayerInputsOf(GetInputs(frame), GetInputs(frame - 1))
    }

    /** `players`: the per-controller view of frame `frame`. */
    method Players(frame: nat) returns (result: seq<PlayerInput>)
      requires PlayersDefined(frame)
      ensures result == PlayersAt(frame)
    {
      var inputs := GetInputs(frame);
      var prevInputs := GetInputs(frame - 1);
      result := [];
      var i := 0;
      while i < |inputs|
        invariant 0 <= i <= |inputs|
        invariant |result| == i
        invariant forall k :: 0 <= k < i ==> result[k] == PlayerInputOf(inputs[k], prevInputs[k])
      {
        result := result + [PlayerInputOf(inputs[i], prevInputs[i])];
        i := i + 1;
      }
    }

    /** `start_held`: some controller of the current sample holds start. */
    method StartHeld() returns (held: bool)
      ensures held == AnyStart(currentInputs)
    {
      var i := 0;
      while i < |currentInputs|
        invariant 0 <= i <= |currentInputs|
        invariant forall k :: 0 <= k < i ==> !currentInputs[k].start
      {
        if currentInputs[i].start {
          return true;
        }
        i := i + 1;
      }
      return false;
    }

    /** `start_pressed`: an off -> on edge of "some controller holds start",
        latched in `prevStart` independently of the recorded history. */
    method StartPressed() returns (pressed: bool)
      modifies this`prevStart
      ensures pressed == (AnyStart(currentInputs) && !old(prevStart))
      ensures prevStart == AnyStart(currentInputs)
      ensures old(prevStart) == AnyStart(currentInputs) ==> !pressed
    {
      var held := StartHeld();
      pressed := !prevStart && held;
      prevStart := held;
    }

    /** `last_frame`: the index of the newest recorded sample. On an empty history
        the source's `usize` subtraction fails. */
    function LastFrame(): (last: nat)
      reads this`gameInputs
      requires |gameInputs| > 0
      ensures last < |gameInputs| && last + 1 == |gameInputs|
    {
      |gameInputs| - 1
    }
  }

  // ---------------------------------------------------------------------
  // Properties of the derived view
  // ---------------------------------------------------------------------

  /** Frame 0 reads the neutral sample twice, so every slot is `PlayerInput::empty()`. */
  lemma FrameZeroIsNeutral(input: Input)
    requires input.Valid()
    ensures input.PlayersDefined(0)
    ensures |input.PlayersAt(0)| == |input.emptyInputs|
    ensures forall i :: 0 <= i < |input.PlayersAt(0)| ==> input.PlayersAt(0)[i] == EmptyPlayerInput()
  {
  }

  /** With one sample per slot everywhere, every recorded frame can be viewed. */
  lemma UniformFramesDefined(input: Input, frame: nat)
    requires input.Uniform()
    requires frame <= |input.gameInputs|
    ensures input.PlayersDefined(frame)
    ensures |input.PlayersAt(frame)| == |input.emptyInputs|
  {
  }

  /** Edge detection over the recorded history: on frame `f`, a plugged-in
      controller's button is pressed iff it is held on `f` and was not held on
      `f - 1`, where frame 0 counts as "not held". */
  lemma PressIsRisingEdge(input: Input, frame: nat, slot: nat, name: ButtonName)
    requires input.Valid() && input.Uniform()
    requires 1 <= frame <= |input.gameInputs|
    requires slot < |input.emptyInputs|
    requires input.gameInputs[frame - 1][slot].pluggedIn
    ensures input.PlayersDefined(frame)
    ensures ButtonOf(input.PlayersAt(frame)[slot], name).press
            == (Held(input.gameInputs[frame - 1][slot], name)
                && !(frame >= 2 && Held(input.gameInputs[frame - 2][slot], name)))
  {
    assert input.PlayersAt(frame)[slot]
      == PlayerInputOf(input.GetInputs(frame)[slot], input.GetInputs(frame - 1)[slot]);
    ButtonIsEdge(input.GetInputs(frame)[slot], input.GetInputs(frame - 1)[slot], name);
  }

  /** On frame 1 the predecessor is neutral: every analog diff equals the value. */
  lemma FirstFrameDiffIsValue(input: Input, slot: nat, axis: AxisName)
    requires input.Valid() && input.Uniform()
    requires 1 <= |input.gameInputs|
    requires slot < |input.emptyInputs|
    ensures input.PlayersDefined(1)
    ensures DiffOf(input.PlayersAt(1)[slot], axis) == ValueOf(input.PlayersAt(1)[slot], axis)
  {
    assert input.PlayersAt(1)[slot] == PlayerInputOf(input.gameInputs[0][slot], input.emptyInputs[slot]);
    AxisIsDelta(input.gameInputs[0][slot], input.emptyInputs[slot], axis);
  }

  /** Reading back what `game_update(frame)` recorded: frame `frame` now
      yields the current sample, and every earlier frame reads as before. */
  lemma RecordedReadBack(input: Input, before: seq<seq<ControllerInput>>, frame: nat)
    requires 1 <= frame <= |before| + 1
    requires input.gameInputs == Recorded(before, input.currentInputs, frame)
    ensures frame <= |input.gameInputs| && input.GetInputs(frame) == input.currentInputs
    ensures forall f :: 1 <= f < frame ==> input.GetInputs(f) == before[f - 1]
  {
  }

  /** Replay forwards only asks for frames below `last_frame`, which are always viewable. */
  lemma FramesBeforeLastDefined(input: Input, frame: nat)
    requires input.Uniform()
    requires |input.gameInputs| > 0 && frame < input.LastFrame()
    ensures input.PlayersDefined(frame)
  {
  }
}
