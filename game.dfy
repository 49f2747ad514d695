/**
  The in-game stepper (`Game` in src/game.rs): the per-frame state machine
  over local play, netplay, pause and replay, the history of player
  snapshots it records and restores, and the debug controls of the pause
  screen.

  A `Player`'s physics is outside this model: its body is an opaque type and
  `Player::step` / `Player::new` are function parameters.
*/
module Game {
  import opened Wrappers
  import Input

  // ---------------------------------------------------------------------
  // Data
  // ---------------------------------------------------------------------

  /** The debug overlays a player can show. */
  datatype DebugPlayer = DebugPlayer(
    physics: bool,
    input: bool,
    inputDiff: bool,
    action: bool,
    frame: bool,
    stickVector: bool,
    cStickVector: bool,
    diVector: bool,
    player: bool,
    noFighter: bool)

  /** Everything of a player other than its debug flags. */
  type PlayerBody(==)

  datatype Player = Player(debug: DebugPlayer, body: PlayerBody)

  /** `Player::step`: a player, its controller's input and its fighter's index. */
  type Simulate = (Player, Input.PlayerInput, nat) -> Player

  /** `Player::new`: a spawn point and the stock count. */
  type Spawn = (Point, nat) -> Player

  datatype Point = Point(x: real, y: real)

  datatype Stage = Stage(spawnPoints: seq<Point>)

  /** The parts of a package the game reads. `timeLimit` is compared with
      elapsed seconds. */
  datatype Package = Package(fighterCount: nat, stages: seq<Stage>, stockCount: nat, timeLimit: nat)

  /** The keys the game reacts to. */
  datatype Key =
    | Grave | Key1 | Key2 | Key3 | Key4
    | J | K | H | L | Space | U | I
    | F1 | F2 | F3 | F4 | F5 | F6 | F7 | F8 | F9 | F11 | F12

  /** The keys pressed this frame and whether shift is held. */
  datatype OsInput = OsInput(pressed: set<Key>, shift: bool)

  datatype GameState = Local | ReplayForwards | ReplayBackwards | Netplay | Paused | Results

  /** What the pause screen edits: a player's fighter, a player, or the stage. */
  datatype Edit = EditFighter(player: nat) | EditPlayer(player: nat) | EditStage

  /** The collision boxes selected on the pause screen and the corner of a
      box selection in progress. */
  datatype Selector = Selector(collisionboxes: set<nat>, point: Option<(real, real)>)

  function Max(a: nat, b: nat): nat
  {
    if a >= b then a else b
  }

  // ---------------------------------------------------------------------
  // Building the game
  // ---------------------------------------------------------------------

  /** The player list of `Game::new`: one player per selected controller,
      cycling through the stage's spawn points. */
  method SpawnPlayers(spawnPoints: seq<Point>, count: nat, stockCount: nat, spawn: Spawn)
    returns (players: seq<Player>)
    requires count > 0 ==> |spawnPoints| > 0
    ensures |players| == count
    ensures forall i :: 0 <= i < count ==> players[i] == spawn(spawnPoints[i % |spawnPoints|], stockCount)
  {
    players := [];
    var i := 0;
    while i < count
      invariant 0 <= i <= count && |players| == i
      invariant forall k :: 0 <= k < i ==> players[k] == spawn(spawnPoints[k % |spawnPoints|], stockCount)
    {
      players := players + [spawn(spawnPoints[i % |spawnPoints|], stockCount)];
      i := i + 1;
    }
  }

  /** The fighter list of `Game::new`: the chosen fighters, padded by cycling
      through them until there is one per player. */
  method FillFighters(fighters: seq<nat>, playerCount: nat) returns (filled: seq<nat>)
    requires playerCount > |fighters| ==> |fighters| > 0
    ensures |filled| == Max(|fighters|, playerCount)
    ensures filled[..|fighters|] == fighters
    ensures forall k :: |fighters| <= k < |filled| ==> filled[k] == fighters[(k - |fighters|) % |fighters|]
    ensures forall k :: 0 <= k < |filled| ==> filled[k] in fighters
  {
    filled := fighters;
    var wrap := |fighters|;
    if playerCount > wrap {
      var extra := playerCount - wrap;
      var i := 0;
      while i < extra
        invariant 0 <= i <= extra && |filled| == wrap + i
        invariant filled[..wrap] == fighters
        invariant forall k :: wrap <= k < |filled| ==> filled[k] == fighters[(k - wrap) % wrap]
      {
        filled := filled + [fighters[i % wrap]];
        i := i + 1;
      }
    }
  }

  // ---------------------------------------------------------------------
  // Pause-screen controls
  // ---------------------------------------------------------------------

  function DigitKey(k: nat): Key
    requires k < 4
  {
    [Key1, Key2, Key3, Key4][k]
  }

  /** Digit key `j + 1` is pressed and there is a player `j` for it to focus. */
  predicate FocusKey(os: OsInput, playersLen: nat, j: nat)
  {
    j < 4 && DigitKey(j) in os.pressed && j < playersLen
  }

  /** The edit focus after the pause screen reads the keys: grave focuses the
      stage; otherwise the lowest digit key with a player behind it focuses
      that player (its fighter, or the player itself with shift). */
  function EditFocus(edit: Edit, os: OsInput, playersLen: nat): (r: Edit)
    ensures Grave in os.pressed ==> r == EditStage
    ensures Grave !in os.pressed && (exists j :: 0 <= j < 4 && FocusKey(os, playersLen, j)) ==>
              && !r.EditStage?
              && FocusKey(os, playersLen, r.player)
              && (r.EditPlayer? <==> os.shift)
              && forall j :: 0 <= j < r.player ==> !FocusKey(os, playersLen, j)
    ensures Grave !in os.pressed && (forall j :: 0 <= j < 4 ==> !FocusKey(os, playersLen, j)) ==> r == edit
    ensures !edit.EditStage? && edit.player < playersLen && !r.EditStage? ==> r.player < playersLen
  {
    if Grave in os.pressed then EditStage
    else if FocusKey(os, playersLen, 0) then Focus(0, os.shift)
    else if FocusKey(os, playersLen, 1) then Focus(1, os.shift)
    else if FocusKey(os, playersLen, 2) then Focus(2, os.shift)
    else if FocusKey(os, playersLen, 3) then Focus(3, os.shift)
    else edit
  }

  function Focus(player: nat, shift: bool): Edit
  {
    if shift then EditPlayer(player) else EditFighter(player)
  }

  /** `DebugPlayer::default()`, taken to be all flags off. */
  function DefaultDebug(): DebugPlayer
  {
    DebugPlayer(false, false, false, false, false, false, false, false, false, false)
  }

  function AllDebug(): DebugPlayer
  {
    DebugPlayer(true, true, true, true, true, true, true, true, true, true)
  }

  /** `set_debug` on one player's flags: F12 restores the defaults, else F11
      turns everything on, else F1-F9 each toggle one flag (F2 the input
      overlay, or with shift the input-diff overlay). */
  function ToggledDebug(d: DebugPlayer, os: OsInput): (r: DebugPlayer)
    ensures F12 in os.pressed ==> r == DefaultDebug()
    ensures F12 !in os.pressed && F11 in os.pressed ==> r == AllDebug()
    ensures F12 !in os.pressed && F11 !in os.pressed ==>
              && (r.physics != d.physics <==> F1 in os.pressed)
              && (r.input != d.input <==> F2 in os.pressed && !os.shift)
              && (r.inputDiff != d.inputDiff <==> F2 in os.pressed && os.shift)
              && (r.action != d.action <==> F3 in os.pressed)
              && (r.frame != d.frame <==> F4 in os.pressed)
              && (r.stickVector != d.stickVector <==> F5 in os.pressed)
              && (r.cStickVector != d.cStickVector <==> F6 in os.pressed)
              && (r.diVector != d.diVector <==> F7 in os.pressed)
              && (r.player != d.player <==> F8 in os.pressed)
              && (r.noFighter != d.noFighter <==> F9 in os.pressed)
  {
    if F12 in os.pressed then DefaultDebug()
    else if F11 in os.pressed then AllDebug()
    else
      DebugPlayer(
        d.physics != (F1 in os.pressed),
        d.input != (F2 in os.pressed && !os.shift),
        d.inputDiff != (F2 in os.pressed && os.shift),
        d.action != (F3 in os.pressed),
        d.frame != (F4 in os.pressed),
        d.stickVector != (F5 in os.pressed),
        d.cStickVector != (F6 in os.pressed),
        d.diVector != (F7 in os.pressed),
        d.player != (F8 in os.pressed),
        d.noFighter != (F9 in os.pressed))
  }

  /** Pressing the same toggle keys on two frames cancels out. */
  lemma DebugTogglesCancel(d: DebugPlayer, os: OsInput)
    requires F11 !in os.pressed && F12 !in os.pressed
    ensures ToggledDebug(ToggledDebug(d, os), os) == d
  {
  }

  /** F11 and F12 set every flag, so pressing them again changes nothing. */
  lemma DebugPresetsSettle(d: DebugPlayer, os: OsInput)
    requires F11 in os.pressed || F12 in os.pressed
    ensures ToggledDebug(ToggledDebug(d, os), os) == ToggledDebug(d, os)
  {
  }

  // ---------------------------------------------------------------------
  // Frames
  // ---------------------------------------------------------------------

  /** The players after one simulated frame: each steps with the input of its
      own controller and its own fighter. */
  function SteppedPlayers(players: seq<Player>, inputs: seq<Input.PlayerInput>,
                          controllers: seq<nat>, fighters: seq<nat>, sim: Simulate): (r: seq<Player>)
    requires |players| <= |controllers| && |players| <= |fighters|
    requires forall i :: 0 <= i < |players| ==> controllers[i] < |inputs|
    ensures |r| == |players|
    ensures forall i :: 0 <= i < |r| ==> r[i] == sim(players[i], inputs[controllers[i]], fighters[i])
  {
    seq(|players|, i requires 0 <= i < |players| => sim(players[i], inputs[controllers[i]], fighters[i]))
  }

  /** The history `step_local` keeps before recording: snapshots past
      `frame` are thrown away, the rest is kept as it was. */
  function KeptHistory<T>(history: seq<T>, frame: nat): (r: seq<T>)
    ensures |r| == Min(|history|, frame + 1)
    ensures forall i :: 0 <= i < |r| ==> r[i] == history[i]
  {
    history[..Min(|history|, frame + 1)]
  }

  /** The timer of `step_game`: the game ends once the frame count, in whole
      seconds of 60 frames, exceeds the time limit, i.e. from frame
      `60 * (timeLimit + 1)` on. */
  predicate TimeUp(frame: nat, timeLimit: nat)
  {
    frame / 60 > timeLimit
  }

  /** The end of the game is a threshold: the time is up on frame
      `60 * (timeLimit + 1)` and on every later frame, and on no earlier one. */
  lemma TimeUpFrom(frame: nat, timeLimit: nat)
    ensures TimeUp(frame, timeLimit) <==> frame >= 60 * (timeLimit + 1)
  {
  }

  /** The flow-control key the pause screen acts on: the first of J, K, H,
      L, space, U and I that is pressed; with none of them, start is read. */
  datatype FlowKey =
    | StepBack | StepForward | StartReplayBack | StartReplayForward
    | Advance | Bookmark | ToBookmark | NoFlowKey

  function FlowKeyOf(os: OsInput): FlowKey
  {
    if Key.J in os.pressed then StepBack
    else if Key.K in os.pressed then StepForward
    else if Key.H in os.pressed then StartReplayBack
    else if Key.L in os.pressed then StartReplayForward
    else if Space in os.pressed then Advance
    else if Key.U in os.pressed then Bookmark
    else if Key.I in os.pressed then ToBookmark
    else NoFlowKey
  }

  /** The players after the debug keys act on the focused player (a fighter
      or player focus); the stage focus touches no one. */
  function Debugged(players: seq<Player>, edit: Edit, os: OsInput): seq<Player>
    requires !edit.EditStage? ==> edit.player < |players|
  {
    if edit.EditStage? then players
    else players[edit.player := players[edit.player].(debug := ToggledDebug(players[edit.player].debug, os))]
  }

  /** The selector with no box selected and no box selection in progress. */
  function Cleared(s: Selector): Selector
  {
    s.(collisionboxes := {}, point := None)
  }

  // ---------------------------------------------------------------------
  // The game object
  // ---------------------------------------------------------------------

  class Game {
    var state: GameState
    /** One snapshot of `players` per simulated frame. */
    var playerHistory: seq<seq<Player>>
    var currentFrame: nat
    /** The frame bookmarked with U and restored with I. */
    var savedFrame: nat
    var players: seq<Player>
    const selectedControllers: seq<nat>
    const selectedFighters: seq<nat>
    const selectedStage: nat
    var edit: Edit
    var selector: Selector

    /** One player per selected controller, a fighter for each, every
        snapshot a full player list, and an edit focus on an existing player. */
    ghost predicate Valid()
      reads this`players, this`playerHistory, this`edit
    {
      && |players| == |selectedControllers| <= |selectedFighters|
      && (forall k :: 0 <= k < |playerHistory| ==> |playerHistory[k]| == |players|)
      && (!edit.EditStage? ==> edit.player < |players|)
    }

    /** The package has the stage and every fighter this game uses. */
    predicate Fits(package: Package)
    {
      && selectedStage < |package.stages|
      && forall i :: 0 <= i < |selectedControllers| && i < |selectedFighters| ==>
           selectedFighters[i] < package.fighterCount
    }

    /** The input buffer has one slot per controller in every sample, and
        every selected controller is one of them. */
    ghost predicate Wired(input: Input.Input)
      reads input`currentInputs, input`gameInputs
    {
      && input.Valid()
      && input.Uniform()
      && forall i :: 0 <= i < |selectedControllers| ==> selectedControllers[i] < |input.emptyInputs|
    }

    /** How the frame counter, the snapshot history and the recorded input
        history stay in step, so that no lookup of a frame ever fails:
        local play and netplay record at most one frame ahead of the inputs
        (a game that has not simulated a frame yet may sit on any leftover
        history, which its first frame clears),
        a paused or replaying game sits on a recorded frame with a snapshot,
        and netplay keeps exactly one snapshot per frame. */
    ghost predicate Synced(input: Input.Input)
      reads this`currentFrame, this`playerHistory, this`state, input`currentInputs, input`gameInputs
    {
      && Wired(input)
      && currentFrame <= |input.gameInputs| + 1
      && currentFrame <= |playerHistory| + 1
      && (|input.gameInputs| <= |playerHistory| + 1
          || (currentFrame == 0 && playerHistory == [] && (state.Local? || state.Netplay?)))
      && |playerHistory| <= |input.gameInputs| + 2
      && (state.Paused? || state.ReplayForwards? || state.ReplayBackwards? ==>
            && 1 <= |input.gameInputs|
            && currentFrame <= |input.gameInputs|
            && currentFrame <= |playerHistory|)
      && (state.Netplay? ==> |playerHistory| == currentFrame)
    }

    /** `Game::new`. */
    constructor (package: Package, fighters: seq<nat>, stage: nat, netplay: bool,
                 controllers: seq<nat>, spawn: Spawn)
      requires stage < |package.stages|
      requires |controllers| > 0 ==> |package.stages[stage].spawnPoints| > 0
      requires |controllers| > |fighters| ==> |fighters| > 0
      ensures Valid()
      ensures state == (if netplay then Netplay else Local)
      ensures playerHistory == [] && currentFrame == 0 && savedFrame == 0
      ensures edit == EditStage && selector == Selector({}, None)
      ensures selectedControllers == controllers && selectedStage == stage
      ensures |players| == |controllers|
      ensures forall i :: 0 <= i < |players| ==>
                var points := package.stages[stage].spawnPoints;
                players[i] == spawn(points[i % |points|], package.stockCount)
      ensures |selectedFighters| == Max(|fighters|, |controllers|)
      ensures selectedFighters[..|fighters|] == fighters
      ensures forall k :: |fighters| <= k < |selectedFighters| ==>
                selectedFighters[k] == fighters[(k - |fighters|) % |fighters|]
    {
      var ps := SpawnPlayers(package.stages[stage].spawnPoints, |controllers|, package.stockCount, spawn);
      var filled := FillFighters(fighters, |controllers|);
      state := if netplay then Netplay else Local;
      playerHistory := [];
      currentFrame := 0;
      savedFrame := 0;
      players := ps;
      selectedControllers := controllers;
      selectedFighters := filled;
      selectedStage := stage;
      edit := EditStage;
      selector := Selector({}, None);
    }

    /** `set_paused`. */
    method SetPaused()
      modifies this`state, this`selector
      ensures state == Paused && selector.collisionboxes == {} && selector.point == None
    {
      state := Paused;
      selector := Cleared(selector);
    }

    /** The pause request shared by local play and both replays: a start
        press or space pauses. */
    method PauseOnRequest(input: Input.Input, os: OsInput) returns (paused: bool)
      modifies this`state, this`selector, input`prevStart
      ensures paused == ((Input.AnyStart(input.currentInputs) && !old(input.prevStart)) || Space in os.pressed)
      ensures input.prevStart == Input.AnyStart(input.currentInputs)
      ensures state == (if paused then Paused else old(state))
      ensures selector == (if paused then Cleared(old(selector)) else old(selector))
    {
      var started := input.StartPressed();
      paused := started || Space in os.pressed;
      if paused {
        SetPaused();
      }
    }

    /** `step_game`: every player simulates one frame; the timer may end the game. */
    method StepGame(package: Package, playerInputs: seq<Input.PlayerInput>, sim: Simulate)
      requires Valid() && Fits(package)
      requires forall i :: 0 <= i < |selectedControllers| ==> selectedControllers[i] < |playerInputs|
      modifies this`players, this`state
      ensures Valid()
      ensures players == SteppedPlayers(old(players), playerInputs, selectedControllers, selectedFighters, sim)
      ensures state == if TimeUp(currentFrame, package.timeLimit) then Results else old(state)
    {
      ghost var before := players;
      var i := 0;
      while i < |players|
        modifies this`players
        invariant 0 <= i <= |players| == |before|
        invariant forall k :: 0 <= k < i ==>
                    players[k] == sim(before[k], playerInputs[selectedControllers[k]], selectedFighters[k])
        invariant forall k :: i <= k < |players| ==> players[k] == before[k]
      {
        players := players[i := sim(players[i], playerInputs[selectedControllers[i]], selectedFighters[i])];
        i := i + 1;
      }
      if currentFrame / 60 > package.timeLimit {
        state := Results;
      }
    }

    /** The pop loop of `step_local`: drop every snapshot past the current frame. */
    method ForgetFuture()
      requires Valid()
      modifies this`playerHistory
      ensures Valid()
      ensures playerHistory == KeptHistory(old(playerHistory), currentFrame)
    {
      var end := |playerHistory|;
      var k := currentFrame + 1;
      while k < end
        invariant currentFrame + 1 <= k
        invariant currentFrame + 1 > end ==> k == currentFrame + 1
        invariant currentFrame + 1 <= end ==> k <= end
        invariant |playerHistory| == end - (k - (currentFrame + 1))
        invariant playerHistory == old(playerHistory)[..|playerHistory|]
      {
        playerHistory := playerHistory[..|playerHistory| - 1];
        k := k + 1;
      }
    }

    /** The frame both local play and netplay run: record the current sample
        as this frame's input, then simulate every player with it. */
    method RecordAndSimulate(package: Package, input: Input.Input, sim: Simulate)
      requires Valid() && Fits(package) && Wired(input)
      requires currentFrame <= |input.gameInputs| + 1
      modifies this`players, this`state, input`gameInputs
      ensures Valid() && Wired(input)
      ensures input.gameInputs == Input.Recorded(old(input.gameInputs), input.currentInputs, currentFrame)
      ensures |input.gameInputs| == (if currentFrame == 0 then 1 else currentFrame)
      ensures input.PlayersDefined(currentFrame)
      ensures players == SteppedPlayers(old(players), input.PlayersAt(currentFrame),
                                        selectedControllers, selectedFighters, sim)
      ensures state == if TimeUp(currentFrame, package.timeLimit) then Results else old(state)
    {
      input.GameUpdate(currentFrame);
      Input.UniformFramesDefined(input, currentFrame);
      var playerInputs := input.Players(currentFrame);
      StepGame(package, playerInputs, sim);
    }

    /** What `step_local` leaves behind: the snapshots past the current frame
        are forgotten, this frame is recorded and simulated and its snapshot
        kept; then a start press or space pauses with the frame counter
        frozen, and otherwise the counter advances. */
    twostate predicate LocalStepped(package: Package, input: Input.Input, os: OsInput, sim: Simulate)
      requires old(Valid()) && Wired(input)
      reads this`playerHistory, this`players, this`state, this`currentFrame, this`selector
      reads this`savedFrame, this`edit
      reads input`gameInputs, input`prevStart, input`currentInputs
    {
      var pause := (Input.AnyStart(input.currentInputs) && !old(input.prevStart)) || Space in os.pressed;
      && input.gameInputs == Input.Recorded(old(input.gameInputs), input.currentInputs, old(currentFrame))
      && input.PlayersDefined(old(currentFrame))
      && players == SteppedPlayers(old(players), input.PlayersAt(old(currentFrame)),
                                   selectedControllers, selectedFighters, sim)
      && playerHistory == KeptHistory(old(playerHistory), old(currentFrame)) + [players]
      && input.prevStart == Input.AnyStart(input.currentInputs)
      && savedFrame == old(savedFrame) && edit == old(edit)
      && (pause ==> state == Paused && currentFrame == old(currentFrame) && selector == Cleared(old(selector)))
      && (!pause ==> currentFrame == old(currentFrame) + 1 && selector == old(selector)
                     && state == if TimeUp(old(currentFrame), package.timeLimit) then Results else old(state))
    }

    /** `step_local`. */
    method StepLocal(package: Package, input: Input.Input, os: OsInput, sim: Simulate)
      requires Valid() && Fits(package) && Wired(input)
      requires currentFrame <= |input.gameInputs| + 1
      modifies this`playerHistory, this`players, this`state, this`currentFrame, this`selector
      modifies input`gameInputs, input`prevStart
      ensures Valid() && Wired(input)
      ensures LocalStepped(package, input, os, sim)
    {
      SimulateLocalFrame(package, input, sim);
      var paused := PauseOnRequest(input, os);
      if !paused {
        currentFrame := currentFrame + 1;
      }
    }

    /** The part of `step_local` before the pause request: later snapshots
        are forgotten, this frame is recorded and simulated, and its snapshot
        is appended. */
    method SimulateLocalFrame(package: Package, input: Input.Input, sim: Simulate)
      requires Valid() && Fits(package) && Wired(input)
      requires currentFrame <= |input.gameInputs| + 1
      modifies this`playerHistory, this`players, this`state, input`gameInputs
      ensures Valid() && Wired(input)
      ensures input.gameInputs == Input.Recorded(old(input.gameInputs), input.currentInputs, currentFrame)
      ensures input.PlayersDefined(currentFrame)
      ensures players == SteppedPlayers(old(players), input.PlayersAt(currentFrame),
                                        selectedControllers, selectedFighters, sim)
      ensures playerHistory == KeptHistory(old(playerHistory), currentFrame) + [players]
      ensures state == if TimeUp(currentFrame, package.timeLimit) then Results else old(state)
    {
      ForgetFuture();
      RecordAndSimulate(package, input, sim);
      playerHistory := playerHistory + [players];
    }

    /** What `step_netplay` leaves behind: this frame is recorded, simulated
        and its snapshot appended, and the counter advances; nothing is ever
        forgotten and the game never pauses. */
    twostate predicate NetplayStepped(package: Package, input: Input.Input, sim: Simulate)
      requires old(Valid()) && Wired(input)
      reads this`playerHistory, this`players, this`state, this`currentFrame
      reads this`savedFrame, this`edit, this`selector
      reads input`gameInputs, input`currentInputs, input`prevStart
    {
      && input.gameInputs == Input.Recorded(old(input.gameInputs), input.currentInputs, old(currentFrame))
      && input.PlayersDefined(old(currentFrame))
      && players == SteppedPlayers(old(players), input.PlayersAt(old(currentFrame)),
                                   selectedControllers, selectedFighters, sim)
      && playerHistory == old(playerHistory) + [players]
      && currentFrame == old(currentFrame) + 1
      && savedFrame == old(savedFrame) && edit == old(edit) && selector == old(selector)
      && input.prevStart == old(input.prevStart)
      && state == if TimeUp(old(currentFrame), package.timeLimit) then Results else old(state)
    }

    /** `step_netplay`. */
    method StepNetplay(package: Package, input: Input.Input, sim: Simulate)
      requires Valid() && Fits(package) && Wired(input)
      requires currentFrame <= |input.gameInputs| + 1
      modifies this`playerHistory, this`players, this`state, this`currentFrame
      modifies input`gameInputs
      ensures Valid() && Wired(input)
      ensures NetplayStepped(package, input, sim)
    {
      RecordAndSimulate(package, input, sim);
      playerHistory := playerHistory + [players];
      currentFrame := currentFrame + 1;
    }

    /** What `step_replay_forwards` leaves behind: below the newest recorded
        frame, the current frame is simulated again from its recorded inputs
        and the counter advances (H turns the replay round, a start press or
        space pauses); at the newest frame the game pauses. Nothing is
        recorded and no snapshot is taken. */
    twostate predicate ReplayedForwards(package: Package, input: Input.Input, os: OsInput, sim: Simulate)
      requires old(Valid() && Wired(input) && |input.gameInputs| > 0)
      reads this`players, this`state, this`currentFrame, this`selector
      reads this`playerHistory, this`savedFrame, this`edit
      reads input`prevStart, input`currentInputs, input`gameInputs
    {
      && playerHistory == old(playerHistory) && input.gameInputs == old(input.gameInputs)
      && savedFrame == old(savedFrame) && edit == old(edit)
      && if old(currentFrame < input.LastFrame()) then
        var pause := (Input.AnyStart(input.currentInputs) && !old(input.prevStart)) || Space in os.pressed;
        var timed := if TimeUp(old(currentFrame), package.timeLimit) then Results else old(state);
        && old(input.PlayersDefined(currentFrame))
        && players == SteppedPlayers(old(players), old(input.PlayersAt(currentFrame)),
                                     selectedControllers, selectedFighters, sim)
        && currentFrame == old(currentFrame) + 1
        && input.prevStart == Input.AnyStart(input.currentInputs)
        && state == (if pause then Paused else if Key.H in os.pressed then ReplayBackwards else timed)
        && selector == (if pause then Cleared(old(selector)) else old(selector))
      else
        && state == Paused && selector == Cleared(old(selector))
        && currentFrame == old(currentFrame) && players == old(players)
        && input.prevStart == old(input.prevStart)
    }

    /** `step_replay_forwards`. */
    method StepReplayForwards(package: Package, input: Input.Input, os: OsInput, sim: Simulate)
      requires Valid() && Fits(package) && Wired(input)
      requires |input.gameInputs| > 0
      modifies this`players, this`state, this`currentFrame, this`selector, input`prevStart
      ensures Valid()
      ensures ReplayedForwards(package, input, os, sim)
    {
      if currentFrame < input.LastFrame() {
        var playerInputs := input.Players(currentFrame);
        StepGame(package, playerInputs, sim);
        if Key.H in os.pressed {
          state := ReplayBackwards;
        }
        var _ := PauseOnRequest(input, os);
        currentFrame := currentFrame + 1;
      } else {
        SetPaused();
      }
    }

    /** What `step_replay_backwards` leaves behind: the previous frame's
        snapshot is restored, or at frame 0 the game pauses; then L turns the
        replay round, and otherwise a start press or space pauses. */
    twostate predicate ReplayedBackwards(input: Input.Input, os: OsInput)
      requires old(currentFrame <= |playerHistory|)
      reads this`players, this`state, this`currentFrame, this`selector
      reads this`playerHistory, this`savedFrame, this`edit
      reads input`prevStart, input`currentInputs, input`gameInputs
    {
      var pause := (Input.AnyStart(input.currentInputs) && !old(input.prevStart)) || Space in os.pressed;
      && playerHistory == old(playerHistory) && input.gameInputs == old(input.gameInputs)
      && savedFrame == old(savedFrame) && edit == old(edit)
      && (old(currentFrame) > 0 ==>
            currentFrame == old(currentFrame) - 1 && players == old(playerHistory)[old(currentFrame) - 1])
      && (old(currentFrame) == 0 ==> currentFrame == 0 && players == old(players))
      && (Key.L in os.pressed ==>
            && state == ReplayForwards
            && input.prevStart == old(input.prevStart)
            && selector == (if old(currentFrame) == 0 then Cleared(old(selector)) else old(selector)))
      && (Key.L !in os.pressed ==>
            && input.prevStart == Input.AnyStart(input.currentInputs)
            && state == (if pause || old(currentFrame) == 0 then Paused else old(state))
            && selector == (if pause || old(currentFrame) == 0 then Cleared(old(selector)) else old(selector)))
    }

    /** `step_replay_backwards`. */
    method StepReplayBackwards(input: Input.Input, os: OsInput)
      requires Valid() && currentFrame <= |playerHistory|
      modifies this`players, this`state, this`currentFrame, this`selector, input`prevStart
      ensures Valid()
      ensures ReplayedBackwards(input, os)
    {
      if currentFrame > 0 {
        var jumpTo := currentFrame - 1;
        players := playerHistory[jumpTo];
        currentFrame := jumpTo;
      } else {
        SetPaused();
      }

      if Key.L in os.pressed {
        state := ReplayForwards;
      } else {
        var _ := PauseOnRequest(input, os);
      }
    }

    /** `jump_frame`: return to the bookmarked frame, if a later snapshot exists. */
    method JumpFrame()
      requires Valid()
      modifies this`players, this`currentFrame
      ensures Valid()
      ensures savedFrame + 1 < |playerHistory| ==> currentFrame == savedFrame && players == playerHistory[savedFrame]
      ensures savedFrame + 1 >= |playerHistory| ==> currentFrame == old(currentFrame) && players == old(players)
    {
      var frame := savedFrame;
      if frame + 1 < |playerHistory| {
        players := playerHistory[frame];
        currentFrame := frame;
      }
    }

    /** `set_debug`: the debug keys act on player `player` only. */
    method SetDebug(os: OsInput, player: nat)
      requires Valid() && player < |players|
      modifies this`players
      ensures Valid()
      ensures players == old(players)[player := old(players)[player].(debug := ToggledDebug(old(players)[player].debug, os))]
    {
      players := players[player := players[player].(debug := ToggledDebug(players[player].debug, os))];
    }

    /** Space on the pause screen: the frame counter moves on and the next
        frame is simulated as local play does, recording the current sample
        for it and taking its snapshot; space pauses again at once. */
    method StepFromPause(package: Package, input: Input.Input, os: OsInput, sim: Simulate)
      requires Valid() && Fits(package) && Synced(input) && state.Paused? && Space in os.pressed
      modifies this`playerHistory, this`players, this`state, this`currentFrame, this`selector
      modifies input`gameInputs, input`prevStart
      ensures Valid() && Synced(input)
      ensures input.gameInputs == Input.Recorded(old(input.gameInputs), input.currentInputs, old(currentFrame) + 1)
      ensures input.PlayersDefined(old(currentFrame) + 1)
      ensures players == SteppedPlayers(old(players), input.PlayersAt(old(currentFrame) + 1),
                                        selectedControllers, selectedFighters, sim)
      ensures playerHistory == KeptHistory(old(playerHistory), old(currentFrame) + 1) + [players]
      ensures state == Paused && currentFrame == old(currentFrame) + 1
      ensures input.prevStart == Input.AnyStart(input.currentInputs) && selector == Cleared(old(selector))
    {
      currentFrame := currentFrame + 1;
      StepLocal(package, input, os, sim);
    }

    /** The players the flow-control keys of the pause screen leave: J
        restores the previous frame's snapshot, K simulates the current frame
        again from its recorded inputs, space simulates the next frame, and I
        restores the bookmarked frame's snapshot; the other keys leave the
        players alone. */
    twostate function FlowPlayers(input: Input.Input, os: OsInput, sim: Simulate): (r: seq<Player>)
      requires old(Valid() && Synced(input) && state.Paused?) && Wired(input)
      requires FlowKeyOf(os) == Advance ==> input.PlayersDefined(old(currentFrame) + 1)
      reads input`gameInputs, input`currentInputs
      ensures |r| == old(|players|)
    {
      match FlowKeyOf(os)
      case StepBack =>
        if old(currentFrame) > 0 then old(playerHistory[currentFrame - 1]) else old(players)
      case StepForward =>
        if old(currentFrame + 1 < |input.gameInputs|) then
          SteppedPlayers(old(players), old(input.PlayersAt(currentFrame)), selectedControllers, selectedFighters, sim)
        else old(players)
      case Advance =>
        SteppedPlayers(old(players), input.PlayersAt(old(currentFrame) + 1), selectedControllers, selectedFighters, sim)
      case ToBookmark =>
        if old(savedFrame + 1 < |playerHistory|) then old(playerHistory[savedFrame]) else old(players)
      case _ => old(players)
    }

    /** Everything but the players that the flow-control keys of the pause
        screen change, key by key in their order of priority (`FlowKeyOf`):
        J steps back and K forward as the replays do, H and L start a replay,
        space simulates the next frame, U bookmarks the current frame, I
        returns to the bookmark, and with none of them start resumes local
        play. Only space touches the histories, and only U the bookmark. */
    twostate predicate FlowControlled(package: Package, input: Input.Input, os: OsInput, sim: Simulate)
      requires old(Valid() && Synced(input) && state.Paused?) && Wired(input)
      reads this`state, this`currentFrame, this`savedFrame, this`playerHistory, this`selector
      reads input`gameInputs, input`prevStart, input`currentInputs
    {
      var key := FlowKeyOf(os);
      var started := Input.AnyStart(input.currentInputs) && !old(input.prevStart);
      var pause := started || Space in os.pressed;
      && savedFrame == (if key == Bookmark then old(currentFrame) else old(savedFrame))
      && (key != Advance ==> playerHistory == old(playerHistory) && input.gameInputs == old(input.gameInputs))
      && (key == StepBack ==>
            && currentFrame == (if old(currentFrame) > 0 then old(currentFrame) - 1 else 0)
            && state == (if Key.L in os.pressed then ReplayForwards else Paused)
            && input.prevStart == (if Key.L in os.pressed then old(input.prevStart)
                                   else Input.AnyStart(input.currentInputs))
            && selector == (if old(currentFrame) == 0 || (Key.L !in os.pressed && pause)
                            then Cleared(old(selector)) else old(selector)))
      && (key == StepForward ==>
            if old(currentFrame + 1 < |input.gameInputs|) then
              && currentFrame == old(currentFrame) + 1
              && input.prevStart == Input.AnyStart(input.currentInputs)
              && state == (if pause then Paused else if Key.H in os.pressed then ReplayBackwards
                           else if TimeUp(old(currentFrame), package.timeLimit) then Results else Paused)
              && selector == (if pause then Cleared(old(selector)) else old(selector))
            else
              && currentFrame == old(currentFrame) && state == Paused
              && input.prevStart == old(input.prevStart) && selector == Cleared(old(selector)))
      && (key == StartReplayBack || key == StartReplayForward || key == Bookmark ==>
            && currentFrame == old(currentFrame)
            && state == (if key == StartReplayBack then ReplayBackwards
                         else if key == StartReplayForward then ReplayForwards else Paused)
            && input.prevStart == old(input.prevStart) && selector == old(selector))
      && (key == Advance ==>
            && input.gameInputs == Input.Recorded(old(input.gameInputs), input.currentInputs, old(currentFrame) + 1)
            && input.PlayersDefined(old(currentFrame) + 1)
            && playerHistory == KeptHistory(old(playerHistory), old(currentFrame) + 1) + [FlowPlayers(input, os, sim)]
            && currentFrame == old(currentFrame) + 1 && state == Paused
            && input.prevStart == Input.AnyStart(input.currentInputs) && selector == Cleared(old(selector)))
      && (key == ToBookmark ==>
            && currentFrame == (if old(savedFrame + 1 < |playerHistory|) then old(savedFrame) else old(currentFrame))
            && state == Paused && input.prevStart == old(input.prevStart) && selector == old(selector))
      && (key == NoFlowKey ==>
            && currentFrame == old(currentFrame)
            && state == (if started then Local else Paused)
            && input.prevStart == Input.AnyStart(input.currentInputs) && selector == old(selector))
    }

    /** The flow-control keys of `step_pause`. */
    method PauseFlowControl(package: Package, input: Input.Input, os: OsInput, sim: Simulate)
      requires Valid() && Fits(package) && Synced(input) && state.Paused?
      modifies this`playerHistory, this`players, this`state, this`currentFrame, this`savedFrame, this`selector
      modifies input`gameInputs, input`prevStart
      ensures Valid() && Synced(input)
      ensures FlowControlled(package, input, os, sim)
      ensures players == FlowPlayers(input, os, sim)
    {
      match FlowKeyOf(os) {
        case StepBack => StepReplayBackwards(input, os);
        case StepForward => StepReplayForwards(package, input, os, sim);
        case Advance => StepFromPause(package, input, os, sim);
        case _ => PauseKeys(package, input, os, sim);
      }
    }

    /** The flow-control keys of `step_pause` that neither replay nor simulate:
        H, L, U, I, and start. */
    method PauseKeys(package: Package, input: Input.Input, os: OsInput, sim: Simulate)
      requires Valid() && Fits(package) && Synced(input) && state.Paused?
      requires FlowKeyOf(os) !in {StepBack, StepForward, Advance}
      modifies this`players, this`state, this`currentFrame, this`savedFrame, input`prevStart
      ensures Valid() && Synced(input)
      ensures FlowControlled(package, input, os, sim)
      ensures players == FlowPlayers(input, os, sim)
    {
      match FlowKeyOf(os) {
        case StartReplayBack => state := ReplayBackwards;
        case StartReplayForward => state := ReplayForwards;
        case Bookmark => savedFrame := currentFrame;
        case ToBookmark => JumpFrame();
        case NoFlowKey =>
          var started := input.StartPressed();
          if started {
            state := Local;
          }
      }
    }

    /** What `step_pause` leaves behind: the edit focus follows the grave and
        digit keys, the flow-control keys act as `FlowControlled` and
        `FlowPlayers` say, and then the debug keys toggle the flags of the
        focused player (the fighter or player focus; the stage focus touches
        no one). */
    twostate predicate PauseStepped(package: Package, input: Input.Input, os: OsInput, sim: Simulate)
      requires old(Valid() && Synced(input) && state.Paused?) && Wired(input)
      reads this`edit, this`players, this`state, this`currentFrame, this`savedFrame, this`playerHistory, this`selector
      reads input`gameInputs, input`prevStart, input`currentInputs
    {
      && edit == EditFocus(old(edit), os, old(|players|))
      && FlowControlled(package, input, os, sim)
      && players == Debugged(FlowPlayers(input, os, sim), edit, os)
    }

    /** `step_pause`. */
    method StepPause(package: Package, input: Input.Input, os: OsInput, sim: Simulate)
      requires Valid() && Fits(package) && Synced(input) && state.Paused?
      modifies this, input`gameInputs, input`prevStart
      ensures Valid() && Synced(input)
      ensures PauseStepped(package, input, os, sim)
    {
      // The flow-control keys neither read nor change the edit focus, so the
      // focus is computed first and stored after them.
      var focus := EditFocus(edit, os, |players|);
      PauseFlowControl(package, input, os, sim);
      assert FlowControlled(package, input, os, sim);
      DebugFocused(focus, os);
      assert FlowControlled(package, input, os, sim);
    }

    /** The new edit focus is stored, then the `match self.edit` of
        `step_pause` runs, as far as the debug keys go. */
    method DebugFocused(focus: Edit, os: OsInput)
      requires Valid() && (!focus.EditStage? ==> focus.player < |players|)
      modifies this`edit, this`players
      ensures Valid() && edit == focus
      ensures players == Debugged(old(players), focus, os)
    {
      edit := focus;
      match edit {
        case EditFighter(player) => SetDebug(os, player);
        case EditPlayer(player) => SetDebug(os, player);
        case EditStage =>
      }
    }

    /** `step`: one frame of whatever the game is doing, each state handled
        by its own step; Results is final. */
    method Step(package: Package, input: Input.Input, os: OsInput, sim: Simulate)
      requires Valid() && Fits(package) && Synced(input)
      modifies this, input`gameInputs, input`prevStart
      ensures Valid() && Synced(input)
      ensures old(state).Local? ==> LocalStepped(package, input, os, sim)
      ensures old(state).Netplay? ==> NetplayStepped(package, input, sim)
      ensures old(state).ReplayForwards? ==> ReplayedForwards(package, input, os, sim)
      ensures old(state).ReplayBackwards? ==> ReplayedBackwards(input, os)
      ensures old(state).Paused? ==> PauseStepped(package, input, os, sim)
      ensures old(state).Results? ==> state == Results && unchanged(this) && unchanged(input)
    {
      match state {
        case Local => StepLocal(package, input, os, sim);
        case Netplay => StepNetplay(package, input, sim);
        case Results =>
        case ReplayForwards => StepReplayForwards(package, input, os, sim);
        case ReplayBackwards => StepReplayBackwards(input, os);
        case Paused => StepPause(package, input, os, sim);
      }
    }
  }

  /** A game fresh from `Game::new` is in step with any input buffer whose
      samples have one entry per controller, whatever history the menu left
      in it: the first local or netplay frame, frame 0, clears that history. */
  lemma NewGameSynced(game: Game, input: Input.Input)
    requires game.currentFrame == 0 && game.playerHistory == []
    requires game.state == Local || game.state == Netplay
    requires game.Wired(input)
    ensures game.Synced(input)
  {
  }

  /** Stepping back and then forward on the pause screen does not return to
      the frame paused on. A local game that pauses on frame `c >= 1` has
      recorded inputs up to frame `c`, so `last_frame` is `c - 1`; J moves
      to frame `c - 1`, and K, which replays only frames before `last_frame`,
      leaves the game paused there with nothing recorded. */
  method PauseRewindReplay(game: Game, package: Package, input: Input.Input,
                           pause: OsInput, back: OsInput, forward: OsInput, sim: Simulate)
    requires game.Valid() && game.Fits(package) && game.Synced(input)
    requires game.state == Local && game.currentFrame >= 1 && Space in pause.pressed
    requires FlowKeyOf(back) == StepBack && Key.L !in back.pressed
    requires FlowKeyOf(forward) == StepForward
    modifies game, input`gameInputs, input`prevStart
    ensures game.state == Paused && game.currentFrame == old(game.currentFrame) - 1
    ensures |input.gameInputs| == old(game.currentFrame)
  {
    game.Step(package, input, pause, sim);
    game.Step(package, input, back, sim);
    game.Step(package, input, forward, sim);
  }
}
